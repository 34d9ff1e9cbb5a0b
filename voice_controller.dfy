/**
 * The pronunciation controller: it compares a transcription with the text the speaker was
 * asked to read, word by word, and for every replaced word asks the speech engine for a clip
 * of the expected word, stored under `assets/audio_changes/`.
 *
 * The generation client (speech-to-text and text-to-speech) is a parameter: two functions
 * that stand for whatever the remote service answers.
 */
module VoiceController {

  import opened Wrappers
  import opened Text
  import opened Paths
  import opened FileSystem
  import Difflib

  /** One difference between the two texts, as `compare_texts` records it. */
  datatype Change = Added(text: string) | Removed(text: string) | Replaced(original: string, replacement: string)

  /** The change recorded for one non-equal opcode, `a` being the first text's tokens: inserted
      words come from the second text, deleted words from the first, and a replacement pairs the
      second text's words (original) with the first text's (replacement). */
  function ChangeOf(a: seq<string>, b: seq<string>, op: Difflib.Opcode): (c: Change)
    requires op.tag != Difflib.Equal
    requires op.a0 <= op.a1 <= |a| && op.b0 <= op.b1 <= |b|
    ensures c.Added? <==> op.tag.Insert?
    ensures c.Removed? <==> op.tag.Delete?
    ensures c.Replaced? <==> op.tag.Replace?
  {
    if op.tag == Difflib.Insert then Added(JoinWords(b[op.b0..op.b1]))
    else if op.tag == Difflib.Delete then Removed(JoinWords(a[op.a0..op.a1]))
    else Replaced(JoinWords(b[op.b0..op.b1]), JoinWords(a[op.a0..op.a1]))
  }

  /** The changes for the opcodes `ops`, one per opcode that is not `equal`, in order. */
  function Changes(a: seq<string>, b: seq<string>, ops: seq<Difflib.Opcode>): (r: seq<Change>)
    requires Difflib.InBounds(a, b, ops)
    ensures |r| == |NonEqual(ops)|
    decreases |ops|
  {
    if ops == [] then []
    else
      var last := ops[|ops| - 1];
      assert forall op :: op in ops[..|ops| - 1] ==> op in ops;
      Changes(a, b, ops[..|ops| - 1]) + (if last.tag == Difflib.Equal then [] else [ChangeOf(a, b, last)])
  }

  /** The differences between the word lists `a` and `b`: one per opcode that is not `equal`. */
  function Diff(a: seq<string>, b: seq<string>): (r: seq<Change>)
    ensures |r| == |NonEqual(Difflib.Opcodes(a, b))|
  {
    Difflib.OpcodesReplay(a, b);
    Changes(a, b, Difflib.Opcodes(a, b))
  }

  /** The differences between `text1` and `text2`, the word lists of their `split()`: one per
      opcode of the two word lists that is not `equal`. */
  function Compare(text1: string, text2: string): (r: seq<Change>)
    ensures |r| == |NonEqual(Difflib.Opcodes(Split(text1), Split(text2)))|
  {
    Diff(Split(text1), Split(text2))
  }

  /** The opcodes of `ops` whose tag is not `equal`, in order. */
  function NonEqual(ops: seq<Difflib.Opcode>): (r: seq<Difflib.Opcode>)
    ensures forall op :: op in r ==> op in ops && op.tag != Difflib.Equal
    decreases |ops|
  {
    if ops == [] then []
    else
      var last := ops[|ops| - 1];
      NonEqual(ops[..|ops| - 1]) + (if last.tag == Difflib.Equal then [] else [last])
  }

  /** Every opcode that is not `equal` is kept. */
  lemma {:induction false} NonEqualComplete(ops: seq<Difflib.Opcode>)
    ensures forall op :: op in ops && op.tag != Difflib.Equal ==> op in NonEqual(ops)
    decreases |ops|
  {
    if ops != [] {
      var init := ops[..|ops| - 1];
      NonEqualComplete(init);
      assert ops == init + [ops[|ops| - 1]];
    }
  }

  /** Filtering a concatenation filters each part. */
  lemma {:induction false} NonEqualAppend(x: seq<Difflib.Opcode>, y: seq<Difflib.Opcode>)
    ensures NonEqual(x + y) == NonEqual(x) + NonEqual(y)
    decreases |y|
  {
    if y == [] {
      assert x + y == x;
    } else {
      var init, last := y[..|y| - 1], y[|y| - 1];
      var tail := if last.tag == Difflib.Equal then [] else [last];
      calc {
        NonEqual(x + y);
        == { assert x + y == (x + init) + [last]; }
        NonEqual((x + init) + [last]);
        == { NonEqualSnoc(x + init, last); }
        NonEqual(x + init) + tail;
        == { NonEqualAppend(x, init); }
        NonEqual(x) + NonEqual(init) + tail;
        == { NonEqualSnoc(init, last); assert y == init + [last]; }
        NonEqual(x) + NonEqual(y);
      }
    }
  }

  lemma NonEqualSnoc(s: seq<Difflib.Opcode>, op: Difflib.Opcode)
    ensures NonEqual(s + [op]) == NonEqual(s) + (if op.tag == Difflib.Equal then [] else [op])
  {
    assert (s + [op])[..|s|] == s;
  }

  /** Each change is the record of the non-equal opcode at the same position: one change per
      difference, of the kind the opcode's tag names, holding exactly the words of its spans. */
  lemma {:induction false} ChangesFollowOpcodes(a: seq<string>, b: seq<string>, ops: seq<Difflib.Opcode>)
    requires Difflib.InBounds(a, b, ops)
    ensures |Changes(a, b, ops)| == |NonEqual(ops)|
    ensures forall k :: 0 <= k < |NonEqual(ops)| ==>
      NonEqual(ops)[k] in ops && Changes(a, b, ops)[k] == ChangeOf(a, b, NonEqual(ops)[k])
    decreases |ops|
  {
    if ops != [] {
      var init, last := ops[..|ops| - 1], ops[|ops| - 1];
      assert forall op :: op in init ==> op in ops;
      ChangesFollowOpcodes(a, b, init);
      var c, e := Changes(a, b, init), NonEqual(init);
      assert Changes(a, b, ops) == c + (if last.tag == Difflib.Equal then [] else [ChangeOf(a, b, last)]);
      assert NonEqual(ops) == e + (if last.tag == Difflib.Equal then [] else [last]);
      forall k | 0 <= k < |NonEqual(ops)|
        ensures NonEqual(ops)[k] in ops && Changes(a, b, ops)[k] == ChangeOf(a, b, NonEqual(ops)[k])
      {
        if k < |e| {
          assert NonEqual(ops)[k] == e[k] && Changes(a, b, ops)[k] == c[k];
        }
      }
    }
  }

  /** Identical word lists have no differences. */
  lemma DiffOfIdentical(a: seq<string>)
    ensures Diff(a, a) == []
  {
    Difflib.OpcodesOfIdentical(a);
    if a != [] {
      var ops := Difflib.Opcodes(a, a);
      Difflib.OpcodesReplay(a, a);
      assert ops[..0] == [];
      assert ops[0].tag == Difflib.Equal;
      assert Changes(a, a, ops) == Changes(a, a, ops[..0]) + [];
    }
  }

  /** Texts with the same words have no differences, whatever their spacing. */
  lemma SameWordsNoChanges(text1: string, text2: string)
    requires Split(text1) == Split(text2)
    ensures Compare(text1, text2) == []
  {
    DiffOfIdentical(Split(text1));
  }

  /** A single differing final word is reported as one replacement, whose original is the word
      of the second list. */
  lemma DiffOfLastChanged(p: seq<string>, x: string, y: string)
    requires p != [] && x != y
    ensures Diff(p + [x], p + [y]) == [Replaced(y, x)]
  {
    var a, b := p + [x], p + [y];
    assert a[..|p|] == p == b[..|p|];
    DiffOfLastDiffering(a, b, |p|);
  }

  /** Two different single words are reported as one replacement, whose original is the word
      of the second list. */
  lemma DiffOfOneChanged(x: string, y: string)
    requires x != y
    ensures Diff([x], [y]) == [Replaced(y, x)]
  {
    Difflib.OpcodesOfOneChanged(x, y);
    var op := Difflib.Opcode(Difflib.Replace, 0, 1, 0, 1);
    assert [op][..0] == [];
    assert Changes([x], [y], [op]) == Changes([x], [y], []) + [ChangeOf([x], [y], op)];
    assert [x][0..1] == [x] && [y][0..1] == [y];
    assert ChangeOf([x], [y], op) == Replaced(y, x);
  }

  lemma DiffOfLastDiffering(a: seq<string>, b: seq<string>, n: nat)
    requires Difflib.LastDiffers(a, b, n)
    ensures Diff(a, b) == [Replaced(b[n], a[n])]
  {
    Difflib.OpcodesOfLastDiffering(a, b, n);
    DiffIsChanges(a, b);
    ChangesOfPrefixThenReplace(a, b, n, Difflib.Opcodes(a, b));
  }

  /** The differences are the changes of the opcodes, which stay within both lists. */
  lemma DiffIsChanges(a: seq<string>, b: seq<string>)
    ensures Difflib.InBounds(a, b, Difflib.Opcodes(a, b))
    ensures Diff(a, b) == Changes(a, b, Difflib.Opcodes(a, b))
  {
    Difflib.OpcodesReplay(a, b);
  }

  /** An `equal` prefix and then the replacement of word `n` give that one replacement. */
  lemma ChangesOfPrefixThenReplace(a: seq<string>, b: seq<string>, n: nat, ops: seq<Difflib.Opcode>)
    requires n < |a| && n < |b| && Difflib.InBounds(a, b, ops)
    requires ops == [Difflib.Opcode(Difflib.Equal, 0, n, 0, n), Difflib.Opcode(Difflib.Replace, n, n + 1, n, n + 1)]
    ensures Changes(a, b, ops) == [Replaced(b[n], a[n])]
  {
    ChangesOfEqualThenOther(a, b, ops);
    assert a[n..n + 1] == [a[n]] && b[n..n + 1] == [b[n]];
    assert ChangeOf(a, b, ops[1]) == Replaced(b[n], a[n]);
  }

  /** An `equal` opcode followed by another one gives the change of the second alone. */
  lemma ChangesOfEqualThenOther(a: seq<string>, b: seq<string>, ops: seq<Difflib.Opcode>)
    requires Difflib.InBounds(a, b, ops)
    requires |ops| == 2 && ops[0].tag == Difflib.Equal && ops[1].tag != Difflib.Equal
    ensures Changes(a, b, ops) == [ChangeOf(a, b, ops[1])]
  {
    assert ops[..1] == [ops[0]];
    assert ops[..1][..0] == [];
    assert Changes(a, b, ops[..1]) == Changes(a, b, ops[..0]) + [];
  }

  /** What `compare_texts(text1, text2)` returns: the change list of the two texts' words. */
  method CompareTexts(text1: string, text2: string) returns (changes: seq<Change>)
    ensures changes == Compare(text1, text2)
  {
    var a, b := Split(text1), Split(text2);
    Difflib.OpcodesReplay(a, b);
    changes := CollectChanges(a, b, Difflib.Opcodes(a, b));
  }

  /** The loop of `compare_texts`: one record per opcode that is not `equal`. */
  method CollectChanges(a: seq<string>, b: seq<string>, ops: seq<Difflib.Opcode>) returns (changes: seq<Change>)
    requires Difflib.InBounds(a, b, ops)
    ensures changes == Changes(a, b, ops)
  {
    changes := [];
    var k := 0;
    while k < |ops|
      invariant 0 <= k <= |ops|
      invariant Difflib.InBounds(a, b, ops[..k])
      invariant changes == Changes(a, b, ops[..k])
    {
      var op := ops[k];
      ChangesStep(a, b, ops, k);
      if op.tag == Difflib.Insert {
        changes := changes + [Added(JoinWords(b[op.b0..op.b1]))];
      } else if op.tag == Difflib.Delete {
        changes := changes + [Removed(JoinWords(a[op.a0..op.a1]))];
      } else if op.tag == Difflib.Replace {
        changes := changes + [Replaced(JoinWords(b[op.b0..op.b1]), JoinWords(a[op.a0..op.a1]))];
      }
      k := k + 1;
    }
    assert ops[..k] == ops;
  }

  /** One more opcode adds its change, unless it is `equal`. */
  lemma ChangesStep(a: seq<string>, b: seq<string>, ops: seq<Difflib.Opcode>, k: nat)
    requires Difflib.InBounds(a, b, ops) && k < |ops|
    ensures Difflib.InBounds(a, b, ops[..k]) && Difflib.InBounds(a, b, ops[..k + 1])
    ensures ops[k].a0 <= ops[k].a1 <= |a| && ops[k].b0 <= ops[k].b1 <= |b|
    ensures Changes(a, b, ops[..k + 1]) == Changes(a, b, ops[..k])
      + (if ops[k].tag == Difflib.Equal then [] else [ChangeOf(a, b, ops[k])])
  {
    assert ops[k] in ops;
    assert ops[..k + 1][..k] == ops[..k];
    assert forall o :: o in ops[..k + 1] ==> o in ops;
    assert forall o :: o in ops[..k] ==> o in ops;
  }

  // ---------------------------------------------------------------------
  // The response of a transcription request

  /** One entry of the response's change list (the `ChangeDetail` schema). */
  datatype ChangeDetail = ChangeDetail(
    kind: string,
    text: Option<string>,
    original: Option<string>,
    replacement: Option<string>,
    replacementAudioUrl: Option<string>,
    addedAudioUrl: Option<string>)

  datatype TranscriptionResponse = TranscriptionResponse(
    transcribedText: string,
    expectedText: string,
    changes: seq<ChangeDetail>,
    confidenceScore: Option<real>)

  /** An exception leaving a handler: an `HTTPException` with status and detail, or any other
      exception with its message. */
  datatype Failure = HttpError(status: int, detail: string) | Raised(message: string)

  /** What the speech engine answers for a text: an audio stream, no stream, or an exception. */
  datatype SpeechOutcome = Stream(bytes: Bytes) | NoAudio | SpeechRaised(message: string)

  /** The generation client: transcription of an audio file's bytes under a prompt and a
      language (the text, or the exception's message), and speech synthesis. */
  datatype GenerationClient = GenerationClient(
    transcribe: (Bytes, string, string) -> Result<string, string>,
    speech: string -> SpeechOutcome)

  /** An uploaded file: its declared content type and name (either may be missing) and what
      reading it gives. */
  datatype Upload = Upload(contentType: Option<string>, filename: Option<string>, content: Result<Bytes, string>)

  /** A generated identifier (the text of a `uuid4`): it never holds a separator. */
  type FileId = s: string | NoSlash(s)

  /** What one request sees of its surroundings: the working directory, the directory and
      random stem of the named temporary file, and the identifiers drawn one after another. */
  datatype Env = Env(cwd: Path, tempDir: Path, tempStem: string, uuids: nat -> FileId)

  const AudioDir: Path := "assets/audio_changes"

  const BadTypeDetail: string := "Invalid file type. Only audio files are accepted."

  const NoContentType: string := "'NoneType' object has no attribute 'startswith'"

  const NoFilename: string := "expected str, bytes or os.PathLike object, not NoneType"

  /** The `type` of a change entry. */
  function KindName(c: Change): string {
    match c
    case Added(_) => "added"
    case Removed(_) => "removed"
    case Replaced(_, _) => "replaced"
  }

  /** The relative path of the replacement clip for `id`. */
  function ReplacementPath(id: FileId): Path {
    AudioDir + "/" + id + "_replacement.mp3"
  }

  /** The directory `process_transcription` creates before writing a clip,
      `os.path.dirname` of the clip's path, is the audio directory. */
  lemma ReplacementDir(id: FileId)
    ensures Dirname(ReplacementPath(id)) == AudioDir
  {
    var name := id + "_replacement.mp3";
    assert ReplacementPath(id) == AudioDir + "/" + name;
    assert forall k :: 0 <= k < |name| ==> name[k] != '/' by {
      assert forall k :: 0 <= k < |id| ==> name[k] == id[k];
      assert forall k :: |id| <= k < |name| ==> name[k] == "_replacement.mp3"[k - |id|];
    }
    DirnameOfChild(AudioDir, name);
  }

  /** The URL under which the response announces the replacement clip for `id`. */
  function ReplacementUrl(id: FileId): string {
    "/audio/" + id + "_replacement.mp3"
  }

  /** The named temporary file for an upload called `filename`: the stem plus its extension. */
  function ScratchPath(env: Env, filename: string): Path {
    Join(env.tempDir, env.tempStem + SplitExt(filename).1)
  }

  /** `os.remove(p)` whose failure is only logged. */
  function RemoveQuietly(d: Disk, p: Path): (r: Disk)
    ensures r.dirs == d.dirs && r.faulty == d.faulty
    ensures r.files == if p in d.files && p !in d.faulty then d.files - {p} else d.files
  {
    match Remove(d, p)
    case Ok(d') => d'
    case Err(_) => d
  }

  /** `VoiceController.text_to_speech` over `client`: the stream, or nothing when the engine
      gives none or raises. */
  function Synthesize(client: GenerationClient, text: string): (r: Option<Bytes>)
    ensures r.Some? <==> client.speech(text).Stream?
    ensures r.Some? ==> r.value == client.speech(text).bytes
  {
    match client.speech(text)
    case Stream(bytes) => Some(bytes)
    case NoAudio => None
    case SpeechRaised(_) => None
  }

  /** The state after a prefix of the change list: the entries built, the disk, and how many
      identifiers were drawn. */
  datatype LoopState = LoopState(details: seq<ChangeDetail>, disk: Disk, drawn: nat)

  /** The file-system error that ended the loop, and the disk as the failed step left it. */
  datatype Stopped = Stopped(error: IoError, disk: Disk)

  /** The entry for one change, and the clip written for a replacement the engine voiced. */
  function Step(client: GenerationClient, env: Env, d: Disk, drawn: nat, c: Change): (r: Result<LoopState, Stopped>)
    ensures r.Ok? ==> |r.value.details| == 1 && Describes(client, c, r.value.details[0])
    ensures r.Ok? ==> drawn <= r.value.drawn <= drawn + 1
    ensures r.Ok? ==> d.files.Keys <= r.value.disk.files.Keys && d.dirs <= r.value.disk.dirs
    ensures r.Err? ==> c.Replaced? && client.speech(c.original).Stream?
    ensures r.Err? ==> r.error.disk.files == d.files && d.dirs <= r.error.disk.dirs
  {
    var entry := ChangeDetail(KindName(c), None, None, None, None, None);
    if !c.Replaced? then Ok(LoopState([entry], d, drawn))
    else
      var entry := entry.(original := Some(c.original), replacement := Some(c.replacement));
      match Synthesize(client, c.original)
      case None => Ok(LoopState([entry], d, drawn))
      case Some(bytes) =>
        var id := env.uuids(drawn);
        match SaveClip(d, env, id, bytes)
        case Err(e) => Err(e)
        case Ok(d2) => Ok(LoopState([entry.(replacementAudioUrl := Some(ReplacementUrl(id)))], d2, drawn + 1))
  }

  /** Creating the audio directory and streaming `bytes` into the clip file for `id`: the clip
      is the only file written, and directories are only added. A failed save writes no file
      but keeps a directory it made before the write failed. */
  function SaveClip(d: Disk, env: Env, id: FileId, bytes: Bytes): (r: Result<Disk, Stopped>)
    ensures r.Ok? ==> r.value.files == d.files[Resolve(env.cwd, ReplacementPath(id)) := bytes]
    ensures r.Ok? ==> r.value.faulty == d.faulty && d.dirs <= r.value.dirs
    ensures r.Err? ==> r.error.disk.files == d.files && r.error.disk.faulty == d.faulty
    ensures r.Err? ==> d.dirs <= r.error.disk.dirs <= d.dirs + {Resolve(env.cwd, AudioDir)}
  {
    match MakeDirs(d, Resolve(env.cwd, AudioDir))
    case Err(e) => Err(Stopped(AsPassed(e, AudioDir), d))
    case Ok(d1) =>
      match WriteFile(d1, Resolve(env.cwd, ReplacementPath(id)), bytes)
      case Err(e) => Err(Stopped(AsPassed(e, ReplacementPath(id)), d1))
      case Ok(d2) => Ok(d2)
  }

  /** The loop over `changes` from disk `d`, identifiers drawn from index `drawn` on; the first
      file-system error ends it, with the disk its step left. */
  function Enrich(client: GenerationClient, env: Env, d: Disk, drawn: nat, changes: seq<Change>): (r: Result<LoopState, Stopped>)
    ensures r.Ok? ==> |r.value.details| == |changes| && drawn <= r.value.drawn
    ensures r.Ok? ==> d.files.Keys <= r.value.disk.files.Keys && d.dirs <= r.value.disk.dirs
    ensures r.Err? ==> d.files.Keys <= r.error.disk.files.Keys && d.dirs <= r.error.disk.dirs
    decreases |changes|
  {
    if changes == [] then Ok(LoopState([], d, drawn))
    else
      match Enrich(client, env, d, drawn, changes[..|changes| - 1])
      case Err(e) => Err(e)
      case Ok(s) =>
        match Step(client, env, s.disk, s.drawn, changes[|changes| - 1])
        case Err(e) => Err(e)
        case Ok(t) => Ok(LoopState(s.details + t.details, t.disk, t.drawn))
  }

  /** The entry `e` describes change `c`: same kind, no text, the replaced words for a
      replacement, and a clip URL exactly when the engine voiced the original words. */
  predicate Describes(client: GenerationClient, c: Change, e: ChangeDetail) {
    && e.kind == KindName(c)
    && e.text.None? && e.addedAudioUrl.None?
    && (c.Replaced? ==>
          e.original == Some(c.original) && e.replacement == Some(c.replacement)
          && (e.replacementAudioUrl.Some? <==> client.speech(c.original).Stream?))
    && (!c.Replaced? ==> e.original.None? && e.replacement.None? && e.replacementAudioUrl.None?)
  }

  /** A loop that finishes over a non-empty list finished its prefix and then its last step. */
  lemma EnrichLast(client: GenerationClient, env: Env, d: Disk, drawn: nat, changes: seq<Change>)
    requires changes != [] && Enrich(client, env, d, drawn, changes).Ok?
    ensures var init := changes[..|changes| - 1];
      && Enrich(client, env, d, drawn, init).Ok?
      && var s := Enrich(client, env, d, drawn, init).value;
         && Step(client, env, s.disk, s.drawn, changes[|changes| - 1]).Ok?
         && var t := Step(client, env, s.disk, s.drawn, changes[|changes| - 1]).value;
            Enrich(client, env, d, drawn, changes).value == LoopState(s.details + t.details, t.disk, t.drawn)
  {
  }

  /** A finished loop yields one entry per change, each describing its change; it draws one
      identifier per voiced replacement and never removes a file or a directory. */
  lemma {:induction false} EnrichDescribes(client: GenerationClient, env: Env, d: Disk, drawn: nat, changes: seq<Change>)
    requires Enrich(client, env, d, drawn, changes).Ok?
    ensures var s := Enrich(client, env, d, drawn, changes).value;
      && |s.details| == |changes|
      && (forall k :: 0 <= k < |changes| ==> Describes(client, changes[k], s.details[k]))
      && drawn <= s.drawn && d.files.Keys <= s.disk.files.Keys && d.dirs <= s.disk.dirs
    decreases |changes|
  {
    if changes != [] {
      var init := changes[..|changes| - 1];
      EnrichLast(client, env, d, drawn, changes);
      EnrichDescribes(client, env, d, drawn, init);
      var s := Enrich(client, env, d, drawn, init).value;
      var c := changes[|changes| - 1];
      var t := Step(client, env, s.disk, s.drawn, c).value;
      var f := Enrich(client, env, d, drawn, changes).value;
      assert f.details == s.details + t.details;
      forall k | 0 <= k < |changes|
        ensures Describes(client, changes[k], f.details[k])
      {
        if k < |init| {
          assert changes[k] == init[k] && f.details[k] == s.details[k];
        } else {
          assert changes[k] == c && f.details[k] == t.details[0];
        }
      }
    }
  }

  /** The clip for the identifier drawn at index `n` is on `disk` and holds `bytes`. */
  predicate HoldsClip(env: Env, disk: Disk, n: nat, bytes: Bytes) {
    var p := Resolve(env.cwd, ReplacementPath(env.uuids(n)));
    p in disk.files && disk.files[p] == bytes
  }

  /** When the entry for change `c` announces a clip, it is the clip of an identifier drawn at
      an index in `[lo, hi)`, and that file holds the stream the engine gave for the original. */
  ghost predicate ClipStored(client: GenerationClient, env: Env, disk: Disk, lo: nat, hi: nat, c: Change, e: ChangeDetail) {
    c.Replaced? && e.replacementAudioUrl.Some? && client.speech(c.original).Stream? ==>
      exists n: nat :: lo <= n < hi && e.replacementAudioUrl == Some(ReplacementUrl(env.uuids(n)))
        && HoldsClip(env, disk, n, client.speech(c.original).bytes)
  }

  ghost predicate Injective(ids: nat -> FileId) {
    forall m: nat, n: nat :: m != n ==> ids(m) != ids(n)
  }

  /** A step writes only the clip of the identifier it draws, so clips drawn earlier stay. */
  lemma StepKeepsClip(client: GenerationClient, env: Env, d: Disk, drawn: nat, c: Change, n: nat, bytes: Bytes)
    requires Injective(env.uuids)
    requires n < drawn && HoldsClip(env, d, n, bytes)
    requires Step(client, env, d, drawn, c).Ok?
    ensures HoldsClip(env, Step(client, env, d, drawn, c).value.disk, n, bytes)
  {
    var t := Step(client, env, d, drawn, c).value;
    if t.disk != d {
      ReplacementPathsDistinct(env.uuids(drawn), env.uuids(n));
    }
  }

  /** A step that announces a clip drew the identifier at `drawn` and stored the engine's
      stream for the original words under it. */
  lemma StepStoresClip(client: GenerationClient, env: Env, d: Disk, drawn: nat, c: Change)
    requires Step(client, env, d, drawn, c).Ok?
    ensures var t := Step(client, env, d, drawn, c).value;
      ClipStored(client, env, t.disk, drawn, t.drawn, c, t.details[0])
  {
    var t := Step(client, env, d, drawn, c).value;
    if c.Replaced? && t.details[0].replacementAudioUrl.Some? && client.speech(c.original).Stream? {
      assert drawn < t.drawn && t.details[0].replacementAudioUrl == Some(ReplacementUrl(env.uuids(drawn)))
        && HoldsClip(env, t.disk, drawn, client.speech(c.original).bytes);
    }
  }

  /** A clip stored before a step stays stored after it, the range of drawn indices grown. */
  lemma ClipStoredAfterStep(client: GenerationClient, env: Env, s: LoopState, lo: nat, c: Change, c0: Change, e: ChangeDetail)
    requires Injective(env.uuids)
    requires ClipStored(client, env, s.disk, lo, s.drawn, c0, e)
    requires Step(client, env, s.disk, s.drawn, c).Ok?
    ensures var t := Step(client, env, s.disk, s.drawn, c).value;
      ClipStored(client, env, t.disk, lo, t.drawn, c0, e)
  {
    var t := Step(client, env, s.disk, s.drawn, c).value;
    if c0.Replaced? && e.replacementAudioUrl.Some? && client.speech(c0.original).Stream? {
      var bytes := client.speech(c0.original).bytes;
      var n: nat :| lo <= n < s.drawn && e.replacementAudioUrl == Some(ReplacementUrl(env.uuids(n)))
        && HoldsClip(env, s.disk, n, bytes);
      StepKeepsClip(client, env, s.disk, s.drawn, c, n, bytes);
      assert lo <= n < t.drawn && e.replacementAudioUrl == Some(ReplacementUrl(env.uuids(n)))
        && HoldsClip(env, t.disk, n, bytes);
    }
  }

  /** Every voiced replacement's clip is on disk: with distinct identifiers, the URL of each
      entry names the clip of an identifier drawn during the loop, and that file holds the
      stream the engine gave for the original words. */
  lemma {:induction false} EnrichStoresClips(client: GenerationClient, env: Env, d: Disk, drawn: nat, changes: seq<Change>)
    requires Injective(env.uuids)
    requires Enrich(client, env, d, drawn, changes).Ok?
    ensures var s := Enrich(client, env, d, drawn, changes).value;
      forall k :: 0 <= k < |changes| && k < |s.details| ==>
        ClipStored(client, env, s.disk, drawn, s.drawn, changes[k], s.details[k])
    decreases |changes|
  {
    if changes != [] {
      var init := changes[..|changes| - 1];
      EnrichLast(client, env, d, drawn, changes);
      EnrichStoresClips(client, env, d, drawn, init);
      EnrichDescribes(client, env, d, drawn, init);
      var s := Enrich(client, env, d, drawn, init).value;
      var c := changes[|changes| - 1];
      StepStoresClip(client, env, s.disk, s.drawn, c);
      var t := Step(client, env, s.disk, s.drawn, c).value;
      var f := Enrich(client, env, d, drawn, changes).value;
      assert f.details == s.details + t.details && f.disk == t.disk && f.drawn == t.drawn;
      forall k | 0 <= k < |changes| && k < |f.details|
        ensures ClipStored(client, env, f.disk, drawn, f.drawn, changes[k], f.details[k])
      {
        if k < |init| {
          assert changes[k] == init[k] && f.details[k] == s.details[k];
          ClipStoredAfterStep(client, env, s, drawn, c, init[k], s.details[k]);
        } else {
          assert changes[k] == c && f.details[k] == t.details[0];
          ClipStoredWiden(client, env, t.disk, drawn, s.drawn, t.drawn, c, t.details[0]);
        }
      }
    }
  }

  /** A clip stored from an identifier in `[mid, hi)` is one from `[lo, hi)` for `lo <= mid`. */
  lemma ClipStoredWiden(client: GenerationClient, env: Env, disk: Disk, lo: nat, mid: nat, hi: nat, c: Change, e: ChangeDetail)
    requires lo <= mid && ClipStored(client, env, disk, mid, hi, c, e)
    ensures ClipStored(client, env, disk, lo, hi, c, e)
  {
    if c.Replaced? && e.replacementAudioUrl.Some? && client.speech(c.original).Stream? {
      var n: nat :| mid <= n < hi && e.replacementAudioUrl == Some(ReplacementUrl(env.uuids(n)))
        && HoldsClip(env, disk, n, client.speech(c.original).bytes);
      assert lo <= n < hi;
    }
  }

  /** Distinct identifiers give distinct clip paths: the path determines the identifier. */
  lemma ReplacementPathsDistinct(id1: FileId, id2: FileId)
    ensures forall cwd :: Resolve(cwd, ReplacementPath(id1)) == Resolve(cwd, ReplacementPath(id2)) ==> id1 == id2
  {
    forall cwd | Resolve(cwd, ReplacementPath(id1)) == Resolve(cwd, ReplacementPath(id2))
      ensures id1 == id2
    {
      var p1, p2 := ReplacementPath(id1), ReplacementPath(id2);
      var suffix := "_replacement.mp3";
      var pre := AudioDir + "/";
      assert p1 == pre + id1 + suffix && p2 == pre + id2 + suffix;
      assert p1[0] != '/' && p2[0] != '/';
      var q := if cwd == [] || EndsWithSlash(cwd) then cwd else cwd + "/";
      assert Resolve(cwd, p1) == q + p1 && Resolve(cwd, p2) == q + p2;
      assert p1 == (q + p1)[|q|..] && p2 == (q + p2)[|q|..];
      assert p1 == p2;
      assert |id1| == |id2|;
      assert id1 == p1[|pre|..|pre| + |id1|];
      assert id2 == p2[|pre|..|pre| + |id2|];
    }
  }

  /** The upload was written to its temporary file, so the path is recorded for removal. */
  predicate Staged(d: Disk, upload: Upload, env: Env) {
    && upload.contentType.Some? && StartsWith(upload.contentType.value, "audio/")
    && upload.filename.Some?
    && CreateEmpty(d, ScratchPath(env, upload.filename.value)).Ok?
    && upload.content.Ok?
    && WriteFile(CreateEmpty(d, ScratchPath(env, upload.filename.value)).value,
                 ScratchPath(env, upload.filename.value), upload.content.value).Ok?
  }

  /** The temporary file was created. */
  predicate Created(d: Disk, upload: Upload, env: Env) {
    && upload.contentType.Some? && StartsWith(upload.contentType.value, "audio/")
    && upload.filename.Some?
    && CreateEmpty(d, ScratchPath(env, upload.filename.value)).Ok?
  }

  /** The disk once the upload is staged. */
  function StagedDisk(d: Disk, upload: Upload, env: Env): Disk
    requires Staged(d, upload, env)
  {
    WriteFile(CreateEmpty(d, ScratchPath(env, upload.filename.value)).value,
              ScratchPath(env, upload.filename.value), upload.content.value).value
  }

  /** An error in a prefix of the loop is the error of the whole loop. */
  lemma {:induction false} EnrichStopsAtError(client: GenerationClient, env: Env, d: Disk, drawn: nat, changes: seq<Change>, i: nat)
    requires i <= |changes| && Enrich(client, env, d, drawn, changes[..i]).Err?
    ensures Enrich(client, env, d, drawn, changes) == Enrich(client, env, d, drawn, changes[..i])
    decreases |changes| - i
  {
    if i < |changes| {
      assert changes[..i + 1][..i] == changes[..i];
      EnrichStopsAtError(client, env, d, drawn, changes, i + 1);
    } else {
      assert changes[..i] == changes;
    }
  }

  /** The response of a request that succeeds, or nothing when it raises: the upload must be
      staged, the transcription must succeed and the loop over the differences between the
      stripped transcription and the expected text must finish. */
  function Response(client: GenerationClient, d0: Disk, upload: Upload, expectedText: string,
                    language: string, prompt: string, env: Env): (r: Option<TranscriptionResponse>)
    ensures r.Some? ==> Staged(d0, upload, env) && client.transcribe(upload.content.value, prompt, language).Ok?
    ensures r.Some? ==> r.value.expectedText == expectedText && r.value.confidenceScore.None?
    ensures r.Some? ==> |r.value.changes| == |Compare(r.value.transcribedText, expectedText)|
  {
    if !Staged(d0, upload, env) then None
    else
      match client.transcribe(upload.content.value, prompt, language)
      case Err(_) => None
      case Ok(text) =>
        var heard := Strip(text);
        match Enrich(client, env, StagedDisk(d0, upload, env), 0, Compare(heard, expectedText))
        case Err(_) => None
        case Ok(s) => Some(TranscriptionResponse(heard, expectedText, s.details, None))
  }

  /** A successful response carries the stripped transcription, the expected text, no
      confidence score, and one entry per difference between the two, in order, each
      describing its difference. */
  lemma ResponseDescribes(client: GenerationClient, d0: Disk, upload: Upload, expectedText: string,
                          language: string, prompt: string, env: Env)
    requires Response(client, d0, upload, expectedText, language, prompt, env).Some?
    ensures var r := Response(client, d0, upload, expectedText, language, prompt, env).value;
      && Staged(d0, upload, env)
      && client.transcribe(upload.content.value, prompt, language).Ok?
      && r.transcribedText == Strip(client.transcribe(upload.content.value, prompt, language).value)
      && r.expectedText == expectedText && r.confidenceScore.None?
      && |r.changes| == |Compare(r.transcribedText, expectedText)|
      && forall k :: 0 <= k < |r.changes| ==>
           Describes(client, Compare(r.transcribedText, expectedText)[k], r.changes[k])
  {
    var heard := Strip(client.transcribe(upload.content.value, prompt, language).value);
    EnrichDescribes(client, env, StagedDisk(d0, upload, env), 0, Compare(heard, expectedText));
  }

  /** How a request whose upload was staged ends: the message raised by a failed transcription
      or by the file-system error that stopped the loop (none when the loop finished), and the
      disk once the temporary file is removed, quietly, from the disk as that exit left it. */
  datatype Exit = Exit(raised: Option<string>, disk: Disk)

  function StagedExit(client: GenerationClient, d0: Disk, upload: Upload, expectedText: string,
                      language: string, prompt: string, env: Env): Exit
    requires Staged(d0, upload, env)
  {
    var staged := StagedDisk(d0, upload, env);
    var scratch := ScratchPath(env, upload.filename.value);
    match client.transcribe(upload.content.value, prompt, language)
    case Err(e) => Exit(Some(e), RemoveQuietly(staged, scratch))
    case Ok(text) =>
      match Enrich(client, env, staged, 0, Compare(Strip(text), expectedText))
      case Err(stop) => Exit(Some(OsErrorText(stop.error)), RemoveQuietly(stop.disk, scratch))
      case Ok(s) => Exit(None, RemoveQuietly(s.disk, scratch))
  }

  class Controller {

    const client: GenerationClient

    var audioStorage: map<string, Bytes>

    constructor (client: GenerationClient)
      ensures this.client == client && audioStorage == map[]
    {
      this.client := client;
      audioStorage := map[];
    }

    /** `clear_storage`: the audio store is emptied. */
    method ClearStorage()
      modifies this
      ensures audioStorage == map[]
    {
      audioStorage := map[];
    }

    /** The loop of `process_transcription` over the differences: builds the entries, voicing
        each replacement's original words and writing the clip; a file-system error ends it.
        The temporary file `scratch` survives the loop. */
    method AnnotateChanges(staged: Disk, differences: seq<Change>, env: Env, scratch: Path)
      returns (details: seq<ChangeDetail>, d: Disk, failure: Option<IoError>)
      requires scratch in staged.files
      ensures failure.None? <==> Enrich(client, env, staged, 0, differences).Ok?
      ensures failure.None? ==> details == Enrich(client, env, staged, 0, differences).value.details
      ensures failure.None? ==> d == Enrich(client, env, staged, 0, differences).value.disk
      ensures failure.Some? ==> Enrich(client, env, staged, 0, differences) == Err(Stopped(failure.value, d))
      ensures scratch in d.files && d.faulty == staged.faulty && staged.dirs <= d.dirs
    {
      d := staged;
      details := [];
      var drawn := 0;
      failure := None;
      var i := 0;
      while i < |differences| && failure.None?
        invariant 0 <= i <= |differences|
        invariant failure.None? ==> Enrich(client, env, staged, 0, differences[..i]) == Ok(LoopState(details, d, drawn))
        invariant failure.Some? ==> Enrich(client, env, staged, 0, differences[..i]) == Err(Stopped(failure.value, d))
        invariant scratch in d.files && d.faulty == staged.faulty && staged.dirs <= d.dirs
      {
        var change := differences[i];
        assert differences[..i + 1][..i] == differences[..i];
        var entry;
        entry, d, drawn, failure := AnnotateChange(d, drawn, change, env);
        if failure.None? {
          details := details + [entry];
        }
        i := i + 1;
      }
      if failure.None? {
        assert differences[..i] == differences;
      } else {
        EnrichStopsAtError(client, env, staged, 0, differences, i);
      }
    }

    /** One pass of that loop: the entry for `change`, and the clip for a voiced replacement. */
    method AnnotateChange(d0: Disk, drawn0: nat, change: Change, env: Env)
      returns (entry: ChangeDetail, d: Disk, drawn: nat, failure: Option<IoError>)
      ensures failure.None? <==> Step(client, env, d0, drawn0, change).Ok?
      ensures failure.None? ==> Step(client, env, d0, drawn0, change).value == LoopState([entry], d, drawn)
      ensures failure.Some? ==> Step(client, env, d0, drawn0, change) == Err(Stopped(failure.value, d))
      ensures d0.files.Keys <= d.files.Keys && d.faulty == d0.faulty && d0.dirs <= d.dirs
    {
      d := d0;
      drawn := drawn0;
      failure := None;
      entry := ChangeDetail(KindName(change), None, None, None, None, None);
      if change.Replaced? {
        entry := entry.(original := Some(change.original), replacement := Some(change.replacement));
        var audio := Synthesize(client, change.original);
        if audio.Some? {
          var id := env.uuids(drawn);
          d, failure := StoreClip(d, env, id, audio.value);
          if failure.None? {
            drawn := drawn + 1;
            entry := entry.(replacementAudioUrl := Some(ReplacementUrl(id)));
          }
        }
      }
    }

    /** `os.makedirs` of the audio directory, then the stream written to the clip for `id`; a
        directory made before a failed write stays. */
    method StoreClip(d0: Disk, env: Env, id: FileId, bytes: Bytes) returns (d: Disk, failure: Option<IoError>)
      ensures failure.None? <==> SaveClip(d0, env, id, bytes).Ok?
      ensures failure.None? ==> d == SaveClip(d0, env, id, bytes).value
      ensures failure.Some? ==> SaveClip(d0, env, id, bytes) == Err(Stopped(failure.value, d))
      ensures d0.files.Keys <= d.files.Keys && d.faulty == d0.faulty && d0.dirs <= d.dirs
    {
      d := d0;
      failure := None;
      var made := MakeDirs(d, Resolve(env.cwd, AudioDir));
      if made.Err? {
        failure := Some(AsPassed(made.error, AudioDir));
      } else {
        d := made.value;
        var stored := WriteFile(d, Resolve(env.cwd, ReplacementPath(id)), bytes);
        if stored.Err? {
          failure := Some(AsPassed(stored.error, ReplacementPath(id)));
        } else {
          d := stored.value;
        }
      }
    }

    /** `process_transcription`: stages the upload in a temporary file, transcribes it, compares
        the stripped transcription (first) with the expected text (second), voices the original
        words of each replacement, and removes the temporary file on every exit after it was
        recorded. The disk is threaded through: the result is the response or the exception,
        with the disk afterwards. */
    method ProcessTranscription(d0: Disk, upload: Upload, expectedText: string, language: string,
                                prompt: string, env: Env)
      returns (result: Result<TranscriptionResponse, Failure>, d: Disk)
      requires upload.filename.Some? ==> !Exists(d0, ScratchPath(env, upload.filename.value))
      ensures upload.contentType.None? ==> result == Err(Raised(NoContentType)) && d == d0
      ensures upload.contentType.Some? && !StartsWith(upload.contentType.value, "audio/") ==>
        result == Err(HttpError(400, BadTypeDetail)) && d == d0
      ensures !Created(d0, upload, env) ==> d == d0 && result.Err?
      ensures Created(d0, upload, env) && !Staged(d0, upload, env) ==>
        d.files == d0.files[ScratchPath(env, upload.filename.value) := []] && result.Err?
      ensures upload.contentType.Some? && StartsWith(upload.contentType.value, "audio/") && upload.filename.Some?
              && CreateEmpty(d0, ScratchPath(env, upload.filename.value)).Err? ==>
        result == Err(Raised(OsErrorText(CreateEmpty(d0, ScratchPath(env, upload.filename.value)).error)))
      ensures Created(d0, upload, env) && upload.content.Ok? && !Staged(d0, upload, env) ==>
        var scratch := ScratchPath(env, upload.filename.value);
        result == Err(Raised(OsErrorTextNoPath(
          WriteFile(CreateEmpty(d0, scratch).value, scratch, upload.content.value).error)))
      ensures Staged(d0, upload, env) ==> ScratchPath(env, upload.filename.value) !in d.files
      ensures Staged(d0, upload, env) ==>
        var exit := StagedExit(client, d0, upload, expectedText, language, prompt, env);
        d == exit.disk && (exit.raised.Some? ==> result == Err(Raised(exit.raised.value)))
      ensures d0.dirs <= d.dirs && d.faulty == d0.faulty
      ensures result.Err? && result.error.HttpError? ==> result.error == HttpError(400, BadTypeDetail)
      ensures result.Ok? <==> Response(client, d0, upload, expectedText, language, prompt, env).Some?
      ensures result.Ok? ==> result.value == Response(client, d0, upload, expectedText, language, prompt, env).value
    {
      d := d0;
      if upload.contentType.None? {
        return Err(Raised(NoContentType)), d;
      }
      if !StartsWith(upload.contentType.value, "audio/") {
        return Err(HttpError(400, BadTypeDetail)), d;
      }
      if upload.filename.None? {
        return Err(Raised(NoFilename)), d;
      }
      var scratch := ScratchPath(env, upload.filename.value);
      var created := CreateEmpty(d, scratch);
      if created.Err? {
        return Err(Raised(OsErrorText(created.error))), d;
      }
      d := created.value;
      if upload.content.Err? {
        return Err(Raised(upload.content.error)), d;
      }
      var written := WriteFile(d, scratch, upload.content.value);
      if written.Err? {
        return Err(Raised(OsErrorTextNoPath(written.error))), d;
      }
      d := written.value;
      // From here on the temporary path is recorded and removed on every exit.
      var staged := d;
      var heard := client.transcribe(upload.content.value, prompt, language);
      if heard.Err? {
        d := RemoveQuietly(d, scratch);
        return Err(Raised(heard.error)), d;
      }
      var transcribed := Strip(heard.value);
      var differences := CompareTexts(transcribed, expectedText);
      var details, failure;
      details, d, failure := AnnotateChanges(staged, differences, env, scratch);
      d := RemoveQuietly(d, scratch);
      if failure.Some? {
        return Err(Raised(OsErrorText(failure.value))), d;
      }
      result := Ok(TranscriptionResponse(transcribed, expectedText, details, None));
    }
  }
}
