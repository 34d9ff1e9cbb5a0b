/**
 * The speech endpoints under `/api/v1/voice`: transcription of an upload against an expected
 * text, text-to-speech into a stored clip, and retrieval of a stored clip by name. Each
 * request builds its own controller, so no controller state is shared between requests.
 */
module VoiceRoutes {

  import opened Wrappers
  import opened Text
  import opened Paths
  import opened FileSystem
  import opened VoiceController

  const RouteBadTypeDetail: string := "Invalid file type. Please upload an audio file."

  const NoSpeechDetail: string := "Failed to generate speech"

  const NotFoundDetail: string := "Audio file not found"

  const EmptyDetail: string := "Audio file is empty or corrupted"

  /** The exception mapping of `transcribe_audio`: an `HTTPException` passes unchanged, any
      other exception becomes status 500 with its message as the detail. */
  function ToHttp(f: Failure): (r: Failure)
    ensures r.HttpError?
    ensures f.HttpError? ==> r == f
    ensures f.Raised? ==> r == HttpError(500, f.message)
  {
    match f
    case HttpError(_, _) => f
    case Raised(message) => HttpError(500, message)
  }

  /** `POST /transcribe`: the route's own content-type gate, then a fresh controller processes
      the upload with an empty prompt; every failure leaves as an HTTP error. */
  method TranscribeAudio(client: GenerationClient, d0: Disk, upload: Upload, expectedText: string,
                         language: string, env: Env)
    returns (result: Result<TranscriptionResponse, Failure>, d: Disk)
    requires upload.filename.Some? ==> !Exists(d0, ScratchPath(env, upload.filename.value))
    ensures upload.contentType.Some? && !StartsWith(upload.contentType.value, "audio/") ==>
      result == Err(HttpError(400, RouteBadTypeDetail)) && d == d0
    ensures upload.contentType.None? ==> result == Err(HttpError(500, NoContentType)) && d == d0
    ensures result.Err? ==> result.error.HttpError? && result.error.status in {400, 500}
    ensures !Created(d0, upload, env) ==> d == d0 && result.Err?
    ensures upload.contentType.Some? && StartsWith(upload.contentType.value, "audio/") && upload.filename.Some?
            && CreateEmpty(d0, ScratchPath(env, upload.filename.value)).Err? ==>
      result == Err(HttpError(500, OsErrorText(CreateEmpty(d0, ScratchPath(env, upload.filename.value)).error)))
    ensures Created(d0, upload, env) && upload.content.Ok? && !Staged(d0, upload, env) ==>
      var scratch := ScratchPath(env, upload.filename.value);
      result == Err(HttpError(500, OsErrorTextNoPath(
        WriteFile(CreateEmpty(d0, scratch).value, scratch, upload.content.value).error)))
    ensures Staged(d0, upload, env) ==> ScratchPath(env, upload.filename.value) !in d.files
    ensures Staged(d0, upload, env) ==>
      var exit := StagedExit(client, d0, upload, expectedText, language, "", env);
      d == exit.disk && (exit.raised.Some? ==> result == Err(HttpError(500, exit.raised.value)))
    ensures result.Ok? <==> Response(client, d0, upload, expectedText, language, "", env).Some?
    ensures result.Ok? ==> result.value == Response(client, d0, upload, expectedText, language, "", env).value
  {
    d := d0;
    if upload.contentType.None? {
      return Err(HttpError(500, NoContentType)), d;
    }
    if !StartsWith(upload.contentType.value, "audio/") {
      return Err(HttpError(400, RouteBadTypeDetail)), d;
    }
    var controller := new Controller(client);
    result, d := controller.ProcessTranscription(d0, upload, expectedText, language, "", env);
    if result.Err? {
      result := Err(ToHttp(result.error));
    }
  }

  /** The name returned for a synthesized clip. */
  function TtsName(id: FileId): string {
    id + "_tts.mp3"
  }

  /** The relative path of the synthesized clip for `id`. */
  function TtsPath(id: FileId): Path {
    AudioDir + "/" + TtsName(id)
  }

  lemma NoSlashSuffixed(id: FileId, suffix: string)
    requires NoSlash(suffix)
    ensures NoSlash(id + suffix)
  {
    var s := id + suffix;
    assert forall k :: 0 <= k < |id| ==> s[k] == id[k];
    assert forall k :: |id| <= k < |s| ==> s[k] == suffix[k - |id|];
  }

  /** The directory the route creates, `os.path.dirname` of the clip's path, and the
      directory of the resolved clip path are both the audio directory. */
  lemma TtsDir(cwd: Path, id: FileId)
    ensures Dirname(TtsPath(id)) == AudioDir
    ensures Dirname(Resolve(cwd, TtsPath(id))) == Resolve(cwd, AudioDir)
  {
    NoSlashSuffixed(id, "_tts.mp3");
    DirnameOfChild(AudioDir, TtsName(id));
    DirnameOfJoined(cwd, AudioDir, TtsName(id));
  }

  /** Once the audio directory exists, writing the clip fails only at a faulty path or where
      a directory stands. */
  lemma TtsWriteFails(d0: Disk, d: Disk, cwd: Path, id: FileId, bytes: Bytes)
    requires MakeDirs(d0, Resolve(cwd, AudioDir)) == Ok(d)
    requires WriteFile(d, Resolve(cwd, TtsPath(id)), bytes).Err?
    ensures Resolve(cwd, TtsPath(id)) in d0.faulty || Resolve(cwd, TtsPath(id)) in d0.dirs
  {
    TtsDir(cwd, id);
  }

  /** `POST /text-to-speech`: a fresh controller synthesizes `text`; a stream is written to
      `assets/audio_changes/{id}_tts.mp3` (the directory created if missing) and its name is
      returned, no stream is status 500. A file-system error is raised as it is. */
  method TextToSpeech(client: GenerationClient, d0: Disk, cwd: Path, id: FileId, text: string)
    returns (result: Result<string, Failure>, d: Disk)
    ensures !client.speech(text).Stream? ==> result == Err(HttpError(500, NoSpeechDetail)) && d == d0
    ensures result.Ok? ==> client.speech(text).Stream? && result.value == TtsName(id)
    ensures result.Ok? ==> Resolve(cwd, AudioDir) in d.dirs && Resolve(cwd, TtsPath(id)) in d.files
    ensures result.Ok? ==> d.files[Resolve(cwd, TtsPath(id))] == client.speech(text).bytes
    ensures (client.speech(text).Stream? && MakeDirs(d0, Resolve(cwd, AudioDir)).Ok?
             && Resolve(cwd, TtsPath(id)) !in d0.faulty && Resolve(cwd, TtsPath(id)) !in d0.dirs) ==> result.Ok?
    ensures result.Err? && client.speech(text).Stream? ==> result.error.Raised?
    ensures client.speech(text).Stream? && MakeDirs(d0, Resolve(cwd, AudioDir)).Err? ==>
      result == Err(Raised(OsErrorText(AsPassed(MakeDirs(d0, Resolve(cwd, AudioDir)).error, AudioDir)))) && d == d0
    ensures client.speech(text).Stream? && MakeDirs(d0, Resolve(cwd, AudioDir)).Ok? ==>
      var written := WriteFile(MakeDirs(d0, Resolve(cwd, AudioDir)).value, Resolve(cwd, TtsPath(id)), client.speech(text).bytes);
      written.Err? ==> result == Err(Raised(OsErrorText(AsPassed(written.error, TtsPath(id)))))
    ensures forall p :: p in d0.files && p != Resolve(cwd, TtsPath(id)) ==> p in d.files && d.files[p] == d0.files[p]
    ensures d.files.Keys <= d0.files.Keys + {Resolve(cwd, TtsPath(id))}
    ensures d0.dirs <= d.dirs && d.faulty == d0.faulty
  {
    d := d0;
    var controller := new Controller(client);
    var audio := Synthesize(controller.client, text);
    if audio.None? {
      return Err(HttpError(500, NoSpeechDetail)), d;
    }
    var rel := TtsPath(id);
    var made := MakeDirs(d, Resolve(cwd, AudioDir));
    if made.Err? {
      return Err(Raised(OsErrorText(AsPassed(made.error, AudioDir)))), d;
    }
    d := made.value;
    var stored := WriteFile(d, Resolve(cwd, rel), audio.value);
    if stored.Err? {
      TtsWriteFails(d0, d, cwd, id, audio.value);
      return Err(Raised(OsErrorText(AsPassed(stored.error, rel)))), d;
    }
    d := stored.value;
    result := Ok(TtsName(id));
  }

  /** The file `get_audio` looks up: the absolute audio directory joined with `{audio_id}.mp3`. */
  function AudioPath(cwd: Path, audioId: string): Path {
    Join(Resolve(cwd, AudioDir), audioId + ".mp3")
  }

  /** `GET /audio/{audio_id}`: 404 when nothing exists at the path, 500 when it is an empty
      file, otherwise the file's bytes; a directory is not a file and fails when served. */
  function GetAudio(d: Disk, cwd: Path, audioId: string): (r: Result<Bytes, Failure>)
    ensures r.Ok? <==> AudioPath(cwd, audioId) in d.files && d.files[AudioPath(cwd, audioId)] != []
    ensures r.Ok? ==> r.value == d.files[AudioPath(cwd, audioId)]
    ensures !Exists(d, AudioPath(cwd, audioId)) ==> r == Err(HttpError(404, NotFoundDetail))
    ensures AudioPath(cwd, audioId) in d.files && d.files[AudioPath(cwd, audioId)] == [] ==>
      r == Err(HttpError(500, EmptyDetail))
  {
    var p := AudioPath(cwd, audioId);
    if !Exists(d, p) then Err(HttpError(404, NotFoundDetail))
    else if p !in d.files then Err(Raised("File at path " + p + " is not a file."))
    else if d.files[p] == [] then Err(HttpError(500, EmptyDetail))
    else Ok(d.files[p])
  }

  /** A relative `audio_id` names `assets/audio_changes/{audio_id}.mp3` under the working
      directory; one starting with a separator escapes it, since its contents are not checked. */
  lemma AudioPathResolves(cwd: Path, audioId: string)
    ensures audioId == [] || audioId[0] != '/' ==>
      AudioPath(cwd, audioId) == Resolve(cwd, AudioDir + "/" + audioId + ".mp3")
    ensures audioId != [] && audioId[0] == '/' ==> AudioPath(cwd, audioId) == audioId + ".mp3"
  {
    var name := audioId + ".mp3";
    if audioId == [] || audioId[0] != '/' {
      assert name[0] != '/';
      JoinJoin(cwd, AudioDir, name);
      assert AudioDir + "/" + audioId + ".mp3" == AudioDir + "/" + name;
    } else {
      assert name[0] == '/';
    }
  }

  /** Round trip of text-to-speech: the clip stored as `{id}_tts.mp3` is served under the
      name `{id}_tts`, while the name the route returns, `{id}_tts.mp3`, is looked up as
      `{id}_tts.mp3.mp3` and is not found unless such a file exists. */
  lemma TtsRoundTrip(d: Disk, cwd: Path, id: FileId)
    requires Resolve(cwd, TtsPath(id)) in d.files && d.files[Resolve(cwd, TtsPath(id))] != []
    ensures GetAudio(d, cwd, id + "_tts") == Ok(d.files[Resolve(cwd, TtsPath(id))])
    ensures !Exists(d, Resolve(cwd, TtsPath(id) + ".mp3")) ==>
      GetAudio(d, cwd, TtsName(id)) == Err(HttpError(404, NotFoundDetail))
  {
    var stem := id + "_tts";
    if id != [] { assert stem[0] == id[0]; }
    AudioPathResolves(cwd, stem);
    assert AudioDir + "/" + stem + ".mp3" == TtsPath(id);
    var named := TtsName(id);
    if id != [] { assert named[0] == id[0]; }
    AudioPathResolves(cwd, named);
    assert AudioDir + "/" + named + ".mp3" == TtsPath(id) + ".mp3";
  }

  /** Round trip of a replacement clip written by a transcription request: it is served under
      `{id}_replacement`, while the last segment of the announced URL, `{id}_replacement.mp3`,
      is looked up as `{id}_replacement.mp3.mp3` and is not found unless such a file exists. */
  lemma ReplacementRoundTrip(d: Disk, cwd: Path, id: FileId)
    requires Resolve(cwd, ReplacementPath(id)) in d.files && d.files[Resolve(cwd, ReplacementPath(id))] != []
    ensures GetAudio(d, cwd, id + "_replacement") == Ok(d.files[Resolve(cwd, ReplacementPath(id))])
    ensures ReplacementUrl(id) == "/audio/" + (id + "_replacement.mp3")
    ensures !Exists(d, Resolve(cwd, ReplacementPath(id) + ".mp3")) ==>
      GetAudio(d, cwd, id + "_replacement.mp3") == Err(HttpError(404, NotFoundDetail))
  {
    var stem := id + "_replacement";
    if id != [] { assert stem[0] == id[0]; }
    AudioPathResolves(cwd, stem);
    assert AudioDir + "/" + stem + ".mp3" == ReplacementPath(id);
    var named := id + "_replacement.mp3";
    if id != [] { assert named[0] == id[0]; }
    AudioPathResolves(cwd, named);
    assert AudioDir + "/" + named + ".mp3" == ReplacementPath(id) + ".mp3";
  }
}
