/**
 * The Ratcliff/Obershelp ("gestalt") matcher of Python's `difflib.SequenceMatcher`, for the
 * configuration the service uses: no junk predicate and no popular-element pruning.
 *
 * `FindLongestMatch` returns the longest matching block of a range, preferring the earliest
 * start in `a` and then the earliest start in `b`; `Blocks` recurses to the left and to the
 * right of it; `Collapse` merges adjacent blocks; `OpcodesFrom` reads the opcodes off the
 * resulting block list, as `get_opcodes` does.
 */
module Difflib {

  /** The matcher compares whole words. */
  type Token = string

  datatype Match = Match(i: nat, j: nat, size: nat)

  datatype Tag = Equal | Replace | Delete | Insert

  /** `(tag, a0, a1, b0, b1)`: the span `a[a0:a1]` of the first sequence against `b[b0:b1]`. */
  datatype Opcode = Opcode(tag: Tag, a0: nat, a1: nat, b0: nat, b1: nat)

  /** `a[i:i+k] == b[j:j+k]`. */
  predicate Agree(a: seq<Token>, b: seq<Token>, i: nat, j: nat, k: nat) {
    i + k <= |a| && j + k <= |b| && a[i..i + k] == b[j..j + k]
  }

  /** `(i, j, k)` is a matching block inside `a[alo:ahi]` and `b[blo:bhi]`. */
  predicate IsMatch(a: seq<Token>, b: seq<Token>, alo: nat, ahi: nat, blo: nat, bhi: nat, i: nat, j: nat, k: nat) {
    alo <= i && i + k <= ahi && blo <= j && j + k <= bhi && ahi <= |a| && bhi <= |b| && Agree(a, b, i, j, k)
  }

  /**
   * The contract of `find_longest_match`: `m` is a matching block, no block is longer, and of
   * the longest blocks it starts earliest in `a` and, among those, earliest in `b`.
   */
  ghost predicate IsLongestMatch(a: seq<Token>, b: seq<Token>, alo: nat, ahi: nat, blo: nat, bhi: nat, m: Match) {
    && IsMatch(a, b, alo, ahi, blo, bhi, m.i, m.j, m.size)
    && forall i: nat, j: nat, k: nat :: IsMatch(a, b, alo, ahi, blo, bhi, i, j, k) ==>
         k <= m.size && (k == m.size ==> m.i < i || (m.i == i && m.j <= j))
  }

  // ---------------------------------------------------------------------
  // find_longest_match

  /** Length of the longest common run starting at `a[i]` and `b[j]`, within `ahi` and `bhi`. */
  function Run(a: seq<Token>, b: seq<Token>, i: nat, j: nat, ahi: nat, bhi: nat): nat
    requires i <= ahi <= |a| && j <= bhi <= |b|
    decreases ahi - i
  {
    if i < ahi && j < bhi && a[i] == b[j] then 1 + Run(a, b, i + 1, j + 1, ahi, bhi) else 0
  }

  lemma {:induction false} RunMatches(a: seq<Token>, b: seq<Token>, alo: nat, ahi: nat, blo: nat, bhi: nat, i: nat, j: nat)
    requires alo <= i <= ahi <= |a| && blo <= j <= bhi <= |b|
    ensures IsMatch(a, b, alo, ahi, blo, bhi, i, j, Run(a, b, i, j, ahi, bhi))
    decreases ahi - i
  {
    if i < ahi && j < bhi && a[i] == b[j] {
      RunMatches(a, b, alo, ahi, blo, bhi, i + 1, j + 1);
      var k := Run(a, b, i, j, ahi, bhi);
      assert a[i..i + k] == [a[i]] + a[i + 1..i + k];
      assert b[j..j + k] == [b[j]] + b[j + 1..j + k];
    }
  }

  lemma {:induction false} MatchWithinRun(a: seq<Token>, b: seq<Token>, alo: nat, ahi: nat, blo: nat, bhi: nat, i: nat, j: nat, k: nat)
    requires IsMatch(a, b, alo, ahi, blo, bhi, i, j, k)
    ensures k <= Run(a, b, i, j, ahi, bhi)
    decreases k
  {
    if k > 0 {
      assert a[i] == a[i..i + k][0] == b[j..j + k][0] == b[j];
      assert a[i + 1..i + k] == a[i..i + k][1..] == b[j..j + k][1..] == b[j + 1..j + k];
      MatchWithinRun(a, b, alo, ahi, blo, bhi, i + 1, j + 1, k - 1);
    }
  }

  /** Position `(i', j')` comes before `(i, j)` in the row-major scan. */
  predicate Before(i': nat, j': nat, i: nat, j: nat) {
    i' < i || (i' == i && j' < j)
  }

  /**
   * What the scan knows once it has visited every start position before `(i, j)`: `best` has
   * the longest run seen so far, and no earlier position has a run that long.
   */
  ghost predicate ScanInv(a: seq<Token>, b: seq<Token>, alo: nat, ahi: nat, blo: nat, bhi: nat, i: nat, j: nat, best: Match)
    requires ahi <= |a| && bhi <= |b|
  {
    && (forall i': nat, j': nat :: alo <= i' < ahi && blo <= j' < bhi && Before(i', j', i, j) ==>
          Run(a, b, i', j', ahi, bhi) <= best.size)
    && (best.size == 0 ==> best.i == alo && best.j == blo)
    && (best.size > 0 ==>
          && alo <= best.i < ahi && blo <= best.j < bhi && Before(best.i, best.j, i, j)
          && Run(a, b, best.i, best.j, ahi, bhi) == best.size
          && forall i': nat, j': nat :: alo <= i' < ahi && blo <= j' < bhi && Before(i', j', best.i, best.j) ==>
               Run(a, b, i', j', ahi, bhi) < best.size)
  }

  /** Scans row `i` from column `j`, keeping the first strictly longer run. */
  function ScanRow(a: seq<Token>, b: seq<Token>, alo: nat, ahi: nat, blo: nat, bhi: nat, i: nat, j: nat, best: Match): (r: Match)
    requires alo <= i < ahi <= |a| && blo <= j <= bhi <= |b|
    requires ScanInv(a, b, alo, ahi, blo, bhi, i, j, best)
    ensures ScanInv(a, b, alo, ahi, blo, bhi, i + 1, blo, r)
    decreases bhi - j
  {
    if j == bhi then best
    else
      var k := Run(a, b, i, j, ahi, bhi);
      ScanRow(a, b, alo, ahi, blo, bhi, i, j + 1, if k > best.size then Match(i, j, k) else best)
  }

  /** Scans the rows `i` to `ahi - 1`. */
  function ScanRows(a: seq<Token>, b: seq<Token>, alo: nat, ahi: nat, blo: nat, bhi: nat, i: nat, best: Match): (r: Match)
    requires alo <= i <= ahi <= |a| && blo <= bhi <= |b|
    requires ScanInv(a, b, alo, ahi, blo, bhi, i, blo, best)
    ensures ScanInv(a, b, alo, ahi, blo, bhi, ahi, blo, r)
    decreases ahi - i
  {
    if i == ahi then best
    else ScanRows(a, b, alo, ahi, blo, bhi, i + 1, ScanRow(a, b, alo, ahi, blo, bhi, i, blo, best))
  }

  lemma LongestFromScan(a: seq<Token>, b: seq<Token>, alo: nat, ahi: nat, blo: nat, bhi: nat, best: Match)
    requires alo <= ahi <= |a| && blo <= bhi <= |b|
    requires ScanInv(a, b, alo, ahi, blo, bhi, ahi, blo, best)
    ensures IsLongestMatch(a, b, alo, ahi, blo, bhi, best)
  {
    if best.size > 0 {
      RunMatches(a, b, alo, ahi, blo, bhi, best.i, best.j);
    }
    forall i: nat, j: nat, k: nat | IsMatch(a, b, alo, ahi, blo, bhi, i, j, k)
      ensures k <= best.size && (k == best.size ==> best.i < i || (best.i == i && best.j <= j))
    {
      if k > 0 {
        MatchWithinRun(a, b, alo, ahi, blo, bhi, i, j, k);
        assert Before(i, j, ahi, blo);
      }
    }
  }

  /** `find_longest_match(alo, ahi, blo, bhi)`; `(alo, blo, 0)` when nothing matches. */
  function FindLongestMatch(a: seq<Token>, b: seq<Token>, alo: nat, ahi: nat, blo: nat, bhi: nat): (m: Match)
    requires alo <= ahi <= |a| && blo <= bhi <= |b|
    ensures IsLongestMatch(a, b, alo, ahi, blo, bhi, m)
  {
    var best := ScanRows(a, b, alo, ahi, blo, bhi, alo, Match(alo, blo, 0));
    LongestFromScan(a, b, alo, ahi, blo, bhi, best);
    best
  }

  /** The contract of `find_longest_match` determines its result. */
  lemma LongestMatchUnique(a: seq<Token>, b: seq<Token>, alo: nat, ahi: nat, blo: nat, bhi: nat, m1: Match, m2: Match)
    requires IsLongestMatch(a, b, alo, ahi, blo, bhi, m1)
    requires IsLongestMatch(a, b, alo, ahi, blo, bhi, m2)
    ensures m1 == m2
  {
    assert IsMatch(a, b, alo, ahi, blo, bhi, m2.i, m2.j, m2.size);
    assert IsMatch(a, b, alo, ahi, blo, bhi, m1.i, m1.j, m1.size);
  }

  // ---------------------------------------------------------------------
  // get_matching_blocks

  /**
   * Blocks in order, none empty, each starting at or after where the previous one (or the
   * cursor `(i, j)`) ended, all ending by `(ahi, bhi)`.
   */
  predicate Chain(r: seq<Match>, i: nat, j: nat, ahi: nat, bhi: nat)
    decreases |r|
  {
    if r == [] then i <= ahi && j <= bhi
    else i <= r[0].i && j <= r[0].j && 0 < r[0].size && Chain(r[1..], r[0].i + r[0].size, r[0].j + r[0].size, ahi, bhi)
  }

  predicate AllAgree(a: seq<Token>, b: seq<Token>, r: seq<Match>) {
    forall m :: m in r ==> Agree(a, b, m.i, m.j, m.size)
  }

  lemma ChainWeaken(r: seq<Match>, i: nat, j: nat, i': nat, j': nat, ahi: nat, bhi: nat)
    requires Chain(r, i, j, ahi, bhi) && i' <= i && j' <= j
    ensures Chain(r, i', j', ahi, bhi)
  {
  }

  lemma {:induction false} ChainConcat(l: seq<Match>, r: seq<Match>, i: nat, j: nat, x: nat, y: nat, ahi: nat, bhi: nat)
    requires Chain(l, i, j, x, y) && Chain(r, x, y, ahi, bhi)
    ensures Chain(l + r, i, j, ahi, bhi)
    decreases |l|
  {
    if l == [] {
      assert l + r == r;
      ChainWeaken(r, x, y, i, j, ahi, bhi);
    } else {
      assert (l + r)[0] == l[0];
      assert (l + r)[1..] == l[1..] + r;
      ChainConcat(l[1..], r, l[0].i + l[0].size, l[0].j + l[0].size, x, y, ahi, bhi);
    }
  }

  /**
   * The matching blocks of `a[alo:ahi]` and `b[blo:bhi]`, in increasing order: the longest
   * match, with the blocks of the part before it and of the part after it on either side.
   * `get_matching_blocks` collects the same blocks through a work queue and sorts them.
   */
  function Blocks(a: seq<Token>, b: seq<Token>, alo: nat, ahi: nat, blo: nat, bhi: nat): (r: seq<Match>)
    requires alo <= ahi <= |a| && blo <= bhi <= |b|
    ensures Chain(r, alo, blo, ahi, bhi)
    ensures AllAgree(a, b, r)
    decreases ahi - alo + bhi - blo
  {
    var m := FindLongestMatch(a, b, alo, ahi, blo, bhi);
    if m.size == 0 then []
    else
      var left := if alo < m.i && blo < m.j then Blocks(a, b, alo, m.i, blo, m.j) else [];
      var right := if m.i + m.size < ahi && m.j + m.size < bhi
                   then Blocks(a, b, m.i + m.size, ahi, m.j + m.size, bhi) else [];
      BlocksJoin(a, b, alo, ahi, blo, bhi, left, m, right);
      left + [m] + right
  }

  /** The blocks left of a match, the match, and the blocks right of it form one chain. */
  lemma BlocksJoin(a: seq<Token>, b: seq<Token>, alo: nat, ahi: nat, blo: nat, bhi: nat,
                   left: seq<Match>, m: Match, right: seq<Match>)
    requires 0 < m.size && Agree(a, b, m.i, m.j, m.size)
    requires Chain(left, alo, blo, m.i, m.j) && AllAgree(a, b, left)
    requires Chain(right, m.i + m.size, m.j + m.size, ahi, bhi) && AllAgree(a, b, right)
    ensures Chain(left + [m] + right, alo, blo, ahi, bhi)
    ensures AllAgree(a, b, left + [m] + right)
  {
    assert ([m] + right)[1..] == right;
    ChainConcat(left, [m] + right, alo, blo, m.i, m.j, ahi, bhi);
    assert left + [m] + right == left + ([m] + right);
  }

  /** The collapsing loop of `get_matching_blocks`: `cur` is the block being extended. */
  function Collapse(r: seq<Match>, cur: Match): (c: seq<Match>)
    ensures forall m :: m in c ==> 0 < m.size
    ensures 0 < cur.size ==> c != [] && c[0].i == cur.i && c[0].j == cur.j && cur.size <= c[0].size
    decreases |r|
  {
    if r == [] then (if cur.size > 0 then [cur] else [])
    else if cur.i + cur.size == r[0].i && cur.j + cur.size == r[0].j then
      Collapse(r[1..], Match(cur.i, cur.j, cur.size + r[0].size))
    else
      (if cur.size > 0 then [cur] else []) + Collapse(r[1..], r[0])
  }

  /** Two adjacent blocks on which both sequences agree merge into one such block. */
  lemma AgreeMerge(a: seq<Token>, b: seq<Token>, cur: Match, m: Match)
    requires Agree(a, b, cur.i, cur.j, cur.size) && Agree(a, b, m.i, m.j, m.size)
    requires cur.i + cur.size == m.i && cur.j + cur.size == m.j
    ensures Agree(a, b, cur.i, cur.j, cur.size + m.size)
  {
    assert a[cur.i..cur.i + cur.size + m.size] == a[cur.i..cur.i + cur.size] + a[m.i..m.i + m.size];
    assert b[cur.j..cur.j + cur.size + m.size] == b[cur.j..cur.j + cur.size] + b[m.j..m.j + m.size];
  }

  /** The rest of an agreeing chain is an agreeing chain from where its first block ends. */
  lemma ChainTail(a: seq<Token>, b: seq<Token>, r: seq<Match>, i: nat, j: nat, ahi: nat, bhi: nat)
    requires r != [] && Chain(r, i, j, ahi, bhi) && AllAgree(a, b, r)
    ensures Agree(a, b, r[0].i, r[0].j, r[0].size)
    ensures Chain(r[1..], r[0].i + r[0].size, r[0].j + r[0].size, ahi, bhi) && AllAgree(a, b, r[1..])
  {
    assert r[0] in r;
    assert forall m :: m in r[1..] ==> m in r;
  }

  lemma {:induction false} CollapseChain(a: seq<Token>, b: seq<Token>, r: seq<Match>, cur: Match, ahi: nat, bhi: nat)
    requires Agree(a, b, cur.i, cur.j, cur.size)
    requires Chain(r, cur.i + cur.size, cur.j + cur.size, ahi, bhi)
    requires AllAgree(a, b, r)
    ensures Chain(Collapse(r, cur), cur.i, cur.j, ahi, bhi)
    ensures AllAgree(a, b, Collapse(r, cur))
    decreases |r|
  {
    if r != [] {
      if cur.i + cur.size == r[0].i && cur.j + cur.size == r[0].j {
        var next := Match(cur.i, cur.j, cur.size + r[0].size);
        CollapseMerge(a, b, r, cur, ahi, bhi);
        CollapseChain(a, b, r[1..], next, ahi, bhi);
      } else {
        ChainTail(a, b, r, cur.i + cur.size, cur.j + cur.size, ahi, bhi);
        CollapseChain(a, b, r[1..], r[0], ahi, bhi);
        CollapseKeep(a, b, r, cur, ahi, bhi);
      }
    }
  }

  /** A block that touches the next one absorbs it, and the merged block agrees. */
  lemma CollapseMerge(a: seq<Token>, b: seq<Token>, r: seq<Match>, cur: Match, ahi: nat, bhi: nat)
    requires r != [] && cur.i + cur.size == r[0].i && cur.j + cur.size == r[0].j
    requires Agree(a, b, cur.i, cur.j, cur.size)
    requires Chain(r, cur.i + cur.size, cur.j + cur.size, ahi, bhi) && AllAgree(a, b, r)
    ensures var next := Match(cur.i, cur.j, cur.size + r[0].size);
      && Agree(a, b, next.i, next.j, next.size)
      && Chain(r[1..], next.i + next.size, next.j + next.size, ahi, bhi) && AllAgree(a, b, r[1..])
      && Collapse(r, cur) == Collapse(r[1..], next)
  {
    ChainTail(a, b, r, cur.i + cur.size, cur.j + cur.size, ahi, bhi);
    AgreeMerge(a, b, cur, r[0]);
  }

  /** A block that does not touch the next one is kept in front of the collapsed rest. */
  lemma CollapseKeep(a: seq<Token>, b: seq<Token>, r: seq<Match>, cur: Match, ahi: nat, bhi: nat)
    requires r != [] && !(cur.i + cur.size == r[0].i && cur.j + cur.size == r[0].j)
    requires Agree(a, b, cur.i, cur.j, cur.size) && cur.i + cur.size <= r[0].i && cur.j + cur.size <= r[0].j
    requires Chain(Collapse(r[1..], r[0]), r[0].i, r[0].j, ahi, bhi) && AllAgree(a, b, Collapse(r[1..], r[0]))
    ensures Chain(Collapse(r, cur), cur.i, cur.j, ahi, bhi)
    ensures AllAgree(a, b, Collapse(r, cur))
  {
    var rest := Collapse(r[1..], r[0]);
    assert Collapse(r, cur) == (if cur.size > 0 then [cur] else []) + rest;
    if cur.size > 0 {
      ChainWeaken(rest, r[0].i, r[0].j, cur.i + cur.size, cur.j + cur.size, ahi, bhi);
      ChainCons(a, b, cur, rest, ahi, bhi);
    } else {
      assert [] + rest == rest;
      ChainWeaken(rest, r[0].i, r[0].j, cur.i, cur.j, ahi, bhi);
    }
  }

  /** A non-empty agreeing block in front of an agreeing chain that starts after it. */
  lemma ChainCons(a: seq<Token>, b: seq<Token>, cur: Match, rest: seq<Match>, ahi: nat, bhi: nat)
    requires 0 < cur.size && Agree(a, b, cur.i, cur.j, cur.size)
    requires Chain(rest, cur.i + cur.size, cur.j + cur.size, ahi, bhi) && AllAgree(a, b, rest)
    ensures Chain([cur] + rest, cur.i, cur.j, ahi, bhi) && AllAgree(a, b, [cur] + rest)
  {
    assert ([cur] + rest)[0] == cur;
    assert ([cur] + rest)[1..] == rest;
  }

  /** Consecutive blocks never touch: each ends before the next starts in one sequence. */
  predicate NonTouching(c: seq<Match>) {
    forall k :: 0 <= k < |c| - 1 ==> c[k].i + c[k].size < c[k + 1].i || c[k].j + c[k].size < c[k + 1].j
  }

  /** Collapsing an ordered chain leaves no two consecutive blocks touching. */
  lemma {:induction false} CollapseNonTouching(r: seq<Match>, cur: Match, ahi: nat, bhi: nat)
    requires Chain(r, cur.i + cur.size, cur.j + cur.size, ahi, bhi)
    ensures NonTouching(Collapse(r, cur))
    decreases |r|
  {
    if r != [] {
      if cur.i + cur.size == r[0].i && cur.j + cur.size == r[0].j {
        CollapseNonTouching(r[1..], Match(cur.i, cur.j, cur.size + r[0].size), ahi, bhi);
      } else {
        var rest := Collapse(r[1..], r[0]);
        CollapseNonTouching(r[1..], r[0], ahi, bhi);
        assert Collapse(r, cur) == (if cur.size > 0 then [cur] else []) + rest;
        if cur.size > 0 {
          var c := [cur] + rest;
          forall k | 0 <= k < |c| - 1
            ensures c[k].i + c[k].size < c[k + 1].i || c[k].j + c[k].size < c[k + 1].j
          {
            if k > 0 {
              assert c[k] == rest[k - 1] && c[k + 1] == rest[k];
            }
          }
        } else {
          assert [] + rest == rest;
        }
      }
    }
  }

  /** As `get_matching_blocks` documents: of two adjacent triples where the second is not the
      sentinel, the first ends before the second starts in at least one sequence. */
  lemma MatchingBlocksNotAdjacent(a: seq<Token>, b: seq<Token>)
    ensures var r := MatchingBlocks(a, b);
      forall k :: 0 <= k < |r| - 2 ==> r[k].i + r[k].size < r[k + 1].i || r[k].j + r[k].size < r[k + 1].j
  {
    var c := Collapse(Blocks(a, b, 0, |a|, 0, |b|), Match(0, 0, 0));
    CollapseNonTouching(Blocks(a, b, 0, |a|, 0, |b|), Match(0, 0, 0), |a|, |b|);
    var r := MatchingBlocks(a, b);
    assert r == c + [Match(|a|, |b|, 0)];
    forall k | 0 <= k < |r| - 2
      ensures r[k].i + r[k].size < r[k + 1].i || r[k].j + r[k].size < r[k + 1].j
    {
      assert r[k] == c[k] && r[k + 1] == c[k + 1];
    }
  }

  /** `get_matching_blocks()`: merged blocks followed by the sentinel `(len(a), len(b), 0)`;
      the blocks are non-empty, increase in both sequences, and both agree on each. */
  function MatchingBlocks(a: seq<Token>, b: seq<Token>): (r: seq<Match>)
    ensures Walk(a, b, r, 0, 0)
  {
    var blocks := Blocks(a, b, 0, |a|, 0, |b|);
    CollapseChain(a, b, blocks, Match(0, 0, 0), |a|, |b|);
    ChainWalk(a, b, Collapse(blocks, Match(0, 0, 0)), 0, 0);
    Collapse(blocks, Match(0, 0, 0)) + [Match(|a|, |b|, 0)]
  }

  // ---------------------------------------------------------------------
  // get_opcodes

  /** The opcode for the gap between the cursor `(i, j)` and the next block at `(ai, bj)`. */
  function GapOp(i: nat, j: nat, ai: nat, bj: nat): seq<Opcode> {
    if i < ai && j < bj then [Opcode(Replace, i, ai, j, bj)]
    else if i < ai then [Opcode(Delete, i, ai, j, bj)]
    else if j < bj then [Opcode(Insert, i, ai, j, bj)]
    else []
  }

  function OpcodesFrom(blocks: seq<Match>, i: nat, j: nat): seq<Opcode>
    decreases |blocks|
  {
    if blocks == [] then []
    else
      var m := blocks[0];
      GapOp(i, j, m.i, m.j)
      + (if m.size > 0 then [Opcode(Equal, m.i, m.i + m.size, m.j, m.j + m.size)] else [])
      + OpcodesFrom(blocks[1..], m.i + m.size, m.j + m.size)
  }

  /** `SequenceMatcher(None, a, b).get_opcodes()`; it meets its documented contract: the
      opcodes tile both sequences. */
  function Opcodes(a: seq<Token>, b: seq<Token>): (r: seq<Opcode>)
    ensures Tiles(a, b, r, 0, 0)
  {
    OpcodesFromTile(a, b, MatchingBlocks(a, b), 0, 0);
    OpcodesFrom(MatchingBlocks(a, b), 0, 0)
  }

  // ---------------------------------------------------------------------
  // The get_opcodes contract

  /** One opcode on its own: spans in range, `equal` spans identical, the other tags as documented. */
  predicate WellFormed(a: seq<Token>, b: seq<Token>, op: Opcode) {
    && op.a0 <= op.a1 <= |a| && op.b0 <= op.b1 <= |b|
    && match op.tag
       case Equal => op.a1 - op.a0 == op.b1 - op.b0 > 0 && a[op.a0..op.a1] == b[op.b0..op.b1]
       case Replace => op.a0 < op.a1 && op.b0 < op.b1
       case Delete => op.a0 < op.a1 && op.b0 == op.b1
       case Insert => op.a0 == op.a1 && op.b0 < op.b1
  }

  /**
   * The opcodes tile `a[i:]` and `b[j:]`: the first starts at `(i, j)`, each starts where the
   * previous one ended, and the last ends at `(len(a), len(b))`.
   */
  predicate Tiles(a: seq<Token>, b: seq<Token>, ops: seq<Opcode>, i: nat, j: nat)
    decreases |ops|
  {
    if ops == [] then i == |a| && j == |b|
    else ops[0].a0 == i && ops[0].b0 == j && WellFormed(a, b, ops[0]) && Tiles(a, b, ops[1..], ops[0].a1, ops[0].b1)
  }

  lemma TilesCons(a: seq<Token>, b: seq<Token>, op: Opcode, rest: seq<Opcode>)
    requires WellFormed(a, b, op) && Tiles(a, b, rest, op.a1, op.b1)
    ensures Tiles(a, b, [op] + rest, op.a0, op.b0)
  {
    assert ([op] + rest)[1..] == rest;
  }

  /**
   * Blocks as `get_opcodes` walks them from the cursor `(i, j)`: non-empty agreeing blocks in
   * increasing order, ending with the sentinel `(len(a), len(b), 0)`.
   */
  predicate Walk(a: seq<Token>, b: seq<Token>, blocks: seq<Match>, i: nat, j: nat)
    decreases |blocks|
  {
    if |blocks| <= 1 then blocks == [Match(|a|, |b|, 0)] && i <= |a| && j <= |b|
    else
      var m := blocks[0];
      && i <= m.i && j <= m.j && 0 < m.size && Agree(a, b, m.i, m.j, m.size)
      && Walk(a, b, blocks[1..], m.i + m.size, m.j + m.size)
  }

  /** A chain of agreeing blocks followed by the sentinel is a walk. */
  lemma {:induction false} ChainWalk(a: seq<Token>, b: seq<Token>, c: seq<Match>, i: nat, j: nat)
    requires Chain(c, i, j, |a|, |b|)
    requires AllAgree(a, b, c)
    ensures Walk(a, b, c + [Match(|a|, |b|, 0)], i, j)
    decreases |c|
  {
    if c != [] {
      ChainTail(a, b, c, i, j, |a|, |b|);
      ChainWalk(a, b, c[1..], c[0].i + c[0].size, c[0].j + c[0].size);
      assert (c + [Match(|a|, |b|, 0)])[1..] == c[1..] + [Match(|a|, |b|, 0)];
    }
  }

  lemma {:induction false} OpcodesFromTile(a: seq<Token>, b: seq<Token>, blocks: seq<Match>, i: nat, j: nat)
    requires Walk(a, b, blocks, i, j)
    ensures Tiles(a, b, OpcodesFrom(blocks, i, j), i, j)
    decreases |blocks|
  {
    var m := blocks[0];
    if |blocks| == 1 {
      OpcodesFromCons(m, [], i, j);
      assert [m] + [] == blocks;
      GapTiles(a, b, i, j, |a|, |b|, []);
    } else {
      OpcodesFromTile(a, b, blocks[1..], m.i + m.size, m.j + m.size);
      var tail := OpcodesFrom(blocks[1..], m.i + m.size, m.j + m.size);
      OpcodesFromTileStep(a, b, m, tail, i, j);
      OpcodesFromCons(m, blocks[1..], i, j);
      assert [m] + blocks[1..] == blocks;
    }
  }

  /** A block the sequences agree on, with a gap before it, extends a tiling of what follows it. */
  lemma OpcodesFromTileStep(a: seq<Token>, b: seq<Token>, m: Match, tail: seq<Opcode>, i: nat, j: nat)
    requires i <= m.i && j <= m.j && 0 < m.size && Agree(a, b, m.i, m.j, m.size)
    requires Tiles(a, b, tail, m.i + m.size, m.j + m.size)
    ensures Tiles(a, b, GapOp(i, j, m.i, m.j) + ([Opcode(Equal, m.i, m.i + m.size, m.j, m.j + m.size)] + tail), i, j)
  {
    var eq := Opcode(Equal, m.i, m.i + m.size, m.j, m.j + m.size);
    assert WellFormed(a, b, eq);
    TilesCons(a, b, eq, tail);
    GapTiles(a, b, i, j, m.i, m.j, [eq] + tail);
  }

  /** One step of the `get_opcodes` loop. */
  lemma OpcodesFromCons(m: Match, blocks: seq<Match>, i: nat, j: nat)
    ensures OpcodesFrom([m] + blocks, i, j) ==
      GapOp(i, j, m.i, m.j)
      + ((if m.size > 0 then [Opcode(Equal, m.i, m.i + m.size, m.j, m.j + m.size)] else [])
         + OpcodesFrom(blocks, m.i + m.size, m.j + m.size))
  {
    assert ([m] + blocks)[0] == m;
    assert ([m] + blocks)[1..] == blocks;
  }

  /** The gap opcode (if any) from the cursor to the next block continues a tiling. */
  lemma GapTiles(a: seq<Token>, b: seq<Token>, i: nat, j: nat, ai: nat, bj: nat, rest: seq<Opcode>)
    requires i <= ai <= |a| && j <= bj <= |b|
    requires Tiles(a, b, rest, ai, bj)
    ensures Tiles(a, b, GapOp(i, j, ai, bj) + rest, i, j)
  {
    var gap := GapOp(i, j, ai, bj);
    if gap != [] {
      assert gap + rest == [gap[0]] + rest;
      TilesCons(a, b, gap[0], rest);
    } else {
      assert gap + rest == rest;
    }
  }

  /** The `b` side of an opcode: what replaying it against `a` produces. */
  function Target(a: seq<Token>, b: seq<Token>, op: Opcode): seq<Token>
    requires op.a0 <= op.a1 <= |a| && op.b0 <= op.b1 <= |b|
  {
    match op.tag
    case Equal => a[op.a0..op.a1]
    case Delete => []
    case Insert => b[op.b0..op.b1]
    case Replace => b[op.b0..op.b1]
  }

  predicate InBounds(a: seq<Token>, b: seq<Token>, ops: seq<Opcode>) {
    forall op :: op in ops ==> op.a0 <= op.a1 <= |a| && op.b0 <= op.b1 <= |b|
  }

  /** Replaying the opcodes against `a`: equal spans copied from `a`, the others taken from `b`. */
  function Apply(a: seq<Token>, b: seq<Token>, ops: seq<Opcode>): seq<Token>
    requires InBounds(a, b, ops)
    decreases |ops|
  {
    if ops == [] then [] else Target(a, b, ops[0]) + Apply(a, b, ops[1..])
  }

  /** The `a` side of the opcodes: the spans of `a` they consume, in order. */
  function Consumed(a: seq<Token>, b: seq<Token>, ops: seq<Opcode>): seq<Token>
    requires InBounds(a, b, ops)
    decreases |ops|
  {
    if ops == [] then [] else a[ops[0].a0..ops[0].a1] + Consumed(a, b, ops[1..])
  }

  lemma {:induction false} TilesInBounds(a: seq<Token>, b: seq<Token>, ops: seq<Opcode>, i: nat, j: nat)
    requires Tiles(a, b, ops, i, j)
    ensures InBounds(a, b, ops)
    decreases |ops|
  {
    if ops != [] {
      TilesInBounds(a, b, ops[1..], ops[0].a1, ops[0].b1);
      assert ops == [ops[0]] + ops[1..];
    }
  }

  /** Tiling opcodes rebuild the rest of `b` when replayed, and consume exactly the rest of `a`. */
  lemma {:induction false} ApplyTiles(a: seq<Token>, b: seq<Token>, ops: seq<Opcode>, i: nat, j: nat)
    requires Tiles(a, b, ops, i, j)
    ensures InBounds(a, b, ops)
    ensures Apply(a, b, ops) == b[j..]
    ensures Consumed(a, b, ops) == a[i..]
    decreases |ops|
  {
    TilesInBounds(a, b, ops, i, j);
    if ops != [] {
      ApplyTiles(a, b, ops[1..], ops[0].a1, ops[0].b1);
      ApplyStep(a, b, ops, i, j);
    }
  }

  /** The first opcode of a tiling contributes `b[j:b1]` when replayed and consumes `a[i:a1]`. */
  lemma ApplyStep(a: seq<Token>, b: seq<Token>, ops: seq<Opcode>, i: nat, j: nat)
    requires ops != [] && Tiles(a, b, ops, i, j) && InBounds(a, b, ops)
    requires InBounds(a, b, ops[1..])
    requires Apply(a, b, ops[1..]) == b[ops[0].b1..] && Consumed(a, b, ops[1..]) == a[ops[0].a1..]
    ensures Apply(a, b, ops) == b[j..]
    ensures Consumed(a, b, ops) == a[i..]
  {
    var op := ops[0];
    assert Target(a, b, op) == b[op.b0..op.b1];
    assert b[j..] == b[j..op.b1] + b[op.b1..];
    assert a[i..] == a[i..op.a1] + a[op.a1..];
  }

  /** Replaying `get_opcodes(a, b)` against `a` yields `b`, and its spans cover `a` exactly. */
  lemma OpcodesReplay(a: seq<Token>, b: seq<Token>)
    ensures InBounds(a, b, Opcodes(a, b))
    ensures Apply(a, b, Opcodes(a, b)) == b
    ensures Consumed(a, b, Opcodes(a, b)) == a
  {
    ApplyTiles(a, b, Opcodes(a, b), 0, 0);
  }

  /** Identical sequences give one `equal` opcode over everything, or none when empty. */
  lemma OpcodesOfIdentical(a: seq<Token>)
    ensures Opcodes(a, a) == if a == [] then [] else [Opcode(Equal, 0, |a|, 0, |a|)]
  {
    var n := |a|;
    MatchingBlocksOfIdentical(a);
    if n == 0 {
      assert OpcodesFrom([Match(0, 0, 0)], 0, 0) == [] + [] + OpcodesFrom([], 0, 0);
    } else {
      OpcodesFromWholeThenEnd(n);
    }
  }

  lemma MatchingBlocksOfIdentical(a: seq<Token>)
    ensures MatchingBlocks(a, a) == if a == [] then [Match(0, 0, 0)] else [Match(0, 0, |a|), Match(|a|, |a|, 0)]
  {
    var n := |a|;
    var whole := Match(0, 0, n);
    forall i: nat, j: nat, k: nat | IsMatch(a, a, 0, n, 0, n, i, j, k)
      ensures k <= n && (k == n ==> 0 < i || (0 == i && 0 <= j))
    {
    }
    assert IsLongestMatch(a, a, 0, n, 0, n, whole);
    LongestMatchUnique(a, a, 0, n, 0, n, FindLongestMatch(a, a, 0, n, 0, n), whole);
    if n == 0 {
      assert Blocks(a, a, 0, n, 0, n) == [];
    } else {
      assert Blocks(a, a, 0, n, 0, n) == [] + [whole] + [];
      assert Collapse([whole], Match(0, 0, 0)) == Collapse([], whole);
    }
  }

  /** One block over everything and then the end: a single `equal`. */
  lemma OpcodesFromWholeThenEnd(n: nat)
    requires 0 < n
    ensures OpcodesFrom([Match(0, 0, n), Match(n, n, 0)], 0, 0) == [Opcode(Equal, 0, n, 0, n)]
  {
    var whole, s := Match(0, 0, n), Match(n, n, 0);
    assert [whole, s][1..] == [s];
    assert OpcodesFrom([s], n, n) == [] + [] + OpcodesFrom([], n, n);
    assert OpcodesFrom([whole, s], 0, 0) == [] + [Opcode(Equal, 0, n, 0, n)] + OpcodesFrom([s], n, n);
  }

  /** `a` and `b` have `n + 1` tokens each, `n > 0`, and differ only in their last token. */
  predicate LastDiffers(a: seq<Token>, b: seq<Token>, n: nat) {
    0 < n && |a| == n + 1 && |b| == n + 1 && a[..n] == b[..n] && a[n] != b[n]
  }

  /** `a` and `b` have `n + 1` tokens each and differ in their last one. */
  predicate EndsDiffering(a: seq<Token>, b: seq<Token>, n: nat) {
    |a| == n + 1 && |b| == n + 1 && a[n] != b[n]
  }

  /** Two different single tokens give one `replace` of the one by the other. */
  lemma OpcodesOfOneChanged(x: Token, y: Token)
    requires x != y
    ensures Opcodes([x], [y]) == [Opcode(Replace, 0, 1, 0, 1)]
  {
    TailOfLastDiffering([x], [y], 0);
    assert MatchingBlocks([x], [y]) == [Match(1, 1, 0)];
    assert OpcodesFrom([Match(1, 1, 0)], 0, 0) == [Opcode(Replace, 0, 1, 0, 1)] + [] + OpcodesFrom([], 1, 1);
  }

  /** Two token lists that differ only in their last token align as one `equal` block followed
      by one `replace` of that token. */
  lemma OpcodesOfLastChanged(p: seq<Token>, x: Token, y: Token)
    requires p != [] && x != y
    ensures var n := |p|;
      Opcodes(p + [x], p + [y]) == [Opcode(Equal, 0, n, 0, n), Opcode(Replace, n, n + 1, n, n + 1)]
  {
    var a, b := p + [x], p + [y];
    assert a[..|p|] == p == b[..|p|];
    OpcodesOfLastDiffering(a, b, |p|);
  }

  lemma OpcodesOfLastDiffering(a: seq<Token>, b: seq<Token>, n: nat)
    requires LastDiffers(a, b, n)
    ensures Opcodes(a, b) == [Opcode(Equal, 0, n, 0, n), Opcode(Replace, n, n + 1, n, n + 1)]
  {
    MatchingBlocksOfLastDiffering(a, b, n);
    OpcodesFromPrefixThenEnd(n);
  }

  lemma MatchingBlocksOfLastDiffering(a: seq<Token>, b: seq<Token>, n: nat)
    requires LastDiffers(a, b, n)
    ensures MatchingBlocks(a, b) == [Match(0, 0, n), Match(n + 1, n + 1, 0)]
  {
    var whole := Match(0, 0, n);
    BlocksOfLastDiffering(a, b, n);
    assert Collapse([whole], Match(0, 0, 0)) == Collapse([], whole);
  }

  /** A common prefix of length `n > 0` and then the end at `n + 1`: `equal` then `replace`. */
  lemma OpcodesFromPrefixThenEnd(n: nat)
    requires 0 < n
    ensures OpcodesFrom([Match(0, 0, n), Match(n + 1, n + 1, 0)], 0, 0)
      == [Opcode(Equal, 0, n, 0, n), Opcode(Replace, n, n + 1, n, n + 1)]
  {
    var whole, s := Match(0, 0, n), Match(n + 1, n + 1, 0);
    assert [whole, s][1..] == [s];
    assert OpcodesFrom([s], n, n) == [Opcode(Replace, n, n + 1, n, n + 1)] + [] + OpcodesFrom([], n + 1, n + 1);
    assert OpcodesFrom([whole, s], 0, 0) == [] + [Opcode(Equal, 0, n, 0, n)] + OpcodesFrom([s], n, n);
  }

  lemma BlocksOfLastDiffering(a: seq<Token>, b: seq<Token>, n: nat)
    requires LastDiffers(a, b, n)
    ensures Blocks(a, b, 0, n + 1, 0, n + 1) == [Match(0, 0, n)]
  {
    LongestOfLastDiffering(a, b, n);
    TailOfLastDiffering(a, b, n);
    assert Blocks(a, b, 0, n + 1, 0, n + 1) == [] + [Match(0, 0, n)] + [];
  }

  lemma TailOfLastDiffering(a: seq<Token>, b: seq<Token>, n: nat)
    requires EndsDiffering(a, b, n)
    ensures Blocks(a, b, n, n + 1, n, n + 1) == []
  {
    TailLongestOfLastDiffering(a, b, n);
  }

  lemma TailLongestOfLastDiffering(a: seq<Token>, b: seq<Token>, n: nat)
    requires EndsDiffering(a, b, n)
    ensures FindLongestMatch(a, b, n, n + 1, n, n + 1) == Match(n, n, 0)
  {
    var hi := n + 1;
    var none := Match(n, n, 0);
    assert a[n..n + 1] == [a[n]] && b[n..n + 1] == [b[n]];
    assert !Agree(a, b, n, n, 1);
    forall i: nat, j: nat, k: nat | IsMatch(a, b, n, hi, n, hi, i, j, k)
      ensures k <= 0 && (k == 0 ==> n < i || (n == i && n <= j))
    {
    }
    assert IsLongestMatch(a, b, n, hi, n, hi, none);
    LongestMatchUnique(a, b, n, hi, n, hi, FindLongestMatch(a, b, n, hi, n, hi), none);
  }

  lemma LongestOfLastDiffering(a: seq<Token>, b: seq<Token>, n: nat)
    requires LastDiffers(a, b, n)
    ensures FindLongestMatch(a, b, 0, n + 1, 0, n + 1) == Match(0, 0, n)
  {
    var hi := n + 1;
    var whole := Match(0, 0, n);
    assert a[0..n + 1][n] == a[n] && b[0..n + 1][n] == b[n];
    assert !Agree(a, b, 0, 0, n + 1);
    assert a[0..n] == b[0..n];
    forall i: nat, j: nat, k: nat | IsMatch(a, b, 0, hi, 0, hi, i, j, k)
      ensures k <= n && (k == n ==> 0 < i || (0 == i && 0 <= j))
    {
    }
    assert IsLongestMatch(a, b, 0, hi, 0, hi, whole);
    LongestMatchUnique(a, b, 0, hi, 0, hi, FindLongestMatch(a, b, 0, hi, 0, hi), whole);
  }
}
