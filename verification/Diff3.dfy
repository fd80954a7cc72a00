/**
 The three-way merge (src/diff3.ts:116-244).

 The two comparisons cut base, mine and theirs into one common sequence of regions:
 stable lines, and chunks that somebody rewrote.  Every promise about the merge is a
 statement about these regions.
 */
module Diff3 {
  import opened Lcs
  import opened Myers
  import opened MyersArray
  import opened Lines

  datatype MergeResult = MergeResult(clean: bool, text: string, conflicts: nat)

  datatype Labels = Labels(mine: string, theirs: string)

  datatype Region =
    | Stable(line: Line)
    | Chunk(base: seq<Line>, mine: seq<Line>, theirs: seq<Line>)

  // ---- matchings ------------------------------------------------------------

  /** The pairs as a map: where each base position went. */
  function ToMap(ms: seq<Pair>): map<int, int> {
    if ms == [] then map[]
    else ToMap(ms[..|ms| - 1])[ms[|ms| - 1].base := ms[|ms| - 1].other]
  }

  /** The lookup links equal lines and keeps their order. */
  ghost predicate Matching(b: seq<Line>, side: seq<Line>, p: map<int, int>) {
    && (forall i <- p :: Agree(b, side, i, p[i]))
    && (forall i <- p, j <- p :: i < j ==> p[i] < p[j])
  }

  /** The lookup holds the pairs and nothing else. */
  lemma {:induction false} ToMapHolds(ms: seq<Pair>)
    requires forall s, t | 0 <= s < t < |ms| :: ms[s].base < ms[t].base
    ensures forall s | 0 <= s < |ms| :: ms[s].base in ToMap(ms) && ToMap(ms)[ms[s].base] == ms[s].other
    ensures forall i <- ToMap(ms) :: exists s :: 0 <= s < |ms| && ms[s] == Pair(i, ToMap(ms)[i])
  {
    if ms != [] {
      var init, last := ms[..|ms| - 1], ms[|ms| - 1];
      ToMapHolds(init);
      var p, q := ToMap(init), ToMap(ms);
      forall s | 0 <= s < |ms|
        ensures ms[s].base in q && q[ms[s].base] == ms[s].other
      {
        if s < |init| {
          assert init[s] == ms[s];
        }
      }
      forall i <- q
        ensures exists s :: 0 <= s < |ms| && ms[s] == Pair(i, q[i])
      {
        if i == last.base {
          assert ms[|ms| - 1] == Pair(i, q[i]);
        } else {
          var s :| 0 <= s < |init| && init[s] == Pair(i, p[i]);
          assert ms[s] == Pair(i, q[i]);
        }
      }
    }
  }

  lemma ToMapMatches(b: seq<Line>, side: seq<Line>, ms: seq<Pair>)
    requires CommonSubsequence(b, side, ms)
    ensures Matching(b, side, ToMap(ms))
  {
    hide ToMap;
    ToMapHolds(ms);
    var p := ToMap(ms);
    forall i <- p, j <- p | i < j
      ensures p[i] < p[j]
    {
      var s :| 0 <= s < |ms| && ms[s] == Pair(i, p[i]);
      var t :| 0 <= t < |ms| && ms[t] == Pair(j, p[j]);
      assert s < t;
    }
    forall i <- p
      ensures Agree(b, side, i, p[i])
    {
      var s :| 0 <= s < |ms| && ms[s] == Pair(i, p[i]);
    }
  }

  /** The base lines paired with an equal line of the side, as a map of positions. */
  function Untouched(b: seq<Line>, side: seq<Line>): map<int, int> {
    ToMap(Matches(b, side))
  }

  lemma UntouchedMatches(b: seq<Line>, side: seq<Line>)
    ensures Matching(b, side, Untouched(b, side))
  {
    MatchesAreLongest(b, side);
    ToMapMatches(b, side, Matches(b, side));
  }

  method MatchMap(b: seq<Line>, side: seq<Line>) returns (p: map<int, int>)
    ensures p == Untouched(b, side) && Matching(b, side, p)
  {
    UntouchedMatches(b, side);
    hide Matching;
    var ms := CommonLines(b, side);
    p := map[];
    for k := 0 to |ms|
      invariant p == ToMap(ms[..k])
    {
      assert ms[..k + 1][..k] == ms[..k];
      p := p[ms[k].base := ms[k].other];
    }
    assert ms[..|ms|] == ms;
  }

  // ---- regions --------------------------------------------------------------

  /** From base line bi on, whatever both sides still carry lies at or after ai and ci. */
  ghost predicate Ahead(p: map<int, int>, q: map<int, int>, bi: int, ai: int, ci: int) {
    forall i | i in p && i in q && i >= bi :: ai <= p[i] && ci <= q[i]
  }

  /** The cut is at base line bi, with an open chunk that began at start, ai and ci. */
  ghost predicate Cutting(b: seq<Line>, a: seq<Line>, c: seq<Line>, p: map<int, int>, q: map<int, int>,
                          bi: int, start: int, ai: int, ci: int) {
    && Matching(b, a, p) && Matching(b, c, q)
    && 0 <= start <= bi <= |b| && 0 <= ai <= |a| && 0 <= ci <= |c|
    && Ahead(p, q, bi, ai, ci)
  }

  /** Regions from the open chunk to the end. */
  function Cut(b: seq<Line>, a: seq<Line>, c: seq<Line>, p: map<int, int>, q: map<int, int>,
               bi: int, start: int, ai: int, ci: int): seq<Region>
    requires Cutting(b, a, c, p, q, bi, start, ai, ci)
    decreases |b| - bi
  {
    if bi == |b| then [Chunk(b[start..], a[ai..], c[ci..])]
    else if bi in p && bi in q then
      assert Agree(b, a, bi, p[bi]) && Agree(b, c, bi, q[bi]);
      [Chunk(b[start..bi], a[ai..p[bi]], c[ci..q[bi]]), Stable(b[bi])]
      + Cut(b, a, c, p, q, bi + 1, bi + 1, p[bi] + 1, q[bi] + 1)
    else Cut(b, a, c, p, q, bi + 1, start, ai, ci)
  }

  function BaseOf(rs: seq<Region>): seq<Line> {
    if rs == [] then [] else (if rs[0].Stable? then [rs[0].line] else rs[0].base) + BaseOf(rs[1..])
  }

  function MineOf(rs: seq<Region>): seq<Line> {
    if rs == [] then [] else (if rs[0].Stable? then [rs[0].line] else rs[0].mine) + MineOf(rs[1..])
  }

  function TheirsOf(rs: seq<Region>): seq<Line> {
    if rs == [] then [] else (if rs[0].Stable? then [rs[0].line] else rs[0].theirs) + TheirsOf(rs[1..])
  }

  function StableOf(rs: seq<Region>): seq<Line> {
    if rs == [] then [] else (if rs[0].Stable? then [rs[0].line] else []) + StableOf(rs[1..])
  }

  /** Nobody loses text when two of the three versions of a chunk are the same. */
  predicate Decided(r: Region) {
    r.Stable? || r.mine == r.theirs || r.mine == r.base || r.theirs == r.base
  }

  function Conflicts(rs: seq<Region>): nat {
    if rs == [] then 0 else (if Decided(rs[0]) then 0 else 1) + Conflicts(rs[1..])
  }

  /** JavaScript's \\s. */
  predicate IsSpace(ch: char) {
    || '\t' <= ch <= '\r' || ch == ' ' || ch == '\U{00A0}' || ch == '\U{1680}'
    || '\U{2000}' <= ch <= '\U{200A}' || ch == '\U{2028}' || ch == '\U{2029}'
    || ch == '\U{202F}' || ch == '\U{205F}' || ch == '\U{3000}' || ch == '\U{FEFF}'
  }

  function LeadingSpaces(s: string): (n: nat)
    ensures n <= |s|
  {
    if s != "" && IsSpace(s[0]) then 1 + LeadingSpaces(s[1..]) else 0
  }

  /** Length of the longest run of quote markers at the start of a line. */
  function QuoteLength(line: string): (n: nat)
    ensures n <= |line|
    decreases |line|
  {
    var n := LeadingSpaces(line);
    if n == |line| || line[n] != '>' then 0
    else
      var m := if n + 1 < |line| && IsSpace(line[n + 1]) then n + 2 else n + 1;
      m + QuoteLength(line[m..])
  }

  function FirstQuote(lines: seq<Line>): string {
    if lines == [] then ""
    else if QuoteLength(lines[0]) > 0 then lines[0][..QuoteLength(lines[0])]
    else FirstQuote(lines[1..])
  }

  /** The quote prefix carried onto conflict markers: that of the first quoted line. */
  function BlockPrefix(mine: seq<Line>, theirs: seq<Line>, base: seq<Line>): string {
    FirstQuote(mine + theirs + base)
  }

  function Marker(prefix: string, name: string): Line {
    prefix + "%% lockstep: " + name + " %%"
  }

  /** The lines a region contributes to the merged text. */
  function Resolve(r: Region, labels: Labels): seq<Line> {
    match r
    case Stable(line) => [line]
    case Chunk(base, mine, theirs) =>
      if mine == theirs then mine
      else if mine == base then theirs
      else if theirs == base then mine
      else
        var prefix := BlockPrefix(mine, theirs, base);
        [Marker(prefix, labels.mine)] + mine
        + [Marker(prefix, labels.theirs)] + theirs
        + [Marker(prefix, "end")]
  }

  function OutOf(rs: seq<Region>, labels: Labels): seq<Line> {
    if rs == [] then [] else Resolve(rs[0], labels) + OutOf(rs[1..], labels)
  }

  /** The regions of a merge. */
  function RegionsOf(b: seq<Line>, a: seq<Line>, c: seq<Line>): seq<Region> {
    UntouchedMatches(b, a);
    UntouchedMatches(b, c);
    Cut(b, a, c, Untouched(b, a), Untouched(b, c), 0, 0, 0, 0)
  }

  /** The merge past its shortcuts. */
  function MergeRegions(base: string, mine: string, theirs: string, labels: Labels): MergeResult {
    var rs := RegionsOf(SplitLines(base), SplitLines(mine), SplitLines(theirs));
    MergeResult(Conflicts(rs) == 0, JoinLines(OutOf(rs, labels), if theirs != "" then theirs else mine), Conflicts(rs))
  }

  /** What merge3 returns. */
  function Merge(base: string, mine: string, theirs: string, labels: Labels): MergeResult {
    if mine == theirs then MergeResult(true, mine, 0)
    else if base == mine then MergeResult(true, theirs, 0)
    else if base == theirs then MergeResult(true, mine, 0)
    else MergeRegions(base, mine, theirs, labels)
  }

  // ---- the program ------------------------------------------------------------

  method Emit(out: seq<Line>, base: seq<Line>, mine: seq<Line>, theirs: seq<Line>, labels: Labels)
    returns (longer: seq<Line>, conflict: bool)
    ensures longer == out + Resolve(Chunk(base, mine, theirs), labels)
    ensures conflict <==> !Decided(Chunk(base, mine, theirs))
  {
    conflict := false;
    if mine == theirs {
      longer := out + mine;
      return;
    }
    if mine == base {
      longer := out + theirs;
      return;
    }
    if theirs == base {
      longer := out + mine;
      return;
    }
    conflict := true;
    var prefix := BlockPrefix(mine, theirs, base);
    longer := out + [Marker(prefix, labels.mine)];
    longer := longer + mine;
    longer := longer + [Marker(prefix, labels.theirs)];
    longer := longer + theirs;
    longer := longer + [Marker(prefix, "end")];
  }

  /** Closing a chunk at a stable line keeps the cut in order: its guards cannot fire. */
  lemma CutStep(b: seq<Line>, a: seq<Line>, c: seq<Line>, p: map<int, int>, q: map<int, int>,
                bi: int, start: int, ai: int, ci: int)
    requires Cutting(b, a, c, p, q, bi, start, ai, ci) && bi < |b|
    ensures if bi in p && bi in q then
              && Agree(b, a, bi, p[bi]) && Agree(b, c, bi, q[bi])
              && ai <= p[bi] && ci <= q[bi]
              && Cutting(b, a, c, p, q, bi + 1, bi + 1, p[bi] + 1, q[bi] + 1)
            else Cutting(b, a, c, p, q, bi + 1, start, ai, ci)
  {
    if bi in p && bi in q {
      assert Agree(b, a, bi, p[bi]) && Agree(b, c, bi, q[bi]);
    }
  }

  lemma CutUnfold(b: seq<Line>, a: seq<Line>, c: seq<Line>, p: map<int, int>, q: map<int, int>,
                  bi: int, start: int, ai: int, ci: int, labels: Labels)
    requires Cutting(b, a, c, p, q, bi, start, ai, ci) && bi < |b|
    ensures if bi in p && bi in q then
              && Cutting(b, a, c, p, q, bi + 1, bi + 1, p[bi] + 1, q[bi] + 1)
              && ai <= p[bi] < |a| && ci <= q[bi] < |c|
              && var chunk := Chunk(b[start..bi], a[ai..p[bi]], c[ci..q[bi]]);
                 var rest := Cut(b, a, c, p, q, bi + 1, bi + 1, p[bi] + 1, q[bi] + 1);
                 var all := Cut(b, a, c, p, q, bi, start, ai, ci);
                 && OutOf(all, labels) == Resolve(chunk, labels) + [b[bi]] + OutOf(rest, labels)
                 && Conflicts(all) == (if Decided(chunk) then 0 else 1) + Conflicts(rest)
            else
              && Cutting(b, a, c, p, q, bi + 1, start, ai, ci)
              && Cut(b, a, c, p, q, bi, start, ai, ci) == Cut(b, a, c, p, q, bi + 1, start, ai, ci)
  {
    CutStep(b, a, c, p, q, bi, start, ai, ci);
    if bi in p && bi in q {
      var chunk := Chunk(b[start..bi], a[ai..p[bi]], c[ci..q[bi]]);
      var rest := Cut(b, a, c, p, q, bi + 1, bi + 1, p[bi] + 1, q[bi] + 1);
      TwoMore(chunk, b[bi], rest, labels);
    }
  }

  lemma TwoMore(chunk: Region, line: Line, rest: seq<Region>, labels: Labels)
    ensures OutOf([chunk, Stable(line)] + rest, labels) == Resolve(chunk, labels) + [line] + OutOf(rest, labels)
    ensures Conflicts([chunk, Stable(line)] + rest) == (if Decided(chunk) then 0 else 1) + Conflicts(rest)
  {
    var rs := [chunk, Stable(line)] + rest;
    assert rs[1..] == [Stable(line)] + rest;
    assert rs[1..][1..] == rest;
  }

  lemma LastChunk(chunk: Region, labels: Labels)
    ensures OutOf([chunk], labels) == Resolve(chunk, labels)
    ensures Conflicts([chunk]) == if Decided(chunk) then 0 else 1
  {
    assert [chunk][1..] == [];
  }

  method Merge3(base: string, mine: string, theirs: string, labels: Labels) returns (r: MergeResult)
    ensures r == Merge(base, mine, theirs, labels)
  {
    hide OutOf, Conflicts, Cut, Resolve, Decided, SplitLines, JoinLines, Untouched;
    var b, a, c := SplitLines(base), SplitLines(mine), SplitLines(theirs);
    if mine == theirs {
      return MergeResult(true, mine, 0);
    }
    if base == mine {
      return MergeResult(true, theirs, 0);
    }
    if base == theirs {
      return MergeResult(true, mine, 0);
    }
    var p := MatchMap(b, a);
    var q := MatchMap(b, c);
    UntouchedMatches(b, a);
    UntouchedMatches(b, c);
    ghost var all := Cut(b, a, c, p, q, 0, 0, 0, 0);
    var out: seq<Line> := [];
    var conflicts: nat := 0;
    var ai, ci, start := 0, 0, 0;
    for bi := 0 to |b|
      invariant Cutting(b, a, c, p, q, bi, start, ai, ci)
      invariant OutOf(all, labels) == out + OutOf(Cut(b, a, c, p, q, bi, start, ai, ci), labels)
      invariant Conflicts(all) == conflicts + Conflicts(Cut(b, a, c, p, q, bi, start, ai, ci))
    {
      CutUnfold(b, a, c, p, q, bi, start, ai, ci, labels);
      if bi !in p || bi !in q || p[bi] < ai || q[bi] < ci {
        continue;
      }
      var longer, conflict := Emit(out, b[start..bi], a[ai..p[bi]], c[ci..q[bi]], labels);
      conflicts := if conflict then conflicts + 1 else conflicts;
      out := longer + [b[bi]];
      ai := p[bi] + 1;
      ci := q[bi] + 1;
      start := bi + 1;
    }
    CutEnd(b, a, c, p, q, start, ai, ci, labels);
    var longer, conflict := Emit(out, b[start..], a[ai..], c[ci..], labels);
    conflicts := if conflict then conflicts + 1 else conflicts;
    return MergeResult(conflicts == 0, JoinLines(longer, if theirs != "" then theirs else mine), conflicts);
  }

  lemma CutEnd(b: seq<Line>, a: seq<Line>, c: seq<Line>, p: map<int, int>, q: map<int, int>,
               start: int, ai: int, ci: int, labels: Labels)
    requires Cutting(b, a, c, p, q, |b|, start, ai, ci)
    ensures var chunk := Chunk(b[start..], a[ai..], c[ci..]);
            var all := Cut(b, a, c, p, q, |b|, start, ai, ci);
            && OutOf(all, labels) == Resolve(chunk, labels)
            && Conflicts(all) == if Decided(chunk) then 0 else 1
  {
    LastChunk(Chunk(b[start..], a[ai..], c[ci..]), labels);
  }
}
