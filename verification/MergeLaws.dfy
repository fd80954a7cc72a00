/** What the three-way merge promises (src/diff3.ts:3-12, 116-244). */
module MergeLaws {
  import opened Lcs
  import opened Myers
  import opened Lines
  import opened Pieces
  import opened Diff3

  // ---- the regions tile all three versions -----------------------------------

  /** The base lines from bi on that both sides still carry. */
  function Kept(b: seq<Line>, p: map<int, int>, q: map<int, int>, bi: int): seq<Line>
    requires 0 <= bi <= |b|
    decreases |b| - bi
  {
    if bi == |b| then []
    else (if bi in p && bi in q then [b[bi]] else []) + Kept(b, p, q, bi + 1)
  }

  ghost predicate Tiles(rs: seq<Region>, b: seq<Line>, a: seq<Line>, c: seq<Line>, kept: seq<Line>) {
    BaseOf(rs) == b && MineOf(rs) == a && TheirsOf(rs) == c && StableOf(rs) == kept
  }

  lemma TileOne(chunk: Region)
    requires chunk.Chunk?
    ensures Tiles([chunk], chunk.base, chunk.mine, chunk.theirs, [])
  {
    assert [chunk][1..] == [];
  }

  lemma TileTwo(chunk: Region, line: Line, rest: seq<Region>, b: seq<Line>, a: seq<Line>, c: seq<Line>, kept: seq<Line>)
    requires chunk.Chunk? && Tiles(rest, b, a, c, kept)
    ensures Tiles([chunk, Stable(line)] + rest, chunk.base + ([line] + b), chunk.mine + ([line] + a),
                  chunk.theirs + ([line] + c), [line] + kept)
  {
    var rs := [chunk, Stable(line)] + rest;
    assert rs[1..] == [Stable(line)] + rest;
    assert rs[1..][1..] == rest;
  }

  lemma SliceAt(s: seq<Line>, from: int, at: int)
    requires 0 <= from <= at < |s|
    ensures s[from..] == s[from..at] + ([s[at]] + s[at + 1..])
  {
  }

  lemma TileMatch(b: seq<Line>, a: seq<Line>, c: seq<Line>, start: int, bi: int, ai: int, x: int, ci: int, y: int,
                  rest: seq<Region>, kept: seq<Line>)
    requires 0 <= start <= bi < |b| && 0 <= ai <= x < |a| && 0 <= ci <= y < |c| && a[x] == b[bi] == c[y]
    requires Tiles(rest, b[bi + 1..], a[x + 1..], c[y + 1..], kept)
    ensures Tiles([Chunk(b[start..bi], a[ai..x], c[ci..y]), Stable(b[bi])] + rest,
                  b[start..], a[ai..], c[ci..], [b[bi]] + kept)
  {
    hide Tiles;
    TileTwo(Chunk(b[start..bi], a[ai..x], c[ci..y]), b[bi], rest, b[bi + 1..], a[x + 1..], c[y + 1..], kept);
    SliceAt(b, start, bi);
    SliceAt(a, ai, x);
    SliceAt(c, ci, y);
  }

  lemma {:induction false} CutTiles(b: seq<Line>, a: seq<Line>, c: seq<Line>, p: map<int, int>, q: map<int, int>,
                                    bi: int, start: int, ai: int, ci: int)
    requires Cutting(b, a, c, p, q, bi, start, ai, ci)
    ensures Tiles(Cut(b, a, c, p, q, bi, start, ai, ci), b[start..], a[ai..], c[ci..], Kept(b, p, q, bi))
    decreases |b| - bi
  {
    hide Tiles, Matching, Ahead;
    if bi == |b| {
      TileOne(Chunk(b[start..], a[ai..], c[ci..]));
    } else {
      CutStep(b, a, c, p, q, bi, start, ai, ci);
      if bi in p && bi in q {
        CutTiles(b, a, c, p, q, bi + 1, bi + 1, p[bi] + 1, q[bi] + 1);
        var rest := Cut(b, a, c, p, q, bi + 1, bi + 1, p[bi] + 1, q[bi] + 1);
        TileMatch(b, a, c, start, bi, ai, p[bi], ci, q[bi], rest, Kept(b, p, q, bi + 1));
      } else {
        CutTiles(b, a, c, p, q, bi + 1, start, ai, ci);
        assert [] + Kept(b, p, q, bi + 1) == Kept(b, p, q, bi + 1);
      }
    }
  }

  /**
   The regions of a merge tile base, mine and theirs, and their stable lines are
   exactly the base lines that both comparisons kept.
   */
  lemma RegionsTile(b: seq<Line>, a: seq<Line>, c: seq<Line>)
    ensures Tiles(RegionsOf(b, a, c), b, a, c, Kept(b, Untouched(b, a), Untouched(b, c), 0))
  {
    UntouchedMatches(b, a);
    UntouchedMatches(b, c);
    CutTiles(b, a, c, Untouched(b, a), Untouched(b, c), 0, 0, 0, 0);
    assert b[0..] == b && a[0..] == a && c[0..] == c;
  }

  /** A merge counts a conflict for exactly the chunks whose three versions all differ. */
  lemma {:induction false} CleanIffDecided(rs: seq<Region>)
    ensures Conflicts(rs) == 0 <==> forall r <- rs :: Decided(r)
    ensures Conflicts(rs) == |ConflictsIn(rs)|
    decreases |rs|
  {
    if rs != [] {
      CleanIffDecided(rs[1..]);
      assert forall r <- rs :: r == rs[0] || r in rs[1..];
    }
  }

  function ConflictsIn(rs: seq<Region>): (cs: seq<Region>)
    ensures forall r <- cs ::
              r.Chunk? && r in rs && r.mine != r.theirs && r.mine != r.base && r.theirs != r.base
  {
    if rs == [] then []
    else (if Decided(rs[0]) then [] else [rs[0]]) + ConflictsIn(rs[1..])
  }

  // ---- no line disappears quietly ----------------------------------------------

  lemma ConflictKeeps(r: Region, labels: Labels, l: Line)
    requires r.Chunk? && !Decided(r)
    ensures Count(Resolve(r, labels), l) >= Count(r.mine, l) + Count(r.theirs, l)
  {
    var prefix := BlockPrefix(r.mine, r.theirs, r.base);
    var x, y, z := [Marker(prefix, labels.mine)], [Marker(prefix, labels.theirs)], [Marker(prefix, "end")];
    hide Marker, BlockPrefix;
    CountConcat(x + r.mine + y + r.theirs, z, l);
    CountConcat(x + r.mine + y, r.theirs, l);
    CountConcat(x + r.mine, y, l);
    CountConcat(x, r.mine, l);
  }

  /** One region keeps, of every line, what either side has beyond the base. */
  lemma RegionKeeps(r: Region, labels: Labels, l: Line)
    ensures r.Chunk? ==> Count(Resolve(r, labels), l) + Count(r.base, l) >= Count(r.mine, l)
    ensures r.Chunk? ==> Count(Resolve(r, labels), l) + Count(r.base, l) >= Count(r.theirs, l)
    ensures r.Stable? ==> Resolve(r, labels) == [r.line]
  {
    if r.Chunk? && !Decided(r) {
      ConflictKeeps(r, labels, l);
    }
  }

  lemma {:induction false} OutKeeps(rs: seq<Region>, labels: Labels, l: Line)
    ensures Count(OutOf(rs, labels), l) + Count(BaseOf(rs), l) >= Count(MineOf(rs), l)
    ensures Count(OutOf(rs, labels), l) + Count(BaseOf(rs), l) >= Count(TheirsOf(rs), l)
    decreases |rs|
  {
    if rs != [] {
      var r, rest := rs[0], rs[1..];
      OutKeeps(rest, labels, l);
      RegionKeeps(r, labels, l);
      hide Resolve, Count;
      CountConcat(Resolve(r, labels), OutOf(rest, labels), l);
      CountConcat(if r.Stable? then [r.line] else r.base, BaseOf(rest), l);
      CountConcat(if r.Stable? then [r.line] else r.mine, MineOf(rest), l);
      CountConcat(if r.Stable? then [r.line] else r.theirs, TheirsOf(rest), l);
    }
  }

  lemma RegionsKeepLines(base: string, mine: string, theirs: string, labels: Labels, l: Line)
    requires l != "" && NEWLINE !in l
    ensures var out := SplitLines(MergeRegions(base, mine, theirs, labels).text);
            && Count(out, l) + Count(SplitLines(base), l) >= Count(SplitLines(mine), l)
            && Count(out, l) + Count(SplitLines(base), l) >= Count(SplitLines(theirs), l)
  {
    hide Count, SplitLines, JoinLines, RegionsOf, OutOf, Conflicts, BaseOf, MineOf, TheirsOf;
    var rs := RegionsOf(SplitLines(base), SplitLines(mine), SplitLines(theirs));
    RegionsTile(SplitLines(base), SplitLines(mine), SplitLines(theirs));
    OutKeeps(rs, labels, l);
    TextKeepsLines(OutOf(rs, labels), if theirs != "" then theirs else mine, l);
  }

  /**
   Whatever shortcut is taken, the merged text holds of every non-blank line at least as
   many copies as either side has beyond the base.
   */
  lemma MergeKeepsLines(base: string, mine: string, theirs: string, labels: Labels, l: Line)
    requires l != "" && NEWLINE !in l
    ensures var out := SplitLines(Merge(base, mine, theirs, labels).text);
            && Count(out, l) + Count(SplitLines(base), l) >= Count(SplitLines(mine), l)
            && Count(out, l) + Count(SplitLines(base), l) >= Count(SplitLines(theirs), l)
  {
    hide Count, SplitLines, MergeRegions;
    RegionsKeepLines(base, mine, theirs, labels, l);
  }

  /** A line unique to one side, wherever it stands, is in the merged text. */
  lemma NewLineSurvives(base: string, mine: string, theirs: string, labels: Labels, l: Line)
    requires l != "" && l !in SplitLines(base)
    requires l in SplitLines(mine) || l in SplitLines(theirs)
    ensures l in SplitLines(Merge(base, mine, theirs, labels).text)
  {
    PiecesHaveNoNewline(mine);
    PiecesHaveNoNewline(theirs);
    MergeKeepsLines(base, mine, theirs, labels, l);
  }

  lemma PiecesHaveNoNewline(text: string)
    ensures forall l <- SplitLines(text) :: NEWLINE !in l
  {
    PiecesAreClean(if EndsInNewline(text) then text[..|text| - 1] else text, NEWLINE);
  }

  // ---- conflict markers ----------------------------------------------------------

  lemma {:induction false} SpacesAt(s: string, n: nat)
    requires n <= |s| && (forall i | 0 <= i < n :: IsSpace(s[i])) && (n < |s| ==> !IsSpace(s[n]))
    ensures LeadingSpaces(s) == n
    decreases n
  {
    if n > 0 {
      SpacesAt(s[1..], n - 1);
    }
  }

  lemma {:induction false} SpacesAre(s: string)
    ensures var n := LeadingSpaces(s); (forall i | 0 <= i < n :: IsSpace(s[i])) && (n < |s| ==> !IsSpace(s[n]))
    decreases |s|
  {
    hide IsSpace;
    if s != "" && IsSpace(s[0]) {
      SpacesAre(s[1..]);
      forall i | 0 <= i < LeadingSpaces(s)
        ensures IsSpace(s[i])
      {
        assert i > 0 ==> s[i] == s[1..][i - 1];
      }
    }
  }

  /** The quote prefix of a line, put before anything that is neither quote nor space, is its quote prefix again. */
  lemma {:induction false} PrefixContinues(line: string, tail: string)
    requires tail != "" && tail[0] != '>' && !IsSpace(tail[0])
    ensures QuoteLength(line[..QuoteLength(line)] + tail) == QuoteLength(line)
    decreases |line|
  {
    var n, s := LeadingSpaces(line), line[..QuoteLength(line)] + tail;
    SpacesAre(line);
    if n == |line| || line[n] != '>' {
      assert s == tail;
      SpacesAt(s, 0);
    } else {
      PrefixStep(line, tail);
    }
  }

  /** Past one quote marker, and the space after it. */
  function PastQuote(line: string, n: nat): (m: nat)
    requires n < |line|
    ensures n < m <= |line|
  {
    if n + 1 < |line| && IsSpace(line[n + 1]) then n + 2 else n + 1
  }

  lemma QuoteUnfold(line: string, n: nat)
    requires n == LeadingSpaces(line) < |line| && line[n] == '>'
    ensures QuoteLength(line) == PastQuote(line, n) + QuoteLength(line[PastQuote(line, n)..])
  {
  }

  lemma PrefixStep(line: string, tail: string)
    requires tail != "" && tail[0] != '>' && !IsSpace(tail[0])
    requires LeadingSpaces(line) < |line| && line[LeadingSpaces(line)] == '>'
    ensures QuoteLength(line[..QuoteLength(line)] + tail) == QuoteLength(line)
    decreases |line|, 0
  {
    hide IsSpace, LeadingSpaces, QuoteLength, PastQuote;
    var n := LeadingSpaces(line);
    var m := PastQuote(line, n);
    var s := line[..QuoteLength(line)] + tail;
    QuoteUnfold(line, n);
    SamePast(line, n, QuoteLength(line), tail);
    SpacesAre(line);
    SpacesEnd(line, s, n);
    QuoteUnfold(s, n);
    PrefixContinues(line[m..], tail);
    assert s[m..] == line[m..][..QuoteLength(line[m..])] + tail;
  }

  /** The same spaces and the same quote marker after them. */
  lemma SpacesEnd(line: string, s: string, n: nat)
    requires n < |line| && n < |s| && line[..n + 1] == s[..n + 1] && line[n] == '>'
    requires forall i | 0 <= i < n :: IsSpace(line[i])
    ensures LeadingSpaces(s) == n && s[n] == '>'
  {
    forall i | 0 <= i <= n
      ensures s[i] == line[i]
    {
      assert s[..n + 1][i] == line[..n + 1][i];
    }
    SpacesAt(s, n);
  }

  lemma SamePast(line: string, n: nat, length: nat, tail: string)
    requires n < |line| && PastQuote(line, n) <= length <= |line| && tail != "" && !IsSpace(tail[0])
    ensures PastQuote(line[..length] + tail, n) == PastQuote(line, n)
  {
    hide IsSpace;
  }

  /** The first quoted line of a chunk, or its length if none is quoted. */
  function FirstQuoted(lines: seq<Line>): (i: nat)
    ensures i <= |lines| && (forall j | 0 <= j < i :: QuoteLength(lines[j]) == 0)
    ensures i < |lines| ==> QuoteLength(lines[i]) > 0
  {
    if lines == [] || QuoteLength(lines[0]) > 0 then 0 else 1 + FirstQuoted(lines[1..])
  }

  lemma {:induction false} FirstQuoteIsQuote(lines: seq<Line>)
    ensures var i := FirstQuoted(lines);
            FirstQuote(lines) == if i < |lines| then lines[i][..QuoteLength(lines[i])] else ""
    decreases |lines|
  {
    hide QuoteLength;
    if lines != [] {
      FirstQuoteIsQuote(lines[1..]);
    }
  }

  /** A marker carries the quote prefix of the first quoted line of its chunk, and none if no line is quoted. */
  lemma MarkerContinuesBlock(mine: seq<Line>, theirs: seq<Line>, base: seq<Line>, name: string)
    ensures var prefix, lines := BlockPrefix(mine, theirs, base), mine + theirs + base;
            var i := FirstQuoted(lines);
            && QuoteLength(Marker(prefix, name)) == |prefix|
            && prefix == if i < |lines| then lines[i][..QuoteLength(lines[i])] else ""
  {
    var prefix, tail, lines := BlockPrefix(mine, theirs, base), "%% lockstep: " + name + " %%", mine + theirs + base;
    var i := FirstQuoted(lines);
    FirstQuoteIsQuote(lines);
    assert Marker(prefix, name) == prefix + tail && !IsSpace(tail[0]);
    assert ""[..QuoteLength("")] == "";
    hide QuoteLength, IsSpace, FirstQuote, FirstQuoted;
    PrefixContinues(if i < |lines| then lines[i] else "", tail);
  }

  /** Between its three markers a conflict holds both versions whole, each under its own name, and then it ends. */
  lemma ConflictHoldsBoth(r: Region, labels: Labels)
    requires r.Chunk? && !Decided(r)
    ensures var out, prefix, n := Resolve(r, labels), BlockPrefix(r.mine, r.theirs, r.base), |r.mine|;
            && |out| == n + |r.theirs| + 3
            && out[1..n + 1] == r.mine && out[n + 2..|out| - 1] == r.theirs
            && out[0] == prefix + "%% lockstep: " + labels.mine + " %%"
            && out[n + 1] == prefix + "%% lockstep: " + labels.theirs + " %%"
            && out[|out| - 1] == prefix + "%% lockstep: end %%"
  {
    hide BlockPrefix;
    EndMarker(BlockPrefix(r.mine, r.theirs, r.base));
  }

  lemma EndMarker(prefix: string)
    ensures Marker(prefix, "end") == prefix + "%% lockstep: end %%"
  {
    assert "%% lockstep: " + "end" + " %%" == "%% lockstep: end %%";
    assert prefix + "%% lockstep: " + "end" + " %%" == prefix + ("%% lockstep: " + "end" + " %%");
  }

  /** So two sides of different names are told apart. */
  lemma MarkersDiffer(prefix: string, name: string, name': string)
    requires name != name'
    ensures Marker(prefix, name) != Marker(prefix, name')
  {
    var n := |prefix + "%% lockstep: "|;
    assert Marker(prefix, name)[n..|Marker(prefix, name)| - 3] == name;
    assert Marker(prefix, name')[n..|Marker(prefix, name')| - 3] == name';
    hide Marker;
  }

  /** The spaces of a JavaScript pattern. */
  lemma SpacesAreThese(ch: char)
    ensures IsSpace(ch) <==>
              ch in "\t\n\r \U{000B}\U{000C}\U{00A0}\U{1680}\U{2000}\U{2001}\U{2002}\U{2003}\U{2004}\U{2005}\U{2006}"
              || ch in "\U{2007}\U{2008}\U{2009}\U{200A}\U{2028}\U{2029}\U{202F}\U{205F}\U{3000}\U{FEFF}"
  {
  }

  /** The first n characters, and no more, are quote markers and spaces. */
  ghost predicate Quotes(line: string, n: nat) {
    && n <= |line| && (forall j | 0 <= j < n :: line[j] == '>' || IsSpace(line[j]))
    && (n < |line| ==> line[n] != '>' && !IsSpace(line[n]))
  }

  /** m is past the last quote marker among them, and past one space after it if there is one. */
  predicate PastLast(line: string, n: nat, m: nat)
    requires n <= |line|
  {
    exists k | 0 <= k < n ::
      line[k] == '>' && (forall j | k < j < n :: line[j] != '>') && m == if k + 1 < n then k + 2 else k + 1
  }

  /** The quote prefix of a line ends past the last of its leading quote markers; without one there is none. */
  lemma {:induction false} QuoteLengthExactly(line: string, n: nat)
    requires Quotes(line, n)
    ensures if exists j | 0 <= j < n :: line[j] == '>' then PastLast(line, n, QuoteLength(line)) else QuoteLength(line) == 0
    decreases |line|
  {
    var i := LeadingSpaces(line);
    SpacesAre(line);
    if i < |line| && line[i] == '>' {
      var past, rest := PastQuote(line, i), line[PastQuote(line, i)..];
      QuoteUnfold(line, i);
      QuotePasses(line, n, i);
      QuoteLengthExactly(rest, n - past);
      hide IsSpace, QuoteLength, LeadingSpaces, Quotes;
      LastIsLater(line, n, i, QuoteLength(rest));
    }
  }

  lemma QuotePasses(line: string, n: nat, i: nat)
    requires Quotes(line, n) && i < |line| && line[i] == '>' && forall j | 0 <= j < i :: IsSpace(line[j])
    ensures i < n && PastQuote(line, i) <= n && Quotes(line[PastQuote(line, i)..], n - PastQuote(line, i))
  {
    hide IsSpace;
  }

  lemma LastIsLater(line: string, n: nat, i: nat, m: nat)
    requires i < n <= |line| && line[i] == '>' && PastQuote(line, i) <= n
    requires i + 1 < PastQuote(line, i) ==> line[i + 1] != '>'
    requires i + 1 < n && PastQuote(line, i) == i + 1 ==> line[i + 1] == '>'
    requires var rest, n' := line[PastQuote(line, i)..], n - PastQuote(line, i);
             if exists j | 0 <= j < n' :: rest[j] == '>' then PastLast(rest, n', m) else m == 0
    ensures PastLast(line, n, PastQuote(line, i) + m)
  {
    hide IsSpace;
    var past := PastQuote(line, i);
    var rest, n' := line[past..], n - past;
    if exists j | 0 <= j < n' :: rest[j] == '>' {
      var k :| 0 <= k < n' && rest[k] == '>' && (forall j | k < j < n' :: rest[j] != '>')
               && m == if k + 1 < n' then k + 2 else k + 1;
      forall j | past + k < j < n
        ensures line[j] != '>'
      {
        assert line[j] == rest[j - past];
      }
      assert line[past + k] == '>';
    } else {
      forall j | i < j < n
        ensures line[j] != '>'
      {
        assert j >= past ==> line[j] == rest[j - past];
      }
    }
  }

  // ---- mine and theirs are interchangeable ---------------------------------------

  function Swap(r: Region): Region {
    if r.Stable? then r else Chunk(r.base, r.theirs, r.mine)
  }

  function SwapAll(rs: seq<Region>): seq<Region> {
    if rs == [] then [] else [Swap(rs[0])] + SwapAll(rs[1..])
  }

  lemma SwapTwo(chunk: Region, line: Line, rest: seq<Region>)
    ensures SwapAll([chunk, Stable(line)] + rest) == [Swap(chunk), Stable(line)] + SwapAll(rest)
  {
    var rs := [chunk, Stable(line)] + rest;
    assert rs[1..] == [Stable(line)] + rest;
    assert rs[1..][1..] == rest;
  }

  lemma {:induction false} CutSwaps(b: seq<Line>, a: seq<Line>, c: seq<Line>, p: map<int, int>, q: map<int, int>,
                                    bi: int, start: int, ai: int, ci: int)
    requires Cutting(b, a, c, p, q, bi, start, ai, ci) && Cutting(b, c, a, q, p, bi, start, ci, ai)
    ensures Cut(b, c, a, q, p, bi, start, ci, ai) == SwapAll(Cut(b, a, c, p, q, bi, start, ai, ci))
    decreases |b| - bi
  {
    if bi == |b| {
      var chunk := Chunk(b[start..], a[ai..], c[ci..]);
      assert [chunk][1..] == [];
    } else {
      hide Matching, Ahead;
      CutStep(b, a, c, p, q, bi, start, ai, ci);
      CutStep(b, c, a, q, p, bi, start, ci, ai);
      if bi in p && bi in q {
        CutSwaps(b, a, c, p, q, bi + 1, bi + 1, p[bi] + 1, q[bi] + 1);
        SwapTwo(Chunk(b[start..bi], a[ai..p[bi]], c[ci..q[bi]]), b[bi],
                Cut(b, a, c, p, q, bi + 1, bi + 1, p[bi] + 1, q[bi] + 1));
      } else {
        CutSwaps(b, a, c, p, q, bi + 1, start, ai, ci);
      }
    }
  }

  lemma RegionsSwap(b: seq<Line>, a: seq<Line>, c: seq<Line>)
    ensures RegionsOf(b, c, a) == SwapAll(RegionsOf(b, a, c))
  {
    UntouchedMatches(b, a);
    UntouchedMatches(b, c);
    CutSwaps(b, a, c, Untouched(b, a), Untouched(b, c), 0, 0, 0, 0);
  }

  lemma {:induction false} SwapOutcome(rs: seq<Region>, labels: Labels, labels': Labels)
    ensures Conflicts(SwapAll(rs)) == Conflicts(rs)
    ensures Conflicts(rs) == 0 ==> OutOf(SwapAll(rs), labels') == OutOf(rs, labels)
    decreases |rs|
  {
    if rs != [] {
      SwapOutcome(rs[1..], labels, labels');
      assert SwapAll(rs)[1..] == SwapAll(rs[1..]);
      assert Decided(Swap(rs[0])) == Decided(rs[0]);
      assert Decided(rs[0]) ==> Resolve(Swap(rs[0]), labels') == Resolve(rs[0], labels);
    }
  }

  /**
   Exchanging the two sides changes neither the verdict nor the conflict count, and a
   clean text at most in its final newline.
   */
  lemma MergeIsSymmetric(base: string, mine: string, theirs: string, labels: Labels, labels': Labels)
    ensures var r, s := Merge(base, mine, theirs, labels), Merge(base, theirs, mine, labels');
            && r.clean == s.clean && r.conflicts == s.conflicts
            && (r.clean ==> r.text == s.text || r.text == s.text + [NEWLINE] || s.text == r.text + [NEWLINE])
            && (r.clean && EndsInNewline(mine) == EndsInNewline(theirs) && mine != "" && theirs != ""
                ==> r.text == s.text)
  {
    hide RegionsOf, OutOf, Conflicts, SplitLines, Join;
    var b, a, c := SplitLines(base), SplitLines(mine), SplitLines(theirs);
    RegionsSwap(b, a, c);
    SwapOutcome(RegionsOf(b, a, c), labels, labels');
  }

  // ---- the shortcuts ---------------------------------------------------------------

  /** n increasing matches among n lines pair every line with itself. */
  lemma FullMatchingIsIdentity(b: seq<Line>, ms: seq<Pair>, k: int)
    requires CommonSubsequence(b, b, ms) && |ms| >= |b| && 0 <= k < |b|
    ensures ms[k] == Pair(k, k)
  {
    Climb(b, ms, k);
    Descend(b, ms, k);
  }

  lemma {:induction false} Climb(b: seq<Line>, ms: seq<Pair>, k: int)
    requires CommonSubsequence(b, b, ms) && 0 <= k < |ms|
    ensures k <= ms[k].base && k <= ms[k].other
  {
    assert Agree(b, b, ms[k].base, ms[k].other);
    if k > 0 {
      Climb(b, ms, k - 1);
    }
  }

  lemma {:induction false} Descend(b: seq<Line>, ms: seq<Pair>, k: int)
    requires CommonSubsequence(b, b, ms) && |ms| >= |b| && 0 <= k < |b|
    ensures ms[k].base <= k && ms[k].other <= k
    decreases |b| - k
  {
    assert Agree(b, b, ms[k].base, ms[k].other);
    if k < |b| - 1 {
      Descend(b, ms, k + 1);
    }
  }

  /** Compared with itself, a version keeps every line in place. */
  lemma SelfUntouched(b: seq<Line>, k: int)
    requires 0 <= k < |b|
    ensures k in Untouched(b, b) && Untouched(b, b)[k] == k
  {
    hide Matches, ToMap;
    var ms := Matches(b, b);
    var same := seq(|b|, i => Pair(i, i));
    assert CommonSubsequence(b, b, same);
    MatchesAreLongest(b, b);
    FullMatchingIsIdentity(b, ms, k);
    ToMapHolds(ms);
  }

  /** When mine never moved away from the base, every chunk of mine is the base chunk. */
  lemma {:induction false} CutFromBase(b: seq<Line>, c: seq<Line>, p: map<int, int>, q: map<int, int>,
                                       bi: int, start: int, ci: int)
    requires Cutting(b, b, c, p, q, bi, start, start, ci)
    requires forall i | bi <= i < |b| :: i in p && p[i] == i
    ensures forall r <- Cut(b, b, c, p, q, bi, start, start, ci) :: r.Stable? || r.mine == r.base
    decreases |b| - bi
  {
    if bi < |b| {
      CutStep(b, b, c, p, q, bi, start, start, ci);
      hide Cutting;
      if bi in q {
        CutFromBase(b, c, p, q, bi + 1, bi + 1, q[bi] + 1);
      } else {
        CutFromBase(b, c, p, q, bi + 1, start, ci);
      }
    }
  }

  lemma {:induction false} BaseSides(rs: seq<Region>, labels: Labels)
    requires forall r <- rs :: r.Stable? || r.mine == r.base
    ensures Conflicts(rs) == 0 && OutOf(rs, labels) == TheirsOf(rs)
    decreases |rs|
  {
    if rs != [] {
      BaseSides(rs[1..], labels);
    }
  }

  lemma UnchangedMineTakesTheirs(b: seq<Line>, c: seq<Line>, labels: Labels)
    ensures Conflicts(RegionsOf(b, b, c)) == 0
    ensures OutOf(RegionsOf(b, b, c), labels) == c
  {
    var p, q := Untouched(b, b), Untouched(b, c);
    UntouchedMatches(b, b);
    UntouchedMatches(b, c);
    forall i | 0 <= i < |b|
      ensures i in p && p[i] == i
    {
      SelfUntouched(b, i);
    }
    CutFromBase(b, c, p, q, 0, 0, 0);
    BaseSides(RegionsOf(b, b, c), labels);
    RegionsTile(b, b, c);
  }

  lemma {:induction false} SameSides(rs: seq<Region>, labels: Labels)
    requires forall r <- rs :: r.Stable? || r.mine == r.theirs
    ensures Conflicts(rs) == 0 && OutOf(rs, labels) == MineOf(rs)
    decreases |rs|
  {
    if rs != [] {
      SameSides(rs[1..], labels);
    }
  }

  lemma {:induction false} CutSameSides(b: seq<Line>, a: seq<Line>, p: map<int, int>, bi: int, start: int, ai: int)
    requires Cutting(b, a, a, p, p, bi, start, ai, ai)
    ensures forall r <- Cut(b, a, a, p, p, bi, start, ai, ai) :: r.Stable? || r.mine == r.theirs
    decreases |b| - bi
  {
    if bi < |b| {
      CutStep(b, a, a, p, p, bi, start, ai, ai);
      if bi in p {
        CutSameSides(b, a, p, bi + 1, bi + 1, p[bi] + 1);
      } else {
        CutSameSides(b, a, p, bi + 1, start, ai);
      }
    }
  }

  lemma SameChangeTwice(b: seq<Line>, a: seq<Line>, labels: Labels)
    ensures Conflicts(RegionsOf(b, a, a)) == 0
    ensures OutOf(RegionsOf(b, a, a), labels) == a
  {
    UntouchedMatches(b, a);
    CutSameSides(b, a, Untouched(b, a), 0, 0, 0);
    SameSides(RegionsOf(b, a, a), labels);
    RegionsTile(b, a, a);
  }

  /**
   The early returns only save work: where one applies, the regions are free of
   conflicts and yield exactly the lines of the text it returns.
   */
  lemma ShortcutsAgree(base: string, mine: string, theirs: string, labels: Labels)
    requires mine == theirs || base == mine || base == theirs
    ensures var rs := RegionsOf(SplitLines(base), SplitLines(mine), SplitLines(theirs));
            && Merge(base, mine, theirs, labels).clean
            && Conflicts(rs) == 0
            && OutOf(rs, labels) == SplitLines(Merge(base, mine, theirs, labels).text)
  {
    hide RegionsOf, OutOf, Conflicts, SplitLines;
    var b, a, c := SplitLines(base), SplitLines(mine), SplitLines(theirs);
    if mine == theirs {
      SameChangeTwice(b, a, labels);
    } else if base == mine {
      UnchangedMineTakesTheirs(b, c, labels);
    } else {
      UnchangedMineTakesTheirs(b, a, labels);
      RegionsSwap(b, b, a);
      SwapOutcome(RegionsOf(b, b, a), labels, labels);
    }
  }

  /** A side that is the base, or the same as the other, leaves a text exactly as it was written. */
  lemma OneSidedMerge(text: string, other: string, labels: Labels)
    ensures Merge(text, text, other, labels) == MergeResult(true, other, 0)
    ensures Merge(text, other, text, labels) == MergeResult(true, other, 0)
    ensures Merge(other, text, text, labels) == MergeResult(true, text, 0)
  {
  }

  /** Otherwise the text is the resolved regions, ending as theirs does, or as mine where theirs is empty. */
  lemma MergeEndsLikeTheirs(base: string, mine: string, theirs: string, labels: Labels)
    requires mine != theirs && base != mine && base != theirs
    ensures var r := Merge(base, mine, theirs, labels);
            var rs := RegionsOf(SplitLines(base), SplitLines(mine), SplitLines(theirs));
            var text, sample := Join(OutOf(rs, labels), '\n'), if theirs != "" then theirs else mine;
            && r.clean == (r.conflicts == 0) && r.conflicts == Conflicts(rs)
            && r.text == if text == "" || sample[|sample| - 1] == '\n' then text + "\n" else text
  {
    hide RegionsOf, OutOf, Conflicts, SplitLines;
  }
}
