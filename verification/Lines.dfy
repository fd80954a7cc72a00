/** Splitting a text into lines and joining it again (src/diff3.ts:103-114). */
module Lines {
  import opened Pieces

  type Line = string

  const NEWLINE := '\n'

  predicate EndsInNewline(s: string) {
    |s| > 0 && s[|s| - 1] == NEWLINE
  }

  function SplitLines(text: string): seq<Line> {
    if text == "" then []
    else Split(if EndsInNewline(text) then text[..|text| - 1] else text, NEWLINE)
  }

  function JoinLines(lines: seq<Line>, sample: string): string {
    var text := Join(lines, NEWLINE);
    if EndsInNewline(sample) || text == "" then text + [NEWLINE] else text
  }

  /** Exactly the empty text does not survive being split and joined again. */
  lemma RoundTrip(text: string)
    ensures JoinLines(SplitLines(text), text) == text <==> text != ""
  {
    if text != "" {
      var body := if EndsInNewline(text) then text[..|text| - 1] else text;
      JoinSplit(body, NEWLINE);
      if EndsInNewline(text) {
        assert body + [NEWLINE] == text;
      }
    }
  }

  /** Lines part at line feeds, and the last line feed of a text begins no further line. */
  lemma LinesPartExactly(first: string, rest: string)
    requires '\n' !in first
    ensures SplitLines("") == [] && SplitLines(first + "\n") == [first] && (first != "" ==> SplitLines(first) == [first])
    ensures rest != "" && rest != "\n" ==> SplitLines(first + "\n" + rest) == [first] + SplitLines(rest)
  {
    SplitWithout(first, '\n');
    assert (first + "\n")[..|first + "\n"| - 1] == first;
    if rest != "" && rest != "\n" {
      var body := if EndsInNewline(rest) then rest[..|rest| - 1] else rest;
      SplitAt(first, body, '\n');
      assert EndsInNewline(first + "\n" + rest) <==> EndsInNewline(rest);
      assert (first + "\n" + rest)[..|first| + 1 + |body|] == first + ['\n'] + body;
    }
  }

  /** Joined lines end as the sample does; nothing at all becomes one line feed. */
  lemma JoinsExactly(lines: seq<Line>, sample: string)
    ensures var text := Join(lines, '\n');
            JoinLines(lines, sample) ==
            if text == "" || (sample != "" && sample[|sample| - 1] == '\n') then text + "\n" else text
  {
  }

  function Count(lines: seq<Line>, l: Line): nat {
    multiset(lines)[l]
  }

  lemma CountConcat(x: seq<Line>, y: seq<Line>, l: Line)
    ensures Count(x + y, l) == Count(x, l) + Count(y, l)
  {
    assert multiset(x + y) == multiset(x) + multiset(y);
  }

  /** Joining and splitting never loses a line. */
  lemma {:induction false} JoinKeepsLines(lines: seq<Line>, l: Line)
    requires l != "" && NEWLINE !in l
    ensures Count(Split(Join(lines, NEWLINE), NEWLINE), l) >= Count(lines, l)
  {
    if |lines| == 1 {
      OneLineKept(lines[0], l);
      assert lines == [lines[0]];
    } else if |lines| > 1 {
      JoinKeepsLines(lines[1..], l);
      OneLineKept(lines[0], l);
      SplitAt(lines[0], Join(lines[1..], NEWLINE), NEWLINE);
      CountConcat(Split(lines[0], NEWLINE), Split(Join(lines[1..], NEWLINE), NEWLINE), l);
      CountConcat([lines[0]], lines[1..], l);
      assert [lines[0]] + lines[1..] == lines;
    }
  }

  lemma OneLineKept(line: Line, l: Line)
    requires NEWLINE !in l
    ensures Count(Split(line, NEWLINE), l) >= Count([line], l)
  {
    if line == l {
      SplitWithout(line, NEWLINE);
    }
  }

  /** Only a blank line distinguishes the lines of a text from the pieces between its newlines. */
  lemma SplitLinesPieces(text: string, l: Line)
    requires l != ""
    ensures Count(SplitLines(text), l) == Count(Split(text, NEWLINE), l)
  {
    assert Split("", NEWLINE) == [""];
    hide Split;
    if EndsInNewline(text) {
      var body := text[..|text| - 1];
      assert text == body + [NEWLINE] + "";
      SplitAt(body, "", NEWLINE);
      CountConcat(Split(body, NEWLINE), [""], l);
    }
  }

  /** Every line that goes into a joined text is a line of that text, blank ones aside. */
  lemma TextKeepsLines(lines: seq<Line>, sample: string, l: Line)
    requires l != "" && NEWLINE !in l
    ensures Count(SplitLines(JoinLines(lines, sample)), l) >= Count(lines, l)
  {
    var text := Join(lines, NEWLINE);
    JoinKeepsLines(lines, l);
    SplitLinesPieces(JoinLines(lines, sample), l);
    SplitAt(text, "", NEWLINE);
    assert text + [NEWLINE] + "" == text + [NEWLINE];
    CountConcat(Split(text, NEWLINE), [""], l);
  }
}
