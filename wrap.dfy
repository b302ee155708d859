/** The greedy word wrap `wrapText` of the canvas helpers: the text is split on
    single spaces and words are added to the current line while the measured
    width of the candidate line stays within `maxWidth`. The canvas'
    `measureText` is an uninterpreted width function. */
module WordWrap {
  import opened Js

  /** The width `ctx.measureText` reports for a string in the current font. */
  type Measure = string -> nat

  /** The loop's variables: the committed `lines` and `currentLine`. */
  datatype WrapState = WrapState(lines: seq<string>, current: string)

  /** One iteration of the loop, for the word `w`. */
  function Step(st: WrapState, w: string, measure: Measure, maxWidth: int): WrapState {
    var testLine := if st.current != "" then st.current + " " + w else w;
    if measure(testLine) > maxWidth && st.current != "" then
      WrapState(st.lines + [st.current], w)
    else
      WrapState(st.lines, testLine)
  }

  /** The state after the loop has consumed `words`, in order. */
  function Run(words: seq<string>, measure: Measure, maxWidth: int): WrapState
    decreases |words|
  {
    if |words| == 0 then WrapState([], "")
    else Step(Run(words[..|words| - 1], measure, maxWidth), words[|words| - 1], measure, maxWidth)
  }

  /** The lines once a non-empty current line has been pushed. */
  function Flush(st: WrapState): seq<string> {
    if st.current != "" then st.lines + [st.current] else st.lines
  }

  /** The words of a text: `text.split(' ')`. */
  function Words(text: string): seq<string> {
    Split(text, ' ')
  }

  /** The lines `wrapText` returns. */
  function Wrap(text: string, measure: Measure, maxWidth: int): seq<string> {
    Flush(Run(Words(text), measure, maxWidth))
  }

  /** A line may be wider than `maxWidth` only when it is a single word. */
  predicate Acceptable(line: string, words: seq<string>, measure: Measure, maxWidth: int) {
    measure(line) <= maxWidth || line in words
  }

  /** True when no space-separated token of the text is empty (no leading,
      trailing or doubled space and a non-empty text). */
  predicate WellSpaced(text: string) {
    forall w :: w in Words(text) ==> w != ""
  }

  /** The first word of a line. */
  function Head(line: string): string {
    Split(line, ' ')[0]
  }

  /** `wrapText(ctx, text, maxWidth)`. */
  method WrapText(text: string, measure: Measure, maxWidth: int) returns (lines: seq<string>)
    ensures lines == Wrap(text, measure, maxWidth)
    ensures forall l :: l in lines ==> l != ""
    ensures forall l :: l in lines && measure(l) > maxWidth ==> l in Words(text)
    ensures |lines| <= |Words(text)|
  {
    var words := Split(text, ' ');
    lines := [];
    var currentLine := "";
    for i := 0 to |words|
      invariant WrapState(lines, currentLine) == Run(words[..i], measure, maxWidth)
    {
      var word := words[i];
      var testLine := if currentLine != "" then currentLine + " " + word else word;
      if measure(testLine) > maxWidth && currentLine != "" {
        lines := lines + [currentLine];
        currentLine := word;
      } else {
        currentLine := testLine;
      }
      assert words[..i + 1][..i] == words[..i];
    }
    assert words[..|words|] == words;
    if currentLine != "" {
      lines := lines + [currentLine];
    }
    WrapLinesNonEmpty(text, measure, maxWidth);
    WrapOverflowIsOneWord(text, measure, maxWidth);
    WrapLineCount(text, measure, maxWidth);
  }

  // ---------------------------------------------------------------------------
  // Invariants of the loop, one per property, each proved over prefixes.

  lemma {:induction false} RunLinesNonEmpty(words: seq<string>, measure: Measure, maxWidth: int)
    ensures forall l :: l in Run(words, measure, maxWidth).lines ==> l != ""
    decreases |words|
  {
    if |words| > 0 {
      RunLinesNonEmpty(words[..|words| - 1], measure, maxWidth);
    }
  }

  /** No line `wrapText` returns is empty. */
  lemma WrapLinesNonEmpty(text: string, measure: Measure, maxWidth: int)
    ensures forall l :: l in Wrap(text, measure, maxWidth) ==> l != ""
  {
    RunLinesNonEmpty(Words(text), measure, maxWidth);
  }

  lemma {:induction false} RunAcceptable(words: seq<string>, measure: Measure, maxWidth: int)
    ensures var st := Run(words, measure, maxWidth);
      (forall l :: l in st.lines ==> Acceptable(l, words, measure, maxWidth)) &&
      (st.current == "" || Acceptable(st.current, words, measure, maxWidth))
    decreases |words|
  {
    if |words| > 0 {
      var prefix := words[..|words| - 1];
      RunAcceptable(prefix, measure, maxWidth);
      assert forall w :: w in prefix ==> w in words;
      assert words[|words| - 1] in words;
    }
  }

  /** A line wider than `maxWidth` is always a single word of the text. */
  lemma WrapOverflowIsOneWord(text: string, measure: Measure, maxWidth: int)
    ensures forall l :: l in Wrap(text, measure, maxWidth) && measure(l) > maxWidth ==> l in Words(text)
  {
    RunAcceptable(Words(text), measure, maxWidth);
  }

  /** Every line holding more than one word (it contains a space) fits. */
  lemma WrapMultiWordLinesFit(text: string, measure: Measure, maxWidth: int)
    ensures forall l :: l in Wrap(text, measure, maxWidth) && ' ' in l ==> measure(l) <= maxWidth
  {
    WrapOverflowIsOneWord(text, measure, maxWidth);
  }

  lemma {:induction false} RunCount(words: seq<string>, measure: Measure, maxWidth: int)
    ensures |Flush(Run(words, measure, maxWidth))| <= |words|
    decreases |words|
  {
    if |words| > 0 {
      RunCount(words[..|words| - 1], measure, maxWidth);
    }
  }

  /** There are never more lines than words. */
  lemma WrapLineCount(text: string, measure: Measure, maxWidth: int)
    ensures |Wrap(text, measure, maxWidth)| <= |Words(text)|
  {
    RunCount(Words(text), measure, maxWidth);
  }

  /** The empty text wraps to no line at all. */
  lemma WrapEmpty(measure: Measure, maxWidth: int)
    ensures Wrap("", measure, maxWidth) == []
  {
    assert Words("") == [""];
    assert Run([""], measure, maxWidth) == WrapState([], "");
  }

  /** One step of the loop on a non-empty current line extends the joined
      lines by a space and the word. */
  lemma StepJoin(st: WrapState, w: string, measure: Measure, maxWidth: int)
    requires st.current != "" && w != ""
    ensures Join(Flush(Step(st, w, measure, maxWidth)), " ") == Join(Flush(st), " ") + " " + w
  {
    var testLine := st.current + " " + w;
    if measure(testLine) > maxWidth {
      JoinAppend(st.lines + [st.current], w, " ");
    } else if |st.lines| > 0 {
      JoinAppend(st.lines, st.current, " ");
      JoinAppend(st.lines, testLine, " ");
    }
  }

  lemma {:induction false} RunJoin(words: seq<string>, measure: Measure, maxWidth: int)
    requires forall w :: w in words ==> w != ""
    ensures Join(Flush(Run(words, measure, maxWidth)), " ") == Join(words, " ")
    ensures Run(words, measure, maxWidth).current == "" <==> |words| == 0
    decreases |words|
  {
    if |words| > 0 {
      var prefix := words[..|words| - 1];
      var w := words[|words| - 1];
      assert words == prefix + [w];
      assert w in words;
      assert forall x :: x in prefix ==> x in words;
      RunJoin(prefix, measure, maxWidth);
      if |prefix| > 0 {
        JoinAppend(prefix, w, " ");
        StepJoin(Run(prefix, measure, maxWidth), w, measure, maxWidth);
      }
    }
  }

  /** For a text whose tokens are all non-empty, joining the lines with single
      spaces gives back the text: no word is lost, reordered or broken. */
  lemma WrapJoin(text: string, measure: Measure, maxWidth: int)
    requires WellSpaced(text)
    ensures Join(Wrap(text, measure, maxWidth), " ") == text
  {
    RunJoin(Words(text), measure, maxWidth);
    JoinSplit(text, ' ');
  }

  lemma {:induction false} RunGreedy(words: seq<string>, measure: Measure, maxWidth: int)
    requires forall w :: w in words ==> w != "" && ' ' !in w
    ensures var ls := Flush(Run(words, measure, maxWidth));
      forall i :: 0 <= i < |ls| - 1 ==> measure(ls[i] + " " + Head(ls[i + 1])) > maxWidth
    decreases |words|
  {
    if |words| > 0 {
      var prefix := words[..|words| - 1];
      var w := words[|words| - 1];
      assert w in words;
      assert forall x :: x in prefix ==> x in words;
      RunGreedy(prefix, measure, maxWidth);
      RunJoin(prefix, measure, maxWidth);
      var st := Run(prefix, measure, maxWidth);
      var old_ls := Flush(st);
      var ls := Flush(Run(words, measure, maxWidth));
      SplitNoSeparator(w, ' ');
      if |prefix| > 0 {
        var testLine := st.current + " " + w;
        if measure(testLine) > maxWidth {
          assert ls == old_ls + [w];
          forall i | 0 <= i < |ls| - 1
            ensures measure(ls[i] + " " + Head(ls[i + 1])) > maxWidth
          {
            if i < |old_ls| - 1 {
              assert ls[i] == old_ls[i] && ls[i + 1] == old_ls[i + 1];
            } else {
              assert ls[i] == st.current && Head(ls[i + 1]) == w;
            }
          }
        } else {
          SplitAround(st.current, w, ' ');
          assert Head(testLine) == Head(st.current);
          assert ls == st.lines + [testLine];
          assert old_ls == st.lines + [st.current];
          forall i | 0 <= i < |ls| - 1
            ensures measure(ls[i] + " " + Head(ls[i + 1])) > maxWidth
          {
            assert ls[i] == old_ls[i];
            if i < |ls| - 2 {
              assert ls[i + 1] == old_ls[i + 1];
            } else {
              assert Head(ls[i + 1]) == Head(old_ls[i + 1]);
            }
          }
        }
      }
    }
  }

  /** Greediness: for a text whose tokens are all non-empty, every line break
      is forced, since the line followed by the first word of the next line
      would be wider than `maxWidth`. */
  lemma WrapGreedy(text: string, measure: Measure, maxWidth: int)
    requires WellSpaced(text)
    ensures var ls := Wrap(text, measure, maxWidth);
      forall i :: 0 <= i < |ls| - 1 ==> measure(ls[i] + " " + Head(ls[i + 1])) > maxWidth
  {
    assert forall w :: w in Words(text) ==> ' ' !in w;
    RunGreedy(Words(text), measure, maxWidth);
    assert Wrap(text, measure, maxWidth) == Flush(Run(Words(text), measure, maxWidth));
  }

  /** A line rebuilds itself: the loop run on its own words commits nothing
      and ends with the line as the current line. */
  predicate Rebuilds(line: string, measure: Measure, maxWidth: int) {
    Run(Words(line), measure, maxWidth) == WrapState([], line)
  }

  lemma {:induction false} RunRebuilds(words: seq<string>, measure: Measure, maxWidth: int)
    requires forall w :: w in words ==> w != "" && ' ' !in w
    ensures forall l :: l in Flush(Run(words, measure, maxWidth)) ==> Rebuilds(l, measure, maxWidth)
    decreases |words|
  {
    if |words| > 0 {
      var prefix := words[..|words| - 1];
      var w := words[|words| - 1];
      assert w in words;
      assert forall x :: x in prefix ==> x in words;
      RunRebuilds(prefix, measure, maxWidth);
      var st := Run(prefix, measure, maxWidth);
      SplitNoSeparator(w, ' ');
      assert [w][..0] == [];
      assert Rebuilds(w, measure, maxWidth);
      var testLine := st.current + " " + w;
      if st.current != "" && measure(testLine) <= maxWidth {
        assert st.current in Flush(st);
        SplitAround(st.current, w, ' ');
        var ws := Words(st.current) + [w];
        assert Words(testLine) == ws;
        assert ws[..|ws| - 1] == Words(st.current);
        assert Rebuilds(testLine, measure, maxWidth);
      }
      assert forall l :: l in st.lines ==> l in Flush(st);
    }
  }

  /** Wrapping is idempotent: for a text whose tokens are all non-empty,
      wrapping any produced line again yields exactly that line. */
  lemma WrapIdempotent(text: string, measure: Measure, maxWidth: int)
    requires WellSpaced(text)
    ensures forall l :: l in Wrap(text, measure, maxWidth) ==> Wrap(l, measure, maxWidth) == [l]
  {
    assert forall w :: w in Words(text) ==> ' ' !in w;
    RunRebuilds(Words(text), measure, maxWidth);
    WrapLinesNonEmpty(text, measure, maxWidth);
  }
}
