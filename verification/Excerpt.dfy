/** The window of a source line that a diagnostic shows, and the markers under it. Widths count
    scalars; a row has a margin of two and at most 160 scalars in all. */
module Excerpt {

  const MARGIN: nat := 2
  const WIDTH: nat := 160 - MARGIN
  const CONTENT: nat := WIDTH - 2

  datatype SourceExcerpt = SourceExcerpt(text: string, leading: bool, trailing: bool, indent: nat, width: nat,
                                         clipped: bool)

  function Minus(a: nat, b: nat): nat { if a < b then 0 else a - b }

  function Min(a: nat, b: nat): nat { if a < b then a else b }

  function Max(a: nat, b: nat): nat { if a < b then b else a }

  function Bit(b: bool): nat { if b then 1 else 0 }

  /** The scalars of the line that are shown, from the first to before the last; the first may lie
      behind the line's end. */
  function Window(length: nat, start: nat, underline: nat): (nat, nat) {
    var virtual := Max(length, start + underline);
    if virtual <= WIDTH then (0, length)
    else
      var before := (CONTENT - Min(underline, CONTENT)) / 2;
      var first := Min(Minus(start, before), Minus(virtual, CONTENT));
      (first, Min(first + CONTENT, length))
  }

  /** A slice by scalar positions; positions past the end are the end. */
  function Slice(line: string, first: nat, last: nat): string
    requires Min(first, |line|) <= Min(last, |line|)
  {
    line[Min(first, |line|)..Min(last, |line|)]
  }

  function ExcerptOf(line: string, column: nat, underline: nat): SourceExcerpt {
    var start := Minus(column, 1);
    var (first, last) := Window(|line|, start, underline);
    var leading, trailing := first > 0, last < |line|;
    var indent := Bit(leading) + Minus(start, first);
    assert indent <= WIDTH;
    var visible := if trailing then Max(Minus(last, start), 1) else WIDTH - indent;
    var clipped := underline > visible;
    var width := Min(underline, visible - Bit(clipped && !trailing));
    SourceExcerpt(Slice(line, first, last), leading, trailing, indent, width, clipped)
  }

  const ELLIPSIS := ['\U{2026}']

  function Repeat(c: char, n: nat): (s: string)
    ensures |s| == n && forall i :: 0 <= i < n ==> s[i] == c
  {
    seq(n, _ => c)
  }

  function SourceRow(e: SourceExcerpt): string {
    (if e.leading then ELLIPSIS else "") + e.text + if e.trailing then ELLIPSIS else ""
  }

  function MarkerRow(e: SourceExcerpt, mark: char): string {
    Repeat(' ', e.indent) + Repeat(mark, e.width) + if e.clipped then ELLIPSIS else ""
  }

  /** Both rows fit, and some marker is drawn. */
  lemma RowsFit(line: string, column: nat, underline: nat, mark: char)
    requires underline >= 1
    ensures var e := ExcerptOf(line, column, underline);
            && MARGIN + |SourceRow(e)| <= 160
            && MARGIN + |MarkerRow(e, mark)| <= 160
            && e.width >= 1
  {
  }

  /** Every marker stands under the scalar it marks, as long as the line has one there. */
  lemma MarkersStandUnderTheLabel(line: string, column: nat, underline: nat, k: nat)
    requires 1 <= column && column - 1 + k < |line|
    requires k < Max(ExcerptOf(line, column, underline).width, 1)
    ensures var e := ExcerptOf(line, column, underline);
            e.indent + k < |SourceRow(e)| && SourceRow(e)[e.indent + k] == line[column - 1 + k]
  {
    hide ExcerptOf, Window;
    var e, start := ExcerptOf(line, column, underline), column - 1;
    var (first, last) := Window(|line|, start, underline);
    WindowShowsTheLabel(line, column, underline, k);
    PartsOfExcerpt(line, column, underline);
    RowShowsText(e, start - first + k);
  }

  lemma PartsOfExcerpt(line: string, column: nat, underline: nat)
    ensures var (e, start) := (ExcerptOf(line, column, underline), Minus(column, 1));
            var (first, last) := Window(|line|, start, underline);
            && Min(first, |line|) <= Min(last, |line|) && e.text == Slice(line, first, last)
            && e.leading == (first > 0) && e.indent == Bit(e.leading) + Minus(start, first)
  {
  }

  lemma RowShowsText(e: SourceExcerpt, i: nat)
    requires i < |e.text|
    ensures Bit(e.leading) + i < |SourceRow(e)| && SourceRow(e)[Bit(e.leading) + i] == e.text[i]
  {
  }

  lemma WindowShowsTheLabel(line: string, column: nat, underline: nat, k: nat)
    requires 1 <= column && column - 1 + k < |line|
    requires k < Max(ExcerptOf(line, column, underline).width, 1)
    ensures var (first, last) := Window(|line|, column - 1, underline);
            first <= column - 1 && column - 1 + k < last <= |line|
  {
  }

  /** Unclipped markers cover the label; clipped ones reach the edge of the window. */
  lemma MarkersCoverTheLabel(line: string, column: nat, underline: nat)
    requires underline >= 1
    ensures var e := ExcerptOf(line, column, underline);
            && (!e.clipped ==> e.width == underline)
            && (e.clipped ==> e.width < underline)
            && (e.clipped && e.trailing ==> e.indent + e.width + 1 == |SourceRow(e)|)
            && (e.clipped && !e.trailing ==> MARGIN + e.indent + e.width + 1 == 160)
  {
  }

  /** A line that fits with its label is shown whole. */
  lemma ShortLinesAreWhole(line: string, column: nat, underline: nat)
    requires Max(|line|, Minus(column, 1) + underline) <= WIDTH && underline >= 1
    ensures ExcerptOf(line, column, underline)
            == SourceExcerpt(line, false, false, Minus(column, 1), underline, false)
  {
  }

  /** What is shown is a stretch of the line, with an ellipsis exactly where something is left out. */
  lemma EllipsesTellWhatIsLeftOut(line: string, column: nat, underline: nat)
    ensures var e := ExcerptOf(line, column, underline);
            exists first: nat, last: nat ::
              && first <= last <= |line| && e.text == line[first..last]
              && (e.trailing <==> last < |line|) && (first > 0 ==> e.leading)
              && (e.leading && first == 0 ==> line == "")
  {
    var (first, last) := Window(|line|, Minus(column, 1), underline);
    assert ExcerptOf(line, column, underline).text == line[Min(first, |line|)..Min(last, |line|)];
  }

  /** The scalars of the line before the label that are shown, and those behind it. */
  ghost predicate ShowsAround(line: string, column: nat, underline: nat, before: nat, behind: nat) {
    var start := column - 1;
    && before <= start && start + underline + behind <= |line|
    && ExcerptOf(line, column, underline).text == line[start - before..start + underline + behind]
  }

  /** A label in the middle of a long line stands in the middle of the window: as much is shown before it as
      behind it, or one scalar less. Wherever it stands, as much of the line is shown as fits. */
  lemma LabelIsCentred(line: string, column: nat, underline: nat)
    requires 1 <= column && underline <= CONTENT && column - 1 + underline <= |line|
    ensures var e := ExcerptOf(line, column, underline);
            exists before: nat, behind: nat ::
              && ShowsAround(line, column, underline, before, behind)
              && (|line| > WIDTH ==> |e.text| == CONTENT)
              && (e.leading && e.trailing ==> before <= behind <= before + 1)
              && (!e.leading ==> before == column - 1)
              && (!e.trailing ==> column - 1 + underline + behind == |line|)
  {
    var (first, last) := Window(|line|, column - 1, underline);
    var before, behind := column - 1 - first, last - (column - 1 + underline);
    assert ShowsAround(line, column, underline, before, behind);
  }
}
