/** Rendering a diagnostic: the header, its place, an excerpt for every label, notes and hints. */
module Rendering {
  import opened Options
  import opened Decimals
  import opened Utf8
  import opened SourceText
  import opened Excerpt
  import opened Highlight

  datatype Severity = Error | Warning | Info | Note

  datatype Span = Span(source: nat, start: nat, end: nat)

  datatype Label = Label(primary: bool, span: Span, message: Option<string>)

  datatype Hint = Hint(message: string, replacement: Option<string>)

  datatype Diagnostic = Diagnostic(severity: Severity, code: Option<string>, message: string, span: Option<Span>,
                                   labels: seq<Label>, notes: seq<string>, hints: seq<Hint>)

  type Files = seq<SourceFile>

  /** `order` is the unstable sort of labels by span and style. */
  datatype Settings = Settings(alphabet: Alphabet, order: seq<Label> -> seq<Label>)

  function SeverityName(severity: Severity): string {
    match severity
    case Error => "err"
    case Warning => "warn"
    case Info => "info"
    case Note => "note"
  }

  function SeverityStyle(severity: Severity): Style {
    match severity
    case Error => BoldRed
    case Warning => BoldYellow
    case Info => BoldBlue
    case Note => BoldCyan
  }

  // ----- How much is underlined -----

  /** The text of the line a position is on, without its line end. */
  function LineTextAt(text: string, k: nat): string
    requires k <= |text|
  {
    StartsOfPrefix(text, '\n', k);
    TrimEnd(LineOf(text, Line(text, k)), {'\r', '\n'})
  }

  /** From the start of a label at `k` to its end, or to the end of the line. */
  ghost function UnderlineOf(text: string, span: Span, k: nat): (width: nat)
    requires k <= |text|
    ensures width >= 1
  {
    if span.start == span.end then 1
    else
      match ScalarsAt(text, span.end)
      case None => 1
      case Some(e) =>
        if Line(text, e) == Line(text, k) then Max(Minus(Column(text, e), Column(text, k)), 1)
        else Max(Minus(|LineTextAt(text, k)|, Column(text, k) - 1), 1)
  }

  /** A label within a line is underlined as wide as its text; one that goes on to another line,
      to the end of its first line's text. */
  lemma UnderlineIsTheLabel(text: string, span: Span, k: nat, e: nat)
    requires At(text, k, span.start) && At(text, e, span.end) && k < e
    ensures '\n' !in text[k..e] ==> UnderlineOf(text, span, k) == |text[k..e]|
    ensures '\n' in text[k..e] ==>
              UnderlineOf(text, span, k) == Max(Minus(|LineTextAt(text, k)|, Column(text, k) - 1), 1)
  {
    EncodeSlice(text, k, e);
    var found := ScalarsAt(text, span.end);
    assert found.Some?;
    PositionIsUnique(text, e, found.value, span.end);
    SameLine(text, k, e);
  }

  /** A label without text, or without an end in the file, has one marker. */
  lemma OtherLabelsHaveOneMarker(text: string, span: Span, k: nat)
    requires k <= |text| && (span.start == span.end || forall e: nat :: !At(text, e, span.end))
    ensures UnderlineOf(text, span, k) == 1
  {
  }

  lemma SameLine(text: string, k: nat, e: nat)
    requires k <= e <= |text|
    ensures '\n' !in text[k..e] <==> Line(text, k) == Line(text, e)
    ensures Line(text, k) == Line(text, e) ==> Column(text, e) - Column(text, k) == e - k
  {
    assert text[..e] == text[..k] + text[k..e];
    StartsOfPrefix(text[..e], '\n', k);
    assert text[..e][..k] == text[..k];
    if '\n' !in text[k..e] {
      StartsWithout(text[..k], text[k..e], '\n');
    }
    if Line(text, k) == Line(text, e) {
      LastStart(text[..e], '\n');
      var start := Last(Starts(text[..e], '\n'));
      assert text[k..e] == text[..e][start..][k - start..];
    }
  }

  // ----- Pieces -----

  function SourcePieces(a: Alphabet, e: SourceExcerpt): seq<Piece> {
    [Plain("  " + if e.leading then ELLIPSIS else "")] + Tokens(a, e.text, 0)
    + [Plain((if e.trailing then ELLIPSIS else "") + "\n")]
  }

  function MarkOf(tag: Label): char { if tag.primary then '^' else '-' }

  function MessageOf(tag: Label): string { if tag.message.Some? then " " + tag.message.value else "" }

  function MarkersText(e: SourceExcerpt, tag: Label): string {
    Repeat(MarkOf(tag), e.width) + (if e.clipped then ELLIPSIS else "") + MessageOf(tag)
  }

  function MarkerPieces(e: SourceExcerpt, tag: Label, severity: Severity): seq<Piece> {
    [Plain("  " + Repeat(' ', e.indent)), Sgr(SeverityStyle(severity)), Plain(MarkersText(e, tag)), Sgr(Reset),
     Plain("\n")]
  }

  ghost function LabelPieces(a: Alphabet, tag: Label, severity: Severity, files: Files): seq<Piece> {
    if tag.span.source >= |files| then []
    else
      var text := files[tag.span.source].text;
      match ScalarsAt(text, tag.span.start)
      case None => []
      case Some(k) =>
        var e := ExcerptOf(LineTextAt(text, k), Column(text, k), UnderlineOf(text, tag.span, k));
        SourcePieces(a, e) + MarkerPieces(e, tag, severity)
  }

  function HeadPieces(d: Diagnostic): seq<Piece> {
    [Sgr(SeverityStyle(d.severity)), Plain(SeverityName(d.severity))]
    + (if d.code.None? then []
       else [Sgr(Dim), Plain("[" + d.code.value + "]"), Sgr(Reset), Sgr(SeverityStyle(d.severity))])
    + [Plain(": "), Sgr(Reset), Plain(d.message + "\n")]
  }

  /** The first primary label's span, else the first label's, else the diagnostic's own. */
  function PrimarySpan(d: Diagnostic): Option<Span> {
    match FirstPrimary(d.labels)
    case Some(span) => Some(span)
    case None => if d.labels != [] then Some(d.labels[0].span) else d.span
  }

  function FirstPrimary(labels: seq<Label>): Option<Span> {
    if labels == [] then None
    else if labels[0].primary then Some(labels[0].span)
    else FirstPrimary(labels[1..])
  }

  ghost function PlacePieces(span: Option<Span>, files: Files): seq<Piece> {
    if span.None? || span.value.source >= |files| then []
    else
      var file := files[span.value.source];
      match ScalarsAt(file.text, span.value.start)
      case None => []
      case Some(k) =>
        [Plain("  "), Sgr(Cyan), Plain(file.name), Sgr(Dim),
         Plain(":" + Decimal(Line(file.text, k)) + ":" + Decimal(Column(file.text, k))), Sgr(Reset), Plain("\n")]
  }

  function NotePieces(note: string): seq<Piece> { [Sgr(Dim), Plain("note: "), Sgr(Reset), Plain(note + "\n")] }

  function HintPieces(hint: Hint): seq<Piece> {
    var replacement := if hint.replacement.Some? && hint.replacement.value != "" then " -> " + hint.replacement.value
                       else "";
    [Sgr(Dim), Plain("help: "), Sgr(Reset), Plain(hint.message + replacement + "\n")]
  }

  ghost function LabelsPieces(a: Alphabet, labels: seq<Label>, severity: Severity, files: Files): seq<Piece> {
    if labels == [] then []
    else LabelPieces(a, labels[0], severity, files) + LabelsPieces(a, labels[1..], severity, files)
  }

  function NotesPieces(notes: seq<string>): seq<Piece> {
    if notes == [] then [] else NotePieces(notes[0]) + NotesPieces(notes[1..])
  }

  function HintsPieces(hints: seq<Hint>): seq<Piece> {
    if hints == [] then [] else HintPieces(hints[0]) + HintsPieces(hints[1..])
  }

  ghost function OnePieces(s: Settings, d: Diagnostic, files: Files): seq<Piece> {
    HeadPieces(d) + PlacePieces(PrimarySpan(d), files) + LabelsPieces(s.alphabet, s.order(d.labels), d.severity, files)
    + NotesPieces(d.notes) + HintsPieces(d.hints)
  }

  ghost function AllPieces(s: Settings, ds: seq<Diagnostic>, files: Files): seq<Piece> {
    if ds == [] then []
    else if |ds| == 1 then OnePieces(s, ds[0], files)
    else OnePieces(s, ds[0], files) + [Plain("\n")] + AllPieces(s, ds[1..], files)
  }

  // ----- Texts without escapes -----

  predicate Quiet(text: string) { ESC !in text }

  predicate QuietMessage(message: Option<string>) { message.Some? ==> Quiet(message.value) }

  ghost predicate QuietFiles(files: Files) {
    forall f :: f in files ==> Quiet(f.name) && Quiet(f.text)
  }

  ghost predicate QuietDiagnostic(s: Settings, d: Diagnostic) {
    && QuietMessage(d.code) && Quiet(d.message)
    && (forall tag :: tag in s.order(d.labels) ==> QuietMessage(tag.message))
    && (forall note :: note in d.notes ==> Quiet(note))
    && (forall hint :: hint in d.hints ==> Quiet(hint.message) && QuietMessage(hint.replacement))
  }

  lemma QuietRows(a: Alphabet, e: SourceExcerpt, tag: Label, severity: Severity)
    requires Quiet(e.text) && QuietMessage(tag.message)
    ensures EscapeFree(SourcePieces(a, e) + MarkerPieces(e, tag, severity))
  {
    TokensAreEscapeFree(a, e.text, 0);
    assert Quiet(MarkersText(e, tag)) && Quiet(Repeat(' ', e.indent));
  }

  lemma QuietLabel(a: Alphabet, tag: Label, severity: Severity, files: Files)
    requires QuietFiles(files) && QuietMessage(tag.message)
    ensures EscapeFree(LabelPieces(a, tag, severity, files))
  {
    hide SourcePieces, MarkerPieces, ExcerptOf, LineTextAt, UnderlineOf;
    if tag.span.source < |files| && ScalarsAt(files[tag.span.source].text, tag.span.start).Some? {
      var file := files[tag.span.source];
      assert file in files;
      var k := ScalarsAt(file.text, tag.span.start).value;
      var e := ExcerptOf(LineTextAt(file.text, k), Column(file.text, k), UnderlineOf(file.text, tag.span, k));
      QuietExcerpt(file.text, k, e, Column(file.text, k), UnderlineOf(file.text, tag.span, k));
      QuietRows(a, e, tag, severity);
    }
  }

  lemma QuietExcerpt(text: string, k: nat, e: SourceExcerpt, column: nat, underline: nat)
    requires k <= |text| && Quiet(text) && e == ExcerptOf(LineTextAt(text, k), column, underline)
    ensures Quiet(e.text)
  {
    hide Window, ExcerptOf;
    PartsOfExcerpt(LineTextAt(text, k), column, underline);
    StartsOfPrefix(text, '\n', k);
    var line, start := LineTextAt(text, k), Starts(text, '\n')[Line(text, k) - 1];
    assert forall i :: 0 <= i < |line| ==> line[i] == text[start + i];
  }

  lemma {:induction false} DecimalIsQuiet(n: nat)
    ensures Quiet(Decimal(n))
  {
    var digits := "0123456789";
    assert forall i :: 0 <= i < 10 ==> digits[i] != ESC;
    if n >= 10 {
      DecimalIsQuiet(n / 10);
    }
  }

  lemma QuietPlace(span: Option<Span>, files: Files)
    requires QuietFiles(files)
    ensures EscapeFree(PlacePieces(span, files))
  {
    if span.Some? && span.value.source < |files| && ScalarsAt(files[span.value.source].text, span.value.start).Some? {
      var file := files[span.value.source];
      assert file in files;
      var k := ScalarsAt(file.text, span.value.start).value;
      DecimalIsQuiet(Line(file.text, k));
      DecimalIsQuiet(Column(file.text, k));
    }
  }

  lemma {:induction false} QuietLabels(a: Alphabet, labels: seq<Label>, severity: Severity, files: Files)
    requires QuietFiles(files) && forall tag :: tag in labels ==> QuietMessage(tag.message)
    ensures EscapeFree(LabelsPieces(a, labels, severity, files))
  {
    hide LabelPieces, QuietMessage;
    if labels != [] {
      QuietLabel(a, labels[0], severity, files);
      QuietLabels(a, labels[1..], severity, files);
    }
  }

  lemma {:induction false} QuietNotes(notes: seq<string>)
    requires forall note :: note in notes ==> Quiet(note)
    ensures EscapeFree(NotesPieces(notes))
  {
    if notes != [] {
      assert notes[0] in notes;
      QuietNotes(notes[1..]);
    }
  }

  lemma {:induction false} QuietHints(hints: seq<Hint>)
    requires forall hint :: hint in hints ==> Quiet(hint.message) && QuietMessage(hint.replacement)
    ensures EscapeFree(HintsPieces(hints))
  {
    if hints != [] {
      QuietHints(hints[1..]);
    }
  }

  lemma QuietOne(s: Settings, d: Diagnostic, files: Files)
    requires QuietFiles(files) && QuietDiagnostic(s, d)
    ensures EscapeFree(OnePieces(s, d, files))
  {
    hide LabelsPieces, PlacePieces, NotesPieces, HintsPieces;
    QuietPlace(PrimarySpan(d), files);
    QuietLabels(s.alphabet, s.order(d.labels), d.severity, files);
    QuietNotes(d.notes);
    QuietHints(d.hints);
  }

  lemma {:induction false} QuietAll(s: Settings, ds: seq<Diagnostic>, files: Files)
    requires QuietFiles(files) && forall d :: d in ds ==> QuietDiagnostic(s, d)
    ensures EscapeFree(AllPieces(s, ds, files))
  {
    hide OnePieces, QuietDiagnostic;
    if ds != [] {
      QuietOne(s, ds[0], files);
      QuietAll(s, ds[1..], files);
    }
  }

  /** Without its escape sequences a coloured rendering is the plain one. */
  lemma ColourIsOnlyEscapes(s: Settings, ds: seq<Diagnostic>, files: Files)
    requires QuietFiles(files) && forall d :: d in ds ==> QuietDiagnostic(s, d)
    ensures Strip(Shown(true, AllPieces(s, ds, files))) == Shown(false, AllPieces(s, ds, files))
  {
    QuietAll(s, ds, files);
    ColourOnlyAddsEscapes(AllPieces(s, ds, files));
  }

  // ----- The rows of a label -----

  /** Uncoloured, a label is its source row and its marker row, each behind the margin. */
  lemma LabelRows(a: Alphabet, tag: Label, severity: Severity, files: Files, k: nat)
    requires tag.span.source < |files| && At(files[tag.span.source].text, k, tag.span.start)
    ensures var text := files[tag.span.source].text;
            var e := ExcerptOf(LineTextAt(text, k), Column(text, k), UnderlineOf(text, tag.span, k));
            var margin := Repeat(' ', MARGIN);
            Shown(false, LabelPieces(a, tag, severity, files)) ==
              margin + SourceRow(e) + "\n"
              + margin + MarkerRow(e, if tag.primary then '^' else '-')
              + (if tag.message.Some? then " " + tag.message.value else "") + "\n"
  {
    hide ExcerptOf, LineTextAt, UnderlineOf, SourcePieces, MarkerPieces, SourceRow, MarkerRow, Shown;
    var text := files[tag.span.source].text;
    var found := ScalarsAt(text, tag.span.start);
    assert found.Some?;
    PositionIsUnique(text, k, found.value, tag.span.start);
    var e := ExcerptOf(LineTextAt(text, k), Column(text, k), UnderlineOf(text, tag.span, k));
    ShownJoins(false, SourcePieces(a, e), MarkerPieces(e, tag, severity));
    SourceShown(a, e);
    MarkersShown(e, tag, severity);
    Rows(Repeat(' ', MARGIN) + SourceRow(e) + "\n", Repeat(' ', MARGIN), MarkerRow(e, MarkOf(tag)), MessageOf(tag),
         "\n");
  }

  lemma Rows(a: string, b: string, c: string, d: string, e: string)
    ensures a + (b + c + d + e) == a + b + c + d + e
  {
  }

  /** From its column on, the line of a position continues as the text does from the position. */
  lemma LineContinuesText(text: string, k: nat, j: nat)
    requires k <= |text| && Column(text, k) - 1 + j < |LineTextAt(text, k)|
    ensures k + j < |text| && LineTextAt(text, k)[Column(text, k) - 1 + j] == text[k + j]
  {
    StartsOfPrefix(text, '\n', k);
  }

  /** Each marker of a label stands under the scalar of the file it marks. */
  lemma MarkersStandUnderTheText(text: string, k: nat, underline: nat, j: nat)
    requires k <= |text| && underline >= 1 && Column(text, k) - 1 + j < |LineTextAt(text, k)|
    requires j < ExcerptOf(LineTextAt(text, k), Column(text, k), underline).width
    ensures var e := ExcerptOf(LineTextAt(text, k), Column(text, k), underline);
            k + j < |text| && e.indent + j < |SourceRow(e)| && SourceRow(e)[e.indent + j] == text[k + j]
  {
    hide ExcerptOf, SourceRow, LineTextAt;
    LineContinuesText(text, k, j);
    MarkersStandUnderTheLabel(LineTextAt(text, k), Column(text, k), underline, j);
  }

  lemma SourceShown(a: Alphabet, e: SourceExcerpt)
    ensures Shown(false, SourcePieces(a, e)) == Repeat(' ', MARGIN) + SourceRow(e) + "\n"
  {
    hide Shown, Tokens;
    var lead, trail := if e.leading then ELLIPSIS else "", if e.trailing then ELLIPSIS else "";
    var first, last := Plain("  " + lead), Plain(trail + "\n");
    ShownJoins(false, [first] + Tokens(a, e.text, 0), [last]);
    ShownJoins(false, [first], Tokens(a, e.text, 0));
    TokensAreTheLine(a, e.text, 0);
    ShownOne(false, first);
    ShownOne(false, last);
    assert Repeat(' ', MARGIN) == "  ";
    SourceParts("  ", lead, e.text, trail, "\n");
  }

  lemma SourceParts(a: string, b: string, c: string, d: string, e: string)
    ensures (a + b) + c + (d + e) == a + (b + c + d) + e
  {
  }

  lemma MarkersShown(e: SourceExcerpt, tag: Label, severity: Severity)
    ensures Shown(false, MarkerPieces(e, tag, severity)) ==
            Repeat(' ', MARGIN) + MarkerRow(e, MarkOf(tag)) + MessageOf(tag) + "\n"
  {
    hide Shown;
    var clip := if e.clipped then ELLIPSIS else "";
    ShownFive(MarkerPieces(e, tag, severity));
    assert Repeat(' ', MARGIN) == "  ";
    MarkerParts("  ", Repeat(' ', e.indent), Repeat(MarkOf(tag), e.width), clip, MessageOf(tag), "\n");
  }

  lemma MarkerParts(a: string, b: string, c: string, d: string, e: string, f: string)
    ensures (a + b) + ("" + ((c + d + e) + ("" + f))) == a + (b + c + d) + e + f
  {
  }

  lemma ShownFive(p: seq<Piece>)
    requires |p| == 5
    ensures Shown(false, p) == ShownPiece(false, p[0]) + (ShownPiece(false, p[1]) + (ShownPiece(false, p[2])
                               + (ShownPiece(false, p[3]) + ShownPiece(false, p[4]))))
  {
    hide ShownPiece, Shown;
    assert p == [p[0]] + ([p[1]] + ([p[2]] + ([p[3]] + [p[4]])));
    ShownJoins(false, [p[0]], [p[1]] + ([p[2]] + ([p[3]] + [p[4]])));
    ShownJoins(false, [p[1]], [p[2]] + ([p[3]] + [p[4]]));
    ShownJoins(false, [p[2]], [p[3]] + [p[4]]);
    ShownJoins(false, [p[3]], [p[4]]);
    ShownOne(false, p[0]);
    ShownOne(false, p[1]);
    ShownOne(false, p[2]);
    ShownOne(false, p[3]);
    ShownOne(false, p[4]);
  }
}
