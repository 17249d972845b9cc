/** What a rendered diagnostic says, written out. `On` is a colour that is written only when colouring
    is on. */
module RenderedText {
  import opened Options
  import opened Decimals
  import opened Utf8
  import opened SourceText
  import opened Excerpt
  import opened Highlight
  import opened Rendering

  function On(color: bool, code: string): string { if color then code else "" }

  const RESET := "\U{1b}[0m"
  const DIM := "\U{1b}[2m"

  /** Texts one after the other. */
  function Joined(texts: seq<string>): string {
    if texts == [] then "" else Joined(texts[..|texts| - 1]) + texts[|texts| - 1]
  }

  /** Texts with a separator between any two of them. */
  function Separated(texts: seq<string>, separator: string): string {
    if texts == [] then ""
    else if |texts| == 1 then texts[0]
    else Separated(texts[..|texts| - 1], separator) + separator + texts[|texts| - 1]
  }

  lemma {:induction false} JoinedFront(first: string, rest: seq<string>)
    ensures Joined([first] + rest) == first + Joined(rest)
  {
    var all := [first] + rest;
    if rest == [] {
      assert all[..0] == [] && Joined([]) == "";
    } else {
      var front, last := rest[..|rest| - 1], rest[|rest| - 1];
      assert all[..|all| - 1] == [first] + front && all[|all| - 1] == last;
      JoinedFront(first, front);
    }
  }

  lemma {:induction false} SeparatedFront(first: string, rest: seq<string>, separator: string)
    requires rest != []
    ensures Separated([first] + rest, separator) == first + separator + Separated(rest, separator)
  {
    var all := [first] + rest;
    var front, last := rest[..|rest| - 1], rest[|rest| - 1];
    assert all[..|all| - 1] == [first] + front && all[|all| - 1] == last;
    if front == [] {
      assert all[..|all| - 1] == [first];
    } else {
      SeparatedFront(first, front, separator);
    }
  }

  // ----- Pieces in a row -----

  lemma ShownOnto(color: bool, p: Piece, rest: seq<Piece>)
    ensures Shown(color, [p] + rest) == ShownPiece(color, p) + Shown(color, rest)
  {
    hide ShownPiece;
    ShownJoins(color, [p], rest);
    ShownOne(color, p);
  }

  lemma ShownThreePieces(color: bool, p: Piece, q: Piece, r: Piece)
    ensures Shown(color, [p, q, r]) == ShownPiece(color, p) + ShownPiece(color, q) + ShownPiece(color, r)
  {
    hide ShownPiece, Shown;
    assert [p, q, r] == [p] + ([q] + [r]);
    ShownOnto(color, p, [q] + [r]);
    ShownOnto(color, q, [r]);
    ShownOne(color, r);
  }

  lemma ShownFourPieces(color: bool, p: Piece, q: Piece, r: Piece, s: Piece)
    ensures Shown(color, [p, q, r, s])
            == ShownPiece(color, p) + ShownPiece(color, q) + ShownPiece(color, r) + ShownPiece(color, s)
  {
    hide ShownPiece, Shown;
    assert [p, q, r, s] == [p] + [q, r, s];
    ShownOnto(color, p, [q, r, s]);
    ShownThreePieces(color, q, r, s);
  }

  // ----- The header -----

  /** The severity's word and colour, the code in brackets, the message. */
  lemma HeaderSays(color: bool, d: Diagnostic)
    ensures var word := if d.severity == Error then "err" else if d.severity == Warning then "warn"
                        else if d.severity == Info then "info" else "note";
            var paint := On(color, if d.severity == Error then "\U{1b}[1;31m"
                                   else if d.severity == Warning then "\U{1b}[1;33m"
                                   else if d.severity == Info then "\U{1b}[1;34m" else "\U{1b}[1;36m");
            var code := if d.code.None? then ""
                        else On(color, DIM) + "[" + d.code.value + "]" + On(color, RESET) + paint;
            Shown(color, HeadPieces(d)) == paint + word + code + ": " + On(color, RESET) + d.message + "\n"
  {
    var style, word := SeverityStyle(d.severity), Plain(SeverityName(d.severity));
    var tail := [Plain(": "), Sgr(Reset), Plain(d.message + "\n")];
    var code := if d.code.None? then []
                else [Sgr(Dim), Plain("[" + d.code.value + "]"), Sgr(Reset), Sgr(style)];
    assert HeadPieces(d) == [Sgr(style)] + ([word] + (code + tail));
    SeveritySays(color, d.severity);
    hide Shown, On, SeverityName, SeverityStyle, HeadPieces;
    ShownOnto(color, Sgr(style), [word] + (code + tail));
    ShownOnto(color, word, code + tail);
    ShownJoins(color, code, tail);
    TailSays(color, d.message);
    CodeSays(color, d.code, style);
    HeaderParts(ShownPiece(color, Sgr(style)), ShownPiece(color, word), Shown(color, code), On(color, RESET),
                d.message);
  }

  lemma SeveritySays(color: bool, severity: Severity)
    ensures SeverityName(severity) == if severity == Error then "err" else if severity == Warning then "warn"
                                      else if severity == Info then "info" else "note"
    ensures ShownPiece(color, Sgr(SeverityStyle(severity)))
            == On(color, if severity == Error then "\U{1b}[1;31m" else if severity == Warning then "\U{1b}[1;33m"
                         else if severity == Info then "\U{1b}[1;34m" else "\U{1b}[1;36m")
  {
  }

  lemma TailSays(color: bool, message: string)
    ensures Shown(color, [Plain(": "), Sgr(Reset), Plain(message + "\n")])
            == ": " + On(color, RESET) + (message + "\n")
  {
    ShownThreePieces(color, Plain(": "), Sgr(Reset), Plain(message + "\n"));
  }

  lemma CodeSays(color: bool, code: Option<string>, style: Style)
    ensures Shown(color, if code.None? then []
                         else [Sgr(Dim), Plain("[" + code.value + "]"), Sgr(Reset), Sgr(style)])
            == if code.None? then ""
               else On(color, DIM) + "[" + code.value + "]" + On(color, RESET) + ShownPiece(color, Sgr(style))
  {
    if code.None? {
      NothingSaid(color);
    } else {
      ShownFourPieces(color, Sgr(Dim), Plain("[" + code.value + "]"), Sgr(Reset), Sgr(style));
      assert On(color, DIM) + ("[" + code.value + "]") == On(color, DIM) + "[" + code.value + "]";
    }
  }

  lemma HeaderParts(paint: string, word: string, code: string, reset: string, message: string)
    ensures paint + (word + (code + (": " + reset + (message + "\n"))))
            == paint + word + code + ": " + reset + message + "\n"
  {
  }

  lemma NothingSaid(color: bool)
    ensures Shown(color, []) == ""
  {
  }

  // ----- The place -----

  /** The primary span is that of the first primary label; without one, that of the first label; without
      labels, the diagnostic's own. */
  lemma {:induction false} PrimarySpanIsFirst(d: Diagnostic)
    ensures forall i :: 0 <= i < |d.labels| && d.labels[i].primary && (forall j :: 0 <= j < i ==> !d.labels[j].primary)
                        ==> PrimarySpan(d) == Some(d.labels[i].span)
    ensures (forall tag :: tag in d.labels ==> !tag.primary) && d.labels != [] ==>
              PrimarySpan(d) == Some(d.labels[0].span)
    ensures d.labels == [] ==> PrimarySpan(d) == d.span
  {
    forall i | 0 <= i < |d.labels| && d.labels[i].primary && (forall j :: 0 <= j < i ==> !d.labels[j].primary)
      ensures PrimarySpan(d) == Some(d.labels[i].span)
    {
      FirstPrimaryAt(d.labels, i);
    }
    if forall tag :: tag in d.labels ==> !tag.primary {
      NoPrimary(d.labels);
    }
  }

  lemma {:induction false} FirstPrimaryAt(labels: seq<Label>, i: nat)
    requires i < |labels| && labels[i].primary && (forall j :: 0 <= j < i ==> !labels[j].primary)
    ensures FirstPrimary(labels) == Some(labels[i].span)
  {
    if i > 0 {
      FirstPrimaryAt(labels[1..], i - 1);
    }
  }

  lemma {:induction false} NoPrimary(labels: seq<Label>)
    requires forall tag :: tag in labels ==> !tag.primary
    ensures FirstPrimary(labels) == None
  {
    if labels != [] {
      NoPrimary(labels[1..]);
    }
  }

  lemma {:induction false} OccurrencesAreMultiplicity(s: string, c: char)
    ensures Occurrences(s, c) == multiset(s)[c]
  {
    if s != [] {
      assert s == [s[0]] + s[1..];
      OccurrencesAreMultiplicity(s[1..], c);
    }
  }

  /** Only one position is directly behind the last newline before `k`, or at the start without one. */
  lemma LineBegins(text: string, k: nat, since: nat)
    requires since <= k <= |text| && '\n' !in text[since..k] && (since > 0 ==> text[since - 1] == '\n')
    ensures Column(text, k) == 1 + k - since
  {
    LineAndColumn(text, k);
    var start := k + 1 - Column(text, k);
    NoLater(text, k, since, start);
    NoLater(text, k, start, since);
  }

  lemma NoLater(text: string, k: nat, a: nat, b: nat)
    requires a <= k <= |text| && b <= k && '\n' !in text[a..k] && (b > 0 ==> text[b - 1] == '\n')
    ensures b <= a
  {
    var line := text[a..k];
    assert forall i :: a <= i < k ==> line[i - a] == text[i];
  }

  /** The place of a span that starts at a scalar position of a file: the file, the line, which is one more
      than the newlines before, and the column, which is one more than the scalars since the last of them. */
  lemma PlaceSays(color: bool, span: Span, files: Files, k: nat, since: nat)
    requires span.source < |files| && At(files[span.source].text, k, span.start)
    requires var text := files[span.source].text;
             since <= k && '\n' !in text[since..k] && (since > 0 ==> text[since - 1] == '\n')
    ensures var file := files[span.source];
            Shown(color, PlacePieces(Some(span), files)) ==
              "  " + On(color, "\U{1b}[36m") + file.name + On(color, DIM)
              + ":" + Decimal(1 + multiset(file.text[..k])['\n']) + ":" + Decimal(1 + k - since)
              + On(color, RESET) + "\n"
  {
    var file := files[span.source];
    var found := ScalarsAt(file.text, span.start);
    assert found.Some?;
    PositionIsUnique(file.text, k, found.value, span.start);
    hide Shown, Line, Column, Decimal;
    LineAndColumn(file.text, k);
    OccurrencesAreMultiplicity(file.text[..k], '\n');
    LineBegins(file.text, k, since);
    PlaceParts(color, file.name, Decimal(Line(file.text, k)), Decimal(Column(file.text, k)));
  }

  lemma PlaceParts(color: bool, name: string, line: string, column: string)
    ensures Shown(color, [Plain("  "), Sgr(Cyan), Plain(name), Sgr(Dim), Plain(":" + line + ":" + column), Sgr(Reset),
                          Plain("\n")])
            == "  " + On(color, "\U{1b}[36m") + name + On(color, DIM) + ":" + line + ":" + column + On(color, RESET)
               + "\n"
  {
    var place := Plain(":" + line + ":" + column);
    var first, last := [Plain("  "), Sgr(Cyan), Plain(name), Sgr(Dim)], [place, Sgr(Reset), Plain("\n")];
    assert first + last == [Plain("  "), Sgr(Cyan), Plain(name), Sgr(Dim), place, Sgr(Reset), Plain("\n")];
    hide Shown;
    ShownJoins(color, first, last);
    ShownFourPieces(color, Plain("  "), Sgr(Cyan), Plain(name), Sgr(Dim));
    ShownThreePieces(color, place, Sgr(Reset), Plain("\n"));
    Locate("  " + On(color, "\U{1b}[36m") + name + On(color, DIM), line, column, On(color, RESET));
  }

  lemma Locate(front: string, line: string, column: string, reset: string)
    ensures front + ((":" + line + ":" + column) + reset + "\n") == front + ":" + line + ":" + column + reset + "\n"
  {
  }

  /** Without a span, a file or a position there is no place. */
  lemma NoPlaceToSay(color: bool, span: Option<Span>, files: Files)
    requires span.Some? && span.value.source < |files| ==>
               forall k: nat :: !At(files[span.value.source].text, k, span.value.start)
    ensures Shown(color, PlacePieces(span, files)) == ""
  {
  }

  // ----- Notes and hints -----

  function NoteText(color: bool, title: string, text: string): string {
    On(color, DIM) + title + On(color, RESET) + text + "\n"
  }

  lemma AsideSays(color: bool, title: string, text: string)
    ensures Shown(color, [Sgr(Dim), Plain(title), Sgr(Reset), Plain(text + "\n")]) == NoteText(color, title, text)
  {
    ShownFourPieces(color, Sgr(Dim), Plain(title), Sgr(Reset), Plain(text + "\n"));
    hide Shown;
    var front := On(color, DIM) + title + On(color, RESET);
    assert front + (text + "\n") == front + text + "\n";
  }

  function NoteTexts(color: bool, notes: seq<string>): seq<string> {
    seq(|notes|, i requires 0 <= i < |notes| => NoteText(color, "note: ", notes[i]))
  }

  lemma {:induction false} NotesSay(color: bool, notes: seq<string>)
    ensures Shown(color, NotesPieces(notes)) == Joined(NoteTexts(color, notes))
  {
    var texts := NoteTexts(color, notes);
    if notes == [] {
      assert texts == [];
    } else {
      var rest := notes[1..];
      assert texts == [NoteText(color, "note: ", notes[0])] + NoteTexts(color, rest);
      JoinedFront(texts[0], texts[1..]);
      ShownJoins(color, NotePieces(notes[0]), NotesPieces(rest));
      AsideSays(color, "note: ", notes[0]);
      NotesSay(color, rest);
    }
  }

  function Suggestion(hint: Hint): string {
    if hint.replacement.None? || hint.replacement.value == "" then hint.message
    else hint.message + " -> " + hint.replacement.value
  }

  function HintTexts(color: bool, hints: seq<Hint>): seq<string> {
    seq(|hints|, i requires 0 <= i < |hints| => NoteText(color, "help: ", Suggestion(hints[i])))
  }

  lemma {:induction false} HintsSay(color: bool, hints: seq<Hint>)
    ensures Shown(color, HintsPieces(hints)) == Joined(HintTexts(color, hints))
  {
    var texts := HintTexts(color, hints);
    if hints == [] {
      assert texts == [];
    } else {
      var rest := hints[1..];
      assert texts == [NoteText(color, "help: ", Suggestion(hints[0]))] + HintTexts(color, rest);
      JoinedFront(texts[0], texts[1..]);
      ShownJoins(color, HintPieces(hints[0]), HintsPieces(rest));
      HintSays(color, hints[0]);
      HintsSay(color, rest);
    }
  }

  lemma HintSays(color: bool, hint: Hint)
    ensures Shown(color, HintPieces(hint)) == NoteText(color, "help: ", Suggestion(hint))
  {
    hide Shown, NoteText;
    AsideSays(color, "help: ", Suggestion(hint));
    assert HintPieces(hint)[3].text == Suggestion(hint) + "\n";
  }

  // ----- Labels -----

  ghost function LabelTexts(color: bool, a: Alphabet, labels: seq<Label>, severity: Severity, files: Files)
    : seq<string>
  {
    seq(|labels|, i requires 0 <= i < |labels| => Shown(color, LabelPieces(a, labels[i], severity, files)))
  }

  lemma {:induction false} LabelsSay(color: bool, a: Alphabet, labels: seq<Label>, severity: Severity, files: Files)
    ensures Shown(color, LabelsPieces(a, labels, severity, files)) ==
            Joined(LabelTexts(color, a, labels, severity, files))
  {
    hide LabelPieces;
    var texts := LabelTexts(color, a, labels, severity, files);
    if labels == [] {
      assert texts == [];
    } else {
      var rest := labels[1..];
      assert texts == [Shown(color, LabelPieces(a, labels[0], severity, files))]
                      + LabelTexts(color, a, rest, severity, files);
      JoinedFront(texts[0], texts[1..]);
      ShownJoins(color, LabelPieces(a, labels[0], severity, files), LabelsPieces(a, rest, severity, files));
      LabelsSay(color, a, rest, severity, files);
    }
  }

  /** A label's two rows: the highlighted excerpt between its ellipses, and under it the markers in the
      severity's colour with the message. */
  lemma LabelSays(color: bool, a: Alphabet, tag: Label, severity: Severity, files: Files, k: nat)
    requires tag.span.source < |files| && At(files[tag.span.source].text, k, tag.span.start)
    ensures var text := files[tag.span.source].text;
            var e := ExcerptOf(LineTextAt(text, k), Column(text, k), UnderlineOf(text, tag.span, k));
            var paint := On(color, if severity == Error then "\U{1b}[1;31m"
                                   else if severity == Warning then "\U{1b}[1;33m"
                                   else if severity == Info then "\U{1b}[1;34m" else "\U{1b}[1;36m");
            Shown(color, LabelPieces(a, tag, severity, files)) ==
              ("  " + (if e.leading then ELLIPSIS else "") + Shown(color, Tokens(a, e.text, 0))
               + (if e.trailing then ELLIPSIS else "") + "\n")
              + ("  " + Repeat(' ', e.indent) + paint + Repeat(if tag.primary then '^' else '-', e.width)
                 + (if e.clipped then ELLIPSIS else "") + (if tag.message.Some? then " " + tag.message.value else "")
                 + On(color, RESET) + "\n")
  {
    hide ExcerptOf, LineTextAt, UnderlineOf, SourcePieces, MarkerPieces, Tokens, Shown, Line, Column;
    var text := files[tag.span.source].text;
    var found := ScalarsAt(text, tag.span.start);
    assert found.Some?;
    PositionIsUnique(text, k, found.value, tag.span.start);
    var e := ExcerptOf(LineTextAt(text, k), Column(text, k), UnderlineOf(text, tag.span, k));
    ShownJoins(color, SourcePieces(a, e), MarkerPieces(e, tag, severity));
    SourceRowSays(color, a, e);
    MarkerRowSays(color, e, tag, severity);
  }

  lemma SourceRowSays(color: bool, a: Alphabet, e: SourceExcerpt)
    ensures Shown(color, SourcePieces(a, e)) ==
            "  " + (if e.leading then ELLIPSIS else "") + Shown(color, Tokens(a, e.text, 0))
            + (if e.trailing then ELLIPSIS else "") + "\n"
  {
    hide Shown, Tokens;
    var lead, trail := if e.leading then ELLIPSIS else "", if e.trailing then ELLIPSIS else "";
    var first, last := Plain("  " + lead), Plain(trail + "\n");
    ShownJoins(color, [first] + Tokens(a, e.text, 0), [last]);
    ShownOnto(color, first, Tokens(a, e.text, 0));
    ShownOne(color, last);
    SourceRowParts(lead, Shown(color, Tokens(a, e.text, 0)), trail);
  }

  lemma SourceRowParts(lead: string, text: string, trail: string)
    ensures ("  " + lead) + text + (trail + "\n") == "  " + lead + text + trail + "\n"
  {
  }

  lemma MarkerRowSays(color: bool, e: SourceExcerpt, tag: Label, severity: Severity)
    ensures var paint := On(color, if severity == Error then "\U{1b}[1;31m"
                                   else if severity == Warning then "\U{1b}[1;33m"
                                   else if severity == Info then "\U{1b}[1;34m" else "\U{1b}[1;36m");
            Shown(color, MarkerPieces(e, tag, severity)) ==
              "  " + Repeat(' ', e.indent) + paint + Repeat(if tag.primary then '^' else '-', e.width)
              + (if e.clipped then ELLIPSIS else "") + (if tag.message.Some? then " " + tag.message.value else "")
              + On(color, RESET) + "\n"
  {
    SeveritySays(color, severity);
    var p := MarkerPieces(e, tag, severity);
    var marks := Repeat(if tag.primary then '^' else '-', e.width);
    var clip := if e.clipped then ELLIPSIS else "";
    var message := if tag.message.Some? then " " + tag.message.value else "";
    assert p[2] == Plain(marks + clip + message);
    var text := p[2].text;
    assert p == [p[0]] + [p[1], p[2], p[3], p[4]];
    hide Shown, SeverityStyle, On, MarkersText, MarkerPieces;
    ShownOnto(color, p[0], [p[1], p[2], p[3], p[4]]);
    ShownFourPieces(color, p[1], p[2], p[3], p[4]);
    MarkerRowParts(Repeat(' ', e.indent), ShownPiece(color, p[1]), marks, clip, message, ShownPiece(color, p[3]));
    MarkersReset(color);
  }

  lemma MarkersReset(color: bool)
    ensures ShownPiece(color, Sgr(Reset)) == On(color, RESET)
  {
  }

  lemma MarkerRowParts(indent: string, paint: string, marks: string, clip: string, message: string, reset: string)
    ensures ("  " + indent) + (paint + (marks + clip + message) + reset + "\n")
            == "  " + indent + paint + marks + clip + message + reset + "\n"
  {
  }

  /** A label without a file or a start in it is not shown. */
  lemma NoLabelToSay(color: bool, a: Alphabet, tag: Label, severity: Severity, files: Files)
    requires tag.span.source < |files| ==> forall k: nat :: !At(files[tag.span.source].text, k, tag.span.start)
    ensures Shown(color, LabelPieces(a, tag, severity, files)) == ""
  {
  }

  // ----- Whole diagnostics -----

  /** A diagnostic says: header, place, every label in order, every note, every hint. */
  lemma DiagnosticSays(color: bool, s: Settings, d: Diagnostic, files: Files)
    ensures Shown(color, OnePieces(s, d, files)) ==
            Shown(color, HeadPieces(d)) + Shown(color, PlacePieces(PrimarySpan(d), files))
            + Joined(LabelTexts(color, s.alphabet, s.order(d.labels), d.severity, files))
            + Joined(NoteTexts(color, d.notes)) + Joined(HintTexts(color, d.hints))
  {
    hide Joined, HeadPieces, PlacePieces, LabelsPieces, NotesPieces, HintsPieces, NoteTexts, HintTexts, LabelTexts,
         Shown;
    var labels := s.order(d.labels);
    var head, place := HeadPieces(d), PlacePieces(PrimarySpan(d), files);
    var rows, notes := LabelsPieces(s.alphabet, labels, d.severity, files), NotesPieces(d.notes);
    ShownJoins(color, head + place + rows + notes, HintsPieces(d.hints));
    ShownJoins(color, head + place + rows, notes);
    ShownJoins(color, head + place, rows);
    ShownJoins(color, head, place);
    LabelsSay(color, s.alphabet, labels, d.severity, files);
    NotesSay(color, d.notes);
    HintsSay(color, d.hints);
  }

  ghost function DiagnosticTexts(color: bool, s: Settings, ds: seq<Diagnostic>, files: Files): seq<string> {
    seq(|ds|, i requires 0 <= i < |ds| => Shown(color, OnePieces(s, ds[i], files)))
  }

  /** Diagnostics are separated by one newline each. */
  lemma {:induction false} DiagnosticsAreSeparated(color: bool, s: Settings, ds: seq<Diagnostic>, files: Files)
    ensures Shown(color, AllPieces(s, ds, files)) ==
            Separated(DiagnosticTexts(color, s, ds, files), "\n")
  {
    hide OnePieces;
    var texts := DiagnosticTexts(color, s, ds, files);
    if |ds| > 1 {
      var rest := ds[1..];
      assert texts == [Shown(color, OnePieces(s, ds[0], files))] + DiagnosticTexts(color, s, rest, files);
      SeparatedFront(texts[0], texts[1..], "\n");
      ShownJoins(color, OnePieces(s, ds[0], files) + [Plain("\n")], AllPieces(s, rest, files));
      ShownJoins(color, OnePieces(s, ds[0], files), [Plain("\n")]);
      ShownOne(color, Plain("\n"));
      DiagnosticsAreSeparated(color, s, rest, files);
    }
  }
}
