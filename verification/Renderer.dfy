/** The renderer, which appends to one output buffer. */
module Renderer {
  import opened Options
  import opened Decimals
  import opened Utf8
  import opened SourceText
  import opened Excerpt
  import opened Highlight
  import opened Rendering

  ghost predicate AllValid(files: Files)
    reads files
  {
    forall f :: f in files ==> f.Valid()
  }

  method UnderlineWidth(file: SourceFile, span: Span, line: nat, column: nat) returns (width: nat)
    requires file.Valid()
    ensures forall k: nat ::
              At(file.text, k, span.start) && line == Line(file.text, k) && column == Column(file.text, k) ==>
                width == UnderlineOf(file.text, span, k)
  {
    if span.start == span.end {
      return 1;
    }
    var end := file.Location(span.end);
    if end.None? {
      return 1;
    }
    if end.value.0 == line {
      return Max(Minus(end.value.1, column), 1);
    }
    var text := file.LineText(line);
    if text.None? {
      forall k: nat | At(file.text, k, span.start) ensures Line(file.text, k) != line {
        StartsOfPrefix(file.text, '\n', k);
      }
      return 1;
    }
    HeadsAreScalars(TrimEnd(LineOf(file.text, line), {'\r', '\n'}));
    return Max(Minus(Heads(text.value), Minus(column, 1)), 1);
  }

  /** The excerpt of a label, if its start is a position in the file. */
  method FindExcerpt(file: SourceFile, span: Span) returns (r: Option<SourceExcerpt>)
    requires file.Valid()
    ensures r == match ScalarsAt(file.text, span.start) {
                   case None => None
                   case Some(k) =>
                     Some(ExcerptOf(LineTextAt(file.text, k), Column(file.text, k), UnderlineOf(file.text, span, k)))
                 }
  {
    hide ExcerptOf, UnderlineOf, TrimEnd, LineOf, Line, Column;
    var start := file.Location(span.start);
    if start.None? {
      return None;
    }
    ghost var k := ScalarsAt(file.text, span.start).value;
    var (line, column) := start.value;
    LineExists(file.text, k);
    var bytes := file.LineText(line);
    if bytes.None? {
      return None;
    }
    DecodeUndoesEncode(LineTextAt(file.text, k));
    var width := UnderlineWidth(file, span, line, column);
    r := Some(ExcerptOf(Decode(bytes.value), column, width));
  }

  lemma LineExists(text: string, k: nat)
    requires k <= |text|
    ensures 1 <= Line(text, k) <= |Starts(text, '\n')|
  {
    StartsOfPrefix(text, '\n', k);
  }

  class DiagnosticRenderer {
    const color: bool
    const settings: Settings
    var output: string

    constructor (color: bool, settings: Settings)
      ensures this.color == color && this.settings == settings && output == ""
    {
      this.color, this.settings, output := color, settings, "";
    }

    method Push(text: string)
      modifies this
      ensures output == old(output) + Shown(color, [Plain(text)])
    {
      ShownOne(color, Plain(text));
      output := output + text;
    }

    method PushStyle(style: Style)
      modifies this
      ensures output == old(output) + Shown(color, [Sgr(style)])
    {
      ShownOne(color, Sgr(style));
      if color {
        output := output + Code(style);
      }
    }

    /** Append the excerpt's row. */
    method PushSource(e: SourceExcerpt)
      modifies this
      ensures output == old(output) + Shown(color, SourcePieces(settings.alphabet, e))
    {
      hide Shown, Tokens;
      Push("  " + if e.leading then ELLIPSIS else "");
      ghost var before := output;
      if color {
        output := HighlightXshLine(settings.alphabet, e.text, output);
      } else {
        TokensAreTheLine(settings.alphabet, e.text, 0);
        output := output + e.text;
      }
      assert output == before + Shown(color, Tokens(settings.alphabet, e.text, 0));
      Push((if e.trailing then ELLIPSIS else "") + "\n");
      ShownInOrder(color, [Plain("  " + if e.leading then ELLIPSIS else "")], Tokens(settings.alphabet, e.text, 0),
                   [Plain((if e.trailing then ELLIPSIS else "") + "\n")], old(output));
    }

    method PushMarkers(e: SourceExcerpt, tag: Label, severity: Severity)
      modifies this
      ensures output == old(output) + Shown(color, MarkerPieces(e, tag, severity))
    {
      hide Shown, MarkersText;
      Push("  " + Repeat(' ', e.indent));
      PushStyle(SeverityStyle(severity));
      Push(MarkersText(e, tag));
      PushStyle(Reset);
      Push("\n");
      var p := MarkerPieces(e, tag, severity);
      assert p == ((([p[0]] + [p[1]]) + [p[2]]) + [p[3]]) + [p[4]];
      ShownJoins(color, [p[0]], [p[1]]);
      ShownJoins(color, [p[0]] + [p[1]], [p[2]]);
      ShownJoins(color, [p[0]] + [p[1]] + [p[2]], [p[3]]);
      ShownJoins(color, [p[0]] + [p[1]] + [p[2]] + [p[3]], [p[4]]);
    }

    method RenderLabel(tag: Label, severity: Severity, files: Files)
      requires AllValid(files)
      modifies this
      ensures output == old(output) + Shown(color, LabelPieces(settings.alphabet, tag, severity, files))
    {
      hide SourcePieces, MarkerPieces, ExcerptOf, UnderlineOf, LineTextAt, Line, Column;
      if tag.span.source >= |files| {
        return;
      }
      var found := FindExcerpt(files[tag.span.source], tag.span);
      if found.None? {
        return;
      }
      var e := found.value;
      PushSource(e);
      PushMarkers(e, tag, severity);
      ShownJoins(color, SourcePieces(settings.alphabet, e), MarkerPieces(e, tag, severity));
    }

    method PushHead(d: Diagnostic)
      modifies this
      ensures output == old(output) + Shown(color, HeadPieces(d))
    {
      hide Shown;
      var style := SeverityStyle(d.severity);
      PushStyle(style);
      Push(SeverityName(d.severity));
      ghost var pieces := [Sgr(style)] + [Plain(SeverityName(d.severity))];
      ShownJoins(color, [Sgr(style)], [Plain(SeverityName(d.severity))]);
      if d.code.Some? {
        PushStyle(Dim);
        Push("[" + d.code.value + "]");
        PushStyle(Reset);
        PushStyle(style);
        ShownFour(color, pieces, Sgr(Dim), Plain("[" + d.code.value + "]"), Sgr(Reset), Sgr(style), old(output));
        pieces := pieces + [Sgr(Dim), Plain("[" + d.code.value + "]"), Sgr(Reset), Sgr(style)];
      }
      assert output == old(output) + Shown(color, pieces);
      Push(": ");
      PushStyle(Reset);
      Push(d.message + "\n");
      ShownThree(color, pieces, Plain(": "), Sgr(Reset), Plain(d.message + "\n"), old(output));
      assert pieces + [Plain(": "), Sgr(Reset), Plain(d.message + "\n")] == HeadPieces(d);
    }

    method PushPlace(span: Option<Span>, files: Files)
      requires AllValid(files)
      modifies this
      ensures output == old(output) + Shown(color, PlacePieces(span, files))
    {
      hide Shown, Line, Column;
      if span.None? || span.value.source >= |files| {
        NothingShown(color, output);
        return;
      }
      var file := files[span.value.source];
      var start := file.Location(span.value.start);
      ghost var found := ScalarsAt(file.text, span.value.start);
      if start.None? {
        NothingShown(color, output);
        return;
      }
      assert start.value == (Line(file.text, found.value), Column(file.text, found.value));
      var place := ":" + Decimal(start.value.0) + ":" + Decimal(start.value.1);
      Push("  ");
      PushStyle(Cyan);
      Push(file.name);
      ShownThree(color, [], Plain("  "), Sgr(Cyan), Plain(file.name), old(output));
      NothingShown(color, old(output));
      ghost var first := [Plain("  "), Sgr(Cyan), Plain(file.name)];
      assert [] + first == first;
      PushStyle(Dim);
      Push(place);
      PushStyle(Reset);
      Push("\n");
      ShownFour(color, first, Sgr(Dim), Plain(place), Sgr(Reset), Plain("\n"), old(output));
      assert first + [Sgr(Dim), Plain(place), Sgr(Reset), Plain("\n")] == PlacePieces(span, files);
    }

    method PushAside(title: string, text: string)
      modifies this
      ensures output == old(output) + Shown(color, [Sgr(Dim), Plain(title), Sgr(Reset), Plain(text + "\n")])
    {
      hide Shown;
      PushStyle(Dim);
      Push(title);
      PushStyle(Reset);
      Push(text + "\n");
      ShownFour(color, [], Sgr(Dim), Plain(title), Sgr(Reset), Plain(text + "\n"), old(output));
      NothingShown(color, old(output));
      assert [] + [Sgr(Dim), Plain(title), Sgr(Reset), Plain(text + "\n")]
             == [Sgr(Dim), Plain(title), Sgr(Reset), Plain(text + "\n")];
    }

    method PushHint(hint: Hint)
      modifies this
      ensures output == old(output) + Shown(color, HintPieces(hint))
    {
      hide Shown;
      var text := hint.message;
      if hint.replacement.Some? && hint.replacement.value != "" {
        text := text + " -> " + hint.replacement.value;
        assert text == hint.message + (" -> " + hint.replacement.value);
      } else {
        assert text == hint.message + "";
      }
      PushAside("help: ", text);
    }

    method PushLabels(labels: seq<Label>, severity: Severity, files: Files)
      requires AllValid(files)
      modifies this
      ensures output == old(output) + Shown(color, LabelsPieces(settings.alphabet, labels, severity, files))
    {
      hide Shown, LabelPieces;
      NothingShown(color, output);
      assert labels[0..] == labels;
      ghost var done: seq<Piece> := [];
      for n := 0 to |labels|
        invariant output == old(output) + Shown(color, done)
        invariant done + LabelsPieces(settings.alphabet, labels[n..], severity, files)
                  == LabelsPieces(settings.alphabet, labels, severity, files)
      {
        assert labels[n..][1..] == labels[n + 1..];
        RenderLabel(labels[n], severity, files);
        ShownJoins(color, done, LabelPieces(settings.alphabet, labels[n], severity, files));
        done := done + LabelPieces(settings.alphabet, labels[n], severity, files);
      }
      assert done + [] == done;
    }

    method PushNotes(notes: seq<string>)
      modifies this
      ensures output == old(output) + Shown(color, NotesPieces(notes))
    {
      hide Shown;
      NothingShown(color, output);
      assert notes[0..] == notes;
      ghost var done: seq<Piece> := [];
      for n := 0 to |notes|
        invariant output == old(output) + Shown(color, done)
        invariant done + NotesPieces(notes[n..]) == NotesPieces(notes)
      {
        assert notes[n..][1..] == notes[n + 1..];
        PushAside("note: ", notes[n]);
        ShownJoins(color, done, NotePieces(notes[n]));
        done := done + NotePieces(notes[n]);
      }
      assert done + [] == done;
    }

    method PushHints(hints: seq<Hint>)
      modifies this
      ensures output == old(output) + Shown(color, HintsPieces(hints))
    {
      hide Shown, HintPieces;
      NothingShown(color, output);
      assert hints[0..] == hints;
      ghost var done: seq<Piece> := [];
      for n := 0 to |hints|
        invariant output == old(output) + Shown(color, done)
        invariant done + HintsPieces(hints[n..]) == HintsPieces(hints)
      {
        assert hints[n..][1..] == hints[n + 1..];
        PushHint(hints[n]);
        ShownJoins(color, done, HintPieces(hints[n]));
        done := done + HintPieces(hints[n]);
      }
      assert done + [] == done;
    }

    method RenderOne(d: Diagnostic, files: Files)
      requires AllValid(files)
      modifies this
      ensures output == old(output) + Shown(color, OnePieces(settings, d, files))
    {
      hide Shown, HeadPieces, PlacePieces, LabelsPieces, NotesPieces, HintsPieces;
      PushHead(d);
      PushPlace(PrimarySpan(d), files);
      PushLabels(settings.order(d.labels), d.severity, files);
      PushNotes(d.notes);
      PushHints(d.hints);
      ghost var p, q, r := HeadPieces(d), PlacePieces(PrimarySpan(d), files),
                           LabelsPieces(settings.alphabet, settings.order(d.labels), d.severity, files);
      ShownInOrder(color, p, q, r, old(output));
      ShownInOrder(color, p + q + r, NotesPieces(d.notes), HintsPieces(d.hints), old(output));
    }

    method Render(ds: seq<Diagnostic>, files: Files)
      requires AllValid(files)
      modifies this
      ensures output == old(output) + Shown(color, AllPieces(settings, ds, files))
    {
      hide Shown, OnePieces;
      NothingShown(color, output);
      assert ds[0..] == ds;
      ghost var done: seq<Piece> := [];
      for n := 0 to |ds|
        invariant output == old(output) + Shown(color, done)
        invariant n == 0 ==> done == []
        invariant AllPieces(settings, ds, files) ==
                  done + (if 0 < n < |ds| then [Plain("\n")] else []) + AllPieces(settings, ds[n..], files)
      {
        assert ds[n..][1..] == ds[n + 1..];
        ghost var gap := if n > 0 then [Plain("\n")] else [];
        if n > 0 {
          Push("\n");
          ShownJoins(color, done, gap);
        }
        assert done + [] == done;
        RenderOne(ds[n], files);
        ShownJoins(color, done + gap, OnePieces(settings, ds[n], files));
        NextDiagnostic(settings, ds[n..], files, done + gap);
        done := done + gap + OnePieces(settings, ds[n], files);
      }
      assert done + [] + [] == done;
    }
  }

  lemma ShownInOrder(color: bool, a: seq<Piece>, b: seq<Piece>, c: seq<Piece>, before: string)
    ensures before + Shown(color, a) + Shown(color, b) + Shown(color, c) == before + Shown(color, a + b + c)
  {
    hide Shown;
    ShownJoins(color, a + b, c);
    ShownJoins(color, a, b);
  }

  lemma NextDiagnostic(s: Settings, ds: seq<Diagnostic>, files: Files, before: seq<Piece>)
    requires ds != []
    ensures before + AllPieces(s, ds, files) ==
            before + OnePieces(s, ds[0], files) + (if |ds| > 1 then [Plain("\n")] else [])
            + AllPieces(s, ds[1..], files)
  {
    hide OnePieces;
    NextInRow(before, OnePieces(s, ds[0], files), if |ds| > 1 then [Plain("\n")] else [],
              AllPieces(s, ds[1..], files));
  }

  lemma NextInRow(before: seq<Piece>, one: seq<Piece>, gap: seq<Piece>, rest: seq<Piece>)
    ensures before + (one + gap + rest) == before + one + gap + rest
    ensures rest == [] && gap == [] ==> one + gap + rest == one
  {
  }

  lemma NothingShown(color: bool, before: string)
    ensures before + Shown(color, []) == before
  {
  }

  lemma ShownThree(color: bool, front: seq<Piece>, a: Piece, b: Piece, c: Piece, before: string)
    ensures before + Shown(color, front) + Shown(color, [a]) + Shown(color, [b]) + Shown(color, [c])
            == before + Shown(color, front + [a, b, c])
  {
    hide Shown;
    ShownJoins(color, front + [a] + [b], [c]);
    ShownJoins(color, front + [a], [b]);
    ShownJoins(color, front, [a]);
    assert front + [a] + [b] + [c] == front + [a, b, c];
  }

  lemma ShownFour(color: bool, front: seq<Piece>, a: Piece, b: Piece, c: Piece, d: Piece, before: string)
    ensures before + Shown(color, front) + Shown(color, [a]) + Shown(color, [b]) + Shown(color, [c]) + Shown(color, [d])
            == before + Shown(color, front + [a, b, c, d])
  {
    hide Shown;
    ShownThree(color, front, a, b, c, before);
    ShownJoins(color, front + [a, b, c], [d]);
    assert front + [a, b, c] + [d] == front + [a, b, c, d];
  }
}
