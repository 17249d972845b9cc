/** Output in pieces: text, and colours that are written only when colouring is on. */
module Highlight {

  const ESC: char := '\U{1b}'

  datatype Style = Reset | BoldRed | BoldYellow | BoldBlue | BoldCyan | Dim | Cyan | Green | Magenta

  function Code(style: Style): string {
    match style
    case Reset => "\U{1b}[0m"
    case BoldRed => "\U{1b}[1;31m"
    case BoldYellow => "\U{1b}[1;33m"
    case BoldBlue => "\U{1b}[1;34m"
    case BoldCyan => "\U{1b}[1;36m"
    case Dim => "\U{1b}[2m"
    case Cyan => "\U{1b}[36m"
    case Green => "\U{1b}[32m"
    case Magenta => "\U{1b}[35m"
  }

  datatype Piece = Plain(text: string) | Sgr(style: Style)

  function ShownPiece(color: bool, p: Piece): string {
    match p
    case Plain(text) => text
    case Sgr(style) => if color then Code(style) else ""
  }

  function Shown(color: bool, pieces: seq<Piece>): string {
    if pieces == [] then "" else ShownPiece(color, pieces[0]) + Shown(color, pieces[1..])
  }

  lemma {:induction false} ShownJoins(color: bool, a: seq<Piece>, b: seq<Piece>)
    ensures Shown(color, a + b) == Shown(color, a) + Shown(color, b)
  {
    if a == [] {
      assert a + b == b;
    } else {
      hide ShownPiece;
      ShownJoins(color, a[1..], b);
      assert (a + b)[1..] == a[1..] + b;
    }
  }

  // ----- Removing escapes -----

  /** What follows the end of an escape sequence. */
  function AfterEscape(s: string): (r: string)
    ensures |r| <= |s|
  {
    if s == [] then [] else if s[0] == 'm' then s[1..] else AfterEscape(s[1..])
  }

  function Strip(s: string): string
    decreases |s|
  {
    if s == [] then []
    else if s[0] == ESC then Strip(AfterEscape(s[1..]))
    else [s[0]] + Strip(s[1..])
  }

  lemma {:induction false} AfterEscapeSkips(s: string, rest: string)
    requires 'm' !in s
    ensures AfterEscape(s + "m" + rest) == rest
  {
    var all := s + "m" + rest;
    if s == [] {
      assert all[1..] == rest;
    } else {
      assert all[1..] == s[1..] + "m" + rest;
      AfterEscapeSkips(s[1..], rest);
    }
  }

  lemma StripCode(style: Style, rest: string)
    ensures Strip(Code(style) + rest) == Strip(rest)
  {
    var code := Code(style);
    var body := code[1..|code| - 1];
    assert code == [ESC] + body + "m";
    assert (code + rest)[1..] == body + "m" + rest;
    AfterEscapeSkips(body, rest);
  }

  lemma {:induction false} StripPlain(text: string, rest: string)
    requires ESC !in text
    ensures Strip(text + rest) == text + Strip(rest)
  {
    if text == [] {
      assert text + rest == rest;
    } else {
      assert (text + rest)[1..] == text[1..] + rest;
      StripPlain(text[1..], rest);
    }
  }

  ghost predicate EscapeFree(pieces: seq<Piece>) {
    forall p :: p in pieces && p.Plain? ==> ESC !in p.text
  }

  /** Colouring only adds escape sequences. */
  lemma {:induction false} ColourOnlyAddsEscapes(pieces: seq<Piece>)
    requires EscapeFree(pieces)
    ensures Strip(Shown(true, pieces)) == Shown(false, pieces)
  {
    if pieces != [] {
      ColourOnlyAddsEscapes(pieces[1..]);
      var rest := Shown(true, pieces[1..]);
      match pieces[0]
      case Plain(text) =>
        StripPlain(text, rest);
      case Sgr(style) =>
        StripCode(style, rest);
    }
  }

  // ----- The line highlighter -----

  /** Unicode's letters and numbers. */
  datatype Alphabet = Alphabet(isAlphabetic: char -> bool, isNumeric: char -> bool)

  const KEYWORDS: set<string> :=
    {"and", "as", "break", "catch", "const", "continue", "do", "elif", "else", "export", "false", "fn", "for", "if",
     "import", "in", "is", "let", "loop", "match", "mod", "mut", "not", "null", "or", "proc", "pub", "return", "throw",
     "true", "try", "use", "var", "while"}

  predicate StartsWord(a: Alphabet, c: char) { a.isAlphabetic(c) || c == '_' }

  predicate InWord(a: Alphabet, c: char) { a.isAlphabetic(c) || a.isNumeric(c) || c == '_' }

  /** The end of a word that goes on at `i`. */
  function WordEnd(a: Alphabet, line: string, i: nat): (e: nat)
    requires i <= |line|
    ensures i <= e <= |line| && (forall j :: i <= j < e ==> InWord(a, line[j])) && (e < |line| ==> !InWord(a, line[e]))
    decreases |line| - i
  {
    if i < |line| && InWord(a, line[i]) then WordEnd(a, line, i + 1) else i
  }

  /** The end of a string that goes on at `i`: behind its quote, or the end of the line. */
  function StringEnd(line: string, i: nat, quote: char): (e: nat)
    requires i <= |line|
    ensures i <= e <= |line| && (e < |line| ==> i < e && line[e - 1] == quote)
    decreases |line| - i
  {
    if i == |line| then i
    else if line[i] == '\\' && i + 1 < |line| then StringEnd(line, i + 2, quote)
    else if line[i] == quote then i + 1
    else StringEnd(line, i + 1, quote)
  }

  function Coloured(style: Style, text: string): seq<Piece> { [Sgr(style), Plain(text), Sgr(Reset)] }

  predicate IsQuote(c: char) { c == '"' || c == '\'' }

  /** Where the comment, string, word or other character at `i` ends. */
  function TokenEnd(a: Alphabet, line: string, i: nat): (e: nat)
    requires i < |line|
    ensures i < e <= |line|
  {
    if line[i] == '#' then |line|
    else if IsQuote(line[i]) then StringEnd(line, i + 1, line[i])
    else if StartsWord(a, line[i]) then WordEnd(a, line, i)
    else i + 1
  }

  /** Comments, strings and keywords are coloured. */
  function Painted(a: Alphabet, token: string): seq<Piece>
    requires token != []
  {
    if token[0] == '#' then Coloured(Dim, token)
    else if IsQuote(token[0]) then Coloured(Green, token)
    else if StartsWord(a, token[0]) && token in KEYWORDS then Coloured(Magenta, token)
    else [Plain(token)]
  }

  /** A line from `i` on. */
  function Tokens(a: Alphabet, line: string, i: nat): seq<Piece>
    requires i <= |line|
    decreases |line| - i
  {
    if i == |line| then []
    else Painted(a, line[i..TokenEnd(a, line, i)]) + Tokens(a, line, TokenEnd(a, line, i))
  }

  lemma ShownOne(color: bool, p: Piece)
    ensures Shown(color, [p]) == ShownPiece(color, p)
  {
  }

  lemma ShownColoured(color: bool, style: Style, text: string)
    ensures Shown(color, Coloured(style, text)) == if color then Code(style) + text + Code(Reset) else text
  {
    hide Code;
    ShownOne(color, Sgr(style));
    ShownOne(color, Plain(text));
    ShownOne(color, Sgr(Reset));
    ShownJoins(color, [Sgr(style)], [Plain(text)]);
    ShownJoins(color, [Sgr(style)] + [Plain(text)], [Sgr(Reset)]);
    assert Coloured(style, text) == [Sgr(style)] + [Plain(text)] + [Sgr(Reset)];
  }

  function PaintedText(a: Alphabet, token: string): string
    requires token != []
  {
    if token[0] == '#' then Code(Dim) + token + Code(Reset)
    else if IsQuote(token[0]) then Code(Green) + token + Code(Reset)
    else if StartsWord(a, token[0]) && token in KEYWORDS then Code(Magenta) + token + Code(Reset)
    else token
  }

  lemma ShownPainted(color: bool, a: Alphabet, token: string)
    requires token != []
    ensures Shown(color, Painted(a, token)) == if color then PaintedText(a, token) else token
  {
    hide Code, KEYWORDS;
    ShownOne(color, Plain(token));
    ShownColoured(color, Dim, token);
    ShownColoured(color, Green, token);
    ShownColoured(color, Magenta, token);
  }

  /** The pieces of a line are the line: every character once, in order. */
  lemma {:induction false} TokensAreTheLine(a: Alphabet, line: string, i: nat)
    requires i <= |line|
    ensures Shown(false, Tokens(a, line, i)) == line[i..]
    decreases |line| - i
  {
    if i < |line| {
      hide Painted, TokenEnd;
      var e := TokenEnd(a, line, i);
      TokensAreTheLine(a, line, e);
      assert line[i..] == line[i..e] + line[e..];
      ShownJoins(false, Painted(a, line[i..e]), Tokens(a, line, e));
      ShownPainted(false, a, line[i..e]);
    }
  }

  lemma {:induction false} TokensAreEscapeFree(a: Alphabet, line: string, i: nat)
    requires i <= |line| && ESC !in line
    ensures EscapeFree(Tokens(a, line, i))
    decreases |line| - i
  {
    if i < |line| {
      TokensAreEscapeFree(a, line, TokenEnd(a, line, i));
    }
  }

  /** Append a string from its opening quote on. */
  method PushString(line: string, start: nat, before: string) returns (output: string, i: nat)
    requires start < |line|
    ensures i == StringEnd(line, start + 1, line[start]) && output == before + line[start..i]
  {
    var quote := line[start];
    output := before + [quote];
    i := start + 1;
    assert output == before + line[start..i];
    while i < |line|
      invariant start < i <= |line| && output == before + line[start..i]
      invariant StringEnd(line, start + 1, quote) == StringEnd(line, i, quote)
    {
      var ch := line[i];
      output := output + [ch];
      assert output == before + line[start..i + 1];
      if ch == '\\' && i + 1 < |line| {
        i := i + 1;
        output := output + [line[i]];
        assert output == before + line[start..i + 1];
      } else if ch == quote {
        i := i + 1;
        break;
      }
      i := i + 1;
    }
  }

  /** Append one comment, string, word or other character. */
  method PushToken(a: Alphabet, line: string, start: nat, before: string) returns (output: string, i: nat)
    requires start < |line|
    ensures i == TokenEnd(a, line, start) && output == before + PaintedText(a, line[start..i])
  {
    hide Code, KEYWORDS;
    var c := line[start];
    output, i := before, start;
    if c == '#' {
      output := output + Code(Dim);
      while i < |line|
        invariant start <= i <= |line| && output == before + Code(Dim) + line[start..i]
      {
        output := output + [line[i]];
        i := i + 1;
      }
      output := output + Code(Reset);
    } else if IsQuote(c) {
      output := output + Code(Green);
      output, i := PushString(line, start, output);
      output := output + Code(Reset);
    } else if StartsWord(a, c) {
      while i < |line| && InWord(a, line[i])
        invariant start <= i <= |line|
        invariant WordEnd(a, line, start) == WordEnd(a, line, i)
      {
        i := i + 1;
      }
      var word := line[start..i];
      if word in KEYWORDS {
        output := output + Code(Magenta) + word + Code(Reset);
      } else {
        output := output + word;
      }
    } else {
      output := output + [c];
      i := i + 1;
      assert line[start..i] == [c];
    }
  }

  /** The highlighter writes the pieces of the line behind what is there. */
  method HighlightXshLine(a: Alphabet, line: string, before: string) returns (output: string)
    ensures output == before + Shown(true, Tokens(a, line, 0))
  {
    hide PaintedText, TokenEnd, Shown;
    output := before;
    var i := 0;
    while i < |line|
      invariant i <= |line|
      invariant before + Shown(true, Tokens(a, line, 0)) == output + Shown(true, Tokens(a, line, i))
    {
      NextToken(a, line, i, output);
      output, i := PushToken(a, line, i, output);
    }
    NoTokens(a, line);
  }

  // ----- Which stretches are coloured -----

  /** How many backslashes stand directly before `j`, from `low` on. */
  ghost function Backslashes(line: string, low: nat, j: nat): nat
    requires low <= j <= |line|
  {
    if low < j && line[j - 1] == '\\' then 1 + Backslashes(line, low, j - 1) else 0
  }

  /** A quote ends a string that goes on at `low` unless the backslashes before it escape it. */
  ghost predicate EndsString(line: string, low: nat, j: nat, quote: char) {
    low <= j < |line| && line[j] == quote && Backslashes(line, low, j) % 2 == 0
  }

  /** A string that goes on at `low` reaches to `e`: behind the first quote that ends it, or to the end of the
      line if none does. */
  ghost predicate StringReaches(line: string, low: nat, e: nat, quote: char) {
    && low <= e <= |line|
    && (forall j: nat :: EndsString(line, low, j, quote) ==> e <= j + 1)
    && (e == |line| || (e > low && EndsString(line, low, e - 1, quote)))
  }

  lemma {:induction false} BackslashesFrom(line: string, low: nat, n: nat, j: nat)
    requires low + n <= j <= |line| && ((n == 1 && line[low] != '\\') || (n == 2 && line[low] == '\\'))
    ensures Backslashes(line, low, j) % 2 == Backslashes(line, low + n, j) % 2
  {
    if j > low + n {
      BackslashesFrom(line, low, n, j - 1);
    } else if n == 2 {
      assert Backslashes(line, low, low + 1) == 1;
    }
  }

  /** A string goes up to the first quote of its kind that is not escaped, or to the end of the line. */
  lemma {:induction false} StringEndsAtItsQuote(line: string, i: nat, quote: char)
    requires i <= |line| && quote != '\\'
    ensures StringReaches(line, i, StringEnd(line, i, quote), quote)
    decreases |line| - i, 1
  {
    if i < |line| && line[i] == '\\' {
      if i + 1 < |line| {
        assert Backslashes(line, i, i + 1) == 1;
        StringEndsLater(line, i, 2, quote);
      }
    } else if i < |line| && line[i] != quote {
      StringEndsLater(line, i, 1, quote);
    }
  }

  lemma {:induction false} StringEndsLater(line: string, i: nat, n: nat, quote: char)
    requires i + n <= |line| && quote != '\\'
    requires (n == 1 && line[i] != '\\' && line[i] != quote) || (n == 2 && line[i] == '\\')
    ensures StringReaches(line, i, StringEnd(line, i + n, quote), quote)
    decreases |line| - i, 0
  {
    var e := StringEnd(line, i + n, quote);
    StringEndsAtItsQuote(line, i + n, quote);
    forall j: nat | i <= j < |line|
      ensures EndsString(line, i, j, quote) <==> i + n <= j && EndsString(line, i + n, j, quote)
    {
      if i + n <= j {
        BackslashesFrom(line, i, n, j);
      } else if n == 2 && j == i + 1 {
        assert Backslashes(line, i, i + 1) == 1;
      }
    }
  }

  /** The coloured line, stretch by stretch: a comment to the end of the line is dim, a string up to the quote
      that ends it green, a whole word magenta exactly if it is a keyword, and nothing else is coloured. */
  lemma StretchesAreColoured(a: Alphabet, line: string, i: nat)
    requires i < |line|
    ensures var e := TokenEnd(a, line, i);
            var rest := Shown(true, Tokens(a, line, e));
            var stretch := line[i..e];
            var shown := Shown(true, Tokens(a, line, i));
            if line[i] == '#' then e == |line| && shown == "\U{1b}[2m" + stretch + "\U{1b}[0m" + rest
            else if line[i] == '"' || line[i] == '\'' then
              && shown == "\U{1b}[32m" + stretch + "\U{1b}[0m" + rest
              && StringReaches(line, i + 1, e, line[i])
            else if a.isAlphabetic(line[i]) || line[i] == '_' then
              && (forall j :: i <= j < e ==> a.isAlphabetic(line[j]) || a.isNumeric(line[j]) || line[j] == '_')
              && (e < |line| ==> !a.isAlphabetic(line[e]) && !a.isNumeric(line[e]) && line[e] != '_')
              && shown == (if stretch in KEYWORDS then "\U{1b}[35m" + stretch + "\U{1b}[0m" else stretch) + rest
            else e == i + 1 && shown == stretch + rest
  {
    hide Tokens, Shown, KEYWORDS;
    NextToken(a, line, i, "");
    var e := TokenEnd(a, line, i);
    assert "" + Shown(true, Tokens(a, line, i)) == Shown(true, Tokens(a, line, i));
    assert "" + PaintedText(a, line[i..e]) == PaintedText(a, line[i..e]);
    if IsQuote(line[i]) {
      StringEndsAtItsQuote(line, i + 1, line[i]);
    }
  }

  lemma NoTokens(a: Alphabet, line: string)
    ensures Shown(true, Tokens(a, line, |line|)) == ""
  {
  }

  /** What is written for the token at `i`. */
  lemma NextToken(a: Alphabet, line: string, i: nat, before: string)
    requires i < |line|
    ensures var e := TokenEnd(a, line, i);
            before + Shown(true, Tokens(a, line, i))
            == before + PaintedText(a, line[i..e]) + Shown(true, Tokens(a, line, e))
  {
    hide PaintedText, TokenEnd;
    var e := TokenEnd(a, line, i);
    ShownJoins(true, Painted(a, line[i..e]), Tokens(a, line, e));
    ShownPainted(true, a, line[i..e]);
  }
}
