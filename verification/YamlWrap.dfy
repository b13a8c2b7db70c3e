/** Wrapping template expressions in YAML text into quoted strings, and unwrapping them again. */
module YamlWrap {
  import opened Wrappers
  import opened Strings
  import opened Quoting
  import opened YamlLines

  function Marker(): string { "__WRAPPED_TEMPLATE__" }

  // ----- searching and trimming

  function IndexOf(s: string, sub: string): (r: Option<nat>)
    ensures r.Some? ==> r.value + |sub| <= |s| && s[r.value..r.value + |sub|] == sub
  {
    if sub <= s then Some(0)
    else if s == "" then None
    else
      match IndexOf(s[1..], sub)
      case Some(i) =>
        assert s[i + 1..i + 1 + |sub|] == s[1..][i..i + |sub|];
        Some(i + 1)
      case None => None
  }

  predicate Contains(s: string, sub: string) { IndexOf(s, sub).Some? }

  lemma {:induction false} ContainsMiddle(a: string, sub: string, b: string)
    ensures Contains(a + sub + b, sub)
  {
    var s := a + sub + b;
    if a == "" {
      assert sub <= s;
    } else {
      assert s[1..] == a[1..] + sub + b;
      ContainsMiddle(a[1..], sub, b);
    }
  }

  lemma ContainsInside(a: string, s: string, b: string, sub: string)
    requires Contains(s, sub)
    ensures Contains(a + s + b, sub)
  {
    var i := IndexOf(s, sub).value;
    assert s == s[..i] + sub + s[i + |sub|..];
    assert a + s + b == (a + s[..i]) + sub + (s[i + |sub|..] + b);
    ContainsMiddle(a + s[..i], sub, s[i + |sub|..] + b);
  }

  function RemoveFirst(s: string, sub: string): string {
    match IndexOf(s, sub)
    case Some(i) => s[..i] + s[i + |sub|..]
    case None => s
  }

  predicate IsQuoted(s: string) {
    var t := Trim(s);
    t != "" && ((t[0] == '"' && t[|t| - 1] == '"') || (t[0] == '\'' && t[|t| - 1] == '\''))
  }

  /** Two opening braces, something without a closing brace, and two closing braces. */
  predicate HasTemplate(s: string) {
    exists i, j :: 0 <= i < |s| && i + 3 <= j < |s| - 1 && TemplateAt(s, i, j)
  }

  predicate TemplateAt(s: string, i: int, j: int)
    requires 0 <= i < |s| && i + 3 <= j < |s| - 1
  {
    s[i] == '{' && s[i + 1] == '{' && s[j] == '}' && s[j + 1] == '}' && forall k :: i + 2 <= k < j ==> s[k] != '}'
  }

  // ----- one line

  /** A value and the comment after it; the comment starts at the first hash. */
  datatype Value = Value(before: string, comment: string)

  lemma Prepend(s: string, a: string, b: string)
    requires s != "" && a + b == s[1..]
    ensures [s[0]] + a + b == s
  {
    assert [s[0]] + a + b == [s[0]] + (a + b);
  }

  function SplitComment(value: string): (v: Value)
    ensures v.before + v.comment == value && '#' !in v.before
    ensures v.comment != "" ==> v.comment[0] == '#'
  {
    if value == "" then Value("", "")
    else if value[0] == '#' then Value("", value)
    else
      var v := SplitComment(value[1..]);
      Prepend(value, v.before, v.comment);
      Value([value[0]] + v.before, v.comment)
  }

  /** A comment is set off by one space. */
  function Tail(comment: string): string {
    if comment == "" then "" else " " + comment
  }

  function PrefixOf(line: string): string
    requires MatchPrefix(line).Some?
  {
    line[..MatchPrefix(line).value]
  }

  function ValueOf(line: string): Value
    requires MatchPrefix(line).Some?
  {
    SplitComment(line[MatchPrefix(line).value..])
  }

  function ContentOf(line: string): string
    requires MatchPrefix(line).Some?
  {
    Trim(ValueOf(line).before)
  }

  /** The line holds an unquoted template that is not wrapped yet. */
  predicate Wraps(line: string) {
    && !Contains(line, Marker())
    && MatchPrefix(line).Some?
    && ContentOf(line) != "" && HasTemplate(ContentOf(line)) && !IsQuoted(ContentOf(line))
  }

  function Literal(content: string, comment: string, graphic: char -> bool): string {
    Quote(Marker() + content, graphic) + Tail(comment)
  }

  function WrapLine(line: string, graphic: char -> bool): string {
    if Wraps(line) then PrefixOf(line) + Literal(ContentOf(line), ValueOf(line).comment, graphic) else line
  }

  /** The text without its quotes; None when a lone quote character would have to be cut at both ends. */
  function StripQuotes(content: string): Option<string> {
    if !IsQuoted(content) then Some(content)
    else
      match Unquote(content)
      case Some(text) => Some(text)
      case None => if |content| < 2 then None else Some(content[1..|content| - 1])
  }

  /** The unwrapped line; None when unwrapping aborts. */
  function UnwrapLine(line: string): Option<string> {
    if !Contains(line, Marker()) || MatchPrefix(line).None? then Some(line)
    else
      var v := SplitComment(RemoveFirst(line[MatchPrefix(line).value..], Marker()));
      match StripQuotes(Trim(v.before))
      case Some(text) => Some(PrefixOf(line) + text + Tail(v.comment))
      case None => None
  }

  predicate LoneQuote(content: string) { content == "\"" || content == "'" }

  /** The marked value is nothing but one quote character. */
  predicate Aborts(line: string) {
    && Contains(line, Marker())
    && MatchPrefix(line).Some?
    && LoneQuote(Trim(SplitComment(RemoveFirst(line[MatchPrefix(line).value..], Marker())).before))
  }

  lemma OnlyLoneQuotesAbort(content: string)
    ensures StripQuotes(content).None? <==> LoneQuote(content)
  {
    hide UnquoteBody, UnquoteSingle;
    if |content| == 1 {
      var c := content[0];
      assert content[1..] == "" && TrimLeft("") == "" && TrimRight("") == "";
      assert Trim(content) == if IsSpace(c) then "" else content;
      assert LoneQuote(content) <==> c == '"' || c == '\'';
    } else {
      assert StripQuotes(content).Some?;
    }
  }

  /** Unwrapping a line aborts exactly when its value is a lone quote once the marker is gone. */
  lemma UnwrapLineAborts(line: string)
    ensures UnwrapLine(line).None? <==> Aborts(line)
  {
    hide Contains, Marker, MatchPrefix, SplitComment, RemoveFirst, StripQuotes, Trim, PrefixOf, Tail, LoneQuote;
    if Contains(line, Marker()) && MatchPrefix(line).Some? {
      OnlyLoneQuotesAbort(Trim(SplitComment(RemoveFirst(line[MatchPrefix(line).value..], Marker())).before));
    }
  }

  // ----- the text

  function WrapLines(lines: seq<string>, graphic: char -> bool): (r: seq<string>)
    ensures |r| == |lines| && forall i :: 0 <= i < |lines| ==> r[i] == WrapLine(lines[i], graphic)
  {
    seq(|lines|, i requires 0 <= i < |lines| => WrapLine(lines[i], graphic))
  }

  function WrappedText(text: string, graphic: char -> bool): string {
    Join(WrapLines(Split(text, '\n'), graphic), '\n')
  }

  /** Every line unwraps to the line at its position. */
  ghost predicate UnwrapsTo(lines: seq<string>, result: seq<string>) {
    |result| == |lines| && forall i :: 0 <= i < |lines| ==> UnwrapLine(lines[i]) == Some(result[i])
  }

  lemma WrapLineIs(line: string, graphic: char -> bool)
    ensures Contains(line, Marker()) || MatchPrefix(line).None? ==> WrapLine(line, graphic) == line
    ensures !Contains(line, Marker()) && MatchPrefix(line).Some? ==>
      var content := ContentOf(line);
      WrapLine(line, graphic) ==
        if content != "" && HasTemplate(content) && !IsQuoted(content)
        then PrefixOf(line) + Literal(content, ValueOf(line).comment, graphic)
        else line
  {
    hide Contains, Marker, MatchPrefix, ContentOf, HasTemplate, IsQuoted, PrefixOf, ValueOf, Literal;
  }

  lemma WrappedTextIs(text: string, lines: seq<string>, graphic: char -> bool)
    requires |lines| == |Split(text, '\n')|
    requires forall k :: 0 <= k < |lines| ==> lines[k] == WrapLine(Split(text, '\n')[k], graphic)
    ensures Join(lines, '\n') == WrappedText(text, graphic)
  {
    hide WrapLine, Split, Join;
    assert lines == WrapLines(Split(text, '\n'), graphic);
  }

  /** Wraps line by line; None when validation is asked for and finds that the result is no YAML. */
  method WrapYAML(text: string, graphic: char -> bool, validateResult: bool, isYaml: string -> bool) returns (result: Option<string>)
    ensures result == if validateResult && !isYaml(WrappedText(text, graphic)) then None else Some(WrappedText(text, graphic))
  {
    hide *;
    var original := Split(text, '\n');
    var lines := original;
    for i := 0 to |lines|
      invariant |lines| == |original|
      invariant forall k :: 0 <= k < i ==> lines[k] == WrapLine(original[k], graphic)
      invariant forall k :: i <= k < |lines| ==> lines[k] == original[k]
    {
      var line := lines[i];
      WrapLineIs(line, graphic);
      if Contains(line, Marker()) {
        continue;
      }
      if MatchPrefix(line).None? {
        continue;
      }
      var content, comment := ContentOf(line), ValueOf(line).comment;
      if content != "" && HasTemplate(content) && !IsQuoted(content) {
        lines := lines[i := PrefixOf(line) + Literal(content, comment, graphic)];
      }
    }
    WrappedTextIs(text, lines, graphic);
    var wrapped := Join(lines, '\n');
    if validateResult {
      if !isYaml(wrapped) {
        return None;
      }
    }
    result := Some(wrapped);
  }

  lemma UnwrapLineIs(line: string)
    ensures !Contains(line, Marker()) || MatchPrefix(line).None? ==> UnwrapLine(line) == Some(line)
    ensures Contains(line, Marker()) && MatchPrefix(line).Some? ==>
      var v := SplitComment(RemoveFirst(line[MatchPrefix(line).value..], Marker()));
      UnwrapLine(line) ==
        match StripQuotes(Trim(v.before))
        case Some(text) => Some(PrefixOf(line) + text + Tail(v.comment))
        case None => None
  {
    hide Contains, Marker, MatchPrefix, SplitComment, RemoveFirst, StripQuotes, Trim, PrefixOf, Tail;
  }

  lemma UnwrapsToIs(lines: seq<string>, result: seq<string>)
    requires |result| == |lines| && forall i :: 0 <= i < |lines| ==> UnwrapLine(lines[i]) == Some(result[i])
    ensures UnwrapsTo(lines, result)
  {
  }

  /** Unwraps line by line; None exactly when some line makes it abort. */
  method UnwrapYAML(text: string) returns (result: Option<string>)
    ensures result.Some? ==> exists lines :: UnwrapsTo(Split(text, '\n'), lines) && result.value == Join(lines, '\n')
    ensures result.None? <==> exists line :: line in Split(text, '\n') && Aborts(line)
  {
    hide *;
    var original := Split(text, '\n');
    var lines := original;
    for i := 0 to |lines|
      invariant |lines| == |original|
      invariant forall k :: 0 <= k < i ==> UnwrapLine(original[k]) == Some(lines[k])
      invariant forall k :: i <= k < |lines| ==> lines[k] == original[k]
    {
      var line := lines[i];
      UnwrapLineIs(line);
      if !Contains(line, Marker()) {
        continue;
      }
      if MatchPrefix(line).None? {
        continue;
      }
      var v := SplitComment(RemoveFirst(line[MatchPrefix(line).value..], Marker()));
      var content := StripQuotes(Trim(v.before));
      if content.None? {
        UnwrapLineAborts(line);
        assert line in original;
        return None;
      }
      lines := lines[i := PrefixOf(line) + content.value + Tail(v.comment)];
    }
    UnwrapsToIs(original, lines);
    forall line | line in original ensures !Aborts(line) {
      var k :| 0 <= k < |original| && original[k] == line;
      UnwrapLineAborts(line);
    }
    result := Some(Join(lines, '\n'));
  }

  // ----- wrapping twice

  lemma {:induction false} EscapeConcat(a: string, b: string, graphic: char -> bool)
    ensures Escape(a + b, graphic) == Escape(a, graphic) + Escape(b, graphic)
  {
    if a == "" {
      assert a + b == b;
    } else {
      assert (a + b)[1..] == a[1..] + b;
      EscapeConcat(a[1..], b, graphic);
    }
  }

  predicate Plain(s: string) {
    forall i :: 0 <= i < |s| ==> 0x20 <= s[i] as int < 0x7f && s[i] != '"' && s[i] != '\\'
  }

  lemma {:induction false} PlainIsNotEscaped(s: string, graphic: char -> bool)
    requires Plain(s)
    ensures Escape(s, graphic) == s
  {
    if s != "" {
      assert s == [s[0]] + s[1..];
      PlainIsNotEscaped(s[1..], graphic);
    }
  }

  lemma LiteralIs(content: string, comment: string, graphic: char -> bool)
    ensures Literal(content, comment, graphic) == "\"" + Marker() + (Escape(content, graphic) + "\"" + Tail(comment))
  {
    MarkerIsPlain();
    hide Escape, Marker, Tail, Plain;
    EscapeConcat(Marker(), content, graphic);
    PlainIsNotEscaped(Marker(), graphic);
  }

  lemma MarkerIsPlain()
    ensures Plain(Marker()) && AllKey("\"" + Marker()) && Marker() != "" && Marker()[0] == '_'
  {
  }

  lemma WrapsMeans(line: string, graphic: char -> bool)
    requires Wraps(line)
    ensures !Contains(line, Marker()) && MatchPrefix(line).Some? && ContentOf(line) != ""
    ensures '#' !in ContentOf(line) && (ValueOf(line).comment != "" ==> ValueOf(line).comment[0] == '#')
    ensures WrapLine(line, graphic) == PrefixOf(line) + Literal(ContentOf(line), ValueOf(line).comment, graphic)
    ensures line == PrefixOf(line) + ValueOf(line).before + ValueOf(line).comment
    ensures PrefixOf(line) == line[..MatchPrefix(line).value]
  {
    hide Contains, Marker, MatchPrefix, HasTemplate, IsQuoted, Literal, Trim, SplitComment;
  }

  lemma WrappedHasMarker(line: string, graphic: char -> bool)
    requires Wraps(line)
    ensures Contains(WrapLine(line, graphic), Marker())
  {
    hide *;
    WrapsMeans(line, graphic);
    var content, comment := ContentOf(line), ValueOf(line).comment;
    var rest := Escape(content, graphic) + "\"" + Tail(comment);
    LiteralIs(content, comment, graphic);
    assert WrapLine(line, graphic) == (PrefixOf(line) + "\"") + Marker() + rest;
    ContainsMiddle(PrefixOf(line) + "\"", Marker(), rest);
  }

  lemma WrapLineTwice(line: string, graphic: char -> bool)
    ensures WrapLine(WrapLine(line, graphic), graphic) == WrapLine(line, graphic)
  {
    hide *;
    if Wraps(line) {
      WrappedHasMarker(line, graphic);
      WrapLineIs(WrapLine(line, graphic), graphic);
    } else {
      UnwrappedStays(line, graphic);
    }
  }

  lemma UnwrappedStays(line: string, graphic: char -> bool)
    requires !Wraps(line)
    ensures WrapLine(line, graphic) == line
  {
    hide Wraps;
  }

  // ----- unwrapping what was wrapped

  /** A colon with no space before it: quoted, such content would be read as a key. */
  predicate ColonFirst(s: string) {
    s != "" && (s[0] == ':' || (s[0] != ' ' && ColonFirst(s[1..])))
  }

  /** The run of key characters at the start of the text ends at a colon. */
  predicate ColonStops(s: string) {
    KeyChars(s) < |s| && s[KeyChars(s)] == ':'
  }

  lemma {:induction false} KeyCharsAppend(a: string, b: string)
    requires AllKey(a)
    ensures KeyChars(a + b) == |a| + KeyChars(b)
  {
    if a == "" {
      assert a + b == b;
    } else {
      assert (a + b)[1..] == a[1..] + b;
      KeyCharsAppend(a[1..], b);
    }
  }

  lemma {:induction false} HexDigitsAreKey(n: nat, width: nat)
    ensures AllKey(HexDigits(n, width))
  {
    if width > 0 {
      HexDigitsAreKey(n / 16, width - 1);
    }
  }

  lemma EscapedIsKey(c: char, graphic: char -> bool)
    requires c != ':' && c != ' '
    ensures AllKey(EscapeChar(c, graphic))
  {
    hide HexDigits;
    HexDigitsAreKey(c as int, 2);
    HexDigitsAreKey(c as int, 4);
    HexDigitsAreKey(c as int, 8);
  }

  lemma ColonStopsAfterKey(a: string, b: string)
    requires AllKey(a)
    ensures ColonStops(a + b) <==> ColonStops(b)
  {
    KeyCharsAppend(a, b);
    if KeyChars(b) < |b| {
      assert (a + b)[|a| + KeyChars(b)] == b[KeyChars(b)];
    }
  }

  lemma {:induction false} ColonStopsInEscape(s: string, rest: string, graphic: char -> bool)
    requires !ColonStops(rest)
    ensures ColonStops(Escape(s, graphic) + rest) <==> ColonFirst(s)
  {
    if s == "" {
      assert Escape(s, graphic) + rest == rest;
    } else {
      var e, tail := EscapeChar(s[0], graphic), Escape(s[1..], graphic) + rest;
      assert Escape(s, graphic) + rest == e + tail;
      ColonStopsInEscape(s[1..], rest, graphic);
      if s[0] == ':' || s[0] == ' ' {
        assert e == [s[0]] && (e + tail)[0] == s[0];
        KeyCharsAre(e + tail, 0);
      } else {
        EscapedIsKey(s[0], graphic);
        ColonStopsAfterKey(e, tail);
      }
    }
  }

  lemma LiteralIsKeyIfColonFirst(content: string, comment: string, graphic: char -> bool)
    ensures MatchKey(Literal(content, comment, graphic)).Some? <==> ColonFirst(content)
    ensures MatchKey(Literal(content, comment, graphic)).Some? ==>
      MatchKey(Literal(content, comment, graphic)).value > 1 + |Marker()|
  {
    MarkerIsPlain();
    EndIsKey(comment);
    hide Escape, Marker, Tail, Plain, ColonFirst, KeyChars, ColonStops, Literal, AllKey, IsKeyChar;
    var head, end := "\"" + Marker(), "\"" + Tail(comment);
    var literal := Literal(content, comment, graphic);
    LiteralIs(content, comment, graphic);
    assert literal == head + (Escape(content, graphic) + end);
    ColonStopsInEscape(content, end, graphic);
    ColonStopsAfterKey(head, Escape(content, graphic) + end);
    KeyCharsAppend(head, Escape(content, graphic) + end);
    MatchKeyIs(literal);
  }

  lemma MatchKeyIs(s: string)
    ensures MatchKey(s).Some? <==> KeyChars(s) > 0 && ColonStops(s)
    ensures MatchKey(s).Some? ==> MatchKey(s).value > KeyChars(s)
  {
    hide KeyChars;
  }

  lemma EndIsKey(comment: string)
    ensures !ColonStops("\"" + Tail(comment))
  {
    var end := "\"" + Tail(comment);
    assert end[..1] == "\"";
    KeyCharsAre(end, 1);
  }

  /** The quoted content would be taken for a key of the list item. */
  predicate Hijacked(line: string) {
    MatchPrefix(line).Some? && BareItem(line) && ColonFirst(ContentOf(line))
  }

  lemma HijackedIs(line: string)
    ensures Hijacked(line) <==> MatchPrefix(line).Some? && BareItem(line) && ColonFirst(ContentOf(line))
  {
    hide MatchPrefix, BareItem, ColonFirst, ContentOf;
  }

  lemma LiteralStarts(content: string, comment: string, graphic: char -> bool)
    ensures var l := Literal(content, comment, graphic); l != "" && l[0] == '"' && !IsBlank(l[0])
  {
    hide Escape, Marker;
  }

  lemma WrappedPrefix(line: string, graphic: char -> bool)
    requires Wraps(line)
    ensures var wrapped, n := WrapLine(line, graphic), MatchPrefix(line).value;
            && (!Hijacked(line) ==> MatchPrefix(wrapped) == Some(n))
            && (Hijacked(line) ==> MatchPrefix(wrapped).Some? && MatchPrefix(wrapped).value > n + 1 + |Marker()|)
  {
    hide *;
    WrapsMeans(line, graphic);
    var content, comment := ContentOf(line), ValueOf(line).comment;
    LiteralStarts(content, comment, graphic);
    HijackedIs(line);
    LiteralIsKeyIfColonFirst(content, comment, graphic);
    PrefixStays(line, Literal(content, comment, graphic));
  }

  lemma MarkerRemoved(rest: string)
    ensures RemoveFirst("\"" + Marker() + rest, Marker()) == "\"" + rest
  {
    MarkerIsPlain();
    hide Marker, Plain, AllKey;
    var s := "\"" + Marker() + rest;
    assert s[0] != Marker()[0];
    assert s[1..] == Marker() + rest;
    assert IndexOf(s[1..], Marker()) == Some(0);
    assert s[1 + |Marker()|..] == rest;
  }

  lemma {:induction false} DigitsLack(n: nat, width: nat, x: char)
    requires x in {'#', '\n'}
    ensures x !in HexDigits(n, width)
  {
    if width > 0 {
      DigitsLack(n / 16, width - 1, x);
    }
  }

  lemma CharLacks(c: char, x: char, graphic: char -> bool)
    requires x == '\n' || (x == '#' && c != '#')
    ensures x !in EscapeChar(c, graphic)
  {
    DigitsLack(c as int, 2, x);
    DigitsLack(c as int, 4, x);
    DigitsLack(c as int, 8, x);
    hide HexDigits;
  }

  /** Escaping writes no line break, and no hash unless there was one. */
  lemma {:induction false} EscapeLacks(s: string, x: char, graphic: char -> bool)
    requires x == '\n' || (x == '#' && '#' !in s)
    ensures x !in Escape(s, graphic)
  {
    hide EscapeChar;
    if s != "" {
      assert s == [s[0]] + s[1..];
      CharLacks(s[0], x, graphic);
      EscapeLacks(s[1..], x, graphic);
    }
  }

  lemma {:induction false} SplitCommentIs(before: string, comment: string)
    requires '#' !in before && (comment != "" ==> comment[0] == '#')
    ensures SplitComment(before + comment) == Value(before, comment)
  {
    if before == "" {
      assert before + comment == comment;
    } else {
      assert (before + comment)[1..] == before[1..] + comment;
      SplitCommentIs(before[1..], comment);
      assert before == [before[0]] + before[1..];
    }
  }

  lemma TrimOfQuoted(q: string)
    requires |q| >= 2 && q[0] == '"' && q[|q| - 1] == '"'
    ensures Trim(q) == q && Trim(q + " ") == q
  {
    var r := q + " ";
    assert TrimLeft(q) == q && TrimLeft(r) == r;
    assert TrimRight(q) == q;
    assert r[|r| - 1] == ' ' && r[..|r| - 1] == q;
    assert TrimRight(r) == TrimRight(q);
  }

  /** Unless it is hijacked, a wrapped line unwraps to its prefix, its trimmed content and its comment. */
  lemma UnwrapOfWrapped(line: string, graphic: char -> bool)
    requires Wraps(line) && !Hijacked(line)
    ensures UnwrapLine(WrapLine(line, graphic)) == Some(PrefixOf(line) + ContentOf(line) + Tail(ValueOf(line).comment))
  {
    hide *;
    WrapsMeans(line, graphic);
    var content, comment := ContentOf(line), ValueOf(line).comment;
    var wrapped, n := WrapLine(line, graphic), MatchPrefix(line).value;
    var rest := Escape(content, graphic) + "\"" + Tail(comment);
    WrappedHasMarker(line, graphic);
    WrappedPrefix(line, graphic);
    LiteralIs(content, comment, graphic);
    UnwrapLineIs(wrapped);
    QuoteIs(content, graphic);
    PrefixIs(wrapped);
    assert wrapped[n..] == "\"" + Marker() + rest && wrapped[..n] == PrefixOf(line);
    MarkerRemoved(rest);
    LiteralStripped(content, comment, graphic);
    assert "\"" + rest == Quote(content, graphic) + Tail(comment);
  }

  lemma QuoteIs(s: string, graphic: char -> bool)
    ensures Quote(s, graphic) == "\"" + Escape(s, graphic) + "\""
  {
    hide Escape;
  }

  lemma PrefixIs(line: string)
    requires MatchPrefix(line).Some?
    ensures PrefixOf(line) == line[..MatchPrefix(line).value]
  {
    hide MatchPrefix;
  }

  lemma TailIs(comment: string)
    ensures Tail(comment) == if comment == "" then "" else " " + comment
  {
  }

  lemma StripIs(q: string, content: string)
    requires |q| >= 2 && q[0] == '"' && q[|q| - 1] == '"' && Unquote(q) == Some(content)
    ensures StripQuotes(q) == Some(content)
  {
    hide Unquote;
    TrimOfQuoted(q);
  }

  lemma LiteralStripped(content: string, comment: string, graphic: char -> bool)
    requires '#' !in content && (comment != "" ==> comment[0] == '#')
    ensures var v := SplitComment(Quote(content, graphic) + Tail(comment));
            v.comment == comment && StripQuotes(Trim(v.before)) == Some(content)
  {
    hide *;
    var q := Quote(content, graphic);
    QuoteIs(content, graphic);
    EscapeLacks(content, '#', graphic);
    TrimOfQuoted(q);
    UnquoteOfQuote(content, graphic);
    StripIs(q, content);
    TailIs(comment);
    if comment == "" {
      assert q + Tail(comment) == q + "";
      SplitCommentIs(q, "");
    } else {
      assert q + Tail(comment) == (q + " ") + comment;
      SplitCommentIs(q + " ", comment);
    }
  }

  lemma HijackedIsLost(line: string, graphic: char -> bool)
    requires Wraps(line) && Hijacked(line)
    ensures UnwrapLine(WrapLine(line, graphic)).Some? ==> Contains(UnwrapLine(WrapLine(line, graphic)).value, Marker())
  {
    hide *;
    WrapsMeans(line, graphic);
    var content, comment := ContentOf(line), ValueOf(line).comment;
    var wrapped, n := WrapLine(line, graphic), MatchPrefix(line).value;
    UnwrapLineIs(wrapped);
    WrappedHasMarker(line, graphic);
    WrappedPrefix(line, graphic);
    PrefixIs(wrapped);
    LiteralIs(content, comment, graphic);
    var m := MatchPrefix(wrapped).value;
    var head := wrapped[..n] + "\"";
    assert wrapped[..m] == head + Marker() + wrapped[n + 1 + |Marker()|..m];
    if UnwrapLine(wrapped).Some? {
      var result := UnwrapLine(wrapped).value;
      assert wrapped[..m] <= result;
      assert result == head + Marker() + (wrapped[n + 1 + |Marker()|..m] + result[m..]);
      ContainsMiddle(head, Marker(), wrapped[n + 1 + |Marker()|..m] + result[m..]);
    }
  }

  /** The value is exactly its content, and one space before a comment. */
  predicate Tidy(line: string)
    requires MatchPrefix(line).Some?
  {
    ValueOf(line).before == ContentOf(line) + if ValueOf(line).comment == "" then "" else " "
  }

  predicate Restorable(line: string) {
    Wraps(line) ==> !Hijacked(line) && Tidy(line)
  }

  /** A line without a marker survives wrapping and unwrapping exactly when it is restorable. */
  lemma LineRoundTrip(line: string, graphic: char -> bool)
    requires !Contains(line, Marker())
    ensures UnwrapLine(WrapLine(line, graphic)) == Some(line) <==> Restorable(line)
  {
    hide *;
    RestorableIs(line);
    if Wraps(line) {
      WrapsMeans(line, graphic);
      if Hijacked(line) {
        HijackedIsLost(line, graphic);
      } else {
        UnwrapOfWrapped(line, graphic);
        TailIs(ValueOf(line).comment);
        TidyIs(line);
        var p, v, content := PrefixOf(line), ValueOf(line), ContentOf(line);
        assert line == p + v.before + v.comment;
        var space := if v.comment == "" then "" else " ";
        assert p + content + Tail(v.comment) == p + (content + space) + v.comment;
        Cancel(p, v.before, content + space, v.comment);
      }
    } else {
      UnwrappedStays(line, graphic);
      UnwrapLineIs(line);
    }
  }

  lemma RestorableIs(line: string)
    ensures !Wraps(line) ==> Restorable(line)
    ensures Wraps(line) ==> MatchPrefix(line).Some? && (Restorable(line) <==> !Hijacked(line) && Tidy(line))
  {
    hide Hijacked, Tidy, MatchPrefix, Contains, Marker, ContentOf, HasTemplate, IsQuoted;
  }

  lemma TidyIs(line: string)
    requires MatchPrefix(line).Some?
    ensures Tidy(line) <==> ValueOf(line).before == ContentOf(line) + if ValueOf(line).comment == "" then "" else " "
  {
    hide ValueOf, ContentOf, MatchPrefix;
  }

  lemma Cancel(a: string, x: string, y: string, b: string)
    ensures a + x + b == a + y + b <==> x == y
  {
    var l, r := a + x + b, a + y + b;
    if l == r {
      assert |x| == |y|;
      assert x == l[|a|..|a| + |x|] == r[|a|..|a| + |y|] == y;
    }
  }

  // ----- the whole text

  lemma {:induction false} JoinHas(lines: seq<string>, sep: char, i: nat, sub: string)
    requires i < |lines| && Contains(lines[i], sub)
    ensures Contains(Join(lines, sep), sub)
  {
    var all := Join(lines, sep);
    if |lines| == 1 {
      return;
    }
    var rest := Join(lines[1..], sep);
    if i == 0 {
      assert all == "" + lines[0] + ([sep] + rest);
      ContainsInside("", lines[0], [sep] + rest, sub);
    } else {
      JoinHas(lines[1..], sep, i - 1, sub);
      assert all == (lines[0] + [sep]) + rest + "";
      ContainsInside(lines[0] + [sep], rest, "", sub);
    }
  }

  /** The result of unwrapping the wrapped text. */
  ghost predicate RoundTrips(text: string, graphic: char -> bool) {
    exists lines :: UnwrapsTo(Split(WrappedText(text, graphic), '\n'), lines) && Join(lines, '\n') == text
  }

  lemma WrappedLinesAre(text: string, graphic: char -> bool)
    ensures Split(WrappedText(text, graphic), '\n') == WrapLines(Split(text, '\n'), graphic)
  {
    var lines := Split(text, '\n');
    var wrapped := WrapLines(lines, graphic);
    forall w | w in wrapped ensures '\n' !in w {
      var i :| 0 <= i < |lines| && wrapped[i] == w;
      assert lines[i] in lines;
      NoNewline(lines[i], graphic);
    }
    SplitOfJoin(wrapped, '\n');
  }

  lemma NoNewline(line: string, graphic: char -> bool)
    requires '\n' !in line
    ensures '\n' !in WrapLine(line, graphic)
  {
    hide *;
    if Wraps(line) {
      WrapsMeans(line, graphic);
      var content, comment := ContentOf(line), ValueOf(line).comment;
      PartsWithin(line);
      LiteralIs(content, comment, graphic);
      EscapeLacks(content, '\n', graphic);
      NoNewlineInMarker();
      TailIs(comment);
    } else {
      UnwrappedStays(line, graphic);
    }
  }

  lemma NoNewlineInMarker()
    ensures '\n' !in Marker()
  {
  }

  lemma PartsWithin(line: string)
    requires MatchPrefix(line).Some? && '\n' !in line
    ensures '\n' !in PrefixOf(line) && '\n' !in ContentOf(line) && '\n' !in ValueOf(line).comment
  {
    hide MatchPrefix, Trim, SplitComment;
    var v := ValueOf(line);
    assert line == PrefixOf(line) + v.before + v.comment;
  }

  /** Marker-free text survives wrapping and unwrapping exactly when all its lines are restorable. */
  lemma RoundTrip(text: string, graphic: char -> bool)
    requires !Contains(text, Marker())
    ensures RoundTrips(text, graphic) <==> forall line :: line in Split(text, '\n') ==> Restorable(line)
  {
    hide *;
    var lines := Split(text, '\n');
    var wrapped := WrapLines(lines, graphic);
    WrappedLinesAre(text, graphic);
    JoinOfSplit(text, '\n');
    forall i | 0 <= i < |lines|
      ensures !Contains(lines[i], Marker()) && (UnwrapLine(wrapped[i]) == Some(lines[i]) <==> Restorable(lines[i]))
    {
      if Contains(lines[i], Marker()) {
        JoinHas(lines, '\n', i, Marker());
      }
      LineRoundTrip(lines[i], graphic);
    }
    if forall line :: line in lines ==> Restorable(line) {
      UnwrapsToIs(wrapped, lines);
      RoundTripsIs(text, graphic, lines);
    }
    if RoundTrips(text, graphic) {
      var result := RoundTripsBy(text, graphic);
      SameLines(text, graphic, result);
    }
  }

  lemma RoundTripsIs(text: string, graphic: char -> bool, lines: seq<string>)
    requires UnwrapsTo(Split(WrappedText(text, graphic), '\n'), lines) && Join(lines, '\n') == text
    ensures RoundTrips(text, graphic)
  {
  }

  lemma RoundTripsBy(text: string, graphic: char -> bool) returns (lines: seq<string>)
    requires RoundTrips(text, graphic)
    ensures UnwrapsTo(Split(WrappedText(text, graphic), '\n'), lines) && Join(lines, '\n') == text
    ensures |lines| == |Split(WrappedText(text, graphic), '\n')| && |lines| >= 1
    ensures forall i :: 0 <= i < |lines| ==> UnwrapLine(Split(WrappedText(text, graphic), '\n')[i]) == Some(lines[i])
  {
    hide UnwrapLine, Split, WrappedText, Join;
    lines :| UnwrapsTo(Split(WrappedText(text, graphic), '\n'), lines) && Join(lines, '\n') == text;
  }

  /** Lines that unwrap to the text have no line breaks, so they are the lines of the text. */
  lemma SameLines(text: string, graphic: char -> bool, result: seq<string>)
    requires |result| == |Split(text, '\n')|
    requires !Contains(text, Marker()) && Join(result, '\n') == text
    requires forall i :: 0 <= i < |result| ==> UnwrapLine(WrapLine(Split(text, '\n')[i], graphic)) == Some(result[i])
    ensures result == Split(text, '\n')
  {
    hide *;
    var lines := Split(text, '\n');
    forall r | r in result ensures '\n' !in r {
      var i :| 0 <= i < |result| && result[i] == r;
      var line := lines[i];
      assert line in lines;
      if Wraps(line) && Hijacked(line) {
        HijackedIsLost(line, graphic);
        JoinHas(result, '\n', i, Marker());
      } else if Wraps(line) {
        WrapsMeans(line, graphic);
        UnwrapOfWrapped(line, graphic);
        PartsWithin(line);
        TailIs(ValueOf(line).comment);
      } else {
        JoinOfSplit(text, '\n');
        if Contains(line, Marker()) {
          JoinHas(lines, '\n', i, Marker());
        }
        UnwrappedStays(line, graphic);
        UnwrapLineIs(line);
      }
    }
    SplitOfJoin(result, '\n');
  }

  /** Wrapping wrapped text changes nothing. */
  lemma WrapTwice(text: string, graphic: char -> bool)
    ensures WrappedText(WrappedText(text, graphic), graphic) == WrappedText(text, graphic)
  {
    hide WrapLine, Split;
    var lines := Split(text, '\n');
    var once := WrapLines(lines, graphic);
    WrappedLinesAre(text, graphic);
    forall i | 0 <= i < |lines| ensures WrapLine(once[i], graphic) == once[i] {
      WrapLineTwice(lines[i], graphic);
    }
    assert WrapLines(once, graphic) == once;
  }

  // ----- where unwrapping wrapped text aborts

  /** The only colon is the last character. */
  predicate ColonLast(s: string) {
    s != "" && s[|s| - 1] == ':' && ':' !in s[..|s| - 1]
  }

  /** What comes before the first colon and what comes after it. */
  lemma {:induction false} AtColon(s: string) returns (a: string, b: string)
    requires ColonFirst(s)
    ensures s == a + ":" + b && ':' !in a && ' ' !in a
  {
    if s[0] == ':' {
      a, b := "", s[1..];
    } else {
      var a', b' := AtColon(s[1..]);
      a, b := [s[0]] + a', b';
      assert s == [s[0]] + s[1..];
    }
  }

  lemma ColonLastIs(a: string, b: string)
    requires ':' !in a
    ensures ColonLast(a + ":" + b) <==> b == ""
  {
    var s := a + ":" + b;
    assert s[|a|] == ':';
    if b == "" {
      assert s[..|s| - 1] == a;
    } else {
      assert s[..|s| - 1][|a|] == ':';
    }
  }

  lemma {:induction false} EscapedRunIsKey(s: string, graphic: char -> bool)
    requires ':' !in s && ' ' !in s
    ensures AllKey(Escape(s, graphic))
  {
    hide EscapeChar;
    if s != "" {
      EscapedIsKey(s[0], graphic);
      assert s == [s[0]] + s[1..];
      EscapedRunIsKey(s[1..], graphic);
    }
  }

  /** The text after the colon of a hijacked literal. */
  lemma HijackedValue(a: string, b: string, comment: string, graphic: char -> bool)
    requires ':' !in a && ' ' !in a
    ensures var literal, rest := Literal(a + ":" + b, comment, graphic), Escape(b, graphic) + "\"" + Tail(comment);
            && MatchKey(literal).Some? && Blanks(rest) <= |rest|
            && literal[MatchKey(literal).value..] == rest[Blanks(rest)..]
  {
    hide *;
    EscapedRunIsKey(a, graphic);
    MarkerIsPlain();
    var literal, rest := Literal(a + ":" + b, comment, graphic), Escape(b, graphic) + "\"" + Tail(comment);
    var head := "\"" + Marker() + Escape(a, graphic);
    KeysAppend("\"" + Marker(), Escape(a, graphic));
    LiteralIs(a + ":" + b, comment, graphic);
    EscapeConcat(a, ":" + b, graphic);
    EscapeConcat(":", b, graphic);
    ColonIsPlain(graphic);
    assert a + ":" + b == a + (":" + b);
    assert literal == head + ":" + rest;
    KeyThenColon(literal, head, rest);
  }

  lemma KeysAppend(a: string, b: string)
    requires AllKey(a) && AllKey(b)
    ensures AllKey(a + b)
  {
  }

  lemma KeyThenColon(s: string, head: string, rest: string)
    requires s == head + ":" + rest && AllKey(head) && head != ""
    ensures MatchKey(s).Some? && Blanks(rest) <= |rest| && s[MatchKey(s).value..] == rest[Blanks(rest)..]
  {
    hide *;
    assert s[..|head|] == head && s[|head|] == ':' && s[|head| + 1..] == rest;
    ColonIsNoKey();
    KeyCharsAre(s, |head|);
    MatchKeyAt(s);
  }

  lemma ColonIsNoKey()
    ensures !IsKeyChar(':')
  {
  }

  lemma MatchKeyAt(s: string)
    requires 0 < KeyChars(s) < |s| && s[KeyChars(s)] == ':'
    ensures MatchKey(s) == Some(KeyChars(s) + 1 + Blanks(s[KeyChars(s) + 1..]))
  {
    hide KeyChars, Blanks;
  }

  lemma ColonIsPlain(graphic: char -> bool)
    ensures Escape(":", graphic) == ":"
  {
    PlainIsNotEscaped(":", graphic);
  }

  /** A character the marker may have and no escape sequence has. */
  predicate OfMarker(c: char) { c == '_' || ('A' <= c <= 'Z' && c != 'U') }

  lemma {:induction false} DigitsAre(n: nat, width: nat)
    ensures forall c :: c in HexDigits(n, width) ==> !OfMarker(c) && !IsSpace(c)
  {
    if width > 0 {
      DigitsAre(n / 16, width - 1);
      HexIs(n % 16);
    }
  }

  lemma HexIs(d: int)
    requires 0 <= d < 16
    ensures !OfMarker(Hex(d)) && !IsSpace(Hex(d))
  {
  }

  lemma EscapeSequenceIs(c: char, graphic: char -> bool)
    ensures EscapeChar(c, graphic) == [c] ||
            forall d :: d in EscapeChar(c, graphic) ==> !OfMarker(d) && !IsSpace(d)
  {
    hide HexDigits;
    DigitsAre(c as int, 2);
    DigitsAre(c as int, 4);
    DigitsAre(c as int, 8);
  }

  lemma {:induction false} PrefixUnescaped(sub: string, s: string, rest: string, graphic: char -> bool)
    requires forall c :: c in sub ==> OfMarker(c)
    requires rest != "" && !OfMarker(rest[0]) && sub <= Escape(s, graphic) + rest
    ensures sub <= s
  {
    hide EscapeChar, OfMarker;
    if sub != "" {
      var all := Escape(s, graphic) + rest;
      assert sub[0] == all[0] && sub[0] in sub;
      if s != "" {
        var e := EscapeChar(s[0], graphic);
        EscapeSequenceIs(s[0], graphic);
        assert all == e + (Escape(s[1..], graphic) + rest) && e[0] in e;
        assert e == [s[0]];
        assert sub[1..] <= all[1..];
        PrefixUnescaped(sub[1..], s[1..], rest, graphic);
        assert sub == [s[0]] + sub[1..];
      }
    }
  }

  /** The marker does not start inside characters that are not its own. */
  lemma {:induction false} SkipOthers(e: string, rest: string)
    requires forall c :: c in e ==> !OfMarker(c)
    ensures Contains(e + rest, Marker()) <==> Contains(rest, Marker())
  {
    MarkerIsPlain();
    hide Marker, Plain, AllKey;
    if e == "" {
      assert e + rest == rest;
    } else {
      assert (e + rest)[0] == e[0] && e[0] in e && Marker()[0] in Marker();
      assert !(Marker() <= e + rest);
      assert (e + rest)[1..] == e[1..] + rest;
      SkipOthers(e[1..], rest);
    }
  }

  lemma {:induction false} MarkerUnescaped(s: string, rest: string, graphic: char -> bool)
    requires rest != "" && !OfMarker(rest[0]) && !Contains(rest, Marker()) && !Contains(s, Marker())
    ensures !Contains(Escape(s, graphic) + rest, Marker())
  {
    hide *;
    if s == "" {
      NothingEscaped(graphic);
      assert "" + rest == rest;
    } else {
      MarkerIsOfMarker();
      EscapeStep(s, graphic);
      var e, tail := EscapeChar(s[0], graphic), Escape(s[1..], graphic) + rest;
      var all := Escape(s, graphic) + rest;
      assert all == e + tail;
      MarkerFrom(s);
      MarkerUnescaped(s[1..], rest, graphic);
      EscapeSequenceIs(s[0], graphic);
      if e == [s[0]] {
        if Marker() <= all {
          PrefixUnescaped(Marker(), s, rest, graphic);
        }
        assert all[1..] == tail;
        MarkerFrom(all);
      } else {
        SkipOthers(e, tail);
      }
    }
  }

  lemma EscapeStep(s: string, graphic: char -> bool)
    requires s != ""
    ensures Escape(s, graphic) == EscapeChar(s[0], graphic) + Escape(s[1..], graphic)
  {
  }

  /** The marker is found at the front of the text or behind its first character. */
  lemma MarkerFrom(s: string)
    requires s != ""
    ensures Contains(s, Marker()) <==> Marker() <= s || Contains(s[1..], Marker())
  {
    hide Marker;
  }

  lemma MarkerIsOfMarker()
    ensures forall c :: c in Marker() ==> OfMarker(c)
    ensures !OfMarker('"') && !OfMarker(' ') && !OfMarker('#')
  {
  }

  lemma SuffixLacks(s: string, i: nat)
    requires i <= |s| && !Contains(s, Marker())
    ensures !Contains(s[i..], Marker())
  {
    if Contains(s[i..], Marker()) {
      assert s == s[..i] + s[i..] + "";
      ContainsInside(s[..i], s[i..], "", Marker());
    }
  }

  /** Escaping ends in a character that is not white space when the text does. */
  lemma {:induction false} EscapeEnds(s: string, graphic: char -> bool)
    requires s != "" && !IsSpace(s[|s| - 1])
    ensures var e := Escape(s, graphic); e != "" && !IsSpace(e[|e| - 1])
  {
    hide EscapeChar;
    var init, last := s[..|s| - 1], s[|s| - 1];
    assert s == init + [last];
    EscapeConcat(init, [last], graphic);
    assert Escape([last], graphic) == EscapeChar(last, graphic) + Escape("", graphic);
    EscapeCharEnds(last, graphic);
  }

  lemma EscapeCharEnds(c: char, graphic: char -> bool)
    requires !IsSpace(c)
    ensures var e := EscapeChar(c, graphic); !IsSpace(e[|e| - 1])
  {
    EscapeSequenceIs(c, graphic);
    hide EscapeChar;
    var e := EscapeChar(c, graphic);
    assert e[|e| - 1] in e;
  }

  lemma TrimLong(x: string, space: string)
    requires x != "" && !IsSpace(x[|x| - 1]) && (space == "" || space == " ")
    ensures |Trim(x + "\"" + space)| >= 2
  {
    var q := x + "\"" + space;
    TrimLeftKeeps(x, "\"" + space);
    assert q == x + ("\"" + space);
    var l := TrimLeft(q);
    var y :| y != "" && l == y + ("\"" + space);
    if space == " " {
      assert l[..|l| - 1] == y + "\"" && l[|l| - 1] == ' ';
      assert TrimRight(l) == TrimRight(y + "\"");
    } else {
      assert l == y + "\"";
    }
  }

  lemma {:induction false} TrimLeftKeeps(x: string, rest: string)
    requires x != "" && !IsSpace(x[|x| - 1])
    ensures exists y :: y != "" && TrimLeft(x + rest) == y + rest
  {
    if IsSpace(x[0]) {
      assert (x + rest)[1..] == x[1..] + rest;
      TrimLeftKeeps(x[1..], rest);
    } else {
      assert TrimLeft(x + rest) == x + rest;
    }
  }

  /** The value of a hijacked line is a lone quote exactly when nothing follows the colon. */
  lemma HijackedQuote(b: string, comment: string, graphic: char -> bool)
    requires !Contains(b, Marker()) && !Contains(comment, Marker()) && '#' !in b && (comment != "" ==> comment[0] == '#')
    requires b != "" ==> !IsSpace(b[|b| - 1])
    ensures var rest := Escape(b, graphic) + "\"" + Tail(comment);
            LoneQuote(Trim(SplitComment(RemoveFirst(rest[Blanks(rest)..], Marker())).before)) <==> b == ""
  {
    hide *;
    var e, end := Escape(b, graphic), "\"" + Tail(comment);
    var rest := e + "\"" + Tail(comment);
    assert rest == e + end;
    EndLacks(comment);
    MarkerUnescaped(b, end, graphic);
    SuffixLacks(rest, Blanks(rest));
    NothingRemoved(rest[Blanks(rest)..]);
    if b == "" {
      NothingEscaped(graphic);
      LoneValue(rest, comment);
    } else {
      EscapeLacks(b, '#', graphic);
      EscapeEnds(b, graphic);
      LongValue(e, rest, comment);
    }
  }

  lemma LoneValue(rest: string, comment: string)
    requires rest == "" + "\"" + Tail(comment) && (comment != "" ==> comment[0] == '#')
    ensures LoneQuote(Trim(SplitComment(rest[Blanks(rest)..]).before))
  {
    hide *;
    TailIs(comment);
    var space := if comment == "" then "" else " ";
    assert rest == "\"" + space + comment;
    QuoteFirst(rest);
    SplitCommentIs("\"" + space, comment);
    LoneQuoteTrimmed(space);
  }

  lemma LongValue(e: string, rest: string, comment: string)
    requires rest == e + "\"" + Tail(comment) && '#' !in e && (comment != "" ==> comment[0] == '#')
    requires e != "" && !IsSpace(e[|e| - 1])
    ensures !LoneQuote(Trim(SplitComment(rest[Blanks(rest)..]).before))
  {
    hide *;
    TailIs(comment);
    var space := if comment == "" then "" else " ";
    var n := Blanks(rest);
    assert rest == e + ("\"" + Tail(comment));
    BlanksEnd(e, "\"" + Tail(comment));
    var x := e[n..];
    assert rest[n..] == (x + "\"" + space) + comment;
    assert x[|x| - 1] == e[|e| - 1];
    SplitCommentIs(x + "\"" + space, comment);
    TrimLong(x, space);
    NotLone(Trim(x + "\"" + space));
  }

  lemma QuoteFirst(s: string)
    requires s != "" && s[0] == '"'
    ensures Blanks(s) == 0
  {
  }

  lemma NotLone(s: string)
    requires |s| >= 2
    ensures !LoneQuote(s)
  {
  }

  lemma NothingEscaped(graphic: char -> bool)
    ensures Escape("", graphic) == ""
  {
  }

  lemma NothingRemoved(s: string)
    requires !Contains(s, Marker())
    ensures RemoveFirst(s, Marker()) == s
  {
  }

  lemma LoneQuoteTrimmed(space: string)
    requires space == "" || space == " "
    ensures LoneQuote(Trim("\"" + space))
  {
    var q := "\"";
    assert TrimLeft(q + space) == q + space && TrimRight(q) == q;
    if space == " " {
      assert (q + space)[..1] == q && (q + space)[1] == ' ';
      assert TrimRight(q + space) == TrimRight(q);
    } else {
      assert q + space == q;
    }
  }

  lemma EndLacks(comment: string)
    requires !Contains(comment, Marker())
    ensures var end := "\"" + Tail(comment); !OfMarker(end[0]) && !Contains(end, Marker())
  {
    hide Contains, Marker, OfMarker;
    MarkerIsOfMarker();
    if comment == "" {
      assert "\"" + Tail(comment) == "\"" + "";
      SkipOthers("\"", "");
    } else {
      assert "\"" + Tail(comment) == "\" " + comment;
      SkipOthers("\" ", comment);
    }
  }

  /** Leading white space ends before a character that is none. */
  lemma BlanksEnd(e: string, end: string)
    requires e != "" && !IsSpace(e[|e| - 1])
    ensures Blanks(e + end) < |e|
  {
    BlanksBelow(e + end, |e| - 1);
  }

  lemma {:induction false} BlanksBelow(s: string, i: nat)
    requires i < |s| && !IsSpace(s[i])
    ensures Blanks(s) <= i
  {
    if i > 0 && IsBlank(s[0]) {
      BlanksBelow(s[1..], i - 1);
    }
  }

  /** The line is wrapped, and taken for a key up to the very end of its content. */
  predicate LeavesQuote(line: string) {
    Wraps(line) && Hijacked(line) && ColonLast(ContentOf(line))
  }

  lemma LeavesQuoteIs(line: string)
    ensures Hijacked(line) ==> MatchPrefix(line).Some? && (LeavesQuote(line) <==> Wraps(line) && ColonLast(ContentOf(line)))
    ensures LeavesQuote(line) ==> Wraps(line) && Hijacked(line)
  {
    hide Wraps, ColonLast, ContentOf, MatchPrefix, BareItem, ColonFirst;
  }

  /** A marker-free line aborts unwrapping once wrapped exactly when it is hijacked by a colon at the very end. */
  lemma WrappedLineAborts(line: string, graphic: char -> bool)
    requires !Contains(line, Marker())
    ensures Aborts(WrapLine(line, graphic)) <==> LeavesQuote(line)
  {
    hide *;
    var wrapped := WrapLine(line, graphic);
    UnwrapLineAborts(wrapped);
    LeavesQuoteIs(line);
    if !Wraps(line) {
      UnwrappedStays(line, graphic);
      UnwrapLineIs(line);
    } else if !Hijacked(line) {
      UnwrapOfWrapped(line, graphic);
    } else {
      HijackedLineAborts(line, graphic);
    }
  }

  lemma HijackedLineAborts(line: string, graphic: char -> bool)
    requires !Contains(line, Marker()) && Wraps(line) && Hijacked(line)
    ensures Aborts(WrapLine(line, graphic)) <==> ColonLast(ContentOf(line))
  {
    hide *;
    WrapsMeans(line, graphic);
    HijackedIs(line);
    WrappedHasMarker(line, graphic);
    PrefixIs(line);
    var content, comment := ContentOf(line), ValueOf(line).comment;
    var wrapped, n := WrapLine(line, graphic), MatchPrefix(line).value;
    var literal := Literal(content, comment, graphic);
    LiteralStarts(content, comment, graphic);
    PrefixStays(line, literal);
    var a, b := AtColon(content);
    ColonLastIs(a, b);
    HijackedValue(a, b, comment, graphic);
    assert wrapped == line[..n] + literal;
    assert wrapped[MatchPrefix(wrapped).value..] == literal[MatchKey(literal).value..];
    ContentParts(line, a, b);
    HijackedQuote(b, comment, graphic);
    AbortsIs(wrapped);
  }

  lemma AbortsIs(line: string)
    requires Contains(line, Marker()) && MatchPrefix(line).Some?
    ensures Aborts(line) <==> LoneQuote(Trim(SplitComment(RemoveFirst(line[MatchPrefix(line).value..], Marker())).before))
  {
    hide Contains, Marker, MatchPrefix, LoneQuote, Trim, SplitComment, RemoveFirst;
  }

  lemma ContentParts(line: string, a: string, b: string)
    requires !Contains(line, Marker()) && MatchPrefix(line).Some? && ContentOf(line) == a + ":" + b
    ensures !Contains(b, Marker()) && !Contains(ValueOf(line).comment, Marker()) && '#' !in b
    ensures b != "" ==> !IsSpace(b[|b| - 1])
  {
    hide *;
    var p, v, content := PartsOf(line);
    var before, after := TrimWithin(v.before);
    assert line == (p + v.before) + v.comment + "";
    Within(p + v.before, v.comment, "", line);
    assert line == (p + before + a + ":") + b + (after + v.comment);
    Within(p + before + a + ":", b, after + v.comment, line);
    assert forall c :: c in b ==> c in content;
    if b != "" {
      assert content[|content| - 1] == b[|b| - 1];
    }
  }

  lemma PartsOf(line: string) returns (p: string, v: Value, content: string)
    requires MatchPrefix(line).Some?
    ensures p == PrefixOf(line) && v == ValueOf(line) && content == ContentOf(line) == Trim(v.before)
    ensures line == p + v.before + v.comment && '#' !in content && (content != "" ==> !IsSpace(content[|content| - 1]))
  {
    hide MatchPrefix;
    p, v, content := PrefixOf(line), ValueOf(line), ContentOf(line);
  }

  lemma Within(a: string, s: string, b: string, line: string)
    requires line == a + s + b && !Contains(line, Marker())
    ensures !Contains(s, Marker())
  {
    hide Contains, Marker;
    if Contains(s, Marker()) {
      ContainsInside(a, s, b, Marker());
    }
  }

  /** Trimming takes a stretch of the text. */
  lemma {:induction false} TrimWithin(s: string) returns (before: string, after: string)
    ensures s == before + Trim(s) + after
  {
    before := TrimLeftWithin(s);
    var l := TrimLeft(s);
    after := l[|TrimRight(l)|..];
  }

  lemma {:induction false} TrimLeftWithin(s: string) returns (before: string)
    ensures s == before + TrimLeft(s)
  {
    before := "";
    if s != "" && IsSpace(s[0]) {
      before := TrimLeftWithin(s[1..]);
      assert s == [s[0]] + s[1..];
      before := [s[0]] + before;
    }
  }

  /** Unwrapping the wrapped form of marker-free text aborts exactly when it has a line of that kind. */
  lemma WrappedTextAborts(text: string, graphic: char -> bool)
    requires !Contains(text, Marker())
    ensures (exists line :: line in Split(WrappedText(text, graphic), '\n') && Aborts(line)) <==>
      exists line :: line in Split(text, '\n') && LeavesQuote(line)
  {
    hide *;
    var lines := Split(text, '\n');
    var wrapped := WrapLines(lines, graphic);
    WrappedLinesAre(text, graphic);
    JoinOfSplit(text, '\n');
    forall i | 0 <= i < |lines|
      ensures Aborts(wrapped[i]) <==> LeavesQuote(lines[i])
    {
      if Contains(lines[i], Marker()) {
        JoinHas(lines, '\n', i, Marker());
      }
      WrappedLineAborts(lines[i], graphic);
    }
    if line :| line in wrapped && Aborts(line) {
      var i :| 0 <= i < |wrapped| && wrapped[i] == line;
      assert lines[i] in lines;
    }
    if line :| line in lines && LeavesQuote(line) {
      var i :| 0 <= i < |lines| && lines[i] == line;
      assert wrapped[i] in wrapped;
    }
  }

  /** A marked value without a closing quote: unwrapping aborts. */
  lemma OpenQuoteAborts()
    ensures Aborts("k: \"" + Marker())
  {
    hide *;
    var value := "\"" + Marker();
    var line := "k: " + value;
    assert "k: \"" == "k: " + "\"";
    assert "k: \"" + Marker() == line && "k: \"" + Marker() + "" == line;
    KeyLine(value);
    ContainsMiddle("k: \"", Marker(), "");
    MarkerRemoved("");
    assert value + "" == value && "\"" + "" == "\"";
    SplitCommentIs("\"", "");
    LoneQuoteTrimmed("");
    AbortsIs(line);
  }

  lemma KeyLine(value: string)
    requires value != "" && value[0] == '"'
    ensures var line := "k: " + value; MatchPrefix(line) == Some(3) && line[3..] == value
  {
    var line := "k: " + value;
    assert line[..1] == "k" && line[1] == ':' && line[0..] == line;
    KeyCharsAre(line, 1);
    assert line[2..][..1] == " " && line[2..][1] == value[0];
    BlanksAre(line[2..], 1);
    assert MatchKey(line) == Some(3);
  }

  /** A list item that wraps into a line on which unwrapping aborts. */
  lemma TabItemAborts(graphic: char -> bool)
    ensures var line := "- " + "a\t{{x}}:"; Wraps(line) && Aborts(WrapLine(line, graphic))
  {
    hide *;
    var content := "a\t{{x}}:";
    TabContent(content);
    BareItemWith(content);
    HijackedIs("- " + content);
    LeavesQuoteIs("- " + content);
    WrapsIf("- " + content);
    WrappedLineAborts("- " + content, graphic);
  }

  lemma TabContent(content: string)
    requires content == "a\t{{x}}:"
    ensures MatchKey(content).None? && |content| < |Marker()| - 2 && !IsBlank(content[0])
    ensures '#' !in content && !IsSpace(content[0]) && !IsSpace(content[|content| - 1])
    ensures ColonFirst(content) && HasTemplate(content) && !IsQuoted(content) && ColonLast(content)
  {
    hide IsSpace, IsBlank, ColonFirst, ColonLast, KeyChars, HasTemplate, TrimLeft, TrimRight;
    TabIsBlank();
    KeyCharsAre(content, 1);
    TabTemplate(content);
    var a := "a\t{{x}}";
    assert content == a + ":" + "";
    ColonLastIs(a, "");
    ColonFirstAfter(a, "");
    TrimIsSame(content);
  }

  lemma TabIsBlank()
    ensures IsBlank('\t') && !IsBlank('a') && !IsSpace('a') && !IsSpace(':')
  {
  }

  lemma TrimIsSame(s: string)
    requires s != "" && !IsSpace(s[0]) && !IsSpace(s[|s| - 1])
    ensures Trim(s) == s
  {
  }

  lemma TabTemplate(content: string)
    requires content == "a\t{{x}}:"
    ensures HasTemplate(content)
  {
    assert TemplateAt(content, 2, 5);
  }

  lemma {:induction false} ColonFirstAfter(a: string, b: string)
    requires ' ' !in a && ':' !in a
    ensures ColonFirst(a + ":" + b)
  {
    var s := a + ":" + b;
    if a != "" {
      assert a == [a[0]] + a[1..] && s[0] == a[0];
      assert s[1..] == a[1..] + ":" + b;
      ColonFirstAfter(a[1..], b);
    }
  }

  // ----- two lines that do not survive

  lemma BareItemWith(content: string)
    requires content != "" && !IsBlank(content[0]) && MatchKey(content).None? && |content| < |Marker()| - 2
    requires '#' !in content && !IsSpace(content[0]) && !IsSpace(content[|content| - 1])
    ensures var line := "- " + content;
            && !Contains(line, Marker()) && MatchPrefix(line) == Some(2) && BareItem(line)
            && ValueOf(line) == Value(content, "") && ContentOf(line) == content
  {
    var line := "- " + content;
    assert line[..0] == "" && line[0..] == line && line[2..] == content && AllBlank(line[1..2]);
    BlanksAre(line, 0);
    MatchItemAt(line, 2);
    SplitCommentIs(content, "");
    assert content + "" == content;
    assert TrimLeft(content) == content && TrimRight(content) == content;
  }

  /** A list item whose content starts with a colon wraps, but does not unwrap. */
  lemma ColonItemIsNotRestored(graphic: char -> bool)
    ensures var line := "- " + ":{{x}}";
            Wraps(line) && UnwrapLine(WrapLine(line, graphic)) != Some(line)
  {
    hide *;
    var content := ":{{x}}";
    ColonContent(content);
    BareItemWith(content);
    LineRoundTrip("- " + content, graphic);
    RestorableIs("- " + content);
    HijackedIs("- " + content);
    WrapsIf("- " + content);
  }

  lemma ColonContent(content: string)
    requires content == ":{{x}}"
    ensures MatchKey(content).None? && |content| < |Marker()| - 2 && !IsBlank(content[0])
    ensures '#' !in content && !IsSpace(content[0]) && !IsSpace(content[|content| - 1])
    ensures ColonFirst(content) && HasTemplate(content) && !IsQuoted(content)
  {
    hide IsSpace, IsBlank, ColonFirst, KeyChars, HasTemplate, TrimLeft, TrimRight;
    EndsOfColonContent();
    KeyCharsAre(content, 0);
    ColonTemplate(content);
    assert content == "" + ":" + "{{x}}";
    ColonFirstAfter("", "{{x}}");
    TrimIsSame(content);
  }

  lemma EndsOfColonContent()
    ensures !IsBlank(':') && !IsSpace(':') && !IsSpace('}')
  {
  }

  lemma ColonTemplate(content: string)
    requires content == ":{{x}}"
    ensures HasTemplate(content)
  {
    assert TemplateAt(content, 1, 4);
  }

  lemma WrapsIf(line: string)
    requires !Contains(line, Marker()) && MatchPrefix(line).Some?
    ensures Wraps(line) <==> ContentOf(line) != "" && HasTemplate(ContentOf(line)) && !IsQuoted(ContentOf(line))
  {
    hide Contains, Marker, MatchPrefix, ContentOf, HasTemplate, IsQuoted;
  }
}
