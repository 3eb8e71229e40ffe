/** Recovering a JSON object from surrounding prose: a scanner that counts braces outside strings. */
module JsonScanner {
  import opened Common

  // ---- JSON texts, with their white space (RFC 8259, sections 2 to 7) ----

  predicate IsWhite(s: string) {
    forall c :: c in s ==> c == ' ' || c == '\t' || c == '\n' || c == '\r'
  }

  type White = s: string | IsWhite(s) witness ""

  /** The characters a string may hold unescaped. */
  predicate IsPlain(c: char) {
    c >= ' ' && c != '"' && c != '\\'
  }

  predicate IsHex(c: char) {
    '0' <= c <= '9' || 'a' <= c <= 'f' || 'A' <= c <= 'F'
  }

  type PlainChar = c: char | IsPlain(c) witness 'a'
  type EscapeChar = c: char | c in "\"\\/bfnrt" witness 'n'
  type HexChar = c: char | IsHex(c) witness '0'

  datatype Piece = Single(c: PlainChar) | Escape(e: EscapeChar) | Unicode(h1: HexChar, h2: HexChar, h3: HexChar, h4: HexChar)

  /** Any text of number characters; the numbers of the standard are among them. */
  predicate IsNumberText(s: string) {
    forall c :: c in s ==> '0' <= c <= '9' || c in "+-.eE"
  }

  type NumberText = s: string | IsNumberText(s) witness "0"

  datatype Json =
    | Null | True | False
    | Number(digits: NumberText)
    | String(pieces: seq<Piece>)
    | Array(open: White, elements: Elements)
    | Object(open: White, members: Members)

  datatype Elements = NoElements | Element(value: Json, after: White, before: White, rest: Elements)

  datatype Members = NoMembers | Member(key: seq<Piece>, beforeColon: White, afterColon: White, value: Json,
                                        after: White, before: White, rest: Members)

  function PieceText(p: Piece): string {
    match p
    case Single(c) => [c]
    case Escape(e) => ['\\', e]
    case Unicode(h1, h2, h3, h4) => ['\\', 'u', h1, h2, h3, h4]
  }

  function PiecesText(ps: seq<Piece>): string {
    if ps == [] then "" else PieceText(ps[0]) + PiecesText(ps[1..])
  }

  function StringText(ps: seq<Piece>): string {
    "\"" + PiecesText(ps) + "\""
  }

  function Text(j: Json): string {
    match j
    case Null => "null"
    case True => "true"
    case False => "false"
    case Number(digits) => digits
    case String(pieces) => StringText(pieces)
    case Array(open, elements) => "[" + open + ElementsText(elements) + "]"
    case Object(open, members) => "{" + open + MembersText(members) + "}"
  }

  function ElementsText(es: Elements): string {
    match es
    case NoElements => ""
    case Element(value, after, before, rest) =>
      Text(value) + after + (if rest.NoElements? then "" else "," + before) + ElementsText(rest)
  }

  function MembersText(ms: Members): string {
    match ms
    case NoMembers => ""
    case Member(key, beforeColon, afterColon, value, after, before, rest) =>
      StringText(key) + beforeColon + ":" + afterColon + Text(value) + after
      + (if rest.NoMembers? then "" else "," + before) + MembersText(rest)
  }

  // ---- The scanner ----

  datatype State = State(depth: nat, inString: bool, escaped: bool)

  /** The state after one character; `None` when the outermost brace closes. */
  function Step(s: State, c: char): Option<State> {
    if s.inString then
      if s.escaped then Some(s.(escaped := false))
      else if c == '\\' then Some(s.(escaped := true))
      else if c == '"' then Some(s.(inString := false))
      else Some(s)
    else if c == '"' then Some(s.(inString := true))
    else if c == '{' then Some(s.(depth := s.depth + 1))
    else if c == '}' then if s.depth <= 1 then None else Some(s.(depth := s.depth - 1))
    else Some(s)
  }

  /** Where the scan that reaches position `i` in state `s` ends, if it does. */
  function EndFrom(text: string, i: nat, s: State): Option<nat>
    requires i <= |text|
    decreases |text| - i
  {
    if i == |text| then None
    else match Step(s, text[i])
      case None => Some(i + 1)
      case Some(next) => EndFrom(text, i + 1, next)
  }

  function FirstBrace(text: string): (k: nat)
    ensures k <= |text| && (k < |text| ==> text[k] == '{') && forall i :: 0 <= i < k ==> text[i] != '{'
  {
    if text == "" || text[0] == '{' then 0
    else
      assert forall i :: 1 <= i < |text| ==> text[i] == text[1..][i - 1];
      1 + FirstBrace(text[1..])
  }

  const OUTSIDE := State(0, false, false)

  /** The start and the end of what is extracted. */
  function Found(text: string): Option<(nat, nat)> {
    var k := FirstBrace(text);
    match EndFrom(text, k, OUTSIDE)
    case None => None
    case Some(end) => Some((k, end))
  }

  method ExtractObject(text: string) returns (r: Option<string>)
    ensures r.None? <==> Found(text).None?
    ensures r.Some? ==> var (start, end) := Found(text).value; start < end <= |text| && r.value == text[start..end]
  {
    var start := FirstBrace(text);
    if start == |text| { return None; }
    EndIsLater(text, start, OUTSIDE);
    var depth, inString, escaped := 0, false, false;
    for index := start to |text|
      invariant depth >= 0 && (index > start ==> depth >= 1)
      invariant EndFrom(text, index, State(depth, inString, escaped)) == EndFrom(text, start, OUTSIDE)
      invariant index == start ==> depth == 0 && !inString
    {
      var c := text[index];
      if inString {
        if escaped {
          escaped := false;
        } else if c == '\\' {
          escaped := true;
        } else if c == '"' {
          inString := false;
        }
      } else if c == '"' {
        inString := true;
      } else if c == '{' {
        depth := depth + 1;
      } else if c == '}' {
        depth := depth - 1;
        if depth == 0 { return Some(text[start..index + 1]); }
      }
    }
    return None;
  }

  lemma {:induction false} EndIsLater(text: string, i: nat, s: State)
    requires i <= |text|
    ensures EndFrom(text, i, s).Some? ==>
              i < EndFrom(text, i, s).value <= |text| && text[EndFrom(text, i, s).value - 1] == '}'
    decreases |text| - i
  {
    if i < |text| && Step(s, text[i]).Some? { EndIsLater(text, i + 1, Step(s, text[i]).value); }
  }

  // ---- Scanning pieces of text ----

  /** The state after a whole text, if the outermost brace does not close in it. */
  function After(s: State, t: string): Option<State>
    decreases |t|
  {
    if t == "" then Some(s)
    else match Step(s, t[0])
      case None => None
      case Some(next) => After(next, t[1..])
  }

  lemma {:induction false} AfterJoin(s: State, a: string, b: string)
    requires After(s, a).Some?
    ensures After(s, a + b) == After(After(s, a).value, b)
    decreases |a|
  {
    if a == "" {
      assert a + b == b;
    } else {
      assert (a + b)[1..] == a[1..] + b;
      AfterJoin(Step(s, a[0]).value, a[1..], b);
    }
  }

  /** Scanning over a text that stands at position `i`. */
  lemma {:induction false} EndAfter(text: string, i: nat, t: string, s: State)
    requires i + |t| <= |text| && text[i..i + |t|] == t && After(s, t).Some?
    ensures EndFrom(text, i, s) == EndFrom(text, i + |t|, After(s, t).value)
    decreases |t|
  {
    if t != "" {
      assert text[i] == t[0] && text[i + 1..i + 1 + |t[1..]|] == t[1..];
      EndAfter(text, i + 1, t[1..], Step(s, t[0]).value);
    }
  }

  /** The scanner passes over this text and is where it was. */
  ghost predicate Skipped(t: string, d: nat) {
    After(State(d, false, false), t) == Some(State(d, false, false))
  }

  lemma SkippedJoin(a: string, b: string, d: nat)
    requires Skipped(a, d) && Skipped(b, d)
    ensures Skipped(a + b, d)
  {
    AfterJoin(State(d, false, false), a, b);
  }

  lemma {:induction false} BareIsSkipped(t: string, d: nat)
    requires forall c :: c in t ==> c != '"' && c != '{' && c != '}'
    ensures Skipped(t, d)
  {
    if t != "" {
      assert forall c :: c in t[1..] ==> c in t;
      assert t[0] in t;
      BareIsSkipped(t[1..], d);
    }
  }

  lemma PieceIsSkipped(p: Piece, d: nat)
    ensures After(State(d, true, false), PieceText(p)) == Some(State(d, true, false))
  {
    var t := PieceText(p);
    match p
    case Single(c) =>
      assert t[1..] == "";
    case Escape(e) =>
      assert t[1..] == [e] && [e][1..] == "";
      assert After(State(d, true, true), [e]) == Some(State(d, true, false));
    case Unicode(h1, h2, h3, h4) =>
      assert t[1..] == ['u', h1, h2, h3, h4] && t[1..][1..] == [h1, h2, h3, h4];
      HexIsSkipped([h1, h2, h3, h4], d);
  }

  lemma {:induction false} HexIsSkipped(t: string, d: nat)
    requires forall c :: c in t ==> IsHex(c)
    ensures After(State(d, true, false), t) == Some(State(d, true, false))
  {
    if t != "" {
      assert forall c :: c in t[1..] ==> c in t;
      assert t[0] in t;
      HexIsSkipped(t[1..], d);
    }
  }

  lemma {:induction false} PiecesAreSkipped(ps: seq<Piece>, d: nat)
    ensures After(State(d, true, false), PiecesText(ps)) == Some(State(d, true, false))
  {
    if ps != [] {
      PieceIsSkipped(ps[0], d);
      PiecesAreSkipped(ps[1..], d);
      AfterJoin(State(d, true, false), PieceText(ps[0]), PiecesText(ps[1..]));
    }
  }

  /** Whatever a string holds, quotes and braces included, the scanner leaves it as it entered. */
  lemma StringIsSkipped(ps: seq<Piece>, d: nat)
    ensures Skipped(StringText(ps), d)
  {
    PiecesAreSkipped(ps, d);
    var inside := State(d, true, false);
    AfterJoin(inside, PiecesText(ps), "\"");
    assert After(inside, "\"") == Some(State(d, false, false)) by { assert "\""[1..] == ""; }
    assert StringText(ps)[1..] == PiecesText(ps) + "\"";
  }

  lemma LiteralIsSkipped(j: Json, d: nat)
    requires !j.String? && !j.Array? && !j.Object?
    ensures Skipped(Text(j), d)
  {
    hide Skipped;
    match j
    case Null => BareIsSkipped("null", d);
    case True => BareIsSkipped("true", d);
    case False => BareIsSkipped("false", d);
    case Number(digits) => BareIsSkipped(digits, d);
  }

  lemma NestedText(j: Json)
    ensures j.Array? ==> Text(j) == "[" + j.open + ElementsText(j.elements) + "]"
    ensures j.Object? ==> Text(j) == "{" + (j.open + MembersText(j.members)) + "}"
  {
  }

  lemma {:induction false} JsonIsSkipped(j: Json, d: nat)
    requires d >= 1
    ensures Skipped(Text(j), d)
    decreases j
  {
    NestedText(j);
    assert j.String? ==> Text(j) == StringText(j.pieces);
    hide Skipped, Text, ElementsText, MembersText, StringText;
    if j.String? {
      StringIsSkipped(j.pieces, d);
    } else if j.Array? {
      ElementsAreSkipped(j.elements, d);
      Bracketed(j.open, ElementsText(j.elements), d);
    } else if j.Object? {
      InnerIsSkipped(j.open, j.members, d + 1);
      Braced(j.open + MembersText(j.members), d);
    } else {
      LiteralIsSkipped(j, d);
    }
  }

  lemma Bracketed(open: White, inner: string, d: nat)
    requires Skipped(inner, d)
    ensures Skipped("[" + open + inner + "]", d)
  {
    hide Skipped;
    BareIsSkipped("[" + open, d);
    SkippedJoin("[" + open, inner, d);
    BareIsSkipped("]", d);
    SkippedJoin("[" + open + inner, "]", d);
  }

  lemma InnerIsSkipped(open: White, members: Members, d: nat)
    requires d >= 1
    ensures Skipped(open + MembersText(members), d)
    decreases members, 1
  {
    hide Skipped;
    BareIsSkipped(open, d);
    MembersAreSkipped(members, d);
    SkippedJoin(open, MembersText(members), d);
  }

  lemma Braced(inner: string, d: nat)
    requires d >= 1 && Skipped(inner, d + 1)
    ensures Skipped("{" + inner + "}", d)
  {
    var deeper := State(d + 1, false, false);
    assert ("{" + inner + "}")[1..] == inner + "}";
    AfterJoin(deeper, inner, "}");
    assert "}"[1..] == "";
    assert After(deeper, "}") == Some(State(d, false, false));
  }

  lemma {:induction false} ElementsAreSkipped(es: Elements, d: nat)
    requires d >= 1
    ensures Skipped(ElementsText(es), d)
    decreases es
  {
    hide Skipped;
    match es
    case NoElements => BareIsSkipped("", d);
    case Element(value, after, before, rest) =>
      JsonIsSkipped(value, d);
      BareIsSkipped(after, d);
      SkippedJoin(Text(value), after, d);
      var comma := if rest.NoElements? then "" else "," + before;
      BareIsSkipped(comma, d);
      SkippedJoin(Text(value) + after, comma, d);
      ElementsAreSkipped(rest, d);
      SkippedJoin(Text(value) + after + comma, ElementsText(rest), d);
  }

  lemma {:induction false} MembersAreSkipped(ms: Members, d: nat)
    requires d >= 1
    ensures Skipped(MembersText(ms), d)
    decreases ms, 0
  {
    hide Skipped;
    match ms
    case NoMembers => BareIsSkipped("", d);
    case Member(key, beforeColon, afterColon, value, after, before, rest) =>
      StringIsSkipped(key, d);
      JsonIsSkipped(value, d);
      MembersAreSkipped(rest, d);
      var comma := if rest.NoMembers? then "" else "," + before;
      MemberJoin(StringText(key), beforeColon, afterColon, Text(value), after, comma, MembersText(rest), d);
  }

  lemma MemberJoin(key: string, beforeColon: White, afterColon: White, value: string, after: White, comma: string,
                   rest: string, d: nat)
    requires Skipped(key, d) && Skipped(value, d) && Skipped(rest, d)
    requires forall c :: c in comma ==> c != '"' && c != '{' && c != '}'
    ensures Skipped(key + beforeColon + ":" + afterColon + value + after + comma + rest, d)
  {
    hide Skipped;
    BareIsSkipped(beforeColon, d);
    SkippedJoin(key, beforeColon, d);
    BareIsSkipped(":", d);
    SkippedJoin(key + beforeColon, ":", d);
    BareIsSkipped(afterColon, d);
    SkippedJoin(key + beforeColon + ":", afterColon, d);
    SkippedJoin(key + beforeColon + ":" + afterColon, value, d);
    BareIsSkipped(after, d);
    SkippedJoin(key + beforeColon + ":" + afterColon + value, after, d);
    BareIsSkipped(comma, d);
    SkippedJoin(key + beforeColon + ":" + afterColon + value + after, comma, d);
    SkippedJoin(key + beforeColon + ":" + afterColon + value + after + comma, rest, d);
  }

  // ---- The round trip ----

  lemma BraceAfter(prefix: string, rest: string)
    requires '{' !in prefix && rest != "" && rest[0] == '{'
    ensures FirstBrace(prefix + rest) == |prefix|
  {
    var text := prefix + rest;
    var k := FirstBrace(text);
    assert text[|prefix|] == '{';
    assert forall i :: 0 <= i < |prefix| ==> text[i] == prefix[i] && prefix[i] in prefix;
  }

  lemma BracedIsScanned(prefix: string, inner: string, rest: string)
    requires Skipped(inner, 1)
    ensures EndFrom(prefix + "{" + inner + "}" + rest, |prefix|, OUTSIDE) == Some(|prefix| + |inner| + 2)
  {
    hide After;
    var text := prefix + "{" + inner + "}" + rest;
    var k := |prefix|;
    assert text[k] == '{' && text[k + 1 + |inner|] == '}';
    assert text[k + 1..k + 1 + |inner|] == inner;
    EndAfter(text, k + 1, inner, State(1, false, false));
  }

  /** The scan that starts at an object ends exactly behind it. */
  lemma ObjectIsScanned(prefix: string, open: White, members: Members, suffix: string)
    ensures var printed := Text(Object(open, members));
      EndFrom(prefix + printed + suffix, |prefix|, OUTSIDE) == Some(|prefix| + |printed|)
  {
    hide Skipped, EndFrom, MembersText;
    var inner := open + MembersText(members);
    InnerIsSkipped(open, members, 1);
    BracedIsScanned(prefix, inner, suffix);
    assert Text(Object(open, members)) == "{" + inner + "}";
    assert prefix + "{" + inner + "}" + suffix == prefix + Text(Object(open, members)) + suffix;
  }

  /** In any text around a printed object, the object is found exactly when no brace opens before it. */
  lemma ObjectIsFound(prefix: string, j: Json, suffix: string)
    requires j.Object?
    ensures Found(prefix + Text(j) + suffix) == Some((|prefix|, |prefix| + |Text(j)|)) <==> '{' !in prefix
  {
    var text := prefix + Text(j) + suffix;
    ObjectIsScanned(prefix, j.open, j.members, suffix);
    if '{' !in prefix {
      BraceAfter(prefix, Text(j) + suffix);
      assert text == prefix + (Text(j) + suffix);
    } else {
      var i :| 0 <= i < |prefix| && prefix[i] == '{';
      assert text[i] == '{';
    }
  }

  /** Printing, wrapping in prose and extracting gives the object back. */
  lemma ObjectComesBack(prefix: string, j: Json, suffix: string)
    requires j.Object? && '{' !in prefix
    ensures var text := prefix + Text(j) + suffix;
      Found(text).Some? && var (start, end) := Found(text).value;
      start <= end <= |text| && text[start..end] == Text(j)
  {
    ObjectIsFound(prefix, j, suffix);
  }

  /** Whatever is extracted begins at the first opening brace and ends with a closing one. */
  lemma FoundIsBraced(text: string)
    requires Found(text).Some?
    ensures var (start, end) := Found(text).value;
      start < end <= |text| && text[start] == '{' && text[end - 1] == '}' && '{' !in text[..start]
  {
    EndIsLater(text, FirstBrace(text), OUTSIDE);
    if FirstBrace(text) < |text| { assert forall c :: c in text[..FirstBrace(text)] ==> c != '{'; }
  }

  /** A second object is not noticed: the first one is taken although it is not the only one. */
  lemma SecondObjectIsIgnored(prefix: string, first: Json, between: string, second: Json, suffix: string)
    requires first.Object? && second.Object? && '{' !in prefix
    ensures Found(prefix + Text(first) + between + Text(second) + suffix) == Some((|prefix|, |prefix| + |Text(first)|))
  {
    ObjectIsFound(prefix, first, between + Text(second) + suffix);
    assert prefix + Text(first) + (between + Text(second) + suffix) == prefix + Text(first) + between + Text(second) + suffix;
  }
}
