/** The splitter of concatenated JSON objects: one scan that counts braces outside strings. */
module Splitter {
  import opened Prelude

  /** What the scan knows: `cur` is the input from the last outermost opening brace on. */
  datatype Scan = Scan(depth: int, cur: string, inString: bool, escape: bool, out: seq<string>)

  const INIT := Scan(0, "", false, false, [])

  function Step(st: Scan, ch: char): Scan {
    var seen := st.(cur := st.cur + [ch]);
    if st.escape then seen.(escape := false)
    else if ch == '\\' then seen.(escape := true)
    else if ch == '"' then seen.(inString := !st.inString)
    else if st.inString then seen
    else if ch == '{' then
      if st.depth == 0 then seen.(depth := 1, cur := [ch]) else seen.(depth := st.depth + 1)
    else if ch == '}' then
      seen.(depth := st.depth - 1, out := if st.depth == 1 then st.out + [seen.cur] else st.out)
    else seen
  }

  function Feed(st: Scan, t: string): Scan {
    if t == [] then st else Step(Feed(st, t[..|t| - 1]), t[|t| - 1])
  }

  /** The split, or None for the unbalanced-braces error. */
  function Split(s: string): Option<seq<string>> {
    var end := Feed(INIT, s);
    if end.depth != 0 then None else Some(end.out)
  }

  method ParseConcatenated(s: string) returns (r: Option<seq<string>>)
    ensures r == Split(s)
  {
    var out: seq<string> := [];
    var depth, start, inString, escape := 0, 0, false, false;
    for i := 0 to |s|
      invariant 0 <= start <= i
      invariant Feed(INIT, s[..i]) == Scan(depth, s[start..i], inString, escape, out)
    {
      var ch := s[i];
      assert s[..i + 1][..i] == s[..i];
      assert s[start..i] + [ch] == s[start..i + 1] && s[i..i + 1] == [ch];
      if escape {
        escape := false;
        continue;
      }
      if ch == '\\' {
        escape := true;
        continue;
      }
      if ch == '"' {
        inString := !inString;
        continue;
      }
      if inString {
        continue;
      }
      if ch == '{' {
        if depth == 0 {
          start := i;
        }
        depth := depth + 1;
      } else if ch == '}' {
        depth := depth - 1;
        if depth == 0 {
          out := out + [s[start..i + 1]];
        }
      }
    }
    assert s[..|s|] == s;
    if depth != 0 {
      return None;
    }
    return Some(out);
  }

  // ---------------------------------------------------------------- JSON texts

  /** A character of a JSON string, as written (RFC 8259 section 7). */
  datatype StrChar = Plain(c: char) | Escaped(c: char) | Unicode(h0: char, h1: char, h2: char, h3: char)

  /** JSON values with their layout (RFC 8259 sections 2 to 7): every place where white space
      may stand has a field for it. A literal is a number, true, false or null. */
  datatype Json =
    | Object(ws: string, members: seq<Member>)
    | Array(ws: string, items: seq<Item>)
    | Text(chars: seq<StrChar>)
    | Literal(text: string)

  datatype Member = Member(ws0: string, key: seq<StrChar>, ws1: string, ws2: string, value: Json, ws3: string)

  datatype Item = Item(ws0: string, value: Json, ws1: string)

  predicate Space(t: string) { forall i :: 0 <= i < |t| ==> t[i] in " \t\n\r" }

  predicate Hex(c: char) { '0' <= c <= '9' || 'a' <= c <= 'f' || 'A' <= c <= 'F' }

  /** The characters of numbers and of the three names. */
  predicate LiteralChar(c: char) { '0' <= c <= '9' || 'a' <= c <= 'z' || c in "+-.E" }

  predicate GoodChar(x: StrChar) {
    match x
    case Plain(c) => c != '"' && c != '\\' && c >= ' '
    case Escaped(c) => c in "\"\\/bfnrt"
    case Unicode(a, b, c, d) => Hex(a) && Hex(b) && Hex(c) && Hex(d)
  }

  predicate GoodChars(cs: seq<StrChar>) { forall i :: 0 <= i < |cs| ==> GoodChar(cs[i]) }

  predicate Good(v: Json) {
    match v
    case Object(ws, ms) => Space(ws) && forall i :: 0 <= i < |ms| ==> GoodMember(ms[i])
    case Array(ws, xs) => Space(ws) && forall i :: 0 <= i < |xs| ==> GoodItem(xs[i])
    case Text(cs) => GoodChars(cs)
    case Literal(t) => forall i :: 0 <= i < |t| ==> LiteralChar(t[i])
  }

  predicate GoodMember(m: Member) {
    Space(m.ws0) && GoodChars(m.key) && Space(m.ws1) && Space(m.ws2) && Good(m.value) && Space(m.ws3)
  }

  predicate GoodItem(x: Item) { Space(x.ws0) && Good(x.value) && Space(x.ws1) }

  function PrintChar(x: StrChar): string {
    match x
    case Plain(c) => [c]
    case Escaped(c) => ['\\', c]
    case Unicode(a, b, c, d) => ['\\', 'u', a, b, c, d]
  }

  function PrintChars(cs: seq<StrChar>): string {
    if cs == [] then "" else PrintChars(cs[..|cs| - 1]) + PrintChar(cs[|cs| - 1])
  }

  function PrintText(cs: seq<StrChar>): string { ['"'] + PrintChars(cs) + ['"'] }

  function Print(v: Json): string
    decreases v, 1
  {
    match v
    case Object(ws, ms) => ['{'] + Body(v) + ['}']
    case Array(ws, xs) => ['['] + Body(v) + [']']
    case Text(cs) => PrintText(cs)
    case Literal(t) => t
  }

  /** What stands between the brackets of an object or an array. */
  function Body(v: Json): string
    requires v.Object? || v.Array?
    decreases v, 0
  {
    if v.Object? then if v.members == [] then v.ws else Members(v.members)
    else if v.items == [] then v.ws else Items(v.items)
  }

  function Members(ms: seq<Member>): string
    requires ms != []
    decreases ms
  {
    var m := ms[|ms| - 1];
    if |ms| == 1 then PrintMember(m) else Members(ms[..|ms| - 1]) + [','] + PrintMember(m)
  }

  function PrintMember(m: Member): string {
    m.ws0 + PrintText(m.key) + m.ws1 + [':'] + m.ws2 + Print(m.value) + m.ws3
  }

  function Items(xs: seq<Item>): string
    requires xs != []
    decreases xs
  {
    var x := xs[|xs| - 1];
    if |xs| == 1 then PrintItem(x) else Items(xs[..|xs| - 1]) + [','] + PrintItem(x)
  }

  function PrintItem(x: Item): string { x.ws0 + Print(x.value) + x.ws1 }

  /** Objects back to back, each after some white space. */
  datatype Spaced = Spaced(gap: string, json: Json)

  predicate GoodStream(os: seq<Spaced>) {
    forall i :: 0 <= i < |os| ==> Space(os[i].gap) && os[i].json.Object? && Good(os[i].json)
  }

  function PrintStream(os: seq<Spaced>): string {
    if os == [] then ""
    else PrintStream(os[..|os| - 1]) + os[|os| - 1].gap + Print(os[|os| - 1].json)
  }

  function Printed(os: seq<Spaced>): seq<string> {
    if os == [] then [] else Printed(os[..|os| - 1]) + [Print(os[|os| - 1].json)]
  }
}
