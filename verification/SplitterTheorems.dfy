/** The splitter inverts the printer of JSON objects, and rejects streams cut inside one. */
module SplitterTheorems {
  import opened Prelude
  import opened Splitter

  lemma {:induction false} FeedConcat(st: Scan, a: string, b: string)
    ensures Feed(st, a + b) == Feed(Feed(st, a), b)
    decreases |b|
  {
    if b == [] {
      assert a + b == a;
    } else {
      var n := |b| - 1;
      assert (a + b)[..|a + b| - 1] == a + b[..n];
      FeedConcat(st, a, b[..n]);
    }
  }

  /** Scanning `t` leads from `st` to `end`, and the depth is never below `d` on the way. */
  predicate Goes(st: Scan, t: string, end: Scan, d: int) {
    Feed(st, t) == end && forall k :: 0 <= k <= |t| ==> Feed(st, t[..k]).depth >= d
  }

  function Seen(st: Scan, t: string): Scan { st.(cur := st.cur + t) }

  /** The text only passes by. */
  predicate Inert(st: Scan, t: string) { Goes(st, t, Seen(st, t), st.depth) }

  predicate Inside(st: Scan) { st.depth >= 1 && !st.inString && !st.escape }

  lemma GoesThen(st: Scan, a: string, mid: Scan, b: string, end: Scan, d: int)
    requires Goes(st, a, mid, d) && Goes(mid, b, end, d)
    ensures Goes(st, a + b, end, d)
  {
    FeedConcat(st, a, b);
    forall k | 0 <= k <= |a + b| ensures Feed(st, (a + b)[..k]).depth >= d {
      if k <= |a| {
        assert (a + b)[..k] == a[..k];
      } else {
        assert (a + b)[..k] == a + b[..k - |a|];
        FeedConcat(st, a, b[..k - |a|]);
      }
    }
  }

  lemma GoesLower(st: Scan, t: string, end: Scan, d: int, lower: int)
    requires Goes(st, t, end, d) && lower <= d
    ensures Goes(st, t, end, lower)
  {}

  lemma GoesOne(st: Scan, c: char, d: int)
    requires st.depth >= d && Step(st, c).depth >= d
    ensures Goes(st, [c], Step(st, c), d)
  {}

  lemma InertThen(st: Scan, a: string, b: string)
    requires Inert(st, a) && Inert(Seen(st, a), b)
    ensures Inert(st, a + b)
  {
    assert st.cur + a + b == st.cur + (a + b);
    GoesThen(st, a, Seen(st, a), b, Seen(st, a + b), st.depth);
  }

  predicate Neutral(c: char) { c != '"' && c != '\\' && c != '{' && c != '}' }

  /** Outside strings, text without quotes, backslashes and braces is inert. */
  lemma {:induction false} NeutralInert(st: Scan, t: string)
    requires !st.inString && !st.escape && forall i :: 0 <= i < |t| ==> Neutral(t[i])
    ensures Inert(st, t)
    decreases |t|
  {
    if t == [] {
      assert st.cur + t == st.cur;
    } else {
      var n := |t| - 1;
      NeutralInert(st, t[..n]);
      GoesOne(Seen(st, t[..n]), t[n], st.depth);
      InertThen(st, t[..n], [t[n]]);
      assert t == t[..n] + [t[n]];
    }
  }

  /** Inside a string only a quote or a backslash matters. */
  lemma {:induction false} QuotedInert(st: Scan, t: string)
    requires st.inString && !st.escape && forall i :: 0 <= i < |t| ==> t[i] != '"' && t[i] != '\\'
    ensures Inert(st, t)
    decreases |t|
  {
    if t == [] {
      assert st.cur + t == st.cur;
    } else {
      var n := |t| - 1;
      QuotedInert(st, t[..n]);
      GoesOne(Seen(st, t[..n]), t[n], st.depth);
      InertThen(st, t[..n], [t[n]]);
      assert t == t[..n] + [t[n]];
    }
  }

  /** A backslash hides the character after it. */
  lemma EscapeInert(st: Scan, c: char)
    requires st.inString && !st.escape
    ensures Inert(st, ['\\', c])
  {
    var mid := Step(st, '\\');
    GoesOne(st, '\\', st.depth);
    GoesOne(mid, c, st.depth);
    GoesThen(st, ['\\'], mid, [c], Step(mid, c), st.depth);
    assert ['\\'] + [c] == ['\\', c];
    assert st.cur + ['\\'] + [c] == st.cur + ['\\', c];
  }

  lemma {:induction false} CharsInert(st: Scan, cs: seq<StrChar>)
    requires st.inString && !st.escape && GoodChars(cs)
    ensures Inert(st, PrintChars(cs))
    decreases |cs|
  {
    if cs == [] {
      QuotedInert(st, "");
    } else {
      var n := |cs| - 1;
      var mid := Seen(st, PrintChars(cs[..n]));
      CharsInert(st, cs[..n]);
      CharInert(mid, cs[n]);
      InertThen(st, PrintChars(cs[..n]), PrintChar(cs[n]));
    }
  }

  lemma CharInert(st: Scan, x: StrChar)
    requires st.inString && !st.escape && GoodChar(x)
    ensures Inert(st, PrintChar(x))
  {
    match x
    case Plain(c) => QuotedInert(st, [c]);
    case Escaped(c) => EscapeInert(st, c);
    case Unicode(a, b, c, d) =>
      EscapeInert(st, 'u');
      QuotedInert(Seen(st, ['\\', 'u']), [a, b, c, d]);
      InertThen(st, ['\\', 'u'], [a, b, c, d]);
      assert ['\\', 'u'] + [a, b, c, d] == PrintChar(x);
  }

  /** Braces, quotes and backslashes inside a string do not disturb the scan. */
  lemma TextInert(st: Scan, cs: seq<StrChar>)
    requires !st.inString && !st.escape && GoodChars(cs)
    ensures Inert(st, PrintText(cs))
  {
    hide Goes, Feed;
    var open := Step(st, '"');
    GoesOne(st, '"', st.depth);
    CharsInert(open, cs);
    var mid := Seen(open, PrintChars(cs));
    GoesThen(st, ['"'], open, PrintChars(cs), mid, st.depth);
    GoesOne(mid, '"', st.depth);
    GoesThen(st, ['"'] + PrintChars(cs), mid, ['"'], Step(mid, '"'), st.depth);
    assert st.cur + ['"'] + PrintChars(cs) + ['"'] == st.cur + PrintText(cs);
  }

  /** Inside an object, every JSON value passes by. */
  lemma {:induction false} ValueInert(st: Scan, v: Json)
    requires Inside(st) && Good(v)
    ensures Inert(st, Print(v))
    decreases v, 1
  {
    match v
    case Object(ws, ms) => BracesInert(st, v);
    case Array(ws, xs) =>
      NeutralInert(st, ['[']);
      BodyInert(Seen(st, ['[']), v);
      InertThen(st, ['['], Body(v));
      NeutralInert(Seen(st, ['['] + Body(v)), [']']);
      InertThen(st, ['['] + Body(v), [']']);
    case Text(cs) => TextInert(st, cs);
    case Literal(t) => NeutralInert(st, t);
  }

  lemma BracedInert(st: Scan, body: string)
    requires Inside(st) && Inert(Step(st, '{'), body)
    ensures Inert(st, ['{'] + body + ['}'])
  {
    var open := Step(st, '{');
    var mid := Seen(open, body);
    GoesLower(open, body, mid, open.depth, st.depth);
    hide Goes, Feed;
    GoesOne(st, '{', st.depth);
    GoesThen(st, ['{'], open, body, mid, st.depth);
    GoesOne(mid, '}', st.depth);
    GoesThen(st, ['{'] + body, mid, ['}'], Step(mid, '}'), st.depth);
    assert st.cur + ['{'] + body + ['}'] == st.cur + (['{'] + body + ['}']);
  }

  lemma {:induction false} BracesInert(st: Scan, v: Json)
    requires Inside(st) && Good(v) && v.Object?
    ensures Inert(st, Print(v))
    decreases v, 0, 1
  {
    hide Goes, Feed;
    BodyInert(Step(st, '{'), v);
    BracedInert(st, Body(v));
  }

  lemma {:induction false} BodyInert(st: Scan, v: Json)
    requires Inside(st) && Good(v) && (v.Object? || v.Array?)
    ensures Inert(st, Body(v))
    decreases v, 0, 0
  {
    if v.Object? {
      if v.members == [] { NeutralInert(st, v.ws); } else { MembersInert(st, v.members); }
    } else {
      if v.items == [] { NeutralInert(st, v.ws); } else { ItemsInert(st, v.items); }
    }
  }

  lemma {:induction false} MembersInert(st: Scan, ms: seq<Member>)
    requires Inside(st) && ms != [] && forall i :: 0 <= i < |ms| ==> GoodMember(ms[i])
    ensures Inert(st, Members(ms))
    decreases ms
  {
    var n := |ms| - 1;
    if n == 0 {
      MemberInert(st, ms[n]);
    } else {
      MembersInert(st, ms[..n]);
      Comma(st, Members(ms[..n]));
      MemberInert(Seen(st, Members(ms[..n]) + [',']), ms[n]);
      InertThen(st, Members(ms[..n]) + [','], PrintMember(ms[n]));
    }
  }

  lemma Comma(st: Scan, t: string)
    requires Inside(st) && Inert(st, t)
    ensures Inert(st, t + [','])
  {
    NeutralInert(Seen(st, t), [',']);
    InertThen(st, t, [',']);
  }

  lemma {:induction false} MemberInert(st: Scan, m: Member)
    requires Inside(st) && GoodMember(m)
    ensures Inert(st, PrintMember(m))
    decreases m
  {
    var t0 := m.ws0 + PrintText(m.key);
    NeutralInert(st, m.ws0);
    TextInert(Seen(st, m.ws0), m.key);
    InertThen(st, m.ws0, PrintText(m.key));
    NeutralInert(Seen(st, t0), m.ws1);
    InertThen(st, t0, m.ws1);
    NeutralInert(Seen(st, t0 + m.ws1), [':']);
    InertThen(st, t0 + m.ws1, [':']);
    var t1 := t0 + m.ws1 + [':'];
    NeutralInert(Seen(st, t1), m.ws2);
    InertThen(st, t1, m.ws2);
    ValueInert(Seen(st, t1 + m.ws2), m.value);
    InertThen(st, t1 + m.ws2, Print(m.value));
    NeutralInert(Seen(st, t1 + m.ws2 + Print(m.value)), m.ws3);
    InertThen(st, t1 + m.ws2 + Print(m.value), m.ws3);
  }

  lemma {:induction false} ItemsInert(st: Scan, xs: seq<Item>)
    requires Inside(st) && xs != [] && forall i :: 0 <= i < |xs| ==> GoodItem(xs[i])
    ensures Inert(st, Items(xs))
    decreases xs
  {
    var n := |xs| - 1;
    if n == 0 {
      ItemInert(st, xs[n]);
    } else {
      ItemsInert(st, xs[..n]);
      Comma(st, Items(xs[..n]));
      ItemInert(Seen(st, Items(xs[..n]) + [',']), xs[n]);
      InertThen(st, Items(xs[..n]) + [','], PrintItem(xs[n]));
    }
  }

  lemma {:induction false} ItemInert(st: Scan, x: Item)
    requires Inside(st) && GoodItem(x)
    ensures Inert(st, PrintItem(x))
    decreases x
  {
    NeutralInert(st, x.ws0);
    ValueInert(Seen(st, x.ws0), x.value);
    InertThen(st, x.ws0, Print(x.value));
    NeutralInert(Seen(st, x.ws0 + Print(x.value)), x.ws1);
    InertThen(st, x.ws0 + Print(x.value), x.ws1);
  }

  // ---------------------------------------------------------------- the results

  predicate Between(st: Scan) { st.depth == 0 && !st.inString && !st.escape }

  lemma FeedOne(st: Scan, c: char)
    ensures Feed(st, [c]) == Step(st, c)
  {}

  /** The depth stays up while inert text is scanned between two braces. */
  lemma CutBraces(st: Scan, body: string, k: nat)
    requires Between(st) && Inert(Step(st, '{'), body) && 0 < k <= |body| + 1
    ensures Feed(st, (['{'] + body)[..k]).depth >= 1
  {
    hide Feed;
    FeedOne(st, '{');
    assert (['{'] + body)[..k] == ['{'] + body[..k - 1];
    FeedConcat(st, ['{'], body[..k - 1]);
  }

  lemma GoesEnds(st: Scan, t: string)
    requires Inert(st, t)
    ensures Feed(st, t) == Seen(st, t)
  {}

  lemma BracesSplit(st: Scan, body: string)
    requires Between(st) && Inert(Step(st, '{'), body)
    ensures var t := ['{'] + body + ['}']; Feed(st, t) == Scan(0, t, false, false, st.out + [t])
  {
    hide Feed, Goes;
    FeedOne(st, '{');
    GoesEnds(Step(st, '{'), body);
    FeedConcat(st, ['{'], body);
    var mid := Seen(Step(st, '{'), body);
    FeedOne(mid, '}');
    FeedConcat(st, ['{'] + body, ['}']);
  }

  /** An object scanned between objects is returned whole; cut short, it leaves a brace open. */
  lemma ObjectSplit(st: Scan, v: Json)
    requires Between(st) && v.Object? && Good(v)
    ensures Feed(st, Print(v)) == Scan(0, Print(v), false, false, st.out + [Print(v)])
    ensures forall k :: 0 < k < |Print(v)| ==> Feed(st, Print(v)[..k]).depth >= 1
  {
    BodyInert(Step(st, '{'), v);
    assert Print(v) == ['{'] + Body(v) + ['}'];
    hide *;
    BracesSplit(st, Body(v));
    forall k | 0 < k < |Print(v)| ensures Feed(st, Print(v)[..k]).depth >= 1 {
      assert Print(v)[..k] == (['{'] + Body(v))[..k];
      CutBraces(st, Body(v), k);
    }
  }

  lemma {:induction false} StreamScanned(os: seq<Spaced>)
    requires GoodStream(os)
    ensures Between(Feed(INIT, PrintStream(os)))
    ensures Feed(INIT, PrintStream(os)).out == Printed(os)
    decreases |os|
  {
    hide Print, Good;
    if os != [] {
      hide Feed;
      var n := |os| - 1;
      var o := os[n];
      StreamScanned(os[..n]);
      SpacedScanned(Feed(INIT, PrintStream(os[..n])), o);
      FeedConcat(INIT, PrintStream(os[..n]), o.gap + Print(o.json));
      StreamLast(os);
    }
  }

  lemma StreamLast(os: seq<Spaced>)
    requires os != []
    ensures PrintStream(os) == PrintStream(os[..|os| - 1]) + (os[|os| - 1].gap + Print(os[|os| - 1].json))
  {}

  lemma SpacedScanned(st: Scan, o: Spaced)
    requires Between(st) && Space(o.gap) && o.json.Object? && Good(o.json)
    ensures var end := Feed(st, o.gap + Print(o.json));
      Between(end) && end.out == st.out + [Print(o.json)]
  {
    hide Print, Good, Feed;
    NeutralInert(st, o.gap);
    ObjectSplit(Seen(st, o.gap), o.json);
    FeedConcat(st, o.gap, Print(o.json));
  }

  /** The splitter inverts the printer: of any JSON objects printed one after another it
      returns exactly the printed texts, in order. */
  lemma SplitInvertsPrint(os: seq<Spaced>, gap: string)
    requires GoodStream(os) && Space(gap)
    ensures Split(PrintStream(os) + gap) == Some(Printed(os))
  {
    StreamScanned(os);
    var st := Feed(INIT, PrintStream(os));
    NeutralInert(st, gap);
    FeedConcat(INIT, PrintStream(os), gap);
  }

  /** A stream that ends inside an object is rejected. */
  lemma CutRejected(os: seq<Spaced>, gap: string, v: Json, k: nat)
    requires GoodStream(os) && Space(gap) && v.Object? && Good(v) && 0 < k < |Print(v)|
    ensures Split(PrintStream(os) + gap + Print(v)[..k]) == None
  {
    StreamScanned(os);
    var st := Feed(INIT, PrintStream(os));
    NeutralInert(st, gap);
    FeedConcat(INIT, PrintStream(os), gap);
    ObjectSplit(Seen(st, gap), v);
    FeedConcat(INIT, PrintStream(os) + gap, Print(v)[..k]);
  }

  datatype Span = Span(from: nat, to: nat)

  /** The texts are pieces of the input, each from an opening brace to a closing one, in order
      and without overlap, ending at or before `limit`. */
  predicate Pieces(s: string, out: seq<string>, spans: seq<Span>, limit: nat) {
    && |spans| == |out| && limit <= |s|
    && (forall j :: 0 <= j < |spans| ==>
          && spans[j].from < spans[j].to <= (if j + 1 < |spans| then spans[j + 1].from else limit)
          && spans[j].to <= |s| && out[j] == s[spans[j].from..spans[j].to]
          && s[spans[j].from] == '{' && s[spans[j].to - 1] == '}')
  }

  predicate Outside(st: Scan) { !st.inString && !st.escape }

  /** Where the last outermost opening brace stands. */
  function Start(s: string): (start: nat)
    ensures start <= |s|
  {
    if s == [] then 0
    else
      var n := |s| - 1;
      var st := Feed(INIT, s[..n]);
      if Outside(st) && s[n] == '{' && st.depth == 0 then n else Start(s[..n])
  }

  /** Where the returned texts stand: each ends at a brace that closes the last open one. */
  function Places(s: string): seq<Span> {
    if s == [] then []
    else
      var n := |s| - 1;
      var st := Feed(INIT, s[..n]);
      Places(s[..n]) + if Outside(st) && s[n] == '}' && st.depth == 1 then [Span(Start(s[..n]), |s|)] else []
  }

  /** An open object starts where `cur` does, after every text returned so far. */
  ghost predicate Sound(s: string) {
    var st := Feed(INIT, s);
    && Pieces(s, st.out, Places(s), if st.depth >= 1 then Start(s) else |s|)
    && (st.depth >= 1 ==> Start(s) < |s| && s[Start(s)] == '{' && st.cur == s[Start(s)..])
  }

  lemma {:induction false} ScanSound(s: string)
    ensures Sound(s)
  {
    if s != [] {
      var n := |s| - 1;
      ScanSound(s[..n]);
      SoundStep(s[..n], s[n]);
      assert s[..n] + [s[n]] == s;
    }
  }

  lemma OneMore(s: string, c: char)
    ensures var st, t := Feed(INIT, s), s + [c];
      && Feed(INIT, t) == Step(st, c)
      && Start(t) == (if Outside(st) && c == '{' && st.depth == 0 then |s| else Start(s))
      && Places(t) == Places(s) + if Outside(st) && c == '}' && st.depth == 1 then [Span(Start(s), |t|)] else []
  {
    assert (s + [c])[..|s|] == s;
  }

  lemma SoundStep(s: string, c: char)
    requires Sound(s)
    ensures Sound(s + [c])
  {
    hide Feed, Start, Places, Pieces;
    OneMore(s, c);
    var st, t := Feed(INIT, s), s + [c];
    var start := Start(s);
    PiecesMore(s, c, st.out, Places(s), if st.depth >= 1 then start else |s|);
    assert Places(s) + [] == Places(s);
    if Outside(st) && c == '}' && st.depth == 1 {
      assert t[start..|t|] == st.cur + [c];
      PiecesAppend(t, st.out, Places(s), start);
    } else if st.depth >= 1 {
      assert t[start..] == s[start..] + [c];
    }
  }

  lemma PiecesAppend(t: string, out: seq<string>, spans: seq<Span>, start: nat)
    requires Pieces(t, out, spans, start) && start < |t| && t[start] == '{' && t[|t| - 1] == '}'
    ensures Pieces(t, out + [t[start..|t|]], spans + [Span(start, |t|)], |t|)
  {
    var out', spans' := out + [t[start..|t|]], spans + [Span(start, |t|)];
    var n := |spans|;
    forall j | 0 <= j < |spans'|
      ensures spans'[j].from < spans'[j].to <= (if j + 1 < |spans'| then spans'[j + 1].from else |t|)
      ensures spans'[j].to <= |t| && out'[j] == t[spans'[j].from..spans'[j].to]
      ensures t[spans'[j].from] == '{' && t[spans'[j].to - 1] == '}'
    {
      if j < n { assert spans'[j] == spans[j] && out'[j] == out[j]; }
      if j + 1 < n { assert spans'[j + 1] == spans[j + 1]; }
    }
  }

  lemma PiecesMore(s: string, c: char, out: seq<string>, spans: seq<Span>, limit: nat)
    requires Pieces(s, out, spans, limit)
    ensures Pieces(s + [c], out, spans, limit)
    ensures Pieces(s + [c], out, spans, |s|) && Pieces(s + [c], out, spans, |s + [c]|)
  {}

  /** Whatever the input, the texts returned are disjoint pieces of it, in order, each from an
      opening brace to a closing one. */
  lemma NothingInvented(s: string)
    requires Split(s).Some?
    ensures Pieces(s, Split(s).value, Places(s), |s|)
  {
    ScanSound(s);
  }

  // ---------------------------------------------------------------- nothing lost

  function DepthAt(s: string, k: nat): int
    requires k <= |s|
  {
    Feed(INIT, s[..k]).depth
  }

  /** A brace that is neither in a string nor escaped. */
  predicate Brace(s: string, i: nat) {
    i < |s| && (s[i] == '{' || s[i] == '}') && Outside(Feed(INIT, s[..i]))
  }

  predicate Covers(p: Span, i: nat) { p.from <= i < p.to }

  predicate Covered(spans: seq<Span>, i: nat) { exists j :: 0 <= j < |spans| && Covers(spans[j], i) }

  predicate InExactlyOne(spans: seq<Span>, i: nat) {
    exists j :: 0 <= j < |spans| && Covers(spans[j], i)
                && forall l :: 0 <= l < |spans| && Covers(spans[l], i) ==> l == j
  }

  /** No prefix closes more braces than it opens. */
  predicate NeverNegative(s: string) { forall k :: 0 <= k <= |s| ==> DepthAt(s, k) >= 0 }

  /** Without a negative prefix, each brace is in a returned text or in the open object. */
  lemma {:induction false} BracesCovered(s: string)
    requires NeverNegative(s)
    ensures forall i: nat :: Brace(s, i) ==>
              Covered(Places(s), i) || (Feed(INIT, s).depth >= 1 && Start(s) <= i)
  {
    if s != [] {
      var n := |s| - 1;
      var t := s[..n];
      assert forall k :: 0 <= k <= n ==> t[..k] == s[..k];
      forall k | 0 <= k <= n ensures DepthAt(t, k) >= 0 { assert DepthAt(s, k) >= 0; }
      BracesCovered(t);
      assert t + [s[n]] == s;
      OneMore(t, s[n]);
      assert DepthAt(s, n) >= 0 && DepthAt(s, n + 1) >= 0 && s[..n + 1] == s;
      hide Feed, Start, Places;
      forall i: nat | Brace(s, i)
        ensures Covered(Places(s), i) || (Feed(INIT, s).depth >= 1 && Start(s) <= i)
      {
        assert i < n ==> Brace(t, i);
        CoveredMore(Feed(INIT, t), s[n], Places(t), Start(t), n, i);
      }
    }
  }

  /** What one more character does to a brace already seen or just arrived. */
  lemma CoveredMore(st: Scan, c: char, spans: seq<Span>, start: nat, n: nat, i: nat)
    requires st.depth >= 0 && start <= n && i <= n
    requires if i < n then Covered(spans, i) || (st.depth >= 1 && start <= i)
             else Outside(st) && (c == '{' || c == '}')
    requires Step(st, c).depth >= 0
    ensures var spans' := spans + if Outside(st) && c == '}' && st.depth == 1 then [Span(start, n + 1)] else [];
      var start' := if Outside(st) && c == '{' && st.depth == 0 then n else start;
      Covered(spans', i) || (Step(st, c).depth >= 1 && start' <= i)
  {
    var spans' := spans + if Outside(st) && c == '}' && st.depth == 1 then [Span(start, n + 1)] else [];
    if i < n && Covered(spans, i) {
      var j :| 0 <= j < |spans| && Covers(spans[j], i);
      assert spans'[j] == spans[j];
    } else if |spans'| > |spans| {
      assert Covers(spans'[|spans|], i);
    }
  }

  /** A returned text is deep inside: above depth 0 until its last brace, which ends at 0. */
  predicate Deep(s: string, p: Span) {
    p.to <= |s| && DepthAt(s, p.to) == 0 && forall k :: p.from < k < p.to ==> DepthAt(s, k) >= 1
  }

  lemma {:induction false} PlacesDeep(s: string)
    ensures forall j :: 0 <= j < |Places(s)| ==> Deep(s, Places(s)[j])
    ensures Feed(INIT, s).depth >= 1 ==> forall k :: Start(s) < k <= |s| ==> DepthAt(s, k) >= 1
  {
    if s != [] {
      var n := |s| - 1;
      var t := s[..n];
      PlacesDeep(t);
      assert t + [s[n]] == s && s[..|s|] == s && t[..n] == t;
      OneMore(t, s[n]);
      hide Feed, Start, Places;
      forall k | 0 <= k <= n ensures DepthAt(t, k) == DepthAt(s, k) { assert t[..k] == s[..k]; }
      assert DepthAt(s, |s|) == Feed(INIT, s).depth && DepthAt(s, n) == Feed(INIT, t).depth;
      forall j | 0 <= j < |Places(s)| ensures Deep(s, Places(s)[j]) {
        if j < |Places(t)| { assert Deep(t, Places(t)[j]); }
      }
    }
  }

  /** The depth first turns negative at a closing brace, and no returned text holds that one. */
  lemma {:induction false} DipIsLost(s: string, k: nat) returns (i: nat)
    requires k <= |s| && DepthAt(s, k) < 0
    ensures Brace(s, i) && !Covered(Places(s), i)
    decreases k
  {
    assert s[..0] == [] && DepthAt(s, 0) == 0;
    if DepthAt(s, k - 1) < 0 {
      i := DipIsLost(s, k - 1);
    } else {
      i := k - 1;
      assert s[..k][..i] == s[..i];
      PlacesDeep(s);
      forall j | 0 <= j < |Places(s)| ensures !Covers(Places(s)[j], i) {
        assert Deep(s, Places(s)[j]);
      }
    }
  }

  lemma {:induction false} InOrder(s: string, out: seq<string>, spans: seq<Span>, limit: nat, j: nat, l: nat)
    requires Pieces(s, out, spans, limit) && j < l < |spans|
    ensures spans[j].to <= spans[l].from
    decreases l
  {
    if j + 1 < l {
      InOrder(s, out, spans, limit, j, l - 1);
      assert spans[l - 1].from < spans[l - 1].to;
    }
  }

  lemma CoveredOnce(s: string, out: seq<string>, spans: seq<Span>, limit: nat, i: nat)
    requires Pieces(s, out, spans, limit) && Covered(spans, i)
    ensures InExactlyOne(spans, i)
  {
    var j :| 0 <= j < |spans| && Covers(spans[j], i);
    forall l | 0 <= l < |spans| && Covers(spans[l], i) ensures l == j {
      if l < j { InOrder(s, out, spans, limit, l, j); }
      if j < l { InOrder(s, out, spans, limit, j, l); }
    }
  }

  /** Of an accepted input nothing is lost, each brace outside strings being in exactly one
      returned text, if and only if no prefix closes more braces than it opens. */
  lemma NothingLostIff(s: string)
    requires Split(s).Some?
    ensures (forall i: nat :: Brace(s, i) ==> InExactlyOne(Places(s), i)) <==> NeverNegative(s)
  {
    if NeverNegative(s) {
      BracesCovered(s);
      NothingInvented(s);
      forall i: nat | Brace(s, i) ensures InExactlyOne(Places(s), i) {
        CoveredOnce(s, Split(s).value, Places(s), |s|, i);
      }
    } else {
      var k: nat :| k <= |s| && DepthAt(s, k) < 0;
      var i := DipIsLost(s, k);
      assert !InExactlyOne(Places(s), i);
    }
  }

  /** Acceptance is weaker than balance: only the final count matters, so a closing brace
      before its opening brace goes unnoticed. */
  lemma CloseBeforeOpenAccepted(between: string)
    requires forall i :: 0 <= i < |between| ==> Neutral(between[i])
    ensures Split(['}'] + between + ['{']) == Some([])
  {
    hide Feed, Goes;
    var mid := Step(INIT, '}');
    FeedOne(INIT, '}');
    NeutralInert(mid, between);
    GoesEnds(mid, between);
    FeedConcat(INIT, ['}'], between);
    FeedOne(Seen(mid, between), '{');
    FeedConcat(INIT, ['}'] + between, ['{']);
  }
}
