/**
 * The verbatim JSON arrays that EAP-NOOB hashes and authenticates
 * (services/eap-noob/mac.go). Entries are JSON texts copied byte for byte from
 * the exchanged messages, so the array is a plain concatenation. The main result
 * is that this concatenation is injective: equal arrays mean equal entries.
 */
module Transcript {

  // ---- JSON texts (RFC 8259, section 2), with their free whitespace ----

  datatype Item =
    | Plain(c: char)
    | Escape(c: char)          // \" \\ \/ \b \f \n \r \t
    | Unicode(hex: string)     // \uXXXX

  datatype Json =
    | Literal(text: string)    // null, true, false
    | Number(text: string)
    | Str(items: seq<Item>)
    | Arr(blank: string, elems: seq<Element>)
    | Obj(blank: string, members: seq<Member>)

  datatype Element = Element(before: string, value: Json, after: string)

  datatype Member = Member(keyBefore: string, key: seq<Item>, keyAfter: string, value: Element)

  predicate Blank(s: string) {
    forall k | 0 <= k < |s| :: s[k] == ' ' || s[k] == '\t' || s[k] == '\n' || s[k] == '\r'
  }

  predicate NumberText(s: string) {
    && s != ""
    && forall k | 0 <= k < |s| ::
       '0' <= s[k] <= '9' || s[k] == '-' || s[k] == '+' || s[k] == '.' || s[k] == 'e' || s[k] == 'E'
  }

  predicate ItemOk(i: Item) {
    match i
    case Plain(c) => c != '"' && c != '\\'
    case Escape(c) => c in "\"\\/bfnrt"
    case Unicode(hex) =>
      |hex| == 4 && forall k | 0 <= k < 4 :: '0' <= hex[k] <= '9' || 'a' <= hex[k] <= 'f' || 'A' <= hex[k] <= 'F'
  }

  predicate JsonOk(j: Json) {
    match j
    case Literal(text) => text == "null" || text == "true" || text == "false"
    case Number(text) => NumberText(text)
    case Str(items) => forall i | i in items :: ItemOk(i)
    case Arr(blank, elems) =>
      Blank(blank) && forall e | e in elems :: Blank(e.before) && JsonOk(e.value) && Blank(e.after)
    case Obj(blank, members) => Blank(blank) && forall m | m in members :: MemberOk(m)
  }

  predicate MemberOk(m: Member) {
    && Blank(m.keyBefore) && (forall i | i in m.key :: ItemOk(i)) && Blank(m.keyAfter)
    && Blank(m.value.before) && JsonOk(m.value.value) && Blank(m.value.after)
  }

  function ItemText(i: Item): string {
    match i
    case Plain(c) => [c]
    case Escape(c) => ['\\', c]
    case Unicode(hex) => "\\u" + hex
  }

  function ItemsText(items: seq<Item>): string {
    if items == [] then "" else ItemText(items[0]) + ItemsText(items[1..])
  }

  function StrText(items: seq<Item>): string {
    "\"" + ItemsText(items) + "\""
  }

  function JsonText(j: Json): string
    decreases j
  {
    match j
    case Literal(text) => text
    case Number(text) => text
    case Str(items) => StrText(items)
    case Arr(blank, elems) => "[" + blank + ElemsText(j, elems) + "]"
    case Obj(blank, members) => "{" + blank + MembersText(j, members) + "}"
  }

  function ElemsText(j: Json, elems: seq<Element>): string
    requires forall e | e in elems :: e.value < j
    decreases j, |elems|
  {
    if elems == [] then ""
    else
      var e := elems[0];
      e.before + JsonText(e.value) + e.after + (if |elems| == 1 then "" else "," + ElemsText(j, elems[1..]))
  }

  function MembersText(j: Json, members: seq<Member>): string
    requires forall m | m in members :: m.value.value < j
    decreases j, |members|
  {
    if members == [] then ""
    else
      var m := members[0];
      m.keyBefore + StrText(m.key) + m.keyAfter + ":" +
      m.value.before + JsonText(m.value.value) + m.value.after +
      (if |members| == 1 then "" else "," + MembersText(j, members[1..]))
  }

  /** One well-formed JSON value, the only thing a decoded field can be when present. */
  ghost predicate WellFormed(text: string) {
    exists j: Json :: JsonOk(j) && JsonText(j) == text
  }

  // ---- A scanner that stops where an array entry must end ----

  datatype Mode = Outside | Inside | Escaped

  datatype Scan = Stopped | Scan(depth: nat, mode: Mode)

  /** One character; `Stopped` on a comma or a closing bracket at depth 0. */
  function Step(s: Scan, c: char): Scan {
    match s
    case Stopped => Stopped
    case Scan(d, Inside) => Scan(d, if c == '"' then Outside else if c == '\\' then Escaped else Inside)
    case Scan(d, Escaped) => Scan(d, Inside)
    case Scan(d, Outside) =>
      if c == '"' then Scan(d, Inside)
      else if c == '[' || c == '{' then Scan(d + 1, Outside)
      else if c == ']' || c == '}' then (if d == 0 then Stopped else Scan(d - 1, Outside))
      else if c == ',' && d == 0 then Stopped
      else s
  }

  function Run(s: Scan, text: string): Scan
    decreases |text|
  {
    if text == "" then s else Run(Step(s, text[0]), text[1..])
  }

  lemma {:induction false} RunConcat(s: Scan, a: string, b: string)
    ensures Run(s, a + b) == Run(Run(s, a), b)
    decreases |a|
  {
    if a == "" {
      assert a + b == b;
    } else {
      assert (a + b)[1..] == a[1..] + b;
      RunConcat(Step(s, a[0]), a[1..], b);
    }
  }

  lemma {:induction false} RunStopped(text: string)
    ensures Run(Stopped, text) == Stopped
  {
    if text != "" { RunStopped(text[1..]); }
  }

  predicate Inert(c: char) {
    c != '"' && c != '[' && c != ']' && c != '{' && c != '}' && c != ','
  }

  /** Text without structural characters leaves the scanner where it was. */
  lemma {:induction false} RunInert(s: Scan, text: string)
    requires s.Scan? && s.mode == Outside
    requires forall k | 0 <= k < |text| :: Inert(text[k])
    ensures Run(s, text) == s
    decreases |text|
  {
    if text != "" { RunInert(s, text[1..]); }
  }

  lemma RunItem(d: nat, i: Item)
    requires ItemOk(i)
    ensures Run(Scan(d, Inside), ItemText(i)) == Scan(d, Inside)
  {
    var s, t := Scan(d, Inside), ItemText(i);
    match i
    case Plain(c) =>
      assert t[1..] == "";
    case Escape(c) =>
      RunConcat(s, "\\", [c]);
      assert t == "\\" + [c] && "\\"[1..] == "" && [c][1..] == "";
    case Unicode(hex) =>
      RunConcat(s, "\\u", hex);
      assert "\\u"[1..] == "u" && "u"[1..] == "";
      RunHex(d, hex);
  }

  lemma {:induction false} RunItems(d: nat, items: seq<Item>)
    requires forall i | i in items :: ItemOk(i)
    ensures Run(Scan(d, Inside), ItemsText(items)) == Scan(d, Inside)
  {
    if items != [] {
      var s, t := Scan(d, Inside), ItemText(items[0]);
      RunItem(d, items[0]);
      RunConcat(s, t, ItemsText(items[1..]));
      RunItems(d, items[1..]);
    }
  }

  lemma {:induction false} RunHex(d: nat, h: string)
    requires forall k | 0 <= k < |h| :: h[k] != '"' && h[k] != '\\'
    ensures Run(Scan(d, Inside), h) == Scan(d, Inside)
  {
    if h != "" { RunHex(d, h[1..]); }
  }

  lemma RunStr(d: nat, items: seq<Item>)
    requires forall i | i in items :: ItemOk(i)
    ensures Run(Scan(d, Outside), StrText(items)) == Scan(d, Outside)
  {
    var body := ItemsText(items);
    assert StrText(items)[1..] == body + "\"";
    RunConcat(Scan(d, Inside), body, "\"");
    RunItems(d, items);
    assert Run(Scan(d, Inside), "\"") == Run(Scan(d, Outside), "");
  }

  /** A JSON text is swallowed whole, at any depth, whatever it contains. */
  lemma {:induction false} RunJson(d: nat, j: Json)
    requires JsonOk(j)
    ensures Run(Scan(d, Outside), JsonText(j)) == Scan(d, Outside)
    decreases j, 1, 0
  {
    var s := Scan(d, Outside);
    match j
    case Literal(text) => RunInert(s, text);
    case Number(text) => RunInert(s, text);
    case Str(items) => RunStr(d, items);
    case Arr(blank, elems) =>
      RunElems(d + 1, j, elems);
      RunBracketed(d, '[', blank, ElemsText(j, elems), ']');
      assert JsonText(j) == ['['] + blank + ElemsText(j, elems) + [']'];
    case Obj(blank, members) =>
      RunMembers(d + 1, j, members);
      RunBracketed(d, '{', blank, MembersText(j, members), '}');
      assert JsonText(j) == ['{'] + blank + MembersText(j, members) + ['}'];
  }

  lemma RunBracketed(d: nat, open: char, blank: string, body: string, close: char)
    requires (open == '[' && close == ']') || (open == '{' && close == '}')
    requires Blank(blank) && Run(Scan(d + 1, Outside), body) == Scan(d + 1, Outside)
    ensures Run(Scan(d, Outside), [open] + blank + body + [close]) == Scan(d, Outside)
  {
    var s, up := Scan(d, Outside), Scan(d + 1, Outside);
    RunInert(up, blank);
    RunConcat(s, [open], blank);
    RunConcat(s, [open] + blank, body);
    RunConcat(s, [open] + blank + body, [close]);
    assert [open][1..] == "" && [close][1..] == "";
  }

  lemma {:induction false} RunElement(d: nat, e: Element, rest: string)
    requires Blank(e.before) && JsonOk(e.value) && Blank(e.after)
    ensures Run(Scan(d, Outside), e.before + JsonText(e.value) + e.after + rest) == Run(Scan(d, Outside), rest)
    decreases e.value, 2, 0
  {
    var s := Scan(d, Outside);
    var v := JsonText(e.value);
    RunInert(s, e.before);
    RunJson(d, e.value);
    RunInert(s, e.after);
    RunConcat(s, e.before, v);
    RunConcat(s, e.before + v, e.after);
    RunConcat(s, e.before + v + e.after, rest);
  }

  lemma {:induction false} RunElems(d: nat, j: Json, elems: seq<Element>)
    requires d > 0
    requires forall e | e in elems :: e.value < j && Blank(e.before) && JsonOk(e.value) && Blank(e.after)
    ensures Run(Scan(d, Outside), ElemsText(j, elems)) == Scan(d, Outside)
    decreases j, 0, |elems|
  {
    if elems != [] {
      var rest := if |elems| == 1 then "" else "," + ElemsText(j, elems[1..]);
      RunElement(d, elems[0], rest);
      if |elems| > 1 {
        assert rest[1..] == ElemsText(j, elems[1..]);
        RunElems(d, j, elems[1..]);
      }
    }
  }

  lemma RunKey(d: nat, m: Member)
    requires MemberOk(m)
    ensures Run(Scan(d, Outside), m.keyBefore + StrText(m.key) + m.keyAfter + ":") == Scan(d, Outside)
  {
    var s, k := Scan(d, Outside), StrText(m.key);
    RunInert(s, m.keyBefore);
    RunStr(d, m.key);
    RunInert(s, m.keyAfter);
    RunInert(s, ":");
    RunConcat(s, m.keyBefore, k);
    RunConcat(s, m.keyBefore + k, m.keyAfter);
    RunConcat(s, m.keyBefore + k + m.keyAfter, ":");
  }

  lemma {:induction false} RunMembers(d: nat, j: Json, members: seq<Member>)
    requires d > 0
    requires forall m | m in members :: m.value.value < j && MemberOk(m)
    ensures Run(Scan(d, Outside), MembersText(j, members)) == Scan(d, Outside)
    decreases j, 0, |members|, 1
  {
    if members != [] {
      var s, m := Scan(d, Outside), members[0];
      var rest := if |members| == 1 then "" else "," + MembersText(j, members[1..]);
      var value := m.value.before + JsonText(m.value.value) + m.value.after + rest;
      var key := m.keyBefore + StrText(m.key) + m.keyAfter + ":";
      assert MembersText(j, members) == key + value;
      RunKey(d, m);
      RunConcat(s, key, value);
      RunElement(d, m.value, rest);
      RunMembersRest(d, j, members);
    }
  }

  lemma {:induction false} RunMembersRest(d: nat, j: Json, members: seq<Member>)
    requires d > 0 && members != []
    requires forall m | m in members :: m.value.value < j && MemberOk(m)
    ensures Run(Scan(d, Outside), if |members| == 1 then "" else "," + MembersText(j, members[1..])) == Scan(d, Outside)
    decreases j, 0, |members|, 0
  {
    if |members| > 1 {
      RunMembers(d, j, members[1..]);
      var rest := "," + MembersText(j, members[1..]);
      assert rest[1..] == MembersText(j, members[1..]);
    }
  }

  /** Two JSON texts that are each followed by a delimiter cannot overlap unequally. */
  lemma SelfDelimiting(a: string, b: string, x: string, y: string)
    requires WellFormed(a) && WellFormed(b)
    requires x != "" && (x[0] == ',' || x[0] == ']') && y != "" && (y[0] == ',' || y[0] == ']')
    requires a + x == b + y
    ensures a == b && x == y
  {
    if |a| < |b| {
      NotPrefix(a, b, x, y);
    } else if |b| < |a| {
      NotPrefix(b, a, y, x);
    } else {
      assert a == (a + x)[..|a|] == (b + y)[..|b|] == b;
      assert x == (a + x)[|a|..] == (b + y)[|b|..] == y;
    }
  }

  lemma NotPrefix(a: string, b: string, x: string, y: string)
    requires WellFormed(a) && WellFormed(b)
    requires x != "" && (x[0] == ',' || x[0] == ']')
    requires a + x == b + y
    ensures |b| <= |a|
  {
    if |a| < |b| {
      var s := Scan(0, Outside);
      var ja, jb :| JsonOk(ja) && JsonText(ja) == a && JsonOk(jb) && JsonText(jb) == b;
      RunJson(0, ja);
      RunJson(0, jb);
      assert b == (b + y)[..|b|] == (a + x)[..|b|] == a + x[..|b| - |a|];
      var tail := x[..|b| - |a|];
      RunConcat(s, a, tail);
      RunStopped(tail[1..]);
    }
  }

  // ---- jsonArray ----

  /** An absent entry is written as the empty JSON string (mac.go:42). */
  function Entry(e: string): string {
    if e == "" then "\"\"" else e
  }

  function Joined(elems: seq<string>): string {
    if elems == [] then ""
    else if |elems| == 1 then Entry(elems[0])
    else Joined(elems[..|elems| - 1]) + "," + Entry(elems[|elems| - 1])
  }

  function ArrayText(elems: seq<string>): string {
    "[" + Joined(elems) + "]"
  }

  method JsonArray(elems: seq<string>) returns (buf: string)
    ensures buf == ArrayText(elems)
  {
    buf := "[";
    for i := 0 to |elems|
      invariant buf == "[" + Joined(elems[..i])
    {
      if i > 0 {
        buf := buf + ",";
      }
      if elems[i] == "" {
        buf := buf + "\"\"";
      } else {
        buf := buf + elems[i];
      }
      assert elems[..i + 1][..i] == elems[..i];
    }
    assert elems[..|elems|] == elems;
    buf := buf + "]";
  }

  /** A field as stored: absent, or one JSON value. */
  ghost predicate Field(e: string) {
    e == "" || WellFormed(e)
  }

  /** The rest of the array from entry `k` on, closing bracket included. */
  function Tail(elems: seq<string>, k: nat): string
    requires k <= |elems|
    decreases |elems| - k
  {
    if k == |elems| then "]" else Entry(elems[k]) + Rest(elems, k + 1)
  }

  function Rest(elems: seq<string>, k: nat): (r: string)
    requires k <= |elems|
    ensures r != "" && (r[0] == ',' || r[0] == ']')
    decreases |elems| - k
  {
    if k == |elems| then "]" else "," + (Entry(elems[k]) + Rest(elems, k + 1))
  }

  lemma {:induction false} JoinedTail(elems: seq<string>, k: nat)
    requires 0 < k <= |elems|
    ensures Joined(elems) + "]" == Joined(elems[..k]) + Rest(elems, k)
    decreases |elems| - k
  {
    if k == |elems| {
      assert elems[..k] == elems;
    } else {
      JoinedTail(elems, k + 1);
      var init, last := Joined(elems[..k]), Entry(elems[k]);
      var rest := Rest(elems, k + 1);
      assert elems[..k + 1][..k] == elems[..k];
      assert Joined(elems[..k + 1]) == init + "," + last;
      assert init + "," + last + rest == init + ("," + (last + rest));
    }
  }

  lemma ArrayTail(elems: seq<string>)
    ensures ArrayText(elems) == "[" + Tail(elems, 0)
  {
    if elems != [] {
      JoinedTail(elems, 1);
      assert elems[..1] == [elems[0]];
    }
  }

  lemma EntryWellFormed(e: string)
    requires Field(e)
    ensures WellFormed(Entry(e)) && Entry(e) != "" && Entry(e)[0] != ']'
  {
    if e == "" {
      assert JsonText(Str([])) == "\"\"" && JsonOk(Str([]));
    } else {
      var j :| JsonOk(j) && JsonText(j) == e;
    }
  }

  lemma {:induction false} RestInjective(a: seq<string>, b: seq<string>, k: nat)
    requires k <= |a| && k <= |b|
    requires forall i | k <= i < |a| :: Field(a[i])
    requires forall i | k <= i < |b| :: Field(b[i])
    requires Rest(a, k) == Rest(b, k)
    ensures |a| == |b| && forall i | k <= i < |a| :: Entry(a[i]) == Entry(b[i])
    decreases |a| - k
  {
    if k < |a| && k < |b| {
      assert Entry(a[k]) + Rest(a, k + 1) == Rest(a, k)[1..] == Rest(b, k)[1..] == Entry(b[k]) + Rest(b, k + 1);
      EntryWellFormed(a[k]);
      EntryWellFormed(b[k]);
      SelfDelimiting(Entry(a[k]), Entry(b[k]), Rest(a, k + 1), Rest(b, k + 1));
      RestInjective(a, b, k + 1);
    }
  }

  lemma TailInjective(a: seq<string>, b: seq<string>)
    requires forall i | 0 <= i < |a| :: Field(a[i])
    requires forall i | 0 <= i < |b| :: Field(b[i])
    requires Tail(a, 0) == Tail(b, 0)
    ensures |a| == |b| && forall i | 0 <= i < |a| :: Entry(a[i]) == Entry(b[i])
  {
    if a == [] || b == [] {
      if a != [] { EntryWellFormed(a[0]); }
      if b != [] { EntryWellFormed(b[0]); }
    } else {
      EntryWellFormed(a[0]);
      EntryWellFormed(b[0]);
      SelfDelimiting(Entry(a[0]), Entry(b[0]), Rest(a, 1), Rest(b, 1));
      RestInjective(a, b, 1);
    }
  }

  /**
   * The encoding is injective: lists of well-formed entries give the same bytes
   * exactly when they have the same length and agree entry by entry, an absent
   * entry counting as the empty JSON string it is written as.
   */
  lemma ArrayInjective(a: seq<string>, b: seq<string>)
    requires forall i | 0 <= i < |a| :: Field(a[i])
    requires forall i | 0 <= i < |b| :: Field(b[i])
    ensures ArrayText(a) == ArrayText(b) <==> |a| == |b| && forall i | 0 <= i < |a| :: Entry(a[i]) == Entry(b[i])
  {
    ArrayTail(a);
    ArrayTail(b);
    if ArrayText(a) == ArrayText(b) {
      assert Tail(a, 0) == ArrayText(a)[1..] == ArrayText(b)[1..] == Tail(b, 0);
      TailInjective(a, b);
    } else if |a| == |b| && forall i | 0 <= i < |a| :: Entry(a[i]) == Entry(b[i]) {
      if a != [] { SameRest(a, b, 1); }
    }
  }

  lemma {:induction false} SameRest(a: seq<string>, b: seq<string>, k: nat)
    requires |a| == |b| && k <= |a| && forall i | 0 <= i < |a| :: Entry(a[i]) == Entry(b[i])
    ensures Rest(a, k) == Rest(b, k)
    decreases |a| - k
  {
    if k < |a| { SameRest(a, b, k + 1); }
  }

  /** Present entries are recovered verbatim: the case of two fully populated transcripts. */
  lemma VerbatimInjective(a: seq<string>, b: seq<string>)
    requires forall i | 0 <= i < |a| :: WellFormed(a[i])
    requires forall i | 0 <= i < |b| :: WellFormed(b[i])
    requires ArrayText(a) == ArrayText(b)
    ensures a == b
  {
    ArrayInjective(a, b);
    forall i | 0 <= i < |a| ensures a[i] == b[i] {
      assert Entry(a[i]) == Entry(b[i]);
      NonEmpty(a[i]);
      NonEmpty(b[i]);
    }
  }

  lemma NonEmpty(e: string)
    requires WellFormed(e)
    ensures e != ""
  {
    var j :| JsonOk(j) && JsonText(j) == e;
  }
}
