/**
 * The completion detector of services/lmstudio-proxy/affinity.go: a reader that
 * watches a response body in whatever chunks the network delivers and decides, at
 * the end of the body, whether a streaming response carried its terminal marker.
 * `trim` is bytes.TrimSpace.
 */
module Sse {
  const DONE := "data: [DONE]"
  const MAX_LINE := 65536

  type Trim = string -> string

  /** What the reader has seen: the unfinished line, the marker, and content after the marker. */
  datatype Reader = Reader(line: string, done: bool, invalid: bool, complete: bool)

  const NEW_READER := Reader("", false, false, false)

  /** inspectLine. */
  function Inspect(trim: Trim, r: Reader, line: string): Reader {
    var t := trim(line);
    if t == "" then r
    else if r.done then r.(invalid := true)
    else if t == DONE then r.(done := true)
    else r
  }

  function NewlineAt(s: string): (i: nat)
    ensures i <= |s| && (i < |s| ==> s[i] == '\n') && forall k | 0 <= k < i :: s[k] != '\n'
  {
    if s == "" || s[0] == '\n' then 0 else 1 + NewlineAt(s[1..])
  }

  /** The loop of observe over the buffered text. */
  function Drain(trim: Trim, r: Reader, text: string): Reader
    decreases |text|
  {
    var end := NewlineAt(text);
    if end < |text| then Drain(trim, Inspect(trim, r, text[..end]), text[end + 1..])
    else if |text| > MAX_LINE then r.(line := "", invalid := r.invalid || r.done)
    else r.(line := text)
  }

  function Observe(trim: Trim, r: Reader, chunk: string): Reader {
    Drain(trim, r, r.line + chunk)
  }

  function ObserveAll(trim: Trim, chunks: seq<string>): Reader {
    if chunks == [] then NEW_READER else Observe(trim, ObserveAll(trim, chunks[..|chunks| - 1]), chunks[|chunks| - 1])
  }

  /** Read at end of file, for a streaming response. */
  function AtEof(trim: Trim, r: Reader): Reader {
    var s := Inspect(trim, r, r.line);
    s.(complete := s.done && !s.invalid)
  }

  // ---- Lines of a whole body ----

  /** The text between newlines; the last entry is what follows the last newline. */
  function Lines(s: string): (l: seq<string>)
    ensures l != []
    decreases |s|
  {
    var end := NewlineAt(s);
    if end < |s| then [s[..end]] + Lines(s[end + 1..]) else [s]
  }

  function Last(l: seq<string>): string
    requires l != []
  {
    l[|l| - 1]
  }

  function Front(l: seq<string>): seq<string>
    requires l != []
  {
    l[..|l| - 1]
  }

  function Join(chunks: seq<string>): string {
    if chunks == [] then "" else Join(chunks[..|chunks| - 1]) + chunks[|chunks| - 1]
  }

  function InspectAll(trim: Trim, r: Reader, lines: seq<string>): Reader
    decreases |lines|
  {
    if lines == [] then r else InspectAll(trim, Inspect(trim, r, lines[0]), lines[1..])
  }

  lemma {:induction false} InspectKeepsLine(trim: Trim, r: Reader, lines: seq<string>, text: string)
    ensures InspectAll(trim, r.(line := text), lines) == InspectAll(trim, r, lines).(line := text)
    decreases |lines|
  {
    if lines != [] {
      assert Inspect(trim, r.(line := text), lines[0]) == Inspect(trim, r, lines[0]).(line := text);
      InspectKeepsLine(trim, Inspect(trim, r, lines[0]), lines[1..], text);
    }
  }

  lemma {:induction false} InspectConcat(trim: Trim, r: Reader, a: seq<string>, b: seq<string>)
    ensures InspectAll(trim, r, a + b) == InspectAll(trim, InspectAll(trim, r, a), b)
    decreases |a|
  {
    if a == [] {
      assert a + b == b;
    } else {
      assert (a + b)[0] == a[0] && (a + b)[1..] == a[1..] + b;
      InspectConcat(trim, Inspect(trim, r, a[0]), a[1..], b);
    }
  }

  /** Draining a text inspects its finished lines and keeps the rest, if the rest is not too long. */
  lemma {:induction false} DrainLines(trim: Trim, r: Reader, text: string)
    requires |Last(Lines(text))| <= MAX_LINE
    ensures Drain(trim, r, text) == InspectAll(trim, r, Front(Lines(text))).(line := Last(Lines(text)))
    decreases |text|
  {
    var end := NewlineAt(text);
    if end < |text| {
      var rest := Lines(text[end + 1..]);
      assert Lines(text) == [text[..end]] + rest;
      assert Last(Lines(text)) == Last(rest) && Front(Lines(text)) == [text[..end]] + Front(rest);
      DrainLines(trim, Inspect(trim, r, text[..end]), text[end + 1..]);
    }
  }

  /** Appending to a text leaves its first finished line alone. */
  lemma AppendAfterLine(a: string, b: string)
    requires NewlineAt(a) < |a|
    ensures var end := NewlineAt(a);
            Lines(a + b) == [a[..end]] + Lines(a[end + 1..] + b)
  {
    var s, end := a + b, NewlineAt(a);
    assert forall k | 0 <= k < end :: s[k] == a[k];
    NewlineIs(s, end);
    assert s[end + 1..] == a[end + 1..] + b && s[..end] == a[..end];
  }

  lemma ConsEnds(x: string, l: seq<string>)
    requires l != []
    ensures Front([x] + l) == [x] + Front(l) && Last([x] + l) == Last(l)
  {
  }

  /** Appending to a text extends its last line. */
  lemma {:induction false} LinesAppend(a: string, b: string)
    ensures Lines(a + b) == Front(Lines(a)) + Lines(Last(Lines(a)) + b)
    decreases |a|
  {
    var end := NewlineAt(a);
    if end < |a| {
      var rest := a[end + 1..];
      LinesAppend(rest, b);
      AppendAfterLine(a, b);
      ConsEnds(a[..end], Lines(rest));
      ConcatAssoc([a[..end]], Front(Lines(rest)), Lines(Last(Lines(rest)) + b));
    } else {
      assert Front(Lines(a)) == [] && Last(Lines(a)) == a;
    }
  }

  lemma ConcatAssoc(a: seq<string>, b: seq<string>, c: seq<string>)
    ensures a + (b + c) == a + b + c
  {
  }

  lemma NewlineIs(s: string, k: nat)
    requires k < |s| && s[k] == '\n' && forall j | 0 <= j < k :: s[j] != '\n'
    ensures NewlineAt(s) == k
  {
  }

  predicate ShortLines(s: string) {
    forall k | 0 <= k < |Lines(s)| :: |Lines(s)[k]| <= MAX_LINE
  }

  /** A prefix of a body of short lines has short lines. */
  lemma ShortPrefix(a: string, b: string)
    requires ShortLines(a + b)
    ensures ShortLines(a)
  {
    LinesAppend(a, b);
    var f, l := Front(Lines(a)), Last(Lines(a));
    var all := Lines(a + b);
    assert all == f + Lines(l + b);
    forall k | 0 <= k < |Lines(a)| ensures |Lines(a)[k]| <= MAX_LINE {
      if k < |f| {
        assert all[k] == Lines(a)[k];
      } else {
        assert all[|f|] == Lines(l + b)[0];
        FirstLineLonger(l, b);
        NoNewlineInLast(a);
      }
    }
  }

  lemma {:induction false} NoNewlineInLast(s: string)
    ensures NewlineAt(Last(Lines(s))) == |Last(Lines(s))|
    decreases |s|
  {
    var end := NewlineAt(s);
    if end < |s| {
      NoNewlineInLast(s[end + 1..]);
      assert Last(Lines(s)) == Last(Lines(s[end + 1..]));
    }
  }

  lemma FirstLineLonger(l: string, b: string)
    ensures NewlineAt(l) == |l| ==> |Lines(l + b)[0]| >= |l|
  {
    if NewlineAt(l) == |l| {
      var s := l + b;
      assert forall k | 0 <= k < |l| :: s[k] == l[k];
      var end := NewlineAt(s);
      if end < |l| { assert false; }
    }
  }

  /**
   * However a body of short lines is split into reads, the reader has inspected its finished lines and
   * holds the last one.
   */
  lemma {:induction false} ObserveIsLines(trim: Trim, chunks: seq<string>)
    requires ShortLines(Join(chunks))
    ensures var l := Lines(Join(chunks));
            ObserveAll(trim, chunks) == InspectAll(trim, NEW_READER, Front(l)).(line := Last(l))
  {
    if chunks != [] {
      var init, c := chunks[..|chunks| - 1], chunks[|chunks| - 1];
      var s := Join(init);
      ShortPrefix(s, c);
      ObserveIsLines(trim, init);
      var front, last := Front(Lines(s)), Last(Lines(s));
      var r := ObserveAll(trim, init);
      LinesAppend(s, c);
      var tail := Lines(last + c);
      assert Lines(s + c) == front + tail;
      assert Front(Lines(s + c)) == front + Front(tail) && Last(Lines(s + c)) == Last(tail);
      assert |Lines(s + c)[|Lines(s + c)| - 1]| <= MAX_LINE;
      DrainLines(trim, r, last + c);
      InspectConcat(trim, NEW_READER, front, Front(tail));
      InspectKeepsLine(trim, InspectAll(trim, NEW_READER, front), Front(tail), last);
    }
  }

  // ---- What completion means ----

  /** The lines with something on them, trimmed. */
  function NonBlank(trim: Trim, lines: seq<string>): seq<string> {
    if lines == [] then []
    else
      var n := NonBlank(trim, lines[..|lines| - 1]);
      if trim(lines[|lines| - 1]) == "" then n else n + [trim(lines[|lines| - 1])]
  }

  /** The last non-blank line is the marker, and the marker occurs once. */
  predicate EndsWithDone(nb: seq<string>) {
    nb != [] && nb[|nb| - 1] == DONE && DONE !in nb[..|nb| - 1]
  }

  lemma {:induction false} InspectMeans(trim: Trim, lines: seq<string>)
    ensures var r, nb := InspectAll(trim, NEW_READER, lines), NonBlank(trim, lines);
            && (r.done <==> DONE in nb) && (r.done && !r.invalid <==> EndsWithDone(nb)) && (r.invalid ==> r.done)
  {
    if lines != [] {
      var init, last := lines[..|lines| - 1], lines[|lines| - 1];
      InspectMeans(trim, init);
      assert lines == init + [last];
      InspectConcat(trim, NEW_READER, init, [last]);
      assert InspectAll(trim, InspectAll(trim, NEW_READER, init), [last])
        == Inspect(trim, InspectAll(trim, NEW_READER, init), last) by {
        assert [last][1..] == [];
      }
      var nb := NonBlank(trim, init);
      if trim(last) != "" { assert (nb + [trim(last)])[..|nb|] == nb; }
    }
  }

  /**
   * Chunking does not matter: for every body whose lines are at most 64 KiB and every split into
   * reads, the reader is complete at the first end of file exactly when the last non-blank line is
   * the DONE marker and it occurs once.
   */
  lemma ChunkingDoesNotMatter(trim: Trim, chunks: seq<string>)
    requires ShortLines(Join(chunks))
    ensures AtEof(trim, ObserveAll(trim, chunks)).complete <==> EndsWithDone(NonBlank(trim, Lines(Join(chunks))))
  {
    var l := Lines(Join(chunks));
    ObserveIsLines(trim, chunks);
    InspectMeans(trim, l);
    assert l == Front(l) + [Last(l)];
    InspectConcat(trim, NEW_READER, Front(l), [Last(l)]);
    var r := InspectAll(trim, NEW_READER, Front(l));
    assert InspectAll(trim, r, [Last(l)]) == Inspect(trim, r, Last(l)) by { assert [Last(l)][1..] == []; }
    assert Inspect(trim, r.(line := Last(l)), Last(l)) == Inspect(trim, r, Last(l)).(line := Last(l));
  }

  lemma {:induction false} DrainBounded(trim: Trim, r: Reader, text: string)
    ensures |Drain(trim, r, text).line| <= MAX_LINE
    decreases |text|
  {
    var end := NewlineAt(text);
    if end < |text| { DrainBounded(trim, Inspect(trim, r, text[..end]), text[end + 1..]); }
  }

  /** For every body and every split, whatever its lines, at most 64 KiB are held between reads. */
  lemma BufferIsBounded(trim: Trim, chunks: seq<string>)
    ensures |ObserveAll(trim, chunks).line| <= MAX_LINE
  {
    if chunks != [] {
      var r := ObserveAll(trim, chunks[..|chunks| - 1]);
      DrainBounded(trim, r, r.line + chunks[|chunks| - 1]);
    }
  }

  /**
   * A second end of file inspects the held line again: a complete body stays complete exactly when that
   * line is blank.
   */
  lemma SecondEof(trim: Trim, r: Reader)
    requires AtEof(trim, r).complete
    ensures AtEof(trim, AtEof(trim, r)).complete <==> trim(r.line) == ""
  {
  }

  predicate LongBlank(trim: Trim, blank: string) {
    trim(DONE) == DONE && trim(blank) == "" && trim("") == "" && |blank| == MAX_LINE + 1 && NewlineAt(blank) == |blank|
  }

  const MARKED := Reader("", true, false, false)

  lemma LongBlankRead(trim: Trim, blank: string)
    requires LongBlank(trim, blank)
    ensures Drain(trim, MARKED, blank + "\n") == MARKED && Drain(trim, MARKED, blank) == MARKED.(invalid := true)
    ensures Drain(trim, MARKED.(invalid := true), "\n") == MARKED.(invalid := true)
  {
    NewlineIs(blank + "\n", |blank|) by { assert forall j | 0 <= j < |blank| :: (blank + "\n")[j] == blank[j]; }
    assert (blank + "\n")[..|blank|] == blank && (blank + "\n")[|blank| + 1..] == "";
    assert "\n"[..0] == "" && "\n"[1..] == "";
  }

  lemma ObserveOne(trim: Trim, a: string)
    ensures Join([a]) == a && ObserveAll(trim, [a]) == Drain(trim, NEW_READER, a)
  {
    assert [a][..0] == [] && "" + a == a;
  }

  lemma ObserveTwo(trim: Trim, a: string, b: string)
    ensures Join([a, b]) == a + b && ObserveAll(trim, [a, b]) == Observe(trim, Drain(trim, NEW_READER, a), b)
  {
    assert [a, b][..1] == [a];
    ObserveOne(trim, a);
  }

  /** Past 64 KiB the answer does depend on the split: a long blank line after the marker. */
  lemma LongLineDependsOnChunking(trim: Trim, blank: string)
    requires LongBlank(trim, blank)
    ensures var head := DONE + "\n" + blank;
            && Join([head + "\n"]) == Join([head, "\n"])
            && AtEof(trim, ObserveAll(trim, [head + "\n"])).complete
            && !AtEof(trim, ObserveAll(trim, [head, "\n"])).complete
  {
    var head := DONE + "\n" + blank;
    ObserveOne(trim, head + "\n");
    ObserveTwo(trim, head, "\n");
    LongBlankRead(trim, blank);
    DrainDone(trim, blank + "\n");
    DrainDone(trim, blank);
    assert DONE + "\n" + (blank + "\n") == head + "\n";
    assert "" + "\n" == "\n";
  }

  lemma DrainDone(trim: Trim, rest: string)
    requires trim(DONE) == DONE
    ensures Drain(trim, NEW_READER, DONE + "\n" + rest) == Drain(trim, MARKED, rest)
  {
    var text := DONE + "\n" + rest;
    assert |DONE| == 12 && text[12] == '\n' && forall j | 0 <= j < 12 :: text[j] == DONE[j];
    NewlineIs(text, 12);
    assert text[..12] == DONE && text[13..] == rest;
  }

  // ---- The reader ----

  class AffinityBodyReader {
    const requireDone: bool
    var line: string
    var done: bool
    var invalid: bool
    var complete: bool

    ghost function V(): Reader
      reads this
    {
      Reader(line, done, invalid, complete)
    }

    constructor (requireDone: bool)
      ensures V() == NEW_READER && this.requireDone == requireDone
    {
      this.requireDone := requireDone;
      line, done, invalid, complete := "", false, false, false;
    }

    method InspectLine(trim: Trim, text: string)
      modifies this`done, this`invalid
      ensures V() == Inspect(trim, old(V()), text)
    {
      var t := trim(text);
      if t == "" { return; }
      if done {
        invalid := true;
        return;
      }
      if t == DONE { done := true; }
    }

    method ObserveChunk(trim: Trim, chunk: string)
      modifies this`line, this`done, this`invalid
      ensures V() == Observe(trim, old(V()), chunk) && |line| <= MAX_LINE
    {
      ghost var goal := Observe(trim, V(), chunk);
      line := line + chunk;
      DrainIgnoresLine(trim, old(V()), line, line);
      while true
        invariant Drain(trim, V(), line) == goal && complete == old(complete)
        decreases |line|
      {
        var end := NewlineAt(line);
        if end == |line| {
          DrainBounded(trim, V(), line);
          if |line| > MAX_LINE {
            if done { invalid := true; }
            line := "";
          }
          return;
        }
        ghost var was := V();
        InspectLine(trim, line[..end]);
        line := line[end + 1..];
        DrainIgnoresLine(trim, Inspect(trim, was, was.line[..end]), line, line);
      }
    }

    /** Read: `n` bytes arrived as `chunk`, possibly with the end of the body. */
    method Read(trim: Trim, chunk: string, eof: bool)
      modifies this
      ensures var r := if requireDone && chunk != "" then Observe(trim, old(V()), chunk) else old(V());
              V() == if !eof then r else if requireDone then AtEof(trim, r) else r.(complete := true)
    {
      if chunk != "" && requireDone { ObserveChunk(trim, chunk); }
      if eof {
        if requireDone { InspectLine(trim, line); }
        complete := !requireDone || (done && !invalid);
      }
    }
  }

  lemma {:induction false} DrainIgnoresLine(trim: Trim, r: Reader, text: string, held: string)
    ensures Drain(trim, r.(line := held), text) == Drain(trim, r, text)
    decreases |text|
  {
    var end := NewlineAt(text);
    if end < |text| {
      assert Inspect(trim, r.(line := held), text[..end]) == Inspect(trim, r, text[..end]).(line := held);
      DrainIgnoresLine(trim, Inspect(trim, r, text[..end]), text[end + 1..], held);
    }
  }
}
