/**
 * The completion detector on bodies with lines past 64 KiB. A line that grows past
 * the limit before its newline arrives is dropped, and what follows is read as a
 * line of its own, so the answer can depend on where the reads were split. The set
 * of answers over all splits is computed here line by line, and that set says
 * exactly which bodies get one answer however they are split.
 */
module SseSplits {
  import opened Sse

  datatype Mark = Unmarked | Marked | Spoiled

  function MarkOf(r: Reader): Mark {
    if !r.done then Unmarked else if r.invalid then Spoiled else Marked
  }

  /** What one inspected line does. */
  function See(trim: Trim, q: Mark, line: string): Mark {
    var t := trim(line);
    if t == "" then q else if q != Unmarked then Spoiled else if t == DONE then Marked else q
  }

  /** What a dropped part of a line does. */
  function Lose(q: Mark): Mark {
    if q == Unmarked then Unmarked else Spoiled
  }

  /** Where a line may be cut by dropping what came before. */
  predicate Cut(line: string, d: nat) {
    MAX_LINE < d <= |line|
  }

  /** A finished line is seen whole, or from any cut on. */
  function Sights(trim: Trim, q: Mark, line: string): set<Mark> {
    {See(trim, q, line)} + set d: nat | d <= |line| && Cut(line, d) :: See(trim, Lose(q), line[d..])
  }

  /** An unfinished last line is held, so at most 64 KiB of it are left. */
  function LastSights(trim: Trim, q: Mark, line: string): set<Mark> {
    if |line| <= MAX_LINE then {See(trim, q, line)}
    else set d: nat | d <= |line| && Cut(line, d) && |line| - d <= MAX_LINE :: See(trim, Lose(q), line[d..])
  }

  function After(trim: Trim, qs: set<Mark>, line: string): set<Mark> {
    set q, r | q in qs && r in Sights(trim, q, line) :: r
  }

  function Reach(trim: Trim, lines: seq<string>): set<Mark> {
    if lines == [] then {Unmarked} else After(trim, Reach(trim, lines[..|lines| - 1]), lines[|lines| - 1])
  }

  /** Every answer some split of the body gives. */
  function Answers(trim: Trim, body: string): set<Mark> {
    var l := Lines(body);
    set q, r | q in Reach(trim, Front(l)) && r in LastSights(trim, q, Last(l)) :: r
  }

  lemma InspectMarks(trim: Trim, r: Reader, line: string)
    requires r.invalid ==> r.done
    ensures var r' := Inspect(trim, r, line); (r'.invalid ==> r'.done) && MarkOf(r') == See(trim, MarkOf(r), line)
  {
  }

  // ---- One line at a time ----

  predicate OneLine(s: string) {
    '\n' !in s
  }

  lemma OneLineAt(s: string)
    ensures NewlineAt(s) == |s| <==> OneLine(s)
  {
    if NewlineAt(s) < |s| { assert s[NewlineAt(s)] in s; }
  }

  /** A text is one line, or a line, a newline and the rest. */
  lemma Cleave(text: string) returns (line: string, rest: string)
    requires !OneLine(text)
    ensures OneLine(line) && text == line + "\n" + rest
  {
    OneLineAt(text);
    var end := NewlineAt(text);
    line, rest := text[..end], text[end + 1..];
  }

  lemma NewlineAfter(line: string, rest: string)
    requires OneLine(line)
    ensures var s := line + "\n" + rest; NewlineAt(s) == |line| && s[..|line|] == line && s[|line| + 1..] == rest
  {
    var s := line + "\n" + rest;
    forall k | 0 <= k < |line| ensures s[k] != '\n' { assert s[k] == line[k] && line[k] in line; }
    NewlineIs(s, |line|);
  }

  lemma DrainFinished(trim: Trim, r: Reader, line: string, rest: string)
    requires OneLine(line)
    ensures Drain(trim, r, line + "\n" + rest) == Drain(trim, Inspect(trim, r, line), rest)
  {
    NewlineAfter(line, rest);
  }

  lemma DrainRest(trim: Trim, r: Reader, part: string)
    requires OneLine(part)
    ensures Drain(trim, r, part) == if |part| > MAX_LINE then r.(line := "", invalid := r.invalid || r.done)
            else r.(line := part)
  {
    OneLineAt(part);
  }

  lemma LinesFinished(line: string, rest: string)
    requires OneLine(line)
    ensures Lines(line + "\n" + rest) == [line] + Lines(rest)
  {
    NewlineAfter(line, rest);
  }

  lemma LinesRest(part: string)
    requires OneLine(part)
    ensures Lines(part) == [part]
  {
    OneLineAt(part);
  }

  // ---- Every split gives one of the answers ----

  /** r has read the lines `done` and holds `part`, whole or from a cut on. */
  ghost predicate Holding(trim: Trim, done: seq<string>, part: string, r: Reader) {
    && (r.invalid ==> r.done) && |r.line| <= MAX_LINE
    && exists q | q in Reach(trim, done) :: (r.line == part && MarkOf(r) == q) || LostSome(q, part, r)
  }

  ghost predicate LostSome(q: Mark, part: string, r: Reader) {
    exists d: nat | Cut(part, d) :: r.line == part[d..] && MarkOf(r) == Lose(q)
  }

  lemma ReachNext(trim: Trim, done: seq<string>, line: string, q: Mark, r: Mark)
    requires q in Reach(trim, done) && r in Sights(trim, q, line)
    ensures r in Reach(trim, done + [line])
  {
    assert (done + [line])[..|done|] == done;
  }

  /** After a finished line the reader has one of its sights. */
  lemma FinishedIsSeen(trim: Trim, done: seq<string>, x: string, y: string, q: Mark, r: Reader)
    requires (x == "" || |x| > MAX_LINE) && q in Reach(trim, done)
    requires (r.invalid ==> r.done) && MarkOf(r) == if x == "" then q else Lose(q)
    ensures var r' := Inspect(trim, r, y); (r'.invalid ==> r'.done) && MarkOf(r') in Reach(trim, done + [x + y])
  {
    InspectMarks(trim, r, y);
    var line := x + y;
    assert line[|x|..] == y;
    if x != "" { assert Cut(line, |x|); }
    ReachNext(trim, done, line, q, See(trim, MarkOf(r), y));
  }

  /** At the end of what has arrived, the rest is held or dropped. */
  lemma RestIsHeld(trim: Trim, done: seq<string>, x: string, q: Mark, r: Reader, y: string)
    requires OneLine(y) && (x == "" || |x| > MAX_LINE) && q in Reach(trim, done)
    requires (r.invalid ==> r.done) && MarkOf(r) == if x == "" then q else Lose(q)
    ensures Holding(trim, done, x + y, Drain(trim, r, y))
  {
    DrainRest(trim, r, y);
    var part, r' := x + y, Drain(trim, r, y);
    if |y| > MAX_LINE {
      assert Cut(part, |part|) && part[|part|..] == "";
      assert LostSome(q, part, r');
    } else if x != "" {
      assert Cut(part, |x|) && part[|x|..] == y;
      assert LostSome(q, part, r');
    } else {
      assert part == y;
    }
  }

  /** Draining keeps track: `x` is what was dropped of the current line, nothing or more than 64 KiB. */
  lemma {:induction false} DrainHolds(trim: Trim, done: seq<string>, x: string, q: Mark, r: Reader, text: string)
    requires OneLine(x) && (x == "" || |x| > MAX_LINE) && q in Reach(trim, done)
    requires (r.invalid ==> r.done) && MarkOf(r) == if x == "" then q else Lose(q)
    ensures var l := Lines(x + text); Holding(trim, done + Front(l), Last(l), Drain(trim, r, text))
    decreases |text|
  {
    if OneLine(text) {
      LinesRest(x + text);
      assert done + Front([x + text]) == done;
      RestIsHeld(trim, done, x, q, r, text);
    } else {
      var y, rest := Cleave(text);
      var line, r' := x + y, Inspect(trim, r, y);
      FinishedIsSeen(trim, done, x, y, q, r);
      DrainHolds(trim, done + [line], "", MarkOf(r'), r', rest);
      DrainFinished(trim, r, y, rest);
      LinesOfRest(done, x, y, rest);
    }
  }

  lemma LinesOfRest(done: seq<string>, x: string, y: string, rest: string)
    requires OneLine(x) && OneLine(y)
    ensures var l, m := Lines(x + (y + "\n" + rest)), Lines("" + rest);
            done + Front(l) == done + [x + y] + Front(m) && Last(l) == Last(m)
  {
    assert x + (y + "\n" + rest) == x + y + "\n" + rest && "" + rest == rest;
    LinesFinished(x + y, rest);
    ConsEnds(x + y, Lines(rest));
    ConcatAssoc(done, [x + y], Front(Lines(rest)));
  }

  lemma {:induction false} SplitHolds(trim: Trim, chunks: seq<string>)
    ensures var l := Lines(Join(chunks)); Holding(trim, Front(l), Last(l), ObserveAll(trim, chunks))
  {
    if chunks == [] {
      assert Reach(trim, []) == {Unmarked};
    } else {
      var init, c := chunks[..|chunks| - 1], chunks[|chunks| - 1];
      SplitHolds(trim, init);
      MoreHolds(trim, Join(init), ObserveAll(trim, init), c);
    }
  }

  lemma MoreHolds(trim: Trim, s: string, r: Reader, c: string)
    requires Holding(trim, Front(Lines(s)), Last(Lines(s)), r)
    ensures Holding(trim, Front(Lines(s + c)), Last(Lines(s + c)), Observe(trim, r, c))
  {
    var done, part := Front(Lines(s)), Last(Lines(s));
    NoNewlineInLast(s);
    OneLineAt(part);
    LinesAppend(s, c);
    AppendEnds(done, Lines(part + c));
    HoldingGoesOn(trim, done, part, r, c);
  }

  lemma HoldingGoesOn(trim: Trim, done: seq<string>, part: string, r: Reader, c: string)
    requires OneLine(part) && Holding(trim, done, part, r)
    ensures var l := Lines(part + c); Holding(trim, done + Front(l), Last(l), Observe(trim, r, c))
  {
    var q :| q in Reach(trim, done) && ((r.line == part && MarkOf(r) == q) || LostSome(q, part, r));
    var x := "";
    if !(r.line == part && MarkOf(r) == q) {
      var d: nat :| Cut(part, d) && r.line == part[d..] && MarkOf(r) == Lose(q);
      x := part[..d];
    }
    assert part == x + r.line;
    DrainHolds(trim, done, x, q, r, r.line + c);
    assert x + (r.line + c) == part + c;
  }

  lemma AppendEnds(a: seq<string>, b: seq<string>)
    requires b != []
    ensures Front(a + b) == a + Front(b) && Last(a + b) == Last(b)
  {
  }

  lemma SplitAnswers(trim: Trim, chunks: seq<string>)
    ensures MarkOf(AtEof(trim, ObserveAll(trim, chunks))) in Answers(trim, Join(chunks))
  {
    var r := ObserveAll(trim, chunks);
    var l := Lines(Join(chunks));
    SplitHolds(trim, chunks);
    InspectMarks(trim, r, r.line);
    var q :| q in Reach(trim, Front(l)) && ((r.line == Last(l) && MarkOf(r) == q) || LostSome(q, Last(l), r));
    assert MarkOf(AtEof(trim, r)) in LastSights(trim, q, Last(l));
  }

  // ---- Every answer is some split's ----

  predicate Finished(lines: seq<string>) {
    forall k | 0 <= k < |lines| :: OneLine(lines[k])
  }

  function Text(lines: seq<string>): string {
    if lines == [] then "" else Text(lines[..|lines| - 1]) + lines[|lines| - 1] + "\n"
  }

  lemma {:induction false} BodyIsItsLines(s: string)
    ensures Finished(Lines(s)) && s == Text(Front(Lines(s))) + Last(Lines(s))
    decreases |s|
  {
    if OneLine(s) {
      LinesRest(s);
      assert Front([s]) == [];
    } else {
      var line, rest := Cleave(s);
      BodyIsItsLines(rest);
      LinesFinished(line, rest);
      ConsBody(line, Lines(rest), rest);
    }
  }

  lemma ConsBody(line: string, l: seq<string>, rest: string)
    requires OneLine(line) && l != [] && Finished(l) && rest == Text(Front(l)) + Last(l)
    ensures Finished([line] + l) && line + "\n" + rest == Text(Front([line] + l)) + Last([line] + l)
  {
    ConsEnds(line, l);
    TextCons(line, Front(l));
    assert line + "\n" + (Text(Front(l)) + Last(l)) == line + "\n" + Text(Front(l)) + Last(l);
  }

  lemma {:induction false} TextCons(line: string, lines: seq<string>)
    ensures Text([line] + lines) == line + "\n" + Text(lines)
    decreases |lines|
  {
    var all := [line] + lines;
    if lines == [] {
      assert all[..0] == [] && "" + line + "\n" == line + "\n" + "";
    } else {
      var init, last := lines[..|lines| - 1], lines[|lines| - 1];
      TextCons(line, init);
      assert all[..|all| - 1] == [line] + init;
      assert line + "\n" + Text(init) + last + "\n" == line + "\n" + (Text(init) + last + "\n");
    }
  }

  /** The reader holds nothing and its mark is q. */
  predicate Idle(r: Reader, q: Mark) {
    r.line == "" && (r.invalid ==> r.done) && MarkOf(r) == q
  }

  lemma ReadWhole(trim: Trim, r: Reader, q: Mark, line: string)
    requires Idle(r, q) && OneLine(line)
    ensures Idle(Observe(trim, r, line + "\n"), See(trim, q, line))
  {
    assert "" + (line + "\n") == line + "\n" + "";
    DrainFinished(trim, r, line, "");
    InspectMarks(trim, r, line);
    DrainRest(trim, Inspect(trim, r, line), "");
  }

  lemma ReadDropped(trim: Trim, r: Reader, q: Mark, part: string)
    requires Idle(r, q) && OneLine(part) && |part| > MAX_LINE
    ensures Idle(Observe(trim, r, part), Lose(q))
  {
    assert "" + part == part;
    DrainRest(trim, r, part);
  }

  lemma ObserveMore(trim: Trim, chunks: seq<string>, c: string)
    ensures ObserveAll(trim, chunks + [c]) == Observe(trim, ObserveAll(trim, chunks), c)
    ensures Join(chunks + [c]) == Join(chunks) + c
  {
    assert (chunks + [c])[..|chunks|] == chunks;
  }

  lemma Halves(line: string, d: nat)
    requires OneLine(line) && d <= |line|
    ensures OneLine(line[..d]) && OneLine(line[d..]) && line[..d] + line[d..] == line
  {
  }

  lemma Joined(t: string, a: string, b: string, line: string)
    requires a + b == line
    ensures t + a + b == t + line && t + a + (b + "\n") == t + line + "\n" && t + (line + "\n") == t + line + "\n"
  {
  }

  /** One more finished line, read so that it is seen as wanted. */
  lemma ReadSight(trim: Trim, before: seq<string>, q: Mark, line: string, q': Mark) returns (chunks: seq<string>)
    requires Idle(ObserveAll(trim, before), q) && OneLine(line) && q' in Sights(trim, q, line)
    ensures Join(chunks) == Join(before) + line + "\n" && Idle(ObserveAll(trim, chunks), q')
  {
    var r := ObserveAll(trim, before);
    if q' == See(trim, q, line) {
      chunks := before + [line + "\n"];
      ObserveMore(trim, before, line + "\n");
      ReadWhole(trim, r, q, line);
      Joined(Join(before), line, "", line);
    } else {
      var d: nat :| d <= |line| && Cut(line, d) && q' == See(trim, Lose(q), line[d..]);
      var a, b := line[..d], line[d..];
      Halves(line, d);
      ReadDropped(trim, r, q, a);
      ObserveMore(trim, before, a);
      ReadWhole(trim, Observe(trim, r, a), Lose(q), b);
      ObserveMore(trim, before + [a], b + "\n");
      chunks := before + [a] + [b + "\n"];
      Joined(Join(before), a, b, line);
    }
  }

  lemma {:induction false} ReachIsRead(trim: Trim, lines: seq<string>, q: Mark) returns (chunks: seq<string>)
    requires Finished(lines) && q in Reach(trim, lines)
    ensures Join(chunks) == Text(lines) && Idle(ObserveAll(trim, chunks), q)
  {
    if lines == [] { return []; }
    var init, line := lines[..|lines| - 1], lines[|lines| - 1];
    var q0 :| q0 in Reach(trim, init) && q in Sights(trim, q0, line);
    var before := ReachIsRead(trim, init, q0);
    chunks := ReadSight(trim, before, q0, line, q);
  }

  lemma HeldToTheEnd(trim: Trim, r: Reader, q: Mark, part: string)
    requires Idle(r, q) && OneLine(part) && |part| <= MAX_LINE
    ensures MarkOf(AtEof(trim, Observe(trim, r, part))) == See(trim, q, part)
  {
    assert "" + part == part;
    DrainRest(trim, r, part);
    InspectMarks(trim, r.(line := part), part);
  }

  lemma ReadLastSight(trim: Trim, before: seq<string>, q: Mark, part: string, a: Mark) returns (chunks: seq<string>)
    requires Idle(ObserveAll(trim, before), q) && OneLine(part) && a in LastSights(trim, q, part)
    ensures Join(chunks) == Join(before) + part && MarkOf(AtEof(trim, ObserveAll(trim, chunks))) == a
  {
    var r := ObserveAll(trim, before);
    if |part| <= MAX_LINE {
      chunks := before + [part];
      ObserveMore(trim, before, part);
      HeldToTheEnd(trim, r, q, part);
    } else {
      var d: nat :| d <= |part| && Cut(part, d) && |part| - d <= MAX_LINE && a == See(trim, Lose(q), part[d..]);
      var x, y := part[..d], part[d..];
      Halves(part, d);
      ReadDropped(trim, r, q, x);
      ObserveMore(trim, before, x);
      HeldToTheEnd(trim, Observe(trim, r, x), Lose(q), y);
      ObserveMore(trim, before + [x], y);
      chunks := before + [x] + [y];
      Joined(Join(before), x, y, part);
    }
  }

  lemma AnswerIsRead(trim: Trim, body: string, a: Mark) returns (chunks: seq<string>)
    requires a in Answers(trim, body)
    ensures Join(chunks) == body && MarkOf(AtEof(trim, ObserveAll(trim, chunks))) == a
  {
    var l := Lines(body);
    BodyIsItsLines(body);
    var q :| q in Reach(trim, Front(l)) && a in LastSights(trim, q, Last(l));
    var before := ReachIsRead(trim, Front(l), q);
    chunks := ReadLastSight(trim, before, q, Last(l), a);
  }

  // ---- The exact condition ----

  ghost predicate Split(chunks: seq<string>, body: string) {
    Join(chunks) == body
  }

  /** For every body, whatever its lines: the answers over all its splits are exactly `Answers`. */
  lemma AnswersAreExact(trim: Trim, body: string, a: Mark)
    ensures a in Answers(trim, body) <==> exists chunks ::
            Split(chunks, body) && MarkOf(AtEof(trim, ObserveAll(trim, chunks))) == a
  {
    if a in Answers(trim, body) {
      var chunks := AnswerIsRead(trim, body, a);
      assert Split(chunks, body);
    }
    forall chunks | Split(chunks, body) ensures MarkOf(AtEof(trim, ObserveAll(trim, chunks))) in Answers(trim, body) {
      SplitAnswers(trim, chunks);
    }
  }

  ghost predicate SplitsAgree(trim: Trim, body: string) {
    forall a, b | Split(a, body) && Split(b, body) ::
      AtEof(trim, ObserveAll(trim, a)).complete == AtEof(trim, ObserveAll(trim, b)).complete
  }

  lemma CompleteIsMarked(trim: Trim, r: Reader)
    ensures AtEof(trim, r).complete <==> MarkOf(AtEof(trim, r)) == Marked
  {
  }

  /**
   * A body gets one answer however it is split exactly when complete is its only possible answer, or
   * not a possible one.
   */
  lemma SplitsAgreeExactlyWhen(trim: Trim, body: string)
    ensures SplitsAgree(trim, body) <==> Marked !in Answers(trim, body) || Answers(trim, body) == {Marked}
  {
    if Marked !in Answers(trim, body) || Answers(trim, body) == {Marked} {
      forall a | Split(a, body) ensures AtEof(trim, ObserveAll(trim, a)).complete <==> Marked in Answers(trim, body) {
        SplitAnswers(trim, a);
        CompleteIsMarked(trim, ObserveAll(trim, a));
      }
    } else {
      var other :| other in Answers(trim, body) && other != Marked;
      var a := AnswerIsRead(trim, body, Marked);
      var b := AnswerIsRead(trim, body, other);
      CompleteIsMarked(trim, ObserveAll(trim, a));
      CompleteIsMarked(trim, ObserveAll(trim, b));
      assert Split(a, body) && Split(b, body);
    }
  }

  // ---- An unfinished stream that counts as complete ----

  /**
   * The worse failure: an overlong line that only ends like the marker. Read whole it is not the
   * marker and the stream is unfinished; split after more than 64 KiB of it, what is left is.
   */
  lemma DroppedPrefixMakesMarker(trim: Trim, junk: string)
    requires trim(DONE) == DONE && trim("") == "" && trim(junk + DONE) != DONE
    requires |junk| > MAX_LINE && OneLine(junk)
    ensures var whole, split := [junk + DONE + "\n"], [junk, DONE + "\n"];
            && Join(whole) == Join(split)
            && !AtEof(trim, ObserveAll(trim, whole)).complete && AtEof(trim, ObserveAll(trim, split)).complete
  {
    var line := junk + DONE;
    ObserveOne(trim, line + "\n");
    ObserveTwo(trim, junk, DONE + "\n");
    assert "" + (line + "\n") == line + "\n" && "" + junk == junk;
    ReadWhole(trim, NEW_READER, Unmarked, line);
    ReadDropped(trim, NEW_READER, Unmarked, junk);
    ReadWhole(trim, Drain(trim, NEW_READER, junk), Unmarked, DONE);
    BlankEnd(trim, Drain(trim, NEW_READER, line + "\n"));
    BlankEnd(trim, Observe(trim, Drain(trim, NEW_READER, junk), DONE + "\n"));
    assert junk + (DONE + "\n") == line + "\n";
  }

  lemma BlankEnd(trim: Trim, r: Reader)
    requires r.line == "" && trim("") == ""
    ensures AtEof(trim, r).complete <==> MarkOf(r) == Marked
  {
  }
}
