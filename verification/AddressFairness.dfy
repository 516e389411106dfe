/**
 * Which hints get probed. No hint that stays stored and offered is passed over, as
 * long as at the first probe its stamp is not ahead of the clock and does not tie
 * with it behind the hint being probed; when it does, two probes in a row can go to
 * that other hint. The condition is read off the record and is exact.
 */
module AddressFairness {
  import opened Options
  import opened Addresses
  import opened AddressRuns

  /** The oldest eligible stamp, the first of equals. */
  lemma {:induction false} OldestIsOldest(cs: seq<Candidate>, addrs: seq<string>)
    ensures match Oldest(cs, addrs)
            case Some(i) => i < |cs| && Eligible(cs[i], addrs)
                            && forall k | 0 <= k < |cs| && Eligible(cs[k], addrs) ::
                                 cs[i].lastAttempt <= cs[k].lastAttempt
                                   && (k < i ==> cs[i].lastAttempt < cs[k].lastAttempt)
            case None => forall k | 0 <= k < |cs| :: !Eligible(cs[k], addrs)
  {
    if cs != [] { OldestIsOldest(cs[..|cs| - 1], addrs); }
  }

  // ---- Hints, their stamps and their order ----

  /** u is stored, unproven, last attempted at t, and learned no later than l. */
  ghost predicate Attempted(cs: seq<Candidate>, u: string, t: int, l: int) {
    exists k | 0 <= k < |cs| :: AttemptedAt(cs[k], u, t, l)
  }

  predicate AttemptedAt(c: Candidate, u: string, t: int, l: int) {
    c.address == u && c.lastSuccess == 0 && c.lastAttempt == t && c.learnedAt <= l
  }

  /** u is stored and unproven. */
  ghost predicate Hinted(cs: seq<Candidate>, u: string) {
    exists k | 0 <= k < |cs| :: cs[k].address == u && cs[k].lastSuccess == 0
  }

  /** The hint u stands before the hint v. */
  ghost predicate Before(cs: seq<Candidate>, u: string, v: string) {
    exists k, m | 0 <= k < m < |cs| ::
      cs[k].address == u && cs[m].address == v && cs[k].lastSuccess == 0 && cs[m].lastSuccess == 0
  }

  /** The hint is not expired, evicted or proven by this step. */
  ghost predicate Stays(canon: Canon, b: Book, op: Op, u: string) {
    Hinted(Normalize(canon, b, op.now).candidates, u) && Hinted(Act(canon, b, op).candidates, u)
  }

  ghost predicate Settled(canon: Canon, cs: seq<Candidate>) {
    Distinct(cs) && forall k | 0 <= k < |cs| :: canon(cs[k].address, true) == Some(cs[k].address)
  }

  // ---- Normalizing ----

  lemma NormalizeSettles(canon: Canon, b: Book, now: int)
    requires CanonLaws(canon)
    ensures var n := Normalize(canon, b, now);
            Settled(canon, n.candidates) && |n.candidates| <= MAX_HINTS && AllNeat(canon, n.candidates, now)
  {
    NormalizeTidies(canon, b, now);
    var n := Normalize(canon, b, now).candidates;
    forall k | 0 <= k < |n| ensures canon(n[k].address, true) == Some(n[k].address) { assert Neat(canon, n[k], now); }
  }

  /** What an entry keeps of the one it was normalized from. */
  predicate Cleaned(c: Candidate, x: Candidate, now: int) {
    x.lastAttempt == c.lastAttempt && x.learnedAt == Min(c.learnedAt, now) && x.lastSuccess == Min(c.lastSuccess, now)
  }

  lemma {:induction false} CleanFrom(canon: Canon, cs: seq<Candidate>, now: int, x: Candidate)
    requires x in Clean(canon, cs, now)
    ensures exists k | 0 <= k < |cs| :: canon(cs[k].address, true) == Some(x.address) && Cleaned(cs[k], x, now)
  {
    var init, c := cs[..|cs| - 1], cs[|cs| - 1];
    if x in Clean(canon, init, now) {
      CleanFrom(canon, init, now, x);
      var k :| 0 <= k < |init| && canon(init[k].address, true) == Some(x.address) && Cleaned(init[k], x, now);
      assert cs[k] == init[k];
    } else {
      assert Cleaned(cs[|cs| - 1], x, now);
    }
  }

  lemma NormalizedFrom(canon: Canon, b: Book, now: int, x: Candidate) returns (j: nat)
    requires Settled(canon, b.candidates) && x in Normalize(canon, b, now).candidates
    ensures j < |b.candidates| && b.candidates[j].address == x.address && Cleaned(b.candidates[j], x, now)
  {
    SortHas(Clean(canon, b.candidates, now), x);
    assert x in Sort(Clean(canon, b.candidates, now));
    CleanFrom(canon, b.candidates, now, x);
    j :| 0 <= j < |b.candidates| && canon(b.candidates[j].address, true) == Some(x.address)
      && Cleaned(b.candidates[j], x, now);
  }

  lemma NormalizeAttempt(canon: Canon, b: Book, now: int, u: string, t: int, l: int)
    requires Settled(canon, b.candidates) && Attempted(b.candidates, u, t, l)
    requires Hinted(Normalize(canon, b, now).candidates, u)
    ensures Attempted(Normalize(canon, b, now).candidates, u, t, l)
  {
    var n := Normalize(canon, b, now).candidates;
    var k :| 0 <= k < |n| && n[k].address == u && n[k].lastSuccess == 0;
    var j := NormalizedFrom(canon, b, now, n[k]);
    assert AttemptedAt(n[k], u, t, l);
  }

  /** The unproven entries, in order. */
  lemma {:induction false} WithHas(s: seq<Candidate>, x: Candidate)
    ensures x in With(s, 0) <==> x in s && x.lastSuccess == 0
  {
    if s != [] {
      var init, c := s[..|s| - 1], s[|s| - 1];
      WithHas(init, x);
      assert s == init + [c];
    }
  }

  lemma BeforeAppend(s: seq<Candidate>, c: Candidate, u: string, v: string)
    requires c.lastSuccess == 0
    ensures Before(s + [c], u, v) <==> Before(s, u, v) || (Hinted(s, u) && c.address == v)
  {
    var all := s + [c];
    if Before(s, u, v) {
      var k, m :|
        0 <= k < m < |s| && s[k].address == u && s[m].address == v && s[k].lastSuccess == 0 && s[m].lastSuccess == 0;
      assert all[k] == s[k] && all[m] == s[m];
    }
    if Hinted(s, u) && c.address == v {
      var k :| 0 <= k < |s| && s[k].address == u && s[k].lastSuccess == 0;
      assert all[k] == s[k] && all[|s|] == c;
    }
  }

  lemma BeforeAppendProven(s: seq<Candidate>, c: Candidate, u: string, v: string)
    requires c.lastSuccess != 0
    ensures Before(s + [c], u, v) <==> Before(s, u, v)
  {
    var all := s + [c];
    if Before(s, u, v) {
      var k, m :|
        0 <= k < m < |s| && s[k].address == u && s[m].address == v && s[k].lastSuccess == 0 && s[m].lastSuccess == 0;
      assert all[k] == s[k] && all[m] == s[m];
    }
  }

  lemma HintedWith(s: seq<Candidate>, u: string)
    ensures Hinted(With(s, 0), u) <==> Hinted(s, u)
  {
    if Hinted(s, u) {
      var k :| 0 <= k < |s| && s[k].address == u && s[k].lastSuccess == 0;
      WithHas(s, s[k]);
      var m :| 0 <= m < |With(s, 0)| && With(s, 0)[m] == s[k];
    }
    if Hinted(With(s, 0), u) {
      var k :| 0 <= k < |With(s, 0)| && With(s, 0)[k].address == u && With(s, 0)[k].lastSuccess == 0;
      WithHas(s, With(s, 0)[k]);
      var m :| 0 <= m < |s| && s[m] == With(s, 0)[k];
    }
  }

  /** The order among hints is the order among unproven entries. */
  lemma {:induction false} BeforeWith(s: seq<Candidate>, u: string, v: string)
    ensures Before(With(s, 0), u, v) <==> Before(s, u, v)
  {
    if s != [] {
      var init, c := s[..|s| - 1], s[|s| - 1];
      assert s == init + [c];
      BeforeWith(init, u, v);
      HintedWith(init, u);
      if c.lastSuccess == 0 {
        BeforeAppend(init, c, u, v);
        BeforeAppend(With(init, 0), c, u, v);
      } else {
        BeforeAppendProven(init, c, u, v);
      }
    }
  }

  /** Cleaning keeps the order. */
  lemma {:induction false} CleanReflects(canon: Canon, cs: seq<Candidate>, now: int, u: string, v: string)
    requires Settled(canon, cs) && now > 0 && Before(Clean(canon, cs, now), u, v)
    ensures Before(cs, u, v)
  {
    var init, c := cs[..|cs| - 1], cs[|cs| - 1];
    var kept := Clean(canon, init, now);
    assert cs == init + [c];
    if Before(kept, u, v) {
      CleanReflects(canon, init, now, u, v);
    } else {
      var x := Clamp(c, c.address, now);
      assert Clean(canon, cs, now) == kept + [x];
      if x.lastSuccess == 0 { BeforeAppend(kept, x, u, v); } else { BeforeAppendProven(kept, x, u, v); }
      var k :| 0 <= k < |kept| && kept[k].address == u && kept[k].lastSuccess == 0;
      CleanFrom(canon, init, now, kept[k]);
      var j :| 0 <= j < |init| && canon(init[j].address, true) == Some(u) && Cleaned(init[j], kept[k], now);
      assert cs[j] == init[j] && init[j].address == u;
      BeforeAppend(init, c, u, v);
    }
    if Before(init, u, v) && c.lastSuccess == 0 { BeforeAppend(init, c, u, v); }
    if Before(init, u, v) && c.lastSuccess != 0 { BeforeAppendProven(init, c, u, v); }
  }

  lemma NormalizeReflects(canon: Canon, b: Book, now: int, u: string, v: string)
    requires Settled(canon, b.candidates) && now > 0 && Before(Normalize(canon, b, now).candidates, u, v)
    ensures Before(b.candidates, u, v)
  {
    var clean := Clean(canon, b.candidates, now);
    var s := Sort(clean);
    var n := Normalize(canon, b, now).candidates;
    var k, m :|
      0 <= k < m < |n| && n[k].address == u && n[m].address == v && n[k].lastSuccess == 0 && n[m].lastSuccess == 0;
    assert s[k] == n[k] && s[m] == n[m];
    BeforeWith(s, u, v);
    SortIsStable(clean, 0);
    BeforeWith(clean, u, v);
    CleanReflects(canon, b.candidates, now, u, v);
  }

  // ---- Learning ----

  function Rest(cs: seq<Candidate>, i: nat): seq<Candidate>
    requires i < |cs|
  {
    cs[..i] + cs[i + 1..]
  }

  lemma RestAt(cs: seq<Candidate>, i: nat, k: nat)
    requires i < |cs| && k < |cs| - 1
    ensures |Rest(cs, i)| == |cs| - 1 && Rest(cs, i)[k] == cs[if k < i then k else k + 1]
  {
  }

  lemma RestSettles(canon: Canon, cs: seq<Candidate>, i: nat)
    requires Settled(canon, cs) && i < |cs|
    ensures Settled(canon, Rest(cs, i)) && !Holds(Rest(cs, i), cs[i].address)
  {
    forall k | 0 <= k < |cs| - 1 ensures Rest(cs, i)[k] == cs[if k < i then k else k + 1] { RestAt(cs, i, k); }
  }

  lemma FrontSettles(canon: Canon, c: Candidate, rest: seq<Candidate>)
    requires Settled(canon, rest) && !Holds(rest, c.address) && canon(c.address, true) == Some(c.address)
    ensures Settled(canon, Take([c] + rest, MAX_HINTS))
  {
    var cs := Take([c] + rest, MAX_HINTS);
    assert forall k | 0 < k < |cs| :: cs[k] == rest[k - 1];
  }

  lemma SucceedSettles(canon: Canon, b: Book, address: string, now: int)
    requires Settled(canon, b.candidates) && canon(address, true) == Some(address)
    ensures Settled(canon, Succeed(b, address, now).candidates)
  {
    var i := IndexOf(b.candidates, address);
    if i < |b.candidates| {
      RestSettles(canon, b.candidates, i);
      FrontSettles(canon, b.candidates[i].(lastSuccess := now), Rest(b.candidates, i));
    } else {
      FrontSettles(canon, Candidate(address, now, now, 0), b.candidates);
    }
  }

  lemma {:induction false} ReportsSettle(canon: Canon, b: Book, reports: seq<string>, now: int)
    requires CanonLaws(canon) && Settled(canon, b.candidates)
    ensures Settled(canon, Reports(canon, b, reports, now).candidates)
  {
    if reports != [] {
      ReportsSettle(canon, b, reports[..|reports| - 1], now);
      var e := reports[|reports| - 1];
      var a := canon(e, false);
      if a.Some? { assert canon(a.value, true) == a; }
    }
  }

  /** Through a success of another address a hint keeps its stamp, or the list is full without it. */
  lemma SucceedAttempt(b: Book, address: string, now: int, u: string, t: int, l: int)
    requires Distinct(b.candidates) && Attempted(b.candidates, u, t, l) && address != u
    ensures var cs := Succeed(b, address, now).candidates;
            Attempted(cs, u, t, l) || (!Holds(cs, u) && |cs| == MAX_HINTS)
  {
    var i := IndexOf(b.candidates, address);
    if i < |b.candidates| {
      RestAttempt(b.candidates, i, u, t, l);
      FrontAttempt(b.candidates[i].(lastSuccess := now), b.candidates[..i] + b.candidates[i + 1..], u, t, l);
    } else {
      FrontAttempt(Candidate(address, now, now, 0), b.candidates, u, t, l);
    }
  }

  lemma RestAttempt(cs: seq<Candidate>, i: nat, u: string, t: int, l: int)
    requires i < |cs| && Distinct(cs) && Attempted(cs, u, t, l) && cs[i].address != u
    ensures var rest := cs[..i] + cs[i + 1..]; Distinct(rest) && Attempted(rest, u, t, l)
  {
    var rest := cs[..i] + cs[i + 1..];
    assert forall k | 0 <= k < |rest| :: rest[k] == if k < i then cs[k] else cs[k + 1];
    var k :| 0 <= k < |cs| && AttemptedAt(cs[k], u, t, l);
    assert rest[if k < i then k else k - 1] == cs[k];
  }

  lemma FrontAttempt(c: Candidate, rest: seq<Candidate>, u: string, t: int, l: int)
    requires Distinct(rest) && Attempted(rest, u, t, l) && c.address != u
    ensures var cs := Take([c] + rest, MAX_HINTS); Attempted(cs, u, t, l) || (!Holds(cs, u) && |cs| == MAX_HINTS)
  {
    var cs := Take([c] + rest, MAX_HINTS);
    assert forall q | 0 < q < |cs| :: cs[q] == rest[q - 1];
    var k :| 0 <= k < |rest| && AttemptedAt(rest[k], u, t, l);
    if k + 1 < |cs| { assert cs[k + 1] == rest[k]; }
  }

  lemma StillFull(b: Book, address: string, now: int, u: string)
    requires !Holds(b.candidates, u) && |b.candidates| >= MAX_HINTS && address != u
    ensures var cs := Succeed(b, address, now).candidates; !Holds(cs, u) && |cs| >= MAX_HINTS
  {
    var cs, cs0, i := Succeed(b, address, now).candidates, b.candidates, IndexOf(b.candidates, address);
    forall q | 0 <= q < |cs| ensures cs[q].address != u {
      if q > 0 {
        var j := if i < |cs0| && q - 1 >= i then q else q - 1;
        assert cs[q] == cs0[j];
      }
    }
  }

  lemma {:induction false} ReportsFull(canon: Canon, b: Book, reports: seq<string>, now: int, u: string)
    requires !Holds(b.candidates, u) && |b.candidates| >= MAX_HINTS
    ensures Reports(canon, b, reports, now).candidates == b.candidates
  {
    if reports != [] { ReportsFull(canon, b, reports[..|reports| - 1], now, u); }
  }

  /** The entry a success put in front is proven, and still there after one more success. */
  lemma FrontStays(b: Book, address: string, now: int, u: string)
    requires b.candidates != [] && b.candidates[0].address == u && b.candidates[0].lastSuccess > 0 && address != u
    ensures Proven(Succeed(b, address, now).candidates, u)
  {
    var cs := Succeed(b, address, now).candidates;
    var i := IndexOf(b.candidates, address);
    assert cs[1] == b.candidates[0];
  }

  lemma ProvenStays(cs: seq<Candidate>, cs': seq<Candidate>, u: string)
    requires cs <= cs' && Distinct(cs') && Proven(cs, u)
    ensures !Hinted(cs', u)
  {
    var k :| 0 <= k < |cs| && cs[k].address == u && cs[k].lastSuccess > 0;
    assert cs'[k] == cs[k];
  }

  /** The books between the two successes and the reports of one exchange. */
  function First(canon: Canon, b: Book, op: Op): Book
    requires op.Hear?
  {
    var n, o := Normalize(canon, b, op.now), canon(op.observed, true);
    if o.Some? then Succeed(n, o.value, op.now) else n
  }

  function Second(canon: Canon, b: Book, op: Op): Book
    requires op.Hear?
  {
    var f, s := First(canon, b, op), canon(op.success, true);
    if s.Some? then Succeed(f, s.value, op.now) else f
  }

  lemma HearParts(canon: Canon, b: Book, op: Op)
    requires op.Hear? && CanonLaws(canon)
    ensures Settled(canon, First(canon, b, op).candidates) && Settled(canon, Second(canon, b, op).candidates)
    ensures Settled(canon, Act(canon, b, op).candidates)
    ensures Second(canon, b, op).candidates <= Act(canon, b, op).candidates
  {
    var o, s := canon(op.observed, true), canon(op.success, true);
    NormalizeSettles(canon, b, op.now);
    if o.Some? {
      assert canon(o.value, true) == o;
      SucceedSettles(canon, Normalize(canon, b, op.now), o.value, op.now);
    }
    if s.Some? { assert canon(s.value, true) == s; SucceedSettles(canon, First(canon, b, op), s.value, op.now); }
    var reports := if |op.reports| <= MAX_ADDRESSES then op.reports else op.reports[..MAX_ADDRESSES];
    ReportsSettle(canon, Second(canon, b, op), reports, op.now);
    ReportsAppend(canon, Second(canon, b, op), reports, op.now);
  }

  lemma SucceededIsNoHint(canon: Canon, b: Book, op: Op, u: string)
    requires op.Hear? && op.now > 0 && CanonLaws(canon)
    requires canon(op.observed, true) == Some(u) || canon(op.success, true) == Some(u)
    ensures !Hinted(Act(canon, b, op).candidates, u)
  {
    HearParts(canon, b, op);
    var s := canon(op.success, true);
    var f, g := First(canon, b, op), Second(canon, b, op);
    if s == Some(u) {
      assert g.candidates[0].address == u && g.candidates[0].lastSuccess == op.now;
    } else {
      assert f.candidates[0].address == u && f.candidates[0].lastSuccess == op.now;
      if s.Some? { FrontStays(f, s.value, op.now, u); }
    }
    ProvenStays(g.candidates, Act(canon, b, op).candidates, u);
  }

  lemma NotSucceeded(canon: Canon, b: Book, op: Op, u: string)
    requires op.Hear? && op.now > 0 && CanonLaws(canon) && Hinted(Act(canon, b, op).candidates, u)
    ensures canon(op.observed, true) != Some(u) && canon(op.success, true) != Some(u)
  {
    if canon(op.observed, true) == Some(u) || canon(op.success, true) == Some(u) { SucceededIsNoHint(canon, b, op, u); }
  }

  /** A hint that stays through an exchange is there, with its stamp, at every point of it. */
  lemma LearnAttempt(canon: Canon, b: Book, op: Op, u: string, t: int, l: int)
    requires op.Hear? && op.now > 0 && CanonLaws(canon) && Attempted(Normalize(canon, b, op.now).candidates, u, t, l)
    requires Hinted(Act(canon, b, op).candidates, u)
    ensures Attempted(First(canon, b, op).candidates, u, t, l) && Attempted(Second(canon, b, op).candidates, u, t, l)
    ensures Attempted(Act(canon, b, op).candidates, u, t, l)
  {
    HearParts(canon, b, op);
    NotSucceeded(canon, b, op, u);
    NormalizeSettles(canon, b, op.now);
    var o, s := canon(op.observed, true), canon(op.success, true);
    var n, f, g := Normalize(canon, b, op.now), First(canon, b, op), Second(canon, b, op);
    if o.Some? { SucceedAttempt(n, o.value, op.now, u, t, l); }
    if !Attempted(f.candidates, u, t, l) {
      if s.Some? { StillFull(f, s.value, op.now, u); }
      GoneStaysGone(canon, b, op, u);
    }
    if s.Some? { SucceedAttempt(f, s.value, op.now, u, t, l); }
    if !Attempted(g.candidates, u, t, l) { GoneStaysGone(canon, b, op, u); }
    AttemptedLater(g.candidates, Act(canon, b, op).candidates, u, t, l);
  }

  lemma GoneStaysGone(canon: Canon, b: Book, op: Op, u: string)
    requires op.Hear? && !Holds(Second(canon, b, op).candidates, u) && |Second(canon, b, op).candidates| >= MAX_HINTS
    ensures !Hinted(Act(canon, b, op).candidates, u)
  {
    ReportsFull(canon, Second(canon, b, op),
                if |op.reports| <= MAX_ADDRESSES then op.reports else op.reports[..MAX_ADDRESSES], op.now, u);
  }

  lemma AttemptedLater(cs: seq<Candidate>, cs': seq<Candidate>, u: string, t: int, l: int)
    requires cs <= cs' && Attempted(cs, u, t, l)
    ensures Attempted(cs', u, t, l)
  {
    var k :| 0 <= k < |cs| && AttemptedAt(cs[k], u, t, l);
    assert cs'[k] == cs[k];
  }

  lemma RestReflects(cs: seq<Candidate>, i: nat, u: string, v: string)
    requires i < |cs| && Before(Rest(cs, i), u, v)
    ensures Before(cs, u, v)
  {
    var rest := Rest(cs, i);
    var k: nat, m: nat :|
      k < m < |rest| && rest[k].address == u && rest[m].address == v && rest[k].lastSuccess == 0
      && rest[m].lastSuccess == 0;
    RestAt(cs, i, k);
    RestAt(cs, i, m);
  }

  lemma FrontReflects(c: Candidate, rest: seq<Candidate>, u: string, v: string)
    requires c.lastSuccess != 0 && Before(Take([c] + rest, MAX_HINTS), u, v)
    ensures Before(rest, u, v)
  {
    var cs := Take([c] + rest, MAX_HINTS);
    var k, m :|
      0 <= k < m < |cs| && cs[k].address == u && cs[m].address == v && cs[k].lastSuccess == 0 && cs[m].lastSuccess == 0;
    assert rest[k - 1] == cs[k] && rest[m - 1] == cs[m];
  }

  lemma SucceedReflects(b: Book, address: string, now: int, u: string, v: string)
    requires now > 0 && Before(Succeed(b, address, now).candidates, u, v)
    ensures Before(b.candidates, u, v)
  {
    var i := IndexOf(b.candidates, address);
    if i < |b.candidates| {
      FrontReflects(b.candidates[i].(lastSuccess := now), Rest(b.candidates, i), u, v);
      RestReflects(b.candidates, i, u, v);
    } else {
      FrontReflects(Candidate(address, now, now, 0), b.candidates, u, v);
    }
  }

  /** Reports are appended behind both. */
  lemma AppendReflects(cs: seq<Candidate>, cs': seq<Candidate>, u: string, v: string)
    requires cs <= cs' && Distinct(cs') && Hinted(cs, u) && Hinted(cs, v) && Before(cs', u, v)
    ensures Before(cs, u, v)
  {
    var k :| 0 <= k < |cs| && cs[k].address == u && cs[k].lastSuccess == 0;
    var m :| 0 <= m < |cs| && cs[m].address == v && cs[m].lastSuccess == 0;
    var k', m' :|
      0 <= k' < m' < |cs'| && cs'[k'].address == u && cs'[m'].address == v && cs'[k'].lastSuccess == 0
      && cs'[m'].lastSuccess == 0;
    assert cs'[k] == cs[k] && cs'[m] == cs[m];
  }

  lemma AttemptedIsHinted(cs: seq<Candidate>, u: string, t: int, l: int)
    requires Attempted(cs, u, t, l)
    ensures Hinted(cs, u)
  {
  }

  lemma StampOf(cs: seq<Candidate>, u: string) returns (t: int, l: int)
    requires Hinted(cs, u)
    ensures Attempted(cs, u, t, l)
  {
    var k :| 0 <= k < |cs| && cs[k].address == u && cs[k].lastSuccess == 0;
    t, l := cs[k].lastAttempt, cs[k].learnedAt;
    assert AttemptedAt(cs[k], u, t, l);
  }

  lemma HintedAtSecond(canon: Canon, b: Book, op: Op, u: string)
    requires op.Hear? && op.now > 0 && CanonLaws(canon) && Stays(canon, b, op, u)
    ensures Hinted(Second(canon, b, op).candidates, u)
  {
    var t, l := StampOf(Normalize(canon, b, op.now).candidates, u);
    LearnAttempt(canon, b, op, u, t, l);
    AttemptedIsHinted(Second(canon, b, op).candidates, u, t, l);
  }

  lemma LearnReflects(canon: Canon, b: Book, op: Op, u: string, v: string)
    requires op.Hear? && op.now > 0 && CanonLaws(canon) && Stays(canon, b, op, u) && Stays(canon, b, op, v)
    requires Before(Act(canon, b, op).candidates, u, v)
    ensures Before(Normalize(canon, b, op.now).candidates, u, v)
  {
    HearParts(canon, b, op);
    HintedAtSecond(canon, b, op, u);
    HintedAtSecond(canon, b, op, v);
    AppendReflects(Second(canon, b, op).candidates, Act(canon, b, op).candidates, u, v);
    var o, s := canon(op.observed, true), canon(op.success, true);
    if s.Some? { SucceedReflects(First(canon, b, op), s.value, op.now, u, v); }
    if o.Some? { SucceedReflects(Normalize(canon, b, op.now), o.value, op.now, u, v); }
  }

  // ---- Dialling ----

  lemma DialAttempt(canon: Canon, b: Book, op: Op, u: string, t: int, l: int)
    requires op.Dial? && Distinct(Normalize(canon, b, op.now).candidates)
    requires Attempted(Normalize(canon, b, op.now).candidates, u, t, l)
    ensures Attempted(Act(canon, b, op).candidates, u, if Reserved(canon, b, op) == Some(u) then op.now else t, l)
  {
    var n := Normalize(canon, b, op.now);
    var p := Probe(n, op.addrs, op.now);
    var k :| 0 <= k < |n.candidates| && AttemptedAt(n.candidates[k], u, t, l);
    var cs := Act(canon, b, op).candidates;
    var t' := if Reserved(canon, b, op) == Some(u) then op.now else t;
    if p.Some? && p.value < |n.candidates| && p.value != k { assert n.candidates[p.value].address != u; }
    assert AttemptedAt(cs[k], u, t', l);
  }

  lemma DialReflects(canon: Canon, b: Book, op: Op, u: string, v: string)
    requires op.Dial?
    ensures Before(Act(canon, b, op).candidates, u, v) <==> Before(Normalize(canon, b, op.now).candidates, u, v)
  {
    var cs, n := Act(canon, b, op).candidates, Normalize(canon, b, op.now).candidates;
    assert |cs| == |n|
      && forall k | 0 <= k < |n| :: cs[k].address == n[k].address && cs[k].lastSuccess == n[k].lastSuccess;
    if Before(n, u, v) {
      var k, m :|
        0 <= k < m < |n| && n[k].address == u && n[m].address == v && n[k].lastSuccess == 0 && n[m].lastSuccess == 0;
      assert cs[k].address == u && cs[m].address == v;
    }
  }

  // ---- Any step ----

  lemma ActSettles(canon: Canon, b: Book, op: Op)
    requires CanonLaws(canon)
    ensures Settled(canon, Act(canon, b, op).candidates)
  {
    NormalizeSettles(canon, b, op.now);
    if op.Hear? { HearParts(canon, b, op); }
  }

  /** A hint that stays stored keeps its stamp until it is the one reserved. */
  lemma ActAttempt(canon: Canon, b: Book, op: Op, u: string, t: int, l: int)
    requires CanonLaws(canon) && Settled(canon, b.candidates) && op.now > 0
    requires Attempted(b.candidates, u, t, l) && Stays(canon, b, op, u)
    ensures Attempted(Act(canon, b, op).candidates, u, if Reserved(canon, b, op) == Some(u) then op.now else t, l)
  {
    NormalizeAttempt(canon, b, op.now, u, t, l);
    NormalizeSettles(canon, b, op.now);
    match op
    case Renormalize(now) =>
    case Hear(_, _, _, _) => LearnAttempt(canon, b, op, u, t, l);
    case Dial(_, _) => DialAttempt(canon, b, op, u, t, l);
  }

  /** And two that stay stored keep their order. */
  lemma ActReflects(canon: Canon, b: Book, op: Op, u: string, v: string)
    requires CanonLaws(canon) && Settled(canon, b.candidates) && op.now > 0 && Stays(canon, b, op, u)
    requires Stays(canon, b, op, v)
    requires Before(Act(canon, b, op).candidates, u, v)
    ensures Before(b.candidates, u, v)
  {
    if op.Hear? { LearnReflects(canon, b, op, u, v); }
    if op.Dial? { DialReflects(canon, b, op, u, v); }
    NormalizeReflects(canon, b, op.now, u, v);
  }

  // ---- Runs ----

  /** The clock does not go back and fits the source's milliseconds. */
  ghost predicate Clocked(run: seq<Op>) {
    Forward(run) && forall i | 0 <= i < |run| :: 0 < run[i].now <= MAX_INT64
  }

  lemma AfterStepSettled(canon: Canon, b: Book, run: seq<Op>, k: nat)
    requires CanonLaws(canon) && 0 < k <= |run|
    ensures Settled(canon, At(canon, b, run, k).candidates)
  {
    AtStep(canon, b, run, k - 1);
    ActSettles(canon, At(canon, b, run, k - 1), run[k - 1]);
  }

  /** u and v stay stored as hints, and stay offered, from step i to step j. */
  ghost predicate BothStay(canon: Canon, b: Book, run: seq<Op>, i: nat, j: nat, u: string, v: string)
    requires j < |run|
  {
    forall k | i <= k <= j ::
      && Stays(canon, At(canon, b, run, k), run[k], u) && Stays(canon, At(canon, b, run, k), run[k], v)
      && (run[k].Dial? ==> u in run[k].addrs && v in run[k].addrs)
  }

  /** The entry of an address in the book a step works on. */
  function Entry(canon: Canon, b: Book, op: Op, u: string): Option<Candidate> {
    var cs := Normalize(canon, b, op.now).candidates;
    if IndexOf(cs, u) < |cs| then Some(cs[IndexOf(cs, u)]) else None
  }

  lemma EntryIs(canon: Canon, b: Book, op: Op, u: string, k: nat)
    requires CanonLaws(canon) && k < |Normalize(canon, b, op.now).candidates|
    requires Normalize(canon, b, op.now).candidates[k].address == u
    ensures IndexOf(Normalize(canon, b, op.now).candidates, u) == k
    ensures Entry(canon, b, op, u) == Some(Normalize(canon, b, op.now).candidates[k])
  {
    NormalizeSettles(canon, b, op.now);
  }

  /** v is passed over right after u was probed: its stamp is ahead of the clock, or ties with it behind u. */
  predicate Behind(canon: Canon, b: Book, op: Op, u: string, v: string) {
    var cs := Normalize(canon, b, op.now).candidates;
    var k, m := IndexOf(cs, u), IndexOf(cs, v);
    m < |cs| && (cs[m].lastAttempt > op.now || (cs[m].lastAttempt == op.now && k < m))
  }

  /** The hint is not expired by the time of the next probe. */
  predicate Outlives(canon: Canon, b: Book, op: Op, u: string) {
    var e := Entry(canon, b, op, u);
    e.Some? && Fresh(e.value, op.now + INTERVAL)
  }

  /**
   * What a caller can read off the record at the probe of u: v stands behind, both hints last until
   * the next probe, and the clock has that much left.
   */
  predicate Starvable(canon: Canon, b: Book, op: Op, u: string, v: string) {
    Behind(canon, b, op, u, v) && Outlives(canon, b, op, u) && Outlives(canon, b, op, v)
      && op.now + INTERVAL <= MAX_INT64
  }

  /** The stamps a probe of u leaves. */
  lemma JustReserved(canon: Canon, b: Book, op: Op, u: string, v: string)
    requires CanonLaws(canon) && Reserved(canon, b, op) == Some(u) && u != v
    requires Hinted(Normalize(canon, b, op.now).candidates, v)
    ensures Entry(canon, b, op, u).Some? && Entry(canon, b, op, v).Some? && u in op.addrs
    ensures var cs, x, y := Act(canon, b, op).candidates, Entry(canon, b, op, u).value, Entry(canon, b, op, v).value;
            && x.lastSuccess == 0 && y.lastSuccess == 0
            && Attempted(cs, u, op.now, x.learnedAt) && Attempted(cs, v, y.lastAttempt, y.learnedAt)
  {
    var n := Normalize(canon, b, op.now);
    var cs := n.candidates;
    NormalizeSettles(canon, b, op.now);
    OldestIsOldest(cs, op.addrs);
    var p := Probe(n, op.addrs, op.now).value;
    var m :| 0 <= m < |cs| && cs[m].address == v && cs[m].lastSuccess == 0;
    EntryIs(canon, b, op, u, p);
    EntryIs(canon, b, op, v, m);
    assert AttemptedAt(cs[p], u, cs[p].lastAttempt, cs[p].learnedAt);
    assert AttemptedAt(cs[m], v, cs[m].lastAttempt, cs[m].learnedAt);
    DialAttempt(canon, b, op, u, cs[p].lastAttempt, cs[p].learnedAt);
    DialAttempt(canon, b, op, v, cs[m].lastAttempt, cs[m].learnedAt);
  }

  /** A probe goes to a hint with an older stamp, or with the same stamp and an earlier place. */
  lemma ReservesOldest(canon: Canon, b: Book, op: Op, u: string, v: string, tu: int, tv: int, lu: int, lv: int)
    requires CanonLaws(canon) && Reserved(canon, b, op) == Some(u) && u != v && v in op.addrs && tv < MAX_INT64
    requires Attempted(Normalize(canon, b, op.now).candidates, u, tu, lu)
    requires Attempted(Normalize(canon, b, op.now).candidates, v, tv, lv)
    ensures tu < tv || (tu == tv && Before(Normalize(canon, b, op.now).candidates, u, v))
  {
    var n := Normalize(canon, b, op.now);
    var cs := n.candidates;
    NormalizeSettles(canon, b, op.now);
    OldestIsOldest(cs, op.addrs);
    var p := Probe(n, op.addrs, op.now).value;
    var k :| 0 <= k < |cs| && AttemptedAt(cs[k], u, tu, lu);
    var m :| 0 <= m < |cs| && AttemptedAt(cs[m], v, tv, lv);
    assert p == k && Eligible(cs[m], op.addrs);
  }

  /** Both hints stay at step m, and v is not the one reserved. */
  ghost predicate PassedOver(canon: Canon, b: Book, run: seq<Op>, m: nat, u: string, v: string)
    requires m < |run|
  {
    var c := At(canon, b, run, m);
    Stays(canon, c, run[m], u) && Stays(canon, c, run[m], v) && Reserved(canon, c, run[m]) != Some(v)
  }

  /** While v is not reserved its stamp stays, u's gets no older, and their order stays. */
  lemma {:induction false} StampsStay(canon: Canon, b: Book, run: seq<Op>, i: nat, k: nat, u: string, v: string,
          tv: int, lu: int, lv: int)
    returns (tu: int)
    requires CanonLaws(canon) && Clocked(run) && i < k < |run| && u != v
    requires forall m | i < m < k :: PassedOver(canon, b, run, m, u, v)
    requires Attempted(At(canon, b, run, i + 1).candidates, u, run[i].now, lu)
    requires Attempted(At(canon, b, run, i + 1).candidates, v, tv, lv)
    ensures Attempted(At(canon, b, run, k).candidates, v, tv, lv)
    ensures Attempted(At(canon, b, run, k).candidates, u, tu, lu) && tu >= run[i].now
    ensures Before(At(canon, b, run, k).candidates, u, v) ==> Before(At(canon, b, run, i + 1).candidates, u, v)
    decreases k
  {
    if k == i + 1 {
      tu := run[i].now;
    } else {
      var t := StampsStay(canon, b, run, i, k - 1, u, v, tv, lu, lv);
      AfterStepSettled(canon, b, run, k - 1);
      AtStep(canon, b, run, k - 1);
      assert PassedOver(canon, b, run, k - 1, u, v);
      tu := StampStep(canon, At(canon, b, run, k - 1), run[k - 1], u, v, t, tv, lu, lv);
    }
  }

  lemma StampStep(canon: Canon, b: Book, op: Op, u: string, v: string, t: int, tv: int, lu: int, lv: int)
    returns (tu: int)
    requires CanonLaws(canon) && Settled(canon, b.candidates) && op.now > 0
    requires Stays(canon, b, op, u) && Stays(canon, b, op, v) && Reserved(canon, b, op) != Some(v)
    requires Attempted(b.candidates, u, t, lu) && Attempted(b.candidates, v, tv, lv)
    ensures Attempted(Act(canon, b, op).candidates, v, tv, lv) && Attempted(Act(canon, b, op).candidates, u, tu, lu)
    ensures tu == t || tu == op.now
    ensures Before(Act(canon, b, op).candidates, u, v) ==> Before(b.candidates, u, v)
  {
    ActAttempt(canon, b, op, u, t, lu);
    ActAttempt(canon, b, op, v, tv, lv);
    tu := if Reserved(canon, b, op) == Some(u) then op.now else t;
    if Before(Act(canon, b, op).candidates, u, v) { ActReflects(canon, b, op, u, v); }
  }

  /** An entry that is still a hint at a later probe was fresh enough before. */
  lemma StillFresh(canon: Canon, b: Book, op: Op, u: string, t: int, l: int, now: int)
    requires CanonLaws(canon) && Attempted(Normalize(canon, b, op.now).candidates, u, t, l) && now <= op.now
    ensures Max(l, 0) >= now - TTL
  {
    NormalizeSettles(canon, b, op.now);
    var cs := Normalize(canon, b, op.now).candidates;
    var k :| 0 <= k < |cs| && AttemptedAt(cs[k], u, t, l);
    assert Neat(canon, cs[k], op.now);
  }

  /** The two hints as a later probe of u finds them, when v was not probed in between. */
  lemma LaterProbe(canon: Canon, b: Book, run: seq<Op>, i: nat, j: nat, u: string, v: string) returns (tu: int)
    requires CanonLaws(canon) && Clocked(run) && i < j < |run| && u != v
    requires Reserves(canon, b, run, i) == Some(u) && Reserves(canon, b, run, j).Some?
    requires BothStay(canon, b, run, i, j, u, v) && forall m | i < m < j :: Reserves(canon, b, run, m) != Some(v)
    ensures var c, n := At(canon, b, run, i), Normalize(canon, At(canon, b, run, j), run[j].now).candidates;
            && Entry(canon, c, run[i], u).Some? && Entry(canon, c, run[i], v).Some?
            && var x, y := Entry(canon, c, run[i], u).value, Entry(canon, c, run[i], v).value;
               && Attempted(n, u, tu, x.learnedAt) && Attempted(n, v, y.lastAttempt, y.learnedAt) && tu >= run[i].now
               && x.lastSuccess == 0 && y.lastSuccess == 0
               && (Before(n, u, v) ==> Before(At(canon, b, run, i + 1).candidates, u, v))
  {
    var c := At(canon, b, run, i);
    assert Stays(canon, c, run[i], v) && Stays(canon, At(canon, b, run, j), run[j], u)
      && Stays(canon, At(canon, b, run, j), run[j], v);
    JustReserved(canon, c, run[i], u, v);
    var x, y := Entry(canon, c, run[i], u).value, Entry(canon, c, run[i], v).value;
    AtStep(canon, b, run, i);
    forall m | i < m < j ensures PassedOver(canon, b, run, m, u, v) { assert Reserves(canon, b, run, m) != Some(v); }
    tu := StampsStay(canon, b, run, i, j, u, v, y.lastAttempt, x.learnedAt, y.learnedAt);
    AfterStepSettled(canon, b, run, j);
    NormalizeAttempt(canon, At(canon, b, run, j), run[j].now, u, tu, x.learnedAt);
    NormalizeAttempt(canon, At(canon, b, run, j), run[j].now, v, y.lastAttempt, y.learnedAt);
    if Before(Normalize(canon, At(canon, b, run, j), run[j].now).candidates, u, v) {
      NormalizeReflects(canon, At(canon, b, run, j), run[j].now, u, v);
    }
  }

  /** Hints that are still there at a later probe outlive the interval. */
  lemma LaterProbeOutlives(canon: Canon, b: Book, run: seq<Op>, i: nat, j: nat, u: string, v: string)
    requires CanonLaws(canon) && Clocked(run) && i < j < |run| && u != v
    requires Reserves(canon, b, run, i) == Some(u) && Reserves(canon, b, run, j).Some?
    requires BothStay(canon, b, run, i, j, u, v) && forall m | i < m < j :: Reserves(canon, b, run, m) != Some(v)
    ensures var c := At(canon, b, run, i);
            Outlives(canon, c, run[i], u) && Outlives(canon, c, run[i], v)
              && run[i].now + INTERVAL <= run[j].now <= MAX_INT64
  {
    var c, d := At(canon, b, run, i), At(canon, b, run, j);
    var tu := LaterProbe(canon, b, run, i, j, u, v);
    DialBudget(canon, b, run, i, j);
    var x, y := Entry(canon, c, run[i], u).value, Entry(canon, c, run[i], v).value;
    StillFresh(canon, d, run[j], u, tu, x.learnedAt, run[i].now + INTERVAL);
    StillFresh(canon, d, run[j], v, y.lastAttempt, y.learnedAt, run[i].now + INTERVAL);
  }

  /**
   * Between two probes of one hint every other hint that stays stored and offered is probed, unless
   * it stood behind at the first of them.
   */
  lemma NoHintStarves(canon: Canon, b: Book, run: seq<Op>, i: nat, j: nat, u: string, v: string)
    requires CanonLaws(canon) && Clocked(run) && i < j < |run| && u != v
    requires Reserves(canon, b, run, i) == Some(u) && Reserves(canon, b, run, j) == Some(u)
    requires BothStay(canon, b, run, i, j, u, v) && !Starvable(canon, At(canon, b, run, i), run[i], u, v)
    ensures exists m | i < m < j :: Reserves(canon, b, run, m) == Some(v)
  {
    if forall m | i < m < j :: Reserves(canon, b, run, m) != Some(v) {
      var c, d := At(canon, b, run, i), At(canon, b, run, j);
      LaterProbeOutlives(canon, b, run, i, j, u, v);
      var tu := LaterProbe(canon, b, run, i, j, u, v);
      var x, y := Entry(canon, c, run[i], u).value, Entry(canon, c, run[i], v).value;
      assert v in run[j].addrs;
      ReservesOldest(canon, d, run[j], u, v, tu, y.lastAttempt, x.learnedAt, y.learnedAt);
      AtStep(canon, b, run, i);
      DialReflects(canon, c, run[i], u, v);
      NotBehind(canon, c, run[i], u, v);
    }
  }

  /** Standing before u in the book is not standing behind it. */
  lemma NotBehind(canon: Canon, b: Book, op: Op, u: string, v: string)
    requires CanonLaws(canon) && Entry(canon, b, op, u).Some? && Entry(canon, b, op, v).Some?
    requires !Behind(canon, b, op, u, v)
    ensures var y := Entry(canon, b, op, v).value;
            y.lastAttempt < op.now || (y.lastAttempt == op.now && !Before(Normalize(canon, b, op.now).candidates, u, v))
  {
    NormalizeSettles(canon, b, op.now);
    var cs := Normalize(canon, b, op.now).candidates;
    if Before(cs, u, v) {
      var k, m :|
        0 <= k < m < |cs| && cs[k].address == u && cs[m].address == v && cs[k].lastSuccess == 0
        && cs[m].lastSuccess == 0;
      EntryIs(canon, b, op, u, k);
      EntryIs(canon, b, op, v, m);
    }
  }

  // ---- The condition is exact ----

  /** A forward run that probes u first and last, keeps both hints stored and offered, and never probes v. */
  ghost predicate Starves(canon: Canon, b: Book, run: seq<Op>, u: string, v: string) {
    && |run| >= 2 && Clocked(run) && Reserves(canon, b, run, 0) == Some(u)
    && Reserves(canon, b, run, |run| - 1) == Some(u)
    && BothStay(canon, b, run, 0, |run| - 1, u, v)
    && forall m | 0 < m < |run| - 1 :: Reserves(canon, b, run, m) != Some(v)
  }

  lemma {:induction false} CleanKeeps(canon: Canon, cs: seq<Candidate>, now: int, x: Candidate)
    requires Settled(canon, cs) && x in cs && Fresh(x, now)
    ensures Clamp(x, x.address, now) in Clean(canon, cs, now)
  {
    var init, c := cs[..|cs| - 1], cs[|cs| - 1];
    assert cs == init + [c];
    if x in init {
      CleanKeeps(canon, init, now, x);
    } else {
      NotYetKept(canon, init, now, c.address);
    }
  }

  lemma NotYetKept(canon: Canon, cs: seq<Candidate>, now: int, a: string)
    requires Settled(canon, cs) && !Holds(cs, a)
    ensures !Holds(Clean(canon, cs, now), a)
  {
    var kept := Clean(canon, cs, now);
    if k :| 0 <= k < |kept| && kept[k].address == a {
      CleanFrom(canon, cs, now, kept[k]);
    }
  }

  lemma {:induction false} CleanShrinks(canon: Canon, cs: seq<Candidate>, now: int)
    ensures |Clean(canon, cs, now)| <= |cs|
  {
    if cs != [] { CleanShrinks(canon, cs[..|cs| - 1], now); }
  }

  /** A fresh hint survives normalizing a settled book, with its stamp. */
  lemma FreshStays(canon: Canon, b: Book, now: int, x: Candidate)
    requires Settled(canon, b.candidates) && |b.candidates| <= MAX_HINTS && now > 0
    requires x in b.candidates && x.lastSuccess == 0 && Fresh(x, now)
    ensures Attempted(Normalize(canon, b, now).candidates, x.address, x.lastAttempt, x.learnedAt)
  {
    var clean, y := Clean(canon, b.candidates, now), Clamp(x, x.address, now);
    CleanKeeps(canon, b.candidates, now, x);
    CleanShrinks(canon, b.candidates, now);
    SortMembers(clean);
    SortHas(clean, y);
    assert |Sort(clean)| == |multiset(Sort(clean))| == |clean|;
    var n := Normalize(canon, b, now).candidates;
    assert n == Sort(clean);
    var k :| 0 <= k < |n| && n[k] == y;
    assert AttemptedAt(n[k], x.address, x.lastAttempt, x.learnedAt);
  }

  /** Right after the probe, 30 seconds on, both hints are there with the stamps it left, in the same order. */
  lemma NextBook(canon: Canon, b: Book, op: Op, u: string, v: string)
    requires CanonLaws(canon) && Reserved(canon, b, op) == Some(u) && u != v && op.now > 0
    requires Hinted(Normalize(canon, b, op.now).candidates, v) && Outlives(canon, b, op, u) && Outlives(canon, b, op, v)
    ensures var d := Act(canon, b, op);
            var n := Normalize(canon, d, op.now + INTERVAL);
            && Entry(canon, b, op, u).Some? && Entry(canon, b, op, v).Some? && n.nextProbe <= op.now + INTERVAL
            && Attempted(n.candidates, u, op.now, Entry(canon, b, op, u).value.learnedAt)
            && Attempted(n.candidates, v, Entry(canon, b, op, v).value.lastAttempt,
                         Entry(canon, b, op, v).value.learnedAt)
            && (Before(n.candidates, v, u) ==> Before(Normalize(canon, b, op.now).candidates, v, u))
  {
    var d, now := Act(canon, b, op), op.now + INTERVAL;
    JustReserved(canon, b, op, u, v);
    ActSettles(canon, b, op);
    NormalizeSettles(canon, b, op.now);
    ReserveSpends(canon, b, op);
    var x, y := Entry(canon, b, op, u).value, Entry(canon, b, op, v).value;
    OneHint(canon, d, now, u, op.now, x);
    OneHint(canon, d, now, v, y.lastAttempt, y);
    if Before(Normalize(canon, d, now).candidates, v, u) {
      NormalizeReflects(canon, d, now, v, u);
      DialReflects(canon, b, op, v, u);
    }
  }

  lemma OneHint(canon: Canon, d: Book, now: int, u: string, t: int, x: Candidate)
    requires Settled(canon, d.candidates) && |d.candidates| <= MAX_HINTS && now > 0 && x.lastSuccess == 0
    requires Fresh(x, now)
    requires exists k | 0 <= k < |d.candidates| :: d.candidates[k] == x.(lastAttempt := t) && x.address == u
    ensures Attempted(Normalize(canon, d, now).candidates, u, t, x.learnedAt)
  {
    FreshStays(canon, d, now, x.(lastAttempt := t));
  }

  lemma BehindTie(canon: Canon, b: Book, op: Op, u: string, v: string)
    requires CanonLaws(canon) && Behind(canon, b, op, u, v) && Entry(canon, b, op, u).Some?
    ensures Entry(canon, b, op, v).Some?
    ensures var y := Entry(canon, b, op, v).value;
            y.lastAttempt > op.now || (y.lastAttempt == op.now && !Before(Normalize(canon, b, op.now).candidates, v, u))
  {
    var cs := Normalize(canon, b, op.now).candidates;
    if Before(cs, v, u) {
      var k, m :|
        0 <= k < m < |cs| && cs[k].address == v && cs[m].address == u && cs[k].lastSuccess == 0
        && cs[m].lastSuccess == 0;
      EntryIs(canon, b, op, v, k);
      EntryIs(canon, b, op, u, m);
    }
  }

  /** Offered the two hints alone as soon as a probe is due again, the book probes u again. */
  lemma SecondProbe(canon: Canon, b: Book, op: Op, u: string, v: string)
    requires CanonLaws(canon) && Reserved(canon, b, op) == Some(u) && u != v && op.now > 0
    requires Hinted(Normalize(canon, b, op.now).candidates, v) && Starvable(canon, b, op, u, v)
    ensures var d, next := Act(canon, b, op), Dial([u, v], op.now + INTERVAL);
            Reserved(canon, d, next) == Some(u) && Stays(canon, d, next, u) && Stays(canon, d, next, v)
  {
    var d, next := Act(canon, b, op), Dial([u, v], op.now + INTERVAL);
    NextBook(canon, b, op, u, v);
    BehindTie(canon, b, op, u, v);
    var x, y := Entry(canon, b, op, u).value, Entry(canon, b, op, v).value;
    var n := Normalize(canon, d, next.now);
    NormalizeSettles(canon, d, next.now);
    PicksOlder(n.candidates, next.addrs, u, v, op.now, x.learnedAt, y.lastAttempt, y.learnedAt);
    DialAttempt(canon, d, next, u, op.now, x.learnedAt);
    DialAttempt(canon, d, next, v, y.lastAttempt, y.learnedAt);
  }

  lemma BeforeAt(cs: seq<Candidate>, k: nat, m: nat)
    requires k < m < |cs| && cs[k].lastSuccess == 0 && cs[m].lastSuccess == 0
    ensures Before(cs, cs[k].address, cs[m].address)
  {
  }

  /** Of two hints on offer the older is picked, the earlier of equals. */
  lemma PicksOlder(cs: seq<Candidate>, addrs: seq<string>, u: string, v: string, tu: int, lu: int, tv: int, lv: int)
    requires Distinct(cs) && Attempted(cs, u, tu, lu) && Attempted(cs, v, tv, lv) && u != v && tu < MAX_INT64
    requires u in addrs && forall a | a in addrs :: a == u || a == v
    ensures var i := Oldest(cs, addrs);
            && i.Some? && i.value < |cs|
            && (cs[i.value].address == u || tv < tu || (tv == tu && Before(cs, v, u)))
  {
    OldestIsOldest(cs, addrs);
    var k :| 0 <= k < |cs| && AttemptedAt(cs[k], u, tu, lu);
    var m :| 0 <= m < |cs| && AttemptedAt(cs[m], v, tv, lv);
    assert Eligible(cs[k], addrs);
    if m < k { BeforeAt(cs, m, k); }
  }

  lemma StarvesTwice(canon: Canon, b: Book, op: Op, u: string, v: string) returns (ext: seq<Op>)
    requires CanonLaws(canon) && op.Dial? && 0 < op.now <= MAX_INT64 && Reserved(canon, b, op) == Some(u) && u != v
    requires v in op.addrs
    requires Hinted(Normalize(canon, b, op.now).candidates, v) && Starvable(canon, b, op, u, v)
    ensures Starves(canon, b, [op] + ext, u, v)
  {
    var next := Dial([u, v], op.now + INTERVAL);
    ext := [next];
    SecondProbe(canon, b, op, u, v);
    FirstStays(canon, b, op, u, v);
    TwoSteps(canon, b, op, next, u, v);
    assert [op] + ext == [op, next];
  }

  lemma FirstStays(canon: Canon, b: Book, op: Op, u: string, v: string)
    requires CanonLaws(canon) && Reserved(canon, b, op) == Some(u) && u != v
    requires Hinted(Normalize(canon, b, op.now).candidates, v)
    ensures Stays(canon, b, op, u) && Stays(canon, b, op, v) && u in op.addrs
  {
    JustReserved(canon, b, op, u, v);
    AttemptedIsHinted(Act(canon, b, op).candidates, u, op.now, Entry(canon, b, op, u).value.learnedAt);
    AttemptedIsHinted(Act(canon, b, op).candidates, v, Entry(canon, b, op, v).value.lastAttempt,
                      Entry(canon, b, op, v).value.learnedAt);
    ReservedIsHint(canon, b, op, u);
  }

  lemma TwoSteps(canon: Canon, b: Book, op: Op, next: Op, u: string, v: string)
    requires op.Dial? && next.Dial? && u in op.addrs && v in op.addrs && u in next.addrs && v in next.addrs
    requires 0 < op.now <= next.now <= MAX_INT64
    requires var d := Act(canon, b, op);
             && Reserved(canon, b, op) == Some(u) && Reserved(canon, d, next) == Some(u)
             && Stays(canon, b, op, u) && Stays(canon, b, op, v) && Stays(canon, d, next, u) && Stays(canon, d, next, v)
    ensures Starves(canon, b, [op, next], u, v)
  {
    var run := [op, next];
    assert run[..0] == [];
    AtStep(canon, b, run, 0);
    assert At(canon, b, run, 0) == b && At(canon, b, run, 1) == Act(canon, b, op);
  }

  lemma ReservedIsHint(canon: Canon, b: Book, op: Op, u: string)
    requires Reserved(canon, b, op) == Some(u)
    ensures Hinted(Normalize(canon, b, op.now).candidates, u)
  {
    var n := Normalize(canon, b, op.now);
    OldestIsOldest(n.candidates, op.addrs);
  }

  /**
   * When one probe of u lets v be passed over. For any record and any dial that offers both: some
   * forward run from it probes u again with v stored and offered all along and never probed, if and
   * only if the record says so at that dial: v's stamp is ahead of the clock, or equal to it with v
   * stored behind u, and both hints and the clock last until the next probe.
   */
  lemma FairExactlyWhen(canon: Canon, b: Book, op: Op, u: string, v: string)
    requires CanonLaws(canon) && op.Dial? && 0 < op.now <= MAX_INT64 && Reserved(canon, b, op) == Some(u) && u != v
    requires v in op.addrs
    requires Hinted(Normalize(canon, b, op.now).candidates, v)
    ensures (exists ext :: Starves(canon, b, [op] + ext, u, v)) <==> Starvable(canon, b, op, u, v)
  {
    if Starvable(canon, b, op, u, v) {
      var ext := StarvesTwice(canon, b, op, u, v);
    } else {
      forall ext ensures !Starves(canon, b, [op] + ext, u, v) { NeverStarves(canon, b, op, [op] + ext, u, v); }
    }
  }

  lemma NeverStarves(canon: Canon, b: Book, op: Op, run: seq<Op>, u: string, v: string)
    requires CanonLaws(canon) && u != v && run != [] && run[0] == op && !Starvable(canon, b, op, u, v)
    ensures !Starves(canon, b, run, u, v)
  {
    if Starves(canon, b, run, u, v) {
      assert run[..0] == [];
      NoHintStarves(canon, b, run, 0, |run| - 1, u, v);
    }
  }

  // ---- Any number of hints ----

  /** `at` lists, in order, every reservation from its first entry to its last. */
  ghost predicate Consecutive(canon: Canon, b: Book, run: seq<Op>, at: seq<nat>) {
    && (forall p | 0 <= p < |at| :: at[p] < |run| && Reserves(canon, b, run, at[p]).Some?)
    && (forall p, q | 0 <= p < q < |at| :: at[p] < at[q])
    && (forall p, m | 0 <= p < |at| - 1 && at[p] < m < at[p + 1] :: Reserves(canon, b, run, m).None?)
  }

  /** The hints in `us` stay stored and offered from the first listed reservation to the last. */
  ghost predicate AllStay(canon: Canon, b: Book, run: seq<Op>, i: nat, j: nat, us: set<string>)
    requires j < |run|
  {
    forall u, v | u in us && v in us :: BothStay(canon, b, run, i, j, u, v)
  }

  /** At a probe, no other hint of `us` stands behind the one reserved. */
  predicate FairStart(canon: Canon, b: Book, op: Op, us: set<string>) {
    forall v | v in us && Reserved(canon, b, op).Some? && Reserved(canon, b, op).value != v ::
      !Starvable(canon, b, op, Reserved(canon, b, op).value, v)
  }

  /** The hints reserved at the listed steps. */
  function Picks(canon: Canon, b: Book, run: seq<Op>, at: seq<nat>): seq<Option<string>>
    requires forall r | 0 <= r < |at| :: at[r] < |run|
  {
    seq(|at|, r requires 0 <= r < |at| => Reserves(canon, b, run, at[r]))
  }

  function Between(picks: seq<Option<string>>, p: nat, q: nat): set<string>
    requires p <= q <= |picks|
  {
    set r | p <= r < q && picks[r].Some? :: picks[r].value
  }

  lemma {:induction false} BetweenSize(picks: seq<Option<string>>, p: nat, q: nat)
    requires p <= q <= |picks|
    ensures |Between(picks, p, q)| <= q - p
    decreases q
  {
    if p < q {
      BetweenSize(picks, p, q - 1);
      var r := picks[q - 1];
      var last := if r.Some? then {r.value} else {};
      assert Between(picks, p, q) <= Between(picks, p, q - 1) + last;
      SubsetSize(Between(picks, p, q), Between(picks, p, q - 1) + last);
    }
  }

  /** A reservation between two listed ones is itself listed. */
  lemma {:induction false} ListedBetween(canon: Canon, b: Book, run: seq<Op>, at: seq<nat>, p: nat, q: nat, m: nat)
    requires Consecutive(canon, b, run, at) && p < q < |at| && at[p] < m < at[q] && Reserves(canon, b, run, m).Some?
    ensures exists r | p < r < q :: at[r] == m
    decreases q - p
  {
    if m > at[p + 1] {
      ListedBetween(canon, b, run, at, p + 1, q, m);
    } else if m < at[p + 1] {
      assert false;
    }
  }

  /** A hint whose stamp was paid for: no probe is due within 30 seconds of it. */
  ghost predicate Paid(cs: seq<Candidate>, v: string, clock: int, due: int) {
    exists t, l :: Attempted(cs, v, t, l) && t <= clock && t + INTERVAL <= due
  }

  lemma StayAt(canon: Canon, b: Book, run: seq<Op>, i: nat, j: nat, us: set<string>, v: string, k: nat)
    requires j < |run| && i <= k <= j && AllStay(canon, b, run, i, j, us) && v in us
    ensures Stays(canon, At(canon, b, run, k), run[k], v) && (run[k].Dial? ==> v in run[k].addrs)
  {
    assert BothStay(canon, b, run, i, j, v, v);
  }

  /** After a fair probe every stamp is no newer than the clock: the budget the probe spent covers it. */
  lemma PaidAtStart(canon: Canon, b: Book, run: seq<Op>, i: nat, j: nat, us: set<string>, u: string, v: string)
    requires CanonLaws(canon) && Clocked(run) && i < j < |run| && AllStay(canon, b, run, i, j, us) && u in us && v in us
    requires Reserves(canon, b, run, i) == Some(u) && Reserves(canon, b, run, j).Some?
    requires FairStart(canon, At(canon, b, run, i), run[i], us)
    requires u != v ==> forall m | i < m < j :: Reserves(canon, b, run, m) != Some(v)
    ensures Paid(At(canon, b, run, i + 1).candidates, v, run[i].now, At(canon, b, run, i + 1).nextProbe)
  {
    var c := At(canon, b, run, i);
    AtStep(canon, b, run, i);
    ReserveSpends(canon, c, run[i]);
    StayAt(canon, b, run, i, j, us, v, i);
    if u == v {
      PaidByProbe(canon, c, run[i], u);
    } else {
      JustReserved(canon, c, run[i], u, v);
      StayBoth(canon, b, run, i, j, us, u, v);
      LaterProbeOutlives(canon, b, run, i, j, u, v);
      NotBehind(canon, c, run[i], u, v);
      var y := Entry(canon, c, run[i], v).value;
      assert Attempted(Act(canon, c, run[i]).candidates, v, y.lastAttempt, y.learnedAt);
    }
  }

  lemma StayBoth(canon: Canon, b: Book, run: seq<Op>, i: nat, j: nat, us: set<string>, u: string, v: string)
    requires j < |run| && AllStay(canon, b, run, i, j, us) && u in us && v in us
    ensures BothStay(canon, b, run, i, j, u, v)
  {
  }

  lemma PaidByProbe(canon: Canon, b: Book, op: Op, u: string)
    requires CanonLaws(canon) && Reserved(canon, b, op) == Some(u) && op.now > 0
    ensures Paid(Act(canon, b, op).candidates, u, op.now, Act(canon, b, op).nextProbe)
  {
    ReservedIsHint(canon, b, op, u);
    NormalizeSettles(canon, b, op.now);
    ReserveSpends(canon, b, op);
    var t, l := StampOf(Normalize(canon, b, op.now).candidates, u);
    DialAttempt(canon, b, op, u, t, l);
    assert Attempted(Act(canon, b, op).candidates, u, op.now, l);
  }

  lemma PaidStep(canon: Canon, b: Book, op: Op, v: string, clock: int)
    requires CanonLaws(canon) && Settled(canon, b.candidates) && op.now > 0 && clock <= op.now
    requires Paid(b.candidates, v, clock, b.nextProbe) && Stays(canon, b, op, v)
    ensures Paid(Act(canon, b, op).candidates, v, op.now, Act(canon, b, op).nextProbe)
  {
    if Reserved(canon, b, op) == Some(v) {
      PaidByProbe(canon, b, op, v);
    } else {
      var t, l :| Attempted(b.candidates, v, t, l) && t <= clock && t + INTERVAL <= b.nextProbe;
      ActAttempt(canon, b, op, v, t, l);
      ActBudget(canon, b, op, t + INTERVAL);
      assert Attempted(Act(canon, b, op).candidates, v, t, l);
    }
  }

  /** Probes at the listed steps, all of them of hints in `us`, which stay; and a fair first one. */
  ghost predicate FairRun(canon: Canon, b: Book, run: seq<Op>, at: seq<nat>, us: set<string>) {
    && Clocked(run) && Consecutive(canon, b, run, at) && |at| >= 2 && AllStay(canon, b, run, at[0], at[|at| - 1], us)
    && (forall r | 0 <= r < |at| :: Reserves(canon, b, run, at[r]).value in us)
    && FairStart(canon, At(canon, b, run, at[0]), run[at[0]], us)
  }

  ghost predicate PaidAt(canon: Canon, b: Book, run: seq<Op>, k: nat, v: string)
    requires 0 < k <= |run|
  {
    var c := At(canon, b, run, k); Paid(c.candidates, v, run[k - 1].now, c.nextProbe)
  }

  lemma PaidNext(canon: Canon, b: Book, run: seq<Op>, k: nat, v: string)
    requires CanonLaws(canon) && Clocked(run) && 0 < k < |run| && PaidAt(canon, b, run, k, v)
    requires Stays(canon, At(canon, b, run, k), run[k], v)
    ensures PaidAt(canon, b, run, k + 1, v)
  {
    AfterStepSettled(canon, b, run, k);
    AtStep(canon, b, run, k);
    PaidStep(canon, At(canon, b, run, k), run[k], v, run[k - 1].now);
  }

  ghost predicate StaysAt(canon: Canon, b: Book, run: seq<Op>, k: nat, v: string)
    requires k < |run|
  {
    Stays(canon, At(canon, b, run, k), run[k], v)
  }

  lemma {:induction false} HintsPaid(canon: Canon, b: Book, run: seq<Op>, i: nat, k: nat, v: string)
    requires CanonLaws(canon) && Clocked(run) && 0 < i <= k < |run|
    requires forall m: nat | i <= m < k :: StaysAt(canon, b, run, m, v)
    requires PaidAt(canon, b, run, i, v)
    ensures PaidAt(canon, b, run, k, v)
    decreases k - i
  {
    if i < k {
      assert StaysAt(canon, b, run, i, v);
      PaidNext(canon, b, run, i, v);
      HintsPaid(canon, b, run, i + 1, k, v);
    }
  }

  lemma FirstPaid(canon: Canon, b: Book, run: seq<Op>, at: seq<nat>, us: set<string>, v: string)
    requires CanonLaws(canon) && FairRun(canon, b, run, at, us) && v in us
    ensures PaidAt(canon, b, run, at[0] + 1, v)
  {
    var i, j := at[0], at[1];
    assert j <= at[|at| - 1];
    forall x, y | x in us && y in us ensures BothStay(canon, b, run, i, j, x, y) {
      StayShorter(canon, b, run, i, at[|at| - 1], i, j, x, y);
    }
    assert forall m | i < m < j :: Reserves(canon, b, run, m).None?;
    PaidAtStart(canon, b, run, i, j, us, Reserves(canon, b, run, i).value, v);
  }

  /** A paid stamp is not behind a later probe. */
  lemma PaidIsFair(canon: Canon, b: Book, op: Op, u: string, v: string, clock: int)
    requires CanonLaws(canon) && Settled(canon, b.candidates) && Reserved(canon, b, op) == Some(u)
    requires Paid(b.candidates, v, clock, b.nextProbe) && Hinted(Normalize(canon, b, op.now).candidates, v)
    ensures !Behind(canon, b, op, u, v)
  {
    var t, l :| Attempted(b.candidates, v, t, l) && t <= clock && t + INTERVAL <= b.nextProbe;
    NormalizeAttempt(canon, b, op.now, v, t, l);
    ReserveSpends(canon, b, op);
    var cs := Normalize(canon, b, op.now).candidates;
    var m :| 0 <= m < |cs| && AttemptedAt(cs[m], v, t, l);
    EntryIs(canon, b, op, v, m);
  }

  /** Every listed probe is fair, not only the first. */
  lemma EveryProbeIsFair(canon: Canon, b: Book, run: seq<Op>, at: seq<nat>, us: set<string>, p: nat, v: string)
    requires CanonLaws(canon) && FairRun(canon, b, run, at, us) && p < |at| && v in us
    requires Reserves(canon, b, run, at[p]) != Some(v)
    ensures !Starvable(canon, At(canon, b, run, at[p]), run[at[p]], Reserves(canon, b, run, at[p]).value, v)
  {
    if p > 0 {
      assert at[0] < at[p] <= at[|at| - 1];
      FirstPaid(canon, b, run, at, us, v);
      forall m: nat | at[0] < m < at[p] ensures StaysAt(canon, b, run, m, v) {
        StayAt(canon, b, run, at[0], at[|at| - 1], us, v, m);
      }
      HintsPaid(canon, b, run, at[0] + 1, at[p], v);
      AfterStepSettled(canon, b, run, at[p]);
      StayAt(canon, b, run, at[0], at[|at| - 1], us, v, at[p]);
      PaidIsFair(canon, At(canon, b, run, at[p]), run[at[p]], Reserves(canon, b, run, at[p]).value, v,
                 run[at[p] - 1].now);
    }
  }

  /** After a fair first probe, at most |us| consecutive probes among the hints `us` try different hints. */
  lemma ProbesAreFair(canon: Canon, b: Book, run: seq<Op>, at: seq<nat>, us: set<string>, p: nat, q: nat)
    requires CanonLaws(canon) && FairRun(canon, b, run, at, us) && p < q < |at| <= |us|
    ensures Reserves(canon, b, run, at[p]) != Reserves(canon, b, run, at[q])
  {
    var u := Reserves(canon, b, run, at[p]).value;
    if Reserves(canon, b, run, at[q]) == Some(u) {
      var picks := Picks(canon, b, run, at);
      var between := Between(picks, p + 1, q);
      forall v | v in us - {u} ensures v in between { EachBetween(canon, b, run, at, us, p, q, u, v); }
      SubsetSize(us - {u}, between);
      BetweenSize(picks, p + 1, q);
    }
  }

  /** Between two probes of u every other hint is tried. */
  lemma EachBetween(canon: Canon, b: Book, run: seq<Op>, at: seq<nat>, us: set<string>, p: nat, q: nat, u: string,
          v: string)
    requires CanonLaws(canon) && FairRun(canon, b, run, at, us) && p < q < |at| && u in us && v in us && u != v
    requires Reserves(canon, b, run, at[p]) == Some(u) && Reserves(canon, b, run, at[q]) == Some(u)
    ensures v in Between(Picks(canon, b, run, at), p + 1, q)
  {
    StayNarrow(canon, b, run, at, us, p, q, u, v);
    EveryProbeIsFair(canon, b, run, at, us, p, v);
    NoHintStarves(canon, b, run, at[p], at[q], u, v);
    var m :| at[p] < m < at[q] && Reserves(canon, b, run, m) == Some(v);
    ListedPick(canon, b, run, at, p, q, m, v);
  }

  lemma ListedPick(canon: Canon, b: Book, run: seq<Op>, at: seq<nat>, p: nat, q: nat, m: nat, v: string)
    requires Consecutive(canon, b, run, at) && p < q < |at| && at[p] < m < at[q]
    requires Reserves(canon, b, run, m) == Some(v)
    ensures v in Between(Picks(canon, b, run, at), p + 1, q)
  {
    ListedBetween(canon, b, run, at, p, q, m);
    var r :| p < r < q && at[r] == m;
    PickedBetween(Picks(canon, b, run, at), p + 1, q, r, v);
  }

  lemma PickedBetween(picks: seq<Option<string>>, p: nat, q: nat, r: nat, v: string)
    requires p <= r < q <= |picks| && picks[r] == Some(v)
    ensures v in Between(picks, p, q)
  {
  }

  lemma StayNarrow(canon: Canon, b: Book, run: seq<Op>, at: seq<nat>, us: set<string>, p: nat, q: nat, u: string,
          v: string)
    requires Consecutive(canon, b, run, at) && p < q < |at| && AllStay(canon, b, run, at[0], at[|at| - 1], us)
    requires u in us && v in us
    ensures BothStay(canon, b, run, at[p], at[q], u, v)
  {
    assert at[0] <= at[p] && at[q] <= at[|at| - 1];
    StayShorter(canon, b, run, at[0], at[|at| - 1], at[p], at[q], u, v);
  }

  lemma StayShorter(canon: Canon, b: Book, run: seq<Op>, i: nat, j: nat, i': nat, j': nat, u: string, v: string)
    requires i <= i' && j' <= j < |run| && BothStay(canon, b, run, i, j, u, v)
    ensures BothStay(canon, b, run, i', j', u, v)
  {
  }

  // ---- The two ways to starve, and a record that does not ----

  function TwoHints(tu: int, tv: int, due: int): Book {
    Book("", "", [Candidate("u", 1_000_000, 0, tu), Candidate("v", 1_000_000, 0, tv)], due)
  }

  /** Both hints offered at 1_000_000, and the next probe due at 1_030_000. */
  const TWICE := [Dial(["u", "v"], 1_000_000), Dial(["u", "v"], 1_030_000)]

  lemma ProbesU(canon: Canon, tu: int, tv: int, due: int, now: int)
    requires CanonLaws(canon) && canon("u", true) == Some("u") && canon("v", true) == Some("v")
    requires 1_000_000 <= now <= 1_100_000 && due <= now && tu <= tv && tu < MAX_INT64
    ensures Reserved(canon, TwoHints(tu, tv, due), Dial(["u", "v"], now)) == Some("u")
    ensures Act(canon, TwoHints(tu, tv, due), Dial(["u", "v"], now)) == TwoHints(now, tv, now + INTERVAL)
  {
    var b, addrs := TwoHints(tu, tv, due), ["u", "v"];
    NormalizeOfTidy(canon, b, now);
    OldestIsOldest(b.candidates, addrs);
    assert Eligible(b.candidates[0], addrs);
    assert Probe(b, addrs, now) == Some(0);
    assert Attempt(b, 0, now) == TwoHints(now, tv, now + INTERVAL);
  }

  lemma IndexTwo(x: Candidate, y: Candidate)
    requires x.address != y.address
    ensures IndexOf([x, y], x.address) == 0 && IndexOf([x, y], y.address) == 1
  {
  }

  /** With v stored second, it is starved exactly when its stamp is the clock's or later. */
  lemma StarvableTwo(canon: Canon, tv: int)
    requires CanonLaws(canon) && canon("u", true) == Some("u") && canon("v", true) == Some("v")
    ensures Starvable(canon, TwoHints(0, tv, 0), TWICE[0], "u", "v") <==> tv >= 1_000_000
  {
    var b := TwoHints(0, tv, 0);
    NormalizeOfTidy(canon, b, TWICE[0].now);
    var x, y := b.candidates[0], b.candidates[1];
    IndexTwo(x, y);
    assert Normalize(canon, b, TWICE[0].now).candidates == [x, y];
  }

  lemma StampStarves(canon: Canon, tv: int)
    requires CanonLaws(canon) && canon("u", true) == Some("u") && canon("v", true) == Some("v") && tv >= 1_000_000
    ensures Forward(TWICE) && Starvable(canon, TwoHints(0, tv, 0), TWICE[0], "u", "v")
    ensures Reserves(canon, TwoHints(0, tv, 0), TWICE, 0) == Some("u")
    ensures Reserves(canon, TwoHints(0, tv, 0), TWICE, 1) == Some("u")
  {
    var b := TwoHints(0, tv, 0);
    StarvableTwo(canon, tv);
    ProbesU(canon, 0, tv, 0, 1_000_000);
    ProbesU(canon, 1_000_000, tv, 1_030_000, 1_030_000);
    assert TWICE[..0] == [];
    AtStep(canon, b, TWICE, 0);
  }

  /**
   * An attempt stamp is not clamped to the clock, so one from the future, left on disk by a
   * clock that ran ahead, does starve its hint: two probes in a row go to the other one.
   */
  lemma FutureStampStarves(canon: Canon)
    requires CanonLaws(canon) && canon("u", true) == Some("u") && canon("v", true) == Some("v")
    ensures var b := TwoHints(0, 2_000_000, 0);
            && Forward(TWICE) && Starvable(canon, b, TWICE[0], "u", "v")
            && Reserves(canon, b, TWICE, 0) == Some("u") && Reserves(canon, b, TWICE, 1) == Some("u")
  {
    StampStarves(canon, 2_000_000);
  }

  /** And so does a stamp equal to the clock, when the hint stands second: the tie goes to the first. */
  lemma TiedStampStarves(canon: Canon)
    requires CanonLaws(canon) && canon("u", true) == Some("u") && canon("v", true) == Some("v")
    ensures var b := TwoHints(0, 1_000_000, 0);
            && Forward(TWICE) && Starvable(canon, b, TWICE[0], "u", "v")
            && Reserves(canon, b, TWICE, 0) == Some("u") && Reserves(canon, b, TWICE, 1) == Some("u")
  {
    StampStarves(canon, 1_000_000);
  }

  /** A stamp a second old is fair, though no probe budget covers it: v is tried next. */
  lemma RecentStampIsFair(canon: Canon)
    requires CanonLaws(canon) && canon("u", true) == Some("u") && canon("v", true) == Some("v")
    ensures var b := TwoHints(0, 999_000, 0);
            !Starvable(canon, b, TWICE[0], "u", "v") && Reserves(canon, b, TWICE, 0) == Some("u")
              && Reserves(canon, b, TWICE, 1) == Some("v")
  {
    var b := TwoHints(0, 999_000, 0);
    StarvableTwo(canon, 999_000);
    ProbesU(canon, 0, 999_000, 0, 1_000_000);
    ProbesV(canon, 1_000_000, 999_000, 1_030_000);
    assert TWICE[..0] == [];
    AtStep(canon, b, TWICE, 0);
  }

  lemma ProbesV(canon: Canon, tu: int, tv: int, now: int)
    requires CanonLaws(canon) && canon("u", true) == Some("u") && canon("v", true) == Some("v")
    requires 1_000_000 <= now <= 1_100_000 && tv < tu < MAX_INT64
    ensures Reserved(canon, TwoHints(tu, tv, now), Dial(["u", "v"], now)) == Some("v")
  {
    var b, addrs := TwoHints(tu, tv, now), ["u", "v"];
    NormalizeOfTidy(canon, b, now);
    OldestIsOldest(b.candidates, addrs);
    assert Eligible(b.candidates[1], addrs);
    assert Probe(b, addrs, now) == Some(1);
  }
}
