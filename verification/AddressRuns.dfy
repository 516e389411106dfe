/**
 * Runs of learn, normalize and limit on one member's book, under a clock that does
 * not go back: the book stays bounded, and two probes of unproven endpoints are at
 * least 30 seconds apart.
 */
module AddressRuns {
  import opened Options
  import opened Addresses

  datatype Op =
    | Renormalize(now: int)
    | Hear(observed: string, success: string, reports: seq<string>, now: int)
    | Dial(addrs: seq<string>, now: int)

  function Act(canon: Canon, b: Book, op: Op): Book {
    match op
    case Renormalize(now) => Normalize(canon, b, now)
    case Hear(observed, success, reports, now) => Learn(canon, b, observed, success, reports, now)
    case Dial(addrs, now) => Limit(canon, b, addrs, now).0
  }

  /** The unproven endpoint this step reserves. */
  function Reserved(canon: Canon, b: Book, op: Op): Option<string> {
    if op.Dial? then
      var n := Normalize(canon, b, op.now);
      var p := Probe(n, op.addrs, op.now);
      if p.Some? && p.value < |n.candidates| then Some(n.candidates[p.value].address) else None
    else None
  }

  function Exec(canon: Canon, b: Book, run: seq<Op>): Book {
    if run == [] then b else Act(canon, Exec(canon, b, run[..|run| - 1]), run[|run| - 1])
  }

  /** The book before step k. */
  function At(canon: Canon, b: Book, run: seq<Op>, k: nat): Book
    requires k <= |run|
  {
    Exec(canon, b, run[..k])
  }

  function Reserves(canon: Canon, b: Book, run: seq<Op>, k: nat): Option<string>
    requires k < |run|
  {
    Reserved(canon, At(canon, b, run, k), run[k])
  }

  /** The clock does not go back. */
  predicate Forward(run: seq<Op>) {
    forall i, j | 0 <= i <= j < |run| :: run[i].now <= run[j].now
  }

  lemma AtStep(canon: Canon, b: Book, run: seq<Op>, k: nat)
    requires k < |run|
    ensures At(canon, b, run, k + 1) == Act(canon, At(canon, b, run, k), run[k])
  {
    assert run[..k + 1][..k] == run[..k];
  }

  // ---- The budget ----

  lemma ActBudget(canon: Canon, b: Book, op: Op, due: int)
    requires b.nextProbe >= due && op.now + INTERVAL >= due
    ensures Act(canon, b, op).nextProbe >= due
  {
    if op.Hear? { LearnKeepsBudget(canon, b, op.observed, op.success, op.reports, op.now); }
  }

  lemma LearnKeepsBudget(canon: Canon, b: Book, observed: string, success: string, reports: seq<string>, now: int)
    ensures Learn(canon, b, observed, success, reports, now).nextProbe == Normalize(canon, b, now).nextProbe
  {
    var b0 := Normalize(canon, b, now);
    var o, s := canon(observed, true), canon(success, true);
    var b1 := if o.Some? then Succeed(b0, o.value, now) else b0;
    var b2 := if s.Some? then Succeed(b1, s.value, now) else b1;
    ReportsAppend(canon, b2, if |reports| <= MAX_ADDRESSES then reports else reports[..MAX_ADDRESSES], now);
  }

  lemma ReserveSpends(canon: Canon, b: Book, op: Op)
    requires Reserved(canon, b, op).Some?
    ensures op.Dial? && op.now >= Normalize(canon, b, op.now).nextProbe
    ensures Act(canon, b, op).nextProbe == op.now + INTERVAL
  {
  }

  lemma ReserveSpendsAt(canon: Canon, b: Book, run: seq<Op>, k: nat)
    requires k < |run| && Reserves(canon, b, run, k).Some?
    ensures At(canon, b, run, k + 1).nextProbe == run[k].now + INTERVAL
  {
    AtStep(canon, b, run, k);
    ReserveSpends(canon, At(canon, b, run, k), run[k]);
  }

  lemma BudgetAt(canon: Canon, b: Book, run: seq<Op>, k: nat, due: int)
    requires k < |run| && At(canon, b, run, k).nextProbe >= due && run[k].now + INTERVAL >= due
    ensures At(canon, b, run, k + 1).nextProbe >= due
  {
    AtStep(canon, b, run, k);
    ActBudget(canon, At(canon, b, run, k), run[k], due);
  }

  lemma {:induction false} BudgetHolds(canon: Canon, b: Book, run: seq<Op>, i: nat, k: nat)
    requires i < k <= |run| && Forward(run) && Reserves(canon, b, run, i).Some?
    ensures At(canon, b, run, k).nextProbe >= run[i].now + INTERVAL
    decreases k
  {
    if k - 1 == i {
      ReserveSpendsAt(canon, b, run, i);
    } else {
      BudgetHolds(canon, b, run, i, k - 1);
      BudgetAt(canon, b, run, k - 1, run[i].now + INTERVAL);
    }
  }

  /** Two reservations are at least 30 seconds apart, whatever the peer claims in between. */
  lemma DialBudget(canon: Canon, b: Book, run: seq<Op>, i: nat, j: nat)
    requires i < j < |run| && Forward(run) && Reserves(canon, b, run, i).Some? && Reserves(canon, b, run, j).Some?
    ensures run[j].now >= run[i].now + INTERVAL
  {
    BudgetHolds(canon, b, run, i, j);
    ReserveSpends(canon, At(canon, b, run, j), run[j]);
  }

  // ---- What may be dialled ----

  /** Only offered, allowed, distinct endpoints are dialled, at most eight. */
  lemma {:induction false} FilterSound(b: Book, probe: Option<nat>, addrs: seq<string>)
    ensures var out := Filter(b, probe, addrs);
            && (forall a | a in out :: a in addrs && Allowed(b, probe, a))
            && (forall i, j | 0 <= i < j < |out| :: out[i] != out[j]) && |out| <= MAX_ADDRESSES
  {
    if addrs != [] {
      FilterSound(b, probe, addrs[..|addrs| - 1]);
      assert addrs == addrs[..|addrs| - 1] + [addrs[|addrs| - 1]];
    }
  }

  function AddressSet(cs: seq<Candidate>): set<string> {
    set k | 0 <= k < |cs| :: cs[k].address
  }

  lemma {:induction false} AddressSetSize(cs: seq<Candidate>)
    ensures |AddressSet(cs)| <= |cs|
  {
    if cs != [] {
      var init := cs[..|cs| - 1];
      AddressSetSize(init);
      assert AddressSet(cs) <= AddressSet(init) + {cs[|cs| - 1].address};
      SubsetSize(AddressSet(cs), AddressSet(init) + {cs[|cs| - 1].address});
    }
  }

  lemma {:induction false} SubsetSize(a: set<string>, b: set<string>)
    requires a <= b
    ensures |a| <= |b|
  {
    if a != {} {
      var x :| x in a;
      SubsetSize(a - {x}, b - {x});
    }
  }

  lemma {:induction false} DistinctSize(s: seq<string>)
    requires forall i, j | 0 <= i < j < |s| :: s[i] != s[j]
    ensures |set x | x in s| == |s|
  {
    if s != [] {
      var init, last := s[..|s| - 1], s[|s| - 1];
      DistinctSize(init);
      assert s == init + [last];
      assert (set x | x in s) == (set x | x in init) + {last};
    }
  }

  /** At most seven candidates and the pairing address can ever be allowed. */
  lemma AllowedFit(b: Book, probe: Option<nat>, out: seq<string>, a: string)
    requires |b.candidates| <= MAX_HINTS && (forall x | x in out :: Allowed(b, probe, x))
    requires forall i, j | 0 <= i < j < |out| :: out[i] != out[j]
    requires Allowed(b, probe, a) && a !in out
    ensures |out| < MAX_ADDRESSES
  {
    var all := AddressSet(b.candidates) + {b.pairing};
    var used := set x | x in out;
    AddressSetSize(b.candidates);
    DistinctSize(out);
    forall x | x in used + {a} ensures x in all { AllowedIn(b, probe, x); }
    SubsetSize(used + {a}, all);
  }

  lemma AllowedIn(b: Book, probe: Option<nat>, x: string)
    requires Allowed(b, probe, x)
    ensures x in AddressSet(b.candidates) + {b.pairing}
  {
    if Proven(b.candidates, x) {
      var k :| 0 <= k < |b.candidates| && b.candidates[k].address == x && b.candidates[k].lastSuccess > 0;
    }
  }

  /** The cap of eight never cuts an allowed address. */
  lemma {:induction false} FilterComplete(b: Book, probe: Option<nat>, addrs: seq<string>)
    requires |b.candidates| <= MAX_HINTS
    ensures forall a | a in addrs && Allowed(b, probe, a) :: a in Filter(b, probe, addrs)
  {
    if addrs != [] {
      var init, last := addrs[..|addrs| - 1], addrs[|addrs| - 1];
      FilterComplete(b, probe, init);
      FilterSound(b, probe, init);
      assert addrs == init + [last];
      if Allowed(b, probe, last) && last !in Filter(b, probe, init) {
        AllowedFit(b, probe, Filter(b, probe, init), last);
      }
    }
  }

  // ---- The book's invariant over runs ----

  lemma AttemptTidy(canon: Canon, b: Book, i: nat, now: int)
    requires Tidy(canon, b, now) && NonNegative(b.candidates) && i < |b.candidates|
    ensures Tidy(canon, Attempt(b, i, now), now) && NonNegative(Attempt(b, i, now).candidates)
  {
    var b' := Attempt(b, i, now);
    forall k | 0 <= k < |b'.candidates| ensures Neat(canon, b'.candidates[k], now) {
      assert Neat(canon, b.candidates[k], now);
    }
    if Proven(b.candidates, b.display) {
      var k :| 0 <= k < |b.candidates| && b.candidates[k].address == b.display && b.candidates[k].lastSuccess > 0;
      assert b'.candidates[k].address == b.display;
    }
  }

  lemma ActTidy(canon: Canon, b: Book, op: Op)
    requires CanonLaws(canon) && NonNegative(b.candidates) && op.now > 0
    ensures Tidy(canon, Act(canon, b, op), op.now) && NonNegative(Act(canon, b, op).candidates)
  {
    NormalizeTidies(canon, b, op.now);
    NormalizeNonNegative(canon, b, op.now);
    match op
    case Renormalize(now) =>
    case Hear(observed, success, reports, now) => LearnTidy(canon, b, observed, success, reports, now);
    case Dial(addrs, now) =>
      var n := Normalize(canon, b, now);
      var p := Probe(n, addrs, now);
      if p.Some? && p.value < |n.candidates| { AttemptTidy(canon, n, p.value, now); }
  }

  /** After every step of every run the book is bounded, ordered, canonical, and shows only what it may. */
  lemma {:induction false} RunTidy(canon: Canon, b: Book, run: seq<Op>, k: nat)
    requires CanonLaws(canon) && NonNegative(b.candidates) && k <= |run| && forall i | 0 <= i < |run| :: run[i].now > 0
    ensures NonNegative(At(canon, b, run, k).candidates)
    ensures k > 0 ==> Tidy(canon, At(canon, b, run, k), run[k - 1].now)
    decreases k
  {
    if k > 0 {
      RunTidy(canon, b, run, k - 1);
      AtStep(canon, b, run, k - 1);
      ActTidy(canon, At(canon, b, run, k - 1), run[k - 1]);
    }
  }
}
