/**
 * What the address book does, in terms of the record it was given: which stored
 * entries survive normalizing, what an authenticated exchange adds and moves, and
 * exactly which endpoints may be dialled.
 */
module AddressRules {
  import opened Options
  import opened Addresses
  import opened AddressRuns

  // ---- Normalizing ----

  /** Stored entry k names an endpoint and was learned or reached within the last 30 days. */
  predicate Usable(canon: Canon, cs: seq<Candidate>, k: nat, now: int)
    requires k < |cs|
  {
    canon(cs[k].address, true).Some? && (cs[k].learnedAt >= now - TTL || cs[k].lastSuccess >= now - TTL)
  }

  predicate FirstUsable(canon: Canon, cs: seq<Candidate>, k: nat, now: int)
    requires k < |cs|
  {
    && Usable(canon, cs, k, now)
    && forall j | 0 <= j < k && Usable(canon, cs, j, now) :: canon(cs[j].address, true) != canon(cs[k].address, true)
  }

  /**
   * What is kept of it: the canonical address, no stamp of knowledge or success from the future, the
   * attempt stamp as is.
   */
  function Kept(canon: Canon, c: Candidate, now: int): Candidate
    requires canon(c.address, true).Some?
  {
    Candidate(canon(c.address, true).value, if c.learnedAt > now then now else c.learnedAt,
              if c.lastSuccess > now then now else c.lastSuccess, c.lastAttempt)
  }

  predicate KeptFrom(canon: Canon, cs: seq<Candidate>, x: Candidate, now: int) {
    exists k | 0 <= k < |cs| :: FirstUsable(canon, cs, k, now) && x == Kept(canon, cs[k], now)
  }

  lemma UsablePrefix(canon: Canon, cs: seq<Candidate>, k: nat, now: int)
    requires k < |cs| - 1
    ensures Usable(canon, cs[..|cs| - 1], k, now) <==> Usable(canon, cs, k, now)
    ensures FirstUsable(canon, cs[..|cs| - 1], k, now) <==> FirstUsable(canon, cs, k, now)
  {
    var init := cs[..|cs| - 1];
    assert forall j | 0 <= j <= k :: Usable(canon, init, j, now) <==> Usable(canon, cs, j, now);
    if FirstUsable(canon, init, k, now) {
      forall j | 0 <= j < k && Usable(canon, cs, j, now)
        ensures canon(cs[j].address, true) != canon(cs[k].address, true)
      {
        assert Usable(canon, init, j, now);
      }
    }
  }

  lemma KeptFromStep(canon: Canon, cs: seq<Candidate>, x: Candidate, now: int)
    requires cs != []
    ensures var n := |cs| - 1;
            KeptFrom(canon, cs, x, now) <==>
              KeptFrom(canon, cs[..n], x, now) || (FirstUsable(canon, cs, n, now) && x == Kept(canon, cs[n], now))
  {
    var n := |cs| - 1;
    if KeptFrom(canon, cs, x, now) {
      var k :| 0 <= k < |cs| && FirstUsable(canon, cs, k, now) && x == Kept(canon, cs[k], now);
      if k < n { UsablePrefix(canon, cs, k, now); }
    }
    if KeptFrom(canon, cs[..n], x, now) {
      var k :| 0 <= k < n && FirstUsable(canon, cs[..n], k, now) && x == Kept(canon, cs[..n][k], now);
      UsablePrefix(canon, cs, k, now);
    }
  }

  /** Cleaning keeps exactly the first usable entry of every address. */
  lemma {:induction false} CleanMeans(canon: Canon, cs: seq<Candidate>, now: int)
    ensures forall x :: x in Clean(canon, cs, now) <==> KeptFrom(canon, cs, x, now)
    ensures forall a :: Holds(Clean(canon, cs, now), a) <==>
                          exists k | 0 <= k < |cs| :: Usable(canon, cs, k, now) && canon(cs[k].address, true) == Some(a)
  {
    if cs != [] {
      var n := |cs| - 1;
      var init, c, kept := cs[..n], cs[n], Clean(canon, cs[..n], now);
      CleanMeans(canon, init, now);
      LastDecides(canon, cs, now);
      forall x ensures x in Clean(canon, cs, now) <==> KeptFrom(canon, cs, x, now) { KeptFromStep(canon, cs, x, now); }
      forall a ensures Holds(Clean(canon, cs, now), a) <==>
                         exists k | 0 <= k < |cs| :: Usable(canon, cs, k, now) && canon(cs[k].address, true) == Some(a)
      {
        HoldsStep(canon, cs, now, a);
      }
    }
  }

  lemma LastDecides(canon: Canon, cs: seq<Candidate>, now: int)
    requires cs != []
    requires var init := cs[..|cs| - 1];
             forall a :: Holds(Clean(canon, init, now), a) <==>
               exists k | 0 <= k < |init| :: Usable(canon, init, k, now) && canon(init[k].address, true) == Some(a)
    ensures var n := |cs| - 1;
            var kept := Clean(canon, cs[..n], now);
            Clean(canon, cs, now)
            == if FirstUsable(canon, cs, n, now) then kept + [Kept(canon, cs[n], now)] else kept
  {
    var n := |cs| - 1;
    var init, a := cs[..n], canon(cs[n].address, true);
    forall j | 0 <= j < n ensures Usable(canon, init, j, now) <==> Usable(canon, cs, j, now) {
      UsablePrefix(canon, cs, j, now);
    }
    if a.Some? && Holds(Clean(canon, init, now), a.value) {
      var k :| 0 <= k < |init| && Usable(canon, init, k, now) && canon(init[k].address, true) == Some(a.value);
      assert Usable(canon, cs, k, now) && canon(cs[k].address, true) == a;
    }
    if a.Some? {
      if j :| 0 <= j < n && Usable(canon, cs, j, now) && canon(cs[j].address, true) == a {
        assert Usable(canon, init, j, now) && canon(init[j].address, true) == Some(a.value);
      }
    }
  }

  lemma HoldsStep(canon: Canon, cs: seq<Candidate>, now: int, a: string)
    requires cs != []
    requires var init := cs[..|cs| - 1];
             Holds(Clean(canon, init, now), a) <==>
               exists k | 0 <= k < |init| :: Usable(canon, init, k, now) && canon(init[k].address, true) == Some(a)
    requires var n := |cs| - 1;
             var kept := Clean(canon, cs[..n], now);
             Clean(canon, cs, now)
             == if FirstUsable(canon, cs, n, now) then kept + [Kept(canon, cs[n], now)] else kept
    ensures Holds(Clean(canon, cs, now), a) <==>
              exists k | 0 <= k < |cs| :: Usable(canon, cs, k, now) && canon(cs[k].address, true) == Some(a)
  {
    var n := |cs| - 1;
    var init, kept, all := cs[..n], Clean(canon, cs[..n], now), Clean(canon, cs, now);
    forall j | 0 <= j < n ensures Usable(canon, init, j, now) <==> Usable(canon, cs, j, now) {
      UsablePrefix(canon, cs, j, now);
    }
    if Holds(all, a) {
      var k :| 0 <= k < |all| && all[k].address == a;
      if k < |kept| {
        assert kept[k].address == a;
        var j :| 0 <= j < |init| && Usable(canon, init, j, now) && canon(init[j].address, true) == Some(a);
        assert Usable(canon, cs, j, now) && canon(cs[j].address, true) == Some(a);
      } else {
        assert Usable(canon, cs, n, now) && canon(cs[n].address, true) == Some(a);
      }
    }
    if k :| 0 <= k < |cs| && Usable(canon, cs, k, now) && canon(cs[k].address, true) == Some(a) {
      if k < n {
        assert Usable(canon, init, k, now) && canon(init[k].address, true) == Some(a);
        HoldsPrefix(kept, all, a);
      } else if FirstUsable(canon, cs, n, now) {
        assert all[|kept|].address == a;
      } else {
        var j :| 0 <= j < n && Usable(canon, cs, j, now) && canon(cs[j].address, true) == canon(cs[n].address, true);
        assert Usable(canon, init, j, now) && canon(init[j].address, true) == Some(a);
        HoldsPrefix(kept, all, a);
      }
    }
  }

  lemma HoldsPrefix(kept: seq<Candidate>, all: seq<Candidate>, a: string)
    requires kept <= all && Holds(kept, a)
    ensures Holds(all, a)
  {
    var k :| 0 <= k < |kept| && kept[k].address == a;
    assert all[k] == kept[k];
  }

  /** The longest list of most recent successes: what is left out is no more recent than anything kept. */
  lemma TakeKeepsRecent(s: seq<Candidate>, n: nat, x: Candidate)
    requires Sorted(s) && x in s
    ensures x in Take(s, n) || (|Take(s, n)| == n && forall y | y in Take(s, n) :: y.lastSuccess >= x.lastSuccess)
  {
    var k :| 0 <= k < |s| && s[k] == x;
    if |s| > n && k < n { assert s[..n][k] == x; }
    if |s| > n && k >= n {
      forall y | y in s[..n] ensures y.lastSuccess >= x.lastSuccess { var j :| 0 <= j < n && s[..n][j] == y; }
    }
  }

  predicate ProvenEntry(cs: seq<Candidate>, a: string) {
    exists c | c in cs :: c.address == a && c.lastSuccess > 0
  }

  lemma NormalizedEntries(canon: Canon, b: Book, now: int)
    requires CanonLaws(canon)
    ensures var n := Normalize(canon, b, now);
            && (forall x | x in n.candidates :: KeptFrom(canon, b.candidates, x, now))
            && (forall x | KeptFrom(canon, b.candidates, x, now) ::
                  x in n.candidates
                    || (|n.candidates| == 7 && forall y | y in n.candidates :: y.lastSuccess >= x.lastSuccess))
  {
    var clean := Clean(canon, b.candidates, now);
    var n, s := Normalize(canon, b, now), Sort(clean);
    CleanMeans(canon, b.candidates, now);
    SortSorted(clean);
    forall x ensures x in s <==> KeptFrom(canon, b.candidates, x, now) { SortHas(clean, x); }
    forall x | x in n.candidates ensures x in s { }
    forall x | KeptFrom(canon, b.candidates, x, now)
      ensures x in n.candidates
              || (|n.candidates| == 7 && forall y | y in n.candidates :: y.lastSuccess >= x.lastSuccess)
    {
      TakeKeepsRecent(s, MAX_HINTS, x);
    }
  }

  /**
   * Normalizing a record: every entry left is the first usable one of its address, and one of those is
   * left out only if seven at least as recently successful ones are kept; the shown address stays if it
   * is the pairing one or proven, and is otherwise the most recently proven, or the pairing one; the
   * pairing address is the record's own or, for a record without either, its shown one; and the next
   * probe is at most 30 s away.
   */
  lemma NormalizeMeans(canon: Canon, b: Book, now: int)
    requires CanonLaws(canon)
    ensures var n := Normalize(canon, b, now);
            var text := if b.pairing == "" && b.candidates == [] then b.display else b.pairing;
            && (forall x | x in n.candidates :: KeptFrom(canon, b.candidates, x, now))
            && (forall x | KeptFrom(canon, b.candidates, x, now) ::
                  x in n.candidates
                    || (|n.candidates| == 7 && forall y | y in n.candidates :: y.lastSuccess >= x.lastSuccess))
            && n.pairing == (if canon(text, true).Some? then canon(text, true).value else "")
            && (if b.display == n.pairing || ProvenEntry(n.candidates, b.display) then n.display == b.display
                else if exists c | c in n.candidates :: c.lastSuccess > 0
                then ProvenEntry(n.candidates, n.display) && n.candidates[0].address == n.display
                else n.display == n.pairing)
            && n.nextProbe == if b.nextProbe > now + 30_000 then now + 30_000 else b.nextProbe
  {
    NormalizedEntries(canon, b, now);
    SortSorted(Clean(canon, b.candidates, now));
    var n := Normalize(canon, b, now);
    ShownMeans(b.display, n.pairing, n.candidates);
  }

  lemma ShownMeans(display: string, pairing: string, cs: seq<Candidate>)
    requires Sorted(cs)
    ensures var d := Shown(display, pairing, cs);
            if display == pairing || ProvenEntry(cs, display) then d == display
            else if exists c | c in cs :: c.lastSuccess > 0 then ProvenEntry(cs, d) && cs[0].address == d
            else d == pairing
  {
    if c :| c in cs && c.address == display && c.lastSuccess > 0 { var k :| 0 <= k < |cs| && cs[k] == c; }
    if Proven(cs, display) {
      var k :| 0 <= k < |cs| && cs[k].address == display && cs[k].lastSuccess > 0;
      assert cs[k] in cs;
    }
    if c :| c in cs && c.lastSuccess > 0 {
      var k :| 0 <= k < |cs| && cs[k] == c;
      assert cs[0].lastSuccess >= cs[k].lastSuccess && cs[0] in cs;
    }
    if cs != [] && cs[0].lastSuccess > 0 { assert cs[0] in cs; }
  }

  // ---- Learning ----

  predicate Newcomer(c: Candidate, now: int) {
    c.learnedAt == now && c.lastSuccess == 0 && c.lastAttempt == 0
  }

  predicate Reported(canon: Canon, reports: seq<string>, a: string) {
    exists e | e in reports :: canon(e, false) == Some(a)
  }

  lemma ReportedStep(canon: Canon, reports: seq<string>, a: string)
    requires reports != []
    ensures var n := |reports| - 1;
            Reported(canon, reports, a) <==> Reported(canon, reports[..n], a) || canon(reports[n], false) == Some(a)
  {
    var init := reports[..|reports| - 1];
    assert reports == init + [reports[|reports| - 1]];
  }

  /** Reports append unproven newcomers, each a reported address other than the pairing one, while there is room. */
  lemma {:induction false} ReportsMean(canon: Canon, b: Book, reports: seq<string>, now: int)
    ensures var b' := Reports(canon, b, reports, now);
            && b' == b.(candidates := b'.candidates) && b.candidates <= b'.candidates
            && (forall k | |b.candidates| <= k < |b'.candidates| ::
                  && Newcomer(b'.candidates[k], now) && b'.candidates[k].address != b.pairing
                  && Reported(canon, reports, b'.candidates[k].address))
            && (forall a | Reported(canon, reports, a) && a != b.pairing ::
                  Holds(b'.candidates, a) || |b'.candidates| >= MAX_HINTS)
  {
    if reports != [] {
      var n := |reports| - 1;
      ReportsMean(canon, b, reports[..n], now);
      var r, b', a := Reports(canon, b, reports[..n], now), Reports(canon, b, reports, now), canon(reports[n], false);
      forall x ensures Reported(canon, reports, x) <==> Reported(canon, reports[..n], x) || a == Some(x) {
        ReportedStep(canon, reports, x);
      }
      if a.Some? { ReportMeans(r, a.value, now); }
      forall x | Reported(canon, reports, x) && x != b.pairing
        ensures Holds(b'.candidates, x) || |b'.candidates| >= MAX_HINTS
      {
        if Holds(r.candidates, x) { HoldsPrefix(r.candidates, b'.candidates, x); }
      }
    }
  }

  lemma ReportMeans(b: Book, a: string, now: int)
    ensures var b' := Report(b, a, now);
            && b' == b.(candidates := b'.candidates)
            && (a != b.pairing && !Holds(b.candidates, a) && |b.candidates| < MAX_HINTS ==>
                  |b'.candidates| == |b.candidates| + 1 && b'.candidates[..|b.candidates|] == b.candidates
                  && b'.candidates[|b.candidates|] == Candidate(a, now, 0, 0) && Holds(b'.candidates, a))
            && (a == b.pairing || Holds(b.candidates, a) || |b.candidates| >= MAX_HINTS ==> b' == b)
  {
    var b' := Report(b, a, now);
    if a != b.pairing && !Holds(b.candidates, a) && |b.candidates| < MAX_HINTS {
      assert b'.candidates[|b.candidates|].address == a;
    }
  }

  /** The record after a success with this endpoint. */
  ghost predicate Contacted(b: Book, b': Book, a: string, now: int) {
    && b' == b.(candidates := b'.candidates, display := a) && b'.candidates != []
    && b'.candidates[0].address == a && b'.candidates[0].lastSuccess == now
    && (forall x :: Holds(b'.candidates, x) ==> Holds(b.candidates, x) || x == a)
    && (forall x :: Holds(b.candidates, x) ==> Holds(b'.candidates, x) || |b'.candidates| == MAX_HINTS)
    && (b.candidates != [] && b.candidates[0].address != a
        ==> |b'.candidates| > 1 && b'.candidates[1] == b.candidates[0])
  }

  lemma SucceedMeans(b: Book, a: string, now: int)
    ensures Contacted(b, Succeed(b, a, now), a, now)
  {
    var b', i := Succeed(b, a, now), IndexOf(b.candidates, a);
    var rest := if i < |b.candidates| then b.candidates[..i] + b.candidates[i + 1..] else b.candidates;
    forall x ensures Holds(b'.candidates, x) ==> Holds(b.candidates, x) || x == a {
      if Holds(b'.candidates, x) {
        var k :| 0 <= k < |b'.candidates| && b'.candidates[k].address == x;
        if k > 0 { assert b'.candidates[k] == rest[k - 1] && rest[k - 1] in b.candidates; }
      }
    }
    forall x ensures Holds(b.candidates, x) ==> Holds(b'.candidates, x) || |b'.candidates| == MAX_HINTS {
      if Holds(b.candidates, x) && x != a && |b'.candidates| != MAX_HINTS {
        var k :| 0 <= k < |b.candidates| && b.candidates[k].address == x;
        var j := if k < i then k else k - 1;
        assert i < |b.candidates| ==> rest[j] == b.candidates[k];
        assert b'.candidates[if i < |b.candidates| then j + 1 else k + 1].address == x;
      } else if Holds(b.candidates, x) && x == a {
        assert b'.candidates[0].address == x;
      }
    }
    if b.candidates != [] && b.candidates[0].address != a { assert rest[0] == b.candidates[0]; }
  }

  /** The endpoints one exchange proved: the address it arrived from, then the one the dial succeeded on. */
  function Proved(canon: Canon, observed: string, success: string): set<string> {
    (if canon(observed, true).Some? then {canon(observed, true).value} else {})
    + (if canon(success, true).Some? then {canon(success, true).value} else {})
  }

  /**
   * One authenticated exchange: the endpoint dialled last with success leads the list and is shown, the
   * one observed follows; of the first eight reports those that are new get in as unproven newcomers while
   * there is room; nothing else is added, and nothing known is dropped unless the list is full.
   */
  lemma LearnMeans(canon: Canon, b: Book, observed: string, success: string, reports: seq<string>, now: int)
    ensures var n, b' := Normalize(canon, b, now), Learn(canon, b, observed, success, reports, now);
            var o, s, proved := canon(observed, true), canon(success, true), Proved(canon, observed, success);
            var heard := if |reports| <= 8 then reports else reports[..8];
            && b'.pairing == n.pairing && b'.nextProbe == n.nextProbe
            && (s.Some? ==> Leads(b', s.value, now))
            && (s.None? && o.Some? ==> Leads(b', o.value, now))
            && (s.Some? && o.Some? && o != s ==>
                  |b'.candidates| > 1 && b'.candidates[1].address == o.value && b'.candidates[1].lastSuccess == now)
            && (s.None? && o.None? ==> b'.display == n.display)
            && (forall a | Holds(b'.candidates, a) ::
                  Holds(n.candidates, a) || a in proved || (Reported(canon, heard, a) && a != n.pairing))
            && (forall a | Holds(n.candidates, a) || (Reported(canon, heard, a) && a != n.pairing) ::
                  Holds(b'.candidates, a) || |b'.candidates| >= MAX_HINTS)
            && (forall c | c in b'.candidates && !Holds(n.candidates, c.address) && c.address !in proved ::
                Newcomer(c, now))
  {
    var n := Normalize(canon, b, now);
    var o, s := canon(observed, true), canon(success, true);
    var b1 := if o.Some? then Succeed(n, o.value, now) else n;
    if o.Some? { SucceedMeans(n, o.value, now); }
    var b2 := if s.Some? then Succeed(b1, s.value, now) else b1;
    if s.Some? { SucceedMeans(b1, s.value, now); }
    var heard := if |reports| <= 8 then reports else reports[..8];
    ReportsMean(canon, b2, heard, now);
    var b' := Reports(canon, b2, heard, now);
    assert b' == Learn(canon, b, observed, success, reports, now);
    forall a ensures Holds(b2.candidates, a) ==> Holds(b'.candidates, a) {
      if Holds(b2.candidates, a) { HoldsPrefix(b2.candidates, b'.candidates, a); }
    }
    forall c | c in b'.candidates
      ensures Holds(b2.candidates, c.address)
              || (Newcomer(c, now) && c.address != n.pairing && Reported(canon, heard, c.address))
    {
      var k :| 0 <= k < |b'.candidates| && b'.candidates[k] == c;
      if k < |b2.candidates| { assert b2.candidates[k] == c; }
    }
    forall a | Holds(b'.candidates, a)
      ensures Holds(n.candidates, a) || a in Proved(canon, observed, success)
              || (Reported(canon, heard, a) && a != n.pairing)
    {
      var k :| 0 <= k < |b'.candidates| && b'.candidates[k].address == a;
      assert b'.candidates[k] in b'.candidates;
    }
  }

  /** First in the list, proven now, and shown. */
  predicate Leads(b: Book, a: string, now: int) {
    b.display == a && b.candidates != [] && b.candidates[0].address == a && b.candidates[0].lastSuccess == now
  }

  // ---- Dialling ----

  /** The hint the reservation is for, if one was made. */
  predicate IsHint(cs: seq<Candidate>, p: Option<nat>, a: string) {
    p.Some? && p.value < |cs| && cs[p.value].address == a
  }

  /**
   * What may be dialled: of the endpoints offered exactly the proven ones, the pairing address, and the
   * one hint a reservation was made for. A reservation is made exactly when 30 s have passed and some
   * unproven candidate is offered; it names such a one and is the record's only change.
   */
  lemma DialsAre(canon: Canon, b: Book, addrs: seq<string>, now: int)
    requires CanonLaws(canon)
    ensures var n := Normalize(canon, b, now);
            var (b', out, p) := Limit(canon, b, addrs, now);
            && (forall a :: a in out <==>
                  a in addrs && (ProvenEntry(n.candidates, a) || a == n.pairing || IsHint(n.candidates, p, a)))
            && (p.Some? <==> now >= n.nextProbe && exists c | c in n.candidates ::
                               c.lastSuccess == 0 && c.address in addrs && c.lastAttempt < MAX_INT64)
            && (p.None? ==> b' == n)
            && (p.Some? ==>
                  && p.value < |n.candidates| && n.candidates[p.value].lastSuccess == 0
                  && n.candidates[p.value].address in addrs && n.candidates[p.value].address in out
                  && b' == n.(nextProbe := now + 30_000,
                              candidates := n.candidates[p.value := n.candidates[p.value].(lastAttempt := now)]))
  {
    var n := Normalize(canon, b, now);
    NormalizeTidies(canon, b, now);
    var probe := Probe(n, addrs, now);
    OldestMeans(n.candidates, addrs);
    var (b', out, p) := Limit(canon, b, addrs, now);
    FilterSound(n, p, addrs);
    FilterComplete(n, p, addrs);
    forall a
      ensures Allowed(n, p, a) <==> ProvenEntry(n.candidates, a) || a == n.pairing || IsHint(n.candidates, p, a)
    {
      ProvenIsEntry(n.candidates, a);
    }
  }

  /** The endpoints to dial stand in the order in which they were first offered. */
  lemma {:induction false} DialsInOrder(b: Book, probe: Option<nat>, addrs: seq<string>) returns (at: seq<nat>)
    ensures var out := Filter(b, probe, addrs);
            && |at| == |out| && (forall k | 0 <= k < |at| :: at[k] < |addrs| && addrs[at[k]] == out[k])
            && (forall j, k | 0 <= j < k < |at| :: at[j] < at[k])
            && (forall j, k | 0 <= j < |addrs| && 0 <= k < |at| && addrs[j] == out[k] :: at[k] <= j)
  {
    at := [];
    if addrs != [] {
      var n := |addrs| - 1;
      at := DialsInOrder(b, probe, addrs[..n]);
      var out, a := Filter(b, probe, addrs[..n]), addrs[n];
      FilterSound(b, probe, addrs[..n]);
      if Allowed(b, probe, a) && a !in out && |out| < MAX_ADDRESSES {
        forall j | 0 <= j < n && addrs[j] == a ensures false {
          EarlierIsIn(b, probe, addrs[..n], j);
        }
        at := at + [n];
      }
    }
  }

  /** An allowed endpoint offered before is in, unless eight others are. */
  lemma {:induction false} EarlierIsIn(b: Book, probe: Option<nat>, addrs: seq<string>, j: nat)
    requires j < |addrs| && Allowed(b, probe, addrs[j])
    ensures addrs[j] in Filter(b, probe, addrs) || |Filter(b, probe, addrs)| >= MAX_ADDRESSES
  {
    if j < |addrs| - 1 { EarlierIsIn(b, probe, addrs[..|addrs| - 1], j); }
  }

  lemma ProvenIsEntry(cs: seq<Candidate>, a: string)
    ensures Proven(cs, a) <==> ProvenEntry(cs, a)
  {
    if Proven(cs, a) {
      var k :| 0 <= k < |cs| && cs[k].address == a && cs[k].lastSuccess > 0;
      assert cs[k] in cs;
    }
    if c :| c in cs && c.address == a && c.lastSuccess > 0 { var k :| 0 <= k < |cs| && cs[k] == c; }
  }

  lemma {:induction false} OldestMeans(cs: seq<Candidate>, addrs: seq<string>)
    ensures var p := Oldest(cs, addrs);
            && (p.Some? <==> exists c | c in cs ::
                c.lastSuccess == 0 && c.address in addrs && c.lastAttempt < MAX_INT64)
            && (p.Some? ==> p.value < |cs| && cs[p.value].lastSuccess == 0 && cs[p.value].address in addrs)
  {
    if cs != [] {
      var init := cs[..|cs| - 1];
      OldestMeans(init, addrs);
      assert cs == init + [cs[|cs| - 1]];
    }
  }
}
