/**
 * The bounded address book the cluster manager keeps for each member
 * (services/nvpair-cluster-manager/addresses.go): normalizing, learning from an
 * authenticated peer, and reserving at most one unproven endpoint per 30 seconds.
 * Times are Unix milliseconds. `canon(e, loopback)` is candidateEndpoint.
 */
module Addresses {
  import opened Options

  const MAX_HINTS := 7 // maxPeerAddresses without the permanent pairing fallback
  const MAX_ADDRESSES := 8
  const TTL := 2_592_000_000
  const INTERVAL := 30_000
  const MAX_INT64 := 0x7FFF_FFFF_FFFF_FFFF

  datatype Candidate = Candidate(address: string, learnedAt: int, lastSuccess: int, lastAttempt: int)

  /** `display` is the member's host and port as one endpoint, "" when it has none. */
  datatype Book = Book(display: string, pairing: string, candidates: seq<Candidate>, nextProbe: int)

  type Canon = (string, bool) -> Option<string>

  /** What candidateEndpoint guarantees: a canonical numeric endpoint is its own canonical form. */
  ghost predicate CanonLaws(canon: Canon) {
    && (forall l :: canon("", l) == None)
    && (forall e, l :: canon(e, l).Some? ==> canon(e, l).value != "" && canon(canon(e, l).value, true) == canon(e, l))
  }

  function Min(a: int, b: int): int {
    if a < b then a else b
  }

  function Max(a: int, b: int): int {
    if a < b then b else a
  }

  // ---- Normalizing ----

  predicate Fresh(c: Candidate, now: int) {
    Max(c.learnedAt, c.lastSuccess) >= now - TTL
  }

  function Clamp(c: Candidate, address: string, now: int): Candidate {
    c.(address := address, learnedAt := Min(c.learnedAt, now), lastSuccess := Min(c.lastSuccess, now))
  }

  predicate Holds(cs: seq<Candidate>, address: string) {
    exists k | 0 <= k < |cs| :: cs[k].address == address
  }

  /** Canonical, unexpired, first of its address, with stamps from the future clamped. */
  function Clean(canon: Canon, cs: seq<Candidate>, now: int): seq<Candidate> {
    if cs == [] then []
    else
      var kept, c := Clean(canon, cs[..|cs| - 1], now), cs[|cs| - 1];
      var a := canon(c.address, true);
      if a.None? || Holds(kept, a.value) || !Fresh(c, now) then kept else kept + [Clamp(c, a.value, now)]
  }

  /** Stable insertion into a list ordered by most recent success. */
  function Insert(c: Candidate, s: seq<Candidate>): seq<Candidate> {
    if s == [] || s[|s| - 1].lastSuccess >= c.lastSuccess then s + [c]
    else Insert(c, s[..|s| - 1]) + [s[|s| - 1]]
  }

  function Sort(s: seq<Candidate>): seq<Candidate> {
    if s == [] then [] else Insert(s[|s| - 1], Sort(s[..|s| - 1]))
  }

  function Take(s: seq<Candidate>, n: nat): seq<Candidate> {
    if |s| <= n then s else s[..n]
  }

  predicate Proven(cs: seq<Candidate>, address: string) {
    exists k | 0 <= k < |cs| :: cs[k].address == address && cs[k].lastSuccess > 0
  }

  /** The display address may only be the pairing address or a proven candidate. */
  function Shown(display: string, pairing: string, cs: seq<Candidate>): string {
    if display == pairing || Proven(cs, display) then display
    else if cs != [] && cs[0].lastSuccess > 0 then cs[0].address
    else pairing
  }

  function PairingOf(canon: Canon, b: Book): string {
    var p := canon(if b.pairing == "" && b.candidates == [] then b.display else b.pairing, true);
    if p.Some? then p.value else ""
  }

  /** normalizeMemberAddresses. */
  function Normalize(canon: Canon, b: Book, now: int): Book {
    var pairing := PairingOf(canon, b);
    var kept := Take(Sort(Clean(canon, b.candidates, now)), MAX_HINTS);
    Book(Shown(b.display, pairing, kept), pairing, kept, Min(b.nextProbe, now + INTERVAL))
  }

  // ---- Learning ----

  function IndexOf(cs: seq<Candidate>, address: string): (i: nat)
    ensures i <= |cs| && (i < |cs| ==> cs[i].address == address) && forall k | 0 <= k < i :: cs[k].address != address
  {
    if cs == [] || cs[0].address == address then 0 else 1 + IndexOf(cs[1..], address)
  }

  /** A bare claim: appended if it is new and there is room. */
  function Report(b: Book, address: string, now: int): Book {
    if address == b.pairing || Holds(b.candidates, address) || |b.candidates| >= MAX_HINTS then b
    else b.(candidates := b.candidates + [Candidate(address, now, 0, 0)])
  }

  /** An authenticated success: moved or put to the front and shown. */
  function Succeed(b: Book, address: string, now: int): Book {
    var i := IndexOf(b.candidates, address);
    var c := if i < |b.candidates| then b.candidates[i] else Candidate(address, now, 0, 0);
    var rest := if i < |b.candidates| then b.candidates[..i] + b.candidates[i + 1..] else b.candidates;
    b.(candidates := Take([c.(lastSuccess := now)] + rest, MAX_HINTS), display := address)
  }

  function Reports(canon: Canon, b: Book, reports: seq<string>, now: int): Book {
    if reports == [] then b
    else
      var r := Reports(canon, b, reports[..|reports| - 1], now);
      var a := canon(reports[|reports| - 1], false);
      if a.Some? then Report(r, a.value, now) else r
  }

  /** learnPeerAddressesLocked for an admitted member; `observed` and `success` are "" when absent. */
  function Learn(canon: Canon, b: Book, observed: string, success: string, reports: seq<string>, now: int): Book {
    var b0 := Normalize(canon, b, now);
    var o, s := canon(observed, true), canon(success, true);
    var b1 := if o.Some? then Succeed(b0, o.value, now) else b0;
    var b2 := if s.Some? then Succeed(b1, s.value, now) else b1;
    Reports(canon, b2, if |reports| <= MAX_ADDRESSES then reports else reports[..MAX_ADDRESSES], now)
  }

  // ---- Dialling ----

  predicate Eligible(c: Candidate, addrs: seq<string>) {
    c.lastSuccess == 0 && c.address in addrs && c.lastAttempt < MAX_INT64
  }

  /** The offered unproven hint attempted longest ago, the first of equals. */
  function Oldest(cs: seq<Candidate>, addrs: seq<string>): Option<nat> {
    if cs == [] then None
    else
      var n := |cs| - 1;
      var best := Oldest(cs[..n], addrs);
      if Eligible(cs[n], addrs) && (best.None? || best.value >= n || cs[n].lastAttempt < cs[best.value].lastAttempt)
        then Some(n) else best
  }

  /** The reservation: the hint to probe, if the budget allows one. */
  function Probe(b: Book, addrs: seq<string>, now: int): Option<nat> {
    if now < b.nextProbe then None else Oldest(b.candidates, addrs)
  }

  function Attempt(b: Book, i: nat, now: int): Book
    requires i < |b.candidates|
  {
    b.(nextProbe := now + INTERVAL, candidates := b.candidates[i := b.candidates[i].(lastAttempt := now)])
  }

  predicate Allowed(b: Book, probe: Option<nat>, address: string) {
    Proven(b.candidates, address) || address == b.pairing
      || (probe.Some? && probe.value < |b.candidates| && b.candidates[probe.value].address == address)
  }

  function Filter(b: Book, probe: Option<nat>, addrs: seq<string>): seq<string> {
    if addrs == [] then []
    else
      var out, a := Filter(b, probe, addrs[..|addrs| - 1]), addrs[|addrs| - 1];
      if Allowed(b, probe, a) && a !in out && |out| < MAX_ADDRESSES then out + [a] else out
  }

  /** limitCandidateDials: the endpoints that may be dialled, and the hint reserved if any. */
  function Limit(canon: Canon, b: Book, addrs: seq<string>, now: int): (Book, seq<string>, Option<nat>) {
    var n := Normalize(canon, b, now);
    var p := Probe(n, addrs, now);
    if p.Some? && p.value < |n.candidates| then (Attempt(n, p.value, now), Filter(n, p, addrs), p)
    else (n, Filter(n, None, addrs), None)
  }

  // ---- The order and the set of addresses survive sorting ----

  predicate Sorted(s: seq<Candidate>) {
    forall i, j | 0 <= i < j < |s| :: s[i].lastSuccess >= s[j].lastSuccess
  }

  predicate Distinct(s: seq<Candidate>) {
    forall i, j | 0 <= i < j < |s| :: s[i].address != s[j].address
  }

  lemma {:induction false} InsertMembers(c: Candidate, s: seq<Candidate>)
    ensures multiset(Insert(c, s)) == multiset(s) + multiset{c}
  {
    if s != [] && s[|s| - 1].lastSuccess < c.lastSuccess {
      var init, last := s[..|s| - 1], s[|s| - 1];
      assert s == init + [last];
      InsertMembers(c, init);
    }
  }

  lemma InsertHas(c: Candidate, s: seq<Candidate>, x: Candidate)
    ensures x in Insert(c, s) <==> x in s || x == c
  {
    InsertMembers(c, s);
    assert x in Insert(c, s) <==> x in multiset(Insert(c, s));
    assert x in s <==> x in multiset(s);
  }

  lemma {:induction false} InsertSorted(c: Candidate, s: seq<Candidate>)
    requires Sorted(s)
    ensures Sorted(Insert(c, s))
  {
    if s != [] && s[|s| - 1].lastSuccess < c.lastSuccess {
      var init, last := s[..|s| - 1], s[|s| - 1];
      InsertSorted(c, init);
      var r := Insert(c, init);
      forall k | 0 <= k < |r| ensures r[k].lastSuccess >= last.lastSuccess {
        InsertHas(c, init, r[k]);
      }
    }
  }

  lemma {:induction false} InsertDistinct(c: Candidate, s: seq<Candidate>)
    requires Distinct(s) && !Holds(s, c.address)
    ensures Distinct(Insert(c, s))
  {
    if s != [] && s[|s| - 1].lastSuccess < c.lastSuccess {
      var init, last := s[..|s| - 1], s[|s| - 1];
      InsertDistinct(c, init);
      var r := Insert(c, init);
      forall k | 0 <= k < |r| ensures r[k].address != last.address {
        InsertHas(c, init, r[k]);
      }
    }
  }

  lemma {:induction false} SortMembers(s: seq<Candidate>)
    ensures multiset(Sort(s)) == multiset(s) && |Sort(s)| == |s|
  {
    if s != [] {
      var init, last := s[..|s| - 1], s[|s| - 1];
      assert s == init + [last];
      SortMembers(init);
      InsertMembers(last, Sort(init));
    }
    assert |multiset(Sort(s))| == |Sort(s)| && |multiset(s)| == |s|;
  }

  lemma SortHas(s: seq<Candidate>, x: Candidate)
    ensures x in Sort(s) <==> x in s
  {
    SortMembers(s);
    assert x in Sort(s) <==> x in multiset(Sort(s));
    assert x in s <==> x in multiset(s);
  }

  lemma {:induction false} SortSorted(s: seq<Candidate>)
    ensures Sorted(Sort(s))
  {
    if s != [] {
      SortSorted(s[..|s| - 1]);
      InsertSorted(s[|s| - 1], Sort(s[..|s| - 1]));
    }
  }

  lemma {:induction false} SortDistinct(s: seq<Candidate>)
    requires Distinct(s)
    ensures Distinct(Sort(s))
  {
    if s != [] {
      var init, last := s[..|s| - 1], s[|s| - 1];
      SortDistinct(init);
      forall k | 0 <= k < |Sort(init)| ensures Sort(init)[k].address != last.address {
        SortHas(init, Sort(init)[k]);
      }
      InsertDistinct(last, Sort(init));
    }
  }

  lemma InsertLast(c: Candidate, s: seq<Candidate>)
    requires s == [] || s[|s| - 1].lastSuccess >= c.lastSuccess
    ensures Insert(c, s) == s + [c]
  {
  }

  lemma {:induction false} SortOfSorted(s: seq<Candidate>)
    requires Sorted(s)
    ensures Sort(s) == s
  {
    if s != [] {
      var init, c := s[..|s| - 1], s[|s| - 1];
      SortOfSorted(init);
      InsertLast(c, init);
      assert init + [c] == s;
    }
  }

  /** Stability: candidates with equal stamps keep their order. */
  lemma {:induction false} SortIsStable(s: seq<Candidate>, t: int)
    ensures With(Sort(s), t) == With(s, t)
  {
    if s != [] {
      var init := s[..|s| - 1];
      SortIsStable(init, t);
      SortSorted(init);
      InsertWith(s[|s| - 1], Sort(init), t);
    }
  }

  function With(s: seq<Candidate>, t: int): seq<Candidate> {
    if s == [] then []
    else
      var w := With(s[..|s| - 1], t);
      if s[|s| - 1].lastSuccess == t then w + [s[|s| - 1]] else w
  }

  lemma {:induction false} InsertWith(c: Candidate, s: seq<Candidate>, t: int)
    requires Sorted(s)
    ensures With(Insert(c, s), t) == With(s, t) + if c.lastSuccess == t then [c] else []
  {
    if s == [] || s[|s| - 1].lastSuccess >= c.lastSuccess {
      assert (s + [c])[..|s|] == s;
    } else {
      var init, last := s[..|s| - 1], s[|s| - 1];
      InsertWith(c, init, t);
      assert (Insert(c, init) + [last])[..|Insert(c, init)|] == Insert(c, init);
    }
  }

  // ---- The book's invariant ----

  predicate Neat(canon: Canon, c: Candidate, now: int) {
    canon(c.address, true) == Some(c.address) && c.learnedAt <= now && c.lastSuccess <= now && Fresh(c, now)
  }

  predicate AllNeat(canon: Canon, cs: seq<Candidate>, now: int) {
    forall k | 0 <= k < |cs| :: Neat(canon, cs[k], now)
  }

  lemma {:induction false} CleanNeat(canon: Canon, cs: seq<Candidate>, now: int)
    requires CanonLaws(canon)
    ensures AllNeat(canon, Clean(canon, cs, now), now) && Distinct(Clean(canon, cs, now))
  {
    if cs != [] {
      CleanNeat(canon, cs[..|cs| - 1], now);
      var c := cs[|cs| - 1];
      var a := canon(c.address, true);
      if a.Some? { assert canon(a.value, true) == a; }
    }
  }

  lemma {:induction false} CleanOfNeat(canon: Canon, cs: seq<Candidate>, now: int)
    requires AllNeat(canon, cs, now) && Distinct(cs)
    ensures Clean(canon, cs, now) == cs
  {
    if cs != [] {
      var init, c := cs[..|cs| - 1], cs[|cs| - 1];
      CleanOfNeat(canon, init, now);
      assert Neat(canon, c, now) && cs == init + [c];
    }
  }

  /** At most seven distinct canonical candidates, most recent success first, nothing from the future. */
  predicate Bounded(canon: Canon, b: Book, now: int) {
    |b.candidates| <= MAX_HINTS && Distinct(b.candidates) && Sorted(b.candidates) && AllNeat(canon, b.candidates, now)
  }

  predicate Displayed(b: Book) {
    b.display == "" || b.display == b.pairing || Proven(b.candidates, b.display)
  }

  predicate Tidy(canon: Canon, b: Book, now: int) {
    Bounded(canon, b, now) && Displayed(b) && (b.pairing == "" || canon(b.pairing, true) == Some(b.pairing))
  }

  lemma KeptBounded(canon: Canon, cs: seq<Candidate>, now: int)
    requires CanonLaws(canon)
    ensures var kept := Take(Sort(Clean(canon, cs, now)), MAX_HINTS);
            |kept| <= MAX_HINTS && Distinct(kept) && Sorted(kept) && AllNeat(canon, kept, now)
  {
    var clean := Clean(canon, cs, now);
    CleanNeat(canon, cs, now);
    SortSorted(clean);
    SortDistinct(clean);
    forall k | 0 <= k < |Sort(clean)| ensures Neat(canon, Sort(clean)[k], now) {
      SortHas(clean, Sort(clean)[k]);
    }
  }

  /** What is shown once is shown again. */
  lemma ShownSettles(display: string, pairing: string, cs: seq<Candidate>)
    ensures var d := Shown(display, pairing, cs); Shown(d, pairing, cs) == d && (d == pairing || Proven(cs, d))
  {
    if cs != [] && cs[0].lastSuccess > 0 { assert Proven(cs, cs[0].address); }
  }

  /** Normalizing any record, whatever was on disk, makes it tidy. */
  lemma NormalizeTidies(canon: Canon, b: Book, now: int)
    requires CanonLaws(canon)
    ensures var n := Normalize(canon, b, now);
            Tidy(canon, n, now) && Shown(n.display, n.pairing, n.candidates) == n.display
  {
    ShownSettles(b.display, PairingOf(canon, b), Take(Sort(Clean(canon, b.candidates, now)), MAX_HINTS));
    KeptBounded(canon, b.candidates, now);
    var raw := if b.pairing == "" && b.candidates == [] then b.display else b.pairing;
    if canon(raw, true).Some? { assert canon(canon(raw, true).value, true) == canon(raw, true); }
  }

  /** A tidy record is left as it is. */
  lemma NormalizeOfTidy(canon: Canon, b: Book, now: int)
    requires CanonLaws(canon) && Tidy(canon, b, now) && b.nextProbe <= now + INTERVAL
    requires Shown(b.display, b.pairing, b.candidates) == b.display
    ensures Normalize(canon, b, now) == b
  {
    CleanOfNeat(canon, b.candidates, now);
    SortOfSorted(b.candidates);
    assert canon("", true) == None;
  }

  /** Normalizing twice at one time is normalizing once. */
  lemma NormalizeIdempotent(canon: Canon, b: Book, now: int)
    requires CanonLaws(canon)
    ensures Normalize(canon, Normalize(canon, b, now), now) == Normalize(canon, b, now)
  {
    NormalizeTidies(canon, b, now);
    NormalizeOfTidy(canon, Normalize(canon, b, now), now);
  }

  // ---- Learning keeps the invariant ----

  predicate NonNegative(cs: seq<Candidate>) {
    forall k | 0 <= k < |cs| :: cs[k].lastSuccess >= 0
  }

  lemma ProvenGrows(cs: seq<Candidate>, cs': seq<Candidate>, address: string)
    requires cs <= cs' && Proven(cs, address)
    ensures Proven(cs', address)
  {
    var k :| 0 <= k < |cs| && cs[k].address == address && cs[k].lastSuccess > 0;
    assert cs'[k] == cs[k];
  }

  lemma ReportTidy(canon: Canon, b: Book, address: string, now: int)
    requires Tidy(canon, b, now) && NonNegative(b.candidates) && canon(address, true) == Some(address) && now >= 0
    ensures var b' := Report(b, address, now);
            Tidy(canon, b', now) && NonNegative(b'.candidates) && b.candidates <= b'.candidates
  {
    var b' := Report(b, address, now);
    if Proven(b.candidates, b.display) { ProvenGrows(b.candidates, b'.candidates, b.display); }
  }

  /** The candidates without the i-th. */
  lemma DropKeeps(canon: Canon, cs: seq<Candidate>, i: nat, now: int)
    requires i < |cs| && Distinct(cs) && Sorted(cs) && AllNeat(canon, cs, now) && NonNegative(cs)
    ensures var rest := cs[..i] + cs[i + 1..];
            Distinct(rest) && Sorted(rest) && AllNeat(canon, rest, now) && NonNegative(rest)
              && !Holds(rest, cs[i].address)
  {
    var rest := cs[..i] + cs[i + 1..];
    assert forall k | 0 <= k < |rest| :: rest[k] == if k < i then cs[k] else cs[k + 1];
  }

  lemma FrontKeeps(canon: Canon, c: Candidate, rest: seq<Candidate>, now: int)
    requires Distinct(rest) && Sorted(rest) && AllNeat(canon, rest, now) && NonNegative(rest) && !Holds(rest, c.address)
    requires Neat(canon, c, now) && c.lastSuccess == now >= 0
    ensures var cs := Take([c] + rest, MAX_HINTS);
            |cs| <= MAX_HINTS && Distinct(cs) && Sorted(cs) && AllNeat(canon, cs, now) && NonNegative(cs) && cs[0] == c
  {
    var cs := [c] + rest;
    assert forall k | 0 < k < |cs| :: cs[k] == rest[k - 1];
    forall k | 0 < k < |cs| ensures cs[k].lastSuccess <= now && cs[k].address != c.address {
      assert Neat(canon, rest[k - 1], now);
    }
  }

  lemma SucceedTidy(canon: Canon, b: Book, address: string, now: int)
    requires Tidy(canon, b, now) && NonNegative(b.candidates) && canon(address, true) == Some(address) && now > 0
    ensures var b' := Succeed(b, address, now);
            && Tidy(canon, b', now) && NonNegative(b'.candidates)
            && b'.candidates != [] && b'.candidates[0].address == address == b'.display
  {
    var i := IndexOf(b.candidates, address);
    if i < |b.candidates| {
      DropKeeps(canon, b.candidates, i, now);
      FrontKeeps(canon, b.candidates[i].(lastSuccess := now), b.candidates[..i] + b.candidates[i + 1..], now);
    } else {
      FrontKeeps(canon, Candidate(address, now, now, 0), b.candidates, now);
    }
    var b' := Succeed(b, address, now);
    assert Proven(b'.candidates, b'.candidates[0].address);
  }

  lemma {:induction false} ReportsTidy(canon: Canon, b: Book, reports: seq<string>, now: int)
    requires CanonLaws(canon) && Tidy(canon, b, now) && NonNegative(b.candidates) && now >= 0
    ensures var b' := Reports(canon, b, reports, now);
            Tidy(canon, b', now) && NonNegative(b'.candidates) && b.candidates <= b'.candidates
  {
    if reports != [] {
      ReportsTidy(canon, b, reports[..|reports| - 1], now);
      var e := reports[|reports| - 1];
      var a := canon(e, false);
      if a.Some? {
        assert canon(a.value, true) == a;
        ReportTidy(canon, Reports(canon, b, reports[..|reports| - 1], now), a.value, now);
      }
    }
  }

  lemma {:induction false} CleanNonNegative(canon: Canon, cs: seq<Candidate>, now: int)
    requires NonNegative(cs) && now >= 0
    ensures NonNegative(Clean(canon, cs, now))
  {
    if cs != [] { CleanNonNegative(canon, cs[..|cs| - 1], now); }
  }

  lemma NormalizeNonNegative(canon: Canon, b: Book, now: int)
    requires NonNegative(b.candidates) && now >= 0
    ensures NonNegative(Normalize(canon, b, now).candidates)
  {
    var clean := Clean(canon, b.candidates, now);
    CleanNonNegative(canon, b.candidates, now);
    forall k | 0 <= k < |Sort(clean)| ensures Sort(clean)[k].lastSuccess >= 0 {
      SortHas(clean, Sort(clean)[k]);
    }
  }

  /** Learning keeps the book tidy. */
  lemma LearnTidy(canon: Canon, b: Book, observed: string, success: string, reports: seq<string>, now: int)
    requires CanonLaws(canon) && NonNegative(b.candidates) && now > 0
    ensures var b' := Learn(canon, b, observed, success, reports, now);
            Tidy(canon, b', now) && NonNegative(b'.candidates)
  {
    var b0 := Normalize(canon, b, now);
    NormalizeTidies(canon, b, now);
    NormalizeNonNegative(canon, b, now);
    var o, s := canon(observed, true), canon(success, true);
    if o.Some? {
      assert canon(o.value, true) == o;
      SucceedTidy(canon, b0, o.value, now);
    }
    var b1 := if o.Some? then Succeed(b0, o.value, now) else b0;
    if s.Some? {
      assert canon(s.value, true) == s;
      SucceedTidy(canon, b1, s.value, now);
    }
    var b2 := if s.Some? then Succeed(b1, s.value, now) else b1;
    ReportsTidy(canon, b2, if |reports| <= MAX_ADDRESSES then reports else reports[..MAX_ADDRESSES], now);
  }

  /** A peer that only reports addresses evicts and reorders nothing, and does not change what is shown. */
  lemma ReportsOnlyAppend(canon: Canon, b: Book, observed: string, success: string, reports: seq<string>, now: int)
    requires CanonLaws(canon) && canon(observed, true).None? && canon(success, true).None?
    ensures var n, b' := Normalize(canon, b, now), Learn(canon, b, observed, success, reports, now);
            n.candidates <= b'.candidates && b'.display == n.display && b'.pairing == n.pairing
              && b'.nextProbe == n.nextProbe
  {
    ReportsAppend(canon, Normalize(canon, b, now),
                  if |reports| <= MAX_ADDRESSES then reports else reports[..MAX_ADDRESSES], now);
  }

  lemma {:induction false} ReportsAppend(canon: Canon, b: Book, reports: seq<string>, now: int)
    ensures var b' := Reports(canon, b, reports, now);
            b.candidates <= b'.candidates && b'.display == b.display && b'.pairing == b.pairing
              && b'.nextProbe == b.nextProbe
  {
    if reports != [] { ReportsAppend(canon, b, reports[..|reports| - 1], now); }
  }

  /** Appending a report keeps the order exactly when no stored success stamp is negative. */
  lemma ReportKeepsOrderWhen(b: Book, address: string, now: int)
    requires Sorted(b.candidates) && address != b.pairing && !Holds(b.candidates, address) && |b.candidates| < MAX_HINTS
    ensures Sorted(Report(b, address, now).candidates) <==> NonNegative(b.candidates)
  {
    var cs' := Report(b, address, now).candidates;
    var n := |b.candidates|;
    assert cs'[n].lastSuccess == 0 && forall k | 0 <= k < n :: cs'[k] == b.candidates[k];
    if Sorted(cs') {
      forall k | 0 <= k < n ensures b.candidates[k].lastSuccess >= 0 {
        assert cs'[k].lastSuccess >= cs'[n].lastSuccess;
      }
    }
  }

  /** A negative stamp from disk is the one thing that breaks the order: a report lands behind it. */
  lemma NegativeStampBreaksOrder(canon: Canon)
    requires CanonLaws(canon) && canon("a", true) == Some("a") && canon("b", true) == Some("b")
    requires canon("b", false) == Some("b")
    ensures var b := Book("", "", [Candidate("a", 1, -1, 0)], 0);
            !Sorted(Learn(canon, b, "", "", ["b"], 1).candidates)
  {
    var c := Candidate("a", 1, -1, 0);
    var b := Book("", "", [c], 0);
    assert canon("", true) == None;
    OneCandidate(canon, c);
    var n := Normalize(canon, b, 1);
    OneReport(canon, n, "b");
    var r := Report(n, "b", 1);
    assert Learn(canon, b, "", "", ["b"], 1) == Reports(canon, n, ["b"], 1) == r;
    assert r.candidates == [c, Candidate("b", 1, 0, 0)];
    assert r.candidates[0].lastSuccess < r.candidates[1].lastSuccess;
  }

  lemma OneReport(canon: Canon, b: Book, address: string)
    requires canon(address, false) == Some(address)
    ensures Reports(canon, b, [address], 1) == Report(b, address, 1)
  {
    assert Reports(canon, b, [address][..0], 1) == b;
  }

  lemma OneCandidate(canon: Canon, c: Candidate)
    requires canon(c.address, true) == Some(c.address) && c.learnedAt == 1 && c.lastSuccess < 0
    ensures Take(Sort(Clean(canon, [c], 1)), MAX_HINTS) == [c]
  {
    CleanOfNeat(canon, [c], 1);
    assert Sort([c]) == [c] by { SortOfSorted([c]); }
  }
}
