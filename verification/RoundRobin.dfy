/** The gateway's choice of an instance (api_gateway/consul_resolver.py): a cyclic cursor per
    service, kept as long as Consul reports the same list. */
module RoundRobin {
  import opened Domain

  /** The list a cycle was built from, and the position `next` will yield. */
  datatype Cursor = Cursor(instances: seq<string>, next: nat)

  type Table = map<string, Cursor>

  /** Where a service runs when Consul names no instance of it: host and port. */
  const STATIC_SERVICE_MAP: map<string, (string, nat)> := map[
    "auth-service" := ("auth-service", 8001),
    "leave-balance-service" := ("leave-balance-service", 8002),
    "leave-request-service" := ("leave-request-service", 8003),
    "manager-service" := ("manager-service", 8004),
    "notification-service" := ("notification-service", 8005)
  ]

  /** A number in decimal notation. */
  function Decimal(n: nat): string {
    if n < 10 then [Digit(n)] else Decimal(n / 10) + [Digit(n % 10)]
  }

  function Digit(d: nat): char
    requires d < 10
  {
    '0' + d as char
  }

  function Url(host: string, port: nat): string {
    "http://" + host + ":" + Decimal(port)
  }

  function StaticBaseUrl(service: string): Result<string> {
    if service !in STATIC_SERVICE_MAP then Err(SERVER_ERROR)
    else var (host, port) := STATIC_SERVICE_MAP[service]; Ok(Url(host, port))
  }

  /** Each service falls back to the host that bears its own name, and to a port of its own. */
  lemma StaticAddressesAreOwn()
    ensures forall s :: s in STATIC_SERVICE_MAP ==> STATIC_SERVICE_MAP[s].0 == s
    ensures forall s, t :: s in STATIC_SERVICE_MAP && t in STATIC_SERVICE_MAP && s != t ==>
      STATIC_SERVICE_MAP[s].1 != STATIC_SERVICE_MAP[t].1
  {
  }

  lemma StaticPorts()
    ensures "auth-service" in STATIC_SERVICE_MAP && STATIC_SERVICE_MAP["auth-service"].1 == 8001
    ensures "leave-balance-service" in STATIC_SERVICE_MAP && STATIC_SERVICE_MAP["leave-balance-service"].1 == 8002
    ensures "leave-request-service" in STATIC_SERVICE_MAP && STATIC_SERVICE_MAP["leave-request-service"].1 == 8003
    ensures "manager-service" in STATIC_SERVICE_MAP && STATIC_SERVICE_MAP["manager-service"].1 == 8004
    ensures "notification-service" in STATIC_SERVICE_MAP && STATIC_SERVICE_MAP["notification-service"].1 == 8005
    ensures |STATIC_SERVICE_MAP| == 5
  {
  }

  /** The number a string of digits stands for. */
  function ValueOf(digits: string): nat
    requires forall i :: 0 <= i < |digits| ==> '0' <= digits[i] <= '9'
  {
    if digits == [] then 0
    else ValueOf(digits[..|digits| - 1]) * 10 + (digits[|digits| - 1] - '0') as nat
  }

  lemma {:induction false} DecimalStandsFor(n: nat)
    ensures forall i :: 0 <= i < |Decimal(n)| ==> '0' <= Decimal(n)[i] <= '9'
    ensures ValueOf(Decimal(n)) == n
  {
    if n >= 10 {
      DecimalStandsFor(n / 10);
      assert Decimal(n)[..|Decimal(n)| - 1] == Decimal(n / 10);
    }
  }

  /** The cursor the lookup uses: the kept one, or a new cycle. */
  function CursorFor(table: Table, service: string, instances: seq<string>): Cursor {
    if service in table && table[service].instances == instances then table[service] else Cursor(instances, 0)
  }

  /** `next` of `itertools.cycle`: past the last element it starts over. */
  function Advance(c: Cursor): Cursor
    requires c.next < |c.instances|
  {
    Cursor(c.instances, if c.next + 1 == |c.instances| then 0 else c.next + 1)
  }

  // ------------------------------------------------------------ histories

  /** One call of `resolve`, with what Consul answered. */
  datatype Lookup = Lookup(service: string, instances: seq<string>)

  function After(table: Table, l: Lookup): Table {
    var c := CursorFor(table, l.service, l.instances);
    if l.instances == [] || c.next >= |c.instances| then table else table[l.service := Advance(c)]
  }

  function TableAfter(h: seq<Lookup>): Table {
    if h == [] then map[] else After(TableAfter(h[..|h| - 1]), h[|h| - 1])
  }

  predicate Counts(l: Lookup, service: string) {
    l.service == service && l.instances != []
  }

  /** How often, most recently, Consul has reported exactly this list for the service, not
      counting empty answers and other services. */
  function Streak(h: seq<Lookup>, service: string, instances: seq<string>): nat {
    if h == [] then 0
    else
      var rest, last := h[..|h| - 1], h[|h| - 1];
      if !Counts(last, service) then Streak(rest, service, instances)
      else if last.instances == instances then Streak(rest, service, instances) + 1
      else 0
  }

  /** The lists Consul has reported for the service, in order. */
  function Reported(h: seq<Lookup>, service: string): seq<seq<string>> {
    if h == [] then []
    else
      var last := h[|h| - 1];
      Reported(h[..|h| - 1], service)
      + if last.service == service && last.instances != [] then [last.instances] else []
  }

  /** The streak of a list is how many of the lists reported last are that one: that many are,
      and the one before them, if any, is not. */
  lemma {:induction false} StreakIsTail(h: seq<Lookup>, service: string, instances: seq<string>)
    ensures var lists, n := Reported(h, service), Streak(h, service, instances);
      && n <= |lists|
      && (forall i :: |lists| - n <= i < |lists| ==> lists[i] == instances)
      && (n < |lists| ==> lists[|lists| - n - 1] != instances)
  {
    if h != [] {
      StreakIsTail(h[..|h| - 1], service, instances);
    }
  }

  /** The place one reaches by going k steps around a circle of n places. */
  function Around(k: nat, n: nat): (p: nat)
    requires n > 0
    ensures p < n
    ensures k < n ==> p == k
  {
    if k < n then k else Around(k - n, n)
  }

  /** The place k steps after `start`. */
  function Place(start: nat, k: nat, n: nat): nat
    requires n > 0
  {
    Around(start + k, n)
  }

  lemma {:induction false} AroundShift(k: nat, d: nat, n: nat)
    requires d < n
    ensures Around(k + d, n) == if Around(k, n) + d < n then Around(k, n) + d else Around(k, n) + d - n
  {
    if k < n {
      if k + d >= n {
        assert Around(k + d, n) == Around(k + d - n, n);
      }
    } else {
      AroundShift(k - n, d, n);
    }
  }

  /** After any history the cursor stands where the streak has taken it around the list. */
  lemma {:induction false} CursorIsStreak(h: seq<Lookup>, service: string, instances: seq<string>)
    requires instances != []
    ensures CursorFor(TableAfter(h), service, instances)
         == Cursor(instances, Around(Streak(h, service, instances), |instances|))
  {
    if h != [] {
      var rest, last := h[..|h| - 1], h[|h| - 1];
      CursorIsStreak(rest, service, instances);
      if Counts(last, service) && last.instances == instances && |instances| > 1 {
        AroundShift(Streak(rest, service, instances), 1, |instances|);
      }
    }
  }

  // ------------------------------------------------------------ the resolver

  class Resolver {
    var roundRobin: Table
    /** Every call so far, with what Consul answered. */
    ghost var history: seq<Lookup>

    ghost predicate Valid()
      reads this
    {
      roundRobin == TableAfter(history)
    }

    constructor ()
      ensures Valid() && history == []
    {
      roundRobin, history := map[], [];
    }

    /** `instances` is what Consul reports as healthy. Without any, the static address is
        used, no cursor moves, and an unknown service is an error. Otherwise the instance
        chosen is as far around the list as the list has been reported in a row. */
    method Resolve(service: string, instances: seq<string>) returns (url: Result<string>)
      requires Valid()
      modifies this
      ensures Valid() && history == old(history) + [Lookup(service, instances)]
      ensures instances == [] ==>
        && roundRobin == old(roundRobin)
        && url == if service in STATIC_SERVICE_MAP
                  then Ok("http://" + service + ":" + Decimal(STATIC_SERVICE_MAP[service].1)) else Err(500)
      ensures instances != [] ==>
        url == Ok(instances[Around(Streak(old(history), service, instances), |instances|)])
    {
      assert (history + [Lookup(service, instances)])[..|history|] == history;
      history := history + [Lookup(service, instances)];
      if instances == [] {
        StaticAddressesAreOwn();
        return StaticBaseUrl(service);
      }
      CursorIsStreak(old(history), service, instances);
      if service !in roundRobin || roundRobin[service].instances != instances {
        roundRobin := roundRobin[service := Cursor(instances, 0)];
      }
      var cursor := roundRobin[service];
      roundRobin := roundRobin[service := Advance(cursor)];
      return Ok(cursor.instances[cursor.next]);
    }
  }

  // ------------------------------------------------------------ fairness

  /** The positions chosen for the service during a stretch of lookups that follows h. */
  function Picks(h: seq<Lookup>, stretch: seq<Lookup>, service: string): seq<nat> {
    if stretch == [] then []
    else
      var rest, last := stretch[..|stretch| - 1], stretch[|stretch| - 1];
      if Counts(last, service)
      then Picks(h, rest, service) + [CursorFor(TableAfter(h + rest), service, last.instances).next]
      else Picks(h, rest, service)
  }

  lemma StreakAppend(h: seq<Lookup>, l: Lookup, service: string, instances: seq<string>)
    ensures Streak(h + [l], service, instances) ==
      if !Counts(l, service) then Streak(h, service, instances)
      else if l.instances == instances then Streak(h, service, instances) + 1
      else 0
  {
    assert (h + [l])[..|h|] == h;
  }

  lemma PicksAppend(h: seq<Lookup>, rest: seq<Lookup>, l: Lookup, service: string)
    ensures Picks(h, rest + [l], service) == Picks(h, rest, service)
      + (if Counts(l, service) then [CursorFor(TableAfter(h + rest), service, l.instances).next] else [])
  {
    assert (rest + [l])[..|rest|] == rest;
  }

  /** Whenever Consul names instances for the service, it names these. */
  ghost predicate Stable(stretch: seq<Lookup>, service: string, instances: seq<string>) {
    forall i :: 0 <= i < |stretch| && Counts(stretch[i], service) ==> stretch[i].instances == instances
  }

  /** The picks go around n places, one by one. */
  ghost predicate GoRound(picks: seq<nat>, start: nat, n: nat)
    requires n > 0
  {
    forall k :: 0 <= k < |picks| ==> picks[k] == Place(start, k, n)
  }

  lemma GoRoundAppend(picks: seq<nat>, x: nat, start: nat, n: nat)
    requires n > 0
    ensures GoRound(picks + [x], start, n) <==> GoRound(picks, start, n) && x == Place(start, |picks|, n)
  {
    var picks' := picks + [x];
    assert picks'[|picks|] == x;
    assert forall k :: 0 <= k < |picks| ==> picks'[k] == picks[k];
  }

  /** During a stable stretch the positions follow one another around the list, whatever is
      resolved for other services and however often Consul names no instance. */
  lemma {:induction false} StablePicksGoRound(
    h: seq<Lookup>, stretch: seq<Lookup>, service: string, instances: seq<string>)
    requires instances != [] && Stable(stretch, service, instances)
    ensures var picks, start := Picks(h, stretch, service), Streak(h, service, instances);
      && Streak(h + stretch, service, instances) == start + |picks|
      && GoRound(picks, start, |instances|)
  {
    if stretch == [] {
      assert h + stretch == h;
    } else {
      var rest, last := stretch[..|stretch| - 1], stretch[|stretch| - 1];
      assert stretch == rest + [last];
      StablePicksGoRound(h, rest, service, instances);
      PicksAppend(h, rest, last, service);
      assert h + stretch == (h + rest) + [last];
      StreakAppend(h + rest, last, service, instances);
      if Counts(last, service) {
        CursorIsStreak(h + rest, service, instances);
        var picks, start := Picks(h, rest, service), Streak(h, service, instances);
        GoRoundAppend(picks, Place(start, |picks|, |instances|), start, |instances|);
      }
    }
  }

  lemma PlaceFrom(start: nat, a: nat, j: nat, n: nat)
    requires a <= j < a + n
    ensures var r, d := Place(start, a, n), j - a;
      Place(start, j, n) == if r + d < n then r + d else r + d - n
  {
    AroundShift(start + a, j - a, n);
    assert start + a + (j - a) == start + j;
  }

  /** The only k in [a, a + n) that takes one from `start` to place p. */
  lemma OncePerRound(start: nat, a: nat, p: nat, n: nat) returns (k: nat)
    requires p < n
    ensures a <= k < a + n && Place(start, k, n) == p
    ensures forall j :: a <= j < a + n && Place(start, j, n) == p ==> j == k
  {
    var r := Place(start, a, n);
    k := if p >= r then a + (p - r) else a + (p - r + n);
    PlaceFrom(start, a, k, n);
    forall j | a <= j < a + n && Place(start, j, n) == p ensures j == k {
      PlaceFrom(start, a, j, n);
    }
  }

  ghost predicate VisitedOnce(picks: seq<nat>, from: nat, to: nat, p: nat) {
    from <= to <= |picks|
    && exists k :: from <= k < to && picks[k] == p && forall j :: from <= j < to && picks[j] == p ==> j == k
  }

  lemma RoundVisitsOnce(picks: seq<nat>, start: nat, n: nat, a: nat, p: nat)
    requires n > 0 && GoRound(picks, start, n) && a + n <= |picks| && p < n
    ensures VisitedOnce(picks, a, a + n, p)
  {
    var k := OncePerRound(start, a, p, n);
    forall j | a <= j < a + n ensures picks[j] == Place(start, j, n) {
    }
    assert picks[k] == p;
  }

  /** In a stable stretch any n consecutive picks visit each of the n positions exactly once. */
  lemma EveryRoundVisitsEachOnce(
    h: seq<Lookup>, stretch: seq<Lookup>, service: string, instances: seq<string>, a: nat, p: nat)
    requires instances != [] && Stable(stretch, service, instances)
    requires a + |instances| <= |Picks(h, stretch, service)| && p < |instances|
    ensures VisitedOnce(Picks(h, stretch, service), a, a + |instances|, p)
  {
    StablePicksGoRound(h, stretch, service, instances);
    RoundVisitsOnce(Picks(h, stretch, service), Streak(h, service, instances), |instances|, a, p);
  }

  function Visits(picks: seq<nat>, p: nat): nat {
    if picks == [] then 0
    else Visits(picks[..|picks| - 1], p) + (if picks[|picks| - 1] == p then 1 else 0)
  }

  lemma {:induction false} VisitsAreMultiplicity(picks: seq<nat>, p: nat)
    ensures Visits(picks, p) == multiset(picks)[p]
  {
    if picks != [] {
      var rest, last := picks[..|picks| - 1], picks[|picks| - 1];
      VisitsAreMultiplicity(rest, p);
      assert picks == rest + [last];
    }
  }

  lemma {:induction false} VisitsOfOneHit(picks: seq<nat>, m: nat, p: nat, k: nat)
    requires m <= |picks|
    requires forall j :: m <= j < |picks| ==> (picks[j] == p <==> j == k)
    ensures Visits(picks, p) == Visits(picks[..m], p) + (if m <= k < |picks| then 1 else 0)
  {
    if m == |picks| {
      assert picks[..m] == picks;
    } else {
      var rest := picks[..|picks| - 1];
      VisitsOfOneHit(rest, m, p, k);
      assert rest[..m] == picks[..m];
    }
  }

  lemma LastRoundVisits(picks: seq<nat>, start: nat, n: nat, p: nat)
    requires n > 0 && GoRound(picks, start, n) && p < n
    ensures |picks| >= n ==> Visits(picks, p) == Visits(picks[..|picks| - n], p) + 1
    ensures |picks| < n ==> Visits(picks, p) <= 1
  {
    var m := if |picks| >= n then |picks| - n else 0;
    var k := OncePerRound(start, m, p, n);
    assert forall j :: m <= j < |picks| ==> (picks[j] == p <==> j == k);
    VisitsOfOneHit(picks, m, p, k);
    assert picks[..0] == [];
  }

  lemma {:induction false} VisitsDifferByOne(picks: seq<nat>, start: nat, n: nat, p: nat, q: nat)
    requires n > 0 && GoRound(picks, start, n) && p < n && q < n
    ensures Visits(picks, p) <= Visits(picks, q) + 1
  {
    LastRoundVisits(picks, start, n, p);
    LastRoundVisits(picks, start, n, q);
    if |picks| >= n {
      VisitsDifferByOne(picks[..|picks| - n], start, n, p, q);
    }
  }

  /** Over any stable stretch no instance gets more than one request more than another. */
  lemma NoInstanceIsFavoured(
    h: seq<Lookup>, stretch: seq<Lookup>, service: string, instances: seq<string>, p: nat, q: nat)
    requires instances != [] && Stable(stretch, service, instances)
    requires p < |instances| && q < |instances|
    ensures var picks := multiset(Picks(h, stretch, service)); picks[p] <= picks[q] + 1
  {
    VisitsAreMultiplicity(Picks(h, stretch, service), p);
    VisitsAreMultiplicity(Picks(h, stretch, service), q);
    StablePicksGoRound(h, stretch, service, instances);
    VisitsDifferByOne(Picks(h, stretch, service), Streak(h, service, instances), |instances|, p, q);
  }

  // ------------------------------------------------------------ changing lists

  ghost predicate SameSize(stretch: seq<Lookup>, service: string, n: nat) {
    forall i :: 0 <= i < |stretch| && Counts(stretch[i], service) ==> |stretch[i].instances| == n
  }

  /** If l is the first lookup of the stretch to name instances, or names other ones than the
      lookup before it, its cursor stands at the next place of the round. `before` is the
      part of the stretch before l. A list just changed has its cursor at place 0. */
  predicate KeepsRound(h: seq<Lookup>, before: seq<Lookup>, l: Lookup, service: string, start: nat, n: nat)
    requires n > 0
  {
    var streak, picks := Streak(h + before, service, l.instances), Picks(h, before, service);
    Counts(l, service) && (picks == [] || streak == 0) ==> Around(streak, n) == Place(start, |picks|, n)
  }

  ghost predicate RoundKept(h: seq<Lookup>, stretch: seq<Lookup>, service: string, start: nat, n: nat)
    requires n > 0
  {
    forall i :: 0 <= i < |stretch| ==> KeepsRound(h, stretch[..i], stretch[i], service, start, n)
  }

  lemma RoundKeptAppend(h: seq<Lookup>, rest: seq<Lookup>, l: Lookup, service: string, start: nat, n: nat)
    requires n > 0
    ensures RoundKept(h, rest + [l], service, start, n)
       <==> RoundKept(h, rest, service, start, n) && KeepsRound(h, rest, l, service, start, n)
  {
    var stretch := rest + [l];
    assert stretch[..|rest|] == rest && stretch[|rest|] == l;
    assert forall i :: 0 <= i < |rest| ==> stretch[..i] == rest[..i] && stretch[i] == rest[i];
    if RoundKept(h, stretch, service, start, n) {
      assert KeepsRound(h, stretch[..|rest|], stretch[|rest|], service, start, n);
      forall i | 0 <= i < |rest| ensures KeepsRound(h, rest[..i], rest[i], service, start, n) {
        assert KeepsRound(h, stretch[..i], stretch[i], service, start, n);
      }
    }
  }

  /** The list reported last, if any, stands at the next place of the round. */
  ghost predicate InStep(h: seq<Lookup>, service: string, start: nat, k: nat, n: nat)
    requires n > 0
  {
    forall l :: l != [] && Streak(h, service, l) > 0 ==> Around(Streak(h, service, l), n) == Place(start, k, n)
  }

  lemma StepsStayInStep(h: seq<Lookup>, l: Lookup, service: string, start: nat, k: nat, n: nat)
    requires n > 0 && Counts(l, service)
    requires Around(Streak(h, service, l.instances), n) == Place(start, k, n)
    ensures InStep(h + [l], service, start, k + 1, n)
  {
    forall instances | instances != [] && Streak(h + [l], service, instances) > 0
      ensures Around(Streak(h + [l], service, instances), n) == Place(start, k + 1, n)
    {
      StreakAppend(h, l, service, instances);
      if n > 1 {
        AroundShift(Streak(h, service, instances), 1, n);
        AroundShift(start + k, 1, n);
        assert start + k + 1 == start + (k + 1);
      }
    }
  }

  /** When the lists reported for a service all name n instances, the positions chosen go
      round if and only if the list changes only where a round begins anew. */
  lemma {:induction false} PicksGoRoundIff(
    h: seq<Lookup>, stretch: seq<Lookup>, service: string, start: nat, n: nat)
    requires n > 0 && SameSize(stretch, service, n)
    ensures GoRound(Picks(h, stretch, service), start, n) <==> RoundKept(h, stretch, service, start, n)
    ensures var picks := Picks(h, stretch, service);
      picks != [] && GoRound(picks, start, n) ==> InStep(h + stretch, service, start, |picks|, n)
  {
    if stretch != [] {
      var rest, last := stretch[..|stretch| - 1], stretch[|stretch| - 1];
      assert stretch == rest + [last];
      PicksGoRoundIff(h, rest, service, start, n);
      RoundKeptAppend(h, rest, last, service, start, n);
      PicksAppend(h, rest, last, service);
      assert h + stretch == (h + rest) + [last];
      NextPick(h, rest, last, service, start, n);
    }
  }

  lemma NextPick(h: seq<Lookup>, rest: seq<Lookup>, l: Lookup, service: string, start: nat, n: nat)
    requires n > 0 && (Counts(l, service) ==> |l.instances| == n)
    requires GoRound(Picks(h, rest, service), start, n) && Picks(h, rest, service) != []
      ==> InStep(h + rest, service, start, |Picks(h, rest, service)|, n)
    ensures GoRound(Picks(h, rest + [l], service), start, n)
       <==> GoRound(Picks(h, rest, service), start, n) && KeepsRound(h, rest, l, service, start, n)
    ensures var picks := Picks(h, rest + [l], service);
      picks != [] && GoRound(picks, start, n) ==> InStep(h + rest + [l], service, start, |picks|, n)
  {
    var picks, picks' := Picks(h, rest, service), Picks(h, rest + [l], service);
    PicksAppend(h, rest, l, service);
    if Counts(l, service) {
      CursorIsStreak(h + rest, service, l.instances);
      var streak := Streak(h + rest, service, l.instances);
      GoRoundAppend(picks, Around(streak, n), start, n);
      if GoRound(picks, start, n) && Around(streak, n) == Place(start, |picks|, n) {
        StepsStayInStep(h + rest, l, service, start, |picks|, n);
      }
    } else {
      forall instances ensures Streak(h + rest + [l], service, instances) == Streak(h + rest, service, instances) {
        StreakAppend(h + rest, l, service, instances);
      }
    }
  }

  /** For a resolver just started: the choices go round from the first place if and only if
      the list changes only after whole rounds. */
  lemma FreshPicksGoRoundIff(stretch: seq<Lookup>, service: string, n: nat)
    requires n > 0 && SameSize(stretch, service, n)
    ensures GoRound(Picks([], stretch, service), 0, n) <==>
      forall i :: 0 <= i < |stretch| && Counts(stretch[i], service)
        && Streak(stretch[..i], service, stretch[i].instances) == 0
        ==> Place(0, |Picks([], stretch[..i], service)|, n) == 0
  {
    PicksGoRoundIff([], stretch, service, 0, n);
    forall i | 0 <= i < |stretch|
      ensures KeepsRound([], stretch[..i], stretch[i], service, 0, n) <==>
        (Counts(stretch[i], service) && Streak(stretch[..i], service, stretch[i].instances) == 0
         ==> Place(0, |Picks([], stretch[..i], service)|, n) == 0)
    {
      assert [] + stretch[..i] == stretch[..i];
      if Picks([], stretch[..i], service) == [] {
        NoPicksNoStreak(stretch[..i], service, stretch[i].instances);
      }
    }
  }

  lemma {:induction false} NoPicksNoStreak(h: seq<Lookup>, service: string, instances: seq<string>)
    ensures Picks([], h, service) == [] ==> Streak(h, service, instances) == 0
  {
    if h != [] {
      NoPicksNoStreak(h[..|h| - 1], service, instances);
    }
  }

  ghost predicate AllFirst(picks: seq<nat>) {
    forall k :: 0 <= k < |picks| ==> picks[k] == 0
  }

  lemma AllFirstAppend(picks: seq<nat>, x: nat)
    ensures AllFirst(picks + [x]) <==> AllFirst(picks) && x == 0
  {
    var picks' := picks + [x];
    assert picks'[|picks|] == x;
    assert forall k :: 0 <= k < |picks| ==> picks'[k] == picks[k];
  }

  /** No lookup that names instances names those of the one before it. */
  ghost predicate NeverRepeats(h: seq<Lookup>, stretch: seq<Lookup>, service: string) {
    forall i :: 0 <= i < |stretch| && Counts(stretch[i], service)
      ==> Streak(h + stretch[..i], service, stretch[i].instances) == 0
  }

  lemma NeverRepeatsAppend(h: seq<Lookup>, rest: seq<Lookup>, l: Lookup, service: string)
    ensures NeverRepeats(h, rest + [l], service) <==>
      NeverRepeats(h, rest, service) && (Counts(l, service) ==> Streak(h + rest, service, l.instances) == 0)
  {
    var stretch := rest + [l];
    assert stretch[..|rest|] == rest && stretch[|rest|] == l;
    assert forall i :: 0 <= i < |rest| ==> stretch[..i] == rest[..i] && stretch[i] == rest[i];
    if NeverRepeats(h, stretch, service) {
      forall i | 0 <= i < |rest| && Counts(rest[i], service)
        ensures Streak(h + rest[..i], service, rest[i].instances) == 0
      {
        assert Counts(stretch[i], service);
      }
    }
  }

  /** When Consul's list differs from each lookup to the next, even in order only, the first
      instance is chosen every time and the others starve. */
  lemma {:induction false} FlappingAlwaysPicksFirst(h: seq<Lookup>, stretch: seq<Lookup>, service: string)
    requires NeverRepeats(h, stretch, service)
    ensures AllFirst(Picks(h, stretch, service))
  {
    if stretch != [] {
      var rest, last := stretch[..|stretch| - 1], stretch[|stretch| - 1];
      assert stretch == rest + [last];
      NeverRepeatsAppend(h, rest, last, service);
      FlappingAlwaysPicksFirst(h, rest, service);
      PicksAppend(h, rest, last, service);
      if Counts(last, service) {
        CursorIsStreak(h + rest, service, last.instances);
      }
    }
  }

  ghost predicate Several(stretch: seq<Lookup>, service: string) {
    forall i :: 0 <= i < |stretch| && Counts(stretch[i], service) ==> |stretch[i].instances| > 1
  }

  /** From the start of a resolver, and with several instances to choose from, that is the
      only way the first one is chosen every time. */
  lemma {:induction false} OnlyFlappingPicksFirst(stretch: seq<Lookup>, service: string)
    requires Several(stretch, service)
    ensures AllFirst(Picks([], stretch, service)) <==> NeverRepeats([], stretch, service)
    ensures AllFirst(Picks([], stretch, service)) ==> forall l :: Streak(stretch, service, l) <= 1
  {
    if stretch != [] {
      var rest, last := stretch[..|stretch| - 1], stretch[|stretch| - 1];
      assert stretch == rest + [last];
      OnlyFlappingPicksFirst(rest, service);
      NeverRepeatsAppend([], rest, last, service);
      PicksAppend([], rest, last, service);
      assert [] + rest == rest;
      if Counts(last, service) {
        CursorIsStreak(rest, service, last.instances);
        AllFirstAppend(Picks([], rest, service), Around(Streak(rest, service, last.instances), |last.instances|));
      }
      forall l | AllFirst(Picks([], stretch, service)) ensures Streak(stretch, service, l) <= 1 {
        StreakAppend(rest, last, service, l);
      }
    }
  }
}
