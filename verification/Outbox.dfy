/** The transactional outbox: the producer's row, and the relay that enqueues one delivery per
    subscribed endpoint, retries, and dead-letters.

    `Pass` is one whole drain by one relay.  `OutboxRelay` runs many at once, with crashes. */
module Outbox {
  import opened Http

  const WEBHOOK := "webhook"

  datatype Event = Event(
    source: string, eventId: string, eventType: string, org: Option<string>,
    attempts: nat, lastError: Option<string>, publishedAt: Option<int>, failedAt: Option<int>)
  {
    predicate Pending() { publishedAt.None? && failedAt.None? }
    predicate Same(e: Event) { source == e.source && eventId == e.eventId }
  }

  /** `types` is the endpoint's space-separated list, split. */
  datatype Endpoint = Endpoint(id: string, org: string, active: bool, types: seq<string>)

  /** One queued delivery of the event in row `row`. */
  datatype Delivery = Delivery(endpoint: string, row: nat)

  predicate Subscribed(p: Endpoint, e: Event) { Some(p.org) == e.org && p.active && e.eventType in p.types }

  /** The endpoints that `_fan_out` enqueues for, in query order; none for a foreign source. */
  function Targets(endpoints: seq<Endpoint>, e: Event): seq<string> {
    if e.source != WEBHOOK || endpoints == [] then []
    else
      var p := endpoints[|endpoints| - 1];
      Targets(endpoints[..|endpoints| - 1], e) + (if Subscribed(p, e) then [p.id] else [])
  }

  /** The endpoints of an event: active ones of its own organization that subscribe to its type, for
      webhook events, and no others. */
  lemma {:induction false} TargetsAreTheSubscribed(endpoints: seq<Endpoint>, e: Event, id: string)
    ensures id in Targets(endpoints, e) <==>
            e.source == "webhook" && exists p: Endpoint ::
              p in endpoints && e.org == Some(p.org) && p.active && e.eventType in p.types && p.id == id
  {
    if endpoints != [] {
      var before, p := endpoints[..|endpoints| - 1], endpoints[|endpoints| - 1];
      assert endpoints == before + [p];
      TargetsAreTheSubscribed(before, e, id);
    }
  }

  ghost predicate DistinctIds(endpoints: seq<Endpoint>) {
    forall i, j | 0 <= i < j < |endpoints| :: endpoints[i].id != endpoints[j].id
  }

  /** How many of `n` enqueues in a row succeed, from call number `call` on, when the calls in `down` fail. */
  function Accepted(n: nat, down: iset<nat>, call: nat): (k: nat)
    ensures k <= n
    ensures forall c: nat | call <= c < call + k :: c !in down
    ensures k < n ==> call + k in down
  {
    if n > 0 && call !in down then 1 + Accepted(n - 1, down, call + 1) else 0
  }

  lemma {:induction false} TargetsOneMore(endpoints: seq<Endpoint>, e: Event, i: nat)
    requires i < |endpoints|
    ensures Targets(endpoints[..i + 1], e)
            == Targets(endpoints[..i], e)
               + (if e.source == WEBHOOK && Subscribed(endpoints[i], e) then [endpoints[i].id] else [])
    ensures Targets(endpoints[..i + 1], e) <= Targets(endpoints, e)
    decreases |endpoints| - i
  {
    assert endpoints[..i + 1][..i] == endpoints[..i];
    if i + 1 < |endpoints| {
      TargetsOneMore(endpoints, e, i + 1);
    } else {
      assert endpoints[..i + 1] == endpoints;
    }
  }

  /** The first `n` targets are those among the first `i` endpoints. */
  ghost predicate AmongFirst(found: seq<Endpoint>, i: nat, e: Event, n: nat) {
    && i <= |found| && n <= |Targets(found, e)|
    && Targets(found, e)[..n] == Targets(found[..i], e)
  }

  lemma AmongNext(found: seq<Endpoint>, i: nat, e: Event, n: nat)
    requires i < |found| && e.source == WEBHOOK && AmongFirst(found, i, e, n)
    ensures if Subscribed(found[i], e)
            then n < |Targets(found, e)| && Targets(found, e)[n] == found[i].id && AmongFirst(found, i + 1, e, n + 1)
            else AmongFirst(found, i + 1, e, n)
  {
    TargetsOneMore(found, e, i);
    hide Targets, Subscribed;
  }

  lemma AmongAll(found: seq<Endpoint>, e: Event, n: nat)
    requires AmongFirst(found, |found|, e, n)
    ensures n == |Targets(found, e)|
  {
    assert found[..|found|] == found;
  }

  predicate InRange(rows: seq<nat>, n: nat) { forall i | 0 <= i < |rows| :: rows[i] < n }

  /** The event after a round in which `k` of its targets were enqueued. */
  function Tried(e: Event, targets: seq<string>, k: nat, now: int, max: int): Event
    requires k <= |targets|
  {
    if k == |targets| then e.(publishedAt := Some(now))
    else
      var failed := e.(attempts := e.attempts + 1, lastError := Some(targets[k]));
      if failed.attempts >= max then failed.(failedAt := Some(now)) else failed
  }

  function Deliveries(targets: seq<string>, row: nat): (ds: seq<Delivery>)
    ensures |ds| == |targets| && forall i | 0 <= i < |ds| :: ds[i] == Delivery(targets[i], row)
  {
    seq(|targets|, i requires 0 <= i < |targets| => Delivery(targets[i], row))
  }

  lemma DeliveriesOneMore(targets: seq<string>, n: nat, row: nat)
    requires n < |targets|
    ensures Deliveries(targets[..n + 1], row) == Deliveries(targets[..n], row) + [Delivery(targets[n], row)]
  {
    assert targets[..n + 1] == targets[..n] + [targets[n]];
  }

  /** A fan-out: the longest prefix of the targets that the queue takes, and the target it refuses. */
  ghost predicate FannedOut(targets: seq<string>, row: nat, down: iset<nat>, jobs: seq<Delivery>, calls: nat,
                            jobs': seq<Delivery>, calls': nat, refused: Option<string>) {
    var k := Accepted(|targets|, down, calls);
    && refused == (if k == |targets| then None else Some(targets[k]))
    && jobs' == jobs + Deliveries(targets[..k], row)
    && calls' == calls + (if k == |targets| then k else k + 1)
  }

  /** A fan-out under way: the first `n` targets were taken. */
  ghost predicate SentSome(targets: seq<string>, n: nat, row: nat, down: iset<nat>, jobs: seq<Delivery>, calls: nat,
                           jobs': seq<Delivery>, calls': nat) {
    && n <= Accepted(|targets|, down, calls)
    && jobs' == jobs + Deliveries(targets[..n], row) && calls' == calls + n
  }

  lemma NothingSent(found: seq<Endpoint>, e: Event, row: nat, down: iset<nat>, jobs: seq<Delivery>, calls: nat)
    ensures AmongFirst(found, 0, e, 0) && SentSome(Targets(found, e), 0, row, down, jobs, calls, jobs, calls)
    ensures e.source != WEBHOOK ==> FannedOut(Targets(found, e), row, down, jobs, calls, jobs, calls, None)
  {
    assert Deliveries(Targets(found, e)[..0], row) == [];
  }

  lemma SentNext(targets: seq<string>, n: nat, row: nat, down: iset<nat>, jobs: seq<Delivery>, calls: nat,
                 jobs': seq<Delivery>, calls': nat)
    requires n < |targets| && SentSome(targets, n, row, down, jobs, calls, jobs', calls')
    ensures calls' in down ==> FannedOut(targets, row, down, jobs, calls, jobs', calls' + 1, Some(targets[n]))
    ensures calls' !in down ==>
              SentSome(targets, n + 1, row, down, jobs, calls, jobs' + [Delivery(targets[n], row)], calls' + 1)
  {
    DeliveriesOneMore(targets, n, row);
    hide Deliveries;
    Regroup(jobs, Deliveries(targets[..n], row), [Delivery(targets[n], row)]);
  }

  lemma SentAll(targets: seq<string>, n: nat, row: nat, down: iset<nat>, jobs: seq<Delivery>, calls: nat,
                jobs': seq<Delivery>, calls': nat)
    requires n == |targets| && SentSome(targets, n, row, down, jobs, calls, jobs', calls')
    ensures FannedOut(targets, row, down, jobs, calls, jobs', calls', None)
  {
  }

  // ----- Choosing the events of a drain -----

  /** The pending rows that nobody has locked, oldest first. */
  function PendingRows(events: seq<Event>, locked: set<nat>): (rows: seq<nat>)
    ensures forall i | 0 <= i < |rows| ::
              rows[i] < |events| && events[rows[i]].Pending() && rows[i] !in locked
    ensures forall i, j | 0 <= i < j < |rows| :: rows[i] < rows[j]
    ensures forall r: nat | r < |events| && events[r].Pending() && r !in locked :: r in rows
  {
    if events == [] then []
    else
      var r := |events| - 1;
      var before := PendingRows(events[..r], locked);
      if events[r].Pending() && r !in locked then before + [r] else before
  }

  function Selected(events: seq<Event>, locked: set<nat>, limit: nat): seq<nat> {
    var rows := PendingRows(events, locked);
    if |rows| <= limit then rows else rows[..limit]
  }

  // ----- One drain -----

  /** What the relay changes: the table, the queue with its count of calls, and its own counter. */
  datatype Progress = Progress(events: seq<Event>, jobs: seq<Delivery>, calls: nat, published: nat)

  /** One turn of the relay's loop, on row `r`. */
  function Turn(p: Progress, r: nat, endpoints: seq<Endpoint>, down: iset<nat>, now: int, max: int): (p': Progress)
    requires r < |p.events|
    ensures |p'.events| == |p.events|
  {
    var targets := Targets(endpoints, p.events[r]);
    var k := Accepted(|targets|, down, p.calls);
    Progress(p.events[r := Tried(p.events[r], targets, k, now, max)],
             p.jobs + Deliveries(targets[..k], r),
             p.calls + (if k == |targets| then k else k + 1),
             p.published + (if k == |targets| then 1 else 0))
  }

  /** The relay's loop over `rows`. */
  function Pass(p: Progress, rows: seq<nat>, endpoints: seq<Endpoint>, down: iset<nat>, now: int, max: int):
    (p': Progress)
    requires InRange(rows, |p.events|)
    ensures |p'.events| == |p.events|
    decreases |rows|
  {
    if rows == [] then p
    else Turn(Pass(p, rows[..|rows| - 1], endpoints, down, now, max), rows[|rows| - 1], endpoints, down, now, max)
  }

  lemma PassOneMore(p: Progress, rows: seq<nat>, i: nat, endpoints: seq<Endpoint>, down: iset<nat>, now: int, max: int)
    requires InRange(rows, |p.events|) && i < |rows|
    ensures Pass(p, rows[..i + 1], endpoints, down, now, max)
            == Turn(Pass(p, rows[..i], endpoints, down, now, max), rows[i], endpoints, down, now, max)
  {
    assert rows[..i + 1][..i] == rows[..i];
  }

  predicate StrictlyRising(rows: seq<nat>) { forall i, j | 0 <= i < j < |rows| :: rows[i] < rows[j] }

  /** One round on one event: published, or one attempt more and dead at the limit; nothing else of
      the event changes. */
  ghost predicate Round(e: Event, e': Event, max: int) {
    && e'.(attempts := e.attempts, lastError := e.lastError, publishedAt := e.publishedAt, failedAt := e.failedAt) == e
    && (|| (e'.attempts == e.attempts && e'.publishedAt.Some? && e'.failedAt == e.failedAt
            && e'.lastError == e.lastError)
        || (e'.attempts == e.attempts + 1 && e'.publishedAt == e.publishedAt && e'.lastError.Some?
            && (e'.failedAt.Some? <==> e.failedAt.Some? || e'.attempts >= max)))
  }

  /** What a drain may do to the table, whatever the queue answers. */
  ghost predicate DrainedTo(events: seq<Event>, events': seq<Event>, rows: seq<nat>, max: int) {
    && |events'| == |events|
    && forall r: nat | r < |events| :: if r in rows then Round(events[r], events'[r], max) else events'[r] == events[r]
  }

  lemma TriedIsRound(e: Event, targets: seq<string>, k: nat, now: int, max: int)
    requires k <= |targets|
    ensures Round(e, Tried(e, targets, k, now, max), max)
    ensures Tried(e, targets, k, now, max).publishedAt.Some? && e.publishedAt.None? ==> k == |targets|
  {
  }

  /** A drain does one round on each of its rows and leaves the others alone. */
  lemma {:induction false} PassDrains(p: Progress, rows: seq<nat>, endpoints: seq<Endpoint>, down: iset<nat>,
                                      now: int, max: int)
    requires StrictlyRising(rows) && InRange(rows, |p.events|)
    ensures DrainedTo(p.events, Pass(p, rows, endpoints, down, now, max).events, rows, max)
    decreases |rows|
  {
    hide Round, Tried;
    if rows != [] {
      var r, before := rows[|rows| - 1], rows[..|rows| - 1];
      assert rows == before + [r] && r !in before;
      PassDrains(p, before, endpoints, down, now, max);
      var q := Pass(p, before, endpoints, down, now, max);
      var targets := Targets(endpoints, q.events[r]);
      TriedIsRound(p.events[r], targets, Accepted(|targets|, down, q.calls), now, max);
    }
  }

  /** The jobs a drain adds to the queue. */
  ghost predicate Sends(p: Progress, p': Progress, rows: seq<nat>, endpoints: seq<Endpoint>) {
    && |p'.events| == |p.events| && p.jobs <= p'.jobs
    && (forall r, id | r in rows && r < |p.events| && p'.events[r].publishedAt.Some? && p.events[r].publishedAt.None?
                       && id in Targets(endpoints, p.events[r]) :: Delivery(id, r) in p'.jobs[|p.jobs|..])
    && (forall x | x in p'.jobs[|p.jobs|..] ::
          x.row in rows && x.row < |p.events| && x.endpoint in Targets(endpoints, p.events[x.row]))
  }

  lemma DeliveriesGo(targets: seq<string>, k: nat, r: nat)
    requires k <= |targets|
    ensures k == |targets| ==> forall id | id in targets :: Delivery(id, r) in Deliveries(targets[..k], r)
    ensures forall x | x in Deliveries(targets[..k], r) :: x.row == r && x.endpoint in targets
  {
    var more := Deliveries(targets[..k], r);
    forall id | id in targets && k == |targets| ensures Delivery(id, r) in more {
      var i :| 0 <= i < |targets| && targets[i] == id;
      assert more[i] == Delivery(id, r);
    }
    forall x | x in more ensures x.row == r && x.endpoint in targets {
      var i :| 0 <= i < |more| && more[i] == x;
      assert x.endpoint == targets[i];
    }
  }

  lemma TurnSends(p: Progress, r: nat, endpoints: seq<Endpoint>, down: iset<nat>, now: int, max: int)
    requires r < |p.events|
    ensures Sends(p, Turn(p, r, endpoints, down, now, max), [r], endpoints)
    ensures forall i | 0 <= i < |p.events| && i != r :: Turn(p, r, endpoints, down, now, max).events[i] == p.events[i]
  {
    var targets := Targets(endpoints, p.events[r]);
    var k := Accepted(|targets|, down, p.calls);
    var p' := Turn(p, r, endpoints, down, now, max);
    TriedIsRound(p.events[r], targets, k, now, max);
    assert p'.jobs == p.jobs + Deliveries(targets[..k], r);
    assert p'.events == p.events[r := Tried(p.events[r], targets, k, now, max)];
    hide Targets, Accepted, Tried, Turn, Deliveries;
    DeliveriesGo(targets, k, r);
    assert p'.jobs[|p.jobs|..] == Deliveries(targets[..k], r);
  }

  lemma SendsThen(p: Progress, q: Progress, q': Progress, before: seq<nat>, r: nat, endpoints: seq<Endpoint>)
    requires Sends(p, q, before, endpoints) && Sends(q, q', [r], endpoints)
    requires InRange(before, |p.events|) && r !in before && r < |p.events| && q.events[r] == p.events[r]
    requires forall i | 0 <= i < |q.events| && i != r :: q'.events[i] == q.events[i]
    ensures Sends(p, q', before + [r], endpoints)
  {
    hide Targets;
    assert q'.jobs[|p.jobs|..] == q.jobs[|p.jobs|..] + q'.jobs[|q.jobs|..];
  }

  /** Nothing is published without a job for each of its endpoints, and no job goes to another. */
  lemma {:induction false} PassDelivers(p: Progress, rows: seq<nat>, endpoints: seq<Endpoint>, down: iset<nat>,
                                        now: int, max: int)
    requires StrictlyRising(rows) && InRange(rows, |p.events|)
    ensures Sends(p, Pass(p, rows, endpoints, down, now, max), rows, endpoints)
    decreases |rows|
  {
    if rows != [] {
      var r, before := rows[|rows| - 1], rows[..|rows| - 1];
      assert rows == before + [r] && r !in before;
      PassDrains(p, before, endpoints, down, now, max);
      PassDelivers(p, before, endpoints, down, now, max);
      var q := Pass(p, before, endpoints, down, now, max);
      assert q.events[r] == p.events[r];
      TurnSends(q, r, endpoints, down, now, max);
      var q' := Turn(q, r, endpoints, down, now, max);
      assert q' == Pass(p, rows, endpoints, down, now, max);
      hide Pass, Turn, Targets, DrainedTo, Sends;
      SendsThen(p, q, q', before, r, endpoints);
    }
  }

  /** In plain terms: every new job goes to an active endpoint of the event's own organization that
      subscribes to its type, and an event that gets published has one for each of them. */
  lemma JobsGoToSubscribers(p: Progress, rows: seq<nat>, endpoints: seq<Endpoint>, down: iset<nat>,
                            now: int, max: int)
    requires StrictlyRising(rows) && InRange(rows, |p.events|)
    ensures var p' := Pass(p, rows, endpoints, down, now, max);
            && p.jobs <= p'.jobs
            && (forall job | job in p'.jobs[|p.jobs|..] ::
                  && job.row in rows && job.row < |p.events| && p.events[job.row].source == "webhook"
                  && exists q: Endpoint ::
                       && q in endpoints && p.events[job.row].org == Some(q.org) && q.active
                       && p.events[job.row].eventType in q.types && q.id == job.endpoint)
            && (forall r, q: Endpoint | r in rows && r < |p.events| && q in endpoints ::
                  && p'.events[r].publishedAt.Some? && p.events[r].publishedAt.None?
                  && p.events[r].source == "webhook" && p.events[r].org == Some(q.org) && q.active
                  && p.events[r].eventType in q.types ==>
                    Delivery(q.id, r) in p'.jobs[|p.jobs|..])
  {
    PassDelivers(p, rows, endpoints, down, now, max);
    var p' := Pass(p, rows, endpoints, down, now, max);
    hide Pass, Targets;
    forall job | job in p'.jobs[|p.jobs|..]
      ensures p.events[job.row].source == "webhook"
      ensures exists q: Endpoint ::
                && q in endpoints && p.events[job.row].org == Some(q.org) && q.active
                && p.events[job.row].eventType in q.types && q.id == job.endpoint
    {
      TargetsAreTheSubscribed(endpoints, p.events[job.row], job.endpoint);
    }
    forall r, q: Endpoint | r in rows && r < |p.events| && q in endpoints
                            && p'.events[r].publishedAt.Some? && p.events[r].publishedAt.None?
                            && p.events[r].source == "webhook" && p.events[r].org == Some(q.org) && q.active
                            && p.events[r].eventType in q.types
      ensures Delivery(q.id, r) in p'.jobs[|p.jobs|..]
    {
      TargetsAreTheSubscribed(endpoints, p.events[r], q.id);
    }
  }

  /** How many of the events in `rows` got published. */
  function PublishedAmong(events: seq<Event>, events': seq<Event>, rows: seq<nat>): nat
    requires |events'| == |events| && InRange(rows, |events|)
  {
    if rows == [] then 0
    else
      var r := rows[|rows| - 1];
      PublishedAmong(events, events', rows[..|rows| - 1])
      + (if events[r].publishedAt.None? && events'[r].publishedAt.Some? then 1 else 0)
  }

  lemma {:induction false} PublishedAmongSame(events: seq<Event>, a: seq<Event>, b: seq<Event>, rows: seq<nat>)
    requires |a| == |b| == |events| && InRange(rows, |events|) && forall i | 0 <= i < |rows| :: a[rows[i]] == b[rows[i]]
    ensures PublishedAmong(events, a, rows) == PublishedAmong(events, b, rows)
  {
    if rows != [] { PublishedAmongSame(events, a, b, rows[..|rows| - 1]); }
  }

  /** The number that a drain returns is the number of events that it published. */
  lemma {:induction false} PassCounts(p: Progress, rows: seq<nat>, endpoints: seq<Endpoint>, down: iset<nat>,
                                      now: int, max: int)
    requires StrictlyRising(rows) && InRange(rows, |p.events|)
    requires forall i | 0 <= i < |rows| :: p.events[rows[i]].publishedAt.None?
    ensures var p' := Pass(p, rows, endpoints, down, now, max);
            p'.published == p.published + PublishedAmong(p.events, p'.events, rows)
    decreases |rows|
  {
    if rows != [] {
      var r, before := rows[|rows| - 1], rows[..|rows| - 1];
      assert rows == before + [r] && r !in before;
      PassDrains(p, before, endpoints, down, now, max);
      PassCounts(p, before, endpoints, down, now, max);
      var q := Pass(p, before, endpoints, down, now, max);
      assert q.events[r] == p.events[r];
      var targets := Targets(endpoints, p.events[r]);
      TriedIsRound(p.events[r], targets, Accepted(|targets|, down, q.calls), now, max);
      var p' := Turn(q, r, endpoints, down, now, max);
      assert p' == Pass(p, rows, endpoints, down, now, max);
      TurnCounts(q, r, endpoints, down, now, max);
      hide Pass, Turn, Targets, Accepted, DrainedTo, Tried;
      forall i | 0 <= i < |before| ensures p'.events[before[i]] == q.events[before[i]] {
        assert before[i] in before;
      }
      PublishedAmongSame(p.events, p'.events, q.events, before);
    }
  }

  lemma TurnCounts(p: Progress, r: nat, endpoints: seq<Endpoint>, down: iset<nat>, now: int, max: int)
    requires r < |p.events| && p.events[r].publishedAt.None?
    ensures var p' := Turn(p, r, endpoints, down, now, max);
            && p'.published == p.published + (if p'.events[r].publishedAt.Some? then 1 else 0)
            && forall i | 0 <= i < |p.events| && i != r :: p'.events[i] == p.events[i]
  {
  }

  // ----- Termination: every event settles -----

  /** The rounds that pending events still have before them. */
  function Measure(events: seq<Event>, max: int): int {
    if events == [] then 0
    else
      var e := events[|events| - 1];
      Measure(events[..|events| - 1], max) + (if e.Pending() then max - e.attempts else 0)
  }

  /** Pending events have rounds left: true of new events, and kept by every drain. */
  predicate RoundsLeft(events: seq<Event>, max: int) {
    forall i | 0 <= i < |events| && events[i].Pending() :: events[i].attempts < max
  }

  predicate AllSettled(events: seq<Event>) { forall i | 0 <= i < |events| :: !events[i].Pending() }

  lemma {:induction false} MeasureBounds(events: seq<Event>, max: int)
    requires RoundsLeft(events, max)
    ensures Measure(events, max) >= |PendingRows(events, {})|
    ensures max >= 0 ==> Measure(events, max) <= |events| * max
    ensures Measure(events, max) <= 0 ==> AllSettled(events)
  {
    if events != [] {
      var before, last := events[..|events| - 1], events[|events| - 1];
      MeasureBounds(before, max);
      assert events == before + [last];
      assert last.Pending() ==> last.attempts < max;
      assert |PendingRows(events, {})| == |PendingRows(before, {})| + (if last.Pending() then 1 else 0);
      hide PendingRows, RoundsLeft;
      MaxOneMore(|before|, max);
    }
  }

  lemma MaxOneMore(n: nat, max: int)
    ensures (n + 1) * max == n * max + max
  {
  }

  /** How many of `rows` lie below `n`. */
  function Below(rows: seq<nat>, n: nat): nat {
    if rows == [] then 0 else Below(rows[..|rows| - 1], n) + (if rows[|rows| - 1] < n then 1 else 0)
  }

  lemma {:induction false} BelowSteps(rows: seq<nat>, n: nat)
    requires StrictlyRising(rows)
    ensures Below(rows, n + 1) == Below(rows, n) + (if n in rows then 1 else 0)
  {
    if rows != [] {
      var before, last := rows[..|rows| - 1], rows[|rows| - 1];
      BelowSteps(before, n);
      assert rows == before + [last];
      if last == n { assert n !in before; }
    }
  }

  lemma {:induction false} BelowAll(rows: seq<nat>, n: nat)
    requires InRange(rows, n)
    ensures Below(rows, n) == |rows|
  {
    if rows != [] {
      var before, last := rows[..|rows| - 1], rows[|rows| - 1];
      assert rows == before + [last];
      BelowAll(before, n);
    }
  }

  lemma {:induction false} BelowNone(rows: seq<nat>)
    ensures Below(rows, 0) == 0
  {
    if rows != [] { BelowNone(rows[..|rows| - 1]); }
  }

  lemma {:induction false} MeasureFallsUpTo(events: seq<Event>, events': seq<Event>, rows: seq<nat>, max: int, n: nat)
    requires DrainedTo(events, events', rows, max) && RoundsLeft(events, max) && StrictlyRising(rows)
    requires n <= |events| && InRange(rows, |events|) && forall r | r in rows :: events[r].Pending()
    ensures Measure(events'[..n], max) <= Measure(events[..n], max) - Below(rows, n)
  {
    if n == 0 {
      BelowNone(rows);
    } else {
      MeasureFallsUpTo(events, events', rows, max, n - 1);
      BelowSteps(rows, n - 1);
      assert events[..n][..n - 1] == events[..n - 1] && events'[..n][..n - 1] == events'[..n - 1];
    }
  }

  /** A drain selects pending rows that nobody holds, oldest first. */
  lemma SelectedAreFree(events: seq<Event>, locked: set<nat>, limit: nat)
    ensures var rows := Selected(events, locked, limit);
            && StrictlyRising(rows) && InRange(rows, |events|)
            && forall r | r in rows :: events[r].Pending() && r !in locked
  {
    assert forall r | r in Selected(events, locked, limit) :: r in PendingRows(events, locked);
  }

  lemma SelectedArePending(events: seq<Event>, limit: nat)
    ensures var rows := Selected(events, {}, limit);
            && StrictlyRising(rows) && InRange(rows, |events|) && (forall r | r in rows :: events[r].Pending())
            && var pending := |PendingRows(events, {})|; |rows| == if pending <= limit then pending else limit
  {
    assert forall r | r in Selected(events, {}, limit) :: r in PendingRows(events, {});
  }

  lemma DrainKeepsRoundsLeft(events: seq<Event>, events': seq<Event>, rows: seq<nat>, max: int)
    requires DrainedTo(events, events', rows, max) && RoundsLeft(events, max)
    ensures RoundsLeft(events', max)
  {
  }

  /** Whatever the queue answers, a drain takes at least one round off the measure for every event
      that it selects. */
  lemma DrainLowersMeasure(events: seq<Event>, events': seq<Event>, limit: nat, max: int)
    requires DrainedTo(events, events', Selected(events, {}, limit), max) && RoundsLeft(events, max)
    ensures RoundsLeft(events', max)
    ensures var pending := |PendingRows(events, {})|;
            Measure(events', max) <= Measure(events, max) - (if pending <= limit then pending else limit)
  {
    var rows := Selected(events, {}, limit);
    SelectedArePending(events, limit);
    DrainKeepsRoundsLeft(events, events', rows, max);
    MeasureFallsUpTo(events, events', rows, max, |events|);
    BelowAll(rows, |events|);
    assert events[..|events|] == events && events'[..|events|] == events' by { hide Measure, PendingRows; }
    hide DrainedTo, RoundsLeft, Measure, PendingRows, Below, Selected;
  }

  /** What `DrainOutbox` leaves is such a table. */
  lemma DrainsAreDrains(p: Progress, limit: nat, endpoints: seq<Endpoint>, down: iset<nat>, now: int, max: int)
    ensures InRange(Selected(p.events, {}, limit), |p.events|)
    ensures var p' := Pass(p, Selected(p.events, {}, limit), endpoints, down, now, max);
            && DrainedTo(p.events, p'.events, Selected(p.events, {}, limit), max)
            && Sends(p, p', Selected(p.events, {}, limit), endpoints)
            && p'.published == p.published + PublishedAmong(p.events, p'.events, Selected(p.events, {}, limit))
  {
    SelectedArePending(p.events, limit);
    hide Selected, DrainedTo, Sends, Pass, PublishedAmong;
    PassCounts(p, Selected(p.events, {}, limit), endpoints, down, now, max);
    PassDrains(p, Selected(p.events, {}, limit), endpoints, down, now, max);
    PassDelivers(p, Selected(p.events, {}, limit), endpoints, down, now, max);
  }

  /** A run of committed drains, with any answers from the queue, and with any new events committed
      between one drain and the next. */
  ghost predicate DrainRun(tables: seq<seq<Event>>, limit: nat, max: int) {
    tables != [] && forall i | 0 <= i < |tables| - 1 :: DrainThenMore(tables[i], tables[i + 1], limit, max)
  }

  ghost predicate DrainThenMore(events: seq<Event>, events': seq<Event>, limit: nat, max: int) {
    && |events| <= |events'|
    && DrainedTo(events, events'[..|events|], Selected(events, {}, limit), max)
    && forall i | |events| <= i < |events'| :: events'[i].Pending() && events'[i].attempts == 0
  }

  lemma MoreKeepsRoundsLeft(events: seq<Event>, events': seq<Event>, limit: nat, max: int)
    requires DrainThenMore(events, events', limit, max) && RoundsLeft(events, max) && max >= 1
    ensures RoundsLeft(events', max)
  {
    var drained := events'[..|events|];
    DrainKeepsRoundsLeft(events, drained, Selected(events, {}, limit), max);
    forall i | 0 <= i < |events'| && events'[i].Pending() ensures events'[i].attempts < max {
      if i < |events| { assert events'[i] == drained[i]; }
    }
  }

  /** Oldest first: as long as one of the first `n` events is pending, a drain selects one of them. */
  lemma OldestIsSelected(events: seq<Event>, limit: nat, n: nat, r: nat)
    requires limit >= 1 && r < n <= |events| && events[r].Pending()
    ensures Below(Selected(events, {}, limit), n) >= 1
  {
    var pending, rows := PendingRows(events, {}), Selected(events, {}, limit);
    assert r in pending;
    var i :| 0 <= i < |pending| && pending[i] == r;
    assert pending[0] <= r && rows[0] == pending[0];
    hide PendingRows, Selected;
    BelowAtLeast(rows, n, 0);
  }

  lemma {:induction false} BelowAtLeast(rows: seq<nat>, n: nat, i: nat)
    requires i < |rows| && rows[i] < n
    ensures Below(rows, n) >= 1
  {
    if i < |rows| - 1 { BelowAtLeast(rows[..|rows| - 1], n, i); }
  }

  /** One drain takes a round off the first `n` events, unless they are settled. */
  lemma DrainLowersPrefix(events: seq<Event>, events': seq<Event>, limit: nat, max: int, n: nat)
    requires DrainThenMore(events, events', limit, max) && RoundsLeft(events, max) && limit >= 1 && n <= |events|
    ensures AllSettled(events[..n]) ==> AllSettled(events'[..n])
    ensures !AllSettled(events[..n]) ==> Measure(events'[..n], max) <= Measure(events[..n], max) - 1
  {
    var rows, drained := Selected(events, {}, limit), events'[..|events|];
    SelectedArePending(events, limit);
    assert drained[..n] == events'[..n];
    if AllSettled(events[..n]) {
      forall i | 0 <= i < n ensures !events'[..n][i].Pending() {
        assert !events[..n][i].Pending() && drained[i] == events'[i];
        assert i !in rows;
      }
    } else {
      var r :| 0 <= r < n && events[..n][r].Pending();
      OldestIsSelected(events, limit, n, r);
      hide Selected, DrainedTo, Measure, Below;
      MeasureFallsUpTo(events, drained, rows, max, n);
    }
  }

  lemma {:induction false} MeasureAfterDrains(tables: seq<seq<Event>>, limit: nat, max: int)
    requires DrainRun(tables, limit, max) && limit >= 1 && max >= 1 && RoundsLeft(tables[0], max)
    ensures var n, last := |tables[0]|, tables[|tables| - 1];
            && n <= |last| && RoundsLeft(last, max)
            && (AllSettled(last[..n]) || Measure(last[..n], max) <= Measure(tables[0], max) - (|tables| - 1))
  {
    var k, n := |tables| - 1, |tables[0]|;
    if k == 0 {
      assert tables[0][..n] == tables[0];
    } else {
      assert DrainRun(tables[..k], limit, max);
      MeasureAfterDrains(tables[..k], limit, max);
      var before, after := tables[k - 1], tables[k];
      assert DrainThenMore(before, after, limit, max);
      hide DrainThenMore, RoundsLeft, AllSettled, Measure;
      MoreKeepsRoundsLeft(before, after, limit, max);
      DrainLowersPrefix(before, after, limit, max, n);
      assert n <= |after| by { MoreIsMore(before, after, limit, max); }
    }
  }

  lemma MoreIsMore(events: seq<Event>, events': seq<Event>, limit: nat, max: int)
    requires DrainThenMore(events, events', limit, max)
    ensures |events| <= |events'|
  {
  }

  lemma PrefixKeepsRoundsLeft(events: seq<Event>, max: int, n: nat)
    requires RoundsLeft(events, max) && n <= |events|
    ensures RoundsLeft(events[..n], max)
  {
  }

  /** `n` events are all published or dead within `n * max` drains, whichever enqueues fail and however
      many events come in meanwhile. */
  lemma EverythingSettles(tables: seq<seq<Event>>, limit: nat, max: int)
    requires DrainRun(tables, limit, max) && limit >= 1 && max >= 1 && RoundsLeft(tables[0], max)
    requires |tables| - 1 >= |tables[0]| * max
    ensures |tables[0]| <= |tables[|tables| - 1]| && AllSettled(tables[|tables| - 1][..|tables[0]|])
  {
    var n, last := |tables[0]|, tables[|tables| - 1];
    MeasureAfterDrains(tables, limit, max);
    MeasureBounds(tables[0], max);
    PrefixKeepsRoundsLeft(last, max, n);
    MeasureBounds(last[..n], max);
  }

  /** Of the first `n` events, a drain of at least `n` takes every pending one. */
  lemma OldestAreSelected(events: seq<Event>, limit: nat, r: nat)
    requires r < |events| && events[r].Pending() && r < limit
    ensures r in Selected(events, {}, limit)
  {
    var pending := PendingRows(events, {});
    assert r in pending;
    var i :| 0 <= i < |pending| && pending[i] == r;
    RisingRunsAhead(pending, i);
    assert pending[i] == Selected(events, {}, limit)[i];
  }

  lemma {:induction false} RisingRunsAhead(rows: seq<nat>, i: nat)
    requires StrictlyRising(rows) && i < |rows|
    ensures rows[i] >= i
  {
    if i > 0 { RisingRunsAhead(rows, i - 1); }
  }

  lemma DrainRaisesAttempts(events: seq<Event>, events': seq<Event>, limit: nat, max: int, n: nat, k: int)
    requires DrainThenMore(events, events', limit, max) && n <= |events| && limit >= n
    requires forall i | 0 <= i < n && events[i].Pending() :: events[i].attempts >= k
    ensures forall i | 0 <= i < n && events'[i].Pending() :: events'[i].attempts >= k + 1
  {
    var drained := events'[..|events|];
    forall i | 0 <= i < n && events'[i].Pending() ensures events'[i].attempts >= k + 1 {
      assert drained[i] == events'[i];
      if events[i].Pending() { OldestAreSelected(events, limit, i); }
      hide Selected;
      SelectedArePending(events, limit);
      assert events[i].Pending() by {
        if i in Selected(events, {}, limit) { assert Round(events[i], drained[i], max); }
      }
    }
  }

  lemma DrainKeepsPrefixRounds(events: seq<Event>, events': seq<Event>, limit: nat, max: int, n: nat)
    requires DrainThenMore(events, events', limit, max) && n <= |events| && RoundsLeft(events[..n], max)
    ensures RoundsLeft(events'[..n], max)
  {
    var drained := events'[..|events|];
    hide Selected;
    forall i | 0 <= i < n && events'[..n][i].Pending() ensures events'[..n][i].attempts < max {
      assert drained[i] == events'[..n][i] && events[..n][i] == events[i];
      if i in Selected(events, {}, limit) { assert Round(events[i], drained[i], max); }
    }
  }

  lemma {:induction false} AttemptsAfterDrains(tables: seq<seq<Event>>, limit: nat, max: int)
    requires DrainRun(tables, limit, max) && limit >= |tables[0]| && RoundsLeft(tables[0], max)
    ensures var n, last := |tables[0]|, tables[|tables| - 1];
            && n <= |last| && RoundsLeft(last[..n], max)
            && forall i | 0 <= i < n && last[i].Pending() :: last[i].attempts >= |tables| - 1
  {
    var k, n := |tables| - 1, |tables[0]|;
    if k == 0 {
      assert tables[0][..n] == tables[0];
    } else {
      assert DrainRun(tables[..k], limit, max);
      AttemptsAfterDrains(tables[..k], limit, max);
      var before, after := tables[k - 1], tables[k];
      assert DrainThenMore(before, after, limit, max);
      hide DrainThenMore, RoundsLeft;
      MoreIsMore(before, after, limit, max);
      DrainKeepsPrefixRounds(before, after, limit, max, n);
      DrainRaisesAttempts(before, after, limit, max, n, k - 1);
    }
  }

  /** And within `max` drains when one drain takes as many as there were. */
  lemma OneBatchSettles(tables: seq<seq<Event>>, limit: nat, max: int)
    requires DrainRun(tables, limit, max) && limit >= |tables[0]| && RoundsLeft(tables[0], max)
    requires |tables| - 1 >= max
    ensures |tables[0]| <= |tables[|tables| - 1]| && AllSettled(tables[|tables| - 1][..|tables[0]|])
  {
    AttemptsAfterDrains(tables, limit, max);
    var n, last := |tables[0]|, tables[|tables| - 1];
    assert forall i | 0 <= i < n :: last[..n][i] == last[i];
  }

  // ----- The relay and the producer, updating the table in place -----

  /** The queue behind `enqueue_fn`: it takes a job, or reports that it could not on the calls in `down`. */
  class Queue {
    const down: iset<nat>
    var calls: nat
    var jobs: seq<Delivery>

    constructor (down: iset<nat>)
      ensures this.down == down && calls == 0 && jobs == []
    {
      this.down := down;
      calls, jobs := 0, [];
    }

    method Enqueue(job: Delivery) returns (queued: bool)
      modifies this
      ensures queued == (old(calls) !in down) && calls == old(calls) + 1
      ensures jobs == if queued then old(jobs) + [job] else old(jobs)
    {
      queued := calls !in down;
      calls := calls + 1;
      if queued { jobs := jobs + [job]; }
    }
  }

  class Relay {
    var events: seq<Event>
    var endpoints: seq<Endpoint>
    const queue: Queue

    constructor (queue: Queue)
      ensures events == [] && endpoints == [] && this.queue == queue
    {
      events, endpoints := [], [];
      this.queue := queue;
    }

    /** `dispatch`: the row is added, unless its (source, event_id) is taken. */
    method Dispatch(eventId: string, eventType: string, org: string) returns (added: bool)
      modifies this`events
      ensures var e := Event(WEBHOOK, eventId, eventType, Some(org), 0, None, None, None);
              && added == !(exists i | 0 <= i < |old(events)| :: old(events)[i].Same(e))
              && events == if added then old(events) + [e] else old(events)
    {
      var e := Event(WEBHOOK, eventId, eventType, Some(org), 0, None, None, None);
      added := !(exists i | 0 <= i < |events| :: events[i].Same(e));
      if added { events := events + [e]; }
    }

    /** `_fan_out`: stops at the first enqueue that the queue refuses, and reports its endpoint. */
    method FanOut(row: nat) returns (refused: Option<string>)
      requires row < |events|
      modifies queue
      ensures FannedOut(Targets(endpoints, events[row]), row, queue.down, old(queue.jobs), old(queue.calls),
                        queue.jobs, queue.calls, refused)
    {
      var event, found := events[row], endpoints;
      ghost var targets, down := Targets(found, event), queue.down;
      ghost var jobs, calls, n := queue.jobs, queue.calls, 0;
      NothingSent(found, event, row, down, jobs, calls);
      if event.source != WEBHOOK { return None; }
      hide Targets, Subscribed, AmongFirst, SentSome, FannedOut;
      for i := 0 to |found|
        invariant AmongFirst(found, i, event, n)
        invariant SentSome(targets, n, row, down, jobs, calls, queue.jobs, queue.calls)
      {
        AmongNext(found, i, event, n);
        if Subscribed(found[i], event) {
          SentNext(targets, n, row, down, jobs, calls, queue.jobs, queue.calls);
          var queued := queue.Enqueue(Delivery(found[i].id, row));
          if !queued { return Some(found[i].id); }
          n := n + 1;
        }
      }
      AmongAll(found, event, n);
      SentAll(targets, n, row, down, jobs, calls, queue.jobs, queue.calls);
      return None;
    }

    /** One turn of the relay's loop. */
    method Process(row: nat, max: int, now: int, published: nat) returns (published': nat)
      requires row < |events|
      modifies this`events, queue
      ensures Progress(events, queue.jobs, queue.calls, published')
              == Turn(Progress(old(events), old(queue.jobs), old(queue.calls), published), row, endpoints,
                      queue.down, now, max)
    {
      var event := events[row];
      var refused := FanOut(row);
      published' := published;
      if refused.Some? {
        event := event.(attempts := event.attempts + 1, lastError := refused);
        if event.attempts >= max { event := event.(failedAt := Some(now)); }
      } else {
        event := event.(publishedAt := Some(now));
        published' := published + 1;
      }
      events := events[row := event];
    }

    /** `drain_outbox`, with nobody else holding rows. */
    method DrainOutbox(limit: nat, max: int, now: int) returns (published: nat)
      modifies this`events, queue
      ensures Progress(events, queue.jobs, queue.calls, published)
              == Pass(Progress(old(events), old(queue.jobs), old(queue.calls), 0), Selected(old(events), {}, limit),
                      endpoints, queue.down, now, max)
    {
      var rows := Selected(events, {}, limit);
      SelectedArePending(events, limit);
      ghost var start := Progress(events, queue.jobs, queue.calls, 0);
      published := 0;
      hide Selected, PendingRows, Turn;
      for i := 0 to |rows|
        invariant Progress(events, queue.jobs, queue.calls, published)
                  == Pass(start, rows[..i], endpoints, queue.down, now, max)
      {
        PassOneMore(start, rows, i, endpoints, queue.down, now, max);
        published := Process(rows[i], max, now, published);
      }
      assert rows[..|rows|] == rows;
    }
  }
}
