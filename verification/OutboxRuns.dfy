/** Particular runs of the relay: one whole drain, step by step, and the runs on which the bounds on
    duplicates are met. */
module OutboxRuns {
  import opened Http
  import opened Outbox
  import opened OutboxRelay

  // ----- One undisturbed drain is a run of the steps -----

  /** One step, of any kind, or of any kind but a crash. */
  ghost predicate Goes(s: State, s': State, max: int, calm: bool) {
    if calm then NextWithoutCrash(s, s', max) else Next(s, s', max)
  }

  /** A stretch of steps from `s` to `s'`; a calm one has no crash in it. */
  ghost predicate Path(states: seq<State>, s: State, s': State, max: int, calm: bool) {
    && states != [] && states[0] == s && states[|states| - 1] == s'
    && forall i | 0 <= i < |states| - 1 :: Goes(states[i], states[i + 1], max, calm)
  }

  lemma GoesBy(s: State, step: Step, max: int, calm: bool)
    requires Enabled(s, step) && (calm ==> !step.Crash?)
    ensures Goes(s, Do(s, step, max), max, calm)
  {
  }

  lemma CalmGoes(s: State, s': State, max: int)
    requires Goes(s, s', max, true)
    ensures Next(s, s', max)
  {
    var step: Step :| !step.Crash? && Enabled(s, step) && s' == Do(s, step, max);
    assert Next(s, s', max);
  }

  lemma PathIsRun(states: seq<State>, s: State, s': State, max: int, calm: bool)
    requires Path(states, s, s', max, calm)
    ensures Run(states, max) && states[0] == s && states[|states| - 1] == s'
    ensures calm ==> forall i | 0 <= i < |states| - 1 :: NextWithoutCrash(states[i], states[i + 1], max)
    ensures Path(states, s, s', max, false)
  {
    forall i | 0 <= i < |states| - 1 ensures Next(states[i], states[i + 1], max) {
      if calm { CalmGoes(states[i], states[i + 1], max); }
    }
    hide Next, NextWithoutCrash;
  }

  lemma Append(states: seq<State>, s: State, s': State, step: Step, max: int, calm: bool)
    requires Path(states, s, s', max, calm) && Enabled(s', step) && (calm ==> !step.Crash?)
    ensures Path(states + [Do(s', step, max)], s, Do(s', step, max), max, calm)
  {
    GoesBy(s', step, max, calm);
    AppendState(states, s, s', Do(s', step, max), max, calm);
  }

  lemma AppendState(states: seq<State>, s: State, s': State, s'': State, max: int, calm: bool)
    requires Path(states, s, s', max, calm) && Goes(s', s'', max, calm)
    ensures Path(states + [s''], s, s'', max, calm)
  {
    hide Goes;
    var all := states + [s''];
    forall i | 0 <= i < |all| - 1 ensures Goes(all[i], all[i + 1], max, calm) {
      if i < |states| - 1 { assert all[i] == states[i] && all[i + 1] == states[i + 1]; }
    }
  }

  lemma Concat(a: seq<State>, b: seq<State>, s: State, s': State, s'': State, max: int, calm: bool)
    requires Path(a, s, s', max, calm) && Path(b, s', s'', max, calm)
    ensures Path(a + b[1..], s, s'', max, calm)
  {
    hide Goes;
    var c := a + b[1..];
    forall i | 0 <= i < |c| - 1 ensures Goes(c[i], c[i + 1], max, calm) {
      if i >= |a| - 1 { assert c[i] == b[i - |a| + 1] && c[i + 1] == b[i - |a| + 2]; }
    }
  }

  ghost function Sent(s: State, r: nat, k: nat): State
    requires r in s.held && r < |s.rows| && k <= |Targets(s.endpoints, s.rows[r].event)|
  {
    At(s, r, Sending(s.endpoints, k)).(jobs := s.jobs + Deliveries(Targets(s.endpoints, s.rows[r].event)[..k], r))
  }

  lemma {:induction false} SendingIsARun(s: State, r: nat, k: nat, max: int) returns (states: seq<State>)
    requires r in s.held && r < |s.rows| && s.held[r].phase.Waiting?
    requires k <= |Targets(s.endpoints, s.rows[r].event)|
    ensures Path(states, s, Sent(s, r, k), max, true)
  {
    var targets := Targets(s.endpoints, s.rows[r].event);
    if k == 0 {
      states := [s];
      Append(states, s, s, Look(r), max, true);
      assert s.jobs + Deliveries(targets[..0], r) == s.jobs;
      assert Do(s, Look(r), max) == Sent(s, r, 0);
      states := states + [Do(s, Look(r), max)];
    } else {
      states := SendingIsARun(s, r, k - 1, max);
      var last := Sent(s, r, k - 1);
      Append(states, s, last, Send(r), max, true);
      DeliveriesOneMore(targets, k - 1, r);
      hide Targets, Deliveries;
      assert Do(last, Send(r), max) == Sent(s, r, k);
      states := states + [Sent(s, r, k)];
    }
  }

  lemma TurnIsARun(s: State, p: Progress, r: nat, down: iset<nat>, now: int, max: int)
    returns (states: seq<State>)
    requires r in s.held && r < |s.rows| && s.held[r].phase.Waiting?
    requires r < |p.events| && p.events[r] == s.rows[r].event && p.jobs == s.jobs
    ensures var p' := Turn(p, r, s.endpoints, down, now, max);
            Path(states, s, At(s, r, Written(p'.events[r], s.endpoints)).(jobs := p'.jobs), max, true)
  {
    var targets := Targets(s.endpoints, s.rows[r].event);
    var k := Accepted(|targets|, down, p.calls);
    var p' := Turn(p, r, s.endpoints, down, now, max);
    states := SendingIsARun(s, r, k, max);
    var last := Sent(s, r, k);
    var step := if k == |targets| then Finish(r, now) else Refuse(r, now);
    hide Targets, Accepted, Deliveries, Tried, Path;
    Append(states, s, last, step, max, true);
    assert Do(last, step, max) == At(s, r, Written(p'.events[r], s.endpoints)).(jobs := p'.jobs);
    states := states + [Do(last, step, max)];
  }

  /** The state of a relay's loop after it has worked on `rows`. */
  ghost predicate Worked(s: State, s': State, p': Progress, rows: seq<nat>, relay: nat) {
    && s' == s.(held := s'.held, jobs := p'.jobs)
    && |p'.events| == |s.rows| && InRange(rows, |s.rows|)
    && s'.held.Keys == s.held.Keys
    && (forall i | 0 <= i < |rows| ::
          rows[i] in s'.held && s'.held[rows[i]] == Claim(relay, Written(p'.events[rows[i]], s.endpoints)))
    && (forall r: nat | r < |s.rows| && r !in rows ::
          p'.events[r] == s.rows[r].event && (r in s.held ==> s'.held[r] == s.held[r]))
  }

  lemma WorkedOneMore(s: State, mid: State, q: Progress, q': Progress, before: seq<nat>, r: nat, relay: nat)
    requires Worked(s, mid, q, before, relay) && r < |s.rows| && r !in before && r in s.held
    requires |q'.events| == |q.events| && forall i | 0 <= i < |q.events| && i != r :: q'.events[i] == q.events[i]
    requires s.held[r] == Claim(relay, Waiting)
    ensures mid.held[r] == s.held[r] && q.events[r] == s.rows[r].event && mid.jobs == q.jobs && mid.rows == s.rows
    ensures Worked(s, At(mid, r, Written(q'.events[r], s.endpoints)).(jobs := q'.jobs), q', before + [r], relay)
  {
    assert mid.held[r] == s.held[r];
  }

  lemma {:induction false} LoopIsARun(s: State, p: Progress, rows: seq<nat>, relay: nat, down: iset<nat>,
                                      now: int, max: int)
    returns (states: seq<State>, s': State)
    requires StrictlyRising(rows) && InRange(rows, |s.rows|) && p.events == Events(s) && p.jobs == s.jobs
    requires forall i | 0 <= i < |rows| :: rows[i] in s.held && s.held[rows[i]] == Claim(relay, Waiting)
    ensures Path(states, s, s', max, true) && Worked(s, s', Pass(p, rows, s.endpoints, down, now, max), rows, relay)
    decreases |rows|
  {
    if rows == [] {
      states, s' := [s], s;
    } else {
      var r, before := rows[|rows| - 1], rows[..|rows| - 1];
      assert rows == before + [r] && r !in before;
      hide Path, Worked, Sends;
      var first, mid := LoopIsARun(s, p, before, relay, down, now, max);
      var q := Pass(p, before, s.endpoints, down, now, max);
      var q' := Turn(q, r, s.endpoints, down, now, max);
      assert q' == Pass(p, rows, s.endpoints, down, now, max);
      TurnSends(q, r, s.endpoints, down, now, max);
      hide Pass, Turn;
      WorkedOneMore(s, mid, q, q', before, r, relay);
      assert mid.endpoints == s.endpoints && mid.held.Keys == s.held.Keys by {
        assert Worked(s, mid, q, before, relay);
        WorkedFrame(s, mid, q, before, relay);
      }
      var second := TurnIsARun(mid, q, r, down, now, max);
      s' := At(mid, r, Written(q'.events[r], s.endpoints)).(jobs := q'.jobs);
      Concat(first, second, s, mid, s', max, true);
      states := first + second[1..];
    }
  }

  lemma WorkedFrame(s: State, s': State, p': Progress, rows: seq<nat>, relay: nat)
    requires Worked(s, s', p', rows, relay)
    ensures s'.jobs == p'.jobs && |p'.events| == |s.rows| && InRange(rows, |s.rows|)
    ensures s'.endpoints == s.endpoints && s'.held.Keys == s.held.Keys && s'.rows == s.rows && s'.open == s.open
  {
  }

  /** Nobody but the others holds anything. */
  ghost predicate Idle(s: State, relay: nat) {
    forall r | r in s.held :: s.held[r].relay != relay && r < |s.rows|
  }

  lemma BeginLocks(s: State, rows: seq<nat>, relay: nat, max: int)
    requires Idle(s, relay) && InRange(rows, |s.rows|) && forall r | r in rows :: s.Pending(r) && r !in s.held
    ensures var begin := Begin(relay, set r | r in rows);
            && Enabled(s, begin)
            && var s' := Do(s, begin, max);
               && s' == s.(held := s'.held) && (forall r :: r in s'.held <==> r in rows || r in s.held)
               && (forall r | r in rows :: s'.held[r] == Claim(relay, Waiting))
               && forall r | r in s.held :: s'.held[r] == s.held[r]
  {
  }

  lemma WorkedClaims(s: State, s': State, p': Progress, rows: seq<nat>, relay: nat)
    requires Worked(s, s', p', rows, relay)
    requires forall r | r in s.held :: r < |s.rows| && (r in rows <==> s.held[r].relay == relay)
    ensures forall r | r in rows :: s'.Has(relay, r) && s'.held[r].phase == Written(p'.events[r], s.endpoints)
    ensures forall r | r in s'.held && r !in rows :: s'.held[r] == s.held[r] && s.held[r].relay != relay
    ensures forall r: nat | r < |s.rows| && r !in rows :: p'.events[r] == s.rows[r].event
  {
    forall r | r in rows ensures s'.Has(relay, r) && s'.held[r].phase == Written(p'.events[r], s.endpoints) {
      var i :| 0 <= i < |rows| && rows[i] == r;
    }
  }

  /** What a commit leaves when the relay's rows are `rows`, all written. */
  lemma CommitLeaves(s: State, rows: seq<nat>, events: seq<Event>, relay: nat)
    requires |events| == |s.rows|
    requires InRange(rows, |events|)
    requires forall r | r in rows :: s.Has(relay, r) && s.held[r].phase == Written(events[r], s.endpoints)
    requires forall r | r in s.held && r !in rows :: s.held[r].relay != relay
    requires forall r: nat | r < |s.rows| && r !in rows :: events[r] == s.rows[r].event
    ensures forall r: nat | r < |s.rows| :: CommittedRows(s, relay)[r].event == events[r]
  {
  }

  lemma CommitEnds(s: State, s': State, p': Progress, rows: seq<nat>, relay: nat, max: int)
    requires Worked(s, s', p', rows, relay)
    requires forall r | r in s.held :: r < |s.rows| && (r in rows <==> s.held[r].relay == relay)
    ensures Enabled(s', Commit(relay))
    ensures var end := Do(s', Commit(relay), max);
            && Events(end) == p'.events && end.jobs == p'.jobs
            && end.held == (map r | r in s.held && r !in rows :: s.held[r])
            && end.endpoints == s.endpoints && end.open == s.open
  {
    hide Worked, CommittedRows, Do, Enabled;
    WorkedClaims(s, s', p', rows, relay);
    WorkedFrame(s, s', p', rows, relay);
    CommitLeaves(s', rows, p'.events, relay);
    CommitIs(s', relay, max);
    assert Without(s', relay) == (map r | r in s.held && r !in rows :: s.held[r]);
    hide Without;
    assert Events(Do(s', Commit(relay), max)) == p'.events;
  }

  lemma CommitIs(s: State, relay: nat, max: int)
    requires forall r | s.Has(relay, r) :: s.held[r].phase.Written?
    ensures Enabled(s, Commit(relay))
    ensures Do(s, Commit(relay), max) == s.(rows := CommittedRows(s, relay), held := Without(s, relay))
  {
    hide CommittedRows, Without;
  }

  lemma LockedPassIsARun(s: State, p: Progress, rows: seq<nat>, relay: nat, down: iset<nat>, now: int, max: int)
    returns (states: seq<State>, s': State)
    requires StrictlyRising(rows) && InRange(rows, |s.rows|) && p.events == Events(s) && p.jobs == s.jobs
    requires forall r | r in s.held :: r < |s.rows| && (r in rows <==> s.held[r].relay == relay)
    requires forall r | r in rows :: r in s.held && s.held[r] == Claim(relay, Waiting)
    ensures states != [] && Path(states, s, s', max, true)
    ensures var p' := Pass(p, rows, s.endpoints, down, now, max);
            && Events(s') == p'.events && s'.jobs == p'.jobs
            && s'.held == (map r | r in s.held && r !in rows :: s.held[r])
            && s'.endpoints == s.endpoints && s'.open == s.open
  {
    var p' := Pass(p, rows, s.endpoints, down, now, max);
    hide Pass, Path, Worked, Enabled, Do, Events;
    var loop, written := LoopIsARun(s, p, rows, relay, down, now, max);
    CommitEnds(s, written, p', rows, relay, max);
    Append(loop, s, written, Commit(relay), max, true);
    s' := Do(written, Commit(relay), max);
    states := loop + [s'];
  }

  /** A drain that nobody disturbs, while others may hold rows of their own: `Pass` over the rows that
      SKIP LOCKED leaves is what the steps of one relay come to.  It selects, works on its rows in
      order, and commits.  So everything proved of runs holds of `DrainOutbox`. */
  lemma DrainIsARun(s: State, p: Progress, relay: nat, limit: nat, down: iset<nat>, now: int, max: int)
    returns (states: seq<State>, s': State)
    requires Idle(s, relay) && p.events == Events(s) && p.jobs == s.jobs
    ensures InRange(Selected(p.events, s.held.Keys, limit), |p.events|)
    ensures Path(states, s, s', max, true)
    ensures var p' := Pass(p, Selected(p.events, s.held.Keys, limit), s.endpoints, down, now, max);
            && Events(s') == p'.events && s'.jobs == p'.jobs && s'.held == s.held
            && s'.endpoints == s.endpoints && s'.open == s.open
  {
    var rows := Selected(p.events, s.held.Keys, limit);
    SelectedAreFree(p.events, s.held.Keys, limit);
    hide Selected, PendingRows, Pass, Path;
    var locked := BeginIsARun(s, rows, relay, max);
    var rest;
    rest, s' := LockedPassIsARun(locked, p, rows, relay, down, now, max);
    hide Events, Idle;
    Concat([s, locked], rest, s, locked, s', max, true);
    states := [s, locked] + rest[1..];
  }

  lemma BeginIsARun(s: State, rows: seq<nat>, relay: nat, max: int) returns (locked: State)
    requires Idle(s, relay) && InRange(rows, |s.rows|)
    requires forall r | r in rows :: Events(s)[r].Pending() && r !in s.held
    ensures Path([s, locked], s, locked, max, true)
    ensures locked == s.(held := locked.held) && Events(locked) == Events(s)
    ensures (forall r :: r in locked.held <==> r in rows || r in s.held)
    ensures (forall r | r in rows :: locked.held[r] == Claim(relay, Waiting))
    ensures forall r | r in s.held :: r < |s.rows| && locked.held[r] == s.held[r] && s.held[r].relay != relay
  {
    var begin := Begin(relay, set r | r in rows);
    BeginLocks(s, rows, relay, max);
    locked := Do(s, begin, max);
    GoesBy(s, begin, max, true);
    hide Goes, Do, Enabled;
  }

  // ----- The bound is met -----

  /** One event for one endpoint, sent `n` times by relays that crashed before they committed. */
  ghost function CrashedTimes(n: nat): State {
    State([Row(Event(WEBHOOK, "id", "type", Some("org"), 0, None, None, None), n, None)],
          [Endpoint("p", "org", true, ["type"])], Copies(n), map[], map[])
  }

  function Copies(n: nat): (jobs: seq<Delivery>)
    ensures |jobs| == n && Count(jobs, "p", 0) == n
  {
    if n == 0 then []
    else
      assert multiset(Copies(n - 1) + [Delivery("p", 0)]) == multiset(Copies(n - 1)) + multiset{Delivery("p", 0)};
      Copies(n - 1) + [Delivery("p", 0)]
  }

  lemma TheTarget(n: nat)
    ensures Targets(CrashedTimes(n).endpoints, CrashedTimes(n).rows[0].event) == ["p"]
  {
    var s := CrashedTimes(n);
    assert Subscribed(s.endpoints[0], s.rows[0].event);
    assert s.endpoints[..0] == [];
    assert Targets(s.endpoints[..0], s.rows[0].event) == [];
  }

  ghost function Empty(): State { State([], [], [], map[], map[]) }

  /** One event and some endpoints, before any relay has run. */
  ghost function Ready(e: Event, endpoints: seq<Endpoint>): State {
    State([Row(e, 0, None)], endpoints, [], map[], map[])
  }

  lemma SetUp(e: Event, endpoints: seq<Endpoint>, max: int) returns (states: seq<State>)
    requires IsNew(e) && DistinctIds(endpoints)
    ensures Path(states, Empty(), Ready(e, endpoints), max, true)
  {
    var s0 := Empty();
    var s3 := Ready(e, endpoints);
    var s1 := s0.(endpoints := endpoints);
    var s2 := Do(s1, Flush(0, e), max);
    assert s1 == Do(s0, Configure(endpoints), max);
    assert s2.open.Keys == {0} && s2.open[0] == [e];
    GoesBy(s0, Configure(endpoints), max, true);
    GoesBy(s1, Flush(0, e), max, true);
    assert Landed(s2.open[0]) == s3.rows;
    assert s3 == Do(s2, Land(0), max);
    GoesBy(s2, Land(0), max, true);
    hide Goes;
    states := [s0, s1, s2, s3];
  }

  ghost function SentAgain(n: nat): State {
    var s := CrashedTimes(n);
    s.(held := map[0 := Claim(0, Sending(s.endpoints, 1))], jobs := Copies(n + 1))
  }

  lemma LocksAgain(n: nat, max: int) returns (locked: State, looked: State)
    ensures Goes(CrashedTimes(n), locked, max, false) && Goes(locked, looked, max, false)
    ensures looked == CrashedTimes(n).(held := map[0 := Claim(0, Sending(CrashedTimes(n).endpoints, 0))])
  {
    var s := CrashedTimes(n);
    locked := s.(held := map[0 := Claim(0, Waiting)]);
    looked := s.(held := map[0 := Claim(0, Sending(s.endpoints, 0))]);
    assert locked == Do(s, Begin(0, {0}), max);
    assert looked == Do(locked, Look(0), max);
    GoesBy(s, Begin(0, {0}), max, false);
    GoesBy(locked, Look(0), max, false);
  }

  lemma SendsAgain(n: nat, looked: State, max: int)
    requires looked == CrashedTimes(n).(held := map[0 := Claim(0, Sending(CrashedTimes(n).endpoints, 0))])
    ensures Goes(looked, SentAgain(n), max, false)
  {
    TheTarget(n);
    hide Targets;
    assert SentAgain(n) == Do(looked, Send(0), max);
    GoesBy(looked, Send(0), max, false);
  }

  lemma SendAgain(n: nat, max: int) returns (states: seq<State>)
    ensures Path(states, CrashedTimes(n), SentAgain(n), max, false)
  {
    hide Goes, CrashedTimes, SentAgain;
    var locked, looked := LocksAgain(n, max);
    SendsAgain(n, looked, max);
    states := [CrashedTimes(n), locked, looked, SentAgain(n)];
  }

  lemma {:induction false} CrashesRepeat(n: nat, max: int) returns (states: seq<State>)
    ensures Path(states, Empty(), CrashedTimes(n), max, false)
  {
    if n == 0 {
      var s := CrashedTimes(0);
      states := SetUp(s.rows[0].event, s.endpoints, max);
      PathIsRun(states, Empty(), s, max, true);
    } else {
      var before := CrashesRepeat(n - 1, max);
      var again := SendAgain(n - 1, max);
      hide Path;
      Concat(before, again, Empty(), CrashedTimes(n - 1), SentAgain(n - 1), max, false);
      CrashAgain(n - 1, max);
      hide CrashedTimes, SentAgain, Do, Enabled;
      states := before + again[1..];
      Append(states, Empty(), SentAgain(n - 1), Crash(0), max, false);
      states := states + [CrashedTimes(n)];
    }
  }

  lemma CrashAgain(n: nat, max: int)
    ensures Enabled(SentAgain(n), Crash(0)) && Do(SentAgain(n), Crash(0), max) == CrashedTimes(n + 1)
  {
    var s := SentAgain(n);
    assert CrashedRows(s, 0) == CrashedTimes(n + 1).rows && Without(s, 0) == map[];
  }

  /** However often relays crash, each crash can cost one more job: `n` of them, and `n + 1` jobs for
      one endpoint of an event that was then published at its first attempt. */
  lemma CrashesDuplicate(n: nat, max: int) returns (states: seq<State>)
    ensures Run(states, max) && Initial(states[0])
    ensures var s := states[|states| - 1];
            && |s.rows| == 1 && s.rows[0].crashes == n
            && s.rows[0].event.publishedAt.Some? && s.rows[0].event.attempts == 0
            && Count(s.jobs, "p", 0) == n + 1
  {
    var init, s := Empty(), SentAgain(n);
    var before := CrashesRepeat(n, max);
    var again := SendAgain(n, max);
    Concat(before, again, init, CrashedTimes(n), s, max, false);
    states := before + again[1..];
    TheTarget(n);
    assert s.rows == CrashedTimes(n).rows && s.endpoints == CrashedTimes(n).endpoints;
    assert Enabled(s, Finish(0, 0));
    hide Path, Targets;
    Append(states, init, s, Finish(0, 0), max, false);
    var done := Do(s, Finish(0, 0), max);
    assert done.held.Keys == {0} && done.held[0].phase.Written?;
    states := states + [done];
    Append(states, init, done, Commit(0), max, false);
    states := states + [Do(done, Commit(0), max)];
    assert done.Has(0, 0);
    assert Path(states, init, Do(done, Commit(0), max), max, false);
    PathIsRun(states, init, Do(done, Commit(0), max), max, false);
  }

  /** An event for two endpoints, after `n` rounds in which the second endpoint's job was refused. */
  ghost function Failing(n: nat, max: int): Event {
    Event(WEBHOOK, "id", "type", Some("org"), n, if n == 0 then None else Some("q"), None,
          if n > 0 && n >= max then Some(0) else None)
  }

  ghost function TwoEndpoints(): seq<Endpoint> {
    [Endpoint("p", "org", true, ["type"]), Endpoint("q", "org", true, ["type"])]
  }

  lemma BothTargets(n: nat, max: int)
    ensures Targets(TwoEndpoints(), Failing(n, max)) == ["p", "q"]
  {
    var e, endpoints := Failing(n, max), TwoEndpoints();
    assert Subscribed(endpoints[0], e) && Subscribed(endpoints[1], e);
    assert endpoints[..1] == [endpoints[0]] && endpoints[..1][..0] == [];
    assert Targets(endpoints[..1][..0], e) == [];
    assert Targets(endpoints[..1], e) == ["p"];
  }

  /** A drain in which the queue takes the first `k` of the two jobs. */
  lemma OneRound(p: Progress, n: nat, k: nat, max: int)
    requires p.events == [Failing(n, max)] && p.calls == 0 && n < max && 1 <= k <= 2
    ensures Selected(p.events, {}, 1) == [0]
    ensures var p' := Pass(p, [0], TwoEndpoints(), iset{k}, 0, max);
            && p'.events == [Tried(Failing(n, max), ["p", "q"], k, 0, max)]
            && p'.jobs == p.jobs + Deliveries(["p", "q"][..k], 0)
  {
    BothTargets(n, max);
    assert p.events[..0] == [] && PendingRows(p.events[..0], {}) == [];
    assert PendingRows(p.events, {}) == [0];
    hide Targets, Tried, Deliveries;
    var down: iset<nat> := iset{k};
    assert Accepted(0, down, 2) == 0;
    assert Accepted(1, down, 1) == k - 1;
    assert Accepted(2, down, 0) == k;
    assert [0][..0] == [] && Pass(p, [0][..0], TwoEndpoints(), down, 0, max) == p;
    assert Pass(p, [0], TwoEndpoints(), down, 0, max) == Turn(p, 0, TwoEndpoints(), down, 0, max);
  }

  lemma OneMoreForP(jobs: seq<Delivery>, k: nat)
    requires 1 <= k <= 2
    ensures Count(jobs + Deliveries(["p", "q"][..k], 0), "p", 0) == Count(jobs, "p", 0) + 1
  {
    var more := Deliveries(["p", "q"][..k], 0);
    assert more == if k == 1 then [Delivery("p", 0)] else [Delivery("p", 0), Delivery("q", 0)];
    assert multiset(jobs + more) == multiset(jobs) + multiset(more);
  }

  lemma RoundAsARun(s: State, n: nat, k: nat, max: int) returns (states: seq<State>, s': State)
    requires Events(s) == [Failing(n, max)] && s.endpoints == TwoEndpoints() && s.held == map[]
    requires n < max && 1 <= k <= 2
    ensures Path(states, s, s', max, true) && s'.endpoints == s.endpoints && s'.held == map[]
    ensures Events(s') == [Tried(Failing(n, max), ["p", "q"], k, 0, max)]
    ensures Count(s'.jobs, "p", 0) == Count(s.jobs, "p", 0) + 1
  {
    var p := Progress(Events(s), s.jobs, 0, 0);
    OneRound(p, n, k, max);
    OneMoreForP(s.jobs, k);
    assert s.held.Keys == {};
    hide Path, Pass, Selected, Tried, Deliveries, Count, TwoEndpoints, Failing;
    states, s' := DrainIsARun(s, p, 0, 1, iset{k}, 0, max);
  }

  lemma {:induction false} RefusedRounds(n: nat, max: int) returns (states: seq<State>, s: State)
    requires n <= max
    ensures Path(states, Empty(), s, max, true) && s.endpoints == TwoEndpoints() && s.held == map[]
    ensures Events(s) == [Failing(n, max)] && Count(s.jobs, "p", 0) == n
  {
    if n == 0 {
      s := Ready(Failing(0, max), TwoEndpoints());
      assert Count(s.jobs, "p", 0) == 0;
      states := SetUp(Failing(0, max), TwoEndpoints(), max);
    } else {
      var before, mid := RefusedRounds(n - 1, max);
      assert Tried(Failing(n - 1, max), ["p", "q"], 1, 0, max) == Failing(n, max);
      hide Path, Tried, Count, TwoEndpoints, Failing;
      var round;
      round, s := RoundAsARun(mid, n - 1, 1, max);
      Concat(before, round, Empty(), mid, s, max, true);
      states := before + round[1..];
    }
  }

  /** The bound without crashes is met as well: whenever the second of two endpoints is refused, the
      first gets one more job, up to `max` of them for an event that is then dead. */
  lemma RefusalsDuplicate(max: nat) returns (states: seq<State>)
    requires max >= 1
    ensures Run(states, max) && Initial(states[0])
    ensures forall i | 0 <= i < |states| - 1 :: NextWithoutCrash(states[i], states[i + 1], max)
    ensures var s := states[|states| - 1];
            && |s.rows| == 1 && s.rows[0].event.failedAt.Some? && Count(s.jobs, "p", 0) == max
  {
    var s;
    states, s := RefusedRounds(max, max);
    assert Events(s)[0] == s.rows[0].event;
    hide Path, Count;
    PathIsRun(states, Empty(), s, max, true);
  }

  /** And `n + 1` of them for an event that is published after `n` failed rounds. */
  lemma LatePublicationDuplicates(n: nat, max: nat) returns (states: seq<State>)
    requires n < max
    ensures Run(states, max) && Initial(states[0])
    ensures forall i | 0 <= i < |states| - 1 :: NextWithoutCrash(states[i], states[i + 1], max)
    ensures var s := states[|states| - 1];
            && |s.rows| == 1 && s.rows[0].event.publishedAt.Some? && s.rows[0].event.attempts == n
            && Count(s.jobs, "p", 0) == n + 1
  {
    var before, mid := RefusedRounds(n, max);
    var last, s := RoundAsARun(mid, n, 2, max);
    assert Events(s)[0] == s.rows[0].event;
    hide Path, Count;
    Concat(before, last, Empty(), mid, s, max, true);
    states := before + last[1..];
    PathIsRun(states, Empty(), s, max, true);
  }
}
