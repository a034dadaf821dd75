/** The outbox with any number of relays and producers at once, one enqueue at a time.

    A relay locks the rows it selects, keeps its changes to itself until it commits, and may crash
    anywhere: its changes and its locks are then gone, what it enqueued is not.  A relay may here
    work on its rows in any order, which includes the order of the code's loop. */
module OutboxRelay {
  import opened Http
  import opened Outbox

  /** A committed row, with two pieces of history: how many passes crashed after they had begun to
      send it, and the endpoint table that its publishing pass had read. */
  datatype Row = Row(event: Event, crashes: nat, audience: Option<seq<Endpoint>>)

  datatype Phase =
    | Waiting                                             // selected and locked
    | Sending(endpoints: seq<Endpoint>, sent: nat)        // inside `_fan_out`
    | Written(event: Event, endpoints: seq<Endpoint>)     // changed, not yet committed

  datatype Claim = Claim(relay: nat, phase: Phase)

  /** `open` holds the events that producers have flushed but not committed. */
  datatype State = State(rows: seq<Row>, endpoints: seq<Endpoint>, jobs: seq<Delivery>, held: map<nat, Claim>,
                         open: map<nat, seq<Event>>)
  {
    function Phase(r: nat): Option<Phase> { if r in held then Some(held[r].phase) else None }
    predicate Has(relay: nat, r: nat) { r in held && held[r].relay == relay }
    predicate Pending(r: nat) { r < |rows| && rows[r].event.Pending() }
  }

  datatype Step =
    | Flush(producer: nat, event: Event)
    | Land(producer: nat)
    | Abandon(producer: nat)
    | Configure(endpoints: seq<Endpoint>)
    | Begin(relay: nat, rows: set<nat>)
    | Look(r: nat)
    | Send(r: nat)
    | Refuse(r: nat, now: int)
    | Finish(r: nat, now: int)
    | Commit(relay: nat)
    | Crash(relay: nat)

  predicate IsNew(e: Event) { e.attempts == 0 && e.Pending() }

  /** The unique key on (source, event_id), which also sees rows that are flushed but not committed. */
  ghost predicate KeyFree(s: State, e: Event) {
    && (forall r | 0 <= r < |s.rows| :: !s.rows[r].event.Same(e))
    && (forall p, i | p in s.open && 0 <= i < |s.open[p]| :: !s.open[p][i].Same(e))
  }

  ghost predicate InFanOut(s: State, r: nat) { r in s.held && r < |s.rows| && s.held[r].phase.Sending? }

  function TargetsOf(s: State, r: nat): seq<string>
    requires r in s.held && r < |s.rows| && s.held[r].phase.Sending?
  {
    Targets(s.held[r].phase.endpoints, s.rows[r].event)
  }

  ghost predicate Enabled(s: State, step: Step) {
    match step
    case Flush(_, e) => IsNew(e) && KeyFree(s, e)
    case Land(p) => p in s.open
    case Abandon(p) => p in s.open
    case Configure(endpoints) => DistinctIds(endpoints)
    case Begin(w, rows) =>
      (forall r | r in s.held :: s.held[r].relay != w) && forall r | r in rows :: s.Pending(r) && r !in s.held
    case Look(r) => r in s.held && s.held[r].phase.Waiting?
    case Send(r) => InFanOut(s, r) && s.held[r].phase.sent < |TargetsOf(s, r)|
    case Refuse(r, _) => InFanOut(s, r) && s.held[r].phase.sent < |TargetsOf(s, r)|
    case Finish(r, _) => InFanOut(s, r) && s.held[r].phase.sent == |TargetsOf(s, r)|
    case Commit(w) => forall r | s.Has(w, r) :: s.held[r].phase.Written?
    case Crash(_) => true
  }

  function At(s: State, r: nat, phase: Phase): State
    requires r in s.held
  {
    s.(held := s.held[r := s.held[r].(phase := phase)])
  }

  function Without(s: State, relay: nat): map<nat, Claim> {
    map r | r in s.held && s.held[r].relay != relay :: s.held[r]
  }

  function CommittedRow(row: Row, phase: Phase): Row {
    if !phase.Written? then row
    else Row(phase.event, row.crashes, if phase.event.publishedAt.Some? then Some(phase.endpoints) else row.audience)
  }

  function CrashedRow(row: Row, phase: Phase): Row {
    if phase.Waiting? then row else row.(crashes := row.crashes + 1)
  }

  function Landed(events: seq<Event>): (rows: seq<Row>)
    ensures |rows| == |events| && forall i | 0 <= i < |rows| :: rows[i] == Row(events[i], 0, None)
  {
    seq(|events|, i requires 0 <= i < |events| => Row(events[i], 0, None))
  }

  function CommittedRows(s: State, relay: nat): (rows: seq<Row>)
    ensures |rows| == |s.rows|
    ensures forall r: nat | r < |rows| ::
              rows[r] == if s.Has(relay, r) then CommittedRow(s.rows[r], s.held[r].phase) else s.rows[r]
  {
    seq(|s.rows|, r requires 0 <= r < |s.rows| =>
      if s.Has(relay, r) then CommittedRow(s.rows[r], s.held[r].phase) else s.rows[r])
  }

  function CrashedRows(s: State, relay: nat): (rows: seq<Row>)
    ensures |rows| == |s.rows|
    ensures forall r: nat | r < |rows| ::
              rows[r] == if s.Has(relay, r) then CrashedRow(s.rows[r], s.held[r].phase) else s.rows[r]
  {
    seq(|s.rows|, r requires 0 <= r < |s.rows| =>
      if s.Has(relay, r) then CrashedRow(s.rows[r], s.held[r].phase) else s.rows[r])
  }

  ghost function Do(s: State, step: Step, max: int): State
    requires Enabled(s, step)
  {
    match step
    case Flush(p, e) => s.(open := s.open[p := (if p in s.open then s.open[p] else []) + [e]])
    case Land(p) => s.(rows := s.rows + Landed(s.open[p]), open := s.open - {p})
    case Abandon(p) => s.(open := s.open - {p})
    case Configure(endpoints) => s.(endpoints := endpoints)
    case Begin(w, rows) => s.(held := s.held + map r | r in rows :: Claim(w, Waiting))
    case Look(r) => At(s, r, Sending(s.endpoints, 0))
    case Send(r) =>
      var phase := s.held[r].phase;
      At(s, r, phase.(sent := phase.sent + 1)).(jobs := s.jobs + [Delivery(TargetsOf(s, r)[phase.sent], r)])
    case Refuse(r, now) =>
      var phase := s.held[r].phase;
      At(s, r, Written(Tried(s.rows[r].event, TargetsOf(s, r), phase.sent, now, max), phase.endpoints))
    case Finish(r, now) =>
      var phase := s.held[r].phase;
      At(s, r, Written(Tried(s.rows[r].event, TargetsOf(s, r), phase.sent, now, max), phase.endpoints))
    case Commit(w) => s.(rows := CommittedRows(s, w), held := Without(s, w))
    case Crash(w) => s.(rows := CrashedRows(s, w), held := Without(s, w))
  }

  ghost predicate Next(s: State, s': State, max: int) { exists step :: Enabled(s, step) && s' == Do(s, step, max) }

  ghost predicate Run(states: seq<State>, max: int) {
    && states != []
    && forall i | 0 <= i < |states| - 1 :: Next(states[i], states[i + 1], max)
  }

  predicate Initial(s: State) { s == State([], [], [], map[], map[]) }

  // ----- What holds of one row -----

  function Count(jobs: seq<Delivery>, endpoint: string, r: nat): nat { multiset(jobs)[Delivery(endpoint, r)] }

  /** The committed rounds of an event: its failed ones, and the one that published it. */
  function Rounds(e: Event): int { e.attempts + (if e.publishedAt.Some? then 1 else 0) }

  /** What the round under way may have added for one endpoint. */
  function UnderWay(phase: Option<Phase>, e: Event, endpoint: string): nat {
    match phase
    case None => 0
    case Some(Waiting) => 0
    case Some(Sending(endpoints, sent)) =>
      var targets := Targets(endpoints, e);
      if sent <= |targets| && endpoint in targets[..sent] then 1 else 0
    case Some(Written(_, _)) => 1
  }

  /** Pending with rounds left, published with rounds left, or dead with none: never two of them. */
  predicate Sane(e: Event, max: int) {
    && (e.failedAt.Some? ==> e.publishedAt.None? && e.attempts == max)
    && (e.failedAt.None? ==> e.attempts < max)
  }

  /** Every endpoint that the event was for has a job. */
  ghost predicate Reached(endpoints: seq<Endpoint>, e: Event, jobs: seq<Delivery>, r: nat) {
    forall id | id in Targets(endpoints, e) :: Delivery(id, r) in jobs
  }

  ghost predicate PhaseOk(phase: Phase, e: Event, jobs: seq<Delivery>, r: nat, max: int) {
    match phase
    case Waiting => true
    case Sending(endpoints, sent) =>
      var targets := Targets(endpoints, e);
      DistinctIds(endpoints) && sent <= |targets| && forall i | 0 <= i < sent :: Delivery(targets[i], r) in jobs
    case Written(e', endpoints) =>
      && Round(e, e', max) && Sane(e', max) && Rounds(e') == Rounds(e) + 1
      && (e'.publishedAt.Some? ==> Reached(endpoints, e, jobs, r))
  }

  ghost predicate Counted(row: Row, phase: Option<Phase>, jobs: seq<Delivery>, r: nat) {
    forall id :: Count(jobs, id, r) <= Rounds(row.event) + row.crashes + UnderWay(phase, row.event, id)
  }

  ghost predicate RowOk(row: Row, phase: Option<Phase>, jobs: seq<Delivery>, r: nat, max: int) {
    && Sane(row.event, max) && row.event.attempts >= 0
    && (row.event.publishedAt.Some? ==> row.audience.Some? && Reached(row.audience.value, row.event, jobs, r))
    && (phase.Some? ==> row.event.Pending() && PhaseOk(phase.value, row.event, jobs, r, max))
    && Counted(row, phase, jobs, r)
  }

  lemma {:induction false} TargetsIgnoreStamps(endpoints: seq<Endpoint>, e: Event, e': Event)
    requires e.source == e'.source && e.org == e'.org && e.eventType == e'.eventType
    ensures Targets(endpoints, e) == Targets(endpoints, e')
  {
    if endpoints != [] { TargetsIgnoreStamps(endpoints[..|endpoints| - 1], e, e'); }
  }

  lemma {:induction false} TargetsAreDistinct(endpoints: seq<Endpoint>, e: Event)
    requires DistinctIds(endpoints)
    ensures var ids := Targets(endpoints, e); forall i, j | 0 <= i < j < |ids| :: ids[i] != ids[j]
  {
    if endpoints != [] {
      var before, p := endpoints[..|endpoints| - 1], endpoints[|endpoints| - 1];
      assert endpoints == before + [p];
      TargetsAreDistinct(before, e);
      TargetsAreTheSubscribed(before, e, p.id);
      assert p.id !in Targets(before, e);
      var ids := Targets(endpoints, e);
      assert ids == [] || ids == Targets(before, e) || ids == Targets(before, e) + [p.id];
    }
  }

  /** Jobs for other rows change nothing here. */
  lemma OtherJobs(row: Row, phase: Option<Phase>, jobs: seq<Delivery>, job: Delivery, r: nat, max: int)
    requires RowOk(row, phase, jobs, r, max) && job.row != r
    ensures RowOk(row, phase, jobs + [job], r, max)
  {
    assert forall d | d in jobs :: d in jobs + [job];
    assert multiset(jobs + [job]) == multiset(jobs) + multiset{job};
    hide Targets, Round, Sane;
  }

  lemma LookOk(row: Row, jobs: seq<Delivery>, endpoints: seq<Endpoint>, r: nat, max: int)
    requires RowOk(row, Some(Waiting), jobs, r, max) && DistinctIds(endpoints)
    ensures RowOk(row, Some(Sending(endpoints, 0)), jobs, r, max)
  {
    hide Targets, Sane;
    assert forall id :: UnderWay(Some(Waiting), row.event, id) == 0;
  }

  lemma SendOk(row: Row, phase: Phase, jobs: seq<Delivery>, r: nat, max: int)
    requires RowOk(row, Some(phase), jobs, r, max) && phase.Sending?
    requires phase.sent < |Targets(phase.endpoints, row.event)|
    ensures var job := Delivery(Targets(phase.endpoints, row.event)[phase.sent], r);
            RowOk(row, Some(phase.(sent := phase.sent + 1)), jobs + [job], r, max)
  {
    var targets, sent := Targets(phase.endpoints, row.event), phase.sent;
    TargetsAreDistinct(phase.endpoints, row.event);
    hide Targets, Sane;
    var job := Delivery(targets[sent], r);
    var jobs', phase' := jobs + [job], phase.(sent := sent + 1);
    assert targets[..sent + 1] == targets[..sent] + [targets[sent]];
    assert targets[sent] !in targets[..sent];
    assert forall d | d in jobs :: d in jobs';
    assert job in jobs' by { assert jobs'[|jobs|] == job; }
    assert multiset(jobs') == multiset(jobs) + multiset{job};
    forall id ensures Count(jobs', id, r) <= Rounds(row.event) + row.crashes + UnderWay(Some(phase'), row.event, id) {
      assert Count(jobs, id, r) <= Rounds(row.event) + row.crashes + UnderWay(Some(phase), row.event, id);
    }
    assert PhaseOk(phase', row.event, jobs', r, max);
  }

  lemma WriteOk(row: Row, phase: Phase, jobs: seq<Delivery>, r: nat, now: int, max: int)
    requires RowOk(row, Some(phase), jobs, r, max) && phase.Sending?
    ensures var targets := Targets(phase.endpoints, row.event);
            RowOk(row, Some(Written(Tried(row.event, targets, phase.sent, now, max), phase.endpoints)), jobs, r, max)
  {
    var targets := Targets(phase.endpoints, row.event);
    var e' := Tried(row.event, targets, phase.sent, now, max);
    var phase' := Written(e', phase.endpoints);
    TriedIsRound(row.event, targets, phase.sent, now, max);
    hide Targets;
    assert PhaseOk(phase', row.event, jobs, r, max);
    forall id ensures Count(jobs, id, r) <= Rounds(row.event) + row.crashes + UnderWay(Some(phase'), row.event, id) {
      assert Count(jobs, id, r) <= Rounds(row.event) + row.crashes + UnderWay(Some(phase), row.event, id);
    }
  }

  lemma CommitOk(row: Row, phase: Phase, jobs: seq<Delivery>, r: nat, max: int)
    requires RowOk(row, Some(phase), jobs, r, max) && phase.Written?
    ensures RowOk(CommittedRow(row, phase), None, jobs, r, max)
  {
    TargetsIgnoreStamps(phase.endpoints, row.event, phase.event);
    hide Targets;
    var row' := CommittedRow(row, phase);
    forall id ensures Count(jobs, id, r) <= Rounds(row'.event) + row'.crashes + UnderWay(None, row'.event, id) {
      assert Count(jobs, id, r) <= Rounds(row.event) + row.crashes + UnderWay(Some(phase), row.event, id);
    }
  }

  lemma CrashOk(row: Row, phase: Phase, jobs: seq<Delivery>, r: nat, max: int)
    requires RowOk(row, Some(phase), jobs, r, max)
    ensures RowOk(CrashedRow(row, phase), None, jobs, r, max)
  {
    hide Targets, Sane;
    var row' := CrashedRow(row, phase);
    forall id ensures Count(jobs, id, r) <= Rounds(row'.event) + row'.crashes + UnderWay(None, row'.event, id) {
      assert Count(jobs, id, r) <= Rounds(row.event) + row.crashes + UnderWay(Some(phase), row.event, id);
    }
  }

  // ----- What holds of the whole -----

  ghost predicate RowsOk(s: State, max: int) {
    && (forall r | r in s.held :: r < |s.rows|)
    && forall r: nat | r < |s.rows| :: RowOk(s.rows[r], s.Phase(r), s.jobs, r, max)
  }

  ghost predicate JobsHaveRows(s: State) {
    DistinctIds(s.endpoints) && forall job | job in s.jobs :: job.row < |s.rows|
  }

  ghost predicate KeysUnique(s: State) {
    && (forall i, j | 0 <= i < j < |s.rows| :: !s.rows[i].event.Same(s.rows[j].event))
    && (forall r, p, i | 0 <= r < |s.rows| && p in s.open && 0 <= i < |s.open[p]| ::
          !s.rows[r].event.Same(s.open[p][i]))
    && (forall p, i, q, j | p in s.open && q in s.open && 0 <= i < |s.open[p]| && 0 <= j < |s.open[q]|
                            && (p == q ==> i < j) :: !s.open[p][i].Same(s.open[q][j]))
    && (forall p, i | p in s.open && 0 <= i < |s.open[p]| :: IsNew(s.open[p][i]))
  }

  ghost predicate Inv(s: State, max: int) { RowsOk(s, max) && JobsHaveRows(s) && KeysUnique(s) }

  lemma LookKeepsRows(s: State, r: nat, max: int)
    requires Inv(s, max) && Enabled(s, Look(r))
    ensures RowsOk(Do(s, Look(r), max), max)
  {
    LookOk(s.rows[r], s.jobs, s.endpoints, r, max);
    hide RowOk;
  }

  lemma SendKeepsRows(s: State, r: nat, max: int)
    requires Inv(s, max) && Enabled(s, Send(r))
    ensures RowsOk(Do(s, Send(r), max), max)
  {
    var s' := Do(s, Send(r), max);
    var job := Delivery(TargetsOf(s, r)[s.held[r].phase.sent], r);
    SendOk(s.rows[r], s.held[r].phase, s.jobs, r, max);
    hide RowOk;
    forall q: nat | q < |s.rows| && q != r ensures RowOk(s'.rows[q], s'.Phase(q), s'.jobs, q, max) {
      OtherJobs(s.rows[q], s.Phase(q), s.jobs, job, q, max);
    }
  }

  lemma WriteKeepsRows(s: State, r: nat, now: int, max: int)
    requires Inv(s, max) && InFanOut(s, r) && s.held[r].phase.sent <= |TargetsOf(s, r)|
    ensures var phase := s.held[r].phase;
            var event := Tried(s.rows[r].event, TargetsOf(s, r), phase.sent, now, max);
            RowsOk(At(s, r, Written(event, phase.endpoints)), max)
  {
    WriteOk(s.rows[r], s.held[r].phase, s.jobs, r, now, max);
    hide RowOk;
  }

  lemma CommitKeepsRows(s: State, w: nat, max: int)
    requires Inv(s, max) && Enabled(s, Commit(w))
    ensures RowsOk(Do(s, Commit(w), max), max)
  {
    var s' := Do(s, Commit(w), max);
    hide RowOk, CommittedRow;
    forall r: nat | r < |s.rows| ensures RowOk(s'.rows[r], s'.Phase(r), s'.jobs, r, max) {
      if s.Has(w, r) { CommitOk(s.rows[r], s.held[r].phase, s.jobs, r, max); }
    }
  }

  lemma CrashKeepsRows(s: State, w: nat, max: int)
    requires Inv(s, max)
    ensures RowsOk(Do(s, Crash(w), max), max)
  {
    var s' := Do(s, Crash(w), max);
    hide RowOk, CrashedRow;
    forall r: nat | r < |s.rows| ensures RowOk(s'.rows[r], s'.Phase(r), s'.jobs, r, max) {
      if s.Has(w, r) { CrashOk(s.rows[r], s.held[r].phase, s.jobs, r, max); }
    }
  }

  lemma BeginKeepsRows(s: State, w: nat, rows: set<nat>, max: int)
    requires Inv(s, max) && Enabled(s, Begin(w, rows))
    ensures RowsOk(Do(s, Begin(w, rows), max), max)
  {
    var s' := Do(s, Begin(w, rows), max);
    hide Targets, Sane;
    forall r: nat | r < |s.rows| ensures RowOk(s'.rows[r], s'.Phase(r), s'.jobs, r, max) {
      assert RowOk(s.rows[r], s.Phase(r), s.jobs, r, max);
      if r in rows {
        var row := s.rows[r];
        forall id
          ensures Count(s.jobs, id, r) <= Rounds(row.event) + row.crashes + UnderWay(Some(Waiting), row.event, id)
        {
          assert Count(s.jobs, id, r) <= Rounds(row.event) + row.crashes + UnderWay(None, row.event, id);
        }
      }
    }
  }

  lemma LandKeepsRows(s: State, p: nat, max: int)
    requires Inv(s, max) && Enabled(s, Land(p)) && max >= 1
    ensures RowsOk(Do(s, Land(p), max), max)
  {
    var s' := Do(s, Land(p), max);
    forall r: nat | r < |s'.rows| ensures RowOk(s'.rows[r], s'.Phase(r), s'.jobs, r, max) {
      if r >= |s.rows| {
        assert IsNew(s'.rows[r].event);
        forall id ensures Count(s.jobs, id, r) == 0 {
          assert Delivery(id, r) !in s.jobs;
        }
      } else {
        assert RowOk(s.rows[r], s.Phase(r), s.jobs, r, max);
        hide RowOk;
      }
    }
  }

  lemma StepKeepsRows(s: State, step: Step, max: int)
    requires Inv(s, max) && Enabled(s, step) && max >= 1
    ensures RowsOk(Do(s, step, max), max)
  {
    hide RowOk, KeysUnique, JobsHaveRows;
    match step
    case Land(p) => LandKeepsRows(s, p, max);
    case Begin(w, rows) => BeginKeepsRows(s, w, rows, max);
    case Look(r) => LookKeepsRows(s, r, max);
    case Send(r) => SendKeepsRows(s, r, max);
    case Refuse(r, now) => WriteKeepsRows(s, r, now, max);
    case Finish(r, now) => WriteKeepsRows(s, r, now, max);
    case Commit(w) => CommitKeepsRows(s, w, max);
    case Crash(w) => CrashKeepsRows(s, w, max);
    case _ =>
  }

  lemma CommitKeepsKeys(s: State, w: nat, max: int)
    requires Inv(s, max) && Enabled(s, Commit(w))
    ensures var rows := Do(s, Commit(w), max).rows;
            forall r | 0 <= r < |s.rows| ::
              rows[r].event.source == s.rows[r].event.source && rows[r].event.eventId == s.rows[r].event.eventId
  {
    var rows := Do(s, Commit(w), max).rows;
    forall r: nat | r < |s.rows|
      ensures rows[r].event.source == s.rows[r].event.source && rows[r].event.eventId == s.rows[r].event.eventId
    {
      assert RowOk(s.rows[r], s.Phase(r), s.jobs, r, max);
      hide Targets, Sane, Counted, Reached;
    }
  }

  lemma FlushKeepsKeys(s: State, p: nat, e: Event, max: int)
    requires KeysUnique(s) && Enabled(s, Flush(p, e))
    ensures KeysUnique(Do(s, Flush(p, e), max))
  {
    var s' := Do(s, Flush(p, e), max);
    assert forall q, i | q in s'.open && 0 <= i < |s'.open[q]| ::
        s'.open[q][i] == e || (q in s.open && i < |s.open[q]| && s'.open[q][i] == s.open[q][i]);
  }

  lemma LandKeepsKeys(s: State, p: nat, max: int)
    requires KeysUnique(s) && Enabled(s, Land(p))
    ensures KeysUnique(Do(s, Land(p), max))
  {
    var rows := Do(s, Land(p), max).rows;
    forall i, j | 0 <= i < j < |rows| ensures !rows[i].event.Same(rows[j].event) {
      if j >= |s.rows| {
        assert rows[j].event == s.open[p][j - |s.rows|];
        if i >= |s.rows| { assert rows[i].event == s.open[p][i - |s.rows|]; }
      }
    }
    forall r, q, i | 0 <= r < |rows| && q in s.open && q != p && 0 <= i < |s.open[q]|
      ensures !rows[r].event.Same(s.open[q][i])
    {
      if r >= |s.rows| { assert rows[r].event == s.open[p][r - |s.rows|]; }
    }
  }

  lemma StepKeepsKeys(s: State, step: Step, max: int)
    requires Inv(s, max) && Enabled(s, step)
    ensures KeysUnique(Do(s, step, max))
  {
    hide RowOk, RowsOk, JobsHaveRows, IsNew, Tried, Targets, TargetsOf, Landed;
    match step
    case Flush(p, e) => FlushKeepsKeys(s, p, e, max);
    case Land(p) => LandKeepsKeys(s, p, max);
    case Commit(w) => CommitKeepsKeys(s, w, max);
    case _ =>
  }

  lemma StepKeepsJobs(s: State, step: Step, max: int)
    requires Inv(s, max) && Enabled(s, step)
    ensures JobsHaveRows(Do(s, step, max))
  {
    hide RowOk, RowsOk, KeysUnique, KeyFree, Tried, Targets;
  }

  lemma StepKeepsInv(s: State, s': State, max: int)
    requires Inv(s, max) && Next(s, s', max) && max >= 1
    ensures Inv(s', max)
  {
    hide Do, Enabled, RowsOk, KeysUnique, JobsHaveRows;
    var step :| Enabled(s, step) && s' == Do(s, step, max);
    StepKeepsRows(s, step, max);
    StepKeepsKeys(s, step, max);
    StepKeepsJobs(s, step, max);
  }

  lemma InitialIsFine(s: State, max: int)
    requires Initial(s)
    ensures Inv(s, max)
  {
  }

  lemma {:induction false} RunsKeepInv(states: seq<State>, max: int)
    requires Run(states, max) && Initial(states[0]) && max >= 1
    ensures forall i | 0 <= i < |states| :: Inv(states[i], max)
    decreases |states|
  {
    hide Next, Inv;
    var n := |states| - 1;
    if n == 0 {
      InitialIsFine(states[0], max);
    } else {
      assert Run(states[..n], max);
      RunsKeepInv(states[..n], max);
      assert forall i | 0 <= i < n :: states[..n][i] == states[i];
      StepKeepsInv(states[n - 1], states[n], max);
    }
  }

  // ----- At least once -----

  /** Relay `w` is sending row `r` to the endpoints of table `t`, or has done so. */
  ghost predicate Reading(s: State, r: nat, w: nat, t: seq<Endpoint>) {
    s.Has(w, r) && !s.held[r].phase.Waiting? && s.held[r].phase.endpoints == t
  }

  /** A pass of relay `w` over row `r`: at `i` it reads the table `t`, at `j` it still holds the row. */
  ghost predicate PassOver(states: seq<State>, i: nat, j: nat, r: nat, w: nat, t: seq<Endpoint>) {
    && i < j < |states|
    && states[i].endpoints == t && r in states[i].held && states[i].held[r] == Claim(w, Waiting)
    && forall k | i < k <= j :: Reading(states[k], r, w, t)
  }

  lemma ReadingBefore(s: State, s': State, r: nat, w: nat, t: seq<Endpoint>, max: int)
    requires Next(s, s', max) && Reading(s', r, w, t)
    ensures Reading(s, r, w, t) || (s.endpoints == t && r in s.held && s.held[r] == Claim(w, Waiting))
  {
    hide Do, Enabled, Reading;
    var step :| Enabled(s, step) && s' == Do(s, step, max);
    hide Next;
    ReadingIsAClaim(s', r, w, t);
    ClaimBefore(s, step, r, max);
    ReadingGoesOn(s, s', r, w, t);
  }

  lemma ReadingIsAClaim(s: State, r: nat, w: nat, t: seq<Endpoint>)
    requires Reading(s, r, w, t)
    ensures r in s.held && !s.held[r].phase.Waiting?
  {
  }

  /** Where a row's claim comes from. */
  lemma ClaimBefore(s: State, step: Step, r: nat, max: int)
    requires Enabled(s, step) && r in Do(s, step, max).held && !Do(s, step, max).held[r].phase.Waiting?
    ensures var claim := Do(s, step, max).held[r];
            && r in s.held && s.held[r].relay == claim.relay
            && (if s.held[r].phase.Waiting? then claim.phase.endpoints == s.endpoints
                else claim.phase.endpoints == s.held[r].phase.endpoints)
  {
    hide Tried, Targets, KeyFree, IsNew, DistinctIds, CommittedRow, CrashedRow, Landed;
  }

  lemma ReadingGoesOn(s: State, s': State, r: nat, w: nat, t: seq<Endpoint>)
    requires Reading(s', r, w, t) && r in s'.held && r in s.held && s.held[r].relay == s'.held[r].relay
    requires !s'.held[r].phase.Waiting? ==>
               if s.held[r].phase.Waiting? then s'.held[r].phase.endpoints == s.endpoints
               else s'.held[r].phase.endpoints == s.held[r].phase.endpoints
    ensures Reading(s, r, w, t) || (s.endpoints == t && s.held[r] == Claim(w, Waiting))
  {
  }

  lemma {:induction false} PassSoFar(states: seq<State>, r: nat, w: nat, t: seq<Endpoint>, max: int) returns (i: nat)
    requires Run(states, max) && Initial(states[0]) && Reading(states[|states| - 1], r, w, t)
    ensures PassOver(states, i, |states| - 1, r, w, t)
    decreases |states|
  {
    var n := |states| - 1;
    NothingIsReadAtFirst(states[0], r, w, t);
    assert n > 0;
    ReadingBefore(states[n - 1], states[n], r, w, t, max);
    hide Next, Reading, Initial, PassOver;
    var before := states[..n];
    assert Run(before, max);
    if Reading(before[n - 1], r, w, t) {
      i := PassSoFar(before, r, w, t, max);
      PassGoesOn(states, n, i, r, w, t);
    } else {
      i := n - 1;
      PassBegins(states, i, r, w, t);
    }
  }

  lemma PassGoesOn(states: seq<State>, n: nat, i: nat, r: nat, w: nat, t: seq<Endpoint>)
    requires 0 < n < |states| && PassOver(states[..n], i, n - 1, r, w, t) && Reading(states[n], r, w, t)
    ensures PassOver(states, i, n, r, w, t)
  {
    hide Reading;
    forall k | i < k <= n ensures Reading(states[k], r, w, t) {
      if k < n { assert Reading(states[..n][k], r, w, t); }
    }
  }

  lemma PassBegins(states: seq<State>, i: nat, r: nat, w: nat, t: seq<Endpoint>)
    requires i + 1 < |states| && states[i].endpoints == t
    requires r in states[i].held && states[i].held[r] == Claim(w, Waiting)
    requires Reading(states[i + 1], r, w, t)
    ensures PassOver(states, i, i + 1, r, w, t)
  {
    hide Reading;
  }

  lemma NothingIsReadAtFirst(s: State, r: nat, w: nat, t: seq<Endpoint>)
    requires Initial(s)
    ensures !Reading(s, r, w, t)
  {
  }

  ghost predicate Published(s: State, r: nat) { r < |s.rows| && s.rows[r].event.publishedAt.Some? }

  lemma PublishedBefore(s: State, s': State, r: nat, max: int) returns (w: nat)
    requires Inv(s, max) && Next(s, s', max) && Published(s', r)
    ensures s'.rows[r].audience.Some?
    ensures (Published(s, r) && s.rows[r] == s'.rows[r])
            || (s.Pending(r) && Reading(s, r, w, s'.rows[r].audience.value))
  {
    var step :| Enabled(s, step) && s' == Do(s, step, max);
    w := if r in s.held then s.held[r].relay else 0;
    if r < |s.rows| { RowFacts(s, r, max); }
    assert forall p, i | p in s.open && 0 <= i < |s.open[p]| :: IsNew(s.open[p][i]);
    hide Next, Inv, RowsOk, KeysUnique, JobsHaveRows;
    PublishedBeforeStep(s, step, r, w, max);
  }

  lemma RowFacts(s: State, r: nat, max: int)
    requires RowsOk(s, max) && r < |s.rows|
    ensures s.rows[r].event.publishedAt.Some? ==> s.rows[r].audience.Some?
    ensures r in s.held ==> s.Pending(r)
  {
    assert RowOk(s.rows[r], s.Phase(r), s.jobs, r, max);
  }

  /** Only landing, committing and crashing change the rows. */
  lemma RowsChangeBy(s: State, step: Step, max: int)
    requires Enabled(s, step) && !step.Land? && !step.Commit? && !step.Crash?
    ensures Do(s, step, max).rows == s.rows
  {
    hide Tried, Targets, KeyFree, DistinctIds;
  }

  lemma PublishedByLanding(s: State, p: nat, r: nat)
    requires p in s.open && Published(s.(rows := s.rows + Landed(s.open[p])), r)
    requires forall i | 0 <= i < |s.open[p]| :: IsNew(s.open[p][i])
    ensures Published(s, r) && (s.rows + Landed(s.open[p]))[r] == s.rows[r]
  {
    assert forall i | 0 <= i < |s.open[p]| :: s.open[p][i].publishedAt.None?;
  }

  lemma PublishedByCommit(s: State, relay: nat, r: nat, w: nat, max: int)
    requires Enabled(s, Commit(relay)) && Published(Do(s, Commit(relay), max), r)
    requires (r in s.held ==> s.Has(w, r) && s.Pending(r)) && (Published(s, r) ==> s.rows[r].audience.Some?)
    ensures var s' := Do(s, Commit(relay), max);
            && s'.rows[r].audience.Some?
            && ((Published(s, r) && s.rows[r] == s'.rows[r])
                || (s.Pending(r) && Reading(s, r, w, s'.rows[r].audience.value)))
  {
  }

  lemma PublishedByCrash(s: State, relay: nat, r: nat, max: int)
    requires Published(Do(s, Crash(relay), max), r) && (r in s.held ==> s.Pending(r))
    ensures Published(s, r) && Do(s, Crash(relay), max).rows[r] == s.rows[r]
  {
  }

  lemma PublishedBeforeStep(s: State, step: Step, r: nat, w: nat, max: int)
    requires Enabled(s, step) && Published(Do(s, step, max), r) && (r in s.held ==> s.Has(w, r) && s.Pending(r))
    requires Published(s, r) ==> s.rows[r].audience.Some?
    requires forall p, i | p in s.open && 0 <= i < |s.open[p]| :: IsNew(s.open[p][i])
    ensures var s' := Do(s, step, max);
            && s'.rows[r].audience.Some?
            && ((Published(s, r) && s.rows[r] == s'.rows[r])
                || (s.Pending(r) && Reading(s, r, w, s'.rows[r].audience.value)))
  {
    match step
    case Land(p) =>
      assert Do(s, step, max).rows == s.rows + Landed(s.open[p]);
      hide Do, Enabled, Landed, IsNew;
      PublishedByLanding(s, p, r);
    case Commit(relay) => hide Do, Enabled, Published, Reading; PublishedByCommit(s, relay, r, w, max);
    case Crash(relay) => hide Do, Published, Reading; PublishedByCrash(s, relay, r, max);
    case _ => hide Do, Enabled; RowsChangeBy(s, step, max);
  }

  /** Some pass published the row: it had read the table that the row's audience names, held the row
      from then on, and committed. */
  lemma {:induction false} PublishingPass(states: seq<State>, r: nat, max: int) returns (i: nat, j: nat, w: nat)
    requires Run(states, max) && Initial(states[0]) && max >= 1 && Published(states[|states| - 1], r)
    ensures var s := states[|states| - 1];
            && s.rows[r].audience.Some? && j + 1 < |states|
            && PassOver(states, i, j, r, w, s.rows[r].audience.value)
            && states[j].Pending(r) && Published(states[j + 1], r)
    decreases |states|
  {
    var n := |states| - 1;
    RunsKeepInv(states, max);
    assert n > 0;
    w := PublishedBefore(states[n - 1], states[n], r, max);
    var before, t := states[..n], states[n].rows[r].audience.value;
    assert Run(before, max);
    hide Next, Inv, Published, Reading, Initial;
    if Published(before[n - 1], r) && states[n - 1].rows[r] == states[n].rows[r] {
      i, j, w := PublishingPass(before, r, max);
      PassIsLonger(states, n, i, j, r, w, t);
    } else {
      i := PassSoFar(before, r, w, t, max);
      j := n - 1;
      PassIsLonger(states, n, i, j, r, w, t);
    }
  }

  lemma PassIsLonger(states: seq<State>, n: nat, i: nat, j: nat, r: nat, w: nat, t: seq<Endpoint>)
    requires n <= |states| && PassOver(states[..n], i, j, r, w, t)
    ensures PassOver(states, i, j, r, w, t) && j < n
  {
    hide Reading;
    forall k | i < k <= j ensures Reading(states[k], r, w, t) {
      assert Reading(states[..n][k], r, w, t);
    }
  }

  /** Crashes or not, a published webhook event has a job for every endpoint of its organization that
      was active and subscribed to its type when the pass that published it read the endpoints. */
  lemma PublishedReachesEveryone(states: seq<State>, r: nat, max: int) returns (i: nat, j: nat, w: nat)
    requires Run(states, max) && Initial(states[0]) && max >= 1 && Published(states[|states| - 1], r)
    ensures i < j && j + 1 < |states| && PassOver(states, i, j, r, w, states[i].endpoints)
    ensures states[j].Pending(r) && Published(states[j + 1], r)
    ensures var s := states[|states| - 1]; var e := s.rows[r].event;
            e.source == "webhook" ==>
              forall p: Endpoint | p in states[i].endpoints ::
                e.org == Some(p.org) && p.active && e.eventType in p.types ==> Delivery(p.id, r) in s.jobs
  {
    var s := states[|states| - 1];
    i, j, w := PublishingPass(states, r, max);
    RunsKeepInv(states, max);
    assert RowOk(s.rows[r], s.Phase(r), s.jobs, r, max);
    var t, e := s.rows[r].audience.value, s.rows[r].event;
    if e.source == "webhook" {
      forall p: Endpoint | p in t && e.org == Some(p.org) && p.active && e.eventType in p.types
        ensures Delivery(p.id, r) in s.jobs
      {
        TargetsAreTheSubscribed(t, e, p.id);
      }
    }
  }

  // ----- And to nobody else -----

  /** What never changes about a row. */
  predicate SameOrigin(e: Event, e': Event) {
    e'.source == e.source && e'.eventId == e.eventId && e'.eventType == e.eventType && e'.org == e.org
  }

  lemma StepKeepsOrigins(s: State, step: Step, r: nat, max: int)
    requires Inv(s, max) && Enabled(s, step) && r < |s.rows|
    ensures r < |Do(s, step, max).rows| && SameOrigin(s.rows[r].event, Do(s, step, max).rows[r].event)
  {
    if step.Commit? { CommitTakesARound(s, step.relay, r, max); } else { OtherStepsTakeNone(s, step, r, max); }
    RowsStay(s, step, max);
    hide Inv, Do, Enabled;
  }

  /** The endpoint is an active one in the table, of the event's own organization, subscribed to it. */
  ghost predicate IsFor(job: Delivery, e: Event, t: seq<Endpoint>) {
    && e.source == "webhook"
    && exists p: Endpoint ::
         p in t && e.org == Some(p.org) && p.active && e.eventType in p.types && p.id == job.endpoint
  }

  lemma NewJobIsFor(s: State, step: Step, job: Delivery, max: int)
    requires Enabled(s, step) && job in Do(s, step, max).jobs && job !in s.jobs
    ensures step.Send? && job.row == step.r && step.r < |s.rows| && s.Has(s.held[step.r].relay, step.r)
    ensures Reading(s, step.r, s.held[step.r].relay, s.held[step.r].phase.endpoints)
    ensures IsFor(job, s.rows[step.r].event, s.held[step.r].phase.endpoints)
  {
    hide Targets, Tried, KeyFree, IsNew, DistinctIds;
    assert step.Send?;
    TargetsAreTheSubscribed(s.held[step.r].phase.endpoints, s.rows[step.r].event, job.endpoint);
  }

  /** Every job of every run, crashes included, is for an endpoint of the event's own organization that
      was active and subscribed to its type in a table that the sending pass had read. */
  lemma {:induction false} JobsGoToSubscribers(states: seq<State>, job: Delivery, max: int) returns (i: nat)
    requires Run(states, max) && Initial(states[0]) && max >= 1 && job in states[|states| - 1].jobs
    ensures i < |states| && job.row < |states[|states| - 1].rows|
    ensures var e := states[|states| - 1].rows[job.row].event;
            && e.source == "webhook"
            && exists p: Endpoint ::
                 && p in states[i].endpoints && e.org == Some(p.org) && p.active && e.eventType in p.types
                 && p.id == job.endpoint
    decreases |states|
  {
    var n := |states| - 1;
    assert n > 0;
    var before := states[..n];
    assert Run(before, max) && before[n - 1] == states[n - 1];
    RunsKeepInv(before, max);
    assert Next(states[n - 1], states[n], max);
    hide Inv, Do, Enabled, Reading, Initial;
    var s := states[n - 1];
    var step :| Enabled(s, step) && states[n] == Do(s, step, max);
    if job in s.jobs {
      i := JobsGoToSubscribers(before, job, max);
    } else {
      NewJobIsFor(s, step, job, max);
      i := PassSoFar(before, job.row, s.held[step.r].relay, s.held[step.r].phase.endpoints, max);
    }
    hide Run, PassOver;
    StepKeepsOrigins(s, step, job.row, max);
  }

  // ----- Not much more than once -----

  /** A committed round adds at most one job per endpoint, and so does a crashed pass. */
  lemma DuplicatesAreBounded(states: seq<State>, r: nat, endpoint: string, max: int)
    requires Run(states, max) && Initial(states[0]) && max >= 1
    requires r < |states[|states| - 1].rows|
    ensures var s := states[|states| - 1];
            var row := s.rows[r];
            var jobs := Count(s.jobs, endpoint, r);
            && jobs <= max + row.crashes
            && (row.event.publishedAt.Some? ==> jobs <= row.event.attempts + 1 + row.crashes)
            && (row.event.failedAt.Some? ==> jobs <= row.event.attempts + row.crashes && row.event.attempts == max)
            && !(row.event.publishedAt.Some? && row.event.failedAt.Some?)
  {
    var s := states[|states| - 1];
    RunsKeepInv(states, max);
    var row := s.rows[r];
    assert RowOk(row, s.Phase(r), s.jobs, r, max);
    assert Count(s.jobs, endpoint, r) <= Rounds(row.event) + row.crashes + UnderWay(s.Phase(r), row.event, endpoint);
  }

  ghost predicate NextWithoutCrash(s: State, s': State, max: int) {
    exists step: Step :: !step.Crash? && Enabled(s, step) && s' == Do(s, step, max)
  }

  ghost predicate NothingLost(s: State) { forall i | 0 <= i < |s.rows| :: s.rows[i].crashes == 0 }

  lemma NoCrashLosesNothing(s: State, s': State, max: int)
    requires NextWithoutCrash(s, s', max) && NothingLost(s)
    ensures Next(s, s', max) && NothingLost(s')
  {
    var step: Step :| !step.Crash? && Enabled(s, step) && s' == Do(s, step, max);
    assert Next(s, s', max);
    hide Next, NextWithoutCrash, Tried, Targets, KeyFree;
  }

  lemma {:induction false} RunsWithoutCrashes(states: seq<State>, max: int)
    requires states != [] && Initial(states[0])
    requires forall i | 0 <= i < |states| - 1 :: NextWithoutCrash(states[i], states[i + 1], max)
    ensures forall i | 0 <= i < |states| :: NothingLost(states[i])
    ensures Run(states, max)
    decreases |states|
  {
    hide NextWithoutCrash, Next;
    var n := |states| - 1;
    if n > 0 {
      var before := states[..n];
      RunsWithoutCrashes(before, max);
      assert forall i | 0 <= i < n :: before[i] == states[i];
      NoCrashLosesNothing(states[n - 1], states[n], max);
      forall i | 0 <= i < n ensures Next(states[i], states[i + 1], max) {
        if i < n - 1 { assert Next(before[i], before[i + 1], max); }
      }
    }
  }

  /** Without crashes no endpoint gets more than `max` jobs for one event. */
  lemma AtMostMaxWithoutCrashes(states: seq<State>, r: nat, endpoint: string, max: int)
    requires states != [] && Initial(states[0]) && max >= 1
    requires forall i | 0 <= i < |states| - 1 :: NextWithoutCrash(states[i], states[i + 1], max)
    requires r < |states[|states| - 1].rows|
    ensures var s := states[|states| - 1]; Count(s.jobs, endpoint, r) <= max
    ensures var s := states[|states| - 1];
            s.rows[r].event.publishedAt.Some? ==> Count(s.jobs, endpoint, r) <= s.rows[r].event.attempts + 1 <= max
  {
    RunsWithoutCrashes(states, max);
    RunsKeepInv(states, max);
    DuplicatesAreBounded(states, r, endpoint, max);
    var s := states[|states| - 1];
    assert RowOk(s.rows[r], s.Phase(r), s.jobs, r, max);
  }

  lemma SettledStays(s: State, s': State, r: nat, max: int)
    requires Inv(s, max) && Next(s, s', max) && r < |s.rows| && !s.Pending(r)
    ensures r < |s'.rows| && s'.rows[r] == s.rows[r]
    ensures forall id :: Count(s'.jobs, id, r) == Count(s.jobs, id, r)
  {
    hide Do, Enabled, Count;
    assert RowOk(s.rows[r], s.Phase(r), s.jobs, r, max);
    var step :| Enabled(s, step) && s' == Do(s, step, max);
    hide Next, Inv;
    UnheldStays(s, step, r, max);
  }

  lemma UnheldStays(s: State, step: Step, r: nat, max: int)
    requires Enabled(s, step) && r < |s.rows| && r !in s.held
    ensures var s' := Do(s, step, max);
            && r < |s'.rows| && s'.rows[r] == s.rows[r]
            && forall id :: Count(s'.jobs, id, r) == Count(s.jobs, id, r)
  {
    hide Tried, Targets, KeyFree, IsNew, DistinctIds;
    if step.Send? {
      var job := Delivery(TargetsOf(s, step.r)[s.held[step.r].phase.sent], step.r);
      assert multiset(Do(s, step, max).jobs) == multiset(s.jobs) + multiset{job};
    }
  }

  /** A published or dead event is never touched or sent again. */
  lemma {:induction false} SettledIsFinal(states: seq<State>, i: nat, r: nat, max: int)
    requires Run(states, max) && Initial(states[0]) && max >= 1 && i < |states|
    requires r < |states[i].rows| && !states[i].Pending(r)
    ensures var s := states[|states| - 1];
            && r < |s.rows| && s.rows[r] == states[i].rows[r]
            && forall id :: Count(s.jobs, id, r) == Count(states[i].jobs, id, r)
    decreases |states|
  {
    hide Next, Inv, Count;
    var n := |states| - 1;
    if i < n {
      RunsKeepInv(states, max);
      var before := states[..n];
      assert Run(before, max);
      SettledIsFinal(before, i, r, max);
      assert before[n - 1] == states[n - 1];
      SettledStays(states[n - 1], states[n], r, max);
    }
  }

  /** No two events, committed or under way, share their (source, event_id). */
  lemma EventsAreDistinct(states: seq<State>, a: nat, b: nat, max: int)
    requires Run(states, max) && Initial(states[0]) && max >= 1
    requires var s := states[|states| - 1]; a < |s.rows| && b < |s.rows| && s.rows[a].event.Same(s.rows[b].event)
    ensures a == b
  {
    RunsKeepInv(states, max);
  }

  // ----- Progress: every committed pass over a row takes a round off it -----

  function Events(s: State): (events: seq<Event>)
    ensures |events| == |s.rows| && forall r | 0 <= r < |events| :: events[r] == s.rows[r].event
  {
    seq(|s.rows|, r requires 0 <= r < |s.rows| => s.rows[r].event)
  }

  lemma CommitTakesARound(s: State, relay: nat, r: nat, max: int)
    requires Inv(s, max) && Enabled(s, Commit(relay)) && r < |s.rows|
    ensures var e, e' := s.rows[r].event, Do(s, Commit(relay), max).rows[r].event;
            if s.Has(relay, r) then Rounds(e') == Rounds(e) + 1 && Round(e, e', max) else e' == e
  {
    assert RowOk(s.rows[r], s.Phase(r), s.jobs, r, max);
    hide RowOk, Targets, Counted, Reached, Sane;
    if s.Has(relay, r) { assert PhaseOk(s.held[r].phase, s.rows[r].event, s.jobs, r, max) by { RowPhase(s, r, max); } }
  }

  lemma RowPhase(s: State, r: nat, max: int)
    requires r in s.held && r < |s.rows| && RowOk(s.rows[r], s.Phase(r), s.jobs, r, max)
    ensures PhaseOk(s.held[r].phase, s.rows[r].event, s.jobs, r, max)
  {
  }

  lemma OtherStepsTakeNone(s: State, step: Step, r: nat, max: int)
    requires Enabled(s, step) && !step.Commit? && r < |s.rows|
    ensures r < |Do(s, step, max).rows| && Do(s, step, max).rows[r].event == s.rows[r].event
  {
    hide Tried, Targets, KeyFree, IsNew, DistinctIds;
  }

  /** How many of `rows` lie below `n`. */
  function CountBelow(rows: set<nat>, n: nat): nat {
    if n == 0 then 0 else CountBelow(rows, n - 1) + (if n - 1 in rows then 1 else 0)
  }

  lemma {:induction false} CountAll(rows: set<nat>, n: nat)
    requires forall r | r in rows :: r < n
    ensures CountBelow(rows, n) == |rows|
  {
    if n == 0 {
      assert rows == {};
    } else {
      CountAll(rows - {n - 1}, n - 1);
      CountBelowSame(rows, rows - {n - 1}, n - 1);
    }
  }

  lemma {:induction false} CountBelowSame(a: set<nat>, b: set<nat>, n: nat)
    requires forall r: nat | r < n :: r in a <==> r in b
    ensures CountBelow(a, n) == CountBelow(b, n)
  {
    if n > 0 { CountBelowSame(a, b, n - 1); }
  }

  /** The rounds that an event has left. */
  function Left(e: Event, max: int): int { if e.Pending() then max - e.attempts else 0 }

  lemma MeasureOneMore(events: seq<Event>, n: nat, max: int)
    requires n < |events|
    ensures Measure(events[..n + 1], max) == Measure(events[..n], max) + Left(events[n], max)
  {
    assert events[..n + 1][..n] == events[..n];
  }

  lemma StepLowersRow(s: State, step: Step, r: nat, max: int)
    requires Inv(s, max) && Enabled(s, step) && r < |s.rows|
    ensures r < |Do(s, step, max).rows|
    ensures Left(Do(s, step, max).rows[r].event, max)
         <= Left(s.rows[r].event, max) - (if step.Commit? && s.Has(step.relay, r) then 1 else 0)
  {
    RowHasRounds(s, r, max);
    if step.Commit? {
      CommitTakesARound(s, step.relay, r, max);
      RowsStay(s, step, max);
    } else {
      OtherStepsTakeNone(s, step, r, max);
    }
    hide Inv, Do, Enabled;
  }

  lemma {:induction false} MeasureFallsBy(events: seq<Event>, events': seq<Event>, rows: set<nat>, max: int, n: nat)
    requires n <= |events| && n <= |events'|
    requires forall i | 0 <= i < n :: Left(events'[i], max) <= Left(events[i], max) - (if i in rows then 1 else 0)
    ensures Measure(events'[..n], max) <= Measure(events[..n], max) - CountBelow(rows, n)
  {
    if n > 0 {
      MeasureFallsBy(events, events', rows, max, n - 1);
      MeasureOneMore(events, n - 1, max);
      MeasureOneMore(events', n - 1, max);
    }
  }

  /** The rows over which a step commits a pass. */
  function Taken(s: State, step: Step): set<nat> {
    if step.Commit? then set r | r in s.held && s.held[r].relay == step.relay else {}
  }

  /** No step adds to the rounds that the events have left, and a commit takes one off for each row
      that its relay holds; only new events bring new rounds. */
  lemma StepLowersMeasure(s: State, step: Step, max: int)
    requires Inv(s, max) && Enabled(s, step)
    ensures |s.rows| <= |Do(s, step, max).rows|
    ensures Measure(Events(Do(s, step, max))[..|s.rows|], max) <= Measure(Events(s), max) - |Taken(s, step)|
  {
    RowsStay(s, step, max);
    HeldHaveRows(s, max);
    var events, events', n := Events(s), Events(Do(s, step, max)), |s.rows|;
    forall i | 0 <= i < n
      ensures Left(events'[i], max) <= Left(events[i], max) - (if i in Taken(s, step) then 1 else 0)
    {
      StepLowersRow(s, step, i, max);
    }
    hide Inv, Do, Enabled, Left, Measure;
    MeasureFallsBy(events, events', Taken(s, step), max, n);
    CountAll(Taken(s, step), n);
    assert events[..n] == events;
  }

  lemma RowHasRounds(s: State, r: nat, max: int)
    requires Inv(s, max) && r < |s.rows|
    ensures s.rows[r].event.Pending() ==> s.rows[r].event.attempts < max
    ensures r in s.held ==> s.rows[r].event.Pending()
  {
    assert RowOk(s.rows[r], s.Phase(r), s.jobs, r, max);
  }

  /** The steps of a run, one between each two states. */
  ghost predicate Takes(states: seq<State>, steps: seq<Step>, max: int) {
    && |states| == |steps| + 1
    && forall i | 0 <= i < |steps| :: Enabled(states[i], steps[i]) && states[i + 1] == Do(states[i], steps[i], max)
  }

  /** How many passes over row `r` were committed. */
  ghost function Passes(states: seq<State>, steps: seq<Step>, r: nat, max: int): nat
    requires Takes(states, steps, max)
    decreases |steps|
  {
    var n := |steps|;
    if n == 0 then 0
    else Passes(states[..n], steps[..n - 1], r, max)
         + (if steps[n - 1].Commit? && states[n - 1].Has(steps[n - 1].relay, r) then 1 else 0)
  }

  lemma StepCountsPass(s: State, step: Step, r: nat, max: int)
    requires Inv(s, max) && Enabled(s, step) && r < |Do(s, step, max).rows|
    ensures var before := if r < |s.rows| then Rounds(s.rows[r].event) else 0;
            Rounds(Do(s, step, max).rows[r].event)
            == before + (if step.Commit? && s.Has(step.relay, r) then 1 else 0)
  {
    if r < |s.rows| {
      if step.Commit? { CommitTakesARound(s, step.relay, r, max); } else { OtherStepsTakeNone(s, step, r, max); }
      hide Inv, Do, Enabled;
    } else {
      assert r !in s.held by { hide KeysUnique, JobsHaveRows, RowOk; }
      hide RowsOk, JobsHaveRows, Tried, Targets, KeyFree;
      assert step.Land?;
      assert IsNew(s.open[step.producer][r - |s.rows|]);
    }
  }

  /** With any relays, producers and crashes: a row's rounds are the passes committed over it, and
      after `max` of them it is settled.  Passes that crash count for nothing. */
  lemma {:induction false} SettledAfterMaxPasses(states: seq<State>, steps: seq<Step>, r: nat, max: int)
    requires Takes(states, steps, max) && Initial(states[0]) && max >= 1
    requires r < |states[|states| - 1].rows|
    ensures Run(states, max)
    ensures var e := states[|states| - 1].rows[r].event;
            && Rounds(e) == Passes(states, steps, r, max) <= max
            && (Passes(states, steps, r, max) == max ==> !e.Pending())
  {
    TakesIsRun(states, steps, max);
    RunsKeepInv(states, max);
    RoundsArePasses(states, steps, r, max);
    var s := states[|states| - 1];
    assert RowOk(s.rows[r], s.Phase(r), s.jobs, r, max);
  }

  lemma TakesIsRun(states: seq<State>, steps: seq<Step>, max: int)
    requires Takes(states, steps, max)
    ensures Run(states, max)
  {
    forall i | 0 <= i < |states| - 1 ensures Next(states[i], states[i + 1], max) {
      assert Enabled(states[i], steps[i]) && states[i + 1] == Do(states[i], steps[i], max);
    }
  }

  lemma {:induction false} RoundsArePasses(states: seq<State>, steps: seq<Step>, r: nat, max: int)
    requires Takes(states, steps, max) && Initial(states[0]) && max >= 1
    ensures var s := states[|states| - 1];
            Passes(states, steps, r, max) == if r < |s.rows| then Rounds(s.rows[r].event) else 0
    decreases |steps|
  {
    var n := |steps|;
    if n > 0 {
      var before := states[..n];
      TakesIsRun(before, steps[..n - 1], max);
      RunsKeepInv(before, max);
      RoundsArePasses(before, steps[..n - 1], r, max);
      var s, s' := states[n - 1], states[n];
      assert before[n - 1] == s;
      assert Enabled(s, steps[n - 1]) && s' == Do(s, steps[n - 1], max);
      hide Inv, Do, Enabled, Next;
      RowsStay(s, steps[n - 1], max);
      HeldHaveRows(s, max);
      if r < |s'.rows| { StepCountsPass(s, steps[n - 1], r, max); }
    }
  }

  lemma RowsStay(s: State, step: Step, max: int)
    requires Enabled(s, step)
    ensures |s.rows| <= |Do(s, step, max).rows|
  {
    hide Tried, Targets, KeyFree, IsNew, DistinctIds;
  }

  lemma HeldHaveRows(s: State, max: int)
    requires Inv(s, max)
    ensures forall r | r in s.held :: r < |s.rows|
  {
  }
}
