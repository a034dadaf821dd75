/** The idempotency protocol: any number of requests, claiming, running handlers, finishing and
    crashing at every interleaving of their database transactions, with the purge and the clock.

    `complete` and `release` find the row by (scope, key) alone, so everything rests on one
    hypothesis (`Timely`): no live owner outlasts its own claim's `expires_at`. */
module IdempotencyProtocol {
  import opened Http
  import opened IdempotencyStore

  /** How a handler can end, as the middleware sees it. */
  datatype Answer = Raised | Streamed(response: Response, tooBig: bool) {
    /** The answer is final: it is cached and the claim completes.  Otherwise the claim is released. */
    predicate IsFinal() { Streamed? && !tooBig && response.status < 500 }
  }

  datatype Phase =
    | Inserting(now: int, expiresAt: int)     // `claim` has read the clock
    | Inspecting(now: int, expiresAt: int)    // the INSERT lost
    | Running(run: nat)                       // owns the claim; the handler runs
    | Settling(run: nat, answer: Answer)      // the handler ended; complete or release is due
    | Done                                    // answered by its own handler run
    | Replayed(cached: Response)
    | Refused(outcome: Outcome)               // 409 or 422
    | Crashed
  {
    predicate Owner() { Running? || Settling? }
    predicate Waiting() { Inserting? || Inspecting? }
  }

  datatype Request = Request(id: Id, hash: string, phase: Phase)

  /** The log of handler executions: what became of each. */
  datatype End = Live | Cached(response: Response) | Released | Lost
  datatype Run = Run(id: Id, hash: string, owner: nat, startedAt: int, expiresAt: int, end: End) {
    /** The row this run leaves in the table, as long as it leaves one. */
    function Row(): Row {
      var claimed := Claimed(hash, expiresAt);
      if end.Cached? then Answered(claimed, end.response) else claimed
    }
  }

  datatype State = State(clock: int, table: Table, requests: map<nat, Request>, log: seq<Run>) {
    function Moved(r: nat, phase: Phase): State
      requires r in requests
    {
      this.(requests := requests[r := requests[r].(phase := phase)])
    }

    /** Request `r` won its claim: its handler starts now. */
    function Started(r: nat, expiresAt: int, table': Table): State
      requires r in requests
    {
      var q := requests[r];
      Moved(r, Running(|log|)).(
        table := table', log := log + [Run(q.id, q.hash, r, clock, expiresAt, Live)])
    }

    function Ended(run: nat, end: End): State
      requires run < |log|
    {
      this.(log := log[run := log[run].(end := end)])
    }
  }

  datatype Step =
    | Arrive(r: nat, id: Id, hash: string, ttl: int)
    | Insert(r: nat)
    | Look(r: nat)
    | HandlerEnds(r: nat, answer: Answer)
    | Settle(r: nat)
    | Crash(r: nat)
    | PurgeExpired
    | Tick(seconds: nat)

  /** When a step can be taken.  The bounds on run numbers and the readability of stored headers are
      there to make `Do` total; the invariant below shows that they never hold a step up. */
  ghost predicate Enabled(s: State, step: Step) {
    match step
    case Arrive(r, _, _, _) => r !in s.requests
    case Insert(r) => r in s.requests && s.requests[r].phase.Inserting?
    case Look(r) => r in s.requests && s.requests[r].phase.Inspecting? && AllReadable(s.table)
    case HandlerEnds(r, _) => r in s.requests && s.requests[r].phase.Running?
    case Settle(r) => r in s.requests && s.requests[r].phase.Settling? && s.requests[r].phase.run < |s.log|
    case Crash(r) => r in s.requests && (s.requests[r].phase.Owner() ==> s.requests[r].phase.run < |s.log|)
                     && (s.requests[r].phase.Owner() || s.requests[r].phase.Waiting())
    case PurgeExpired => true
    case Tick(_) => true
  }

  ghost function Do(s: State, step: Step): State
    requires Enabled(s, step)
  {
    match step
    case Arrive(r, id, hash, ttl) =>
      s.(requests := s.requests[r := Request(id, hash, Inserting(s.clock, s.clock + ttl))])
    case Insert(r) =>
      var q := s.requests[r];
      if q.id in s.table then s.Moved(r, Inspecting(q.phase.now, q.phase.expiresAt))
      else s.Started(r, q.phase.expiresAt, s.table[q.id := Claimed(q.hash, q.phase.expiresAt)])
    case Look(r) =>
      var q := s.requests[r];
      var (outcome, table) := InspectRow(s.table, q.id, q.hash, q.phase.now, q.phase.expiresAt);
      match outcome {
        case Owned => s.Started(r, q.phase.expiresAt, table)
        case Replay(cached) => s.Moved(r, Replayed(cached))
        case _ => s.Moved(r, Refused(outcome))
      }
    case HandlerEnds(r, answer) => s.Moved(r, Settling(s.requests[r].phase.run, answer))
    case Settle(r) =>
      var q := s.requests[r];
      var answer := q.phase.answer;
      if answer.IsFinal() then
        s.Moved(r, Done).Ended(q.phase.run, Cached(answer.response))
         .(table := CompleteRow(s.table, q.id, answer.response))
      else
        s.Moved(r, Done).Ended(q.phase.run, Released).(table := ReleaseRow(s.table, q.id))
    case Crash(r) =>
      var phase := s.requests[r].phase;
      if phase.Owner() then s.Moved(r, Crashed).Ended(phase.run, Lost) else s.Moved(r, Crashed)
    case PurgeExpired => s.(table := PurgeRows(s.table, s.clock))
    case Tick(seconds) => s.(clock := s.clock + seconds)
  }

  ghost predicate Next(s: State, s': State) {
    exists step :: Enabled(s, step) && s' == Do(s, step)
  }

  ghost predicate Init(s: State) {
    s.table == map[] && s.requests == map[] && s.log == []
  }

  /** The hypothesis: every live owner is still within its claim. */
  ghost predicate Timely(s: State) {
    forall r | r in s.requests && s.requests[r].phase.Owner() && s.requests[r].phase.run < |s.log| ::
      s.clock < s.log[s.requests[r].phase.run].expiresAt
  }

  ghost predicate IsRun(states: seq<State>) {
    && states != [] && Init(states[0])
    && forall i | 0 <= i < |states| - 1 :: Next(states[i], states[i + 1])
  }

  // ----- The invariant -----

  /** Every live owner stands for one live run, and every live run for one live owner; only final
      answers were ever cached. */
  ghost predicate Linked(s: State) {
    && (forall r | r in s.requests && s.requests[r].phase.Owner() ::
          var q := s.requests[r];
          && q.phase.run < |s.log|
          && s.log[q.phase.run].owner == r && s.log[q.phase.run].end == Live
          && s.log[q.phase.run].id == q.id && s.log[q.phase.run].hash == q.hash)
    && (forall i | 0 <= i < |s.log| && s.log[i].end == Live ::
          var r := s.log[i].owner;
          r in s.requests && s.requests[r].phase.Owner() && s.requests[r].phase.run == i)
    && (forall i | 0 <= i < |s.log| && s.log[i].end.Cached? :: s.log[i].end.response.status < 500)
  }

  /** Nothing was read or started in the future. */
  ghost predicate Clocked(s: State) {
    && (forall i | 0 <= i < |s.log| :: s.log[i].startedAt <= s.clock)
    && (forall r | r in s.requests && s.requests[r].phase.Waiting() :: s.requests[r].phase.now <= s.clock)
  }

  /** Of two runs of one key, the earlier had released its claim, or outlived it, when the later began. */
  ghost predicate Serial(s: State) {
    forall i, j | 0 <= i < j < |s.log| && s.log[i].id == s.log[j].id ::
      s.log[i].end == Released || s.log[i].expiresAt <= s.log[j].startedAt
  }

  /** An unreleased run keeps its own row in the table until its claim expires. */
  ghost predicate Held(s: State) {
    forall i | 0 <= i < |s.log| && s.log[i].end != Released && s.log[i].expiresAt > s.clock ::
      s.log[i].id in s.table && s.table[s.log[i].id] == s.log[i].Row()
  }

  ghost predicate LeftBy(s: State, id: Id, i: nat) {
    id in s.table && i < |s.log| && s.log[i].id == id && s.log[i].end != Released && s.table[id] == s.log[i].Row()
  }

  /** Every row in the table was left by some run. */
  ghost predicate Sourced(s: State) {
    && AllReadable(s.table)
    && forall id | id in s.table :: exists i: nat :: LeftBy(s, id, i)
  }

  ghost predicate RepliesTo(run: Run, q: Request) {
    && run.id == q.id && run.hash == q.hash && run.end.Cached? && q.phase.Replayed?
    && q.phase.cached == Cacheable(run.end.response)
  }

  /** Every replay is the cached answer of a completed run of the same request. */
  ghost predicate Faithful(s: State) {
    forall r | r in s.requests && s.requests[r].phase.Replayed? ::
      exists i: nat :: i < |s.log| && RepliesTo(s.log[i], s.requests[r])
  }

  ghost predicate Inv(s: State) {
    Linked(s) && Clocked(s) && Serial(s) && Held(s) && Sourced(s) && Faithful(s)
  }

  // ----- Every step keeps the links, late owners or not -----

  /** A request moves on without winning a claim or ending a run. */
  lemma MovingKeepsLinked(s: State, s': State, r: nat)
    requires Linked(s) && s'.log == s.log && r in s'.requests && s'.requests == s.requests[r := s'.requests[r]]
    requires r in s.requests && s.requests[r].phase.Owner() ==>
               && s'.requests[r].phase.Owner() && s'.requests[r].phase.run == s.requests[r].phase.run
               && s'.requests[r].id == s.requests[r].id && s'.requests[r].hash == s.requests[r].hash
    requires s'.requests[r].phase.Owner() ==> r in s.requests && s.requests[r].phase.Owner()
    ensures Linked(s')
  {
  }

  lemma StartingKeepsLinked(s: State, r: nat, expiresAt: int, table: Table)
    requires Linked(s) && r in s.requests && !s.requests[r].phase.Owner()
    ensures Linked(s.Started(r, expiresAt, table))
  {
  }

  lemma EndingKeepsLinked(s: State, s': State, r: nat, end: End)
    requires Linked(s) && r in s.requests && s.requests[r].phase.Owner() && s.requests[r].phase.run < |s.log|
    requires !end.Live? && (end.Cached? ==> end.response.status < 500)
    requires s'.log == s.Ended(s.requests[r].phase.run, end).log && r in s'.requests
    requires s'.requests == s.requests[r := s'.requests[r]] && !s'.requests[r].phase.Owner()
    ensures Linked(s')
  {
  }

  lemma StepKeepsLinked(s: State, step: Step)
    requires Linked(s) && Enabled(s, step)
    ensures Linked(Do(s, step))
  {
    var s' := Do(s, step);
    match step
    case Insert(r) =>
      hide Linked;
      if s.requests[r].id in s.table { MovingKeepsLinked(s, s', r); } else {
        StartingKeepsLinked(s, r, s.requests[r].phase.expiresAt, s'.table);
      }
    case Look(r) =>
      hide Linked;
      if s'.requests[r].phase.Owner() { StartingKeepsLinked(s, r, s.requests[r].phase.expiresAt, s'.table); } else {
        MovingKeepsLinked(s, s', r);
      }
    case Settle(r) =>
      hide Linked, CompleteRow, ReleaseRow;
      var answer := s.requests[r].phase.answer;
      EndingKeepsLinked(s, s', r, if answer.IsFinal() then Cached(answer.response) else Released);
    case Crash(r) =>
      hide Linked;
      if s.requests[r].phase.Owner() { EndingKeepsLinked(s, s', r, Lost); } else { MovingKeepsLinked(s, s', r); }
    case Arrive(r, _, _, _) => ArriveKeepsLinked(s, step);
    case HandlerEnds(r, _) => hide Linked; MovingKeepsLinked(s, s', r);
    case PurgeExpired =>
    case Tick(_) =>
  }

  lemma ArriveKeepsLinked(s: State, step: Step)
    requires Linked(s) && Enabled(s, step) && step.Arrive?
    ensures Linked(Do(s, step))
  {
  }

  /** Late owners or not, live owners and live runs stay matched. */
  lemma {:induction false} RunsKeepLinked(states: seq<State>)
    requires IsRun(states)
    ensures Linked(states[|states| - 1])
  {
    var n := |states| - 1;
    if n > 0 {
      assert IsRun(states[..n]);
      RunsKeepLinked(states[..n]);
      assert Next(states[n - 1], states[n]);
      hide Linked, Do, Enabled;
      var step :| Enabled(states[n - 1], step) && states[n] == Do(states[n - 1], step);
      StepKeepsLinked(states[n - 1], step);
    }
  }

  // ----- Every step keeps the invariant -----

  lemma SameLogIsFaithful(s: State, s': State, r: nat)
    requires Faithful(s) && |s'.log| >= |s.log|
    requires forall i | 0 <= i < |s.log| :: s.log[i].end.Cached? ==> s'.log[i] == s.log[i]
    requires forall q | q in s'.requests && q != r :: q in s.requests && s'.requests[q] == s.requests[q]
    requires r in s'.requests && s'.requests[r].phase.Replayed? ==>
               exists i: nat :: i < |s'.log| && RepliesTo(s'.log[i], s'.requests[r])
    ensures Faithful(s')
  {
    forall q | q in s'.requests && s'.requests[q].phase.Replayed?
      ensures exists i: nat :: i < |s'.log| && RepliesTo(s'.log[i], s'.requests[q])
    {
      if q != r {
        var i: nat :| i < |s.log| && RepliesTo(s.log[i], s.requests[q]);
        assert RepliesTo(s'.log[i], s'.requests[q]);
      }
    }
  }

  /** Rows that a step leaves alone keep their source. */
  lemma SourcesStay(s: State, s': State, touched: set<Id>)
    requires Sourced(s) && AllReadable(s'.table) && |s'.log| >= |s.log|
    requires forall id | id in s'.table && id !in touched :: id in s.table && s'.table[id] == s.table[id]
    requires forall i | 0 <= i < |s.log| && s.log[i].id !in touched ::
               && s'.log[i].id == s.log[i].id && s'.log[i].Row() == s.log[i].Row()
               && (s.log[i].end != Released ==> s'.log[i].end != Released)
    requires forall id | id in touched && id in s'.table :: exists i: nat :: LeftBy(s', id, i)
    ensures Sourced(s')
  {
    forall id | id in s'.table
      ensures exists i: nat :: LeftBy(s', id, i)
    {
      if id !in touched {
        var i: nat :| LeftBy(s, id, i);
        assert LeftBy(s', id, i);
      }
    }
  }

  function Granted(s: State, r: nat, expiresAt: int): State
    requires r in s.requests
  {
    var q := s.requests[r];
    s.Started(r, expiresAt, s.table[q.id := Claimed(q.hash, expiresAt)])
  }

  lemma GrantKeepsLinks(s: State, r: nat, expiresAt: int)
    requires Linked(s) && Clocked(s) && r in s.requests && s.requests[r].phase.Waiting()
    ensures Linked(Granted(s, r, expiresAt)) && Clocked(Granted(s, r, expiresAt))
  {
  }

  /** A claim is won only when every earlier run of the key has released it or outlived it. */
  lemma GrantKeepsSerial(s: State, r: nat, expiresAt: int)
    requires Serial(s) && Clocked(s) && Held(s) && r in s.requests
    requires var id := s.requests[r].id;
             id in s.table ==> s.table[id].expiresAt <= s.clock
    ensures Serial(Granted(s, r, expiresAt)) && Held(Granted(s, r, expiresAt))
  {
    hide Answered;
    var s' := Granted(s, r, expiresAt);
    assert forall i | 0 <= i < |s.log| :: s'.log[i] == s.log[i];
    forall i | 0 <= i < |s.log| && s.log[i].id == s.requests[r].id
      ensures s.log[i].end == Released || s.log[i].expiresAt <= s.clock
    {
      RowKeepsClaim(s.log[i]);
    }
  }

  lemma RowKeepsClaim(run: Run)
    ensures run.Row().hash == run.hash && run.Row().expiresAt == run.expiresAt
    ensures run.Row().status == (if run.end.Cached? then Completed else InProgress)
  {
  }

  lemma GrantKeepsInv(s: State, r: nat, expiresAt: int)
    requires Inv(s) && r in s.requests && s.requests[r].phase.Waiting()
    requires var id := s.requests[r].id;
             id in s.table ==> s.table[id].expiresAt <= s.clock
    ensures Inv(Granted(s, r, expiresAt))
  {
    var s' := Granted(s, r, expiresAt);
    GrantKeepsLinks(s, r, expiresAt);
    GrantKeepsSerial(s, r, expiresAt);
    hide Linked, Serial, Held, Clocked;
    assert LeftBy(s', s.requests[r].id, |s.log|);
    SourcesStay(s, s', {s.requests[r].id});
    SameLogIsFaithful(s, s', r);
  }

  lemma MoveKeepsLinks(s: State, r: nat, phase: Phase)
    requires Linked(s) && Clocked(s) && Serial(s) && Held(s)
    requires r in s.requests && s.requests[r].phase.Waiting()
    requires phase.Inspecting? ==> phase.now == s.requests[r].phase.now
    requires !phase.Owner() && !phase.Inserting?
    ensures var s' := s.Moved(r, phase); Linked(s') && Clocked(s') && Serial(s') && Held(s')
  {
  }

  lemma LostLookKeepsInv(s: State, r: nat)
    requires Inv(s) && Enabled(s, Look(r))
    requires var q := s.requests[r]; q.id in s.table ==> s.table[q.id].expiresAt > q.phase.now
    ensures Inv(Do(s, Look(r)))
  {
    hide AllReadable, CachedOf, Linked, Serial, Held, Clocked;
    var phase := Do(s, Look(r)).requests[r].phase;
    assert Do(s, Look(r)) == s.Moved(r, phase);
    if phase.Replayed? { ReplayHasSource(s, r); }
    MovedKeepsInv(s, r, phase);
  }

  lemma MovedKeepsInv(s: State, r: nat, phase: Phase)
    requires Inv(s) && r in s.requests && s.requests[r].phase.Waiting()
    requires !phase.Owner() && !phase.Waiting()
    requires phase.Replayed? ==>
               exists i: nat :: i < |s.log| && RepliesTo(s.log[i], s.requests[r].(phase := phase))
    ensures Inv(s.Moved(r, phase))
  {
    MoveKeepsLinks(s, r, phase);
    hide Linked, Serial, Held, Clocked, AllReadable;
    SourcesStay(s, s.Moved(r, phase), {});
    SameLogIsFaithful(s, s.Moved(r, phase), r);
  }

  lemma LookKeepsInv(s: State, r: nat)
    requires Inv(s) && Enabled(s, Look(r))
    ensures Inv(Do(s, Look(r)))
  {
    var q := s.requests[r];
    if q.id in s.table && s.table[q.id].expiresAt <= q.phase.now {
      GrantKeepsInv(s, r, q.phase.expiresAt);
    } else {
      LostLookKeepsInv(s, r);
    }
  }

  lemma ReplayHasSource(s: State, r: nat)
    requires Sourced(s) && Enabled(s, Look(r)) && Do(s, Look(r)).requests[r].phase.Replayed?
    ensures exists i: nat :: i < |s.log| && RepliesTo(s.log[i], Do(s, Look(r)).requests[r])
  {
    hide StoredHeaders, LoadedHeaders, Kept, CachedOf, Cacheable;
    var q := s.requests[r];
    var i: nat :| LeftBy(s, q.id, i);
    RowKeepsClaim(s.log[i]);
    AnsweredIsCached(Claimed(s.log[i].hash, s.log[i].expiresAt), s.log[i].end.response);
    assert RepliesTo(s.log[i], Do(s, Look(r)).requests[r]);
  }

  /** A timely owner finds its own row, and no other unexpired run shares its key. */
  lemma OwnerAlone(s: State, r: nat, j: nat)
    requires Linked(s) && Clocked(s) && Serial(s) && Timely(s) && r in s.requests && s.requests[r].phase.Owner()
    requires j < |s.log| && j != s.requests[r].phase.run && s.log[j].id == s.requests[r].id
    ensures s.log[j].end == Released || s.log[j].expiresAt <= s.clock
  {
  }

  lemma SettleKeepsLinks(s: State, r: nat)
    requires Linked(s) && Clocked(s) && Serial(s) && Enabled(s, Settle(r))
    ensures Linked(Do(s, Settle(r))) && Clocked(Do(s, Settle(r))) && Serial(Do(s, Settle(r)))
  {
    StepKeepsLinked(s, Settle(r));
    assert s.log[s.requests[r].phase.run].end == Live;
    hide Linked, CompleteRow, ReleaseRow;
  }

  lemma OwnerFindsItsRow(s: State, r: nat)
    requires Linked(s) && Held(s) && Timely(s) && Enabled(s, Settle(r))
    ensures var q := s.requests[r]; var run := s.log[q.phase.run];
            && run.id == q.id && run.end == Live
            && q.id in s.table && s.table[q.id] == run.Row() == Claimed(q.hash, run.expiresAt)
  {
    hide Answered;
  }

  lemma SettledTable(s: State, r: nat)
    requires Linked(s) && Held(s) && Timely(s) && Enabled(s, Settle(r))
    ensures var q := s.requests[r]; var k := q.phase.run; var s' := Do(s, Settle(r));
            && |s'.log| == |s.log| && s'.clock == s.clock
            && (forall j | 0 <= j < |s.log| && j != k :: s'.log[j] == s.log[j])
            && (forall id | id != q.id :: id in s.table ==> id in s'.table && s'.table[id] == s.table[id])
            && s'.log[k].id == q.id
            && (q.phase.answer.IsFinal() ==>
                  s'.log[k].end.Cached? && q.id in s'.table && s'.table[q.id] == s'.log[k].Row())
            && (!q.phase.answer.IsFinal() ==> s'.log[k].end == Released && q.id !in s'.table)
  {
    OwnerFindsItsRow(s, r);
    hide Linked, Held, Timely, StoredHeaders;
  }

  lemma SettleKeepsHeld(s: State, r: nat)
    requires Inv(s) && Timely(s) && Enabled(s, Settle(r))
    ensures Held(Do(s, Settle(r)))
    ensures var q := s.requests[r]; var s' := Do(s, Settle(r));
            && q.id in s.table && s.table[q.id] == s.log[q.phase.run].Row()
            && (q.phase.answer.IsFinal() ==> LeftBy(s', q.id, q.phase.run))
            && (!q.phase.answer.IsFinal() ==> q.id !in s'.table)
  {
    var q, k := s.requests[r], s.requests[r].phase.run;
    var s' := Do(s, Settle(r));
    OwnerFindsItsRow(s, r);
    SettledTable(s, r);
    hide Linked, Serial, Clocked, Timely, Sourced, Faithful, Do, Answered;
    forall j: nat | j < |s.log| && s'.log[j].end != Released && s'.log[j].expiresAt > s.clock
      ensures s'.log[j].id in s'.table && s'.table[s'.log[j].id] == s'.log[j].Row()
    {
      if j != k && s.log[j].id == q.id { OwnerAlone(s, r, j); }
    }
  }

  lemma SettleKeepsReplies(s: State, r: nat)
    requires Linked(s) && Faithful(s) && Enabled(s, Settle(r))
    ensures Faithful(Do(s, Settle(r)))
  {
    hide CompleteRow, ReleaseRow;
    SameLogIsFaithful(s, Do(s, Settle(r)), r);
  }

  lemma SettleKeepsSources(s: State, r: nat)
    requires Inv(s) && Timely(s) && Enabled(s, Settle(r))
    ensures Sourced(Do(s, Settle(r)))
  {
    var q := s.requests[r];
    SettleKeepsHeld(s, r);
    AfterIsReadable(s.table, s.clock, if q.phase.answer.IsFinal() then CallComplete(q.id, q.phase.answer.response)
                                      else CallRelease(q.id));
    hide Linked, Clocked, Serial, Held, Faithful, Timely, AllReadable, Answered;
    SourcesStay(s, Do(s, Settle(r)), {q.id});
  }

  lemma SettleKeepsInv(s: State, r: nat)
    requires Inv(s) && Timely(s) && Enabled(s, Settle(r))
    ensures Inv(Do(s, Settle(r)))
  {
    hide Linked, Clocked, Serial, Held, Sourced, Faithful, Timely, Enabled, Do;
    SettleKeepsLinks(s, r);
    SettleKeepsHeld(s, r);
    SettleKeepsSources(s, r);
    SettleKeepsReplies(s, r);
  }

  lemma CrashKeepsLinks(s: State, r: nat)
    requires Linked(s) && Clocked(s) && Serial(s) && Held(s) && Enabled(s, Crash(r))
    ensures var s' := Do(s, Crash(r)); Linked(s') && Clocked(s') && Serial(s') && Held(s')
    ensures s.requests[r].phase.Owner() ==> s.log[s.requests[r].phase.run].end == Live
  {
    StepKeepsLinked(s, Crash(r));
    assert s.requests[r].phase.Owner() ==> s.log[s.requests[r].phase.run].end == Live;
    hide Linked, Answered;
  }

  /** A crash leaves the in-progress row behind, until its expiry. */
  lemma CrashKeepsInv(s: State, r: nat)
    requires Inv(s) && Enabled(s, Crash(r))
    ensures Inv(Do(s, Crash(r)))
  {
    hide Linked, Serial, Held, Clocked, AllReadable, Answered;
    CrashKeepsLinks(s, r);
    SourcesStay(s, Do(s, Crash(r)), {});
    SameLogIsFaithful(s, Do(s, Crash(r)), r);
  }

  /** Arriving, losing the INSERT and ending the handler move one request and nothing else. */
  predicate IsLocal(s: State, step: Step) {
    || step.Arrive? || step.HandlerEnds?
    || (step.Insert? && step.r in s.requests && s.requests[step.r].id in s.table)
  }

  lemma LocalStepKeepsLinks(s: State, step: Step)
    requires Linked(s) && Clocked(s) && Serial(s) && Held(s) && Enabled(s, step) && IsLocal(s, step)
    ensures var s' := Do(s, step); Linked(s') && Clocked(s') && Serial(s') && Held(s')
  {
    StepKeepsLinked(s, step);
    hide Linked, Answered, InspectRow, CompleteRow, ReleaseRow, PurgeRows, AllReadable;
  }

  lemma LocalStepKeepsInv(s: State, step: Step)
    requires Inv(s) && Enabled(s, step) && IsLocal(s, step)
    ensures Inv(Do(s, step))
  {
    hide Linked, Serial, Held, Clocked, AllReadable;
    LocalStepKeepsLinks(s, step);
    SourcesStay(s, Do(s, step), {});
    SameLogIsFaithful(s, Do(s, step), step.r);
  }

  /** The purge takes only rows whose claims are over. */
  lemma PurgeKeepsHeld(s: State)
    requires Held(s)
    ensures Held(s.(table := PurgeRows(s.table, s.clock)))
  {
    hide Answered;
    forall i | 0 <= i < |s.log|
      ensures s.log[i].Row().expiresAt == s.log[i].expiresAt
    {
      RowKeepsClaim(s.log[i]);
    }
  }

  lemma PurgeKeepsInv(s: State)
    requires Inv(s)
    ensures Inv(s.(table := PurgeRows(s.table, s.clock)))
  {
    var s' := s.(table := PurgeRows(s.table, s.clock));
    PurgeKeepsHeld(s);
    AfterIsReadable(s.table, s.clock, CallPurge);
    assert Linked(s') && Clocked(s') && Serial(s');
    hide Linked, Serial, Held, Clocked, AllReadable;
    SourcesStay(s, s', {});
    SameLogIsFaithful(s, s', 0);
  }

  lemma TickKeepsInv(s: State, seconds: nat)
    requires Inv(s)
    ensures Inv(s.(clock := s.clock + seconds))
  {
    hide AllReadable, Answered;
    SourcesStay(s, s.(clock := s.clock + seconds), {});
    SameLogIsFaithful(s, s.(clock := s.clock + seconds), 0);
  }

  lemma InsertKeepsInv(s: State, r: nat)
    requires Inv(s) && Enabled(s, Insert(r))
    ensures Inv(Do(s, Insert(r)))
  {
    if s.requests[r].id in s.table {
      LocalStepKeepsInv(s, Insert(r));
    } else {
      GrantKeepsInv(s, r, s.requests[r].phase.expiresAt);
    }
  }

  lemma StepKeepsInv(s: State, step: Step)
    requires Inv(s) && Timely(s) && Enabled(s, step)
    ensures Inv(Do(s, step))
  {
    match step
    case Arrive(_, _, _, _) => hide Inv, Do; LocalStepKeepsInv(s, step);
    case Insert(r) => hide Inv, Do; InsertKeepsInv(s, r);
    case Look(r) => hide Inv, Do; LookKeepsInv(s, r);
    case HandlerEnds(_, _) => hide Inv, Do; LocalStepKeepsInv(s, step);
    case Settle(r) => hide Inv, Do, Timely; SettleKeepsInv(s, r);
    case Crash(r) => hide Inv, Do; CrashKeepsInv(s, r);
    case PurgeExpired => hide Inv; PurgeKeepsInv(s);
    case Tick(seconds) => hide Inv; TickKeepsInv(s, seconds);
  }

  lemma InitIsFine(s: State)
    requires Init(s)
    ensures Inv(s)
  {
  }

  /** Every state of every timely run satisfies the invariant. */
  lemma {:induction false} RunsKeepInv(states: seq<State>)
    requires IsRun(states) && forall i | 0 <= i < |states| - 1 :: Timely(states[i])
    ensures Inv(states[|states| - 1])
  {
    hide Inv, Timely, Init, Do, Enabled;
    var n := |states| - 1;
    if n == 0 {
      InitIsFine(states[0]);
    } else {
      assert IsRun(states[..n]);
      RunsKeepInv(states[..n]);
      assert Next(states[n - 1], states[n]);
      var step :| Enabled(states[n - 1], step) && states[n] == Do(states[n - 1], step);
      StepKeepsInv(states[n - 1], step);
    }
  }

  // ----- What clients get -----

  /** At most one live owner per key at any moment, over its own in-progress row; and a key's handler
      runs again only after the earlier run released its claim or outlived it. */
  lemma SingleExecution(states: seq<State>)
    requires IsRun(states) && forall i | 0 <= i < |states| :: Timely(states[i])
    ensures var s := states[|states| - 1];
            && (forall r, r' | r in s.requests && r' in s.requests && s.requests[r].id == s.requests[r'].id ::
                  s.requests[r].phase.Owner() && s.requests[r'].phase.Owner() ==> r == r')
            && (forall r | r in s.requests && s.requests[r].phase.Owner() ::
                  var q := s.requests[r];
                  && q.id in s.table && s.table[q.id].status == InProgress
                  && s.table[q.id].hash == q.hash && s.table[q.id].expiresAt > s.clock)
            && Serial(s)
  {
    RunsKeepInv(states);
    var s := states[|states| - 1];
    forall r, r' | r in s.requests && r' in s.requests && s.requests[r].id == s.requests[r'].id
                   && s.requests[r].phase.Owner() && s.requests[r'].phase.Owner()
      ensures r == r'
    {
      if s.requests[r'].phase.run != s.requests[r].phase.run { OwnerAlone(s, r, s.requests[r'].phase.run); }
    }
    forall r | r in s.requests && s.requests[r].phase.Owner()
      ensures var id := s.requests[r].id; id in s.table && s.table[id] == s.log[s.requests[r].phase.run].Row()
    {
    }
  }

  /** Every replay is the answer that a handler run of the same key and the same request hash
      streamed: same status, same body, same headers but the excluded ones. */
  lemma ReplayFidelity(states: seq<State>, r: nat) returns (run: Run)
    requires IsRun(states) && forall i | 0 <= i < |states| - 1 :: Timely(states[i])
    requires var s := states[|states| - 1]; r in s.requests && s.requests[r].phase.Replayed?
    ensures var s := states[|states| - 1]; var q := s.requests[r];
            && run in s.log && run.id == q.id && run.hash == q.hash && run.end.Cached?
            && run.end.response.status < 500
            && q.phase.cached == Cacheable(run.end.response)
  {
    RunsKeepInv(states);
    var s := states[|states| - 1];
    var i: nat :| i < |s.log| && RepliesTo(s.log[i], s.requests[r]);
    run := s.log[i];
  }

  // ----- When the promises hold without the hypothesis -----

  lemma CompletionIsTrueAt(s: State, r: nat)
    requires Linked(s) && Enabled(s, Settle(r)) && s.requests[r].phase.answer.IsFinal()
    ensures var q := s.requests[r]; var k := q.phase.run;
            LeftBy(Do(s, Settle(r)), q.id, k) <==>
            (q.id in s.table && s.table[q.id].hash == q.hash && s.table[q.id].expiresAt == s.log[k].expiresAt)
  {
  }

  /** In any run, with owners as late as they like: a final answer, stored, is a true record of its run
      exactly when the row that is there has the run's own hash and expiry.  `complete` does not look. */
  lemma CompletionIsTrueIffRowIsOwn(states: seq<State>, r: nat)
    requires IsRun(states)
    requires var s := states[|states| - 1]; Enabled(s, Settle(r)) && s.requests[r].phase.answer.IsFinal()
    ensures var s := states[|states| - 1]; var q := s.requests[r]; var k := q.phase.run;
            && k < |s.log| && s.log[k].owner == r && s.log[k].end == Live
            && (LeftBy(Do(s, Settle(r)), q.id, k) <==>
                (q.id in s.table && s.table[q.id].hash == q.hash && s.table[q.id].expiresAt == s.log[k].expiresAt))
  {
    RunsKeepLinked(states);
    CompletionIsTrueAt(states[|states| - 1], r);
  }

  /** A run that still stands in the way of its key's next claim. */
  predicate InForce(run: Run, clock: int) { run.end != Released && run.expiresAt > clock }

  /** A new request claims and nothing comes between. */
  ghost function ClaimedNow(s: State, r: nat, id: Id, hash: string, ttl: int): State
    requires AllReadable(s.table) && r !in s.requests
  {
    var s1 := Do(s, Arrive(r, id, hash, ttl));
    var s2 := Do(s1, Insert(r));
    if s2.requests[r].phase.Inspecting? then Do(s2, Look(r)) else s2
  }

  lemma ClaimGoesByTheRow(s: State, r: nat, id: Id, hash: string, ttl: int)
    requires AllReadable(s.table) && r !in s.requests
    ensures var s' := ClaimedNow(s, r, id, hash, ttl);
            && r in s'.requests && s'.requests[r].id == id
            && (s'.requests[r].phase.Owner() <==> !(id in s.table && s.table[id].expiresAt > s.clock))
            && (s'.requests[r].phase.Owner() ==>
                  && s'.log == s.log + [Run(id, hash, r, s.clock, s.clock + ttl, Live)]
                  && s'.table == s.table[id := Claimed(hash, s.clock + ttl)])
            && forall q | q in s.requests :: q in s'.requests && s'.requests[q] == s.requests[q]
  {
    hide CachedOf;
  }

  lemma RowStandsForRun(s: State, id: Id)
    requires Held(s) && Sourced(s)
    ensures (id in s.table && s.table[id].expiresAt > s.clock) <==>
            (exists i :: 0 <= i < |s.log| && s.log[i].id == id && InForce(s.log[i], s.clock))
  {
    hide Answered, AllReadable;
    if i :| 0 <= i < |s.log| && s.log[i].id == id && InForce(s.log[i], s.clock) {
      RowKeepsClaim(s.log[i]);
    }
    if id in s.table && s.table[id].expiresAt > s.clock {
      var i: nat :| LeftBy(s, id, i);
      RowKeepsClaim(s.log[i]);
      assert InForce(s.log[i], s.clock);
    }
  }

  /** After any run whose owners were timely until now, the next claim of a key is granted exactly when
      every earlier run of it has released its claim or is past its expiry. */
  lemma GrantedIffNoCurrentRun(states: seq<State>, r: nat, id: Id, hash: string, ttl: int)
    requires IsRun(states) && forall i | 0 <= i < |states| - 1 :: Timely(states[i])
    requires r !in states[|states| - 1].requests
    ensures var s := states[|states| - 1];
            && AllReadable(s.table)
            && (ClaimedNow(s, r, id, hash, ttl).requests[r].phase.Owner() <==>
                forall i | 0 <= i < |s.log| && s.log[i].id == id :: !InForce(s.log[i], s.clock))
  {
    RunsKeepInv(states);
    var s := states[|states| - 1];
    hide Linked, Clocked, Serial, Faithful, Timely, ClaimedNow;
    ClaimGoesByTheRow(s, r, id, hash, ttl);
    RowStandsForRun(s, id);
  }

  /** No run of a key comes after a live one. */
  ghost predicate LiveIsLast(s: State) {
    forall i, j | 0 <= i < j < |s.log| && s.log[i].id == s.log[j].id :: s.log[i].end != Live
  }

  /** Runs are added by winning claims alone, and none comes back to life. */
  lemma LogGrowsByClaims(s: State, step: Step)
    requires Linked(s) && Enabled(s, step)
    ensures var s' := Do(s, step);
            && |s.log| <= |s'.log|
            && (forall i | 0 <= i < |s.log| ::
                  s'.log[i].id == s.log[i].id && (s'.log[i].end == Live ==> s.log[i].end == Live)
                  && (s.log[i].end.Cached? ==> s'.log[i] == s.log[i]))
            && (|s'.log| > |s.log| ==>
                  && (step.Insert? || step.Look?) && |s'.log| == |s.log| + 1
                  && var q := s.requests[step.r];
                     && s'.log[|s.log|].id == q.id && q.phase.Waiting()
                     && (q.id in s.table ==> s.table[q.id].expiresAt <= q.phase.now))
  {
    hide CompleteRow, ReleaseRow, PurgeRows, AllReadable, CachedOf;
    if step.Settle? || step.Crash? { hide InspectRow; }
  }

  /** A timely live run keeps every other claim of its key out. */
  lemma LiveRunKeepsOut(s: State, i: nat)
    requires Linked(s) && Held(s) && Timely(s) && i < |s.log| && s.log[i].end == Live
    ensures s.log[i].id in s.table && s.table[s.log[i].id].expiresAt > s.clock
  {
    RowKeepsClaim(s.log[i]);
    hide Answered;
  }

  lemma StepKeepsLiveIsLast(s: State, step: Step)
    requires Inv(s) && Timely(s) && Enabled(s, step) && LiveIsLast(s)
    ensures LiveIsLast(Do(s, step))
  {
    var s' := Do(s, step);
    LogGrowsByClaims(s, step);
    assert step.Look? || step.Insert? ==> step.r in s.requests;
    hide Do, Linked, Serial, Held, Sourced, Faithful, Timely, Enabled;
    forall i, j | 0 <= i < j < |s'.log| && s'.log[i].id == s'.log[j].id ensures s'.log[i].end != Live {
      if s'.log[i].end == Live && j == |s.log| { LiveRunKeepsOut(s, i); }
    }
  }

  lemma {:induction false} RunsKeepLiveIsLast(states: seq<State>)
    requires IsRun(states) && forall i | 0 <= i < |states| - 1 :: Timely(states[i])
    ensures LiveIsLast(states[|states| - 1])
  {
    var n := |states| - 1;
    if n > 0 {
      hide Inv, Timely, Do, Enabled, LiveIsLast;
      assert IsRun(states[..n]);
      RunsKeepInv(states[..n]);
      RunsKeepLiveIsLast(states[..n]);
      assert Next(states[n - 1], states[n]);
      var step :| Enabled(states[n - 1], step) && states[n] == Do(states[n - 1], step);
      StepKeepsLiveIsLast(states[n - 1], step);
    }
  }

  /** A live owner's run is the only one of its key that can still be in force. */
  lemma OthersAreOver(s: State, r: nat, j: nat)
    requires Linked(s) && Clocked(s) && Serial(s) && LiveIsLast(s) && r in s.requests && s.requests[r].phase.Owner()
    requires j < |s.log| && j != s.requests[r].phase.run && s.log[j].id == s.requests[r].id
    ensures !InForce(s.log[j], s.clock)
  {
  }

  /** After any run whose owners were timely until now, a live owner gets a second one beside it
      exactly when it is late: the clock against the owner's `expires_at` decides, and nothing else. */
  lemma SecondOwnerIffLate(states: seq<State>, r: nat, r': nat, hash: string, ttl: int)
    requires IsRun(states) && forall i | 0 <= i < |states| - 1 :: Timely(states[i])
    requires var s := states[|states| - 1]; r in s.requests && s.requests[r].phase.Owner() && r' !in s.requests
    ensures var s := states[|states| - 1]; var q := s.requests[r];
            && AllReadable(s.table) && q.phase.run < |s.log|
            && var s' := ClaimedNow(s, r', q.id, hash, ttl);
               && r in s'.requests && s'.requests[r] == q && s'.requests[r'].id == q.id
               && (s'.requests[r'].phase.Owner() <==> s.clock >= s.log[q.phase.run].expiresAt)
  {
    RunsKeepInv(states);
    RunsKeepLiveIsLast(states);
    var s := states[|states| - 1];
    var q := s.requests[r];
    GrantedIffNoCurrentRun(states, r', q.id, hash, ttl);
    ClaimGoesByTheRow(s, r', q.id, hash, ttl);
    assert Linked(s) && Clocked(s) && Serial(s);
    hide ClaimedNow, Timely, AllReadable, LiveIsLast, Serial, Clocked, Held, Sourced, Faithful;
    forall j | 0 <= j < |s.log| && j != q.phase.run && s.log[j].id == q.id ensures !InForce(s.log[j], s.clock) {
      OthersAreOver(s, r, j);
    }
    assert InForce(s.log[q.phase.run], s.clock) <==> s.clock < s.log[q.phase.run].expiresAt;
  }

  // ----- When replays stay faithful without the hypothesis -----

  /** A final answer finds no row, or a row of its own request hash. */
  ghost predicate FindsOwnHash(s: State, step: Step) {
    step.Settle? && step.r in s.requests && s.requests[step.r].phase.Settling?
    && s.requests[step.r].phase.answer.IsFinal() ==>
      var q := s.requests[step.r]; q.id in s.table ==> s.table[q.id].hash == q.hash
  }

  ghost predicate NextOwnHash(s: State, s': State) {
    exists step :: Enabled(s, step) && FindsOwnHash(s, step) && s' == Do(s, step)
  }

  /** The row under `id` holds the answer of run `i`, a run with that row's hash. */
  ghost predicate Told(s: State, id: Id, i: nat) {
    && id in s.table && Readable(s.table[id]) && i < |s.log|
    && s.log[i].id == id && s.log[i].hash == s.table[id].hash && s.log[i].end.Cached?
    && CachedOf(s.table[id]) == Cacheable(s.log[i].end.response)
  }

  ghost predicate AnswersTold(s: State) {
    && AllReadable(s.table)
    && forall id | id in s.table && s.table[id].status == Completed :: exists i: nat :: Told(s, id, i)
  }

  lemma AnswersStay(s: State, s': State, touched: set<Id>)
    requires AnswersTold(s) && AllReadable(s'.table) && |s.log| <= |s'.log|
    requires forall i | 0 <= i < |s.log| && s.log[i].end.Cached? :: s'.log[i] == s.log[i]
    requires forall id | id in s'.table && id !in touched :: id in s.table && s'.table[id] == s.table[id]
    requires forall id | id in touched && id in s'.table && s'.table[id].status == Completed ::
               exists i: nat :: Told(s', id, i)
    ensures AnswersTold(s')
  {
    hide CachedOf, Cacheable;
    forall id | id in s'.table && s'.table[id].status == Completed ensures exists i: nat :: Told(s', id, i) {
      if id !in touched {
        var i: nat :| Told(s, id, i);
        assert Told(s', id, i);
      }
    }
  }

  lemma SettleTells(s: State, r: nat)
    requires Linked(s) && AnswersTold(s) && Enabled(s, Settle(r)) && FindsOwnHash(s, Settle(r))
    ensures AnswersTold(Do(s, Settle(r)))
  {
    var q, s' := s.requests[r], Do(s, Settle(r));
    var answer := q.phase.answer;
    LogGrowsByClaims(s, Settle(r));
    AfterIsReadable(s.table, s.clock,
                    if answer.IsFinal() then CallComplete(q.id, answer.response) else CallRelease(q.id));
    if answer.IsFinal() && q.id in s.table {
      AnsweredIsCached(s.table[q.id], answer.response);
      hide CachedOf, Cacheable, Answered;
      assert s'.table[q.id].hash == s.table[q.id].hash by { AnsweredKeepsClaim(s.table[q.id], answer.response); }
      assert Told(s', q.id, q.phase.run);
      hide Linked, AllReadable, Told;
      AnswersStay(s, s', {q.id});
    } else {
      hide Linked, AllReadable, Told;
      AnswersStay(s, s', {});
    }
  }

  lemma AnsweredKeepsClaim(row: Row, response: Response)
    ensures Answered(row, response).hash == row.hash && Answered(row, response).expiresAt == row.expiresAt
  {
  }

  lemma ClaimTells(s: State, step: Step)
    requires Linked(s) && AnswersTold(s) && Enabled(s, step) && (step.Insert? || step.Look?)
    ensures AnswersTold(Do(s, step))
  {
    var s', id := Do(s, step), s.requests[step.r].id;
    LogGrowsByClaims(s, step);
    assert forall other | other in s'.table && other != id :: other in s.table && s'.table[other] == s.table[other];
    assert id in s'.table ==> (id in s.table && s'.table[id] == s.table[id])
                              || (s'.table[id].status == InProgress && s'.table[id].responseHeaders.None?);
    hide Linked, Told, Do, Enabled;
    if id in s'.table && id in s.table && s'.table[id] == s.table[id] {
      AnswersStay(s, s', {});
    } else {
      AnswersStay(s, s', {id});
    }
  }

  lemma StepKeepsAnswers(s: State, step: Step)
    requires Linked(s) && AnswersTold(s) && Enabled(s, step) && FindsOwnHash(s, step)
    ensures AnswersTold(Do(s, step))
  {
    match step
    case Settle(r) => hide Do, Enabled, Linked, AnswersTold; SettleTells(s, r);
    case Insert(_) => hide Do, Enabled, Linked, AnswersTold; ClaimTells(s, step);
    case Look(_) => hide Do, Enabled, Linked, AnswersTold; ClaimTells(s, step);
    case _ =>
      LogGrowsByClaims(s, step);
      hide Linked, Told;
      AnswersStay(s, Do(s, step), {});
  }

  /** A look that finds a completed row of its own hash gets the answer of a run with that hash. */
  lemma LookIsTold(s: State, r: nat)
    requires AnswersTold(s) && Enabled(s, Look(r)) && Do(s, Look(r)).requests[r].phase.Replayed?
    ensures exists i: nat :: i < |s.log| && RepliesTo(s.log[i], Do(s, Look(r)).requests[r])
  {
    var q := s.requests[r];
    hide CachedOf, Cacheable;
    var i: nat :| Told(s, q.id, i);
    assert RepliesTo(s.log[i], Do(s, Look(r)).requests[r]);
  }

  lemma StepKeepsFaithful(s: State, step: Step)
    requires Linked(s) && AnswersTold(s) && Faithful(s) && Enabled(s, step)
    ensures Faithful(Do(s, step))
  {
    var s' := Do(s, step);
    LogGrowsByClaims(s, step);
    if step.PurgeExpired? || step.Tick? {
      SameLogIsFaithful(s, s', 0);
    } else {
      if step.Look? && s'.requests[step.r].phase.Replayed? { LookIsTold(s, step.r); }
      OthersStay(s, step);
      hide Linked, AnswersTold, Told, Faithful, Enabled, Do;
      SameLogIsFaithful(s, s', step.r);
    }
  }

  /** A step of a request moves no other request, and only a look ends in a replay. */
  lemma OthersStay(s: State, step: Step)
    requires Enabled(s, step) && !step.PurgeExpired? && !step.Tick?
    ensures var s' := Do(s, step);
            && step.r in s'.requests && (s'.requests[step.r].phase.Replayed? ==> step.Look? && s'.log == s.log)
            && forall q | q in s'.requests && q != step.r :: q in s.requests && s'.requests[q] == s.requests[q]
  {
    hide CompleteRow, ReleaseRow, CachedOf, AllReadable;
  }

  /** Late owners or not: as long as every final answer finds no row, or a row of its own request hash,
      every replay is the answer of a run with its own key and hash. */
  lemma {:induction false} OwnHashKeepsReplaysFaithful(states: seq<State>)
    requires states != [] && Init(states[0])
    requires forall i | 0 <= i < |states| - 1 :: NextOwnHash(states[i], states[i + 1])
    ensures var s := states[|states| - 1]; Linked(s) && AnswersTold(s) && Faithful(s)
  {
    var n := |states| - 1;
    if n > 0 {
      OwnHashKeepsReplaysFaithful(states[..n]);
      assert NextOwnHash(states[n - 1], states[n]);
      hide Linked, AnswersTold, Faithful, Do, Enabled, FindsOwnHash;
      var step :| Enabled(states[n - 1], step) && FindsOwnHash(states[n - 1], step)
                  && states[n] == Do(states[n - 1], step);
      StepKeepsLinked(states[n - 1], step);
      StepKeepsAnswers(states[n - 1], step);
      StepKeepsFaithful(states[n - 1], step);
    }
  }

  lemma StepKeepsReadable(s: State, step: Step)
    requires AllReadable(s.table) && Enabled(s, step)
    ensures AllReadable(Do(s, step).table)
  {
    hide AllReadable, Answered;
    match step
    case Insert(r) => ClaimIsReadable(s.table, s.requests[r].id, s.requests[r].hash, s.requests[r].phase.expiresAt);
    case Look(r) => ClaimIsReadable(s.table, s.requests[r].id, s.requests[r].hash, s.requests[r].phase.expiresAt);
    case Settle(r) =>
      var q := s.requests[r];
      var answer := q.phase.answer;
      AfterIsReadable(s.table, s.clock,
                      if answer.IsFinal() then CallComplete(q.id, answer.response) else CallRelease(q.id));
    case PurgeExpired => AfterIsReadable(s.table, s.clock, CallPurge);
    case _ =>
  }

  lemma ClaimIsReadable(table: Table, id: Id, hash: string, expiresAt: int)
    requires AllReadable(table)
    ensures AllReadable(table[id := Claimed(hash, expiresAt)])
  {
  }

  lemma {:induction false} RunsKeepReadable(states: seq<State>)
    requires IsRun(states)
    ensures AllReadable(states[|states| - 1].table)
  {
    var n := |states| - 1;
    if n > 0 {
      assert IsRun(states[..n]);
      RunsKeepReadable(states[..n]);
      assert Next(states[n - 1], states[n]);
      hide AllReadable, Do, Enabled;
      var step :| Enabled(states[n - 1], step) && states[n] == Do(states[n - 1], step);
      StepKeepsReadable(states[n - 1], step);
    }
  }

  lemma StrayReplayAt(s: State, r: nat, r': nat, ttl: int)
    requires Linked(s) && AllReadable(s.table) && Enabled(s, Settle(r)) && s.requests[r].phase.answer.IsFinal()
    requires var id := s.requests[r].id; id in s.table && s.table[id].expiresAt > s.clock
    requires r' !in s.requests
    ensures var q := s.requests[r]; var row := s.table[q.id]; var s' := Do(s, Settle(r));
            && AllReadable(s'.table) && r' !in s'.requests
            && var s'' := ClaimedNow(s', r', q.id, row.hash, ttl);
               && s''.log == s'.log && s'.log == s.Ended(q.phase.run, Cached(q.phase.answer.response)).log
               && r' in s''.requests
               && s''.requests[r'] == Request(q.id, row.hash, Replayed(Cacheable(q.phase.answer.response)))
  {
    var q := s.requests[r];
    var row := s.table[q.id];
    AnsweredIsCached(row, q.phase.answer.response);
    AnsweredKeepsClaim(row, q.phase.answer.response);
    AfterIsReadable(s.table, s.clock, CallComplete(q.id, q.phase.answer.response));
    hide Linked, CachedOf, Cacheable, StoredHeaders, AllReadable;
  }

  /** The exact condition for replays: in any run, when a final answer finds an unexpired row, whoever
      left it, the next claim with that row's hash is given this answer; and it is the answer to that
      claim's request exactly when the row had the hash of the run that gave it. */
  lemma StrayReplayIffOtherHash(states: seq<State>, r: nat, r': nat, ttl: int)
    requires IsRun(states)
    requires var s := states[|states| - 1];
             && Enabled(s, Settle(r)) && s.requests[r].phase.answer.IsFinal() && r' !in s.requests
             && var id := s.requests[r].id; id in s.table && s.table[id].expiresAt > s.clock
    ensures var s := states[|states| - 1];
            var q := s.requests[r]; var row := s.table[q.id]; var s' := Do(s, Settle(r));
            && AllReadable(s'.table) && r' !in s'.requests
            && var s'' := ClaimedNow(s', r', q.id, row.hash, ttl);
               && q.phase.run < |s''.log| && r' in s''.requests
               && s''.requests[r'] == Request(q.id, row.hash, Replayed(Cacheable(q.phase.answer.response)))
               && (RepliesTo(s''.log[q.phase.run], s''.requests[r']) <==> row.hash == q.hash)
  {
    RunsKeepLinked(states);
    RunsKeepReadable(states);
    StrayReplayAt(states[|states| - 1], r, r', ttl);
    hide Cacheable, ClaimedNow, AllReadable;
  }

  ghost function Stepped(s: State, step: Step): (s': State)
    requires Enabled(s, step)
    ensures Next(s, s')
  {
    Do(s, step)
  }

  /** Request 0 claims for one second; the second passes. */
  ghost function Outlived(id: Id): State {
    State(1, map[id := Claimed("a", 1)], map[0 := Request(id, "a", Running(0))], [Run(id, "a", 0, 0, 1, Live)])
  }

  /** Request 1 reclaims the key while request 0 still runs. */
  ghost function TwoOwners(id: Id, hash: string): State {
    State(1, map[id := Claimed(hash, 10)],
          map[0 := Request(id, "a", Running(0)), 1 := Request(id, hash, Running(1))],
          [Run(id, "a", 0, 0, 1, Live), Run(id, hash, 1, 1, 10, Live)])
  }

  lemma ReachOutlived(id: Id) returns (states: seq<State>)
    ensures IsRun(states) && |states| == 4 && states[3] == Outlived(id)
  {
    var s0 := State(0, map[], map[], []);
    var s1 := Stepped(s0, Arrive(0, id, "a", 1));
    var s2 := Stepped(s1, Insert(0));
    var s3 := Stepped(s2, Step.Tick(1));
    states := [s0, s1, s2, s3];
  }

  lemma ReachTwoOwners(id: Id, hash: string) returns (states: seq<State>)
    ensures |states| == 4 && states[0] == Outlived(id) && states[3] == TwoOwners(id, hash)
    ensures forall i | 0 <= i < 3 :: Next(states[i], states[i + 1])
  {
    var s3 := Outlived(id);
    var s4 := Stepped(s3, Arrive(1, id, hash, 9));
    var s5 := Stepped(s4, Insert(1));
    assert s5 == s3.(requests := s3.requests[1 := Request(id, hash, Inspecting(1, 10))]);
    var s6 := Stepped(s5, Look(1));
    assert s6 == s5.Started(1, 10, map[id := Claimed(hash, 10)]);
    states := [s3, s4, s5, s6];
  }

  /** Request 0 stores its answer in the row of request 1, and request 2 gets it. */
  lemma ReachStrayReplay(id: Id, hash: string, answer: Response) returns (states: seq<State>)
    requires answer.status < 500
    ensures |states| == 6 && states[0] == TwoOwners(id, hash)
    ensures forall i | 0 <= i < 5 :: Next(states[i], states[i + 1])
    ensures Enabled(states[1], Settle(0)) && states[2] == Do(states[1], Settle(0))
    ensures states[2].log == [Run(id, "a", 0, 0, 1, Cached(answer)), Run(id, hash, 1, 1, 10, Live)]
    ensures states[2].table == map[id := Answered(Claimed(hash, 10), answer)]
    ensures 2 in states[5].requests && states[5].requests[2] == Request(id, hash, Replayed(Cacheable(answer)))
    ensures states[5].log == states[2].log
  {
    hide StoredHeaders, Cacheable;
    var s := TwoOwners(id, hash);
    var s1 := Stepped(s, HandlerEnds(0, Streamed(answer, false)));
    var s2 := Stepped(s1, Settle(0));
    AnsweredIsCached(Claimed(hash, 10), answer);
    var s3 := Stepped(s2, Arrive(2, id, hash, 9));
    var s4 := Stepped(s3, Insert(2));
    var s5 := Stepped(s4, Look(2));
    states := [s, s1, s2, s3, s4, s5];
  }

  /** A late owner whose key was reclaimed with `hash`, and a third request with that hash. */
  lemma ReachLateAnswer(id: Id, hash: string, answer: Response) returns (states: seq<State>)
    requires answer.status < 500
    ensures IsRun(states) && |states| == 12 && states[6] == TwoOwners(id, hash)
    ensures Enabled(states[7], Settle(0)) && states[8] == Do(states[7], Settle(0))
    ensures states[8].log == [Run(id, "a", 0, 0, 1, Cached(answer)), Run(id, hash, 1, 1, 10, Live)]
    ensures states[8].table == map[id := Answered(Claimed(hash, 10), answer)]
    ensures 2 in states[11].requests && states[11].requests[2] == Request(id, hash, Replayed(Cacheable(answer)))
    ensures states[11].log == states[8].log
  {
    hide Cacheable, Answered, Next;
    var first := ReachOutlived(id);
    var second := ReachTwoOwners(id, hash);
    var third := ReachStrayReplay(id, hash, answer);
    states := first + second[1..] + third[1..];
    forall i | 0 <= i < 11
      ensures Next(states[i], states[i + 1])
    {
      assert 3 <= i < 6 ==> states[i] == second[i - 3] && states[i + 1] == second[i - 2];
      assert i >= 6 ==> states[i] == third[i - 6] && states[i + 1] == third[i - 5];
    }
  }

  /** Without it both promises fail: a handler that outlives its claim runs beside the next owner,
      and its answer is replayed to a request with another hash. */
  lemma LateOwnerBreaksBothPromises() returns (states: seq<State>)
    ensures IsRun(states) && |states| == 12
    ensures var s := states[6];
            && 0 in s.requests && 1 in s.requests && s.requests[0].id == s.requests[1].id
            && s.requests[0].phase.Owner() && s.requests[1].phase.Owner() && !Timely(s)
    ensures !Faithful(states[11])
  {
    states := ReachLateAnswer(Id("scope", "key"), "b", Response(200, [], []));
    hide IsRun;
    var last := states[11];
    assert forall i: nat :: i < 2 ==> !RepliesTo(last.log[i], last.requests[2]);
  }

  /** The hash is what matters, not whose row it is: a late answer stored in a row that a retry of the
      same request has reclaimed leaves a row that no run had left, and its replay is faithful. */
  lemma SameHashReclaimStaysFaithful() returns (states: seq<State>)
    ensures IsRun(states) && |states| == 12 && Enabled(states[7], Settle(0)) && states[8] == Do(states[7], Settle(0))
    ensures forall id, i: nat :: !LeftBy(states[8], id, i)
    ensures 2 in states[11].requests && states[11].log != [] && RepliesTo(states[11].log[0], states[11].requests[2])
  {
    states := ReachLateAnswer(Id("scope", "key"), "a", Response(200, [], []));
    hide IsRun;
  }
}
