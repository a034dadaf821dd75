/** Metering: the append-only usage log, and closing periods into invoices. */
module Metering {
  import opened Http
  import opened Rating

  datatype UsageEvent = UsageEvent(org: string, meter: string, quantity: int, key: string, createdAt: int)

  // ----- Recording usage -----

  predicate Same(a: UsageEvent, b: UsageEvent) { a.org == b.org && a.key == b.key }

  predicate Known(events: seq<UsageEvent>, e: UsageEvent) { exists i | 0 <= i < |events| :: Same(events[i], e) }

  function Recorded(events: seq<UsageEvent>, e: UsageEvent): seq<UsageEvent> {
    if Known(events, e) then events else events + [e]
  }

  /** An event is stored iff no stored one has both its organization and its key: organizations may use
      the same keys, and one key counts once for each. */
  lemma StoredIffPairIsNew(events: seq<UsageEvent>, e: UsageEvent)
    ensures Recorded(events, e) == if exists x :: x in events && x.org == e.org && x.key == e.key then events
                                   else events + [e]
  {
    if x :| x in events && x.org == e.org && x.key == e.key {
      var i :| 0 <= i < |events| && events[i] == x;
      assert Same(events[i], e);
    }
  }

  /** The log after a whole sequence of ingest calls. */
  function LogOf(calls: seq<UsageEvent>): seq<UsageEvent> {
    if calls == [] then [] else Recorded(LogOf(calls[..|calls| - 1]), calls[|calls| - 1])
  }

  /** `retried` is `calls` with any number of retries put in anywhere: calls whose (org, key) came
      before, whatever meter and quantity they carry. */
  ghost predicate WithRetries(retried: seq<UsageEvent>, calls: seq<UsageEvent>)
    decreases |retried|
  {
    if retried == [] then calls == []
    else
      var before, last := retried[..|retried| - 1], retried[|retried| - 1];
      || (Known(before, last) && WithRetries(before, calls))
      || (calls != [] && calls[|calls| - 1] == last && WithRetries(before, calls[..|calls| - 1]))
  }

  lemma {:induction false} CallsAreKnown(calls: seq<UsageEvent>, e: UsageEvent)
    ensures Known(LogOf(calls), e) <==> Known(calls, e)
  {
    if calls != [] {
      var before, last := calls[..|calls| - 1], calls[|calls| - 1];
      CallsAreKnown(before, e);
      CallsAreKnown(before, last);
      if Known(calls, e) {
        var i :| 0 <= i < |calls| && Same(calls[i], e);
        if i < |before| {
          assert Same(before[i], e);
          var k :| 0 <= k < |LogOf(before)| && Same(LogOf(before)[k], e);
          assert Same(LogOf(calls)[k], e);
        } else if Known(LogOf(before), last) {
          var k :| 0 <= k < |LogOf(before)| && Same(LogOf(before)[k], last);
          assert Same(LogOf(calls)[k], e);
        } else {
          assert LogOf(calls)[|LogOf(before)|] == last;
        }
      }
      if Known(LogOf(calls), e) {
        var k :| 0 <= k < |LogOf(calls)| && Same(LogOf(calls)[k], e);
        if k < |LogOf(before)| {
          assert Same(LogOf(before)[k], e);
          var i :| 0 <= i < |before| && Same(before[i], e);
          assert Same(calls[i], e);
        }
      }
    }
  }

  /** Retries, wherever they come, leave the log as it would be without them. */
  lemma {:induction false} RetriesCountOnce(retried: seq<UsageEvent>, calls: seq<UsageEvent>)
    requires WithRetries(retried, calls)
    ensures LogOf(retried) == LogOf(calls)
    decreases |retried|
  {
    if retried != [] {
      var before, last := retried[..|retried| - 1], retried[|retried| - 1];
      if Known(before, last) && WithRetries(before, calls) {
        RetriesCountOnce(before, calls);
        CallsAreKnown(before, last);
      } else {
        RetriesCountOnce(before, calls[..|calls| - 1]);
      }
    }
  }

  // ----- Usage of a period -----

  predicate InPeriod(e: UsageEvent, org: string, start: int, end: int) {
    e.org == org && start <= e.createdAt < end
  }

  function Used(events: seq<UsageEvent>, org: string, meter: string, start: int, end: int): int {
    if events == [] then 0
    else
      var last := events[|events| - 1];
      Used(events[..|events| - 1], org, meter, start, end)
      + (if InPeriod(last, org, start, end) && last.meter == meter then last.quantity else 0)
  }

  function MetersUsed(events: seq<UsageEvent>, org: string, start: int, end: int): set<string> {
    set e | e in events && InPeriod(e, org, start, end) :: e.meter
  }

  /** `usage_for_period`: the sum per meter, for the meters that occur. */
  function UsageFor(events: seq<UsageEvent>, org: string, start: int, end: int): Usage {
    map m | m in MetersUsed(events, org, start, end) :: Used(events, org, m, start, end)
  }

  lemma {:induction false} UsedAdds(events: seq<UsageEvent>, org: string, m: string, a: int, b: int, c: int)
    requires a <= b <= c
    ensures Used(events, org, m, a, c) == Used(events, org, m, a, b) + Used(events, org, m, b, c)
  {
    if events != [] { UsedAdds(events[..|events| - 1], org, m, a, b, c); }
  }

  lemma {:induction false} UnusedIsZero(events: seq<UsageEvent>, org: string, m: string, a: int, b: int)
    requires m !in MetersUsed(events, org, a, b)
    ensures Used(events, org, m, a, b) == 0
  {
    if events != [] {
      var before, last := events[..|events| - 1], events[|events| - 1];
      assert last in events && forall e | e in before :: e in events;
      UnusedIsZero(before, org, m, a, b);
    }
  }

  /** Adjacent periods, as two sums per meter, make up the period over both. */
  lemma AdjacentPeriodsAdd(events: seq<UsageEvent>, org: string, a: int, b: int, c: int)
    requires a <= b <= c
    ensures UsageFor(events, org, a, c) == Plus(UsageFor(events, org, a, b), UsageFor(events, org, b, c))
  {
    var u, v, w := UsageFor(events, org, a, b), UsageFor(events, org, b, c), UsageFor(events, org, a, c);
    forall m | m in u.Keys + v.Keys
      ensures m in w && w[m] == (if m in u then u[m] else 0) + (if m in v then v[m] else 0)
    {
      UsedAdds(events, org, m, a, b, c);
      if m !in u { UnusedIsZero(events, org, m, a, b); }
      if m !in v { UnusedIsZero(events, org, m, b, c); }
    }
    assert w.Keys == u.Keys + v.Keys;
  }

  lemma UsedOneMore(events: seq<UsageEvent>, e: UsageEvent, org: string, m: string, a: int, b: int)
    ensures Used(events + [e], org, m, a, b)
         == Used(events, org, m, a, b)
            + (if e.org == org && a <= e.createdAt && e.createdAt < b && e.meter == m then e.quantity else 0)
  {
    assert (events + [e])[..|events|] == events;
  }

  /** An own event of the period counts on its own meter, with its quantity. */
  lemma OwnEventCounts(events: seq<UsageEvent>, e: UsageEvent, org: string, a: int, b: int)
    requires e.org == org && a <= e.createdAt && e.createdAt < b
    ensures var usage := UsageFor(events, org, a, b);
            UsageFor(events + [e], org, a, b)
            == usage[e.meter := (if e.meter in usage then usage[e.meter] else 0) + e.quantity]
  {
    var usage, usage' := UsageFor(events, org, a, b), UsageFor(events + [e], org, a, b);
    MetersOneMore(events, e, org, a, b);
    if e.meter !in usage { UnusedIsZero(events, org, e.meter, a, b); }
    forall m | m in usage' ensures usage'[m] == Used(events, org, m, a, b) + (if e.meter == m then e.quantity else 0) {
      UsedOneMore(events, e, org, m, a, b);
    }
    hide Used, MetersUsed;
  }

  lemma OtherEventCountsNothing(events: seq<UsageEvent>, e: UsageEvent, org: string, a: int, b: int)
    requires !(e.org == org && a <= e.createdAt && e.createdAt < b)
    ensures UsageFor(events + [e], org, a, b) == UsageFor(events, org, a, b)
  {
    MetersOneMore(events, e, org, a, b);
    var usage, usage' := UsageFor(events, org, a, b), UsageFor(events + [e], org, a, b);
    forall m | m in usage' ensures m in usage && usage'[m] == usage[m] {
      UsedOneMore(events, e, org, m, a, b);
    }
    hide Used, MetersUsed;
  }

  /** One more event counts for its own organization, in the period that holds its time, on its own
      meter, with its quantity; for every other organization and period the usage is what it was. */
  lemma EventCountsOnce(events: seq<UsageEvent>, e: UsageEvent, org: string, a: int, b: int)
    ensures var usage, usage' := UsageFor(events, org, a, b), UsageFor(events + [e], org, a, b);
            if e.org == org && a <= e.createdAt && e.createdAt < b
            then usage' == usage[e.meter := (if e.meter in usage then usage[e.meter] else 0) + e.quantity]
            else usage' == usage
  {
    hide UsageFor;
    if e.org == org && a <= e.createdAt && e.createdAt < b {
      OwnEventCounts(events, e, org, a, b);
    } else {
      OtherEventCountsNothing(events, e, org, a, b);
    }
  }

  lemma MetersOneMore(events: seq<UsageEvent>, e: UsageEvent, org: string, a: int, b: int)
    ensures MetersUsed(events + [e], org, a, b)
         == MetersUsed(events, org, a, b)
            + (if e.org == org && a <= e.createdAt && e.createdAt < b then {e.meter} else {})
  {
    assert forall x :: x in events + [e] <==> x in events || x == e;
  }

  /** The organization's own events. */
  function EventsOf(events: seq<UsageEvent>, org: string): seq<UsageEvent> {
    if events == [] then []
    else EventsOf(events[..|events| - 1], org)
         + (if events[|events| - 1].org == org then [events[|events| - 1]] else [])
  }

  lemma ForeignEventCountsNothing(events: seq<UsageEvent>, e: UsageEvent, org: string, a: int, b: int)
    requires e.org != org
    ensures UsageFor(events + [e], org, a, b) == UsageFor(events, org, a, b)
  {
    hide UsageFor;
    EventCountsOnce(events, e, org, a, b);
  }

  lemma SameUsageOneMore(events: seq<UsageEvent>, events': seq<UsageEvent>, e: UsageEvent, org: string, a: int, b: int)
    requires UsageFor(events, org, a, b) == UsageFor(events', org, a, b)
    ensures UsageFor(events + [e], org, a, b) == UsageFor(events' + [e], org, a, b)
  {
    hide UsageFor;
    EventCountsOnce(events, e, org, a, b);
    EventCountsOnce(events', e, org, a, b);
  }

  lemma EventsOfOneMore(events: seq<UsageEvent>, e: UsageEvent, org: string)
    ensures EventsOf(events + [e], org) == if e.org == org then EventsOf(events, org) + [e] else EventsOf(events, org)
  {
    assert (events + [e])[..|events|] == events;
  }

  /** Usage depends on the organization's own events and on no others. */
  lemma {:induction false} UsageIsOwn(events: seq<UsageEvent>, org: string, a: int, b: int)
    ensures UsageFor(EventsOf(events, org), org, a, b) == UsageFor(events, org, a, b)
  {
    if events != [] {
      var before, last := events[..|events| - 1], events[|events| - 1];
      UsageIsOwn(before, org, a, b);
      assert events == before + [last];
      hide UsageFor, EventsOf;
      EventsOfOneMore(before, last, org);
      if last.org == org {
        SameUsageOneMore(EventsOf(before, org), before, last, org, a, b);
      } else {
        ForeignEventCountsNothing(before, last, org, a, b);
      }
    }
  }

  /** So two logs that agree on an organization's events bill it the same. */
  lemma BillIsOwn(events: seq<UsageEvent>, events': seq<UsageEvent>, org: string, plan: string,
                  cards: map<string, RateCard>, a: int, b: int)
    requires EventsOf(events, org) == EventsOf(events', org)
    ensures UsageFor(events, org, a, b) == UsageFor(events', org, a, b)
    ensures Bill(plan, cards, UsageFor(events, org, a, b)) == Bill(plan, cards, UsageFor(events', org, a, b))
  {
    UsageIsOwn(events, org, a, b);
    UsageIsOwn(events', org, a, b);
  }

  /** The boundaries of consecutive periods. */
  predicate Consecutive(bounds: seq<int>) { forall i | 0 <= i < |bounds| - 1 :: bounds[i] <= bounds[i + 1] }

  /** The usage of a meter, period after period. */
  function UsedOver(events: seq<UsageEvent>, org: string, meter: string, bounds: seq<int>): int {
    if |bounds| < 2 then 0
    else Used(events, org, meter, bounds[0], bounds[1]) + UsedOver(events, org, meter, bounds[1..])
  }

  /** Closing period after period counts every event once: nothing twice, nothing lost at a bound. */
  lemma {:induction false} PeriodsCountOnce(events: seq<UsageEvent>, org: string, meter: string, bounds: seq<int>)
    requires Consecutive(bounds) && |bounds| >= 2
    ensures bounds[0] <= bounds[|bounds| - 1]
    ensures UsedOver(events, org, meter, bounds)
         == Used(events, org, meter, bounds[0], bounds[|bounds| - 1])
  {
    if |bounds| > 2 {
      PeriodsCountOnce(events, org, meter, bounds[1..]);
      UsedAdds(events, org, meter, bounds[0], bounds[1], bounds[|bounds| - 1]);
    } else {
      assert UsedOver(events, org, meter, bounds[1..]) == 0;
    }
  }

  /** Billing two adjacent periods apart never charges more overage than billing them as one. */
  lemma SplittingAPeriodNeverCostsMore(events: seq<UsageEvent>, org: string, card: RateCard, a: int, b: int, c: int)
    requires a <= b <= c && NonNegative(card) && forall e | e in events :: e.quantity >= 0
    ensures Total(card, UsageFor(events, org, a, b)) + Total(card, UsageFor(events, org, b, c)) - card.baseCents
         <= Total(card, UsageFor(events, org, a, c))
  {
    AdjacentPeriodsAdd(events, org, a, b, c);
    forall m ensures Used(events, org, m, a, b) >= 0 && Used(events, org, m, b, c) >= 0 {
      UsedNonNegative(events, org, m, a, b);
      UsedNonNegative(events, org, m, b, c);
    }
    OverageIsSuperadditive(card, UsageFor(events, org, a, b), UsageFor(events, org, b, c));
  }

  lemma {:induction false} UsedNonNegative(events: seq<UsageEvent>, org: string, m: string, a: int, b: int)
    requires forall e | e in events :: e.quantity >= 0
    ensures Used(events, org, m, a, b) >= 0
  {
    if events != [] { UsedNonNegative(events[..|events| - 1], org, m, a, b); }
  }

  lemma {:induction false} UsedConcat(events: seq<UsageEvent>, more: seq<UsageEvent>, org: string, m: string,
                                      a: int, b: int)
    ensures Used(events + more, org, m, a, b) == Used(events, org, m, a, b) + Used(more, org, m, a, b)
  {
    if more == [] {
      assert events + more == events;
    } else {
      UsedConcat(events, more[..|more| - 1], org, m, a, b);
      assert (events + more)[..|events + more| - 1] == events + more[..|more| - 1];
    }
  }

  lemma {:induction false} PositiveEventShows(events: seq<UsageEvent>, e: UsageEvent, org: string, a: int, b: int)
    requires (forall x | x in events :: x.quantity >= 0) && e in events && InPeriod(e, org, a, b) && e.quantity > 0
    ensures Used(events, org, e.meter, a, b) > 0
  {
    var before := events[..|events| - 1];
    if e in before {
      PositiveEventShows(before, e, org, a, b);
    } else {
      UsedNonNegative(before, org, e.meter, a, b);
    }
  }

  lemma {:induction false} NothingInPeriod(events: seq<UsageEvent>, org: string, m: string, a: int, b: int)
    requires forall e | e in events && InPeriod(e, org, a, b) :: e.quantity == 0
    ensures Used(events, org, m, a, b) == 0
  {
    if events != [] {
      var before, last := events[..|events| - 1], events[|events| - 1];
      assert last in events && forall e | e in before :: e in events;
      NothingInPeriod(before, org, m, a, b);
    }
  }

  /** Usage read at a close stays right exactly as long as no later event falls into the closed
      period: an ingest that commits after the read, stamped before the period's end, is in no
      invoice. */
  lemma ClosedUsageStaysRightIff(events: seq<UsageEvent>, later: seq<UsageEvent>, org: string, start: int, end: int)
    requires forall e | e in later :: e.quantity >= 0
    ensures (forall m :: Used(events + later, org, m, start, end) == Used(events, org, m, start, end))
       <==> (forall e | e in later && InPeriod(e, org, start, end) :: e.quantity == 0)
  {
    if forall e | e in later && InPeriod(e, org, start, end) :: e.quantity == 0 {
      forall m ensures Used(events + later, org, m, start, end) == Used(events, org, m, start, end) {
        UsedConcat(events, later, org, m, start, end);
        NothingInPeriod(later, org, m, start, end);
      }
    } else {
      var e :| e in later && InPeriod(e, org, start, end) && e.quantity != 0;
      PositiveEventShows(later, e, org, start, end);
      UsedConcat(events, later, org, e.meter, start, end);
      assert Used(events + later, org, e.meter, start, end) != Used(events, org, e.meter, start, end);
    }
  }

  // ----- Closing a period, by any number of concurrent or retried callers -----

  /** An invoice row, and the usage that its creator had read. */
  datatype Invoice = Invoice(org: string, start: int, end: int, plan: string, totalCents: int, usage: Usage)

  datatype Phase = Asked | Rated(usage: Usage) | Got(invoice: Invoice) | Raised | Gone
  datatype Closer = Closer(org: string, plan: string, start: int, end: int, phase: Phase)

  ghost function Bill(plan: string, cards: map<string, RateCard>, usage: Usage): int {
    if CardFor(plan, cards).Some? then Total(CardFor(plan, cards).value, usage) else 0
  }

  predicate IsInvoiced(invoices: seq<Invoice>, org: string, start: int) {
    exists i | 0 <= i < |invoices| :: invoices[i].org == org && invoices[i].start == start
  }

  datatype State = State(
    orgs: set<string>, cards: map<string, RateCard>,
    events: seq<UsageEvent>, invoices: seq<Invoice>, closers: map<nat, Closer>)
  {
    ghost predicate Invoiced(org: string, start: int) { IsInvoiced(invoices, org, start) }

    ghost function TotalOf(plan: string, usage: Usage): int { Bill(plan, cards, usage) }
  }

  datatype Step =
    | Ingest(event: UsageEvent)
    | Ask(c: nat, org: string, plan: string, start: int, end: int)
    | Read(c: nat)
    | Commit(c: nat)
    | Vanish(c: nat)

  ghost predicate Next(s: State, step: Step, s': State) {
    match step
    case Ingest(event) => s' == s.(events := Recorded(s.events, event))
    case Ask(c, org, plan, start, end) =>
      c !in s.closers && s' == s.(closers := s.closers[c := Closer(org, plan, start, end, Asked)])
    case Read(c) =>
      && c in s.closers && s.closers[c].phase.Asked?
      && var q := s.closers[c];
         s' == s.(closers := s.closers[c := q.(phase := Rated(UsageFor(s.events, q.org, q.start, q.end)))])
    case Commit(c) =>
      && c in s.closers && s.closers[c].phase.Rated?
      && var q := s.closers[c];
         var invoice := Invoice(q.org, q.start, q.end, q.plan, s.TotalOf(q.plan, q.phase.usage), q.phase.usage);
         if q.org !in s.orgs then s' == s.(closers := s.closers[c := q.(phase := Raised)])
         else if !s.Invoiced(q.org, q.start) then
           s' == s.(invoices := s.invoices + [invoice], closers := s.closers[c := q.(phase := Got(invoice))])
         else
           exists i | 0 <= i < |s.invoices| ::
             && s.invoices[i].org == q.org && s.invoices[i].start == q.start
             && s' == s.(closers := s.closers[c := q.(phase := Got(s.invoices[i]))])
    case Vanish(c) =>
      c in s.closers && s' == s.(closers := s.closers[c := s.closers[c].(phase := Gone)])
  }

  ghost predicate Moves(s: State, s': State) { exists step :: Next(s, step, s') }

  ghost predicate IsRun(states: seq<State>) {
    && states != []
    && states[0].events == [] && states[0].invoices == [] && states[0].closers == map[]
    && forall i | 0 <= i < |states| - 1 :: Moves(states[i], states[i + 1])
  }

  /** The usage was read from the log as it was at some moment. */
  ghost predicate WasRead(events: seq<UsageEvent>, org: string, start: int, end: int, usage: Usage) {
    exists n: nat :: n <= |events| && usage == UsageFor(events[..n], org, start, end)
  }

  ghost predicate Inv(s: State) {
    && (forall i, j | 0 <= i < j < |s.invoices| ::
          !(s.invoices[i].org == s.invoices[j].org && s.invoices[i].start == s.invoices[j].start))
    && (forall i | 0 <= i < |s.invoices| ::
          var v := s.invoices[i];
          && v.org in s.orgs && v.totalCents == s.TotalOf(v.plan, v.usage)
          && WasRead(s.events, v.org, v.start, v.end, v.usage))
    && (forall c | c in s.closers ::
          var q := s.closers[c];
          && (q.phase.Rated? ==> WasRead(s.events, q.org, q.start, q.end, q.phase.usage))
          && (q.phase.Got? ==>
                q.phase.invoice in s.invoices && q.phase.invoice.org == q.org && q.phase.invoice.start == q.start))
  }

  lemma ReadStaysRead(events: seq<UsageEvent>, e: UsageEvent, org: string, start: int, end: int, usage: Usage)
    requires WasRead(events, org, start, end, usage)
    ensures WasRead(Recorded(events, e), org, start, end, usage)
  {
    var n: nat :| n <= |events| && usage == UsageFor(events[..n], org, start, end);
    assert Recorded(events, e)[..n] == events[..n];
  }

  lemma IngestKeepsInv(s: State, event: UsageEvent)
    requires Inv(s)
    ensures Inv(s.(events := Recorded(s.events, event)))
  {
    var s' := s.(events := Recorded(s.events, event));
    forall org, start, end, usage | WasRead(s.events, org, start, end, usage)
      ensures WasRead(s'.events, org, start, end, usage)
    {
      ReadStaysRead(s.events, event, org, start, end, usage);
    }
    hide WasRead, Recorded, Bill;
  }

  lemma CommitKeepsInv(s: State, c: nat, s': State)
    requires Inv(s) && Next(s, Commit(c), s')
    ensures Inv(s') && s.invoices <= s'.invoices
  {
    hide WasRead, Bill;
    assert s'.closers[c].phase.Got? ==> s'.closers[c].phase.invoice in s'.invoices;
  }

  lemma StepKeepsInv(s: State, step: Step, s': State)
    requires Inv(s) && Next(s, step, s')
    ensures Inv(s') && s.invoices <= s'.invoices
  {
    match step
    case Ingest(event) => hide Inv; IngestKeepsInv(s, event);
    case Read(c) => hide Bill, UsageFor; assert s.events[..|s.events|] == s.events;
    case Commit(c) => hide Inv, Next; CommitKeepsInv(s, c, s');
    case _ => hide WasRead, Bill;
  }

  lemma {:induction false} RunsKeepInv(states: seq<State>)
    requires IsRun(states)
    ensures Inv(states[|states| - 1])
    ensures forall i | 0 <= i < |states| :: states[i].invoices <= states[|states| - 1].invoices
  {
    var n := |states| - 1;
    if n > 0 {
      var before := states[..n];
      assert IsRun(before);
      RunsKeepInv(before);
      assert Moves(states[n - 1], states[n]);
      var step :| Next(states[n - 1], step, states[n]);
      hide Next;
      StepKeepsInv(states[n - 1], step, states[n]);
      hide Inv;
      assert forall i | 0 <= i < n :: before[i] == states[i];
    }
  }

  /** However many closes of one period race or retry, all that get an invoice get the same one, for
      good, and its total is the rating of the usage that its creator read. */
  lemma ClosesConverge(states: seq<State>, i: nat, c: nat, c': nat)
    requires IsRun(states) && i < |states|
    requires var s, t := states[i], states[|states| - 1];
             && c in s.closers && s.closers[c].phase.Got? && c' in t.closers && t.closers[c'].phase.Got?
             && s.closers[c].org == t.closers[c'].org && s.closers[c].start == t.closers[c'].start
    ensures var s, t := states[i], states[|states| - 1];
            var v := t.closers[c'].phase.invoice;
            && s.closers[c].phase.invoice == v && v in t.invoices
            && v.totalCents == t.TotalOf(v.plan, v.usage)
            && WasRead(t.events, v.org, v.start, v.end, v.usage)
  {
    hide Next;
    assert IsRun(states[..i + 1]);
    RunsKeepInv(states[..i + 1]);
    RunsKeepInv(states);
    var s, t := states[i], states[|states| - 1];
    var v, v' := s.closers[c].phase.invoice, t.closers[c'].phase.invoice;
    assert v in s.invoices && v' in t.invoices;
    var k :| 0 <= k < |s.invoices| && s.invoices[k] == v;
    assert t.invoices[k] == v;
  }

  // ----- An ingest after the close -----

  /** A card with one meter at one cent, and the usage of one event. */
  ghost function PennyCard(): RateCard { RateCard(0, map["m" := MeterRate(0, 1)]) }

  lemma PennyTotal(usage: Usage)
    requires "m" in usage ==> usage["m"] >= 0
    ensures Total(PennyCard(), usage) == if "m" in usage then usage["m"] else 0
  {
    var price := Price(usage, PennyCard());
    SumSplits(price, {"m"}, "m");
    assert {"m"} - {"m"} == {};
    assert PennyCard().meters.Keys == {"m"};
  }

  /** Closer 0, asking for the period [0, 10) of organization "o", in phase `phase`. */
  ghost function Closing(phase: Phase, events: seq<UsageEvent>, invoices: seq<Invoice>): State {
    State({"o"}, map["free" := PennyCard()], events, invoices, map[0 := Closer("o", "free", 0, 10, phase)])
  }

  ghost function EmptyInvoice(): Invoice { Invoice("o", 0, 10, "free", 0, map[]) }

  lemma CloseWithoutUsage() returns (start: State)
    ensures start.events == [] && start.invoices == [] && start.closers == map[]
    ensures Moves(start, Closing(Asked, [], [])) && Moves(Closing(Asked, [], []), Closing(Rated(map[]), [], []))
    ensures Moves(Closing(Rated(map[]), [], []), Closing(Got(EmptyInvoice()), [], [EmptyInvoice()]))
  {
    start := Closing(Asked, [], []).(closers := map[]);
    assert Next(start, Ask(0, "o", "free", 0, 10), Closing(Asked, [], []));
    assert UsageFor([], "o", 0, 10) == map[];
    assert Next(Closing(Asked, [], []), Read(0), Closing(Rated(map[]), [], []));
    PennyTotal(map[]);
    assert Next(Closing(Rated(map[]), [], []), Commit(0), Closing(Got(EmptyInvoice()), [], [EmptyInvoice()]));
  }

  lemma LateUsage(e: UsageEvent)
    requires e.org == "o" && e.meter == "m" && 0 <= e.createdAt < 10
    ensures UsageFor([e], "o", 0, 10) == map["m" := e.quantity]
  {
    assert MetersUsed([e], "o", 0, 10) == {"m"};
    assert Used([e][..0], "o", "m", 0, 10) == 0;
  }

  lemma LateUsageIsRated(s: State, e: UsageEvent)
    requires e.org == "o" && e.meter == "m" && 0 <= e.createdAt < 10 && e.quantity >= 0
    requires s == Closing(Got(EmptyInvoice()), [e], [EmptyInvoice()])
    ensures s.TotalOf("free", UsageFor(s.events, "o", 0, 10)) == e.quantity
  {
    LateUsage(e);
    PennyTotal(map["m" := e.quantity]);
    hide Total;
  }

  lemma LateIngest(e: UsageEvent)
    ensures var closed := Closing(Got(EmptyInvoice()), [], [EmptyInvoice()]);
            var late := Closing(Got(EmptyInvoice()), [e], [EmptyInvoice()]);
            Moves(closed, late) && late.invoices == [EmptyInvoice()] && EmptyInvoice().totalCents == 0
  {
    assert Next(Closing(Got(EmptyInvoice()), [], [EmptyInvoice()]), Ingest(e),
                Closing(Got(EmptyInvoice()), [e], [EmptyInvoice()]));
  }

  lemma FiveStates(a: State, b: State, c: State, d: State, e: State)
    requires a.events == [] && a.invoices == [] && a.closers == map[]
    requires Moves(a, b) && Moves(b, c) && Moves(c, d) && Moves(d, e)
    ensures IsRun([a, b, c, d, e])
  {
    hide Moves;
  }

  /** Usage of any size that is stored after the close, with a time inside the closed period, is in no
      invoice: the period's invoice stays at nothing, while the period's usage is rated at `quantity`. */
  lemma LateIngestIsNeverBilled(at: int, quantity: nat) returns (states: seq<State>)
    requires 0 <= at < 10 && quantity > 0
    ensures IsRun(states)
    ensures var s := states[|states| - 1];
            && s.invoices == [EmptyInvoice()]
            && EmptyInvoice().totalCents == 0
            && s.TotalOf("free", UsageFor(s.events, "o", 0, 10)) == quantity
  {
    var e := UsageEvent("o", "m", quantity, "k", at);
    var start := CloseWithoutUsage();
    var late := Closing(Got(EmptyInvoice()), [e], [EmptyInvoice()]);
    LateIngest(e);
    LateUsageIsRated(late, e);
    var closed := Closing(Got(EmptyInvoice()), [], [EmptyInvoice()]);
    hide Moves, Total, Bill, UsageFor, State.TotalOf, Closing, EmptyInvoice, IsRun;
    FiveStates(start, Closing(Asked, [], []), Closing(Rated(map[]), [], []), closed, late);
    states := [start, Closing(Asked, [], []), Closing(Rated(map[]), [], []), closed, late];
  }

  // ----- The adapter -----

  datatype IngestResult = New | Duplicate | Failed

  class SqlMeteringService {
    const orgs: set<string>
    const cards: map<string, RateCard>
    var events: seq<UsageEvent>
    var invoices: seq<Invoice>

    /** The log holds each (org, key) once, the invoices each (org, start), and both only
        organizations that exist. */
    ghost predicate Valid()
      reads this
    {
      && (forall i, j | 0 <= i < j < |events| :: !Same(events[i], events[j]))
      && (forall i | 0 <= i < |events| :: events[i].org in orgs)
      && (forall i, j | 0 <= i < j < |invoices| ::
            !(invoices[i].org == invoices[j].org && invoices[i].start == invoices[j].start))
      && forall i | 0 <= i < |invoices| :: invoices[i].org in orgs
    }

    constructor (orgs: set<string>, cards: map<string, RateCard>)
      ensures Valid() && events == [] && invoices == [] && this.orgs == orgs && this.cards == cards
    {
      this.orgs, this.cards := orgs, cards;
      events, invoices := [], [];
    }

    method RecordUsage(e: UsageEvent) returns (result: IngestResult)
      requires Valid()
      modifies this`events
      ensures Valid()
      ensures result == Duplicate <==> Known(old(events), e)
      ensures result == Failed <==> e.org !in orgs
      ensures events == if e.org in orgs then Recorded(old(events), e) else old(events)
    {
      if e.org !in orgs {
        return Failed;
      } else if Known(events, e) {
        return Duplicate;
      }
      events := events + [e];
      return New;
    }

    /** `invoice_period`, nobody else closing: the lines are rated and summed, and a period that has
        an invoice keeps it, whatever plan and end this close was for.  None stands for the
        integrity error that no invoice explains. */
    method InvoicePeriod(org: string, plan: string, start: int, end: int) returns (invoice: Option<Invoice>)
      requires Valid()
      modifies this`invoices
      ensures Valid()
      ensures var usage := UsageFor(events, org, start, end);
              invoices == if org in orgs && !IsInvoiced(old(invoices), org, start)
                          then old(invoices) + [Invoice(org, start, end, plan, Bill(plan, cards, usage), usage)]
                          else old(invoices)
      ensures invoice.None? <==> org !in orgs
      ensures invoice.Some? ==>
                invoice.value in invoices && invoice.value.org == org && invoice.value.start == start
    {
      var usage := UsageFor(events, org, start, end);
      var lines := Rate(plan, usage, cards);
      var total := TotalCents(lines);
      if org !in orgs {
        return None;
      } else if IsInvoiced(invoices, org, start) {
        var i :| 0 <= i < |invoices| && invoices[i].org == org && invoices[i].start == start;
        return Some(invoices[i]);
      }
      var created := Invoice(org, start, end, plan, total, usage);
      invoices := invoices + [created];
      return Some(created);
    }
  }
}
