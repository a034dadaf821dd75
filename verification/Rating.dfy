/** The rating engine: a plan and a period's usage become invoice lines.

    `Rate` walks the meters in sorted order; its total is proved equal to a sum over the set of
    meters, which no order enters, and the laws of the tariff are proved on that sum. */
module Rating {
  import opened Http

  datatype MeterRate = MeterRate(included: int, overageCents: int)
  datatype RateCard = RateCard(baseCents: int, meters: map<string, MeterRate>)
  datatype Kind = Base | Overage
  datatype Line = Line(kind: Kind, meter: Option<string>, quantity: int, unitCents: int, amountCents: int)

  type Usage = map<string, int>

  const DEFAULT_PLAN := "free"

  // ----- Strings in code point order -----

  predicate Below(a: string, b: string) {
    b != [] && (a == [] || a[0] < b[0] || (a[0] == b[0] && Below(a[1..], b[1..])))
  }

  lemma {:induction false} BelowIsTotal(a: string, b: string)
    ensures a == b || Below(a, b) || Below(b, a)
    ensures !(Below(a, b) && Below(b, a)) && !Below(a, a)
  {
    if a != [] && b != [] {
      BelowIsTotal(a[1..], b[1..]);
      BelowIsTotal(a[1..], a[1..]);
      if a[0] == b[0] && a[1..] == b[1..] { assert a == [a[0]] + a[1..] == b; }
    } else if a != [] {
      BelowIsTotal(a[1..], a[1..]);
    }
  }

  lemma {:induction false} BelowIsTransitive(a: string, b: string, c: string)
    requires Below(a, b) && Below(b, c)
    ensures Below(a, c)
  {
    if a != [] && b != [] && c != [] && a[0] == b[0] == c[0] { BelowIsTransitive(a[1..], b[1..], c[1..]); }
  }

  /** It is the order of the first differing character, and a prefix comes first. */
  lemma {:induction false} BelowIsCodePointOrder(common: string, x: char, y: char, s: string, t: string)
    requires x < y
    ensures Below(common + [x] + s, common + [y] + t) && Below(common, common + [x] + s)
  {
    var a, b := common + [x] + s, common + [y] + t;
    if common != [] {
      BelowIsCodePointOrder(common[1..], x, y, s, t);
      assert a[1..] == common[1..] + [x] + s && b[1..] == common[1..] + [y] + t;
    }
  }

  predicate StrictlySorted(s: seq<string>) { forall i, j | 0 <= i < j < |s| :: Below(s[i], s[j]) }

  /** `sorted`, as insertion into the sorted rest. */
  function Insert(x: string, s: seq<string>): seq<string> {
    if s == [] then [x] else if Below(x, s[0]) then [x] + s else [s[0]] + Insert(x, s[1..])
  }

  lemma {:induction false} InsertAdds(x: string, s: seq<string>)
    ensures multiset(Insert(x, s)) == multiset(s) + multiset{x}
  {
    if s == [] {
      assert Insert(x, s) == [x];
    } else {
      InsertAdds(x, s[1..]);
      hide Below;
      assert multiset(s) == multiset{s[0]} + multiset(s[1..]) by { assert s == [s[0]] + s[1..]; }
    }
  }

  lemma {:induction false} InsertSorts(x: string, s: seq<string>)
    requires StrictlySorted(s) && x !in s
    ensures StrictlySorted(Insert(x, s))
  {
    hide Below;
    if s != [] {
      BelowIsTotal(x, s[0]);
      if Below(x, s[0]) {
        forall j | 0 <= j < |s| ensures Below(x, s[j]) {
          if j > 0 { BelowIsTransitive(x, s[0], s[j]); }
        }
      } else {
        InsertSorts(x, s[1..]);
        var rest := Insert(x, s[1..]);
        InsertAdds(x, s[1..]);
        forall j | 0 <= j < |rest| ensures Below(s[0], rest[j]) {
          assert rest[j] in multiset(rest);
          if rest[j] != x { var k :| 0 <= k < |s[1..]| && s[1..][k] == rest[j]; assert s[k + 1] == rest[j]; }
        }
      }
    }
  }

  /** The meters of a card in sorted order. */
  method Sorted(meters: set<string>) returns (s: seq<string>)
    ensures StrictlySorted(s) && multiset(s) == multiset(meters)
  {
    s := [];
    var left := meters;
    while left != {}
      invariant left <= meters && StrictlySorted(s) && multiset(s) == multiset(meters - left)
      decreases left
    {
      var m :| m in left;
      assert m !in multiset(s);
      InsertSorts(m, s);
      InsertAdds(m, s);
      s, left := Insert(m, s), left - {m};
    }
    assert meters - left == meters;
  }

  // ----- The tariff -----

  function Over(usage: Usage, meter: string, rate: MeterRate): int {
    var used := if meter in usage then usage[meter] else 0;
    if used > rate.included then used - rate.included else 0
  }

  function Charge(usage: Usage, card: RateCard, meter: string): int
    requires meter in card.meters
  {
    Over(usage, meter, card.meters[meter]) * card.meters[meter].overageCents
  }

  /** The sum of a price over a set of meters, in whatever order. */
  ghost function Sum(price: string -> int, meters: set<string>): int {
    if meters == {} then 0 else var m :| m in meters; price(m) + Sum(price, meters - {m})
  }

  lemma {:induction false} SumSplits(price: string -> int, meters: set<string>, m: string)
    requires m in meters
    ensures Sum(price, meters) == price(m) + Sum(price, meters - {m})
  {
    var first :| first in meters && Sum(price, meters) == price(first) + Sum(price, meters - {first});
    if first != m {
      SumSplits(price, meters - {first}, m);
      SumSplits(price, meters - {m}, first);
      assert meters - {first} - {m} == meters - {m} - {first};
    }
  }

  /** The overage price of one meter on a card; nothing for meters the card does not list. */
  function Price(usage: Usage, card: RateCard): string -> int {
    m => if m in card.meters then Charge(usage, card, m) else 0
  }

  /** The invoice total in closed form: the base and every meter's overage. */
  ghost function Total(card: RateCard, usage: Usage): int {
    card.baseCents + Sum(Price(usage, card), card.meters.Keys)
  }

  // ----- The engine -----

  function CardFor(plan: string, cards: map<string, RateCard>): Option<RateCard> {
    if plan in cards then Some(cards[plan])
    else if DEFAULT_PLAN in cards then Some(cards[DEFAULT_PLAN])
    else None
  }

  function TotalCents(lines: seq<Line>): int {
    if lines == [] then 0 else TotalCents(lines[..|lines| - 1]) + lines[|lines| - 1].amountCents
  }

  lemma TotalOfOneMore(lines: seq<Line>, line: Line)
    ensures TotalCents(lines + [line]) == TotalCents(lines) + line.amountCents
  {
    assert (lines + [line])[..|lines|] == lines;
  }

  /** An overage line says what it charges for, and only meters over their quota at a price have one. */
  predicate IsOverage(line: Line, card: RateCard, usage: Usage) {
    && line.kind == Overage && line.meter.Some? && line.meter.value in card.meters
    && var rate := card.meters[line.meter.value];
       && line.quantity == Over(usage, line.meter.value, rate) && line.quantity > 0
       && line.unitCents == rate.overageCents && rate.overageCents != 0
       && line.amountCents == line.quantity * line.unitCents
  }

  /** The lines of an invoice: base first, if there is one, then overages in strict meter order. */
  predicate WellFormed(lines: seq<Line>, card: RateCard, usage: Usage) {
    var n := if card.baseCents != 0 then 1 else 0;
    && n <= |lines|
    && (n == 1 ==> lines[0] == Line(Base, None, 1, card.baseCents, card.baseCents))
    && (forall i | n <= i < |lines| :: IsOverage(lines[i], card, usage))
    && (forall i, j | n <= i < j < |lines| :: Below(lines[i].meter.value, lines[j].meter.value))
  }

  /** No chargeable meter in `done` is missing. */
  ghost predicate Complete(lines: seq<Line>, card: RateCard, usage: Usage, done: set<string>)
    requires done <= card.meters.Keys
  {
    forall m | m in done && Charge(usage, card, m) != 0 :: exists line :: line in lines && line.meter == Some(m)
  }

  predicate Within(lines: seq<Line>, done: set<string>) {
    forall line | line in lines && line.meter.Some? :: line.meter.value in done
  }

  ghost predicate AddsUp(lines: seq<Line>, card: RateCard, usage: Usage, done: set<string>) {
    TotalCents(lines) == card.baseCents + Sum(Price(usage, card), done)
  }

  /** The lines are right for the meters in `done`. */
  ghost predicate RightFor(lines: seq<Line>, card: RateCard, usage: Usage, done: set<string>) {
    && done <= card.meters.Keys
    && WellFormed(lines, card, usage) && Within(lines, done)
    && Complete(lines, card, usage, done) && AddsUp(lines, card, usage, done)
  }

  /** The line for one meter, if it is over its quota and has a price. */
  function LineFor(meter: string, card: RateCard, usage: Usage): seq<Line>
    requires meter in card.meters
  {
    var over, cents := Over(usage, meter, card.meters[meter]), card.meters[meter].overageCents;
    if over != 0 && cents != 0 then [Line(Overage, Some(meter), over, cents, over * cents)] else []
  }

  lemma OneMoreLine(lines: seq<Line>, card: RateCard, usage: Usage, done: set<string>, line: Line)
    requires RightFor(lines, card, usage, done) && IsOverage(line, card, usage)
    requires forall m | m in done :: Below(m, line.meter.value)
    ensures WellFormed(lines + [line], card, usage)
  {
    hide Below, Sum, TotalCents, Charge;
    var n := if card.baseCents != 0 then 1 else 0;
    assert forall i | n <= i < |lines| :: lines[i] in lines && lines[i].meter.value in done;
  }

  lemma OneMoreListed(lines: seq<Line>, more: seq<Line>, card: RateCard, usage: Usage, done: set<string>, meter: string)
    requires done <= card.meters.Keys && Complete(lines, card, usage, done) && Within(lines, done)
    requires meter in card.meters && more == LineFor(meter, card, usage)
    ensures Complete(lines + more, card, usage, done + {meter}) && Within(lines + more, done + {meter})
  {
    forall m | m in done + {meter} && Charge(usage, card, m) != 0
      ensures exists line :: line in lines + more && line.meter == Some(m)
    {
      if m in done {
        var line :| line in lines && line.meter == Some(m);
        assert line in lines + more;
      } else {
        assert more[0] in lines + more;
      }
    }
  }

  lemma OneMoreAdded(lines: seq<Line>, card: RateCard, usage: Usage, done: set<string>, meter: string)
    requires AddsUp(lines, card, usage, done) && meter in card.meters && meter !in done
    ensures AddsUp(lines + LineFor(meter, card, usage), card, usage, done + {meter})
  {
    var more := LineFor(meter, card, usage);
    SumSplits(Price(usage, card), done + {meter}, meter);
    assert done + {meter} - {meter} == done;
    if more == [] {
      assert lines + more == lines;
    } else {
      TotalOfOneMore(lines, more[0]);
    }
  }

  lemma OneMoreMeter(lines: seq<Line>, card: RateCard, usage: Usage, done: set<string>, meter: string)
    requires RightFor(lines, card, usage, done) && meter in card.meters && meter !in done
    requires forall m | m in done :: Below(m, meter)
    ensures RightFor(lines + LineFor(meter, card, usage), card, usage, done + {meter})
  {
    var more := LineFor(meter, card, usage);
    OneMoreAdded(lines, card, usage, done, meter);
    OneMoreListed(lines, more, card, usage, done, meter);
    hide WellFormed, Within, Complete, AddsUp, Below;
    if more == [] {
      assert lines + more == lines;
    } else {
      OneMoreLine(lines, card, usage, done, more[0]);
    }
  }

  lemma RightForAllMeters(lines: seq<Line>, card: RateCard, usage: Usage)
    requires RightFor(lines, card, usage, card.meters.Keys)
    ensures WellFormed(lines, card, usage) && TotalCents(lines) == Total(card, usage)
    ensures forall m | m in card.meters && Charge(usage, card, m) != 0 ::
              exists line :: line in lines && line.meter == Some(m)
  {
  }

  lemma BaseLineIsRight(card: RateCard, usage: Usage)
    ensures var base := Line(Base, None, 1, card.baseCents, card.baseCents);
            RightFor(if card.baseCents != 0 then [] + [base] else [], card, usage, {})
  {
    TotalOfOneMore([], Line(Base, None, 1, card.baseCents, card.baseCents));
  }

  /** `rate`: the loop's lines are well formed, leave no chargeable meter out, and add up to the
      closed form. */
  method Rate(plan: string, usage: Usage, cards: map<string, RateCard>) returns (lines: seq<Line>)
    ensures CardFor(plan, cards).None? ==> lines == []
    ensures CardFor(plan, cards).Some? ==> var card := CardFor(plan, cards).value;
              && WellFormed(lines, card, usage)
              && TotalCents(lines) == Total(card, usage)
              && (forall m | m in card.meters && Charge(usage, card, m) != 0 ::
                    exists line :: line in lines && line.meter == Some(m))
    ensures plan in cards ==> TotalCents(lines) == Total(cards[plan], usage)
    ensures plan !in cards && "free" in cards ==> TotalCents(lines) == Total(cards["free"], usage)
    ensures plan !in cards && "free" !in cards ==> lines == []
  {
    lines := [];
    var card := CardFor(plan, cards);
    if card.None? { return; }
    lines := RateAgainst(card.value, usage);
    RightForAllMeters(lines, card.value, usage);
  }

  method RateAgainst(card: RateCard, usage: Usage) returns (lines: seq<Line>)
    ensures RightFor(lines, card, usage, card.meters.Keys)
  {
    lines := [];
    BaseLineIsRight(card, usage);
    hide RightFor, Below, WellFormed, TotalCents, Sum, Charge;
    if card.baseCents != 0 {
      lines := lines + [Line(Base, None, 1, card.baseCents, card.baseCents)];
    }
    var meters := Sorted(card.meters.Keys);
    assert forall m :: m in meters <==> m in multiset(meters);
    assert SetOf(meters[..0]) == {};
    for i := 0 to |meters|
      invariant RightFor(lines, card, usage, SetOf(meters[..i]))
    {
      var meter := meters[i];
      assert meter in meters;
      var rate := card.meters[meter];
      var used := if meter in usage then usage[meter] else 0;
      var over := if used - rate.included > 0 then used - rate.included else 0;
      MeterIsNew(meters, i);
      OneMoreMeter(lines, card, usage, SetOf(meters[..i]), meter);
      var more := [];
      if over != 0 && rate.overageCents != 0 {
        var amount := over * rate.overageCents;
        more := [Line(Overage, Some(meter), over, rate.overageCents, amount)];
      }
      assert more == LineFor(meter, card, usage);
      lines := lines + more;
    }
    assert meters[..|meters|] == meters && SetOf(meters) == card.meters.Keys;
  }

  function SetOf(s: seq<string>): set<string> { set m | m in s }

  /** A strictly sorted list has each meter after all the ones before it, and only once. */
  lemma MeterIsNew(meters: seq<string>, i: nat)
    requires StrictlySorted(meters) && i < |meters|
    ensures forall m | m in SetOf(meters[..i]) :: Below(m, meters[i])
    ensures meters[i] !in SetOf(meters[..i])
    ensures SetOf(meters[..i + 1]) == SetOf(meters[..i]) + {meters[i]}
  {
    BelowIsTotal(meters[i], meters[i]);
    assert meters[..i + 1] == meters[..i] + [meters[i]];
  }

  // ----- The laws of the tariff -----

  predicate NonNegative(card: RateCard) {
    && card.baseCents >= 0
    && forall m | m in card.meters :: card.meters[m].included >= 0 && card.meters[m].overageCents >= 0
  }

  predicate AtMost(u: Usage, v: Usage) {
    forall m | m in u :: u[m] <= (if m in v then v[m] else 0)
  }

  predicate NoneNegative(u: Usage) { forall m | m in u :: u[m] >= 0 }

  /** Usage of two stretches of time together. */
  function Plus(u: Usage, v: Usage): Usage {
    map m | m in u.Keys + v.Keys :: (if m in u then u[m] else 0) + (if m in v then v[m] else 0)
  }

  lemma {:induction false} SumMonotone(p: string -> int, q: string -> int, meters: set<string>)
    requires forall m | m in meters :: p(m) <= q(m)
    ensures Sum(p, meters) <= Sum(q, meters)
  {
    if meters != {} {
      var m :| m in meters;
      SumSplits(p, meters, m);
      SumSplits(q, meters, m);
      SumMonotone(p, q, meters - {m});
    }
  }

  lemma {:induction false} SumAdds(p: string -> int, q: string -> int, pq: string -> int, meters: set<string>)
    requires forall m | m in meters :: pq(m) == p(m) + q(m)
    ensures Sum(pq, meters) == Sum(p, meters) + Sum(q, meters)
  {
    if meters != {} {
      var m :| m in meters;
      SumSplits(p, meters, m);
      SumSplits(q, meters, m);
      SumSplits(pq, meters, m);
      SumAdds(p, q, pq, meters - {m});
    }
  }

  lemma TimesMonotone(a: int, b: int, c: int)
    requires a <= b && c >= 0
    ensures a * c <= b * c
  {
  }

  /** More usage never costs less. */
  lemma TotalIsMonotone(card: RateCard, u: Usage, v: Usage)
    requires NonNegative(card) && NoneNegative(v) && AtMost(u, v)
    ensures Total(card, u) <= Total(card, v)
  {
    var p, q := Price(u, card), Price(v, card);
    forall m | m in card.meters.Keys
      ensures p(m) <= q(m)
    {
      TimesMonotone(Over(u, m, card.meters[m]), Over(v, m, card.meters[m]), card.meters[m].overageCents);
    }
    SumMonotone(p, q, card.meters.Keys);
  }

  lemma Distributes(a: int, b: int, c: int)
    ensures (a + b) * c == a * c + b * c
  {
  }

  lemma OverIsSuperadditive(u: Usage, v: Usage, m: string, rate: MeterRate)
    requires NoneNegative(u) && NoneNegative(v) && rate.included >= 0
    ensures Over(u, m, rate) + Over(v, m, rate) <= Over(Plus(u, v), m, rate)
  {
  }

  lemma PriceIsSuperadditive(card: RateCard, u: Usage, v: Usage, m: string)
    requires NonNegative(card) && NoneNegative(u) && NoneNegative(v) && m in card.meters
    ensures Charge(u, card, m) + Charge(v, card, m) <= Charge(Plus(u, v), card, m)
  {
    var rate := card.meters[m];
    OverIsSuperadditive(u, v, m, rate);
    hide Over, Plus;
    Distributes(Over(u, m, rate), Over(v, m, rate), rate.overageCents);
    TimesMonotone(Over(u, m, rate) + Over(v, m, rate), Over(Plus(u, v), m, rate), rate.overageCents);
  }

  /** Splitting a period never costs more: the quota is granted to each part. */
  lemma OverageIsSuperadditive(card: RateCard, u: Usage, v: Usage)
    requires NonNegative(card) && NoneNegative(u) && NoneNegative(v)
    ensures Total(card, u) - card.baseCents + (Total(card, v) - card.baseCents)
         <= Total(card, Plus(u, v)) - card.baseCents
  {
    var p, q, both := Price(u, card), Price(v, card), Price(Plus(u, v), card);
    var sum: string -> int := m => p(m) + q(m);
    hide Sum, Charge, Plus;
    forall m | m in card.meters.Keys
      ensures sum(m) <= both(m)
    {
      PriceIsSuperadditive(card, u, v, m);
    }
    SumMonotone(sum, both, card.meters.Keys);
    SumAdds(p, q, sum, card.meters.Keys);
  }

  lemma {:induction false} SumOfNothing(p: string -> int, meters: set<string>)
    requires forall m | m in meters :: p(m) == 0
    ensures Sum(p, meters) == 0
  {
    if meters != {} {
      var m :| m in meters;
      SumSplits(p, meters, m);
      SumOfNothing(p, meters - {m});
    }
  }

  /** With no usage a card costs its base. */
  lemma NothingUsedCostsBase(card: RateCard)
    requires forall m | m in card.meters :: card.meters[m].included >= 0
    ensures Total(card, map[]) == card.baseCents
  {
    forall m | m in card.meters.Keys ensures Price(map[], card)(m) == 0 {
      assert Over(map[], m, card.meters[m]) == 0;
    }
    SumOfNothing(Price(map[], card), card.meters.Keys);
  }

  lemma {:induction false} SumSame(p: string -> int, q: string -> int, meters: set<string>)
    requires forall m | m in meters :: p(m) == q(m)
    ensures Sum(p, meters) == Sum(q, meters)
  {
    if meters != {} {
      var m :| m in meters;
      SumSplits(p, meters, m);
      SumSplits(q, meters, m);
      SumSame(p, q, meters - {m});
    }
  }

  /** One more unit of a meter costs its overage price once the quota is used up, and nothing before;
      a meter that is not on the card costs nothing at all. */
  lemma OneMoreUnit(card: RateCard, usage: Usage, meter: string, used: int)
    requires meter in usage && usage[meter] == used
    ensures Total(card, usage[meter := used + 1])
         == Total(card, usage) + (if meter in card.meters && used >= card.meters[meter].included
                                  then card.meters[meter].overageCents else 0)
  {
    var p, q := Price(usage, card), Price(usage[meter := used + 1], card);
    var meters := card.meters.Keys;
    if meter in meters {
      SumSplits(p, meters, meter);
      SumSplits(q, meters, meter);
      SumSame(p, q, meters - {meter});
      UnitPrice(usage, meter, card.meters[meter], used);
    } else {
      SumSame(p, q, meters);
    }
  }

  lemma UnitPrice(usage: Usage, meter: string, rate: MeterRate, used: int)
    requires meter in usage && usage[meter] == used
    ensures Over(usage[meter := used + 1], meter, rate) * rate.overageCents
         == Over(usage, meter, rate) * rate.overageCents + (if used >= rate.included then rate.overageCents else 0)
  {
    var over, over' := Over(usage, meter, rate), Over(usage[meter := used + 1], meter, rate);
    if used >= rate.included {
      assert over' == over + 1;
      Distributes(over, 1, rate.overageCents);
    }
  }

  /** What `v` costs at the unit price, with no quota. */
  function AtUnitPrice(v: Usage, card: RateCard): string -> int {
    m => if m in card.meters then (if m in v then v[m] else 0) * card.meters[m].overageCents else 0
  }

  /** Extra usage never costs more than its unit price. */
  lemma ExtraUsageIsBounded(card: RateCard, u: Usage, v: Usage)
    requires NonNegative(card) && NoneNegative(u) && NoneNegative(v)
    ensures Total(card, Plus(u, v)) <= Total(card, u) + Sum(AtUnitPrice(v, card), card.meters.Keys)
  {
    var p, q, both := Price(u, card), AtUnitPrice(v, card), Price(Plus(u, v), card);
    var sum: string -> int := m => p(m) + q(m);
    forall m | m in card.meters.Keys
      ensures both(m) <= sum(m)
    {
      var rate := card.meters[m];
      TimesMonotone(Over(Plus(u, v), m, rate), Over(u, m, rate) + (if m in v then v[m] else 0), rate.overageCents);
    }
    SumMonotone(both, sum, card.meters.Keys);
    SumAdds(p, q, sum, card.meters.Keys);
  }
}
