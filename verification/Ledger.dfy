/** The prepaid wallet: guarded debits, idempotent top-ups and the ledger that records them.

    `Charge` and `Credited` are the two operations as one atomic transaction each.  The step system
    below them takes the transactions apart into statements, with row locks, reserved keys,
    rollbacks and stale invoice objects.  Every run of it is proved to commit what some serial
    history of atomic operations commits; the one extra operation in it is a refusal that comes late,
    on a stale invoice object. */
module Ledger {
  import opened Http

  datatype Status = Open | Paid | Uncollectible
  datatype Invoice = Invoice(org: string, totalCents: int, status: Status)
  datatype Entry = Entry(org: string, delta: int, key: string, invoice: Option<string>)

  datatype Db = Db(wallets: map<string, int>, ledger: seq<Entry>, invoices: map<string, Invoice>) {
    /** The unique index on the ledger's keys. */
    predicate HasKey(key: string) { exists i | 0 <= i < |ledger| :: ledger[i].key == key }

    /** The invoice was debited. */
    predicate HasDebit(id: string) { exists i | 0 <= i < |ledger| :: ledger[i].invoice == Some(id) }

    /** A top-up has taken the key of the invoice's debit. */
    predicate Usurped(id: string) {
      exists i | 0 <= i < |ledger| :: ledger[i].key == InvoiceKey(id) && ledger[i].invoice.None?
    }

    predicate Covers(org: string, cents: int) { org in wallets && wallets[org] >= cents }

    function Balance(org: string): int { if org in wallets then wallets[org] else 0 }

    function Marked(id: string, status: Status): Db {
      if id in invoices then this.(invoices := invoices[id := invoices[id].(status := status)]) else this
    }

    function Posted(entry: Entry, balance: int): Db {
      this.(wallets := wallets[entry.org := balance], ledger := ledger + [entry])
    }
  }

  const PREFIX := "invoice:"

  function InvoiceKey(id: string): string { PREFIX + id }

  predicate IsInvoiceKey(key: string) { PREFIX <= key }

  function DebitOf(id: string, v: Invoice): Entry { Entry(v.org, -v.totalCents, InvoiceKey(id), Some(id)) }

  // ----- The two operations, each as one transaction -----

  /** `charge_invoice` by a caller that holds the invoice as `view`, which may be stale. */
  function Charge(db: Db, id: string, view: Invoice): Db {
    if view.status != Open then db
    else if view.totalCents == 0 then db.Marked(id, Paid)
    else if !db.Covers(view.org, view.totalCents) then db.Marked(id, Uncollectible)
    else if db.HasKey(InvoiceKey(id)) then db
    else db.Posted(DebitOf(id, view), db.wallets[view.org] - view.totalCents).Marked(id, Paid)
  }

  /** `top_up`: a used key, or a first wallet created beside one, leaves nothing behind. */
  function Credited(db: Db, org: string, cents: int, key: string): Db {
    if db.HasKey(key) then db
    else db.Posted(Entry(org, cents, key, None), db.Balance(org) + cents)
  }

  /** One atomic operation, and the database after a serial history of them. */
  datatype Op =
    | OpIssue(id: string, org: string, cents: int)
    | OpCharge(id: string, view: Invoice)
    | OpRefuse(id: string)
    | OpTopUp(org: string, cents: int, key: string)

  function Apply(db: Db, op: Op): Db {
    match op
    case OpIssue(id, org, cents) => db.(invoices := db.invoices[id := Invoice(org, cents, Open)])
    case OpCharge(id, view) => Charge(db, id, view)
    case OpRefuse(id) => db.Marked(id, Uncollectible)
    case OpTopUp(org, cents, key) => Credited(db, org, cents, key)
  }

  function After(history: seq<Op>): Db {
    if history == [] then Db(map[], [], map[])
    else Apply(After(history[..|history| - 1]), history[|history| - 1])
  }

  // ----- The books -----

  function Sum(ledger: seq<Entry>, org: string): int {
    if ledger == [] then 0
    else Sum(ledger[..|ledger| - 1], org)
         + (if ledger[|ledger| - 1].org == org then ledger[|ledger| - 1].delta else 0)
  }

  function ToppedUp(ledger: seq<Entry>, org: string): int {
    if ledger == [] then 0
    else
      var e := ledger[|ledger| - 1];
      ToppedUp(ledger[..|ledger| - 1], org) + (if e.org == org && e.invoice.None? then e.delta else 0)
  }

  /** The invoice totals that were debited from the wallet of `org`. */
  function Debited(ledger: seq<Entry>, invoices: map<string, Invoice>, org: string): int {
    if ledger == [] then 0
    else
      var e := ledger[|ledger| - 1];
      Debited(ledger[..|ledger| - 1], invoices, org)
      + (if e.org == org && e.invoice.Some? && e.invoice.value in invoices
         then invoices[e.invoice.value].totalCents else 0)
  }

  ghost predicate Balanced(db: Db) {
    && (forall org | org in db.wallets :: db.wallets[org] == Sum(db.ledger, org) && db.wallets[org] >= 0)
    && (forall i | 0 <= i < |db.ledger| :: db.ledger[i].org in db.wallets)
  }

  /** Each key once; and an entry for an invoice is that invoice's debit, under its key. */
  ghost predicate Keyed(db: Db) {
    && (forall i, j | 0 <= i < j < |db.ledger| :: db.ledger[i].key != db.ledger[j].key)
    && (forall i | 0 <= i < |db.ledger| ::
          var e := db.ledger[i];
          e.invoice.Some? ==>
            e.invoice.value in db.invoices && e == DebitOf(e.invoice.value, db.invoices[e.invoice.value]))
  }

  ghost predicate PaidMeansDebited(db: Db) {
    forall id | id in db.invoices && db.invoices[id].status == Paid && db.invoices[id].totalCents != 0 ::
      DebitOf(id, db.invoices[id]) in db.ledger
  }

  ghost predicate Books(db: Db) { Balanced(db) && Keyed(db) && PaidMeansDebited(db) }

  predicate SameInvoice(a: Invoice, b: Invoice) { a.org == b.org && a.totalCents == b.totalCents }

  lemma PostedSums(ledger: seq<Entry>, e: Entry, org: string)
    ensures Sum(ledger + [e], org) == Sum(ledger, org) + (if e.org == org then e.delta else 0)
  {
    assert (ledger + [e])[..|ledger|] == ledger;
  }

  lemma {:induction false} NothingPosted(ledger: seq<Entry>, org: string)
    requires forall i | 0 <= i < |ledger| :: ledger[i].org != org
    ensures Sum(ledger, org) == 0
  {
    if ledger != [] { NothingPosted(ledger[..|ledger| - 1], org); }
  }

  lemma PostingKeepsBalance(db: Db, e: Entry)
    requires Balanced(db) && db.Balance(e.org) + e.delta >= 0
    ensures Balanced(db.Posted(e, db.Balance(e.org) + e.delta))
  {
    var db' := db.Posted(e, db.Balance(e.org) + e.delta);
    forall org | org in db'.wallets
      ensures db'.wallets[org] == Sum(db'.ledger, org) && db'.wallets[org] >= 0
    {
      PostedSums(db.ledger, e, org);
      if org !in db.wallets { NothingPosted(db.ledger, org); }
    }
  }

  lemma InvoiceKeysAreApart(id: string, id': string)
    ensures IsInvoiceKey(InvoiceKey(id))
    ensures InvoiceKey(id) == InvoiceKey(id') ==> id == id'
  {
    assert InvoiceKey(id)[|PREFIX|..] == id && InvoiceKey(id')[|PREFIX|..] == id';
  }

  lemma MarkingKeepsBooks(db: Db, id: string, status: Status)
    requires Books(db) && id in db.invoices
    requires status == Paid && db.invoices[id].totalCents != 0 ==> DebitOf(id, db.invoices[id]) in db.ledger
    ensures Books(db.Marked(id, status))
  {
  }

  lemma DebitKeepsBooks(db: Db, id: string)
    requires Books(db) && id in db.invoices
    requires var v := db.invoices[id]; db.Covers(v.org, v.totalCents) && !db.HasKey(InvoiceKey(id))
    ensures var v := db.invoices[id];
            Books(db.Posted(DebitOf(id, v), db.wallets[v.org] - v.totalCents).Marked(id, Paid))
  {
    var v := db.invoices[id];
    var db' := db.Posted(DebitOf(id, v), db.wallets[v.org] - v.totalCents);
    PostingKeepsBalance(db, DebitOf(id, v));
    assert Keyed(db') && PaidMeansDebited(db');
    assert db'.ledger[|db.ledger|] == DebitOf(id, v);
    MarkingKeepsBooks(db', id, Paid);
  }

  lemma ChargeKeepsBooks(db: Db, id: string, view: Invoice)
    requires Books(db) && id in db.invoices && SameInvoice(view, db.invoices[id])
    ensures Books(Charge(db, id, view))
  {
    hide Balanced, Keyed, PaidMeansDebited, Books;
    var v := db.invoices[id];
    if view.status == Open {
      if v.totalCents == 0 || !db.Covers(v.org, v.totalCents) {
        MarkingKeepsBooks(db, id, if v.totalCents == 0 then Paid else Uncollectible);
      } else if !db.HasKey(InvoiceKey(id)) {
        DebitKeepsBooks(db, id);
      }
    }
  }

  lemma CreditKeepsKeys(db: Db, e: Entry, balance: int)
    requires Keyed(db) && PaidMeansDebited(db) && !db.HasKey(e.key) && e.invoice.None?
    ensures Keyed(db.Posted(e, balance)) && PaidMeansDebited(db.Posted(e, balance))
  {
    hide DebitOf;
    assert forall x | x in db.ledger :: x in db.Posted(e, balance).ledger;
  }

  lemma CreditKeepsBooks(db: Db, org: string, cents: int, key: string)
    requires Books(db) && cents > 0
    ensures Books(Credited(db, org, cents, key))
  {
    BalancesAreNotNegative(db, org);
    hide Balanced, Keyed, PaidMeansDebited, Db.HasKey;
    if !db.HasKey(key) {
      var e := Entry(org, cents, key, None);
      PostingKeepsBalance(db, e);
      CreditKeepsKeys(db, e, db.Balance(org) + cents);
    }
  }

  lemma BalancesAreNotNegative(db: Db, org: string)
    requires Balanced(db)
    ensures db.Balance(org) >= 0
  {
  }

  /** Conservation: what was credited is what is left plus what was debited for invoices. */
  lemma {:induction false} CreditsAreBalancePlusDebits(ledger: seq<Entry>, invoices: map<string, Invoice>, org: string)
    requires forall i | 0 <= i < |ledger| && ledger[i].invoice.Some? ::
               var id := ledger[i].invoice.value; id in invoices && ledger[i] == DebitOf(id, invoices[id])
    ensures ToppedUp(ledger, org) == Sum(ledger, org) + Debited(ledger, invoices, org)
  {
    if ledger != [] { CreditsAreBalancePlusDebits(ledger[..|ledger| - 1], invoices, org); }
  }

  /** An entry under an invoice's key is that invoice's debit, or a top-up that took the key: one of
      the two, and only one. */
  lemma KeyIsDebitIffNotUsurped(db: Db, id: string)
    requires Books(db)
    ensures db.HasKey(InvoiceKey(id)) <==> db.HasDebit(id) || db.Usurped(id)
    ensures !(db.HasDebit(id) && db.Usurped(id))
    ensures id in db.invoices ==>
              ((forall e | e in db.ledger && e.key == InvoiceKey(id) :: e == DebitOf(id, db.invoices[id]))
               <==> !db.Usurped(id))
  {
    forall i | 0 <= i < |db.ledger|
      ensures db.ledger[i].invoice == Some(id) <==> db.ledger[i].key == InvoiceKey(id) && db.ledger[i].invoice.Some?
    {
      if db.ledger[i].invoice.Some? { InvoiceKeysAreApart(id, db.ledger[i].invoice.value); }
    }
    if i :| 0 <= i < |db.ledger| && db.ledger[i].invoice == Some(id) {
      assert db.ledger[i].key == InvoiceKey(id);
    }
    if i :| 0 <= i < |db.ledger| && db.ledger[i].key == InvoiceKey(id) && db.ledger[i].invoice.None? {
      assert db.ledger[i] in db.ledger;
    }
  }

  // ----- Where the promises end -----

  /** Every invoice that was debited is marked paid. */
  ghost predicate DebitedMeansPaid(db: Db) {
    forall id | id in db.invoices && db.HasDebit(id) :: db.invoices[id].status == Paid
  }

  lemma SameDebits(db: Db, db': Db)
    requires db'.ledger == db.ledger
    ensures forall id :: db'.HasDebit(id) <==> db.HasDebit(id)
  {
    forall id ensures db'.HasDebit(id) <==> db.HasDebit(id) {
    }
  }

  lemma OneMoreDebit(db: Db, e: Entry, balance: int)
    ensures forall id :: db.Posted(e, balance).HasDebit(id) <==> db.HasDebit(id) || e.invoice == Some(id)
  {
    var db' := db.Posted(e, balance);
    assert db'.ledger[|db.ledger|] == e;
    forall id ensures db'.HasDebit(id) <==> db.HasDebit(id) || e.invoice == Some(id) {
      if i :| 0 <= i < |db.ledger| && db.ledger[i].invoice == Some(id) { assert db'.ledger[i] == db.ledger[i]; }
    }
  }

  /** A charge breaks it exactly when it refuses, on a stale open view, an invoice already debited. */
  lemma ChargeKeepsDebitedMeansPaidIff(db: Db, id: string, view: Invoice)
    requires id in db.invoices && SameInvoice(view, db.invoices[id]) && DebitedMeansPaid(db)
    ensures DebitedMeansPaid(Charge(db, id, view)) <==>
            !(view.status == Open && view.totalCents != 0 && !db.Covers(view.org, view.totalCents) && db.HasDebit(id))
  {
    var db' := Charge(db, id, view);
    if db'.ledger != db.ledger {
      OneMoreDebit(db, DebitOf(id, view), db.wallets[view.org] - view.totalCents);
      SameDebits(db.Posted(DebitOf(id, view), db.wallets[view.org] - view.totalCents), db');
    } else {
      SameDebits(db, db');
    }
    hide Db.HasDebit, Db.HasKey;
  }

  /** And so does a refusal that commits late, exactly when the debit came before it. */
  lemma RefusalKeepsDebitedMeansPaidIff(db: Db, id: string)
    requires id in db.invoices && DebitedMeansPaid(db)
    ensures DebitedMeansPaid(db.Marked(id, Uncollectible)) <==> !db.HasDebit(id)
  {
    SameDebits(db, db.Marked(id, Uncollectible));
    hide Db.HasDebit;
  }

  /** So serial charges, which see the invoice as it is, never break it. */
  lemma FreshChargeKeepsDebitedMeansPaid(db: Db, id: string)
    requires id in db.invoices && DebitedMeansPaid(db)
    ensures DebitedMeansPaid(Charge(db, id, db.invoices[id]))
  {
    ChargeKeepsDebitedMeansPaidIff(db, id, db.invoices[id]);
  }

  /** What a serial caller does: new invoice ids, charges that read the invoice as it is, and top-ups
      of positive amounts. */
  ghost predicate SerialOp(db: Db, op: Op) {
    match op
    case OpIssue(id, _, _) => id !in db.invoices
    case OpCharge(id, view) => id in db.invoices && view == db.invoices[id]
    case OpRefuse(_) => false
    case OpTopUp(_, cents, _) => cents > 0
  }

  ghost predicate SerialHistory(history: seq<Op>) {
    history != [] ==>
    && SerialHistory(history[..|history| - 1])
    && SerialOp(After(history[..|history| - 1]), history[|history| - 1])
  }

  lemma TopUpKeepsDebitedMeansPaid(db: Db, org: string, cents: int, key: string)
    requires DebitedMeansPaid(db)
    ensures DebitedMeansPaid(Credited(db, org, cents, key))
  {
    if !db.HasKey(key) { OneMoreDebit(db, Entry(org, cents, key, None), db.Balance(org) + cents); }
    hide Db.HasDebit, Db.HasKey;
  }

  lemma IssueKeepsDebitedMeansPaid(db: Db, id: string, v: Invoice)
    requires DebitedMeansPaid(db) && Keyed(db) && id !in db.invoices
    ensures DebitedMeansPaid(db.(invoices := db.invoices[id := v]))
  {
    assert !db.HasDebit(id);
    SameDebits(db, db.(invoices := db.invoices[id := v]));
    hide Db.HasDebit;
  }

  lemma IssueKeepsBooks(db: Db, id: string, org: string, cents: int)
    requires Books(db) && id !in db.invoices
    ensures Books(db.(invoices := db.invoices[id := Invoice(org, cents, Open)]))
  {
  }

  lemma SerialOpKeepsDebitedMeansPaid(db: Db, op: Op)
    requires Books(db) && DebitedMeansPaid(db) && SerialOp(db, op)
    ensures Books(Apply(db, op)) && DebitedMeansPaid(Apply(db, op))
  {
    hide Balanced, PaidMeansDebited, DebitedMeansPaid;
    match op
    case OpIssue(id, org, cents) =>
      IssueKeepsBooks(db, id, org, cents);
      IssueKeepsDebitedMeansPaid(db, id, Invoice(org, cents, Open));
    case OpCharge(id, view) =>
      ChargeKeepsBooks(db, id, view);
      FreshChargeKeepsDebitedMeansPaid(db, id);
    case OpTopUp(org, cents, key) =>
      CreditKeepsBooks(db, org, cents, key);
      TopUpKeepsDebitedMeansPaid(db, org, cents, key);
  }

  /** Over any serial history, an invoice with a total is paid exactly when it has its debit. */
  lemma {:induction false} SerialHistoriesPayExactlyTheDebited(history: seq<Op>)
    requires SerialHistory(history)
    ensures var db := After(history);
            && Books(db) && DebitedMeansPaid(db)
            && forall id | id in db.invoices && db.invoices[id].totalCents != 0 ::
                 db.invoices[id].status == Paid <==> db.HasDebit(id)
  {
    if history != [] {
      SerialHistoriesPayExactlyTheDebited(history[..|history| - 1]);
      SerialOpKeepsDebitedMeansPaid(After(history[..|history| - 1]), history[|history| - 1]);
    }
    PaidIffDebited(After(history));
  }

  lemma PaidHasDebit(db: Db, id: string)
    requires PaidMeansDebited(db) && id in db.invoices
    requires db.invoices[id].totalCents != 0 && db.invoices[id].status == Paid
    ensures db.HasDebit(id) && db.HasKey(InvoiceKey(id))
  {
    var i :| 0 <= i < |db.ledger| && db.ledger[i] == DebitOf(id, db.invoices[id]);
    assert db.ledger[i].key == InvoiceKey(id) && db.ledger[i].invoice == Some(id);
  }

  lemma PaidIffDebited(db: Db)
    requires Books(db) && DebitedMeansPaid(db)
    ensures forall id | id in db.invoices && db.invoices[id].totalCents != 0 ::
              db.invoices[id].status == Paid <==> db.HasDebit(id)
  {
    forall id | id in db.invoices && db.invoices[id].totalCents != 0 && db.invoices[id].status == Paid
      ensures db.HasDebit(id)
    {
      PaidHasDebit(db, id);
    }
  }

  /** How a charge of an open invoice that no top-up has hindered ends: at once when there is nothing
      to pay, with the total off the balance when that covers it, and otherwise with no money moved. */
  lemma ChargeDecides(db: Db, id: string)
    requires Books(db) && id in db.invoices && db.invoices[id].status == Open && db.invoices[id].totalCents >= 0
    requires !db.HasKey("invoice:" + id)
    ensures var v, db' := db.invoices[id], Charge(db, id, db.invoices[id]);
            && db'.invoices == db.invoices[id := db'.invoices[id]]
            && (v.totalCents == 0 ==>
                  db'.invoices[id] == v.(status := Paid) && db'.ledger == db.ledger && db'.wallets == db.wallets)
            && (v.totalCents > 0 && db.Balance(v.org) >= v.totalCents ==>
                  && db'.invoices[id] == v.(status := Paid) && db'.HasDebit(id)
                  && db'.Balance(v.org) == db.Balance(v.org) - v.totalCents
                  && db'.ledger == db.ledger + [Entry(v.org, -v.totalCents, "invoice:" + id, Some(id))])
            && (v.totalCents > db.Balance(v.org) ==>
                  && db'.invoices[id] == v.(status := Uncollectible)
                  && db'.ledger == db.ledger && db'.wallets == db.wallets)
            && forall org | org != v.org :: db'.Balance(org) == db.Balance(org)
  {
    var db' := Charge(db, id, db.invoices[id]);
    if db'.ledger != db.ledger { assert db'.ledger[|db.ledger|].invoice == Some(id); }
  }

  /** What an applied top-up does, and to whom. */
  lemma TopUpCredits(db: Db, org: string, cents: int, key: string)
    requires !db.HasKey(key)
    ensures var db' := Credited(db, org, cents, key);
            && db'.Balance(org) == db.Balance(org) + cents && db'.invoices == db.invoices
            && db'.ledger == db.ledger + [Entry(org, cents, key, None)]
            && forall other | other != org :: db'.Balance(other) == db.Balance(other)
  {
  }

  /** What one more entry adds to the three sums. */
  lemma EntryCounts(ledger: seq<Entry>, e: Entry, invoices: map<string, Invoice>, org: string)
    ensures Sum(ledger + [e], org) == Sum(ledger, org) + (if e.org == org then e.delta else 0)
    ensures ToppedUp(ledger + [e], org)
         == ToppedUp(ledger, org) + (if e.org == org && e.invoice == None then e.delta else 0)
    ensures e.org == org && e.invoice.Some? && e.invoice.value in invoices ==>
              Debited(ledger + [e], invoices, org)
              == Debited(ledger, invoices, org) + invoices[e.invoice.value].totalCents
    ensures e.org != org || e.invoice == None ==>
              Debited(ledger + [e], invoices, org) == Debited(ledger, invoices, org)
  {
    assert (ledger + [e])[..|ledger|] == ledger;
  }

  // ----- A settled invoice is final -----

  /** An invoice that has been paid or refused is left alone by every later serial operation, with its
      debit if it has one; and its own charges move no money. */
  lemma SettledInvoiceStays(db: Db, op: Op, id: string)
    requires Books(db) && SerialOp(db, op) && id in db.invoices && db.invoices[id].status != Open
    ensures var db' := Apply(db, op);
            && id in db'.invoices && db'.invoices[id] == db.invoices[id]
            && (db'.HasDebit(id) <==> db.HasDebit(id))
            && (op.OpCharge? && op.id == id ==> db' == db)
  {
    var db' := Apply(db, op);
    if db'.ledger != db.ledger {
      var e := db'.ledger[|db.ledger|];
      assert db' == db'.(ledger := db.ledger + [e]) && e.invoice != Some(id);
      OneMoreDebit(db, e, 0);
      SameDebits(db.Posted(e, 0), db');
    } else {
      SameDebits(db, db');
    }
  }

  /** So over any serial history: once an invoice is settled, it stays as it is. */
  lemma {:induction false} SettledInvoicesAreFinal(history: seq<Op>, k: nat, id: string)
    requires SerialHistory(history) && k <= |history|
    requires id in After(history[..k]).invoices && After(history[..k]).invoices[id].status != Open
    ensures var was, db := After(history[..k]), After(history);
            id in db.invoices && db.invoices[id] == was.invoices[id] && (db.HasDebit(id) <==> was.HasDebit(id))
    decreases |history|
  {
    var n := |history|;
    if k == n {
      assert history[..k] == history;
    } else {
      var before := history[..n - 1];
      assert before[..k] == history[..k];
      SettledInvoicesAreFinal(before, k, id);
      SerialHistoriesPayExactlyTheDebited(before);
      hide SerialOp, Db.HasDebit, Books, Apply;
      SettledInvoiceStays(After(before), history[n - 1], id);
    }
  }

  /** A retried charge, even with the same stale view, moves no money and adds no entry. */
  lemma RetriedChargeMovesNoMoney(db: Db, id: string, view: Invoice)
    ensures var once := Charge(db, id, view); var twice := Charge(once, id, view);
            twice.wallets == once.wallets && twice.ledger == once.ledger
  {
    var once := Charge(db, id, view);
    if once.ledger != db.ledger {
      assert once.ledger[|db.ledger|].key == InvoiceKey(id);
    }
  }

  /** A top-up is credited exactly when its key is new to every organization: keys are unique in the
      whole ledger, not per wallet. */
  lemma CreditedIffKeyIsNew(db: Db, org: string, cents: int, key: string)
    requires cents != 0
    ensures Credited(db, org, cents, key).Balance(org) == db.Balance(org) + cents <==> !db.HasKey(key)
  {
  }

  /** Once one organization has used a key, a top-up of another under it changes nothing at all. */
  lemma SharedKeyCancelsTopUp(db: Db, org: string, cents: int, other: string, otherCents: int, key: string)
    requires !db.HasKey(key) && other != org
    ensures var once := Credited(db, org, cents, key);
            && once.Balance(org) == db.Balance(org) + cents
            && Credited(once, other, otherCents, key) == once && once.Balance(other) == db.Balance(other)
  {
    var once := Credited(db, org, cents, key);
    assert once.ledger[|db.ledger|].key == key;
  }

  /** A top-up under an invoice's key: a charge that the wallet covers then leaves the invoice open. */
  lemma ForeignKeyBlocksInvoice(db: Db, id: string, org: string, cents: int)
    requires id in db.invoices && db.invoices[id].status == Open && db.invoices[id].totalCents != 0
    requires !db.HasKey(InvoiceKey(id)) && cents > 0
    requires db.invoices[id].org == org ==> db.Balance(org) + cents >= db.invoices[id].totalCents
    requires db.invoices[id].org != org ==> db.Covers(db.invoices[id].org, db.invoices[id].totalCents)
    ensures var db' := Credited(db, org, cents, InvoiceKey(id));
            Charge(db', id, db'.invoices[id]) == db' && db'.invoices[id].status == Open
  {
    var db' := Credited(db, org, cents, InvoiceKey(id));
    assert db'.ledger[|db.ledger|].key == InvoiceKey(id);
  }

  /** The key of the invoice is used, by something that is not its debit. */
  ghost predicate Blocked(db: Db, id: string) {
    && id in db.invoices && db.invoices[id].totalCents != 0 && db.invoices[id].status != Paid
    && db.HasKey(InvoiceKey(id))
    && forall i | 0 <= i < |db.ledger| :: db.ledger[i].invoice != Some(id)
  }

  /** Any operations whatever, on the invoices that there are. */
  ghost predicate Legal(db: Db, ops: seq<Op>)
    decreases |ops|
  {
    ops != [] ==>
    && (ops[0].OpIssue? ==> ops[0].id !in db.invoices)
    && (ops[0].OpCharge? ==> ops[0].id in db.invoices && SameInvoice(ops[0].view, db.invoices[ops[0].id]))
    && Legal(Apply(db, ops[0]), ops[1..])
  }

  function Then(db: Db, ops: seq<Op>): Db
    decreases |ops|
  {
    if ops == [] then db else Then(Apply(db, ops[0]), ops[1..])
  }

  lemma BlockedStays(db: Db, op: Op, id: string)
    requires Blocked(db, id) && Legal(db, [op])
    ensures Blocked(Apply(db, op), id)
  {
    var db' := Apply(db, op);
    var i :| 0 <= i < |db.ledger| && db.ledger[i].key == InvoiceKey(id);
    assert db'.ledger[i] == db.ledger[i];
  }

  lemma {:induction false} StaysBlocked(db: Db, ops: seq<Op>, id: string)
    requires Blocked(db, id) && Legal(db, ops)
    ensures Blocked(Then(db, ops), id)
    decreases |ops|
  {
    if ops != [] {
      assert Legal(db, [ops[0]]);
      hide Blocked;
      BlockedStays(db, ops[0], id);
      StaysBlocked(Apply(db, ops[0]), ops[1..], id);
    }
  }

  /** Whatever follows such a top-up, the invoice is never paid and never debited. */
  lemma ForeignKeyBlocksForEver(db: Db, id: string, org: string, cents: int, ops: seq<Op>)
    requires Books(db) && id in db.invoices && db.invoices[id].totalCents != 0
    requires !db.HasKey(InvoiceKey(id)) && Legal(Credited(db, org, cents, InvoiceKey(id)), ops)
    ensures Blocked(Then(Credited(db, org, cents, InvoiceKey(id)), ops), id)
  {
    var db' := Credited(db, org, cents, InvoiceKey(id));
    assert db'.ledger[|db.ledger|].key == InvoiceKey(id);
    forall i | 0 <= i < |db.ledger| ensures db.ledger[i].invoice != Some(id) {
      assert db.ledger[i].key != InvoiceKey(id);
    }
    if db.invoices[id].status == Paid { PaidHasDebit(db, id); }
    StaysBlocked(db', ops, id);
  }

  // ----- The transactions, statement by statement -----

  datatype ChargePhase = Viewing | Refusing | Debiting(balance: int) | ChargeOver
  datatype TopPhase = Starting | Ready(created: bool) | Entered(created: bool) | Crediting(balance: int) | TopOver

  datatype Proc =
    | Charger(id: string, view: Invoice, charge: ChargePhase)
    | Topper(org: string, cents: int, key: string, top: TopPhase)
  {
    /** The row lock on the wallet of `org`, whether taken by UPDATE or by creating the row. */
    predicate Locks(o: string) {
      match this
      case Charger(_, view, phase) => phase.Debiting? && view.org == o
      case Topper(org, _, _, phase) =>
        org == o && (phase.Crediting? || (phase.Ready? && phase.created) || (phase.Entered? && phase.created))
    }

    /** The ledger key inserted but not yet committed. */
    predicate Reserves(k: string) { Topper? && (top.Entered? || top.Crediting?) && key == k }
  }

  datatype State = State(db: Db, procs: map<nat, Proc>) {
    ghost predicate Free(org: string) { forall p | p in procs :: !procs[p].Locks(org) }
    ghost predicate Unreserved(key: string) { forall p | p in procs :: !procs[p].Reserves(key) }
    function Proceeds(p: nat, proc: Proc): State { this.(procs := procs[p := proc]) }
  }

  datatype Step =
    | Issue(id: string, org: string, cents: int)          // a close commits a new invoice
    | Load(p: nat, id: string)                            // a charger reads the invoice
    | SkipCharge(p: nat)                                  // not open: nothing to do
    | MarkZero(p: nat)                                    // total 0: paid
    | Refuse(p: nat)                                      // the guarded UPDATE matched no row
    | CommitRefusal(p: nat)                               // uncollectible, whatever came in between
    | Debit(p: nat)                                       // it matched: the wallet row is locked
    | CommitCharge(p: nat)                                // commits, or rolls back on a used key
    | BeginTop(p: nat, org: string, cents: int, key: string)
    | FindWallet(p: nat)
    | CreateWallet(p: nat)
    | Enter(p: nat)                                       // flushes the ledger row
    | UsedKey(p: nat)                                     // ... or finds the key used
    | Credit(p: nat)
    | CommitTop(p: nat)
    | Abort(p: nat)                                       // a crash: everything uncommitted is lost

  ghost predicate Enabled(s: State, step: Step) {
    match step
    case Issue(id, _, _) => id !in s.db.invoices
    case Load(p, id) => p !in s.procs && id in s.db.invoices
    case SkipCharge(p) => p in s.procs && s.procs[p].Charger? && s.procs[p].charge.Viewing?
                          && s.procs[p].view.status != Open
    case MarkZero(p) => p in s.procs && s.procs[p].Charger? && s.procs[p].charge.Viewing?
                        && s.procs[p].view.status == Open && s.procs[p].view.totalCents == 0
    case Refuse(p) => p in s.procs && s.procs[p].Charger? && s.procs[p].charge.Viewing?
                      && s.procs[p].view.status == Open && s.procs[p].view.totalCents != 0
                      && !s.db.Covers(s.procs[p].view.org, s.procs[p].view.totalCents)
    case CommitRefusal(p) => p in s.procs && s.procs[p].Charger? && s.procs[p].charge.Refusing?
    case Debit(p) => p in s.procs && s.procs[p].Charger? && s.procs[p].charge.Viewing?
                     && s.procs[p].view.status == Open && s.procs[p].view.totalCents != 0
                     && s.db.Covers(s.procs[p].view.org, s.procs[p].view.totalCents)
                     && s.Free(s.procs[p].view.org)
    case CommitCharge(p) => p in s.procs && s.procs[p].Charger? && s.procs[p].charge.Debiting?
                            && s.Unreserved(InvoiceKey(s.procs[p].id))
    case BeginTop(p, _, _, _) => p !in s.procs
    case FindWallet(p) => p in s.procs && s.procs[p].Topper? && s.procs[p].top.Starting?
                          && s.procs[p].org in s.db.wallets
    case CreateWallet(p) => p in s.procs && s.procs[p].Topper? && s.procs[p].top.Starting?
                            && s.procs[p].org !in s.db.wallets && s.Free(s.procs[p].org)
    case Enter(p) => p in s.procs && s.procs[p].Topper? && s.procs[p].top.Ready?
                     && !s.db.HasKey(s.procs[p].key) && s.Unreserved(s.procs[p].key)
    case UsedKey(p) => p in s.procs && s.procs[p].Topper? && s.procs[p].top.Ready? && s.db.HasKey(s.procs[p].key)
    case Credit(p) => p in s.procs && s.procs[p].Topper? && s.procs[p].top.Entered?
                      && (s.procs[p].top.created || s.Free(s.procs[p].org))
    case CommitTop(p) => p in s.procs && s.procs[p].Topper? && s.procs[p].top.Crediting?
    case Abort(p) => p in s.procs
  }

  ghost function Do(s: State, step: Step): State
    requires Enabled(s, step)
  {
    match step
    case Issue(id, org, cents) => s.(db := s.db.(invoices := s.db.invoices[id := Invoice(org, cents, Open)]))
    case Load(p, id) => s.Proceeds(p, Charger(id, s.db.invoices[id], Viewing))
    case SkipCharge(p) => s.Proceeds(p, s.procs[p].(charge := ChargeOver))
    case MarkZero(p) => s.(db := s.db.Marked(s.procs[p].id, Paid)).Proceeds(p, s.procs[p].(charge := ChargeOver))
    case Refuse(p) => s.Proceeds(p, s.procs[p].(charge := Refusing))
    case CommitRefusal(p) =>
      s.(db := s.db.Marked(s.procs[p].id, Uncollectible)).Proceeds(p, s.procs[p].(charge := ChargeOver))
    case Debit(p) =>
      var q := s.procs[p];
      s.Proceeds(p, q.(charge := Debiting(s.db.wallets[q.view.org] - q.view.totalCents)))
    case CommitCharge(p) =>
      var q := s.procs[p];
      var over := q.(charge := ChargeOver);
      if s.db.HasKey(InvoiceKey(q.id)) then s.Proceeds(p, over)
      else s.(db := s.db.Posted(DebitOf(q.id, q.view), q.charge.balance).Marked(q.id, Paid)).Proceeds(p, over)
    case BeginTop(p, org, cents, key) => s.Proceeds(p, Topper(org, cents, key, Starting))
    case FindWallet(p) => s.Proceeds(p, s.procs[p].(top := Ready(false)))
    case CreateWallet(p) => s.Proceeds(p, s.procs[p].(top := Ready(true)))
    case Enter(p) => s.Proceeds(p, s.procs[p].(top := Entered(s.procs[p].top.created)))
    case UsedKey(p) => s.Proceeds(p, s.procs[p].(top := TopOver))
    case Credit(p) =>
      var q := s.procs[p];
      s.Proceeds(p, q.(top := Crediting((if q.top.created then 0 else s.db.Balance(q.org)) + q.cents)))
    case CommitTop(p) =>
      var q := s.procs[p];
      s.(db := s.db.Posted(Entry(q.org, q.cents, q.key, None), q.top.balance)).Proceeds(p, q.(top := TopOver))
    case Abort(p) =>
      s.Proceeds(p, if s.procs[p].Charger? then s.procs[p].(charge := ChargeOver) else s.procs[p].(top := TopOver))
  }

  /** The atomic operation that a step commits, if it commits any. */
  ghost function Commits(s: State, step: Step): seq<Op>
    requires Enabled(s, step)
  {
    match step
    case Issue(id, org, cents) => [OpIssue(id, org, cents)]
    case MarkZero(p) => [OpCharge(s.procs[p].id, s.procs[p].view)]
    case CommitRefusal(p) => [OpRefuse(s.procs[p].id)]
    case CommitCharge(p) => [OpCharge(s.procs[p].id, s.procs[p].view)]
    case CommitTop(p) => [OpTopUp(s.procs[p].org, s.procs[p].cents, s.procs[p].key)]
    case _ => []
  }

  /** A wallet's lock and a ledger key in flight each have one holder. */
  ghost predicate Exclusive(s: State) {
    && (forall p, p', org | p in s.procs && p' in s.procs && s.procs[p].Locks(org) && s.procs[p'].Locks(org) :: p == p')
    && (forall p, p', key | p in s.procs && p' in s.procs && s.procs[p].Reserves(key) && s.procs[p'].Reserves(key) ::
          p == p')
  }

  /** Whoever holds a wallet's lock has computed its new balance from the committed one. */
  ghost predicate Sound(db: Db, q: Proc) {
    match q
    case Charger(id, view, phase) =>
      && id in db.invoices && SameInvoice(view, db.invoices[id])
      && (phase.Refusing? ==> view.status == Open && view.totalCents != 0)
      && (phase.Debiting? ==>
            && view.status == Open && view.totalCents != 0 && db.Covers(view.org, view.totalCents)
            && phase.balance == db.wallets[view.org] - view.totalCents)
    case Topper(org, cents, key, phase) =>
      && (phase.Ready? && phase.created ==> org !in db.wallets)
      && (phase.Entered? && phase.created ==> org !in db.wallets)
      && (phase.Crediting? ==> phase.balance == db.Balance(org) + cents)
      && (phase.Entered? || phase.Crediting? ==> !db.HasKey(key))
  }

  ghost predicate LocksHold(s: State) {
    Exclusive(s) && forall p | p in s.procs :: Sound(s.db, s.procs[p])
  }

  /** What the API's schema demands of top-ups. */
  ghost predicate ProperTopUps(s: State) {
    forall p | p in s.procs && s.procs[p].Topper? :: s.procs[p].cents > 0
  }

  /** Top-ups keep out of the invoices' keys, which nothing in the API demands. */
  ghost predicate KeysApart(s: State) {
    forall p | p in s.procs && s.procs[p].Topper? :: !IsInvoiceKey(s.procs[p].key)
  }

  /** Every commit is exactly one atomic operation on the database as it is at that moment. */
  lemma CommitsAreAtomic(s: State, step: Step)
    requires LocksHold(s) && Enabled(s, step)
    ensures var ops := Commits(s, step); Do(s, step).db == if ops == [] then s.db else Apply(s.db, ops[0])
  {
  }

  // ----- Locks and books over whole runs -----

  lemma ProceedingKeepsLocks(s: State, p: nat, q: Proc)
    requires LocksHold(s) && Sound(s.db, q)
    requires forall org | q.Locks(org) :: forall r | r in s.procs && r != p :: !s.procs[r].Locks(org)
    requires forall key | q.Reserves(key) :: forall r | r in s.procs && r != p :: !s.procs[r].Reserves(key)
    ensures LocksHold(s.Proceeds(p, q))
  {
  }

  /** Statements that commit nothing take a free lock or key, or keep the ones they have. */
  lemma StatementKeepsLocks(s: State, step: Step)
    requires LocksHold(s) && Enabled(s, step)
    requires step.Load? || step.SkipCharge? || step.Refuse? || step.Debit? || step.BeginTop? || step.FindWallet?
             || step.CreateWallet? || step.Enter? || step.UsedKey? || step.Credit? || step.Abort?
    ensures LocksHold(Do(s, step))
  {
    var q := Do(s, step).procs[step.p];
    assert Do(s, step) == s.Proceeds(step.p, q);
    assert Sound(s.db, q);
    assert step.p in s.procs ==> Sound(s.db, s.procs[step.p]);
    hide Sound, Do;
    ProceedingKeepsLocks(s, step.p, q);
  }

  lemma MarkKeepsLocks(s: State, step: Step)
    requires LocksHold(s) && Enabled(s, step) && (step.MarkZero? || step.CommitRefusal? || step.Issue?)
    ensures LocksHold(Do(s, step))
  {
  }

  /** A debit commits under the wallet's lock: nobody else's new balance was computed from the old one. */
  lemma CommitChargeKeepsLocks(s: State, p: nat)
    requires LocksHold(s) && Enabled(s, CommitCharge(p))
    ensures LocksHold(Do(s, CommitCharge(p)))
  {
    var q, s' := s.procs[p], Do(s, CommitCharge(p));
    assert q.Locks(q.view.org);
    forall r | r in s.procs && r != p
      ensures !s.procs[r].Locks(q.view.org)
    {
    }
    forall key | key != InvoiceKey(q.id) && !s.db.HasKey(key)
      ensures !s'.db.HasKey(key)
    {
    }
  }

  lemma CommitTopKeepsLocks(s: State, p: nat)
    requires LocksHold(s) && Enabled(s, CommitTop(p))
    ensures LocksHold(Do(s, CommitTop(p)))
  {
    var q, s' := s.procs[p], Do(s, CommitTop(p));
    assert q.Locks(q.org) && q.Reserves(q.key);
    forall r | r in s.procs && r != p
      ensures !s.procs[r].Locks(q.org) && !s.procs[r].Reserves(q.key)
    {
    }
    forall key | key != q.key && !s.db.HasKey(key)
      ensures !s'.db.HasKey(key)
    {
    }
  }

  lemma StepKeepsLocks(s: State, step: Step)
    requires LocksHold(s) && Enabled(s, step)
    ensures LocksHold(Do(s, step))
  {
    if step.CommitCharge? {
      CommitChargeKeepsLocks(s, step.p);
    } else if step.CommitTop? {
      CommitTopKeepsLocks(s, step.p);
    } else if step.MarkZero? || step.CommitRefusal? || step.Issue? {
      MarkKeepsLocks(s, step);
    } else {
      StatementKeepsLocks(s, step);
    }
  }

  ghost predicate Next(s: State, s': State) { exists step :: Enabled(s, step) && s' == Do(s, step) }

  ghost predicate IsRun(states: seq<State>) {
    && states != [] && states[0] == State(Db(map[], [], map[]), map[])
    && forall i | 0 <= i < |states| - 1 :: Next(states[i], states[i + 1])
  }

  lemma {:induction false} RunsKeepLocks(states: seq<State>)
    requires IsRun(states)
    ensures LocksHold(states[|states| - 1])
  {
    var n := |states| - 1;
    if n > 0 {
      assert IsRun(states[..n]);
      RunsKeepLocks(states[..n]);
      assert Next(states[n - 1], states[n]);
      var step :| Enabled(states[n - 1], step) && states[n] == Do(states[n - 1], step);
      StepKeepsLocks(states[n - 1], step);
    }
  }

  /** The steps of a run, one between each two states. */
  ghost predicate Takes(states: seq<State>, steps: seq<Step>) {
    && |states| == |steps| + 1
    && forall i | 0 <= i < |steps| :: Enabled(states[i], steps[i]) && states[i + 1] == Do(states[i], steps[i])
  }

  lemma {:induction false} RunsTakeSteps(states: seq<State>) returns (steps: seq<Step>)
    requires IsRun(states)
    ensures Takes(states, steps)
  {
    var n := |states| - 1;
    steps := [];
    if n > 0 {
      assert IsRun(states[..n]);
      var before := RunsTakeSteps(states[..n]);
      assert Next(states[n - 1], states[n]);
      var step :| Enabled(states[n - 1], step) && states[n] == Do(states[n - 1], step);
      steps := before + [step];
      hide Next, Enabled, Do;
      forall i | 0 <= i < n ensures Enabled(states[i], steps[i]) && states[i + 1] == Do(states[i], steps[i]) {
        if i < n - 1 { assert states[..n][i] == states[i] && states[..n][i + 1] == states[i + 1]; }
      }
    }
  }

  /** What a run commits, in the order of committing. */
  ghost function Committed(states: seq<State>, steps: seq<Step>): seq<Op>
    requires Takes(states, steps)
    decreases |steps|
  {
    var n := |steps|;
    if n == 0 then [] else Committed(states[..n], steps[..n - 1]) + Commits(states[n - 1], steps[n - 1])
  }

  /** Every run is serializable: its database is the one that its own commits, as atomic operations in
      the order of committing, leave. */
  lemma {:induction false} RunsAreSerializable(states: seq<State>, steps: seq<Step>)
    requires IsRun(states) && Takes(states, steps)
    ensures After(Committed(states, steps)) == states[|states| - 1].db
    decreases |steps|
  {
    var n := |steps|;
    if n > 0 {
      assert IsRun(states[..n]);
      RunsKeepLocks(states[..n]);
      RunsAreSerializable(states[..n], steps[..n - 1]);
      CommitsAreAtomic(states[n - 1], steps[n - 1]);
      CommitsAtMostOne(states[n - 1], steps[n - 1]);
      hide Commits, Next, Enabled, Do, After, Apply, LocksHold;
      AfterOneMore(Committed(states[..n], steps[..n - 1]), Commits(states[n - 1], steps[n - 1]));
    }
  }

  lemma AfterOneMore(before: seq<Op>, ops: seq<Op>)
    requires |ops| <= 1
    ensures After(before + ops) == if ops == [] then After(before) else Apply(After(before), ops[0])
  {
    if ops == [] {
      assert before + ops == before;
    } else {
      assert (before + ops)[..|before + ops| - 1] == before;
    }
  }

  lemma CommitsAtMostOne(s: State, step: Step)
    requires Enabled(s, step)
    ensures |Commits(s, step)| <= 1
  {
  }

  predicate Finished(q: Proc) { if q.Charger? then q.charge.ChargeOver? else q.top.TopOver? }

  /** A request keeps what it was asked for, and is over for good once it has committed: so each
      commits at most one operation, for its own invoice, amount and key. */
  lemma RequestsCommitOnce(s: State, step: Step, p: nat)
    requires Enabled(s, step) && p in s.procs
    ensures p in Do(s, step).procs
    ensures var q, q' := s.procs[p], Do(s, step).procs[p];
            && (if q.Charger? then q'.Charger? && q'.id == q.id && q'.view == q.view
                else q'.Topper? && q'.org == q.org && q'.cents == q.cents && q'.key == q.key)
            && (Finished(q) ==> Finished(q'))
    ensures Commits(s, step) != [] && !step.Issue? && step.p == p ==>
              Finished(Do(s, step).procs[p]) && !Finished(s.procs[p])
  {
  }

  lemma StepKeepsBooks(s: State, step: Step)
    requires LocksHold(s) && Books(s.db) && ProperTopUps(s) && Enabled(s, step)
    ensures Books(Do(s, step).db)
  {
    CommitsAreAtomic(s, step);
    if step.MarkZero? || step.CommitCharge? {
      ChargeKeepsBooks(s.db, s.procs[step.p].id, s.procs[step.p].view);
    } else if step.CommitRefusal? {
      MarkingKeepsBooks(s.db, s.procs[step.p].id, Uncollectible);
    } else if step.CommitTop? {
      var q := s.procs[step.p];
      CreditKeepsBooks(s.db, q.org, q.cents, q.key);
    }
  }

  lemma {:induction false} RunsKeepBooks(states: seq<State>)
    requires IsRun(states) && forall i | 0 <= i < |states| - 1 :: ProperTopUps(states[i])
    ensures Books(states[|states| - 1].db)
  {
    var n := |states| - 1;
    if n > 0 {
      assert IsRun(states[..n]);
      RunsKeepBooks(states[..n]);
      RunsKeepLocks(states[..n]);
      assert Next(states[n - 1], states[n]);
      var step :| Enabled(states[n - 1], step) && states[n] == Do(states[n - 1], step);
      StepKeepsBooks(states[n - 1], step);
    }
  }

  /** In every state of every run, with any interleaving, rollback and stale view: balances are never
      negative, equal the sum of their entries, and account for every credit. */
  lemma LedgerIsConserved(states: seq<State>, org: string)
    requires IsRun(states) && forall i | 0 <= i < |states| - 1 :: ProperTopUps(states[i])
    ensures var db := states[|states| - 1].db;
            && db.Balance(org) >= 0 && db.Balance(org) == Sum(db.ledger, org)
            && ToppedUp(db.ledger, org) == db.Balance(org) + Debited(db.ledger, db.invoices, org)
  {
    RunsKeepBooks(states);
    var db := states[|states| - 1].db;
    if org !in db.wallets { NothingPosted(db.ledger, org); }
    CreditsAreBalancePlusDebits(db.ledger, db.invoices, org);
  }

  /** In every state of every run, an invoice has at most one entry, which debits its total; a paid
      invoice with a total has that entry; and an entry under the invoice's key is that debit unless a
      top-up took the key. */
  lemma DebitedAtMostOnce(states: seq<State>, id: string)
    requires IsRun(states) && forall i | 0 <= i < |states| - 1 :: ProperTopUps(states[i])
    requires id in states[|states| - 1].db.invoices
    ensures var db := states[|states| - 1].db; var v := db.invoices[id];
            && (forall i, j | 0 <= i < |db.ledger| && 0 <= j < |db.ledger| ::
                  db.ledger[i].key == db.ledger[j].key == InvoiceKey(id) ==> i == j)
            && (forall e | e in db.ledger && e.invoice == Some(id) :: e == DebitOf(id, v))
            && (v.status == Paid && v.totalCents != 0 ==> DebitOf(id, v) in db.ledger)
            && ((forall e | e in db.ledger && e.key == InvoiceKey(id) :: e == DebitOf(id, v)) <==> !db.Usurped(id))
  {
    RunsKeepBooks(states);
    KeyIsDebitIffNotUsurped(states[|states| - 1].db, id);
  }

  lemma StepKeepsKeysApart(s: State, step: Step)
    requires Enabled(s, step) && KeysApart(s) && forall id :: !s.db.Usurped(id)
    ensures forall id :: !Do(s, step).db.Usurped(id)
  {
    var s' := Do(s, step);
    forall id ensures !s'.db.Usurped(id) {
      InvoiceKeysAreApart(id, id);
      assert !s.db.Usurped(id);
      forall i | 0 <= i < |s'.db.ledger| && s'.db.ledger[i].invoice.None?
        ensures s'.db.ledger[i].key != InvoiceKey(id)
      {
        if i < |s.db.ledger| { assert s'.db.ledger[i] == s.db.ledger[i]; }
      }
    }
  }

  /** That never happens while top-ups keep out of the namespace. */
  lemma {:induction false} KeysApartAreNotUsurped(states: seq<State>)
    requires IsRun(states) && forall i | 0 <= i < |states| - 1 :: KeysApart(states[i])
    ensures var db := states[|states| - 1].db; forall id :: !db.Usurped(id)
  {
    var n := |states| - 1;
    if n > 0 {
      assert IsRun(states[..n]);
      KeysApartAreNotUsurped(states[..n]);
      assert Next(states[n - 1], states[n]);
      hide Do, Enabled, KeysApart;
      var step :| Enabled(states[n - 1], step) && states[n] == Do(states[n - 1], step);
      StepKeepsKeysApart(states[n - 1], step);
    }
  }

  /** A step that marks uncollectible an invoice which has been debited in the meantime. */
  ghost predicate RefusesDebited(s: State, step: Step) {
    step.CommitRefusal? && Enabled(s, step) && s.db.HasDebit(s.procs[step.p].id)
  }

  lemma StepKeepsDebitedMeansPaidIff(s: State, step: Step)
    requires LocksHold(s) && Books(s.db) && Enabled(s, step) && DebitedMeansPaid(s.db)
    ensures DebitedMeansPaid(Do(s, step).db) <==> !RefusesDebited(s, step)
  {
    CommitsAreAtomic(s, step);
    hide Exclusive, Balanced, PaidMeansDebited, DebitedMeansPaid, Db.HasDebit;
    if step.Issue? {
      IssueKeepsDebitedMeansPaid(s.db, step.id, Invoice(step.org, step.cents, Open));
    } else if step.MarkZero? || step.CommitCharge? {
      assert Sound(s.db, s.procs[step.p]);
      ChargeKeepsDebitedMeansPaidIff(s.db, s.procs[step.p].id, s.procs[step.p].view);
    } else if step.CommitRefusal? {
      assert Sound(s.db, s.procs[step.p]);
      RefusalKeepsDebitedMeansPaidIff(s.db, s.procs[step.p].id);
    } else if step.CommitTop? {
      TopUpKeepsDebitedMeansPaid(s.db, s.procs[step.p].org, s.procs[step.p].cents, s.procs[step.p].key);
    }
  }

  lemma {:induction false} DebitedMeansPaidSoFar(states: seq<State>, steps: seq<Step>)
    requires IsRun(states) && Takes(states, steps) && forall i | 0 <= i < |states| - 1 :: ProperTopUps(states[i])
    requires forall i | 0 <= i < |steps| :: !RefusesDebited(states[i], steps[i])
    ensures DebitedMeansPaid(states[|states| - 1].db)
    decreases |steps|
  {
    var n := |steps|;
    if n > 0 {
      assert IsRun(states[..n]);
      hide Next, Enabled, Do, ProperTopUps, RefusesDebited, DebitedMeansPaid;
      DebitedMeansPaidSoFar(states[..n], steps[..n - 1]);
      RunsKeepLocks(states[..n]);
      RunsKeepBooks(states[..n]);
      StepKeepsDebitedMeansPaidIff(states[n - 1], steps[n - 1]);
    }
  }

  /** Over any run: every debited invoice is marked paid, in every state, exactly when no refusal
      commits on an invoice that has been debited. */
  lemma DebitedMeansPaidIff(states: seq<State>, steps: seq<Step>)
    requires IsRun(states) && Takes(states, steps) && forall i | 0 <= i < |states| - 1 :: ProperTopUps(states[i])
    ensures (forall i | 0 <= i < |states| :: DebitedMeansPaid(states[i].db)) <==>
            (forall i | 0 <= i < |steps| :: !RefusesDebited(states[i], steps[i]))
  {
    hide Next, Enabled, Do, ProperTopUps, RefusesDebited, DebitedMeansPaid;
    if forall i | 0 <= i < |steps| :: !RefusesDebited(states[i], steps[i]) {
      forall k | 0 <= k < |states| ensures DebitedMeansPaid(states[k].db) {
        assert IsRun(states[..k + 1]) && Takes(states[..k + 1], steps[..k]);
        DebitedMeansPaidSoFar(states[..k + 1], steps[..k]);
      }
    } else {
      var i :| 0 <= i < |steps| && RefusesDebited(states[i], steps[i]);
      if DebitedMeansPaid(states[i].db) {
        assert IsRun(states[..i + 1]);
        RunsKeepLocks(states[..i + 1]);
        RunsKeepBooks(states[..i + 1]);
        StepKeepsDebitedMeansPaidIff(states[i], steps[i]);
        assert !DebitedMeansPaid(states[i + 1].db);
      }
    }
  }

  /** A charge of this invoice is under way. */
  predicate Charging(q: Proc, id: string) { q.Charger? && q.id == id && !q.charge.ChargeOver? }

  /** No invoice is charged by two callers at a time. */
  ghost predicate SerialCharges(s: State) {
    forall p, p', id | p in s.procs && p' in s.procs && Charging(s.procs[p], id) && Charging(s.procs[p'], id) :: p == p'
  }

  ghost predicate FreshViews(s: State) {
    forall p | p in s.procs && s.procs[p].Charger? && !s.procs[p].charge.ChargeOver? ::
      s.procs[p].id in s.db.invoices && s.procs[p].view == s.db.invoices[s.procs[p].id]
  }

  lemma SerialStepKeepsViews(s: State, step: Step)
    requires LocksHold(s) && SerialCharges(s) && FreshViews(s) && Enabled(s, step)
    ensures FreshViews(Do(s, step))
  {
    hide Exclusive, Sound;
    if step.MarkZero? || step.CommitRefusal? || step.CommitCharge? {
      assert Charging(s.procs[step.p], s.procs[step.p].id);
    }
  }

  lemma SerialStepKeepsDebitedMeansPaid(s: State, step: Step)
    requires LocksHold(s) && Books(s.db) && FreshViews(s) && DebitedMeansPaid(s.db) && Enabled(s, step)
    ensures DebitedMeansPaid(Do(s, step).db)
  {
    if step.CommitRefusal? {
      var q := s.procs[step.p];
      assert Sound(s.db, q);
      UnpaidIsUndebited(s.db, q.id);
    }
    hide Exclusive, Sound, Books, Do, DebitedMeansPaid;
    StepKeepsDebitedMeansPaidIff(s, step);
  }

  lemma UnpaidIsUndebited(db: Db, id: string)
    requires DebitedMeansPaid(db) && id in db.invoices && db.invoices[id].status != Paid
    ensures !db.HasDebit(id)
  {
  }

  lemma SerialNext(s: State, s': State)
    requires LocksHold(s) && Books(s.db) && ProperTopUps(s) && SerialCharges(s) && FreshViews(s)
    requires DebitedMeansPaid(s.db) && Next(s, s')
    ensures FreshViews(s') && DebitedMeansPaid(s'.db)
  {
    hide ProperTopUps, SerialCharges, FreshViews, Books, LocksHold, DebitedMeansPaid, Enabled, Do;
    var step :| Enabled(s, step) && s' == Do(s, step);
    SerialStepKeepsViews(s, step);
    SerialStepKeepsDebitedMeansPaid(s, step);
  }

  /** In every run whose charges of any one invoice do not overlap, however they interleave with
      top-ups, with charges of other invoices and with crashes, an invoice is debited exactly when it
      is paid. */
  lemma {:induction false} SerialChargesPayExactlyTheDebited(states: seq<State>)
    requires IsRun(states)
    requires forall i | 0 <= i < |states| - 1 :: ProperTopUps(states[i]) && SerialCharges(states[i])
    ensures FreshViews(states[|states| - 1])
    ensures var db := states[|states| - 1].db;
            && Books(db) && DebitedMeansPaid(db)
            && forall id | id in db.invoices && db.invoices[id].totalCents != 0 ::
                 db.invoices[id].status == Paid <==> db.HasDebit(id)
  {
    var n := |states| - 1;
    RunsKeepBooks(states);
    if n > 0 {
      assert IsRun(states[..n]);
      SerialChargesPayExactlyTheDebited(states[..n]);
      RunsKeepLocks(states[..n]);
      hide ProperTopUps, SerialCharges, FreshViews, Books, LocksHold, DebitedMeansPaid, Next;
      SerialNext(states[n - 1], states[n]);
    }
    PaidIffDebited(states[n].db);
  }

  /** The invoice and its debit are as they were. */
  ghost predicate Unmoved(was: Db, db: Db, id: string) {
    && id in was.invoices && id in db.invoices
    && db.invoices[id] == was.invoices[id] && (db.HasDebit(id) <==> was.HasDebit(id))
  }

  lemma UnmovedFurther(a: Db, b: Db, c: Db, id: string)
    requires Unmoved(a, b, id) && Unmoved(b, c, id)
    ensures Unmoved(a, c, id)
  {
    hide Db.HasDebit;
  }

  lemma StillSettled(was: Db, db: Db, id: string)
    requires Unmoved(was, db, id) && was.invoices[id].status != Open
    ensures id in db.invoices && db.invoices[id].status != Open
  {
  }

  /** With charges that see the invoice as it is, no statement of anybody touches a settled one. */
  lemma SettledInvoiceStaysAt(s: State, s': State, id: string)
    requires LocksHold(s) && FreshViews(s) && Next(s, s')
    requires id in s.db.invoices && s.db.invoices[id].status != Open
    ensures Unmoved(s.db, s'.db, id)
  {
    var step :| Enabled(s, step) && s' == Do(s, step);
    if step.MarkZero? || step.CommitRefusal? || step.CommitCharge? { assert Sound(s.db, s.procs[step.p]); }
    hide Next, Exclusive, Sound;
    if s'.db.ledger != s.db.ledger {
      var e := s'.db.ledger[|s.db.ledger|];
      assert s'.db.ledger == s.db.ledger + [e] && e.invoice != Some(id);
      OneMoreDebit(s.db, e, 0);
      SameDebits(s.db.Posted(e, 0), s'.db);
    } else {
      SameDebits(s.db, s'.db);
    }
  }

  ghost predicate SerialRun(states: seq<State>) {
    && IsRun(states)
    && forall i | 0 <= i < |states| - 1 :: ProperTopUps(states[i]) && SerialCharges(states[i])
  }

  lemma SerialRunsGoOn(states: seq<State>)
    requires SerialRun(states) && |states| >= 2
    ensures var before := states[..|states| - 1];
            && SerialRun(before) && LocksHold(before[|before| - 1]) && FreshViews(before[|before| - 1])
            && Next(before[|before| - 1], states[|states| - 1])
  {
    hide LocksHold, FreshViews, Next, ProperTopUps, SerialCharges;
    var before := states[..|states| - 1];
    assert IsRun(before);
    RunsKeepLocks(before);
    SerialChargesPayExactlyTheDebited(before);
  }

  predicate IsSettled(s: State, id: string) { id in s.db.invoices && s.db.invoices[id].status != Open }

  lemma SettledFurther(s: State, mid: State, s': State, id: string)
    requires IsSettled(s, id) && Unmoved(s.db, mid.db, id)
    requires LocksHold(mid) && FreshViews(mid) && Next(mid, s')
    ensures Unmoved(s.db, s'.db, id)
  {
    hide LocksHold, FreshViews, Next;
    StillSettled(s.db, mid.db, id);
    SettledInvoiceStaysAt(mid, s', id);
    UnmovedFurther(s.db, mid.db, s'.db, id);
  }

  /** Over any run whose charges of one invoice do not overlap, a settled invoice is final. */
  lemma {:induction false} SettledInvoicesAreFinalInRuns(states: seq<State>, k: nat, id: string)
    requires SerialRun(states) && k < |states| && IsSettled(states[k], id)
    ensures Unmoved(states[k].db, states[|states| - 1].db, id)
    decreases |states|
  {
    var n := |states| - 1;
    if k < n {
      hide SerialRun, Next, FreshViews, LocksHold, Unmoved, IsSettled;
      var before := states[..n];
      SerialRunsGoOn(states);
      assert before[k] == states[k];
      SettledInvoicesAreFinalInRuns(before, k, id);
      SettledFurther(states[k], before[n - 1], states[n], id);
    }
  }

  ghost function Stepped(s: State, step: Step): (s': State)
    requires Enabled(s, step)
    ensures Next(s, s')
  {
    Do(s, step)
  }

  /** A wallet of 15 and an open invoice over 10. */
  ghost function Funded(): State {
    State(Db(map["o" := 15], [Entry("o", 15, "k", None)], map["i" := Invoice("o", 10, Open)]),
          map[0 := Topper("o", 15, "k", TopOver)])
  }

  /** The invoice is debited, while charger 2 still holds it as open. */
  ghost function DebitedBehindItsBack(): State {
    State(Db(map["o" := 5], [Entry("o", 15, "k", None), Entry("o", -10, InvoiceKey("i"), Some("i"))],
             map["i" := Invoice("o", 10, Paid)]),
          map[0 := Topper("o", 15, "k", TopOver), 1 := Charger("i", Invoice("o", 10, Open), ChargeOver),
              2 := Charger("i", Invoice("o", 10, Open), Viewing)])
  }

  /** The first top-up with `phase` reached, before anything is committed. */
  ghost function Topping(phase: TopPhase): State {
    State(Db(map[], [], map[]), map[0 := Topper("o", 15, "k", phase)])
  }

  lemma TopUpStarts()
    ensures Next(State(Db(map[], [], map[]), map[]), Topping(Starting))
  {
    assert Topping(Starting) == Stepped(State(Db(map[], [], map[]), map[]), BeginTop(0, "o", 15, "k"));
  }

  lemma TopUpFindsNoWallet()
    ensures Next(Topping(Starting), Topping(Ready(true)))
  {
    assert Topping(Ready(true)) == Stepped(Topping(Starting), CreateWallet(0));
  }

  lemma TopUpEnters()
    ensures Next(Topping(Ready(true)), Topping(Entered(true)))
  {
    assert Topping(Entered(true)) == Stepped(Topping(Ready(true)), Enter(0));
  }

  lemma TopUpEnds() returns (credited: State)
    ensures Next(Topping(Entered(true)), Topping(Crediting(15)))
    ensures Next(Topping(Crediting(15)), credited) && Next(credited, Funded())
    ensures credited == Funded().(db := Funded().db.(invoices := map[]))
  {
    credited := Funded().(db := Funded().db.(invoices := map[]));
    assert Topping(Crediting(15)) == Stepped(Topping(Entered(true)), Credit(0));
    assert credited == Stepped(Topping(Crediting(15)), CommitTop(0));
    assert Funded() == Stepped(credited, Issue("i", "o", 10));
  }

  lemma ReachFunded() returns (states: seq<State>)
    ensures IsRun(states) && |states| == 7 && (forall i | 0 <= i < 7 :: ProperTopUps(states[i]))
    ensures states[6] == Funded()
  {
    TopUpStarts();
    TopUpFindsNoWallet();
    TopUpEnters();
    var credited := TopUpEnds();
    hide Next;
    states := [State(Db(map[], [], map[]), map[]), Topping(Starting), Topping(Ready(true)), Topping(Entered(true)),
               Topping(Crediting(15)), credited, Funded()];
  }

  lemma TwoChargersLoad() returns (one: State, two: State)
    ensures Next(Funded(), one) && Next(one, two)
    ensures ProperTopUps(Funded()) && ProperTopUps(one) && ProperTopUps(two)
    ensures one == Funded().Proceeds(1, Charger("i", Invoice("o", 10, Open), Viewing))
    ensures two == one.Proceeds(2, Charger("i", Invoice("o", 10, Open), Viewing))
  {
    one := Stepped(Funded(), Load(1, "i"));
    two := Stepped(one, Load(2, "i"));
  }

  lemma OneCharges(two: State) returns (held: State)
    requires two == Funded().Proceeds(1, Charger("i", Invoice("o", 10, Open), Viewing))
                            .Proceeds(2, Charger("i", Invoice("o", 10, Open), Viewing))
    ensures Next(two, held) && held == two.Proceeds(1, Charger("i", Invoice("o", 10, Open), Debiting(5)))
    ensures ProperTopUps(held) && ProperTopUps(DebitedBehindItsBack())
  {
    held := Stepped(two, Debit(1));
  }

  lemma OneIsPosted(held: State)
    requires held == Funded().Proceeds(1, Charger("i", Invoice("o", 10, Open), Debiting(5)))
                             .Proceeds(2, Charger("i", Invoice("o", 10, Open), Viewing))
    ensures held.db.Posted(DebitOf("i", Invoice("o", 10, Open)), 5).Marked("i", Paid) == DebitedBehindItsBack().db
    ensures held.procs[1 := Charger("i", Invoice("o", 10, Open), ChargeOver)] == DebitedBehindItsBack().procs
  {
  }

  lemma OneCommits(held: State)
    requires held == Funded().Proceeds(1, Charger("i", Invoice("o", 10, Open), Debiting(5)))
                             .Proceeds(2, Charger("i", Invoice("o", 10, Open), Viewing))
    ensures Next(held, DebitedBehindItsBack())
  {
    assert held.db.ledger[0].key != InvoiceKey("i");
    assert held.Unreserved(InvoiceKey("i"));
    assert Enabled(held, CommitCharge(1));
    OneIsPosted(held);
    assert DebitedBehindItsBack() == Stepped(held, CommitCharge(1));
  }

  lemma ReachDebited() returns (states: seq<State>)
    ensures |states| == 5 && states[0] == Funded() && states[4] == DebitedBehindItsBack()
    ensures forall i | 0 <= i < 4 :: Next(states[i], states[i + 1])
    ensures forall i | 0 <= i < 5 :: ProperTopUps(states[i])
  {
    hide Next, ProperTopUps;
    var one, two := TwoChargersLoad();
    var held := OneCharges(two);
    OneCommits(held);
    states := [Funded(), one, two, held, DebitedBehindItsBack()];
  }

  /** Under concurrency "debited" does not mean "paid": a second charger with an open view from
      before the debit finds the balance gone, and marks the paid invoice uncollectible. */
  lemma StaleRefusalHidesAPaidInvoice() returns (states: seq<State>)
    ensures IsRun(states) && forall i | 0 <= i < |states| :: ProperTopUps(states[i])
    ensures var db := states[|states| - 1].db;
            && "i" in db.invoices && db.invoices["i"].status == Uncollectible && db.HasDebit("i")
  {
    var first := ReachFunded();
    var second := ReachDebited();
    var refused := Stepped(DebitedBehindItsBack(), Refuse(2));
    var last := Stepped(refused, CommitRefusal(2));
    assert last.db.ledger[1].invoice == Some("i");
    states := first + second[1..] + [refused, last];
    hide Next, ProperTopUps;
    forall i | 0 <= i < |states| - 1
      ensures Next(states[i], states[i + 1])
    {
      assert 6 <= i < 10 ==> states[i] == second[i - 6] && states[i + 1] == second[i - 5];
    }
    forall i | 0 <= i < |states|
      ensures ProperTopUps(states[i])
    {
      assert 6 <= i < 11 ==> states[i] == second[i - 6];
      if i >= 11 { RefusalKeepsTopUps(DebitedBehindItsBack(), 2); }
    }
  }

  lemma RefusalKeepsTopUps(s: State, p: nat)
    requires ProperTopUps(s) && Enabled(s, Refuse(p))
    ensures ProperTopUps(Do(s, Refuse(p)))
    ensures Enabled(Do(s, Refuse(p)), CommitRefusal(p))
    ensures ProperTopUps(Do(Do(s, Refuse(p)), CommitRefusal(p)))
  {
  }

  // ----- The adapter -----

  class PrepaidWallets {
    var wallets: map<string, int>
    var ledger: seq<Entry>
    var invoices: map<string, Invoice>

    function Contents(): Db
      reads this
    {
      Db(wallets, ledger, invoices)
    }

    constructor ()
      ensures Contents() == Db(map[], [], map[]) && Books(Contents())
    {
      wallets, ledger, invoices := map[], [], map[];
    }

    method IssueInvoice(id: string, org: string, cents: int)
      requires id !in invoices
      modifies this
      ensures Contents() == Apply(old(Contents()), OpIssue(id, org, cents))
      ensures old(Books(Contents())) ==> Books(Contents())
    {
      invoices := invoices[id := Invoice(org, cents, Open)];
    }

    /** `charge_invoice`, on the invoice object that the caller holds; returns its status. */
    method ChargeInvoice(id: string, view: Invoice) returns (status: Status)
      requires id in invoices && SameInvoice(view, invoices[id])
      modifies this
      ensures Contents() == Charge(old(Contents()), id, view)
      ensures id in invoices && status == if view.status == Open then invoices[id].status else view.status
      ensures old(Books(Contents())) ==> Books(Contents())
    {
      if Books(Contents()) { ChargeKeepsBooks(Contents(), id, view); }
      if view.status != Open { return view.status; }
      if view.totalCents == 0 {
        invoices := invoices[id := invoices[id].(status := Paid)];
        return Paid;
      }
      if !(view.org in wallets && wallets[view.org] >= view.totalCents) {
        invoices := invoices[id := invoices[id].(status := Uncollectible)];
        return Uncollectible;
      }
      var key := InvoiceKey(id);
      var used := KeyUsed(key);
      if used { return invoices[id].status; }
      wallets := wallets[view.org := wallets[view.org] - view.totalCents];
      ledger := ledger + [Entry(view.org, -view.totalCents, key, Some(id))];
      invoices := invoices[id := invoices[id].(status := Paid)];
      return Paid;
    }

    method KeyUsed(key: string) returns (used: bool)
      ensures used == Contents().HasKey(key)
    {
      used := exists i | 0 <= i < |ledger| :: ledger[i].key == key;
    }

    /** `top_up`, creating the wallet on first use; returns the balance. */
    method TopUp(org: string, cents: int, key: string) returns (balance: int)
      modifies this
      ensures Contents() == Credited(old(Contents()), org, cents, key)
      ensures balance == Contents().Balance(org)
      ensures balance == old(Contents().Balance(org)) + (if old(Contents().HasKey(key)) then 0 else cents)
      ensures old(Books(Contents())) && cents > 0 ==> Books(Contents())
    {
      if Books(Contents()) && cents > 0 { CreditKeepsBooks(Contents(), org, cents, key); }
      balance := if org in wallets then wallets[org] else 0;
      var used := KeyUsed(key);
      if used { return; }
      ledger := ledger + [Entry(org, cents, key, None)];
      balance := balance + cents;
      wallets := wallets[org := balance];
    }
  }
}
