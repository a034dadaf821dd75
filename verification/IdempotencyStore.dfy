/** The idempotency store: one row per (scope, key), and the transactions that touch it.

    Each function is the effect of one committed transaction on the table; the class at the end
    runs the same transactions on a table that it updates in place. */
module IdempotencyStore {
  import opened Http

  datatype Id = Id(scope: string, key: string)

  datatype Status = InProgress | Completed

  /** A row of `idempotency_keys`.  Headers are stored as latin-1 text. */
  datatype Row = Row(
    hash: string,
    status: Status,
    responseStatus: Option<int>,
    responseHeaders: Option<seq<(string, string)>>,
    responseBody: Option<Bytes>,
    expiresAt: int)

  type Table = map<Id, Row>

  /** What a handler streamed, or what a duplicate request gets instead of running it. */
  datatype Response = Response(status: int, headers: seq<Header>, body: Bytes)

  datatype Outcome = Owned | Replay(cached: Response) | Busy | Mismatch

  // ----- Headers at rest -----

  const EXCLUDED: set<Bytes> :=
    {Encode("set-cookie"), Encode("connection"), Encode("keep-alive"), Encode("transfer-encoding"),
     Encode("upgrade"), Encode("te"), Encode("trailers"), Encode("proxy-authenticate"),
     Encode("proxy-authorization")}

  predicate IsExcluded(h: Header) { Lower(h.name) in EXCLUDED }

  /** The text that `complete` stores for the headers. */
  function StoredHeaders(headers: seq<Header>): seq<(string, string)> {
    if headers == [] then []
    else (if IsExcluded(headers[0]) then [] else [(Decode(headers[0].name), Decode(headers[0].value))])
         + StoredHeaders(headers[1..])
  }

  predicate AllLatin1(stored: seq<(string, string)>) {
    forall i | 0 <= i < |stored| :: IsLatin1(stored[i].0) && IsLatin1(stored[i].1)
  }

  /** The headers that `claim` reads back. */
  function LoadedHeaders(stored: seq<(string, string)>): seq<Header>
    requires AllLatin1(stored)
  {
    if stored == [] then []
    else [Header(Encode(stored[0].0), Encode(stored[0].1))] + LoadedHeaders(stored[1..])
  }

  /** The headers a replay must carry: the handler's own, in order, without the excluded ones. */
  function Kept(headers: seq<Header>): seq<Header> {
    if headers == [] then []
    else (if IsExcluded(headers[0]) then [] else [headers[0]]) + Kept(headers[1..])
  }

  /** Storing headers as text and reading them back loses nothing but the excluded ones. */
  lemma {:induction false} HeadersSurviveStorage(headers: seq<Header>)
    ensures AllLatin1(StoredHeaders(headers))
    ensures LoadedHeaders(StoredHeaders(headers)) == Kept(headers)
  {
    if headers != [] {
      HeadersSurviveStorage(headers[1..]);
      var rest := StoredHeaders(headers[1..]);
      var h := headers[0];
      if !IsExcluded(h) {
        EncodeDecode(h.name);
        EncodeDecode(h.value);
        assert ([(Decode(h.name), Decode(h.value))] + rest)[1..] == rest;
      } else {
        assert [] + rest == rest;
      }
    }
  }

  lemma {:induction false} KeptAreNotExcluded(a: seq<Header>)
    ensures forall h :: h in Kept(a) <==> h in a && !IsExcluded(h)
  {
    hide IsExcluded;
    if a != [] {
      KeptAreNotExcluded(a[1..]);
      assert a == [a[0]] + a[1..];
    }
  }

  lemma {:induction false} KeptAppends(a: seq<Header>, b: seq<Header>)
    ensures Kept(a + b) == Kept(a) + Kept(b)
  {
    if a == [] {
      assert a + b == b;
    } else {
      KeptAppends(a[1..], b);
      hide IsExcluded;
      var first := if IsExcluded(a[0]) then [] else [a[0]];
      assert Kept(a) == first + Kept(a[1..]);
      assert (a + b)[0] == a[0] && (a + b)[1..] == a[1..] + b;
      assert Kept(a + b) == first + Kept(a[1..] + b);
      hide Kept;
      Regroup(first, Kept(a[1..]), Kept(b));
    }
  }

  /** Order is preserved, header by header, and nothing excluded is ever kept. */
  lemma KeptPreservesOrder(a: seq<Header>, b: seq<Header>)
    ensures Kept(a + b) == Kept(a) + Kept(b)
    ensures forall h :: h in Kept(a) <==> h in a && !IsExcluded(h)
  {
    hide Kept, IsExcluded;
    KeptAppends(a, b);
    KeptAreNotExcluded(a);
  }

  /** Which headers are never replayed: these nine, in any letter case, and no others. */
  lemma NeverReplayed(h: Header)
    ensures Kept([h]) == if Lower(h.name) in {
              Encode("set-cookie"), Encode("connection"), Encode("keep-alive"), Encode("transfer-encoding"),
              Encode("upgrade"), Encode("te"), Encode("trailers"), Encode("proxy-authenticate"),
              Encode("proxy-authorization")} then [] else [h]
  {
    assert [h][1..] == [];
  }

  lemma CookiesAreDroppedLocationIsKept(value: Bytes)
    ensures Kept([Header(Encode("Set-Cookie"), value)]) == Kept([Header(Encode("SET-COOKIE"), value)]) == []
    ensures Kept([Header(Encode("location"), value)]) == [Header(Encode("location"), value)]
    ensures Kept([Header(Encode("ETag"), value)]) == [Header(Encode("ETag"), value)]
  {
    assert Lower(Encode("Set-Cookie")) == Encode("set-cookie") && Lower(Encode("SET-COOKIE")) == Encode("set-cookie");
    NeverReplayed(Header(Encode("Set-Cookie"), value));
    NeverReplayed(Header(Encode("SET-COOKIE"), value));
    NotExcluded(Header(Encode("location"), value), 8, 108);
    NotExcluded(Header(Encode("ETag"), value), 4, 101);
  }

  /** No excluded name has this length and this first letter. */
  lemma NotExcluded(h: Header, length: nat, first: byte)
    requires |h.name| == length > 0 && Lower(h.name)[0] == first && (length, first) in {(8, 108), (4, 101)}
    ensures Kept([h]) == [h]
  {
    NeverReplayed(h);
    assert |Lower(h.name)| == length;
  }

  // ----- The transactions -----

  function Claimed(hash: string, expiresAt: int): Row {
    Row(hash, InProgress, None, None, None, expiresAt)
  }

  function Answered(row: Row, response: Response): Row {
    row.(status := Completed,
         responseStatus := Some(response.status),
         responseHeaders := Some(StoredHeaders(response.headers)),
         responseBody := Some(response.body))
  }

  /** The columns hold what `complete` may have written. */
  predicate Readable(row: Row) {
    row.responseHeaders.Some? ==> AllLatin1(row.responseHeaders.value)
  }

  predicate AllReadable(table: Table) { forall id | id in table :: Readable(table[id]) }

  function CachedOf(row: Row): Response
    requires Readable(row)
  {
    Response(if row.responseStatus.Some? then row.responseStatus.value else 200,
             LoadedHeaders(if row.responseHeaders.Some? then row.responseHeaders.value else []),
             if row.responseBody.Some? then row.responseBody.value else [])
  }

  /** The answer a duplicate may be given for `response`. */
  function Cacheable(response: Response): Response { response.(headers := Kept(response.headers)) }

  lemma AnsweredIsCached(row: Row, response: Response)
    ensures Readable(Answered(row, response))
    ensures CachedOf(Answered(row, response)) == Cacheable(response)
  {
    HeadersSurviveStorage(response.headers);
  }

  /** The locked second look at the row, after a lost INSERT.  `now` was read before that INSERT. */
  function InspectRow(table: Table, id: Id, hash: string, now: int, expiresAt: int): (Outcome, Table)
    requires AllReadable(table)
  {
    if id !in table then (Busy, table)
    else if table[id].expiresAt <= now then (Owned, table[id := Claimed(hash, expiresAt)])
    else if table[id].hash != hash then (Mismatch, table)
    else if table[id].status == Completed then (Replay(CachedOf(table[id])), table)
    else (Busy, table)
  }

  /** The whole claim when nothing comes between the INSERT and the second look. */
  function ClaimRow(table: Table, id: Id, hash: string, now: int, ttl: int): (Outcome, Table)
    requires AllReadable(table)
  {
    if id !in table then (Owned, table[id := Claimed(hash, now + ttl)])
    else InspectRow(table, id, hash, now, now + ttl)
  }

  function CompleteRow(table: Table, id: Id, response: Response): Table {
    if id in table then table[id := Answered(table[id], response)] else table
  }

  function ReleaseRow(table: Table, id: Id): Table {
    if id in table && table[id].status == InProgress then table - {id} else table
  }

  function Expired(table: Table, now: int): set<Id> {
    set id | id in table && table[id].expiresAt <= now
  }

  function PurgeRows(table: Table, now: int): Table { table - Expired(table, now) }

  // ----- An expired row is as good as no row -----

  /** The row under `id`, unless its time is over. */
  function Current(table: Table, id: Id, now: int): Option<Row> {
    if id in table && table[id].expiresAt > now then Some(table[id]) else None
  }

  /** A claim is granted exactly when no current row stands in its way: no key stays wedged. */
  lemma OwnedIffNoCurrentRow(table: Table, id: Id, hash: string, now: int, ttl: int)
    requires AllReadable(table)
    ensures ClaimRow(table, id, hash, now, ttl).0 == Owned <==> Current(table, id, now) == None
  {
  }

  /** A claim holds its key for exactly its TTL, whoever asks. */
  lemma ClaimLastsItsTtl(table: Table, id: Id, hash: string, now: int, ttl: int, other: string, later: int, ttl': int)
    requires AllReadable(table) && Current(table, id, now) == None && later >= now
    ensures var claimed := ClaimRow(table, id, hash, now, ttl).1;
            && AllReadable(claimed)
            && (ClaimRow(claimed, id, other, later, ttl').0 == Owned <==> later >= now + ttl)
  {
  }

  /** What a duplicate is told while a row is current: another request is a mismatch, whether or not the
      first has answered; the same request waits for the answer, or gets it.  The row stays. */
  lemma DuplicateIsTold(table: Table, id: Id, hash: string, now: int, ttl: int)
    requires AllReadable(table) && id in table && table[id].expiresAt > now
    ensures var (outcome, table') := ClaimRow(table, id, hash, now, ttl);
            && table' == table
            && (outcome == Mismatch <==> hash != table[id].hash)
            && (outcome == Busy <==> hash == table[id].hash && table[id].status == InProgress)
            && (outcome.Replay? <==> hash == table[id].hash && table[id].status == Completed)
  {
  }

  /** A release, however late, never discards an answer, and it frees the key of a claim that has none. */
  lemma ReleaseSparesAnswers(table: Table, id: Id, response: Response, hash: string, now: int, ttl: int)
    requires AllReadable(table) && id in table && table[id].expiresAt > now
    ensures var answered := CompleteRow(table, id, response);
            && AllReadable(ReleaseRow(answered, id))
            && ClaimRow(ReleaseRow(answered, id), id, table[id].hash, now, ttl).0 == Replay(Cacheable(response))
    ensures table[id].status == InProgress ==>
              AllReadable(ReleaseRow(table, id)) && ClaimRow(ReleaseRow(table, id), id, hash, now, ttl).0 == Owned
  {
    AnsweredIsCached(table[id], response);
    AfterIsReadable(table, now, CallComplete(id, response));
    AfterIsReadable(table, now, CallRelease(id));
  }

  /** One call on the store, or time passing, or the scheduled purge. */
  datatype Call =
    | CallClaim(id: Id, hash: string, ttl: int)
    | CallComplete(id: Id, response: Response)
    | CallRelease(id: Id)
    | CallPurge
    | Tick(seconds: nat)

  ghost predicate Alike(a: Table, b: Table, now: int) {
    forall id :: Current(a, id, now) == Current(b, id, now)
  }

  function After(table: Table, now: int, call: Call): Table
    requires AllReadable(table)
  {
    match call
    case CallClaim(id, hash, ttl) => ClaimRow(table, id, hash, now, ttl).1
    case CallComplete(id, response) => CompleteRow(table, id, response)
    case CallRelease(id) => ReleaseRow(table, id)
    case CallPurge => PurgeRows(table, now)
    case Tick(_) => table
  }

  lemma AfterIsReadable(table: Table, now: int, call: Call)
    requires AllReadable(table)
    ensures AllReadable(After(table, now, call))
  {
    if call.CallComplete? { HeadersSurviveStorage(call.response.headers); }
  }

  /** The outcomes of all claims in a run of calls. */
  function Outcomes(table: Table, now: int, calls: seq<Call>): seq<Outcome>
    requires AllReadable(table)
    decreases |calls|
  {
    if calls == [] then []
    else
      var call := calls[0];
      AfterIsReadable(table, now, call);
      (if call.CallClaim? then [ClaimRow(table, call.id, call.hash, now, call.ttl).0] else [])
      + Outcomes(After(table, now, call), if call.Tick? then now + call.seconds else now, calls[1..])
  }

  function WithoutPurges(calls: seq<Call>): seq<Call> {
    if calls == [] then []
    else (if calls[0].CallPurge? then [] else [calls[0]]) + WithoutPurges(calls[1..])
  }

  lemma CallsKeepAlike(a: Table, b: Table, now: int, call: Call)
    requires AllReadable(a) && AllReadable(b) && Alike(a, b, now) && !call.CallPurge?
    ensures call.CallClaim? ==>
              ClaimRow(a, call.id, call.hash, now, call.ttl).0 == ClaimRow(b, call.id, call.hash, now, call.ttl).0
    ensures Alike(After(a, now, call), After(b, now, call), if call.Tick? then now + call.seconds else now)
  {
    var a', b' := After(a, now, call), After(b, now, call);
    var later := if call.Tick? then now + call.seconds else now;
    forall id
      ensures Current(a', id, later) == Current(b', id, later)
    {
      assert Current(a, id, now) == Current(b, id, now);
    }
    if call.CallClaim? { assert Current(a, call.id, now) == Current(b, call.id, now); }
  }

  lemma PurgeKeepsAlike(a: Table, b: Table, now: int)
    requires AllReadable(a) && Alike(a, b, now)
    ensures AllReadable(PurgeRows(a, now)) && Alike(PurgeRows(a, now), b, now)
  {
    forall id ensures Current(PurgeRows(a, now), id, now) == Current(b, id, now) {
      assert Current(a, id, now) == Current(b, id, now);
    }
  }

  /** Purging, at any moments and any number of times, changes the outcome of no claim. */
  lemma {:induction false} PurgesAreInvisible(a: Table, b: Table, now: int, calls: seq<Call>)
    requires AllReadable(a) && AllReadable(b) && Alike(a, b, now)
    ensures Outcomes(a, now, calls) == Outcomes(b, now, WithoutPurges(calls))
    decreases |calls|
  {
    if calls != [] {
      var call, rest := calls[0], calls[1..];
      AfterIsReadable(a, now, call);
      if call.CallPurge? {
        hide AllReadable, Alike, PurgeRows, ClaimRow;
        assert WithoutPurges(calls) == WithoutPurges(rest);
        PurgeKeepsAlike(a, b, now);
        PurgesAreInvisible(PurgeRows(a, now), b, now, rest);
        assert Outcomes(a, now, calls) == Outcomes(PurgeRows(a, now), now, rest);
      } else {
        var w := WithoutPurges(calls);
        assert w[0] == call && w[1..] == WithoutPurges(rest);
        AfterIsReadable(b, now, call);
        CallsKeepAlike(a, b, now, call);
        hide AllReadable, Alike, After, ClaimRow, WithoutPurges;
        PurgesAreInvisible(After(a, now, call), After(b, now, call),
                           if call.Tick? then now + call.seconds else now, rest);
      }
    }
  }

  /** So however two schedules of the purge differ, the claims go the same way. */
  lemma PurgeSchedulesDoNotMatter(table: Table, now: int, calls: seq<Call>, calls': seq<Call>)
    requires AllReadable(table) && WithoutPurges(calls) == WithoutPurges(calls')
    ensures Outcomes(table, now, calls) == Outcomes(table, now, calls')
  {
    PurgesAreInvisible(table, table, now, calls);
    PurgesAreInvisible(table, table, now, calls');
  }

  // ----- The adapter -----

  lemma ExpiredCount(table: Table, now: int)
    ensures |PurgeRows(table, now)| == |table| - |Expired(table, now)|
  {
    assert PurgeRows(table, now).Keys == table.Keys - Expired(table, now);
    assert |table.Keys| == |table| && |PurgeRows(table, now).Keys| == |PurgeRows(table, now)|;
  }

  class SqlIdempotencyStore {
    var table: Table

    ghost predicate Valid()
      reads this
    {
      AllReadable(table)
    }

    constructor ()
      ensures Valid() && table == map[]
    {
      table := map[];
    }

    /** First transaction of `claim`: the INSERT, which the unique key refuses to a second row. */
    method TryInsert(id: Id, hash: string, expiresAt: int) returns (won: bool)
      requires Valid()
      modifies this
      ensures Valid()
      ensures won == (id !in old(table))
      ensures table == if won then old(table)[id := Claimed(hash, expiresAt)] else old(table)
    {
      won := id !in table;
      if won { table := table[id := Claimed(hash, expiresAt)]; }
    }

    /** Second transaction of `claim`, on the row locked FOR UPDATE. */
    method InspectLocked(id: Id, hash: string, now: int, expiresAt: int) returns (outcome: Outcome)
      requires Valid()
      modifies this
      ensures Valid()
      ensures (outcome, table) == InspectRow(old(table), id, hash, now, expiresAt)
    {
      if id !in table { return Busy; }
      var record := table[id];
      if record.expiresAt <= now {
        record := record.(hash := hash, status := InProgress, responseStatus := None,
                          responseHeaders := None, responseBody := None, expiresAt := expiresAt);
        table := table[id := record];
        return Owned;
      }
      if record.hash != hash { return Mismatch; }
      if record.status == Completed { return Replay(CachedOf(record)); }
      return Busy;
    }

    method Claim(id: Id, hash: string, ttl: int, now: int) returns (outcome: Outcome)
      requires Valid()
      modifies this
      ensures Valid()
      ensures (outcome, table) == ClaimRow(old(table), id, hash, now, ttl)
      ensures outcome == Owned <==> Current(old(table), id, now) == None
    {
      var won := TryInsert(id, hash, now + ttl);
      if won { return Owned; }
      outcome := InspectLocked(id, hash, now, now + ttl);
    }

    method Complete(id: Id, response: Response)
      requires Valid()
      modifies this
      ensures Valid()
      ensures table == CompleteRow(old(table), id, response)
      ensures id in table ==> CachedOf(table[id]) == Cacheable(response)
    {
      AfterIsReadable(table, 0, CallComplete(id, response));
      if id !in table { return; }
      AnsweredIsCached(table[id], response);
      table := table[id := Answered(table[id], response)];
    }

    method Release(id: Id)
      requires Valid()
      modifies this
      ensures Valid()
      ensures table == ReleaseRow(old(table), id)
    {
      if id in table && table[id].status == InProgress { table := table - {id}; }
    }

    method PurgeExpired(now: int) returns (deleted: nat)
      requires Valid()
      modifies this
      ensures Valid()
      ensures table == PurgeRows(old(table), now) && deleted == |old(table)| - |table|
      ensures forall id :: id in table <==> id in old(table) && old(table)[id].expiresAt > now
      ensures forall id :: Current(table, id, now) == Current(old(table), id, now)
    {
      var expired := Expired(table, now);
      ExpiredCount(table, now);
      table := table - expired;
      deleted := |expired|;
    }
  }
}
