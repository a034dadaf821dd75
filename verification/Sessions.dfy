/** Rotating refresh tokens with reuse detection, each operation as one atomic transaction.

    Tokens stand for their hashes; new tokens and new family ids are parameters. */
module Sessions {
  /** A row of `refresh_tokens`.  `link` numbers the rotations of a family; it is not a column, and no
      operation reads it. */
  datatype Row = Row(user: string, family: string, expiresAt: int, used: bool, revoked: bool, link: nat)
  type Table = map<string, Row>

  datatype Outcome = Rotated(user: string, token: string) | Unknown | Expired | Reused

  predicate InFamily(t: Table, token: string, family: string) { token in t && t[token].family == family }

  function Revoked(t: Table, tokens: set<string>): Table {
    map token | token in t :: if token in tokens then t[token].(revoked := true) else t[token]
  }

  function Family(t: Table, family: string): set<string> { set token | token in t && t[token].family == family }
  function OfUser(t: Table, user: string): set<string> { set token | token in t && t[token].user == user }

  function Login(t: Table, token: string, user: string, family: string, expiresAt: int): Table {
    t[token := Row(user, family, expiresAt, false, false, 0)]
  }

  /** `rotate_refresh_token`: `next` is the successor it would mint. */
  function RotatedBy(t: Table, token: string, next: string, now: int, lifetime: int): (Outcome, Table) {
    if token !in t then (Unknown, t)
    else
      var row := t[token];
      if row.expiresAt <= now then (Expired, t)
      else if row.used || row.revoked then (Reused, Revoked(t, Family(t, row.family)))
      else (Rotated(row.user, next), Succeeded(t, token, next, now + lifetime))
  }

  /** The table once `token` is spent and `next` follows it. */
  function Succeeded(t: Table, token: string, next: string, expiresAt: int): Table
    requires token in t
  {
    var row := t[token];
    t[token := row.(used := true)][next := Row(row.user, row.family, expiresAt, false, false, row.link + 1)]
  }

  function Logout(t: Table, token: string): Table {
    if token in t then Revoked(t, Family(t, t[token].family)) else t
  }

  // ----- Families -----

  /** The tokens of a family form one chain: one token per link, all of one user, and every token
      but the last is spent. */
  ghost predicate Chain(t: Table) {
    forall a, b | a in t && b in t && t[a].family == t[b].family ::
      && t[a].user == t[b].user
      && (t[a].link == t[b].link ==> a == b)
      && (t[a].link < t[b].link ==> t[a].used)
  }

  /** A family is revoked as a whole or not at all. */
  ghost predicate Uniform(t: Table) {
    forall a, b | a in t && b in t && t[a].family == t[b].family :: t[a].revoked == t[b].revoked
  }

  ghost predicate Dead(t: Table, family: string) {
    && (exists a :: InFamily(t, a, family))
    && forall a | InFamily(t, a, family) :: t[a].revoked
  }

  lemma SuccessionKeepsChain(t: Table, token: string, next: string, expiresAt: int)
    requires Chain(t) && token in t && !t[token].used && next !in t
    ensures Chain(Succeeded(t, token, next, expiresAt))
    ensures Uniform(t) && !t[token].revoked ==> Uniform(Succeeded(t, token, next, expiresAt))
  {
  }

  lemma LoginKeepsChain(t: Table, token: string, user: string, family: string, expiresAt: int)
    requires Chain(t) && Uniform(t) && token !in t && Family(t, family) == {}
    ensures Chain(Login(t, token, user, family, expiresAt)) && Uniform(Login(t, token, user, family, expiresAt))
  {
    forall a | a in t ensures t[a].family != family {
      assert t[a].family == family ==> a in Family(t, family);
    }
  }

  // ----- Runs of atomic operations -----

  datatype State = State(now: int, table: Table)
  datatype Op =
    | OpLogin(token: string, user: string, family: string)
    | OpRefresh(token: string, next: string)
    | OpLogout(token: string)
    | OpLogoutAll(user: string)
    | OpWait(seconds: nat)

  /** Random tokens and family ids are new. */
  ghost predicate Fresh(s: State, op: Op) {
    match op
    case OpLogin(token, _, family) => token !in s.table && Family(s.table, family) == {}
    case OpRefresh(_, next) => next !in s.table
    case _ => true
  }

  function Apply(s: State, op: Op, lifetime: int): State {
    match op
    case OpLogin(token, user, family) => s.(table := Login(s.table, token, user, family, s.now + lifetime))
    case OpRefresh(token, next) => s.(table := RotatedBy(s.table, token, next, s.now, lifetime).1)
    case OpLogout(token) => s.(table := Logout(s.table, token))
    case OpLogoutAll(user) => s.(table := Revoked(s.table, OfUser(s.table, user)))
    case OpWait(seconds) => s.(now := s.now + seconds)
  }

  function After(s: State, ops: seq<Op>, lifetime: int): State
    decreases |ops|
  {
    if ops == [] then s else After(Apply(s, ops[0], lifetime), ops[1..], lifetime)
  }

  ghost predicate AllFresh(s: State, ops: seq<Op>, lifetime: int)
    decreases |ops|
  {
    ops != [] ==> Fresh(s, ops[0]) && AllFresh(Apply(s, ops[0], lifetime), ops[1..], lifetime)
  }

  ghost predicate Sound(s: State) { Chain(s.table) && Uniform(s.table) }

  lemma RevokingKeepsSound(t: Table, tokens: set<string>)
    requires Chain(t) && Uniform(t)
    requires forall a, b | a in t && b in t && t[a].family == t[b].family :: a in tokens <==> b in tokens
    ensures Chain(Revoked(t, tokens)) && Uniform(Revoked(t, tokens))
  {
  }

  lemma FamilyRevocationKeepsSound(t: Table, family: string)
    requires Chain(t) && Uniform(t)
    ensures Chain(Revoked(t, Family(t, family))) && Uniform(Revoked(t, Family(t, family)))
  {
    RevokingKeepsSound(t, Family(t, family));
  }

  /** A user's tokens are whole families. */
  lemma UserRevocationKeepsSound(t: Table, user: string)
    requires Chain(t) && Uniform(t)
    ensures Chain(Revoked(t, OfUser(t, user))) && Uniform(Revoked(t, OfUser(t, user)))
  {
    RevokingKeepsSound(t, OfUser(t, user));
  }

  lemma OpKeepsSound(s: State, op: Op, lifetime: int)
    requires Sound(s) && Fresh(s, op)
    ensures Sound(Apply(s, op, lifetime))
  {
    hide Chain, Uniform;
    var t := s.table;
    match op
    case OpLogin(token, user, family) => LoginKeepsChain(t, token, user, family, s.now + lifetime);
    case OpRefresh(token, next) =>
      if token in t {
        FamilyRevocationKeepsSound(t, t[token].family);
        if !t[token].used { SuccessionKeepsChain(t, token, next, s.now + lifetime); }
      }
    case OpLogout(token) => if token in t { FamilyRevocationKeepsSound(t, t[token].family); }
    case OpLogoutAll(user) => UserRevocationKeepsSound(t, user);
    case OpWait(_) =>
  }

  /** Over any run of atomic operations families stay chains, revoked as a whole or not at all. */
  lemma {:induction false} RunsKeepSound(s: State, ops: seq<Op>, lifetime: int)
    requires Sound(s) && AllFresh(s, ops, lifetime)
    ensures Sound(After(s, ops, lifetime))
    decreases |ops|
  {
    if ops != [] {
      OpKeepsSound(s, ops[0], lifetime);
      RunsKeepSound(Apply(s, ops[0], lifetime), ops[1..], lifetime);
    }
  }

  /** So in any run a family has at most one token that is still unspent, revoked or not, and all its
      tokens have one user. */
  lemma OneUnspentToken(s: State, ops: seq<Op>, lifetime: int, a: string, b: string)
    requires s.table == map[] && AllFresh(s, ops, lifetime)
    requires var t := After(s, ops, lifetime).table; a in t && b in t && t[a].family == t[b].family
    ensures var t := After(s, ops, lifetime).table; t[a].user == t[b].user && (!t[a].used && !t[b].used ==> a == b)
  {
    RunsKeepSound(s, ops, lifetime);
  }

  lemma OpKeepsDead(s: State, op: Op, lifetime: int, family: string)
    requires Fresh(s, op) && Dead(s.table, family)
    ensures Dead(Apply(s, op, lifetime).table, family)
    ensures Family(Apply(s, op, lifetime).table, family) == Family(s.table, family)
  {
    var a :| InFamily(s.table, a, family);
    var t' := Apply(s, op, lifetime).table;
    assert a in Family(s.table, family);
    assert InFamily(t', a, family);
    assert forall b :: InFamily(t', b, family) ==> InFamily(s.table, b, family);
  }

  /** A dead family stays dead: over any run it gains no token, and none of its tokens ever rotates. */
  lemma {:induction false} DeadFamilyStaysDead(s: State, ops: seq<Op>, lifetime: int, family: string)
    requires AllFresh(s, ops, lifetime) && Dead(s.table, family)
    ensures var t := After(s, ops, lifetime).table;
            && Dead(t, family) && Family(t, family) == Family(s.table, family)
            && forall token, next, now: int | InFamily(t, token, family) ::
                 RotatedBy(t, token, next, now, lifetime).0 == if t[token].expiresAt <= now then Expired else Reused
    decreases |ops|
  {
    if ops != [] {
      OpKeepsDead(s, ops[0], lifetime, family);
      DeadFamilyStaysDead(Apply(s, ops[0], lifetime), ops[1..], lifetime, family);
    }
  }

  /** Each way to end a session kills its family: logout, logout everywhere, and presenting an
      unexpired token again once it was spent. */
  lemma EndingKillsFamily(s: State, token: string, next: string, lifetime: int)
    requires Sound(s) && token in s.table
    ensures var row := s.table[token];
            && Dead(Logout(s.table, token), row.family)
            && Dead(Revoked(s.table, OfUser(s.table, row.user)), row.family)
            && (row.used && row.expiresAt > s.now ==>
                  RotatedBy(s.table, token, next, s.now, lifetime).0 == Reused
                  && Dead(RotatedBy(s.table, token, next, s.now, lifetime).1, row.family))
  {
    var row := s.table[token];
    assert InFamily(Logout(s.table, token), token, row.family);
    assert InFamily(Revoked(s.table, OfUser(s.table, row.user)), token, row.family);
  }

  lemma UserRevocationKills(t: Table, user: string)
    requires Chain(t) && Uniform(t)
    ensures var t' := Revoked(t, OfUser(t, user));
            forall token | token in t' && t'[token].user == user :: Dead(t', t'[token].family)
  {
    var t' := Revoked(t, OfUser(t, user));
    forall token | token in t' && t'[token].user == user
      ensures Dead(t', t'[token].family)
    {
      EndingKillsFamily(State(0, t), token, "", 0);
    }
  }

  /** A token rotates exactly when it is known, unexpired, unspent and unrevoked; then it is spent, and
      presenting it once more, at any time before it expires, kills the successor with the family. */
  lemma ReplayKillsSuccessor(s: State, token: string, next: string, later: int, other: string, lifetime: int)
    requires Sound(s) && next !in s.table && later >= s.now
    ensures RotatedBy(s.table, token, next, s.now, lifetime).0.Rotated? <==>
            (token in s.table && s.table[token].expiresAt > s.now && !s.table[token].used && !s.table[token].revoked)
    ensures RotatedBy(s.table, token, next, s.now, lifetime).0.Rotated? && s.table[token].expiresAt > later ==>
              var spent := RotatedBy(s.table, token, next, s.now, lifetime).1;
              var (outcome, t) := RotatedBy(spent, token, other, later, lifetime);
              outcome == Reused && next in t && Dead(t, t[next].family)
  {
    if RotatedBy(s.table, token, next, s.now, lifetime).0.Rotated? {
      var t := RotatedBy(s.table, token, next, s.now, lifetime).1;
      assert InFamily(Revoked(t, Family(t, t[token].family)), next, t[token].family);
    }
  }

  /** Whatever was revoked before, a new login's token rotates, for its full lifetime and no longer. */
  lemma FreshLoginRotates(s: State, token: string, user: string, family: string, next: string,
                          later: int, lifetime: int)
    requires Fresh(s, OpLogin(token, user, family)) && later >= s.now
    ensures RotatedBy(Apply(s, OpLogin(token, user, family), lifetime).table, token, next, later, lifetime).0
         == if later < s.now + lifetime then Rotated(user, next) else Expired
  {
  }

  /** So does each successor: presented at `later`, it rotates for the same user iff its own lifetime,
      counted from the rotation that minted it, is not over. */
  lemma SuccessorRotates(t: Table, token: string, next: string, now: int, after: string, later: int, lifetime: int)
    requires next !in t && later >= now
    requires RotatedBy(t, token, next, now, lifetime).0.Rotated?
    ensures var t' := RotatedBy(t, token, next, now, lifetime).1;
            && token in t && RotatedBy(t, token, next, now, lifetime).0 == Rotated(t[token].user, next)
            && RotatedBy(t', next, after, later, lifetime).0
               == if later < now + lifetime then Rotated(t[token].user, after) else Expired
  {
  }

  /** A client that presents, one after the other, the token it got last. */
  function Refreshed(t: Table, token: string, nexts: seq<string>, times: seq<int>, lifetime: int): (Table, seq<Outcome>)
    requires |nexts| == |times|
    decreases |nexts|
  {
    if nexts == [] then (t, [])
    else
      var (outcome, t') := RotatedBy(t, token, nexts[0], times[0], lifetime);
      var (last, outcomes) := Refreshed(t', nexts[0], nexts[1..], times[1..], lifetime);
      (last, [outcome] + outcomes)
  }

  /** Each successor is new, and each refresh comes within a lifetime of the one before. */
  predicate InTime(t: Table, expiresAt: int, nexts: seq<string>, times: seq<int>, lifetime: int)
    requires |nexts| == |times|
    decreases |nexts|
  {
    nexts != [] ==>
    && nexts[0] !in t && nexts[0] !in nexts[1..] && times[0] < expiresAt
    && InTime(t, times[0] + lifetime, nexts[1..], times[1..], lifetime)
  }

  /** A session in use never ends by itself: any number of refreshes, each in time, are all granted, to
      one user. */
  lemma {:induction false} SessionInUseGoesOn(t: Table, token: string, nexts: seq<string>, times: seq<int>,
                                              lifetime: int)
    requires |nexts| == |times| && token in t && !t[token].used && !t[token].revoked
    requires InTime(t, t[token].expiresAt, nexts, times, lifetime)
    ensures var outcomes := Refreshed(t, token, nexts, times, lifetime).1;
            && |outcomes| == |nexts|
            && forall i | 0 <= i < |nexts| :: outcomes[i] == Rotated(t[token].user, nexts[i])
    decreases |nexts|
  {
    if nexts != [] {
      var (outcome, t') := RotatedBy(t, token, nexts[0], times[0], lifetime);
      assert outcome == Rotated(t[token].user, nexts[0]);
      assert t'.Keys == t.Keys + {nexts[0]};
      InTimeStill(t, t', nexts[0], times[0] + lifetime, nexts[1..], times[1..], lifetime);
      SessionInUseGoesOn(t', nexts[0], nexts[1..], times[1..], lifetime);
    }
  }

  lemma {:induction false} InTimeStill(t: Table, t': Table, added: string, expiresAt: int, nexts: seq<string>,
                                       times: seq<int>, lifetime: int)
    requires |nexts| == |times| && InTime(t, expiresAt, nexts, times, lifetime)
    requires t'.Keys == t.Keys + {added} && added !in nexts
    ensures InTime(t', expiresAt, nexts, times, lifetime)
    decreases |nexts|
  {
    if nexts != [] { InTimeStill(t, t', added, times[0] + lifetime, nexts[1..], times[1..], lifetime); }
  }

  /** An unknown or expired token is refused and changes nothing; spending, replaying and logging out
      leave every other family as it is, and logging out everywhere every other user. */
  lemma OthersAreSpared(t: Table, token: string, next: string, now: int, lifetime: int, user: string, other: string)
    requires other in t && next !in t
    ensures token !in t ==> RotatedBy(t, token, next, now, lifetime) == (Unknown, t) && Logout(t, token) == t
    ensures token in t && t[token].expiresAt <= now ==> RotatedBy(t, token, next, now, lifetime) == (Expired, t)
    ensures token in t && t[token].family != t[other].family ==>
              var t' := RotatedBy(t, token, next, now, lifetime).1;
              && other in t' && t'[other] == t[other]
              && other in Logout(t, token) && Logout(t, token)[other] == t[other]
    ensures t[other].user != user ==>
              other in Revoked(t, OfUser(t, user)) && Revoked(t, OfUser(t, user))[other] == t[other]
  {
  }

  // ----- The functions on a table that they update in place -----

  class RefreshTokens {
    var table: Table

    ghost predicate Valid()
      reads this
    {
      Chain(table) && Uniform(table)
    }

    constructor ()
      ensures Valid() && table == map[]
    {
      table := map[];
    }

    /** `issue_refresh_token` for a new family. */
    method Issue(token: string, user: string, family: string, now: int, lifetime: int)
      requires Valid() && token !in table && Family(table, family) == {}
      modifies this
      ensures Valid() && table == Login(old(table), token, user, family, now + lifetime)
    {
      LoginKeepsChain(table, token, user, family, now + lifetime);
      table := table[token := Row(user, family, now + lifetime, false, false, 0)];
    }

    method Rotate(token: string, next: string, now: int, lifetime: int) returns (outcome: Outcome)
      requires Valid() && next !in table
      modifies this
      ensures Valid() && (outcome, table) == RotatedBy(old(table), token, next, now, lifetime)
      ensures outcome == Reused ==> Dead(table, table[token].family)
    {
      OpKeepsSound(State(now, table), OpRefresh(token, next), lifetime);
      if token !in table { return Unknown; }
      var row := table[token];
      if row.expiresAt <= now { return Expired; }
      var claimed := !row.used && !row.revoked;
      if claimed { table := table[token := row.(used := true)]; }
      if !claimed {
        RevokeFamily(row.family);
        assert InFamily(table, token, row.family);
        return Reused;
      }
      table := table[next := Row(row.user, row.family, now + lifetime, false, false, row.link + 1)];
      return Rotated(row.user, next);
    }

    method RevokeFamily(family: string)
      modifies this
      ensures table == Revoked(old(table), Family(old(table), family))
    {
      table := map token | token in table ::
        if table[token].family == family then table[token].(revoked := true) else table[token];
    }

    method RevokeFamilyOf(token: string)
      requires Valid()
      modifies this
      ensures Valid() && table == Logout(old(table), token)
      ensures token in table ==> Dead(table, table[token].family)
    {
      OpKeepsSound(State(0, table), OpLogout(token), 0);
      if token in table {
        EndingKillsFamily(State(0, table), token, "", 0);
        RevokeFamily(table[token].family);
      }
    }

    method RevokeAllForUser(user: string)
      requires Valid()
      modifies this
      ensures Valid() && table == Revoked(old(table), OfUser(old(table), user))
      ensures forall token | token in table && table[token].user == user :: Dead(table, table[token].family)
    {
      hide Dead, Chain, Uniform;
      UserRevocationKeepsSound(table, user);
      UserRevocationKills(table, user);
      ghost var revoked := Revoked(table, OfUser(table, user));
      table := map token | token in table ::
        if table[token].user == user then table[token].(revoked := true) else table[token];
      assert table == revoked;
    }
  }
}
