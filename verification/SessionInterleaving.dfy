/** Refresh-token rotation with its statements interleaved, as concurrent transactions on a database
    that shows each statement only committed rows and makes it wait for locked ones.

    A single winner per token survives any interleaving.  Revocation does too, except in one case
    that is pinned down here: an UPDATE that waits for a rotation cannot see the successor that the
    rotation is about to commit. */
module SessionInterleaving {
  import opened Http
  import opened Sessions

  datatype Phase =
    | Presented                                    // the token has arrived
    | Looked                                       // SELECT found it, unexpired
    | Claimed                                      // the conditional UPDATE matched; its row is locked
    | Minted(expiresAt: int)                       // the successor is inserted, not yet committed
    | Revoking(seen: set<string>)                  // UPDATE ... revoked: the rows it saw when it began
    | Over(outcome: Option<Outcome>)

  /** One request: a rotation of `token`, with the successor it will mint, or a logout. */
  datatype Request = Request(token: string, next: string, phase: Phase) {
    predicate Holds(t: string) { token == t && (phase.Claimed? || phase.Minted?) }
  }

  datatype State = Session(now: int, table: Table, requests: map<nat, Request>) {
    ghost predicate Unlocked(token: string) { forall p | p in requests :: !requests[p].Holds(token) }
    ghost predicate AllUnlocked(tokens: set<string>) { forall token | token in tokens :: Unlocked(token) }
    function To(p: nat, phase: Phase): State
      requires p in requests
    {
      this.(requests := requests[p := requests[p].(phase := phase)])
    }
  }

  datatype Step =
    | NewSession(token: string, user: string, family: string, lifetime: int)
    | Present(p: nat, token: string, next: string)
    | Look(p: nat)
    | Claim(p: nat)
    | ClaimFails(p: nat)
    | Mint(p: nat, lifetime: int)
    | Commit(p: nat)
    | BeginLogout(p: nat, token: string)
    | BeginLogoutAll(p: nat, user: string)
    | FinishRevoking(p: nat)
    | Abort(p: nat)
    | Wait(seconds: nat)

  ghost predicate At(s: State, p: nat) { p in s.requests }

  ghost predicate Enabled(s: State, step: Step) {
    match step
    case NewSession(token, _, family, _) =>
      && token !in s.table && Family(s.table, family) == {}
      && forall p | p in s.requests :: s.requests[p].next != token
    case Present(p, _, next) =>
      && p !in s.requests && next !in s.table
      && forall r | r in s.requests :: s.requests[r].next != next
    case Look(p) => At(s, p) && s.requests[p].phase.Presented?
    case Claim(p) =>
      && At(s, p) && s.requests[p].phase.Looked? && s.requests[p].token in s.table
      && !s.table[s.requests[p].token].used && !s.table[s.requests[p].token].revoked
      && s.Unlocked(s.requests[p].token)
    case ClaimFails(p) =>
      && At(s, p) && s.requests[p].phase.Looked? && s.requests[p].token in s.table
      && (s.table[s.requests[p].token].used || s.table[s.requests[p].token].revoked)
    case Mint(p, _) => At(s, p) && s.requests[p].phase.Claimed?
    case Commit(p) => At(s, p) && s.requests[p].phase.Minted? && s.requests[p].token in s.table
    case BeginLogout(p, token) => p !in s.requests && token in s.table
    case BeginLogoutAll(p, _) => p !in s.requests
    case FinishRevoking(p) =>
      At(s, p) && s.requests[p].phase.Revoking? && s.AllUnlocked(s.requests[p].phase.seen)
    case Abort(p) => At(s, p) && !s.requests[p].phase.Over?
    case Wait(_) => true
  }

  ghost function Do(s: State, step: Step): State
    requires Enabled(s, step)
  {
    match step
    case NewSession(token, user, family, lifetime) =>
      s.(table := Login(s.table, token, user, family, s.now + lifetime))
    case Present(p, token, next) => s.(requests := s.requests[p := Request(token, next, Presented)])
    case Look(p) =>
      var token := s.requests[p].token;
      if token !in s.table then s.To(p, Over(Some(Unknown)))
      else if s.table[token].expiresAt <= s.now then s.To(p, Over(Some(Expired)))
      else s.To(p, Looked)
    case Claim(p) => s.To(p, Claimed)
    case ClaimFails(p) => s.To(p, Revoking(Family(s.table, s.table[s.requests[p].token].family)))
    case Mint(p, lifetime) => s.To(p, Minted(s.now + lifetime))
    case Commit(p) =>
      var q := s.requests[p];
      s.To(p, Over(Some(Rotated(s.table[q.token].user, q.next))))
       .(table := Succeeded(s.table, q.token, q.next, q.phase.expiresAt))
    case BeginLogout(p, token) =>
      s.(requests := s.requests[p := Request(token, "", Revoking(Family(s.table, s.table[token].family)))])
    case BeginLogoutAll(p, user) =>
      s.(requests := s.requests[p := Request("", "", Revoking(OfUser(s.table, user)))])
    case FinishRevoking(p) =>
      s.To(p, Over(None)).(table := Revoked(s.table, s.requests[p].phase.seen))
    case Abort(p) => s.To(p, Over(None))
    case Wait(seconds) => s.(now := s.now + seconds)
  }

  // ----- The invariant -----

  /** A row has one holder, and it is unspent and unrevoked for as long as it is held. */
  ghost predicate Held(s: State) {
    && (forall p, r | p in s.requests && r in s.requests && p != r ::
          forall token | s.requests[p].Holds(token) :: !s.requests[r].Holds(token))
    && (forall p | p in s.requests && s.requests[p].Holds(s.requests[p].token) ::
          var token := s.requests[p].token; token in s.table && !s.table[token].used && !s.table[token].revoked)
  }

  predicate Won(q: Request) { q.phase.Over? && q.phase.outcome.Some? && q.phase.outcome.value.Rotated? }
  predicate Rotating(q: Request) { q.phase.Presented? || q.phase.Looked? || q.phase.Claimed? || q.phase.Minted? }

  /** Successors are new until they are committed, and each belongs to one request. */
  ghost predicate Apart(s: State) {
    && (forall p | p in s.requests && Rotating(s.requests[p]) :: s.requests[p].next !in s.table)
    && (forall p, r | p in s.requests && r in s.requests && s.requests[p].next == s.requests[r].next
                      && (Rotating(s.requests[p]) || Won(s.requests[p]))
                      && (Rotating(s.requests[r]) || Won(s.requests[r])) :: p == r)
  }

  /** A winner's successor follows its token in the chain. */
  ghost predicate Follows(t: Table, q: Request) {
    && q.token in t && q.next in t && t[q.token].used
    && t[q.next].family == t[q.token].family && t[q.next].user == t[q.token].user
    && t[q.next].link == t[q.token].link + 1
  }

  ghost predicate Winners(s: State) {
    forall p | p in s.requests && Won(s.requests[p]) :: Follows(s.table, s.requests[p])
  }

  ghost predicate Inv(s: State) { Chain(s.table) && Held(s) && Apart(s) && Winners(s) }

  /** One request moves on; the table stays. */
  ghost predicate MayBecome(s: State, p: nat, q: Request) {
    && (q.Holds(q.token) ==>
          && q.token in s.table && !s.table[q.token].used && !s.table[q.token].revoked
          && forall r | r in s.requests && r != p :: !s.requests[r].Holds(q.token))
    && (Rotating(q) ==>
          || (p in s.requests && Rotating(s.requests[p]) && s.requests[p].next == q.next)
          || (q.next !in s.table && forall r | r in s.requests :: s.requests[r].next != q.next))
    && !Won(q)
  }

  lemma MovingKeepsHeld(s: State, p: nat, q: Request)
    requires Held(s) && MayBecome(s, p, q)
    ensures Held(s.(requests := s.requests[p := q]))
  {
  }

  lemma MovingKeepsApart(s: State, p: nat, q: Request)
    requires Apart(s) && Winners(s) && MayBecome(s, p, q)
    ensures Apart(s.(requests := s.requests[p := q])) && Winners(s.(requests := s.requests[p := q]))
  {
  }

  predicate IsLocal(step: Step) {
    || step.Present? || step.Look? || step.Claim? || step.ClaimFails? || step.Mint?
    || step.BeginLogout? || step.BeginLogoutAll? || step.Abort?
  }

  lemma LocalStepMoves(s: State, step: Step)
    requires Held(s) && Enabled(s, step) && IsLocal(step)
    ensures var s' := Do(s, step);
            step.p in s'.requests && s' == s.(requests := s.requests[step.p := s'.requests[step.p]])
            && MayBecome(s, step.p, s'.requests[step.p])
  {
  }

  lemma LocalStepKeepsInv(s: State, step: Step)
    requires Inv(s) && Enabled(s, step) && IsLocal(step)
    ensures Inv(Do(s, step))
  {
    LocalStepMoves(s, step);
    var q := Do(s, step).requests[step.p];
    MovingKeepsHeld(s, step.p, q);
    MovingKeepsApart(s, step.p, q);
  }

  lemma NewSessionKeepsChain(t: Table, token: string, user: string, family: string, expiresAt: int)
    requires Chain(t) && token !in t && Family(t, family) == {}
    ensures Chain(Login(t, token, user, family, expiresAt))
  {
    forall a | a in t ensures t[a].family != family {
      assert t[a].family == family ==> a in Family(t, family);
    }
  }

  lemma NewSessionKeepsRequests(s: State, token: string, row: Row)
    requires Held(s) && Apart(s) && token !in s.table
    requires forall p | p in s.requests :: s.requests[p].next != token
    ensures Held(s.(table := s.table[token := row])) && Apart(s.(table := s.table[token := row]))
  {
  }

  lemma NewSessionKeepsWinners(s: State, token: string, row: Row)
    requires Winners(s) && token !in s.table
    ensures Winners(s.(table := s.table[token := row]))
  {
    var t' := s.table[token := row];
    assert forall q :: Follows(s.table, q) ==> Follows(t', q);
  }

  lemma NewSessionKeepsInv(s: State, token: string, user: string, family: string, lifetime: int)
    requires Inv(s) && token !in s.table && Family(s.table, family) == {}
    requires forall p | p in s.requests :: s.requests[p].next != token
    ensures Inv(s.(table := Login(s.table, token, user, family, s.now + lifetime)))
  {
    var row := Row(user, family, s.now + lifetime, false, false, 0);
    NewSessionKeepsChain(s.table, token, user, family, s.now + lifetime);
    hide Chain, Held, Apart, Winners, Family;
    NewSessionKeepsRequests(s, token, row);
    NewSessionKeepsWinners(s, token, row);
  }

  lemma CommitKeepsHeld(s: State, p: nat)
    requires Held(s) && Apart(s) && Enabled(s, Commit(p))
    ensures Held(Do(s, Commit(p)))
  {
    assert s.requests[p].Holds(s.requests[p].token);
  }

  lemma CommitKeepsApart(s: State, p: nat)
    requires Apart(s) && Enabled(s, Commit(p))
    ensures Apart(Do(s, Commit(p)))
  {
  }

  lemma CommitKeepsWinners(s: State, p: nat)
    requires Apart(s) && Winners(s) && Enabled(s, Commit(p))
    ensures Winners(Do(s, Commit(p)))
  {
    var q, s' := s.requests[p], Do(s, Commit(p));
    assert q.next !in s.table;
    forall r | r in s'.requests && Won(s'.requests[r])
      ensures Follows(s'.table, s'.requests[r])
    {
      if r != p { assert Follows(s.table, s.requests[r]); }
    }
  }

  lemma CommitKeepsInv(s: State, p: nat)
    requires Inv(s) && Enabled(s, Commit(p))
    ensures Inv(Do(s, Commit(p)))
  {
    var q := s.requests[p];
    assert q.Holds(q.token) && !s.table[q.token].used && q.next !in s.table;
    SuccessionKeepsChain(s.table, q.token, q.next, q.phase.expiresAt);
    CommitKeepsHeld(s, p);
    CommitKeepsApart(s, p);
    CommitKeepsWinners(s, p);
    hide Chain, Held, Apart, Winners;
  }

  lemma RevokingKeepsHeld(s: State, p: nat)
    requires Held(s) && Enabled(s, FinishRevoking(p))
    ensures Held(Do(s, FinishRevoking(p)))
  {
    forall r | r in s.requests && s.requests[r].Holds(s.requests[r].token)
      ensures s.requests[r].token !in s.requests[p].phase.seen
    {
      assert !s.Unlocked(s.requests[r].token);
    }
  }

  lemma RevokingKeepsChain(t: Table, tokens: set<string>)
    requires Chain(t)
    ensures Chain(Revoked(t, tokens))
  {
  }

  lemma RevokingKeepsApart(s: State, p: nat)
    requires Apart(s) && Winners(s) && Enabled(s, FinishRevoking(p))
    ensures var s' := Do(s, FinishRevoking(p)); Apart(s') && Winners(s')
  {
    var t' := Revoked(s.table, s.requests[p].phase.seen);
    assert forall q :: Follows(s.table, q) ==> Follows(t', q);
  }

  lemma NewSessionStep(s: State, step: Step)
    requires Enabled(s, step) && step.NewSession?
    ensures step.token !in s.table && Family(s.table, step.family) == {}
    ensures forall p | p in s.requests :: s.requests[p].next != step.token
    ensures Do(s, step) == s.(table := Login(s.table, step.token, step.user, step.family, s.now + step.lifetime))
  {
    hide Login, Family;
  }

  lemma LoginKeepsInv(s: State, step: Step)
    requires Inv(s) && Enabled(s, step) && step.NewSession?
    ensures Inv(Do(s, step))
  {
    hide Inv, Do, Enabled, Login, Family;
    NewSessionStep(s, step);
    NewSessionKeepsInv(s, step.token, step.user, step.family, step.lifetime);
  }

  lemma RevokingKeepsInv(s: State, p: nat)
    requires Inv(s) && Enabled(s, FinishRevoking(p))
    ensures Inv(Do(s, FinishRevoking(p)))
  {
    hide Chain, Held, Apart, Winners;
    RevokingKeepsHeld(s, p);
    RevokingKeepsChain(s.table, s.requests[p].phase.seen);
    RevokingKeepsApart(s, p);
  }

  lemma WaitKeepsInv(s: State, seconds: nat)
    requires Inv(s)
    ensures Inv(s.(now := s.now + seconds))
  {
  }

  lemma StepKeepsInv(s: State, step: Step)
    requires Inv(s) && Enabled(s, step)
    ensures Inv(Do(s, step))
  {
    match step
    case NewSession(_, _, _, _) => hide Inv, Do, Enabled; LoginKeepsInv(s, step);
    case Commit(p) => hide Inv, Do, Enabled; CommitKeepsInv(s, p);
    case FinishRevoking(p) => hide Inv, Do, Enabled; RevokingKeepsInv(s, p);
    case Wait(seconds) => hide Inv, Enabled; WaitKeepsInv(s, seconds);
    case _ => hide Inv, Do, Enabled; LocalStepKeepsInv(s, step);
  }

  ghost predicate Next(s: State, s': State) { exists step :: Enabled(s, step) && s' == Do(s, step) }

  /** A stretch of execution, from any state. */
  ghost predicate Steps(states: seq<State>) {
    states != [] && forall i | 0 <= i < |states| - 1 :: Next(states[i], states[i + 1])
  }

  ghost predicate IsRun(states: seq<State>) {
    Steps(states) && states[0].table == map[] && states[0].requests == map[]
  }

  lemma {:induction false} StepsKeepInv(states: seq<State>)
    requires Steps(states) && Inv(states[0])
    ensures Inv(states[|states| - 1])
  {
    var n := |states| - 1;
    if n > 0 {
      assert Steps(states[..n]);
      hide Inv;
      StepsKeepInv(states[..n]);
      assert Next(states[n - 1], states[n]);
      var step :| Enabled(states[n - 1], step) && states[n] == Do(states[n - 1], step);
      StepKeepsInv(states[n - 1], step);
    }
  }

  /** In every run of interleaved statements a token has one winner, families stay chains, and a
      family has at most one token that is unspent, counting the one being rotated right now. */
  lemma SingleWinner(states: seq<State>)
    requires IsRun(states)
    ensures var s := states[|states| - 1];
            && (forall p, r | p in s.requests && r in s.requests && Won(s.requests[p]) && Won(s.requests[r]) ::
                  s.requests[p].token == s.requests[r].token ==> p == r)
            && (forall a, b | a in s.table && b in s.table && s.table[a].family == s.table[b].family ::
                  !s.table[a].used && !s.table[b].used ==> a == b)
            && (forall p | p in s.requests && s.requests[p].Holds(s.requests[p].token) ::
                  var token := s.requests[p].token;
                  && token in s.table && !s.table[token].used && !s.table[token].revoked
                  && forall a | a in s.table && s.table[a].family == s.table[token].family && !s.table[a].used ::
                       a == token)
            && (forall p, r | p in s.requests && r in s.requests
                              && s.requests[p].Holds(s.requests[p].token) && s.requests[r].Holds(s.requests[r].token) ::
                  s.table[s.requests[p].token].family == s.table[s.requests[r].token].family ==> p == r)
            && Chain(s.table)
  {
    StepsKeepInv(states);
  }

  // ----- The successor -----

  lemma StepKeepsMinted(s: State, s': State, p: nat, token: string, next: string, expiresAt: int)
    requires Next(s, s') && p in s.requests
    requires s.requests[p] == Request(token, next, Minted(expiresAt)) || s.requests[p].phase.Over?
    ensures p in s'.requests
    ensures s'.requests[p] == Request(token, next, Minted(expiresAt)) || s'.requests[p].phase.Over?
  {
  }

  lemma {:induction false} StillMinted(states: seq<State>, p: nat, token: string, next: string, expiresAt: int)
    requires Steps(states) && p in states[0].requests
    requires states[0].requests[p] == Request(token, next, Minted(expiresAt))
    ensures var s := states[|states| - 1];
            && p in s.requests
            && (s.requests[p] == Request(token, next, Minted(expiresAt)) || s.requests[p].phase.Over?)
  {
    var n := |states| - 1;
    if n > 0 {
      hide Next;
      assert Steps(states[..n]);
      StillMinted(states[..n], p, token, next, expiresAt);
      StepKeepsMinted(states[n - 1], states[n], p, token, next, expiresAt);
    }
  }

  /** However long the commit waits, the successor lives for a full lifetime from its minting, in its
      token's family and for its user, unspent and unrevoked. */
  lemma SuccessorLivesALifetime(states: seq<State>, p: nat, lifetime: int)
    requires Steps(states) && |states| >= 2
    requires Enabled(states[0], Mint(p, lifetime)) && states[1] == Do(states[0], Mint(p, lifetime))
    requires Enabled(states[|states| - 1], Commit(p))
    ensures var q, last := states[0].requests[p], states[|states| - 1];
            var t := Do(last, Commit(p)).table;
            && q.token in last.table && q.next in t
            && t[q.next].expiresAt == states[0].now + lifetime && !t[q.next].used && !t[q.next].revoked
            && t[q.next].family == last.table[q.token].family && t[q.next].user == last.table[q.token].user
  {
    var q := states[0].requests[p];
    assert states[1].requests[p] == Request(q.token, q.next, Minted(states[0].now + lifetime));
    assert Steps(states[1..]) by { hide Next; }
    StillMinted(states[1..], p, q.token, q.next, states[0].now + lifetime);
    hide Next;
  }

  /** A committed token that is presented is looked at until its expiry, and refused from then on. */
  lemma LookGoesByExpiry(s: State, p: nat)
    requires Enabled(s, Look(p)) && s.requests[p].token in s.table
    ensures Do(s, Look(p)).requests[p].phase
         == if s.now < s.table[s.requests[p].token].expiresAt then Looked else Over(Some(Expired))
  {
  }

  // ----- Revocation -----

  /** The tokens of a family are the same in `t'`, and those revoked stay so. */
  ghost predicate Untouched(t: Table, t': Table, family: string) {
    forall a :: (InFamily(t, a, family) <==> InFamily(t', a, family))
                && (InFamily(t, a, family) && t[a].revoked ==> t'[a].revoked)
  }

  lemma UntouchedStaysDead(t: Table, t': Table, family: string)
    requires Dead(t, family) && Untouched(t, t', family)
    ensures Dead(t', family) && Family(t', family) == Family(t, family)
  {
    var a :| InFamily(t, a, family);
    assert InFamily(t', a, family);
    forall b ensures b in Family(t', family) <==> b in Family(t, family) {
      assert InFamily(t, b, family) <==> InFamily(t', b, family);
    }
  }

  /** A dead family has no row that a rotation could be holding. */
  lemma CommitSparesDead(s: State, p: nat, family: string)
    requires Held(s) && Apart(s) && Enabled(s, Commit(p)) && Dead(s.table, family)
    ensures Untouched(s.table, Do(s, Commit(p)).table, family)
  {
    var q := s.requests[p];
    assert q.Holds(q.token) && q.next !in s.table;
    assert !InFamily(s.table, q.token, family);
  }

  lemma LoginSparesDead(s: State, step: Step, family: string)
    requires step.NewSession? && Enabled(s, step) && Dead(s.table, family)
    ensures Untouched(s.table, Do(s, step).table, family)
  {
    var a :| InFamily(s.table, a, family);
    assert a in Family(s.table, family);
  }

  lemma StepKeepsDead(s: State, step: Step, family: string)
    requires Held(s) && Apart(s) && Enabled(s, step) && Dead(s.table, family)
    ensures Dead(Do(s, step).table, family)
    ensures Family(Do(s, step).table, family) == Family(s.table, family)
  {
    hide Held, Apart, Dead;
    if step.Commit? {
      CommitSparesDead(s, step.p, family);
    } else if step.NewSession? {
      LoginSparesDead(s, step, family);
    }
    assert Untouched(s.table, Do(s, step).table, family);
    UntouchedStaysDead(s.table, Do(s, step).table, family);
  }

  /** Whatever is interleaved, a family that is dead stays dead and gets no new token. */
  lemma {:induction false} DeadStaysDead(states: seq<State>, family: string)
    requires Steps(states) && Inv(states[0]) && Dead(states[0].table, family)
    ensures Dead(states[|states| - 1].table, family)
    ensures Family(states[|states| - 1].table, family) == Family(states[0].table, family)
  {
    var n := |states| - 1;
    if n > 0 {
      assert Steps(states[..n]);
      DeadStaysDead(states[..n], family);
      StepsKeepInv(states[..n]);
      assert Next(states[n - 1], states[n]);
      var step :| Enabled(states[n - 1], step) && states[n] == Do(states[n - 1], step);
      StepKeepsDead(states[n - 1], step, family);
    }
  }

  lemma FinishKillsIff(s: State, p: nat, family: string)
    requires Enabled(s, FinishRevoking(p)) && Family(s.table, family) != {}
    ensures Dead(Do(s, FinishRevoking(p)).table, family) <==>
            (forall a | InFamily(s.table, a, family) && !s.table[a].revoked :: a in s.requests[p].phase.seen)
  {
    var t, t' := s.table, Do(s, FinishRevoking(p)).table;
    var a :| a in Family(t, family);
    assert InFamily(t', a, family);
    assert forall b :: InFamily(t', b, family) <==> InFamily(t, b, family);
  }

  /** Between `s` and `s'` a rotation of the family commits its successor `token`. */
  ghost predicate Joins(s: State, s': State, family: string, token: string) {
    exists q :: Enabled(s, Commit(q)) && s' == Do(s, Commit(q))
                && s.requests[q].next == token && InFamily(s.table, s.requests[q].token, family)
  }

  lemma CommitGrowsFamily(s: State, q: nat, family: string)
    requires Apart(s) && Enabled(s, Commit(q))
    ensures var s' := Do(s, Commit(q)); var next := s.requests[q].next;
            && next !in s.table && s.table.Keys <= s'.table.Keys
            && Family(s'.table, family)
               == Family(s.table, family) + (if InFamily(s.table, s.requests[q].token, family) then {next} else {})
  {
  }

  lemma OtherStepsKeepFamily(s: State, step: Step, family: string)
    requires Enabled(s, step) && !step.Commit? && Family(s.table, family) != {}
    ensures s.table.Keys <= Do(s, step).table.Keys
    ensures Family(Do(s, step).table, family) == Family(s.table, family)
  {
    if step.NewSession? { assert step.family != family; }
  }

  /** A family that has tokens gets a new one by the commit of one of its own rotations, and in no
      other way; and it loses none. */
  lemma FamilyGrowsByCommits(s: State, s': State, family: string)
    requires Apart(s) && Next(s, s') && Family(s.table, family) != {}
    ensures s.table.Keys <= s'.table.Keys && Family(s.table, family) <= Family(s'.table, family)
    ensures forall token ::
              token in Family(s'.table, family) - Family(s.table, family) <==> Joins(s, s', family, token)
    ensures forall token | Joins(s, s', family, token) :: token !in s.table
  {
    forall token | Joins(s, s', family, token)
      ensures token !in s.table && token in Family(s'.table, family)
    {
      var q :| Enabled(s, Commit(q)) && s' == Do(s, Commit(q))
               && s.requests[q].next == token && InFamily(s.table, s.requests[q].token, family);
      CommitGrowsFamily(s, q, family);
    }
    var step :| Enabled(s, step) && s' == Do(s, step);
    if step.Commit? {
      CommitGrowsFamily(s, step.p, family);
      forall token | token in Family(s'.table, family) - Family(s.table, family)
        ensures Joins(s, s', family, token)
      {
        assert Enabled(s, Commit(step.p)) && s' == Do(s, Commit(step.p));
      }
    } else {
      OtherStepsKeepFamily(s, step, family);
    }
  }

  ghost predicate JoinsAt(states: seq<State>, i: int, family: string, token: string) {
    0 <= i < |states| - 1 && Joins(states[i], states[i + 1], family, token)
  }

  ghost predicate JoinsWithin(states: seq<State>, family: string, token: string) {
    exists i :: JoinsAt(states, i, family, token)
  }

  lemma JoinsWithinOneMore(states: seq<State>, family: string, token: string)
    requires |states| >= 2
    ensures var n := |states| - 1;
            JoinsWithin(states, family, token) <==>
            (JoinsWithin(states[..n], family, token) || Joins(states[n - 1], states[n], family, token))
  {
    var n := |states| - 1;
    hide Joins;
    if i :| JoinsAt(states[..n], i, family, token) { assert JoinsAt(states, i, family, token); }
    if Joins(states[n - 1], states[n], family, token) { assert JoinsAt(states, n - 1, family, token); }
    if i :| JoinsAt(states, i, family, token) && i < n - 1 { assert JoinsAt(states[..n], i, family, token); }
  }

  /** Over any stretch, the family's tokens are those it had and the successors that its rotations
      committed. */
  lemma {:induction false} FamilyAfter(states: seq<State>, family: string)
    requires Steps(states) && Inv(states[0]) && Family(states[0].table, family) != {}
    ensures var first, last := states[0].table, states[|states| - 1].table;
            && first.Keys <= last.Keys && Family(last, family) != {}
            && (forall token :: token in Family(last, family) <==>
                  token in Family(first, family) || JoinsWithin(states, family, token))
            && (forall token | JoinsWithin(states, family, token) :: token !in first)
  {
    var n := |states| - 1;
    if n > 0 {
      hide Inv, Next, Joins, JoinsWithin, Family;
      assert Steps(states[..n]);
      FamilyAfter(states[..n], family);
      StepsKeepInv(states[..n]);
      assert Apart(states[n - 1]) by { InvIsApart(states[n - 1]); }
      FamilyGrowsByCommits(states[n - 1], states[n], family);
      forall token
        ensures JoinsWithin(states, family, token) <==>
                (JoinsWithin(states[..n], family, token) || Joins(states[n - 1], states[n], family, token))
      {
        JoinsWithinOneMore(states, family, token);
      }
    }
  }

  lemma InvIsApart(s: State)
    requires Inv(s)
    ensures Apart(s)
  {
  }

  lemma StepKeepsRevoking(s: State, s': State, p: nat, seen: set<string>)
    requires Next(s, s') && p in s.requests && (s.requests[p].phase == Revoking(seen) || s.requests[p].phase.Over?)
    ensures p in s'.requests && (s'.requests[p].phase == Revoking(seen) || s'.requests[p].phase.Over?)
  {
  }

  /** A waiting UPDATE goes on with the rows that it saw when it began. */
  lemma {:induction false} StillRevoking(states: seq<State>, p: nat, seen: set<string>)
    requires Steps(states) && p in states[0].requests && states[0].requests[p].phase == Revoking(seen)
    ensures var s := states[|states| - 1];
            p in s.requests && (s.requests[p].phase == Revoking(seen) || s.requests[p].phase.Over?)
  {
    var n := |states| - 1;
    if n > 0 {
      hide Next;
      assert Steps(states[..n]);
      StillRevoking(states[..n], p, seen);
      StepKeepsRevoking(states[n - 1], states[n], p, seen);
    }
  }

  /** A revocation that begins on all of a family's rows leaves the family dead exactly when every
      successor that a rotation of the family committed before it ended has been revoked by then. */
  lemma RevocationKillsIff(states: seq<State>, p: nat, family: string, seen: set<string>)
    requires Steps(states) && Inv(states[0]) && p in states[0].requests
    requires states[0].requests[p].phase == Revoking(seen)
    requires Family(states[0].table, family) != {} && Family(states[0].table, family) <= seen <= states[0].table.Keys
    requires Enabled(states[|states| - 1], FinishRevoking(p))
    ensures var last := states[|states| - 1];
            Dead(Do(last, FinishRevoking(p)).table, family) <==>
            (forall token | JoinsWithin(states, family, token) :: token in last.table && last.table[token].revoked)
  {
    var last := states[|states| - 1];
    FamilyAfter(states, family);
    StillRevoking(states, p, seen);
    FinishKillsIff(last, p, family);
    hide JoinsWithin, Inv, Steps, Do, Dead;
    assert last.requests[p].phase.seen == seen;
    forall a ensures a in Family(last.table, family) <==> InFamily(last.table, a, family) {
    }
  }

  /** Logout, logout everywhere and a replay each begin on all rows of the family they are to end. */
  lemma RevocationsSeeTheFamily(s: State, step: Step, family: string)
    requires Inv(s) && Enabled(s, step) && Family(s.table, family) != {}
    requires match step {
               case BeginLogout(_, token) => s.table[token].family == family
               case BeginLogoutAll(_, user) => exists a :: InFamily(s.table, a, family) && s.table[a].user == user
               case ClaimFails(p) => s.table[s.requests[p].token].family == family
               case _ => false
             }
    ensures var s' := Do(s, step);
            && step.p in s'.requests && s'.requests[step.p].phase.Revoking? && s'.table == s.table
            && Family(s'.table, family) <= s'.requests[step.p].phase.seen <= s'.table.Keys
  {
  }

  /** So a logout, with anything at all between its beginning and its end, ends the session exactly
      when each successor committed in between is revoked. */
  lemma LogoutKillsIff(states: seq<State>, p: nat, token: string)
    requires Steps(states) && Inv(states[0]) && |states| >= 2
    requires Enabled(states[0], BeginLogout(p, token)) && states[1] == Do(states[0], BeginLogout(p, token))
    requires Enabled(states[|states| - 1], FinishRevoking(p))
    ensures var last := states[|states| - 1]; var family := states[0].table[token].family;
            Dead(Do(last, FinishRevoking(p)).table, family) <==>
            (forall next | JoinsWithin(states[1..], family, next) :: next in last.table && last.table[next].revoked)
  {
    var family := states[0].table[token].family;
    assert token in Family(states[0].table, family);
    RevocationsSeeTheFamily(states[0], BeginLogout(p, token), family);
    StepKeepsInv(states[0], BeginLogout(p, token));
    hide Inv, Next, Dead, JoinsWithin;
    assert Steps(states[1..]);
    RevocationKillsIff(states[1..], p, family, states[1].requests[p].phase.seen);
  }

  /** With no rotation of the family under way when it begins, it can finish at once, and the family
      is dead. */
  lemma UndisturbedLogoutKills(s: State, p: nat, token: string)
    requires Enabled(s, BeginLogout(p, token))
    requires s.AllUnlocked(Family(s.table, s.table[token].family))
    ensures var s' := Do(s, BeginLogout(p, token));
            && Enabled(s', FinishRevoking(p))
            && Dead(Do(s', FinishRevoking(p)).table, s.table[token].family)
  {
    var family := s.table[token].family;
    var s' := Do(s, BeginLogout(p, token));
    forall b | b in s'.requests[p].phase.seen
      ensures s'.Unlocked(b)
    {
      assert s.Unlocked(b);
    }
    assert token in Family(s'.table, family);
    FinishKillsIff(s', p, family);
  }

  ghost function Stepped(s: State, step: Step): (s': State)
    requires Enabled(s, step)
    ensures Next(s, s')
  {
    Do(s, step)
  }

  /** One session, and its token claimed and its successor minted but not committed. */
  ghost function MidRotation(): State {
    Session(0, map["a" := Row("u", "f", 9, false, false, 0)], map[0 := Request("a", "b", Minted(9))])
  }

  ghost function UpTo(phase: Phase): State {
    MidRotation().(requests := map[0 := Request("a", "b", phase)])
  }

  lemma RotationBegins() returns (empty: State, loggedIn: State)
    ensures empty == Session(0, map[], map[]) && Next(empty, loggedIn) && Next(loggedIn, UpTo(Presented))
  {
    empty := Session(0, map[], map[]);
    loggedIn := Stepped(empty, NewSession("a", "u", "f", 9));
    assert UpTo(Presented) == Stepped(loggedIn, Present(0, "a", "b"));
  }

  lemma RotationGoesOn()
    ensures Next(UpTo(Presented), UpTo(Looked)) && Next(UpTo(Looked), UpTo(Claimed))
    ensures Next(UpTo(Claimed), MidRotation())
  {
    assert UpTo(Looked) == Stepped(UpTo(Presented), Look(0));
    assert UpTo(Claimed) == Stepped(UpTo(Looked), Claim(0));
    assert MidRotation() == Stepped(UpTo(Claimed), Mint(0, 9));
  }

  lemma ReachMidRotation() returns (states: seq<State>)
    ensures IsRun(states) && |states| == 6 && states[5] == MidRotation()
  {
    var empty, loggedIn := RotationBegins();
    RotationGoesOn();
    hide Next;
    states := [empty, loggedIn, UpTo(Presented), UpTo(Looked), UpTo(Claimed), MidRotation()];
  }

  /** The logout waited for the rotation, and revoked the only row that it had seen. */
  ghost function Escaped(): State {
    Session(0, map["a" := Row("u", "f", 9, true, true, 0), "b" := Row("u", "f", 9, false, false, 1)],
            map[0 := Request("a", "b", Over(Some(Rotated("u", "b")))), 1 := Request("a", "", Over(None))])
  }

  lemma LogoutWaits() returns (waiting: State)
    ensures Next(MidRotation(), waiting)
    ensures waiting == MidRotation().(requests := MidRotation().requests[1 := Request("a", "", Revoking({"a"}))])
  {
    assert Family(MidRotation().table, "f") == {"a"};
    waiting := Stepped(MidRotation(), BeginLogout(1, "a"));
  }

  lemma SuccessorCommits(waiting: State) returns (committed: State)
    requires waiting == MidRotation().(requests := MidRotation().requests[1 := Request("a", "", Revoking({"a"}))])
    ensures Next(waiting, committed)
    ensures committed
         == Session(0, map["a" := Row("u", "f", 9, true, false, 0), "b" := Row("u", "f", 9, false, false, 1)],
                    map[0 := Request("a", "b", Over(Some(Rotated("u", "b")))), 1 := Request("a", "", Revoking({"a"}))])
  {
    committed := Stepped(waiting, Commit(0));
    assert committed.table
        == map["a" := Row("u", "f", 9, true, false, 0), "b" := Row("u", "f", 9, false, false, 1)];
  }

  lemma LogoutMissesIt(committed: State)
    requires committed
          == Session(0, map["a" := Row("u", "f", 9, true, false, 0), "b" := Row("u", "f", 9, false, false, 1)],
                     map[0 := Request("a", "b", Over(Some(Rotated("u", "b")))), 1 := Request("a", "", Revoking({"a"}))])
    ensures Next(committed, Escaped())
  {
    assert Enabled(committed, FinishRevoking(1));
    assert Revoked(committed.table, {"a"}) == Escaped().table;
    assert committed.requests[1 := Request("a", "", Over(None))] == Escaped().requests;
    hide Revoked, Enabled;
    assert Escaped() == Do(committed, FinishRevoking(1));
  }

  /** Otherwise a session can survive its own logout: the logout waits for the rotation under way,
      revokes the spent token it saw, and misses the successor. */
  lemma SuccessorSurvivesLogout() returns (states: seq<State>)
    ensures IsRun(states)
    ensures var s := states[|states| - 1];
            && 1 in s.requests && s.requests[1].token == "a" && s.requests[1].phase == Over(None)
            && "b" in s.table && !s.table["b"].revoked && !s.table["b"].used
            && "a" in s.table && s.table["b"].family == s.table["a"].family && s.table["a"].revoked
  {
    hide Next;
    var before := ReachMidRotation();
    var waiting := LogoutWaits();
    var committed := SuccessorCommits(waiting);
    LogoutMissesIt(committed);
    states := before + [waiting, committed, Escaped()];
  }
}
