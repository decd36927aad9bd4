/**
 Refresh-token rotation under concurrency: refreshes and logouts as interleaved statements. The default isolation is
 READ COMMITTED: a statement sees the latest committed rows, a conditional UPDATE waits for the row's lock and then
 re-evaluates its WHERE clause, and nothing is visible before the commit.
 */
module RefreshTokens {
  import opened Base

  datatype Status = Active | Revoked

  /** A device session, known by the unique hash of its token. parent and login record history the table does not
      keep: the session it was rotated from, and the login its chain started with. */
  datatype DeviceSession = DeviceSession(status: Status, expires: int, parent: Option<Id>, login: Id)

  datatype Pc =
    | Start
    | Found(seen: Option<DeviceSession>, usable: bool)
    | Rotated
    | Inserted
    | Revoking
    | Succeeded
    | Refused

  /** next and nextExpires are generated when the request starts. */
  datatype Txn = Txn(token: Id, next: Id, now: int, nextExpires: int, locked: bool, pc: Pc)

  datatype Sys = Sys(sessions: map<Id, DeviceSession>, txns: map<nat, Txn>)

  predicate LockedByOther(s: Sys, t: nat, token: Id) {
    exists u :: u in s.txns && u != t && s.txns[u].token == token && s.txns[u].locked
  }

  predicate Ongoing(t: Txn) {
    !t.pc.Succeeded? && !t.pc.Refused?
  }

  /** Random tokens: a generated hash is nobody else's, stored or about to be. */
  ghost predicate Unused(s: Sys, hash: Id) {
    && hash !in s.sessions
    && forall u <- s.txns :: s.txns[u].next != hash
  }

  datatype Outcome = Waits | Goes(t: Txn)

  /** The conditional update finds the token's session and its status still ACTIVE. */
  function Update(s: Sys, t: nat, txn: Txn, done: Pc): Outcome {
    if LockedByOther(s, t, txn.token) then Waits
    else if txn.token !in s.sessions || s.sessions[txn.token].status != Active then Goes(txn.(pc := Refused))
    else Goes(txn.(locked := true, pc := done))
  }

  /** One statement of a refresh; enabled is what the join says about user and tenant. */
  function Statement(s: Sys, t: nat, txn: Txn, enabled: bool): Outcome
    requires txn.pc.Start? || txn.pc.Found? || txn.pc.Rotated?
  {
    match txn.pc
    case Start =>
      if txn.token !in s.sessions then Goes(txn.(pc := Found(None, false)))
      else
        var seen := s.sessions[txn.token];
        Goes(txn.(pc := Found(Some(seen), seen.status == Active && seen.expires > txn.now && enabled)))
    case Found(seen, usable) =>
      if seen.None? then Goes(txn.(pc := Refused))
      else if usable then Update(s, t, txn, Rotated)
      else if seen.value.status == Active then Update(s, t, txn, Revoking)
      else Goes(txn.(pc := Refused))
    case Rotated => Goes(txn.(pc := Inserted))
  }

  function Revoke(d: DeviceSession): DeviceSession {
    d.(status := Revoked)
  }

  /** What a commit writes: the revocation, and for a rotation the successor in the same chain. */
  function Committed(s: Sys, txn: Txn): map<Id, DeviceSession>
    requires txn.token in s.sessions
  {
    var revoked := s.sessions[txn.token := Revoke(s.sessions[txn.token])];
    if txn.pc.Inserted?
    then revoked[txn.next := DeviceSession(Active, txn.nextExpires, Some(txn.token), s.sessions[txn.token].login)]
    else revoked
  }

  datatype Move =
    | Login(token: Id, expires: int)
    | Refresh(t: nat, token: Id, next: Id, now: int, nextExpires: int)
    | Execute(t: nat, enabled: bool)
    | Commit(t: nat)
    | Abort(t: nat)
    | Logout(token: Id)

  ghost predicate Next(s: Sys, m: Move, s': Sys) {
    match m
    case Login(token, expires) =>
      Unused(s, token) && s' == s.(sessions := s.sessions[token := DeviceSession(Active, expires, None, token)])
    case Refresh(t, token, next, now, nextExpires) =>
      && t !in s.txns && Unused(s, next) && next != token
      && s' == s.(txns := s.txns[t := Txn(token, next, now, nextExpires, false, Start)])
    case Execute(t, enabled) =>
      && t in s.txns && (s.txns[t].pc.Start? || s.txns[t].pc.Found? || s.txns[t].pc.Rotated?)
      && var o := Statement(s, t, s.txns[t], enabled);
      o.Goes? && s' == s.(txns := s.txns[t := o.t])
    case Commit(t) =>
      && t in s.txns && (s.txns[t].pc.Inserted? || s.txns[t].pc.Revoking?) && s.txns[t].token in s.sessions
      && s' == Sys(Committed(s, s.txns[t]),
                   s.txns[t := s.txns[t].(locked := false, pc := if s.txns[t].pc.Inserted? then Succeeded else Refused)])
    case Abort(t) =>
      t in s.txns && Ongoing(s.txns[t]) && s' == s.(txns := s.txns[t := s.txns[t].(locked := false, pc := Refused)])
    case Logout(token) =>
      && !(exists u :: u in s.txns && s.txns[u].token == token && s.txns[u].locked)
      && s' == if token in s.sessions && s.sessions[token].status == Active
               then s.(sessions := s.sessions[token := Revoke(s.sessions[token])]) else s
  }

  /** A session that was rotated is revoked, and its successor belongs to the same login, named by its first token. */
  ghost predicate SessionOk(ss: map<Id, DeviceSession>, a: Id) {
    a in ss ==>
      && ss[a].login in ss
      && (ss[a].parent.Some? ==>
            && ss[a].parent.value in ss
            && ss[ss[a].parent.value].status == Revoked
            && ss[ss[a].parent.value].login == ss[a].login)
  }

  /** At most one successor per session, at most one active session per login. */
  ghost predicate PairOk(ss: map<Id, DeviceSession>, a: Id, b: Id) {
    a in ss && b in ss && a != b ==>
      && (ss[a].parent.Some? ==> ss[a].parent != ss[b].parent)
      && (ss[a].status == Active && ss[b].status == Active ==> ss[a].login != ss[b].login)
  }

  ghost predicate ChainsOk(ss: map<Id, DeviceSession>) {
    (forall a :: SessionOk(ss, a)) && (forall a, b :: PairOk(ss, a, b))
  }

  /** Any run from a table whose chains are in order, such as the empty one. */
  ghost predicate Behavior(states: seq<Sys>, moves: seq<Move>) {
    && |states| == |moves| + 1
    && ChainsOk(states[0].sessions) && states[0].txns == map[]
    && forall i :: 0 <= i < |moves| ==> Next(states[i], moves[i], states[i + 1])
  }

  // ---------- the invariant ----------

  /** The token's session has not expired when the refresh started. */
  predicate Unexpired(s: Sys, txn: Txn) {
    txn.token in s.sessions && s.sessions[txn.token].expires > txn.now
  }

  ghost predicate TxnOk(s: Sys, txn: Txn) {
    && (txn.pc.Found? && txn.pc.usable ==> Unexpired(s, txn))
    && (txn.pc.Rotated? || txn.pc.Inserted? || txn.pc.Succeeded? ==> Unexpired(s, txn))
    && (txn.locked <==> txn.pc.Rotated? || txn.pc.Inserted? || txn.pc.Revoking?)
    && (txn.locked ==> txn.token in s.sessions && s.sessions[txn.token].status == Active)
    && (txn.pc.Succeeded? ==> txn.next in s.sessions && s.sessions[txn.next].parent == Some(txn.token))
    && (!txn.pc.Succeeded? ==> txn.next !in s.sessions)
  }

  /** Row locks are exclusive and generated tokens distinct. */
  ghost predicate TxnPairOk(x: Txn, y: Txn) {
    && x.next != y.next
    && (x.locked && y.locked ==> x.token != y.token)
  }

  ghost predicate Inv(s: Sys) {
    && (forall t <- s.txns :: TxnOk(s, s.txns[t]))
    && (forall t, u :: t in s.txns && u in s.txns && t != u ==> TxnPairOk(s.txns[t], s.txns[u]))
    && ChainsOk(s.sessions)
  }

  lemma LoginKeepsChains(ss: map<Id, DeviceSession>, token: Id, expires: int)
    requires ChainsOk(ss) && token !in ss
    ensures ChainsOk(ss[token := DeviceSession(Active, expires, None, token)])
  {
    var after := ss[token := DeviceSession(Active, expires, None, token)];
    forall a ensures SessionOk(after, a) { assert SessionOk(ss, a); }
    forall a, b ensures PairOk(after, a, b) { assert PairOk(ss, a, b) && SessionOk(ss, a) && SessionOk(ss, b); }
  }

  /** Revoking one session keeps the shape of the chains. */
  lemma RevokeKeepsChains(ss: map<Id, DeviceSession>, token: Id)
    requires ChainsOk(ss) && token in ss
    ensures ChainsOk(ss[token := Revoke(ss[token])])
  {
    var after := ss[token := Revoke(ss[token])];
    forall a ensures SessionOk(after, a) { assert SessionOk(ss, a); }
    forall a, b ensures PairOk(after, a, b) { assert PairOk(ss, a, b); }
  }

  /** Adding the successor of a session that was active until now. */
  lemma RotateKeepsChains(ss: map<Id, DeviceSession>, token: Id, next: Id, expires: int)
    requires ChainsOk(ss) && token in ss && next !in ss && ss[token].status == Active
    ensures ChainsOk(ss[token := Revoke(ss[token])][next := DeviceSession(Active, expires, Some(token), ss[token].login)])
  {
    var after := ss[token := Revoke(ss[token])][next := DeviceSession(Active, expires, Some(token), ss[token].login)];
    assert SessionOk(ss, token);
    forall a ensures SessionOk(after, a) { assert SessionOk(ss, a); }
    forall a, b ensures PairOk(after, a, b) {
      assert PairOk(ss, a, b) && PairOk(ss, a, token) && PairOk(ss, b, token);
      assert SessionOk(ss, a) && SessionOk(ss, b);
    }
  }

  lemma TxnsKeep(s: Sys, s': Sys)
    requires Inv(s) && s'.txns == s.txns && ChainsOk(s'.sessions)
    requires forall t <- s.txns :: TxnOk(s', s.txns[t])
    ensures Inv(s')
  {
  }

  lemma LoginKeeps(s: Sys, token: Id, expires: int, s': Sys)
    requires Inv(s) && Next(s, Login(token, expires), s')
    ensures Inv(s')
  {
    LoginKeepsChains(s.sessions, token, expires);
    forall t <- s.txns ensures TxnOk(s', s.txns[t]) { assert TxnOk(s, s.txns[t]); }
    TxnsKeep(s, s');
  }

  lemma LogoutKeeps(s: Sys, token: Id, s': Sys)
    requires Inv(s) && Next(s, Logout(token), s')
    ensures Inv(s')
  {
    if token in s.sessions {
      RevokeKeepsChains(s.sessions, token);
    }
    forall t <- s.txns ensures TxnOk(s', s.txns[t]) { assert TxnOk(s, s.txns[t]); }
    TxnsKeep(s, s');
  }

  /** One transaction moves; the table and the others stay. */
  lemma OneTxnKeeps(s: Sys, t: nat, txn: Txn, s': Sys)
    requires Inv(s) && s' == s.(txns := s.txns[t := txn]) && TxnOk(s, txn)
    requires forall u <- s.txns :: u != t ==> TxnPairOk(txn, s.txns[u]) && TxnPairOk(s.txns[u], txn)
    ensures Inv(s')
  {
    forall u <- s'.txns ensures TxnOk(s', s'.txns[u]) {
      assert u != t ==> TxnOk(s, s.txns[u]);
    }
  }

  lemma ExecuteKeeps(s: Sys, t: nat, enabled: bool, s': Sys)
    requires Inv(s) && Next(s, Execute(t, enabled), s')
    ensures Inv(s')
  {
    var txn := s.txns[t];
    assert TxnOk(s, txn);
    var after := Statement(s, t, txn, enabled).t;
    forall u <- s.txns | u != t ensures TxnPairOk(after, s.txns[u]) && TxnPairOk(s.txns[u], after) {
      assert TxnPairOk(txn, s.txns[u]) && TxnPairOk(s.txns[u], txn);
    }
    OneTxnKeeps(s, t, after, s');
  }

  lemma CommitKeeps(s: Sys, t: nat, s': Sys)
    requires Inv(s) && Next(s, Commit(t), s')
    ensures Inv(s')
  {
    var txn := s.txns[t];
    assert TxnOk(s, txn);
    if txn.pc.Inserted? {
      RotateKeepsChains(s.sessions, txn.token, txn.next, txn.nextExpires);
    } else {
      RevokeKeepsChains(s.sessions, txn.token);
    }
    forall u <- s'.txns ensures TxnOk(s', s'.txns[u]) {
      if u != t {
        assert TxnOk(s, s.txns[u]) && TxnPairOk(txn, s.txns[u]);
      }
    }
    forall a, b | a in s'.txns && b in s'.txns && a != b ensures TxnPairOk(s'.txns[a], s'.txns[b]) {
      assert TxnPairOk(s.txns[a], s.txns[b]);
    }
  }

  lemma RefreshKeeps(s: Sys, t: nat, token: Id, next: Id, now: int, nextExpires: int, s': Sys)
    requires Inv(s) && Next(s, Refresh(t, token, next, now, nextExpires), s')
    ensures Inv(s')
  {
    OneTxnKeeps(s, t, Txn(token, next, now, nextExpires, false, Start), s');
  }

  lemma AbortKeeps(s: Sys, t: nat, s': Sys)
    requires Inv(s) && Next(s, Abort(t), s')
    ensures Inv(s')
  {
    var txn := s.txns[t];
    assert TxnOk(s, txn);
    var after := txn.(locked := false, pc := Refused);
    forall u <- s.txns | u != t ensures TxnPairOk(after, s.txns[u]) && TxnPairOk(s.txns[u], after) {
      assert TxnPairOk(txn, s.txns[u]);
    }
    OneTxnKeeps(s, t, after, s');
  }

  lemma NextKeeps(s: Sys, m: Move, s': Sys)
    requires Inv(s) && Next(s, m, s')
    ensures Inv(s')
  {
    match m {
      case Login(token, expires) => LoginKeeps(s, token, expires, s');
      case Refresh(t, token, next, now, nextExpires) => RefreshKeeps(s, t, token, next, now, nextExpires, s');
      case Execute(t, enabled) => ExecuteKeeps(s, t, enabled, s');
      case Commit(t) => CommitKeeps(s, t, s');
      case Abort(t) => AbortKeeps(s, t, s');
      case Logout(token) => LogoutKeeps(s, token, s');
    }
  }

  /** Every state of every run. */
  lemma {:induction false} InvAlways(states: seq<Sys>, moves: seq<Move>, i: nat)
    requires Behavior(states, moves) && i < |states|
    ensures Inv(states[i])
  {
    if i > 0 {
      InvAlways(states, moves, i - 1);
      NextKeeps(states[i - 1], moves[i - 1], states[i]);
    }
  }

  // ---------- what clients rely on ----------

  ghost predicate SessionMoves(a: map<Id, DeviceSession>, b: map<Id, DeviceSession>, token: Id) {
    token in a ==>
      && token in b && b[token].parent == a[token].parent && b[token].login == a[token].login
      && b[token].expires == a[token].expires
      && (a[token].status == Revoked ==> b[token].status == Revoked)
  }

  lemma NextMoves(s: Sys, m: Move, s': Sys, token: Id)
    requires Inv(s) && Next(s, m, s')
    ensures SessionMoves(s.sessions, s'.sessions, token)
  {
    if m.Commit? {
      assert TxnOk(s, s.txns[m.t]);
    }
  }

  /** REVOKED is absorbing, and sessions are never removed, prolonged or moved to another chain. */
  lemma {:induction false} RevokedStays(states: seq<Sys>, moves: seq<Move>, i: nat, j: nat, token: Id)
    requires Behavior(states, moves) && i <= j < |states|
    ensures SessionMoves(states[i].sessions, states[j].sessions, token)
    decreases j
  {
    if i < j {
      RevokedStays(states, moves, i, j - 1, token);
      InvAlways(states, moves, j - 1);
      NextMoves(states[j - 1], moves[j - 1], states[j], token);
    }
  }

  /** In every reachable state each session has at most one successor and each login at most one ACTIVE session. */
  lemma ChainsAreLinear(states: seq<Sys>, moves: seq<Move>, i: nat, a: Id, b: Id)
    requires Behavior(states, moves) && i < |states| && a in states[i].sessions && b in states[i].sessions
    ensures var ss := states[i].sessions;
            && (ss[a].parent.Some? && ss[a].parent == ss[b].parent ==> a == b)
            && (ss[a].status == Active && ss[b].status == Active && ss[a].login == ss[b].login ==> a == b)
            && (ss[a].parent.Some? ==> ss[a].parent.value in ss && ss[ss[a].parent.value].status == Revoked)
  {
    InvAlways(states, moves, i);
    assert SessionOk(states[i].sessions, a) && PairOk(states[i].sessions, a, b);
  }

  /** Of all refreshes ever started with one token, at most one succeeds. */
  lemma OneRefreshSucceeds(states: seq<Sys>, moves: seq<Move>, i: nat, t: nat, u: nat)
    requires Behavior(states, moves) && i < |states| && t in states[i].txns && u in states[i].txns
    requires states[i].txns[t].token == states[i].txns[u].token
    requires states[i].txns[t].pc.Succeeded? && states[i].txns[u].pc.Succeeded?
    ensures t == u
  {
    InvAlways(states, moves, i);
    var s := states[i];
    assert TxnOk(s, s.txns[t]) && TxnOk(s, s.txns[u]);
    assert PairOk(s.sessions, s.txns[t].next, s.txns[u].next);
    assert t != u ==> TxnPairOk(s.txns[t], s.txns[u]);
  }

  /** The token's session is revoked, by rotation or logout, and the refresh has not succeeded. */
  ghost predicate Doomed(s: Sys, t: nat) {
    && t in s.txns && s.txns[t].token in s.sessions && s.sessions[s.txns[t].token].status == Revoked
    && !s.txns[t].pc.Succeeded?
  }

  lemma DoomedStays(s: Sys, m: Move, s': Sys, t: nat)
    requires Inv(s) && Next(s, m, s') && Doomed(s, t)
    ensures Doomed(s', t)
  {
    assert TxnOk(s, s.txns[t]);
    NextMoves(s, m, s', s.txns[t].token);
  }

  /** Once a token's session is revoked, no refresh with it that has not yet succeeded ever succeeds. */
  lemma {:induction false} RevokedTokensAreRefused(states: seq<Sys>, moves: seq<Move>, i: nat, j: nat, t: nat)
    requires Behavior(states, moves) && i <= j < |states| && Doomed(states[i], t)
    ensures Doomed(states[j], t)
    decreases j
  {
    if i < j {
      RevokedTokensAreRefused(states, moves, i, j - 1, t);
      InvAlways(states, moves, j - 1);
      DoomedStays(states[j - 1], moves[j - 1], states[j], t);
    }
  }

  // ---------- which refreshes succeed ----------

  /** The sessions after a rotation: the old one revoked, its successor active in the same chain. */
  function Rotation(ss: map<Id, DeviceSession>, token: Id, next: Id, expires: int): map<Id, DeviceSession>
    requires token in ss
  {
    ss[token := ss[token].(status := Revoked)][next := DeviceSession(Active, expires, Some(token), ss[token].login)]
  }

  /**
   A refresh that commits its rotation finds the token's session ACTIVE and unexpired at that moment, and leaves it revoked
   with one active successor; whoever has succeeded brought a token that had not expired.
   */
  lemma RotationCommits(states: seq<Sys>, moves: seq<Move>, i: nat, t: nat)
    requires Behavior(states, moves) && i < |moves| && moves[i] == Commit(t) && t in states[i].txns && states[i].txns[t].pc.Inserted?
    ensures var txn, ss := states[i].txns[t], states[i].sessions;
            && txn.token in ss && ss[txn.token].status == Active && ss[txn.token].expires > txn.now
            && states[i + 1].sessions == Rotation(ss, txn.token, txn.next, txn.nextExpires)
            && states[i + 1].txns[t].pc == Succeeded
  {
    InvAlways(states, moves, i);
    assert TxnOk(states[i], states[i].txns[t]);
    assert Next(states[i], moves[i], states[i + 1]);
  }

  lemma SucceededWasUnexpired(states: seq<Sys>, moves: seq<Move>, i: nat, t: nat)
    requires Behavior(states, moves) && i < |states| && t in states[i].txns && states[i].txns[t].pc.Succeeded?
    ensures var txn, ss := states[i].txns[t], states[i].sessions;
            && txn.token in ss && ss[txn.token].expires > txn.now && ss[txn.token].status == Revoked
            && txn.next in ss && ss[txn.next].parent == Some(txn.token)
  {
    InvAlways(states, moves, i);
    assert TxnOk(states[i], states[i].txns[t]);
    assert SessionOk(states[i].sessions, states[i].txns[t].next);
  }

  /** A login adds one active session, a logout revokes the token's own; neither touches another session. */
  lemma LoginAndLogout(s: Sys, token: Id, expires: int, s': Sys, other: Id)
    requires other != token
    ensures Next(s, Login(token, expires), s') ==>
              && token !in s.sessions && token in s'.sessions && s'.sessions[token].status == Active
              && s'.sessions[token].expires == expires && s'.sessions[token].parent == None
    ensures Next(s, Logout(token), s') ==> (token in s'.sessions <==> token in s.sessions)
    ensures Next(s, Logout(token), s') && token in s.sessions ==> s'.sessions[token].status == Revoked
    ensures Next(s, Login(token, expires), s') || Next(s, Logout(token), s') ==>
              && (other in s'.sessions <==> other in s.sessions)
              && (other in s.sessions ==> s'.sessions[other] == s.sessions[other])
  {
  }

  /** The steps of one refresh, one after another. */
  ghost predicate Steps(t: nat, enabled: bool, s: Sys, s1: Sys, s2: Sys) {
    Next(s, Execute(t, enabled), s1) && Next(s1, Execute(t, enabled), s2)
  }

  /**
   A refresh that nobody disturbs: with an ACTIVE, unexpired session of an enabled user it rotates and succeeds; with an
   ACTIVE session that has expired or whose user is disabled it revokes the session and is refused; otherwise it is refused
   and nothing changes.
   */
  lemma RefreshAlone(s: Sys, t: nat, enabled: bool) returns (s1: Sys, s2: Sys, s3: Sys, s4: Sys)
    requires t in s.txns && s.txns[t].pc.Start? && !LockedByOther(s, t, s.txns[t].token)
    ensures Steps(t, enabled, s, s1, s2)
    ensures var token, ss := s.txns[t].token, s.sessions;
            if token in ss && ss[token].status == Active && ss[token].expires > s.txns[t].now && enabled then
              && Next(s2, Execute(t, enabled), s3) && Next(s3, Commit(t), s4)
              && s4.sessions == Rotation(ss, token, s.txns[t].next, s.txns[t].nextExpires) && s4.txns[t].pc == Succeeded
            else if token in ss && ss[token].status == Active then
              && Next(s2, Commit(t), s3)
              && s3.sessions == ss[token := ss[token].(status := Revoked)] && s3.txns[t].pc == Refused
            else s2.sessions == ss && s2.txns[t].pc == Refused
  {
    s1 := s.(txns := s.txns[t := Statement(s, t, s.txns[t], enabled).t]);
    assert !LockedByOther(s1, t, s.txns[t].token);
    s2 := s1.(txns := s1.txns[t := Statement(s1, t, s1.txns[t], enabled).t]);
    s3, s4 := s2, s2;
    if s2.txns[t].pc.Rotated? {
      s3 := s2.(txns := s2.txns[t := Statement(s2, t, s2.txns[t], enabled).t]);
      s4 := Sys(Committed(s3, s3.txns[t]), s3.txns[t := s3.txns[t].(locked := false, pc := Succeeded)]);
    } else if s2.txns[t].pc.Revoking? {
      s3 := Sys(Committed(s2, s2.txns[t]), s2.txns[t := s2.txns[t].(locked := false, pc := Refused)]);
    }
  }
}
