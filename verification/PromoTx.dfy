/** The redemption transaction statement by statement, under READ COMMITTED with a row lock on the code. */
module PromoTx {
  import opened Base
  import opened Domain
  import opened Money
  import opened Ledger

  type TxId = nat

  /** Where a transaction stands: the last statement it ran, and what it saw. */
  datatype Stage =
    | Begun
    | Locked(seen: Promo)                  // SELECT ... FOR UPDATE returned the row
    | AlreadyCounted                       // INSERT hit the conflict: zero rows
    | Inserted(seen: Promo)                // the redemption row is pending
    | Unexpired(seen: Promo, at: Time)     // expiry and global cap passed at that instant
    | UserCleared(seen: Promo, at: Time)   // per-user count passed
    | Incremented(seen: Promo, at: Time)   // redeemed_count + 1 is pending
    | Committed
    | RolledBack(reason: Reason)

  datatype Reason = Missing | CodeExpired | Exhausted | Contention | Trouble

  /** `begun` is when BEGIN ran (history: no statement reads it). */
  datatype Tx = Tx(code: string, user: UserId, sid: SessionId, begun: Time, stage: Stage)

  datatype TxState = TxState(ledger: PromoLedger, locks: map<string, TxId>, txs: map<TxId, Tx>, now: Time)

  datatype TxEvent =
    | Begin(t: TxId, code: string, user: UserId, sid: SessionId)
    | Statement(t: TxId)    // the transaction runs its next statement
    | GiveUp(t: TxId)       // lock timeout, deadline, crash: the database rolls back
    | Pass(ms: nat)

  predicate Holding(stage: Stage) {
    !stage.Begun? && !stage.Committed? && !stage.RolledBack?
  }

  function Unlock(s: TxState, t: TxId, stage: Stage): TxState
    requires t in s.txs
  {
    var tx := s.txs[t];
    s.(txs := s.txs[t := tx.(stage := stage)],
       locks := if tx.code in s.locks && s.locks[tx.code] == t then s.locks - {tx.code} else s.locks)
  }

  function To(s: TxState, t: TxId, stage: Stage): TxState
    requires t in s.txs
  {
    s.(txs := s.txs[t := s.txs[t].(stage := stage)])
  }

  /** Rows the COUNT sees: everything committed plus the transaction's own pending insert. */
  function Mine(s: TxState, tx: Tx): nat { |UserUses(s.ledger, tx.code, tx.user)| + 1 }

  function RunStatement(s: TxState, t: TxId): TxState
    requires t in s.txs
  {
    var tx := s.txs[t];
    match tx.stage
    case Begun =>
      if tx.code !in s.ledger.codes then To(s, t, RolledBack(Missing))
      else if tx.code in s.locks then s // queued behind the holder
      else To(s, t, Locked(s.ledger.codes[tx.code])).(locks := s.locks[tx.code := t])
    case Locked(seen) =>
      if (tx.code, tx.sid) in s.ledger.uses then To(s, t, AlreadyCounted) else To(s, t, Inserted(seen))
    case AlreadyCounted => Unlock(s, t, Committed)
    case Inserted(seen) =>
      if PastExpiry(seen, s.now) then Unlock(s, t, RolledBack(CodeExpired))
      else if CodeSpent(seen) then Unlock(s, t, RolledBack(Exhausted))
      else To(s, t, Unexpired(seen, s.now))
    case Unexpired(seen, at) =>
      if seen.perUserLimit.Some? && Mine(s, tx) > seen.perUserLimit.value then Unlock(s, t, RolledBack(Exhausted))
      else To(s, t, UserCleared(seen, at))
    case UserCleared(seen, at) => To(s, t, Incremented(seen, at))
    case Incremented(seen, at) =>
      // Commit publishes the pending row and the pending increment of the row as it now stands.
      if tx.code in s.ledger.codes then Unlock(s.(ledger := Record(s.ledger, tx.code, tx.user, tx.sid)), t, Committed)
      else Unlock(s, t, RolledBack(Trouble))
    case Committed => s
    case RolledBack(_) => s
  }

  function NextTx(s: TxState, ev: TxEvent): TxState {
    match ev
    case Begin(t, code, user, sid) => if t in s.txs then s else s.(txs := s.txs[t := Tx(code, user, sid, s.now, Begun)])
    case Statement(t) => if t in s.txs then RunStatement(s, t) else s
    case GiveUp(t) =>
      if t !in s.txs || s.txs[t].stage.Committed? || s.txs[t].stage.RolledBack? then s
      else Unlock(s, t, RolledBack(if s.txs[t].stage.Begun? then Contention else Trouble))
    case Pass(ms) => s.(now := s.now + ms)
  }

  function RunTx(s: TxState, evs: seq<TxEvent>): TxState {
    if evs == [] then s else NextTx(RunTx(s, evs[..|evs| - 1]), evs[|evs| - 1])
  }

  predicate InitTx(s: TxState) { s.locks == map[] && s.txs == map[] }

  /** What the holder of a row lock still knows about the committed ledger. */
  predicate TxKnows(s: TxState, tx: Tx) {
    && tx.begun <= s.now
    && match tx.stage
    case Begun | Committed | RolledBack(_) => true
    case Locked(seen) => tx.code in s.ledger.codes && s.ledger.codes[tx.code] == seen
    case AlreadyCounted => tx.code in s.ledger.codes && (tx.code, tx.sid) in s.ledger.uses
    case Inserted(seen) => Pending(s, tx, seen)
    case Unexpired(seen, at) => Pending(s, tx, seen) && tx.begun <= at <= s.now && !PastExpiry(seen, at)
      && !CodeSpent(seen)
    case UserCleared(seen, at) => Cleared(s, tx, seen, at)
    case Incremented(seen, at) => Cleared(s, tx, seen, at)
  }

  predicate Pending(s: TxState, tx: Tx, seen: Promo) {
    tx.code in s.ledger.codes && s.ledger.codes[tx.code] == seen && (tx.code, tx.sid) !in s.ledger.uses
  }

  predicate Cleared(s: TxState, tx: Tx, seen: Promo, at: Time) {
    && Pending(s, tx, seen) && tx.begun <= at <= s.now && !PastExpiry(seen, at) && !CodeSpent(seen)
    && !UserSpent(s.ledger, tx.code, tx.user)
  }

  /** A row is locked by exactly the transaction that holds it. */
  ghost predicate LocksOk(s: TxState) {
    && (forall t :: t in s.txs && Holding(s.txs[t].stage) ==> s.txs[t].code in s.locks && s.locks[s.txs[t].code] == t)
    && (forall c :: c in s.locks ==>
      s.locks[c] in s.txs && s.txs[s.locks[c]].code == c && Holding(s.txs[s.locks[c]].stage))
  }

  ghost predicate TxInv(s: TxState) { LocksOk(s) && forall t :: t in s.txs ==> TxKnows(s, s.txs[t]) }

  lemma TxLocks(s: TxState, s': TxState, t: TxId)
    requires LocksOk(s) && t in s.txs && s'.txs.Keys == s.txs.Keys && s'.txs[t].code == s.txs[t].code
    requires forall u :: u in s.txs && u != t ==> s'.txs[u] == s.txs[u]
    requires s'.locks == (if Holding(s'.txs[t].stage) then s.locks[s.txs[t].code := t]
                          else if Holding(s.txs[t].stage) then s.locks - {s.txs[t].code} else s.locks)
    requires s.txs[t].code in s.locks ==>
      s.locks[s.txs[t].code] == t || (!Holding(s.txs[t].stage) && !Holding(s'.txs[t].stage))
    ensures LocksOk(s')
  {
  }

  /** Nobody else's knowledge is disturbed by a transaction that leaves other codes' rows alone. */
  lemma TxFrame(s: TxState, s': TxState, t: TxId)
    requires TxInv(s) && t in s.txs && s'.txs.Keys == s.txs.Keys && s'.now == s.now
    requires forall u :: u in s.txs && u != t ==> s'.txs[u] == s.txs[u]
    requires s'.txs[t].code == s.txs[t].code && TxKnows(s', s'.txs[t])
    requires s'.ledger == s.ledger || (Holding(s.txs[t].stage) && s.txs[t].code in s.ledger.codes
      && (s.txs[t].code, s.txs[t].sid) !in s.ledger.uses
      && s'.ledger == Record(s.ledger, s.txs[t].code, s.txs[t].user, s.txs[t].sid))
    requires s'.locks == (if Holding(s'.txs[t].stage) then s.locks[s.txs[t].code := t]
                          else if Holding(s.txs[t].stage) then s.locks - {s.txs[t].code} else s.locks)
    requires s.txs[t].code in s.locks ==>
      s.locks[s.txs[t].code] == t || (!Holding(s.txs[t].stage) && !Holding(s'.txs[t].stage))
    ensures TxInv(s')
  {
    TxLocks(s, s', t);
    forall u | u in s'.txs ensures TxKnows(s', s'.txs[u]) {
      if u != t { BystanderKnows(s, s', t, u); }
    }
  }

  /** A record under one code tells the holder of another code's lock nothing new. */
  lemma BystanderKnows(s: TxState, s': TxState, t: TxId, u: TxId)
    requires TxInv(s) && t in s.txs && u in s.txs && u != t && s'.now == s.now
    requires s'.ledger == s.ledger || (Holding(s.txs[t].stage) && s.txs[t].code in s.ledger.codes
      && (s.txs[t].code, s.txs[t].sid) !in s.ledger.uses
      && s'.ledger == Record(s.ledger, s.txs[t].code, s.txs[t].user, s.txs[t].sid))
    ensures TxKnows(s', s.txs[u])
  {
    var tx := s.txs[t];
    assert TxKnows(s, s.txs[u]);
    if s'.ledger != s.ledger && Holding(s.txs[u].stage) {
      assert s.txs[u].code in s.ledger.codes && s.txs[u].code != tx.code;
      OtherCodeUntouched(s.ledger, tx.code, tx.user, tx.sid, s.txs[u].code, s.txs[u].user);
    }
  }

  /** One statement moves its own transaction only. */
  lemma StatementShape(s: TxState, t: TxId)
    requires t in s.txs
    ensures
      var s' := RunStatement(s, t);
      && s'.txs.Keys == s.txs.Keys && s'.now == s.now && s'.txs == s.txs[t := s.txs[t].(stage := s'.txs[t].stage)]
  {
  }

  lemma StatementKnows(s: TxState, t: TxId)
    requires t in s.txs && TxKnows(s, s.txs[t])
    requires s.txs[t].stage.Begun? || s.txs[t].stage.Locked? || s.txs[t].stage.Inserted?
    ensures t in RunStatement(s, t).txs && TxKnows(RunStatement(s, t), RunStatement(s, t).txs[t])
  {
  }

  lemma StatementEnds(s: TxState, t: TxId)
    requires t in s.txs && TxKnows(s, s.txs[t]) && !s.txs[t].stage.Begun? && !s.txs[t].stage.Locked?
    requires !s.txs[t].stage.Inserted?
    ensures t in RunStatement(s, t).txs && TxKnows(RunStatement(s, t), RunStatement(s, t).txs[t])
  {
  }

  /** What one statement does to the committed ledger. */
  lemma StatementLedger(s: TxState, t: TxId)
    requires t in s.txs && TxKnows(s, s.txs[t])
    ensures
      var tx, s' := s.txs[t], RunStatement(s, t);
      s'.ledger == s.ledger || (Holding(tx.stage) && tx.code in s.ledger.codes && (tx.code, tx.sid) !in s.ledger.uses
        && s'.ledger == Record(s.ledger, tx.code, tx.user, tx.sid))
  {
  }

  lemma StatementLocks(s: TxState, t: TxId)
    requires t in s.txs && TxKnows(s, s.txs[t])
    requires Holding(s.txs[t].stage) ==> s.txs[t].code in s.locks && s.locks[s.txs[t].code] == t
    ensures
      var tx, s' := s.txs[t], RunStatement(s, t);
      s' == s
      || (s'.locks == (if Holding(s'.txs[t].stage) then s.locks[tx.code := t]
                       else if Holding(tx.stage) then s.locks - {tx.code} else s.locks)
          && (tx.code in s.locks ==> s.locks[tx.code] == t || (!Holding(tx.stage) && !Holding(s'.txs[t].stage))))
  {
    var tx := s.txs[t];
    assert Holding(tx.stage) ==> s.locks[tx.code := t] == s.locks;
  }

  lemma StatementStep(s: TxState, t: TxId)
    requires TxInv(s) && t in s.txs
    ensures TxInv(RunStatement(s, t))
  {
    assert TxKnows(s, s.txs[t]);
    StatementShape(s, t);
    if s.txs[t].stage.Begun? || s.txs[t].stage.Locked? || s.txs[t].stage.Inserted? {
      StatementKnows(s, t);
    } else {
      StatementEnds(s, t);
    }
    StatementLedger(s, t);
    StatementLocks(s, t);
    if RunStatement(s, t) != s { TxFrame(s, RunStatement(s, t), t); }
  }

  lemma TxStep(s: TxState, ev: TxEvent)
    requires TxInv(s)
    ensures TxInv(NextTx(s, ev))
  {
    var s' := NextTx(s, ev);
    if ev.Statement? && ev.t in s.txs {
      StatementStep(s, ev.t);
    } else if ev.GiveUp? && s' != s {
      TxFrame(s, s', ev.t);
    } else {
      forall t | t in s'.txs ensures TxKnows(s', s'.txs[t]) {
        assert t in s.txs ==> TxKnows(s, s.txs[t]);
      }
    }
  }

  lemma OtherCodeUntouched(l: PromoLedger, code: string, user: UserId, sid: SessionId, c: string, who: UserId)
    requires code in l.codes && (code, sid) !in l.uses && c != code && c in l.codes
    ensures var l' := Record(l, code, user, sid);
      l'.codes[c] == l.codes[c] && (UserSpent(l', c, who) <==> UserSpent(l, c, who))
  {
    RecordUserUses(l, code, user, sid, c, who);
  }

  lemma {:induction false} TxRunInv(s0: TxState, evs: seq<TxEvent>)
    requires InitTx(s0)
    ensures TxInv(RunTx(s0, evs))
  {
    if evs != [] {
      TxRunInv(s0, evs[..|evs| - 1]);
      TxStep(RunTx(s0, evs[..|evs| - 1]), evs[|evs| - 1]);
    }
  }

  /**
   * Serializability: in any interleaving, a statement changes the committed ledger only when it is a commit, and
   * then exactly as one atomic Redeem would, judged at an instant inside the transaction. A commit that changes
   * nothing is an atomic Redeem of an already counted session.
   */
  lemma {:induction false} CommitIsRedeem(s0: TxState, evs: seq<TxEvent>, t: TxId)
    requires InitTx(s0)
    ensures
      var s := RunTx(s0, evs);
      var s' := NextTx(s, Statement(t));
      && (s'.ledger != s.ledger ==> t in s.txs && s.txs[t].stage.Incremented? && s'.txs[t].stage.Committed?)
      && (t in s.txs && !s.txs[t].stage.Committed? && s'.txs[t].stage.Committed? ==>
           var tx := s.txs[t];
           exists at :: tx.begun <= at <= s.now
             && Redeem(s.ledger, tx.code, tx.user, tx.sid, at) == Redeemed(s'.ledger))
  {
    TxRunInv(s0, evs);
    var s := RunTx(s0, evs);
    if t in s.txs {
      var tx := s.txs[t];
      assert TxKnows(s, tx);
      if tx.stage.AlreadyCounted? {
        assert Redeem(s.ledger, tx.code, tx.user, tx.sid, s.now) == Redeemed(s.ledger);
      }
      if tx.stage.Incremented? {
        assert Redeem(s.ledger, tx.code, tx.user, tx.sid, tx.stage.at) == Redeemed(NextTx(s, Statement(t)).ledger);
      }
    }
  }

  /**
   * So no statement records a use of a code whose deadline passed before its transaction began, that has no redemption
   * left, or of which the user already holds the limit.
   */
  lemma {:induction false} ExpiredBeforeBegin(s0: TxState, evs: seq<TxEvent>, t: TxId, mine: set<Use>)
    requires InitTx(s0) && t in RunTx(s0, evs).txs && RunTx(s0, evs).txs[t].code in RunTx(s0, evs).ledger.codes
    requires
      var s := RunTx(s0, evs);
      forall u :: u in mine <==> u in s.ledger.uses && u.0 == s.txs[t].code && s.ledger.uses[u] == s.txs[t].user
    requires
      var s := RunTx(s0, evs);
      var p := s.ledger.codes[s.txs[t].code];
      || (p.expiresAt.Some? && p.expiresAt.value < s.txs[t].begun)
      || (p.maxRedemptions.Some? && p.redeemedCount >= p.maxRedemptions.value)
      || (p.perUserLimit.Some? && |mine| >= p.perUserLimit.value)
    ensures NextTx(RunTx(s0, evs), Statement(t)).ledger == RunTx(s0, evs).ledger
  {
    CommitIsRedeem(s0, evs, t);
    var s := RunTx(s0, evs);
    var tx := s.txs[t];
    forall at | tx.begun <= at
      ensures var r := Redeem(s.ledger, tx.code, tx.user, tx.sid, at); r == Redeemed(s.ledger) || !r.Redeemed?
    {
      RedeemIs(s.ledger, tx.code, tx.user, tx.sid, at, mine);
    }
  }

  /** A business refusal is the atomic Redeem's refusal of the ledger as it then stands; nothing was recorded. */
  lemma {:induction false} RefusalIsRedeem(s0: TxState, evs: seq<TxEvent>, t: TxId)
    requires InitTx(s0)
    requires t in RunTx(s0, evs).txs && !RunTx(s0, evs).txs[t].stage.RolledBack?
    ensures
      var s := RunTx(s0, evs);
      var s' := NextTx(s, Statement(t));
      var tx := s.txs[t];
      s'.txs[t].stage.RolledBack? ==>
        && s'.ledger == s.ledger
        && exists at :: tx.begun <= at <= s.now &&
             Redeem(s.ledger, tx.code, tx.user, tx.sid, at) ==
               (match s'.txs[t].stage.reason case Missing => NotFound case CodeExpired => PromoExpired case _ =>
                 PromoExhausted)
  {
    TxRunInv(s0, evs);
    var s := RunTx(s0, evs);
    var tx := s.txs[t];
    assert TxKnows(s, tx);
    var at := if tx.stage.Unexpired? then tx.stage.at else s.now;
    var r := Redeem(s.ledger, tx.code, tx.user, tx.sid, at);
    if tx.stage.Begun? { assert tx.code !in s.ledger.codes ==> r == NotFound; }
  }

  /** Under every interleaving of statements, rollbacks and crashes the counts stay true and no cap is passed. */
  lemma {:induction false} LedgerAlwaysOk(s0: TxState, evs: seq<TxEvent>)
    requires InitTx(s0) && LedgerOk(s0.ledger)
    ensures LedgerOk(RunTx(s0, evs).ledger)
    ensures forall c :: c in RunTx(s0, evs).ledger.codes ==>
      RunTx(s0, evs).ledger.codes[c].redeemedCount == |UsesOf(RunTx(s0, evs).ledger, c)|
  {
    if evs != [] {
      var before := evs[..|evs| - 1];
      LedgerAlwaysOk(s0, before);
      var s := RunTx(s0, before);
      var ev := evs[|evs| - 1];
      if ev.Statement? && NextTx(s, ev).ledger != s.ledger {
        CommitIsRedeem(s0, before, ev.t);
        var tx := s.txs[ev.t];
        var at :| tx.begun <= at <= s.now
          && Redeem(s.ledger, tx.code, tx.user, tx.sid, at) == Redeemed(NextTx(s, ev).ledger);
        RedeemKeepsLedger(s.ledger, tx.code, tx.user, tx.sid, at);
      }
    }
  }

  lemma UseKept(s: TxState, ev: TxEvent, u: Use)
    requires TxInv(s) && u in s.ledger.uses
    ensures u in NextTx(s, ev).ledger.uses && NextTx(s, ev).ledger.uses[u] == s.ledger.uses[u]
  {
    if ev.Statement? && ev.t in s.txs {
      assert TxKnows(s, s.txs[ev.t]);
      StatementShape(s, ev.t);
    }
  }

  /** A redemption, once committed, is never lost or reassigned by any later statement. */
  lemma {:induction false} UsesArePermanent(s0: TxState, evs: seq<TxEvent>, more: seq<TxEvent>, u: Use)
    requires InitTx(s0) && u in RunTx(s0, evs).ledger.uses
    ensures u in RunTx(s0, evs + more).ledger.uses
    ensures RunTx(s0, evs + more).ledger.uses[u] == RunTx(s0, evs).ledger.uses[u]
  {
    if more == [] {
      assert evs + more == evs;
    } else {
      var m := more[..|more| - 1];
      UsesArePermanent(s0, evs, m, u);
      var all := evs + more;
      assert all[..|all| - 1] == evs + m && all[|all| - 1] == more[|more| - 1];
      TxRunInv(s0, evs + m);
      UseKept(RunTx(s0, evs + m), more[|more| - 1], u);
    }
  }
}
