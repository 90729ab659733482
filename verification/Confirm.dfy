/**
 * CheckoutService.Confirm as the imperative program it is, calling the stores while everybody else acts in between.
 * Every call it makes is recorded as the matching step of the protocol machine, so what is proved here is that the
 * program's control flow is a run of the machine, ending in the answer the machine ends in.
 */
module Confirm {
  import opened Base
  import opened Domain
  import opened Money
  import opened Ledger
  import opened Store
  import opened Protocol
  import opened Safety
  import opened Theorems
  import opened Repository
  import Catalog

  /** What the rest of the world does before the next store call lands, and how that call goes. */
  datatype Turn = Turn(others: seq<Event>, input: Input)

  const SILENCE := Input(Failed, Catalog.Reads(Failure(()), Failure(())), false, 0)

  /** A store error as the caller can tell it apart. */
  datatype Err = Nil | ErrStale | ErrOther

  function ErrOf(ack: Ack, out: Outcome): Err {
    if ack != Good then ErrOther else if out == Applied then Nil else if out == NoRow then ErrStale else ErrOther
  }

  lemma EnterFacts(s: State, e: Actor, input: Input)
    requires AtPc(s, e) && s.execs[e].pc.Entering? && s.execs[e].sess.status == Ready
    ensures
      var x := s.execs[e];
      var st := Stmt.BeginConfirm(x.claim);
      var s' := StepOf(s, e, input);
      var err := if input.ack == Good || input.ack == Lost then ErrOf(input.ack, OutcomeOf(s.db, x.sid, st))
        else ErrOther;
      && s'.db == (if input.ack == Good || input.ack == Lost then Exec(s.db, x.sid, st) else s.db) && e in s'.execs
      && s'.execs[e] == x.(pc := if err == Nil then Rereading else if err == ErrStale then Releasing(InFlight)
        else Releasing(Unavailable))
  {
    EnterShape(s, e, input.ack);
  }

  lemma CompleteFacts(s: State, e: Actor, input: Input)
    requires AtPc(s, e) && s.execs[e].pc.Completing?
    ensures
      var x := s.execs[e];
      var st := Stmt.CompleteSession(x.claim, x.orderId);
      var s' := StepOf(s, e, input);
      var err := if input.ack == Good || input.ack == Lost then ErrOf(input.ack, OutcomeOf(s.db, x.sid, st))
        else ErrOther;
      && s'.db == (if input.ack == Good || input.ack == Lost then Exec(s.db, x.sid, st) else s.db) && e in s'.execs
      && s'.execs[e] ==
        match err
        case Nil => x.(pc := Finishing, sess := x.sess.(status := Completed, orderId := Some(x.orderId)))
        case ErrStale => x.(pc := Adopting)
        case ErrOther => x.(pc := Done(Refused(Unavailable)))
  {
    CompleteMoves(s, e, s.execs[e], input.ack);
  }

  lemma VerdictFacts(s: State, e: Actor, input: Input)
    requires AtPc(s, e) && s.execs[e].pc.Revalidating?
    ensures
      var x := s.execs[e];
      var s' := StepOf(s, e, input);
      var pc := AfterVerdict(s.db, x.sess.quote, Catalog.Revalidation(x.sess.quote.items, input.got), input.lookups);
      && s'.db == s.db && e in s'.execs && s'.execs[e] == x.(pc := pc, limit := s'.execs[e].limit)
      && s.db.now <= s'.execs[e].limit
  {
    VerdictMoves(s, e, Catalog.Revalidation(s.execs[e].sess.quote.items, input.got), input.lookups);
  }

  lemma VerdictMoves(s: State, e: Actor, v: Catalog.Verdict, lookups: bool)
    requires AtPc(s, e)
    ensures
      var x := s.execs[e];
      var s' := StepVerdict(s, e, x, v, lookups);
      && s'.db == s.db && e in s'.execs && s.db.now <= s'.execs[e].limit
      && s'.execs[e] == x.(pc := AfterVerdict(s.db, x.sess.quote, v, lookups), limit := s'.execs[e].limit)
  {
  }

  lemma FreshId(s0: State, evs: seq<Event>, e: Actor, s: State, log: seq<Call>)
    requires CoreInv(s0) && Leads(s0, evs, e, s, log)
    ensures s.db.nextClaim !in s.db.claims
  {
    LeadsIsRun(s0, evs, e, s, log);
    CoreFrom(s0, evs);
    NextClaimUnused(s);
  }

  lemma ClaimLands(s: State, e: Actor, x: Execution, ack: Ack)
    requires e in s.execs && s.execs[e] == x
    ensures
      var s' := StepClaim(s, e, x, ack);
      s'.db == (if ack == Good || ack == Lost then ClaimDb(s.db, s.takeover, x.user, x.key, x.sid, e) else s.db)
        && e in s'.execs
  {
  }

  // ---- The record of its own calls ----

  /** One call the confirm made: where it stood, what the system was like when the call landed, how the call went. */
  datatype Call = Call(pc: Pc, pre: State, input: Input)

  function Own(s: State, ev: Event, e: Actor): seq<Call> {
    if ev.Step? && ev.e == e && e in s.execs then [Call(s.execs[e].pc, s, ev.input)] else []
  }

  /** A state of a run, with the calls `e` made on the way to it. */
  datatype Stop = Stop(s: State, log: seq<Call>)

  /** Each stop follows from the one before by the event between them. */
  predicate Linking(path: seq<Stop>, evs: seq<Event>, e: Actor, i: nat) {
    && i < |evs| && i + 1 < |path|
    && path[i + 1] == Stop(Next(path[i].s, evs[i]), path[i].log + Own(path[i].s, evs[i], e))
  }

  ghost predicate Linked(path: seq<Stop>, evs: seq<Event>, e: Actor) {
    |path| == |evs| + 1 && forall i: nat :: i < |evs| ==> Linking(path, evs, e, i)
  }

  /** These events lead from `s0` to `s`, and these are the calls `e` made on the way. */
  ghost predicate Leads(s0: State, evs: seq<Event>, e: Actor, s: State, log: seq<Call>) {
    exists path :: Linked(path, evs, e) && path[0] == Stop(s0, []) && path[|evs|] == Stop(s, log)
  }

  lemma {:induction false} PathIsRun(path: seq<Stop>, evs: seq<Event>, e: Actor)
    requires Linked(path, evs, e)
    ensures path[|evs|].s == Run(path[0].s, evs)
    decreases |evs|
  {
    if evs != [] {
      var n := |evs| - 1;
      var before, past := path[..n + 1], evs[..n];
      forall i: nat | i < n ensures Linking(before, past, e, i) { assert Linking(path, evs, e, i); }
      PathIsRun(before, past, e);
      assert Linking(path, evs, e, n);
    }
  }

  lemma LeadsIsRun(s0: State, evs: seq<Event>, e: Actor, s: State, log: seq<Call>)
    requires Leads(s0, evs, e, s, log)
    ensures s == Run(s0, evs)
  {
    var path :| Linked(path, evs, e) && path[0] == Stop(s0, []) && path[|evs|] == Stop(s, log);
    PathIsRun(path, evs, e);
  }

  lemma LeadsNowhere(s: State, e: Actor)
    ensures Leads(s, [], e, s, [])
  {
    assert Linked([Stop(s, [])], [], e);
  }

  lemma LeadsOn(s0: State, evs: seq<Event>, e: Actor, s: State, log: seq<Call>, ev: Event)
    requires Leads(s0, evs, e, s, log)
    ensures Leads(s0, evs + [ev], e, Next(s, ev), log + Own(s, ev, e))
  {
    var path :| Linked(path, evs, e) && path[0] == Stop(s0, []) && path[|evs|] == Stop(s, log);
    var path', evs' := path + [Stop(Next(s, ev), log + Own(s, ev, e))], evs + [ev];
    forall i: nat | i < |evs'| ensures Linking(path', evs', e, i) { if i < |evs| { assert Linking(path, evs, e, i); } }
    assert Linked(path', evs', e) && path'[|evs'|] == Stop(Next(s, ev), log + Own(s, ev, e));
  }

  /** One call was made, from `pc`. */
  predicate Did(before: seq<Call>, after: seq<Call>, pc: Pc) {
    before <= after && |after| == |before| + 1 && after[|before|].pc == pc
  }

  /** Two calls were made, from `first` and then from `second`. */
  predicate DidBoth(before: seq<Call>, after: seq<Call>, first: Pc, second: Pc) {
    before <= after && |after| == |before| + 2 && after[|before|].pc == first && after[|before| + 1].pc == second
  }

  lemma DidThen(a: seq<Call>, b: seq<Call>, c: seq<Call>, first: Pc, second: Pc)
    requires Did(a, b, first) && Did(b, c, second)
    ensures DidBoth(a, c, first, second) && c[..|b|] == b && c[|a|] == b[|a|]
  {
  }

  /** The caller was told that its conditional write applied, and it did. */
  predicate Landed(c: Call, sid: SessionId, st: Stmt) { c.input.ack == Good && OutcomeOf(c.pre.db, sid, st) == Applied }

  /** A drop of the row: once it lands the claim is released and `why` answered, otherwise the claim is kept. */
  predicate Dropped(before: seq<Call>, after: seq<Call>, drop: Pc, why: Refusal, sid: SessionId, st: Stmt,
      err: Option<Refusal>) {
    && |before| < |after|
    && (if Landed(after[|before|], sid, st) then err == Some(why) && DidBoth(before, after, drop, Releasing(why))
        else err == Some(InFlight) && Did(before, after, drop))
  }

  function ErrorOf(r: Redemption): PromoError {
    match r
    case Redeemed(_) => NoError
    case NotFound => ErrPromoNotFound
    case PromoExpired => ErrPromoExpired
    case PromoExhausted => ErrPromoExhausted
  }

  lemma TimeOnlyPasses(s: State, ev: Event)
    requires !ev.Pass?
    ensures Next(s, ev).db.now == s.db.now
  {
    if ev.Step? && ev.e in s.execs { StepFramed(s, ev.e, ev.input); }
  }

  /** Everything a confirm talks to, shared with everybody else. */
  class World {
    const repo: SessionRepository
    const e: Actor
    var s: State
    var turns: seq<Turn>
    ghost const origin: State
    ghost var trace: seq<Event>
    ghost var log: seq<Call>

    ghost predicate Valid()
      reads this, repo
    {
      Leads(origin, trace, e, s, log) && repo.View() == s.db
    }

    ghost predicate At(pc: Pc)
      reads this
    {
      e in s.execs && s.execs[e].pc == pc && (pc.Done? || s.db.now <= s.execs[e].limit)
    }

    function Me(): Execution
      requires e in s.execs
      reads this
    {
      s.execs[e]
    }

    constructor (e: Actor, s: State, turns: seq<Turn>)
      ensures Valid() && this.e == e && this.s == s && this.turns == turns && fresh(repo) && origin == s && trace == []
    {
      this.e, this.s, this.turns, this.origin, this.trace, this.log := e, s, turns, s, [], [];
      this.repo := new SessionRepository(s.db);
      LeadsNowhere(s, e);
    }

    /** Somebody else's event. */
    method Witness(ev: Event)
      requires Valid() && e in s.execs && !Concerns(ev, e)
      modifies this, repo
      ensures Valid() && s == Next(old(s), ev) && e in s.execs && Me() == old(Me()) && trace == old(trace) + [ev]
      ensures log == old(log) && turns == old(turns)
    {
      OtherKeeps(s, ev, e);
      LeadsOn(origin, trace, e, s, log, ev);
      s, trace := Next(s, ev), trace + [ev];
      repo.Load(s.db);
    }

    /**
     * Others act before the call lands. A schedule that would carry the clock past the deadline of the call's context
     * fails the call at that deadline; what was left of the schedule happens afterwards.
     */
    method Yield() returns (input: Input)
      requires Valid() && e in s.execs && Alive(s, Me())
      modifies this, repo
      ensures Valid() && e in s.execs && Me() == old(Me()) && Alive(s, Me()) && log == old(log)
    {
      input := SILENCE;
      if turns == [] { return; }
      var turn := turns[0];
      turns, input := turns[1..], turn.input;
      var others := turn.others;
      while others != []
        invariant Valid() && e in s.execs && Me() == old(Me()) && Alive(s, Me()) && log == old(log)
      {
        var ev := others[0];
        others := others[1..];
        if ev.Pass? && s.db.now + ev.ms > s.execs[e].limit {
          var gap := s.execs[e].limit - s.db.now;
          Witness(Pass(gap));
          turns := [Turn([Pass(ev.ms - gap)] + others, turn.input)] + turns;
          input := SILENCE.(ack := if turn.input.ack == Lost then Lost else Failed);
          return;
        }
        if !Concerns(ev, e) {
          if !ev.Pass? { TimeOnlyPasses(s, ev); }
          Witness(ev);
        }
      }
    }

    /** The machine takes the step this call was. */
    method Advance(input: Input)
      requires Leads(origin, trace, e, s, log) && e in s.execs
      modifies this
      ensures Leads(origin, trace, e, s, log) && s == StepOf(old(s), e, input) && trace == old(trace) + [Step(e, input)]
      ensures turns == old(turns) && log == old(log) + [Call(old(Me().pc), old(s), input)]
    {
      LeadsOn(origin, trace, e, s, log, Step(e, input));
      s, trace, log := StepOf(s, e, input), trace + [Step(e, input)], log + [Call(s.execs[e].pc, s, input)];
    }

    method Begin(user: UserId, id: SessionId, key: string)
      requires Valid() && e !in s.execs
      modifies this
      ensures Valid() && At(Reading) && Me().user == user && Me().sid == id && Me().key == key
    {
      LeadsOn(origin, trace, e, s, log, Start(e, user, id, key));
      s, trace := Next(s, Start(e, user, id, key)), trace + [Start(e, user, id, key)];
    }

    // ---- The calls, one per step of the machine ----

    method OwnedSession(user: UserId, id: SessionId) returns (found: Result<Session, Refusal>)
      requires Valid() && At(Reading) && Me().user == user && Me().sid == id
      modifies this, repo
      ensures Valid() && e in s.execs
      ensures Me().user == old(Me().user) && Me().sid == old(Me().sid) && Me().key == old(Me().key)
      ensures match found
        case Failure(why) => At(Done(Refused(why)))
        case Success(r) =>
          && id in s.db.sessions && s.db.sessions[id] == r
          && (if r.status == Expired then At(Done(Refused(Lapsed)))
              else if LazyDue(r, s.db.now) then At(Lapsing)
              else if !OrderBounds(r.quote) then At(Done(Refused(Rejected)))
              else At(Claiming) && Me().sess == r)
    {
      var input := Yield();
      if input.ack != Good {
        found := Failure(Unavailable);
      } else if id !in repo.sessions || repo.sessions[id].user != user {
        found := Failure(NoSession);
      } else {
        found := Success(repo.sessions[id]);
      }
      Advance(input);
    }

    /** Best effort: its error is swallowed. */
    method MarkExpired(id: SessionId)
      requires Valid() && At(Lapsing) && Me().sid == id
      modifies this, repo
      ensures Valid() && At(Done(Refused(Lapsed)))
    {
      var input := Yield();
      if input.ack != Failed { var _ := repo.MarkExpired(id); }
      Advance(input);
    }

    method Claim(user: UserId, key: string, id: SessionId) returns (answer: Result<ClaimAnswer, ()>)
      requires CoreInv(origin) && Valid() && At(Claiming) && Me().user == user && Me().key == key && Me().sid == id
      modifies this, repo
      ensures Valid()
      ensures match answer
        case Failure(_) => At(Done(Refused(Unavailable)))
        case Success(Conflict) => At(Done(Refused(KeyConflict)))
        case Success(LockedOut) => At(Done(Refused(InFlight)))
        case Success(Replay(body)) => At(Done(Confirmed(body)))
        case Success(Proceed(k, subject)) =>
          At(Entering) && Me() == old(Me()).(pc := Entering, claim := k, marked := subject.Some?)
    {
      var input := Yield();
      if input.ack == Failed || input.ack == Invalid {
        answer := Failure(());
      } else {
        FreshId(origin, trace, e, s, log);
        var got := repo.Claim(user, key, id, s.takeover, e);
        answer := if input.ack == Good then Success(got) else Failure(());
      }
      ClaimLands(s, e, Me(), input.ack);
      ClaimMoves(s, e, Me(), input.ack);
      Advance(input);
    }

    method BeginConfirm(id: SessionId, k: ClaimId) returns (err: Err)
      requires Valid() && At(Entering) && Me().sid == id && Me().claim == k && Me().sess.status == Ready
      modifies this, repo
      ensures Valid()
      ensures err == Nil ==> At(Rereading) && Me() == old(Me()).(pc := Rereading)
      ensures err == ErrStale ==> At(Releasing(InFlight)) && Me() == old(Me()).(pc := Releasing(InFlight))
      ensures err == ErrOther ==> At(Releasing(Unavailable)) && Me() == old(Me()).(pc := Releasing(Unavailable))
    {
      var input := Yield();
      err := ErrOther;
      if input.ack == Good || input.ack == Lost {
        var out := repo.BeginConfirm(id, k);
        err := ErrOf(input.ack, out);
      }
      EnterFacts(s, e, input);
      Advance(input);
    }

    /** The gate for a row that is not ready decides on the snapshot and calls nobody. */
    method Gate()
      requires Valid() && At(Entering) && Me().sess.status != Ready
      modifies this
      ensures Valid()
      ensures
        var x := old(Me());
        var mine := x.sess.confirmKey == Some(x.claim);
        var pc := if x.sess.status == Confirming then (if mine then Rereading else Releasing(InFlight))
                  else if x.sess.status == Completed && mine then Recovering else Releasing(InvalidTransition);
        At(pc) && Me() == x.(pc := pc)
    {
      Advance(SILENCE);
    }

    method Finish(k: ClaimId, body: Session) returns (err: Err)
      requires Valid() && At(Finishing) && Me().claim == k && Me().sess == body
      modifies this, repo
      ensures Valid()
      ensures At(Done(if err == Nil then Confirmed(body) else Refused(Unavailable)))
    {
      var input := Yield();
      if input.ack == Good || input.ack == Lost { repo.Finish(k, body); }
      err := if input.ack == Good then Nil else ErrOther;
      Advance(input);
    }

    /** The same write on the completed-recovery arm, whose failure still releases the claim. */
    method FinishRecovered(k: ClaimId, body: Session) returns (err: Err)
      requires Valid() && At(Recovering) && Me().claim == k && Me().sess == body
      modifies this, repo
      ensures Valid()
      ensures err == Nil ==> At(Done(Confirmed(body)))
      ensures err != Nil ==> At(Releasing(Unavailable)) && Me().claim == k
    {
      var input := Yield();
      if input.ack == Good || input.ack == Lost { repo.Finish(k, body); }
      err := if input.ack == Good then Nil else ErrOther;
      Advance(input);
    }

    method Reread(id: SessionId, k: ClaimId) returns (found: Result<Session, Refusal>)
      requires Valid() && At(Rereading) && Me().sid == id && Me().claim == k
      modifies this, repo
      ensures Valid()
      ensures match found
        case Failure(why) => At(Done(Refused(why)))
        case Success(r) =>
          var pc := if old(Me().marked) then Ordering else Revalidating;
          BoundConfirming(r, k) && At(pc) && Me() == old(Me()).(pc := pc, sess := r)
    {
      var input := Yield();
      if input.ack != Good {
        found := Failure(Unavailable);
      } else if id !in repo.sessions || repo.sessions[id].status != Confirming
        || repo.sessions[id].confirmKey != Some(k) {
        found := Failure(InFlight);
      } else {
        found := Success(repo.sessions[id]);
      }
      Advance(input);
    }

    /** The two concurrent reads; `lookups` says whether a later tax or promo lookup will answer. */
    method ReadCatalog() returns (input: Input)
      requires Valid() && At(Revalidating)
      modifies this, repo
      ensures Valid()
      ensures
        var v := Catalog.Revalidation(old(Me().sess.quote.items), input.got);
        var pc := AfterVerdict(s.db, old(Me().sess.quote), v, input.lookups);
        At(pc) && Me() == old(Me()).(pc := pc, limit := Me().limit)
      ensures Did(old(log), log, Revalidating)
      ensures log[|old(log)|].input == input && log[|old(log)|].pre.db == s.db
    {
      input := Yield();
      VerdictFacts(s, e, input);
      Advance(input);
    }

    method AbortConfirm(id: SessionId, k: ClaimId)
      requires Valid() && At(Aborting) && Me().sid == id && Me().claim == k
      modifies this, repo
      ensures Valid()
      ensures At(Releasing(UpstreamDown)) && Me() == old(Me()).(pc := Releasing(UpstreamDown), limit := Me().limit)
      ensures Did(old(log), log, Aborting)
    {
      var input := Yield();
      if input.ack == Good || input.ack == Lost { var _ := repo.AbortConfirm(id, k); }
      Advance(input);
    }

    /** Best effort: its error is swallowed. */
    method Release(k: ClaimId, ghost why: Refusal)
      requires Valid() && At(Releasing(why)) && Me().claim == k
      modifies this, repo
      ensures Valid() && At(Done(Refused(why))) && Did(old(log), log, Releasing(why))
    {
      var input := Yield();
      if input.ack == Good || input.ack == Lost { repo.Release(k); }
      Advance(input);
    }

    method RequoteItems(id: SessionId, k: ClaimId, items: seq<Item>, subtotal: int, tax: int, discount: int,
        ghost why: Refusal)
      returns (err: Err)
      requires Valid() && At(Requoting(items, subtotal, tax, discount, why)) && Me().sid == id && Me().claim == k
      modifies this, repo
      ensures Valid() && Did(old(log), log, Requoting(items, subtotal, tax, discount, why))
      ensures err == Nil <==> Landed(log[|old(log)|], id, Stmt.RequoteItems(k, items, subtotal, tax, discount))
      ensures if err == Nil then At(Releasing(why)) && Me() == old(Me()).(pc := Releasing(why))
        else At(Done(Refused(InFlight)))
    {
      var input := Yield();
      err := ErrOther;
      if input.ack == Good || input.ack == Lost {
        var out := repo.RequoteItems(id, k, items, subtotal, tax, discount);
        err := ErrOf(input.ack, out);
      }
      DropCases(s, e, Me(), Stmt.RequoteItems(k, items, subtotal, tax, discount), why, input.ack);
      Advance(input);
    }

    method RedeemPromo(code: string, user: UserId, id: SessionId) returns (err: Result<PromoError, ()>)
      requires Valid() && At(Redeeming) && Me().sess.quote.promo == Some(code) && Me().user == user && Me().sid == id
      modifies this, repo
      ensures Valid()
      ensures
        var pc := match err
          case Failure(_) => Aborting
          case Success(NoError) => Marking
          case Success(ErrPromoExpired) => Stripping(CodeExpired)
          case Success(_) => Stripping(CodeExhausted);
        At(pc) && Me() == old(Me()).(pc := pc, limit := Me().limit)
      ensures Did(old(log), log, Redeeming)
      ensures err == Redemptions(log[|old(log)|], id, user, old(Me().started), code)
    {
      var input := Yield();
      err := Failure(());
      if input.ack == Good || input.ack == Lost {
        var got := repo.RedeemPromo(code, user, id, JudgedAt(s, Me().started, input.judged));
        if input.ack == Good { err := Success(got); }
      }
      Advance(input);
    }

    method StripPromo(id: SessionId, k: ClaimId, ghost why: Refusal) returns (err: Err)
      requires Valid() && At(Stripping(why)) && Me().sid == id && Me().claim == k
      modifies this, repo
      ensures Valid() && Did(old(log), log, Stripping(why))
      ensures err == Nil <==> Landed(log[|old(log)|], id, Stmt.StripPromo(k))
      ensures if err == Nil then At(Releasing(why)) && Me() == old(Me()).(pc := Releasing(why))
        else At(Done(Refused(InFlight)))
    {
      var input := Yield();
      err := ErrOther;
      if input.ack == Good || input.ack == Lost {
        var out := repo.StripPromo(id, k);
        err := ErrOf(input.ack, out);
      }
      DropCases(s, e, Me(), Stmt.StripPromo(k), why, input.ack);
      Advance(input);
    }

    /** The attempt marker: subject 0. */
    method Mark(k: ClaimId) returns (err: Err)
      requires Valid() && At(Marking) && Me().claim == k
      modifies this, repo
      ensures Valid()
      ensures if err == Nil then At(Ordering) && Me() == old(Me()).(pc := Ordering) else At(Done(Refused(Unavailable)))
      ensures Did(old(log), log, Marking) && (err == Nil <==> log[|old(log)|].input.ack == Good)
    {
      var input := Yield();
      if input.ack == Good || input.ack == Lost { repo.Checkpoint(k, 0); }
      err := if input.ack == Good then Nil else ErrOther;
      Advance(input);
    }

    /** Create-or-replay on the composed key. */
    method CreateOrder(user: UserId, id: SessionId, key: string) returns (ack: Ack, orderId: OrderId)
      requires Valid() && At(Ordering) && Me().user == user && Me().sid == id && Me().key == key
      modifies this, repo
      ensures Valid()
      ensures
        var pc := if ack == Good then Noting else if ack == Invalid then Releasing(Rejected)
          else Releasing(UpstreamDown);
        At(pc) && Me() == old(Me()).(pc := pc, orderId := Me().orderId) && (ack == Good ==> Me().orderId == orderId)
      ensures Did(old(log), log, Ordering) && ack == log[|old(log)|].input.ack
      ensures ack == Good ==> orderId == Place(log[|old(log)|].pre, old(Me())).orders[OrderKey(user, id, key)].id
    {
      var input := Yield();
      ack, orderId := input.ack, 0;
      Advance(input);
      if ack == Good { orderId := s.orders[OrderKey(user, id, key)].id; }
    }

    /** Best effort: its error is swallowed. */
    method Note(k: ClaimId, orderId: OrderId)
      requires Valid() && At(Noting) && Me().claim == k && Me().orderId == orderId
      modifies this, repo
      ensures Valid() && At(Completing) && Me() == old(Me()).(pc := Completing)
      ensures Did(old(log), log, Noting)
    {
      var input := Yield();
      if input.ack == Good || input.ack == Lost { repo.Checkpoint(k, orderId); }
      Advance(input);
    }

    method CompleteSession(id: SessionId, k: ClaimId, orderId: OrderId) returns (err: Err)
      requires Valid() && At(Completing) && Me().sid == id && Me().claim == k && Me().orderId == orderId
      modifies this, repo
      ensures Valid()
      ensures match err
        case Nil =>
          At(Finishing)
          && Me() == old(Me()).(pc := Finishing, sess := old(Me().sess).(status := Completed, orderId := Some(orderId)))
        case ErrStale => At(Adopting) && Me() == old(Me()).(pc := Adopting)
        case ErrOther => At(Done(Refused(Unavailable)))
      ensures Did(old(log), log, Completing)
      ensures err == Nil <==> Landed(log[|old(log)|], id, Stmt.CompleteSession(k, orderId))
    {
      var input := Yield();
      err := ErrOther;
      if input.ack == Good || input.ack == Lost {
        var out := repo.CompleteSession(id, k, orderId);
        err := ErrOf(input.ack, out);
      }
      CompleteFacts(s, e, input);
      Advance(input);
    }

    method Adopt(id: SessionId, k: ClaimId) returns (found: Result<Session, Refusal>)
      requires Valid() && At(Adopting) && Me().sid == id && Me().claim == k
      modifies this, repo
      ensures Valid()
      ensures match found
        case Failure(why) => At(Done(Refused(why)))
        case Success(r) => At(Finishing) && Me() == old(Me()).(pc := Finishing, sess := r)
      ensures Did(old(log), log, Adopting)
      ensures found.Failure? ==> found.error == if log[|old(log)|].input.ack != Good then Unavailable else InFlight
      ensures found.Success? ==> CompletedUnder(log[|old(log)|].pre.db, id, k, found.value)
    {
      var input := Yield();
      if input.ack != Good {
        found := Failure(Unavailable);
      } else if id !in repo.sessions || repo.sessions[id].status != Completed
        || repo.sessions[id].confirmKey != Some(k) {
        found := Failure(InFlight);
      } else {
        found := Success(repo.sessions[id]);
      }
      Advance(input);
    }
  }

  /** Where re-validation sends the confirm. */
  function AfterVerdict(db: Db, q: Quote, v: Catalog.Verdict, lookups: bool): Pc {
    match v
    case Retry => Aborting
    case Untracked => Requoting(q.items, q.subtotal, q.tax, q.discount, AvailabilityUnknown)
    case Clean => if q.promo.Some? then Redeeming else Marking
    case Drift(items, subtotal, short) =>
      if !lookups || Components(db, q, subtotal).None? then Aborting
      else
        var (tax, d) := Components(db, q, subtotal).value;
        Requoting(items, subtotal, tax, d, if short then StockUnavailable else PriceChanged)
  }

  /** The stored row, completed under this claim. */
  predicate CompletedUnder(db: Db, sid: SessionId, k: ClaimId, r: Session) {
    sid in db.sessions && db.sessions[sid] == r && r.status == Completed && r.confirmKey == Some(k)
  }

  // ---- CheckoutService.Confirm ----

  /** The row goes back to ready and the claim is released; neither error changes the answer. */
  method AbortPreAttempt(w: World, id: SessionId, k: ClaimId)
    requires w.Valid() && w.At(Aborting) && w.Me().sid == id && w.Me().claim == k
    modifies w, w.repo
    ensures w.Valid() && w.At(Done(Refused(UpstreamDown)))
    ensures DidBoth(old(w.log), w.log, Aborting, Releasing(UpstreamDown))
  {
    ghost var l0 := w.log;
    w.AbortConfirm(id, k);
    ghost var l1 := w.log;
    w.Release(k, UpstreamDown);
    DidThen(l0, l1, w.log, Aborting, Releasing(UpstreamDown));
  }

  method ClaimConfirm(w: World, user: UserId, key: string, id: SessionId)
      returns (claimed: Result<ClaimAnswer, Refusal>)
    requires CoreInv(w.origin) && w.Valid() && w.At(Claiming) && w.Me().user == user && w.Me().key == key
    requires w.Me().sid == id
    modifies w, w.repo
    ensures w.Valid()
    ensures match claimed
      case Failure(why) => w.At(Done(Refused(why)))
      case Success(Replay(body)) => w.At(Done(Confirmed(body)))
      case Success(Proceed(k, subject)) =>
        w.At(Entering) && w.Me() == old(w.Me()).(pc := Entering, claim := k, marked := subject.Some?)
      case _ => false
  {
    var answer := w.Claim(user, key, id);
    match answer {
      case Failure(_) => claimed := Failure(Unavailable);
      case Success(Conflict) => claimed := Failure(KeyConflict);
      case Success(LockedOut) => claimed := Failure(InFlight);
      case Success(proceed) => claimed := Success(proceed);
    }
  }

  /** What the pre-claim snapshot allows; `done` means a session found completed under this claim was answered. */
  method EnterConfirm(w: World, id: SessionId, session: Session, k: ClaimId) returns (done: bool, err: Option<Refusal>)
    requires w.Valid() && w.At(Entering) && w.Me().sid == id && w.Me().claim == k && w.Me().sess == session
    modifies w, w.repo
    ensures w.Valid()
    ensures
      if err.Some? then w.At(Releasing(err.value)) && w.Me().claim == k
      else if done then w.At(Done(Confirmed(session)))
      else w.At(Rereading) && w.Me() == old(w.Me()).(pc := Rereading)
  {
    match session.status {
      case Ready =>
        var began := w.BeginConfirm(id, k);
        if began == ErrOther { return false, Some(Unavailable); }
        if began == ErrStale { return false, Some(InFlight); }
        return false, None;
      case Confirming =>
        w.Gate();
        if session.confirmKey != Some(k) { return false, Some(InFlight); }
        return false, None;
      case Completed =>
        w.Gate();
        if session.confirmKey == Some(k) {
          var cached := w.FinishRecovered(k, session);
          return true, if cached == Nil then None else Some(Unavailable);
        }
        return false, Some(InvalidTransition);
      case _ =>
        w.Gate();
        return false, Some(InvalidTransition);
    }
  }

  /** Tax and discount re-derived from the fresh subtotal; a failed lookup fails the requote. */
  method RequoteComponents(w: World, q: Quote, subtotal: int, lookups: bool) returns (parts: Option<(int, int)>)
    requires w.Valid()
    ensures parts == if lookups then Components(w.s.db, q, subtotal) else None
  {
    if !lookups { return None; }
    var tax := q.tax;
    if q.address.Some? {
      var bps := RateFor(w.repo.rates, q.address.value.country);
      if bps.None? { return None; }
      var flat := FlatTax(Wrap(subtotal + q.fee), bps.value);
      if flat.None? { return None; }
      tax := flat.value;
    }
    var discount := 0;
    if q.promo.Some? && q.promo.value in w.repo.codes {
      var derived := DiscountFor(w.repo.codes[q.promo.value], subtotal, q.fee, tax);
      if derived.Failure? { return None; }
      discount := derived.value;
    }
    parts := Some((tax, discount));
  }

  /** What is done and answered after the re-validation reads: aborted, requoted, or nothing more. */
  predicate Follows(read: seq<Call>, after: seq<Call>, sid: SessionId, k: ClaimId, pc: Pc, err: Option<Refusal>) {
    match pc
    case Aborting => err == Some(UpstreamDown) && DidBoth(read, after, Aborting, Releasing(UpstreamDown))
    case Requoting(items, subtotal, tax, d, why) =>
      Dropped(read, after, pc, why, sid, Stmt.RequoteItems(k, items, subtotal, tax, d), err)
    case _ => err.None? && after == read
  }

  /** The escape from a persistent data gap requotes on the snapshot's own values. */
  method EscapeOnUnknownAvailability(w: World, id: SessionId, q: Quote, k: ClaimId) returns (err: Option<Refusal>)
    requires w.Valid() && w.At(Requoting(q.items, q.subtotal, q.tax, q.discount, AvailabilityUnknown))
    requires w.Me().sid == id && w.Me().claim == k
    modifies w, w.repo
    ensures w.Valid() && err.Some? && w.At(Done(Refused(err.value)))
    ensures Follows(old(w.log), w.log, id, k, old(w.Me().pc), err)
  {
    err := RequoteFresh(w, id, k, q.items, q.subtotal, q.tax, q.discount, AvailabilityUnknown);
  }

  /** Fresh lines, prices and totals go into the row; without them the attempt is undone. */
  method RequoteDrift(w: World, id: SessionId, k: ClaimId, q: Quote, items: seq<Item>, subtotal: int, short: bool,
      lookups: bool)
    returns (err: Option<Refusal>)
    requires w.Valid() && w.At(AfterVerdict(w.s.db, q, Catalog.Drift(items, subtotal, short), lookups))
    requires w.Me().sid == id && w.Me().claim == k
    modifies w, w.repo
    ensures w.Valid() && err.Some? && w.At(Done(Refused(err.value)))
    ensures Follows(old(w.log), w.log, id, k, old(w.Me().pc), err)
  {
    var parts := RequoteComponents(w, q, subtotal, lookups);
    if parts.None? {
      AbortPreAttempt(w, id, k);
      return Some(UpstreamDown);
    }
    err := RequoteFresh(w, id, k, items, subtotal, parts.value.0, parts.value.1,
      if short then StockUnavailable else PriceChanged);
  }

  method RequoteFresh(w: World, id: SessionId, k: ClaimId, items: seq<Item>, subtotal: int, tax: int, discount: int,
      why: Refusal)
    returns (err: Option<Refusal>)
    requires w.Valid() && w.At(Requoting(items, subtotal, tax, discount, why)) && w.Me().sid == id && w.Me().claim == k
    modifies w, w.repo
    ensures w.Valid() && err.Some? && w.At(Done(Refused(err.value)))
    ensures Follows(old(w.log), w.log, id, k, Requoting(items, subtotal, tax, discount, why), err)
  {
    ghost var l0 := w.log;
    var requoted := w.RequoteItems(id, k, items, subtotal, tax, discount, why);
    if requoted != Nil { return Some(InFlight); }
    ghost var l1 := w.log;
    w.Release(k, why);
    DidThen(l0, l1, w.log, Requoting(items, subtotal, tax, discount, why), Releasing(why));
    err := Some(why);
  }

  /**
   * What re-validation did and answered, by the verdict on what its reads returned: clean goes on, transport trouble
   * aborts, a data gap requotes the snapshot's own values, drift requotes the fresh ones or aborts without them.
   */
  predicate Judged(before: seq<Call>, after: seq<Call>, sid: SessionId, k: ClaimId, q: Quote, err: Option<Refusal>) {
    && |before| < |after|
    && var c, read := after[|before|], after[..|before| + 1];
    && Did(before, read, Revalidating)
    && Follows(read, after, sid, k,
      AfterVerdict(c.pre.db, q, Catalog.Revalidation(q.items, c.input.got), c.input.lookups), err)
  }

  lemma JudgedBy(a: seq<Call>, b: seq<Call>, c: seq<Call>, sid: SessionId, k: ClaimId, q: Quote, pc: Pc,
      err: Option<Refusal>)
    requires Did(a, b, Revalidating) && b <= c && Follows(b, c, sid, k, pc, err)
    requires pc == AfterVerdict(b[|a|].pre.db, q, Catalog.Revalidation(q.items, b[|a|].input.got), b[|a|].input.lookups)
    ensures Judged(a, c, sid, k, q, err)
  {
    assert c[..|a| + 1] == b;
  }

  /** Price and stock re-validation. */
  method RevalidateConfirm(w: World, id: SessionId, session: Session, k: ClaimId) returns (err: Option<Refusal>)
    requires w.Valid() && w.At(Revalidating) && w.Me().sid == id && w.Me().claim == k && w.Me().sess == session
    modifies w, w.repo
    ensures w.Valid()
    ensures
      var pc := if session.quote.promo.Some? then Redeeming else Marking;
      if err.None? then w.At(pc) && w.Me() == old(w.Me()).(pc := pc, limit := w.Me().limit)
      else w.At(Done(Refused(err.value)))
    ensures Judged(old(w.log), w.log, id, k, session.quote, err)
  {
    ghost var l0 := w.log;
    var q := session.quote;
    var input := w.ReadCatalog();
    ghost var l1, pc := w.log, w.Me().pc;
    var verdict := Catalog.Revalidate(q.items, input.got);
    match verdict {
      case Clean => err := None;
      case Retry =>
        AbortPreAttempt(w, id, k);
        err := Some(UpstreamDown);
      case Untracked => err := EscapeOnUnknownAvailability(w, id, q, k);
      case Drift(items, subtotal, short) =>
        err := RequoteDrift(w, id, k, q, items, subtotal, short, input.lookups);
    }
    JudgedBy(l0, l1, w.log, id, k, q, pc, err);
  }

  /** What is done and answered after the redemption call. */
  predicate Settles(read: seq<Call>, after: seq<Call>, sid: SessionId, k: ClaimId, got: Result<PromoError, ()>,
      err: Option<Refusal>) {
    match got
    case Failure(_) => err == Some(UpstreamDown) && DidBoth(read, after, Aborting, Releasing(UpstreamDown))
    case Success(NoError) => err.None? && after == read
    case Success(ErrPromoExpired) =>
      Dropped(read, after, Stripping(CodeExpired), CodeExpired, sid, Stmt.StripPromo(k), err)
    case Success(_) => Dropped(read, after, Stripping(CodeExhausted), CodeExhausted, sid, Stmt.StripPromo(k), err)
  }

  /** The answer of the redemption transaction, had it run as one act when it committed. */
  function Redemptions(c: Call, sid: SessionId, user: UserId, started: Time, code: string): Result<PromoError, ()> {
    if c.input.ack != Good then Failure(())
    else Success(ErrorOf(Redeem(c.pre.db.ledger, code, user, sid, JudgedAt(c.pre, started, c.input.judged))))
  }

  /** What redemption did and answered, by the ledger its call found. */
  predicate Counted(before: seq<Call>, after: seq<Call>, sid: SessionId, k: ClaimId, user: UserId, started: Time,
      code: string, err: Option<Refusal>) {
    && |before| < |after|
    && var read := after[..|before| + 1];
    && Did(before, read, Redeeming)
      && Settles(read, after, sid, k, Redemptions(after[|before|], sid, user, started, code), err)
  }

  lemma CountedBy(a: seq<Call>, b: seq<Call>, c: seq<Call>, sid: SessionId, k: ClaimId, user: UserId, started: Time,
      code: string, err: Option<Refusal>)
    requires Did(a, b, Redeeming) && b <= c && Settles(b, c, sid, k, Redemptions(b[|a|], sid, user, started, code), err)
    ensures Counted(a, c, sid, k, user, started, code, err)
  {
    assert c[..|a| + 1] == b;
  }

  /** Counts the promo use, or strips the code and drops the session. */
  method RedeemForConfirm(w: World, id: SessionId, session: Session, k: ClaimId, user: UserId)
      returns (err: Option<Refusal>)
    requires w.Valid() && w.At(Redeeming) && session.quote.promo.Some?
    requires w.Me().sid == id && w.Me().claim == k && w.Me().sess == session && w.Me().user == user
    modifies w, w.repo
    ensures w.Valid()
    ensures
      if err.None? then w.At(Marking) && w.Me() == old(w.Me()).(pc := Marking, limit := w.Me().limit)
      else w.At(Done(Refused(err.value)))
    ensures Counted(old(w.log), w.log, id, k, user, old(w.Me().started), session.quote.promo.value, err)
  {
    ghost var l0 := w.log;
    var redeemed := w.RedeemPromo(session.quote.promo.value, user, id);
    ghost var l1 := w.log;
    match redeemed {
      case Failure(_) =>
        AbortPreAttempt(w, id, k);
        err := Some(UpstreamDown);
      case Success(NoError) => err := None;
      case Success(ErrPromoExpired) => err := StripForConfirm(w, id, k, CodeExpired);
      case Success(_) => err := StripForConfirm(w, id, k, CodeExhausted);
    }
    CountedBy(l0, l1, w.log, id, k, user, old(w.Me().started), session.quote.promo.value, err);
  }

  /** The code is stripped under the binding and the claim released. */
  method StripForConfirm(w: World, id: SessionId, k: ClaimId, why: Refusal) returns (err: Option<Refusal>)
    requires w.Valid() && w.At(Stripping(why)) && w.Me().sid == id && w.Me().claim == k
    modifies w, w.repo
    ensures w.Valid() && err.Some? && w.At(Done(Refused(err.value)))
    ensures Dropped(old(w.log), w.log, Stripping(why), why, id, Stmt.StripPromo(k), err)
  {
    ghost var l0 := w.log;
    var stripped := w.StripPromo(id, k, why);
    if stripped != Nil { return Some(InFlight); }
    ghost var l1 := w.log;
    w.Release(k, why);
    DidThen(l0, l1, w.log, Stripping(why), Releasing(why));
    err := Some(why);
  }

  /**
   * What authorizing did and answered: re-validation, then redemption of a code the row holds, then the marker, the
   * first refusal ending it.
   */
  predicate Authorized(before: seq<Call>, after: seq<Call>, sid: SessionId, k: ClaimId, user: UserId, started: Time,
      q: Quote, err: Option<Refusal>) {
    || (err.Some? && Judged(before, after, sid, k, q, err))
    || (|before| < |after| && Judged(before, after[..|before| + 1], sid, k, q, None)
        && AfterJudged(after[..|before| + 1], after, sid, k, user, started, q, err))
  }

  predicate AfterJudged(before: seq<Call>, after: seq<Call>, sid: SessionId, k: ClaimId, user: UserId, started: Time,
      q: Quote, err: Option<Refusal>) {
    if q.promo.None? then Marked(before, after, err)
    else
      || (err.Some? && Counted(before, after, sid, k, user, started, q.promo.value, err))
      || (|before| < |after| && Counted(before, after[..|before| + 1], sid, k, user, started, q.promo.value, None)
          && Marked(after[..|before| + 1], after, err))
  }

  predicate Marked(before: seq<Call>, after: seq<Call>, err: Option<Refusal>) {
    Did(before, after, Marking) && err == if after[|before|].input.ack == Good then None else Some(Unavailable)
  }

  lemma MarkedBy(a: seq<Call>, b: seq<Call>, c: seq<Call>, sid: SessionId, k: ClaimId, user: UserId, started: Time,
      q: Quote, err: Option<Refusal>)
    requires if q.promo.Some? then Counted(a, b, sid, k, user, started, q.promo.value, None) else a == b
    requires Marked(b, c, err)
    ensures AfterJudged(a, c, sid, k, user, started, q, err)
  {
    assert c[..|b|] == b;
  }

  lemma AuthorizedBy(a: seq<Call>, b: seq<Call>, c: seq<Call>, sid: SessionId, k: ClaimId, user: UserId, started: Time,
      q: Quote, err: Option<Refusal>)
    requires Judged(a, b, sid, k, q, None) && b <= c && |b| == |a| + 1
    requires AfterJudged(b, c, sid, k, user, started, q, err)
    ensures Authorized(a, c, sid, k, user, started, q, err)
  {
    assert c[..|a| + 1] == b;
  }

  /** Re-validate, redeem, then set the attempt marker. */
  method AuthorizeAttempt(w: World, id: SessionId, session: Session, k: ClaimId, user: UserId)
      returns (err: Option<Refusal>)
    requires w.Valid() && w.At(Revalidating)
    requires w.Me().sid == id && w.Me().claim == k && w.Me().sess == session && w.Me().user == user
    modifies w, w.repo
    ensures w.Valid()
    ensures
      if err.None? then w.At(Ordering) && w.Me() == old(w.Me()).(pc := Ordering, limit := w.Me().limit)
      else w.At(Done(Refused(err.value)))
    ensures Authorized(old(w.log), w.log, id, k, user, old(w.Me().started), session.quote, err)
  {
    ghost var l0 := w.log;
    err := RevalidateConfirm(w, id, session, k);
    if err.Some? { return; }
    ghost var l1 := w.log;
    err := RedeemAndMark(w, id, session, k, user);
    AuthorizedBy(l0, l1, w.log, id, k, user, old(w.Me().started), session.quote, err);
  }

  method MarkAttempt(w: World, k: ClaimId) returns (err: Option<Refusal>)
    requires w.Valid() && w.At(Marking) && w.Me().claim == k
    modifies w, w.repo
    ensures w.Valid() && Marked(old(w.log), w.log, err)
    ensures if err.None? then w.At(Ordering) && w.Me() == old(w.Me()).(pc := Ordering)
      else w.At(Done(Refused(err.value)))
  {
    var marked := w.Mark(k);
    err := if marked != Nil then Some(Unavailable) else None;
  }

  /** The two stages after a clean verdict. */
  method RedeemAndMark(w: World, id: SessionId, session: Session, k: ClaimId, user: UserId)
      returns (err: Option<Refusal>)
    requires w.Valid() && w.At(if session.quote.promo.Some? then Redeeming else Marking)
    requires w.Me().sid == id && w.Me().claim == k && w.Me().sess == session && w.Me().user == user
    modifies w, w.repo
    ensures w.Valid() && old(w.log) <= w.log
    ensures
      if err.None? then w.At(Ordering) && w.Me() == old(w.Me()).(pc := Ordering, limit := w.Me().limit)
      else w.At(Done(Refused(err.value)))
    ensures AfterJudged(old(w.log), w.log, id, k, user, old(w.Me().started), session.quote, err)
  {
    ghost var l1, started := w.log, w.Me().started;
    if session.quote.promo.Some? {
      err := RedeemForConfirm(w, id, session, k, user);
      if err.Some? { return; }
    }
    ghost var l2 := w.log;
    err := MarkAttempt(w, k);
    MarkedBy(l1, l2, w.log, id, k, user, started, session.quote, err);
  }

  method PlaceOrder(w: World, id: SessionId, k: ClaimId, user: UserId, key: string)
      returns (placed: Result<OrderId, Refusal>)
    requires w.Valid() && w.At(Ordering)
    requires w.Me().sid == id && w.Me().claim == k && w.Me().user == user && w.Me().key == key
    modifies w, w.repo
    ensures w.Valid()
    ensures match placed
      case Failure(why) => w.At(Done(Refused(why)))
      case Success(orderId) => w.At(Completing) && w.Me() == old(w.Me()).(pc := Completing, orderId := orderId)
    ensures |old(w.log)| < |w.log|
    ensures
      var c := w.log[|old(w.log)|];
      match placed
      case Failure(why) =>
        && c.input.ack != Good && why == (if c.input.ack == Invalid then Rejected else UpstreamDown)
        && DidBoth(old(w.log), w.log, Ordering, Releasing(why))
      case Success(orderId) =>
        && c.input.ack == Good && orderId == Place(c.pre, old(w.Me())).orders[OrderKey(user, id, key)].id
        && DidBoth(old(w.log), w.log, Ordering, Noting)
  {
    ghost var l0 := w.log;
    var ack, orderId := w.CreateOrder(user, id, key);
    ghost var l1 := w.log;
    if ack == Invalid {
      w.Release(k, Rejected);
      DidThen(l0, l1, w.log, Ordering, Releasing(Rejected));
      return Failure(Rejected);
    }
    if ack != Good {
      w.Release(k, UpstreamDown);
      DidThen(l0, l1, w.log, Ordering, Releasing(UpstreamDown));
      return Failure(UpstreamDown);
    }
    w.Note(k, orderId);
    DidThen(l0, l1, w.log, Ordering, Noting);
    placed := Success(orderId);
  }

  /** A stale completion is tolerated only when this claim already completed the session. */
  method CompleteConfirm(w: World, id: SessionId, session: Session, k: ClaimId, orderId: OrderId)
    returns (completed: Result<Session, Refusal>)
    requires w.Valid() && w.At(Completing)
    requires w.Me().sid == id && w.Me().claim == k && w.Me().sess == session && w.Me().orderId == orderId
    modifies w, w.repo
    ensures w.Valid()
    ensures match completed
      case Failure(why) => w.At(Done(Refused(why)))
      case Success(r) => w.At(Finishing) && w.Me() == old(w.Me()).(pc := Finishing, sess := r)
    ensures |old(w.log)| < |w.log|
    ensures
      var c := w.log[|old(w.log)|];
      match completed
      case Failure(why) =>
        why == if Did(old(w.log), w.log, Completing) || w.log[|w.log| - 1].input.ack != Good then Unavailable
          else InFlight
      case Success(r) =>
        if Landed(c, id, Stmt.CompleteSession(k, orderId)) then
          r == session.(status := Completed, orderId := Some(orderId)) && Did(old(w.log), w.log, Completing)
        else
          && DidBoth(old(w.log), w.log, Completing, Adopting)
          && CompletedUnder(w.log[|old(w.log)| + 1].pre.db, id, k, r)
  {
    ghost var l0 := w.log;
    var err := w.CompleteSession(id, k, orderId);
    if err == Nil { return Success(session.(status := Completed, orderId := Some(orderId))); }
    if err == ErrOther { return Failure(Unavailable); }
    ghost var l1 := w.log;
    completed := w.Adopt(id, k);
    DidThen(l0, l1, w.log, Completing, Adopting);
  }

  /**
   * The whole confirm, under any schedule of other people's actions and any fate of its own calls. It is a run of the
   * protocol machine ending in the machine's answer; an answered session is the completed row, under an order that
   * exists.
   */
  method Confirm(w: World, user: UserId, id: SessionId, key: string) returns (answer: Result<Session, Refusal>)
    requires CoreInv(w.origin) && w.Valid() && w.s == w.origin && w.trace == [] && w.e !in w.s.execs
    modifies w, w.repo
    ensures w.Valid() && w.s == Run(old(w.s), w.trace)
    ensures w.At(Done(match answer case Failure(why) => Refused(why) case Success(body) => Confirmed(body)))
    ensures answer.Success? ==>
      && w.Me().sid in w.repo.sessions && ShownBy(w.repo.sessions[w.Me().sid], answer.value)
      && exists placed ::
           placed in w.s.orders && placed.sid == w.Me().sid
           && answer.value.orderId == Some(w.s.orders[placed].id)
  {
    w.Begin(user, id, key);
    answer := ConfirmBody(w, user, id, key);
    LeadsIsRun(w.origin, w.trace, w.e, w.s, w.log);
    CoreFrom(w.origin, w.trace);
    if answer.Success? { AnswerStands(w.s, w.e); }
  }

  lemma AnswerStands(s: State, e: Actor)
    requires CoreInv(s) && e in s.execs && s.execs[e].pc.Done? && s.execs[e].pc.answer.Confirmed?
    ensures
      var x := s.execs[e];
      var body := x.pc.answer.body;
      && x.sid in s.db.sessions && ShownBy(s.db.sessions[x.sid], body)
      && exists placed :: placed in s.orders && placed.sid == x.sid && body.orderId == Some(s.orders[placed].id)
  {
    assert ExecOk(s, e) && RowOk(s, s.execs[e].sid);
    var r := s.db.sessions[s.execs[e].sid];
    assert OrderKey(r.user, s.execs[e].sid, s.issued[r.confirmKey.value].key) in s.orders;
  }

  /** Ownership, lazy expiry and the order bounds: everything decided before any claim. */
  method Admit(w: World, user: UserId, id: SessionId) returns (admitted: Result<Session, Refusal>)
    requires w.Valid() && w.At(Reading) && w.Me().user == user && w.Me().sid == id
    modifies w, w.repo
    ensures w.Valid()
    ensures match admitted
      case Failure(why) => w.At(Done(Refused(why)))
      case Success(r) =>
        w.At(Claiming) && w.Me().sess == r && w.Me().user == user && w.Me().sid == id && w.Me().key == old(w.Me().key)
  {
    var owned := w.OwnedSession(user, id);
    if owned.Failure? { return Failure(owned.error); }
    var session := owned.value;
    if session.status == Expired { return Failure(Lapsed); }
    if !Terminal(session.status) && session.status != Confirming && session.expiresAt <= w.repo.now {
      w.MarkExpired(id);
      return Failure(Lapsed);
    }
    var fits := ValidateOrderBounds(session.quote);
    if !fits { return Failure(Rejected); }
    admitted := Success(session);
  }

  method ConfirmBody(w: World, user: UserId, id: SessionId, key: string) returns (answer: Result<Session, Refusal>)
    requires CoreInv(w.origin) && w.Valid() && w.At(Reading) && w.Me().user == user && w.Me().sid == id
    requires w.Me().key == key
    modifies w, w.repo
    ensures w.Valid()
    ensures w.At(Done(match answer case Failure(why) => Refused(why) case Success(body) => Confirmed(body)))
  {
    var admitted := Admit(w, user, id);
    if admitted.Failure? { return Failure(admitted.error); }
    var claimed := ClaimConfirm(w, user, key, id);
    if claimed.Failure? { return Failure(claimed.error); }
    if claimed.value.Replay? { return Success(claimed.value.body); }
    answer := UnderClaim(w, user, id, key, admitted.value, claimed.value.id, claimed.value.subject);
  }

  method UnderClaim(w: World, user: UserId, id: SessionId, key: string, session: Session, k: ClaimId,
      subject: Option<nat>)
    returns (answer: Result<Session, Refusal>)
    requires w.Valid() && w.At(Entering) && w.Me().user == user && w.Me().sid == id && w.Me().key == key
    requires w.Me().claim == k && w.Me().sess == session && w.Me().marked == subject.Some?
    modifies w, w.repo
    ensures w.Valid()
    ensures w.At(Done(match answer case Failure(why) => Refused(why) case Success(body) => Confirmed(body)))
  {
    var done, err := EnterConfirm(w, id, session, k);
    if err.Some? {
      w.Release(k, err.value);
      return Failure(err.value);
    }
    if done { return Success(session); }

    var again := w.Reread(id, k);
    if again.Failure? { return Failure(again.error); }
    answer := PastGate(w, user, id, key, again.value, k, subject);
  }

  /** Without an attempt marker the attempt is authorized first; with one the order is driven straight away. */
  method PastGate(w: World, user: UserId, id: SessionId, key: string, session: Session, k: ClaimId,
      subject: Option<nat>)
    returns (answer: Result<Session, Refusal>)
    requires w.Valid() && w.At(if subject.Some? then Ordering else Revalidating)
    requires w.Me().user == user && w.Me().sid == id && w.Me().key == key && w.Me().claim == k && w.Me().sess == session
    modifies w, w.repo
    ensures w.Valid()
    ensures w.At(Done(match answer case Failure(why) => Refused(why) case Success(body) => Confirmed(body)))
  {
    if subject.None? {
      var refused := AuthorizeAttempt(w, id, session, k, user);
      if refused.Some? { return Failure(refused.value); }
    }
    answer := DriveOrder(w, user, id, key, session, k);
  }

  /** Past the marker: the order, the completion, the cached answer. */
  method DriveOrder(w: World, user: UserId, id: SessionId, key: string, session: Session, k: ClaimId)
    returns (answer: Result<Session, Refusal>)
    requires w.Valid() && w.At(Ordering)
    requires w.Me().user == user && w.Me().sid == id && w.Me().key == key && w.Me().claim == k && w.Me().sess == session
    modifies w, w.repo
    ensures w.Valid()
    ensures w.At(Done(match answer case Failure(why) => Refused(why) case Success(body) => Confirmed(body)))
  {
    var placed := PlaceOrder(w, id, k, user, key);
    if placed.Failure? { return Failure(placed.error); }
    var completed := CompleteConfirm(w, id, session, k, placed.value);
    if completed.Failure? { return Failure(completed.error); }
    var cached := w.Finish(k, completed.value);
    if cached != Nil { return Failure(Unavailable); }
    answer := Success(completed.value);
  }
}
