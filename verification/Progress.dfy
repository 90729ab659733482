/**
 * Recovery: an authorized attempt that died is finished by one confirm under the same key, while everybody else goes
 * on with anything but this session's row, claim and order.
 */
module Progress {
  import opened Base
  import opened Domain
  import opened Money
  import opened Store
  import opened Protocol
  import opened Safety
  import opened Theorems
  import opened Clean

  /** Who drives what: the caller, the start of the confirm, the claim and the row it found. */
  datatype Drive = Drive(e: Actor, user: UserId, sid: SessionId, key: string, k: ClaimId, row: Session, at: Time)

  // ---- Undisturbed, not alone ----

  /** How many of its own steps the execution has taken. */
  function OwnSteps(evs: seq<Event>, e: Actor): nat {
    if evs == [] then 0
    else OwnSteps(evs[..|evs| - 1], e) + if evs[|evs| - 1].Step? && evs[|evs| - 1].e == e then 1 else 0
  }

  /** The claims of the name, with everything in them, are the same in both tables. */
  ghost predicate SameClaims(a: map<ClaimId, Claim>, b: map<ClaimId, Claim>, user: UserId, key: string) {
    forall k :: (k in a && Named(a[k], user, key)) || (k in b && Named(b[k], user, key)) ==>
      k in a && k in b && a[k] == b[k]
  }

  predicate SameOrder(t: State, u: State, key: OrderKey) {
    (key in t.orders <==> key in u.orders) && (key in t.orders ==> u.orders[key] == t.orders[key])
  }

  /** The row, the claim and the order are as they were, and the confirm's deadline is not over. */
  ghost predicate Untouched(t: State, u: State, d: Drive) {
    && d.sid in t.db.sessions && d.sid in u.db.sessions && u.db.sessions[d.sid] == t.db.sessions[d.sid]
    && SameClaims(t.db.claims, u.db.claims, d.user, d.key)
    && SameOrder(t, u, OrderKey(d.user, d.sid, d.key))
    && (d.e in t.execs && !t.execs[d.e].pc.Done? ==> u.db.now <= t.execs[d.e].limit)
  }

  /** Somebody else's event leaves them alone and does not outlast the confirm's deadline. */
  ghost predicate Leaves(t: State, ev: Event, d: Drive) { !Concerns(ev, d.e) && Untouched(t, Next(t, ev), d) }

  /** The confirm's own calls are acknowledged; everything else leaves it alone. */
  ghost predicate Tended(s: State, evs: seq<Event>, d: Drive) {
    evs == []
    || (Tended(s, evs[..|evs| - 1], d)
        && var ev := evs[|evs| - 1];
           if ev.Step? && ev.e == d.e then ev.input.ack == Good else Leaves(Run(s, evs[..|evs| - 1]), ev, d))
  }

  /** When the execution took its second step, the claim. */
  function ClaimTime(s: State, evs: seq<Event>, e: Actor): Time {
    if evs == [] then s.db.now
    else
      var before := evs[..|evs| - 1];
      if evs[|evs| - 1].Step? && evs[|evs| - 1].e == e && OwnSteps(before, e) == 1 then Run(s, before).db.now
      else ClaimTime(s, before, e)
  }

  /** The unique index finds exactly the row that carries the name. */
  lemma FindIs(claims: map<ClaimId, Claim>, k: ClaimId)
    requires UniqueNames(claims) && k in claims
    ensures FindClaim(claims, claims[k].user, claims[k].key) == Some(k)
  {
    assert Named(claims[k], claims[k].user, claims[k].key);
    var j := FindClaim(claims, claims[k].user, claims[k].key).value;
    assert Named(claims[j], claims[k].user, claims[k].key);
  }

  // ---- The stages of a redrive ----

  /** The attempt is on record and its claim is not finished. */
  predicate Stuck(t: State, d: Drive) {
    && d.sid in t.db.sessions && t.db.sessions[d.sid] == d.row && d.row.user == d.user
    && d.k in t.db.claims && d.row.confirmKey == Some(d.k)
    && var c := t.db.claims[d.k];
       c.user == d.user && c.key == d.key && c.hash == d.sid && c.subject.Some? && c.response.None?
  }

  predicate Reached(t: State, d: Drive, pc: Pc) {
    && d.e in t.execs
    && var x := t.execs[d.e];
       && x.user == d.user && x.sid == d.sid && x.key == d.key && x.pc == pc && t.db.now <= x.limit
       && (!pc.Reading? ==> x.sess == d.row)
       && (Owns(pc) ==> x.claim == d.k && x.marked)
  }

  predicate Settled(st: Status) { st == Confirming || st == Completed }

  predicate RefusedAt(t: State, d: Drive) { d.e in t.execs && t.execs[d.e].pc.Done? && t.execs[d.e].pc.answer.Refused? }

  /** The order exists and was created from what the row shows; `id` is its number. */
  predicate Placed(t: State, d: Drive, id: OrderId) {
    var key := OrderKey(d.user, d.sid, d.key);
    key in t.orders && t.orders[key].payload == PayloadOf(d.row.quote) && t.orders[key].id == id
  }

  /** The completed row, with the claim still to be finished. */
  predicate CompletedBy(t: State, d: Drive, id: OrderId) {
    && d.sid in t.db.sessions && t.db.sessions[d.sid].status == Completed && t.db.sessions[d.sid].orderId == Some(id)
    && t.db.sessions[d.sid].quote == d.row.quote && t.db.sessions[d.sid].confirmKey == Some(d.k)
    && d.k in t.db.claims && Named(t.db.claims[d.k], d.user, d.key) && d.e in t.execs
    && var x := t.execs[d.e];
       x.pc == Finishing && t.db.now <= x.limit && x.claim == d.k && x.sess.orderId == Some(id)
  }

  /** The row is completed under this order and the claim replays this body from now on. */
  predicate Settles(t: State, d: Drive, id: OrderId) {
    && d.sid in t.db.sessions && t.db.sessions[d.sid].status == Completed && t.db.sessions[d.sid].orderId == Some(id)
    && t.db.sessions[d.sid].quote == d.row.quote && t.db.sessions[d.sid].confirmKey == Some(d.k)
    && d.k in t.db.claims && Named(t.db.claims[d.k], d.user, d.key) && t.db.claims[d.k].response.Some?
    && d.e in t.execs && t.execs[d.e].pc.Done? && t.execs[d.e].pc.answer == Confirmed(t.db.claims[d.k].response.value)
    && t.db.claims[d.k].response.value.orderId == Some(id)
  }

  /** One order, paid for by exactly the components the row shows; the row names it and the claim replays it. */
  predicate OrderStands(t: State, d: Drive) {
    var key := OrderKey(d.user, d.sid, d.key);
    key in t.orders && Placed(t, d, t.orders[key].id) && Settles(t, d, t.orders[key].id)
  }

  /** Where n own steps take the redrive. */
  ghost predicate Stage(t: State, d: Drive, n: nat) {
    if n == 0 then Stuck(t, d) && Reached(t, d, Reading)
    else if n == 1 then Stuck(t, d) && Reached(t, d, Claiming)
    else if n == 2 then Stuck(t, d) && Reached(t, d, Entering)
    else if d.row.status == Completed then
      if n == 3 then Stuck(t, d) && Reached(t, d, Recovering) else OrderStands(t, d)
    else if n == 3 then Stuck(t, d) && Reached(t, d, Rereading)
    else if n == 4 then Stuck(t, d) && Reached(t, d, Ordering)
    else if n == 5 then Stuck(t, d) && Reached(t, d, Noting) && Placed(t, d, t.execs[d.e].orderId)
    else if n == 6 then Stuck(t, d) && Reached(t, d, Completing) && Placed(t, d, t.execs[d.e].orderId)
    else if n == 7 then exists id :: CompletedBy(t, d, id) && Placed(t, d, id)
    else OrderStands(t, d)
  }

  /** An order that is already there was created from the row; a completed row's is. */
  predicate OrderFits(t: State, d: Drive) {
    var key := OrderKey(d.user, d.sid, d.key);
    && (key in t.orders ==> t.orders[key].payload == PayloadOf(d.row.quote))
    && (d.row.status == Completed ==> key in t.orders && d.row.orderId == Some(t.orders[key].id))
  }

  // ---- Its own steps ----

  /** The first step of a confirm that finds its own unlapsed row. */
  lemma ReadsRow(t: State, e: Actor, input: Input)
    requires AtPc(t, e) && t.execs[e].pc.Reading? && input.ack == Good
    requires t.execs[e].sid in t.db.sessions && t.db.sessions[t.execs[e].sid].user == t.execs[e].user
    requires var r := t.db.sessions[t.execs[e].sid]; r.status != Expired && !LazyDue(r, t.db.now)
    ensures
      var x, r := t.execs[e], t.db.sessions[t.execs[e].sid];
      Next(t, Step(e, input)) ==
        if OrderBounds(r.quote) then t.(execs := t.execs[e := x.(pc := Claiming, sess := r)])
          else Refuse(t, e, Rejected)
  {
  }

  lemma Reads(t: State, d: Drive, input: Input)
    requires Stage(t, d, 0) && Settled(d.row.status) && input.ack == Good
    ensures
      var u := Next(t, Step(d.e, input));
      && u.db == t.db && u.orders == t.orders && u.takeover == t.takeover
      && if OrderBounds(d.row.quote) then Stage(u, d, 1) else RefusedAt(u, d)
  {
    ReadsRow(t, d.e, input);
  }

  lemma Claims(t: State, d: Drive, input: Input)
    requires UniqueNames(t.db.claims) && Stage(t, d, 1) && input.ack == Good
    ensures
      var u := Next(t, Step(d.e, input));
      && u.orders == t.orders
      && if Stale(t.db.claims[d.k].lock, t.takeover, t.db.now) then Stage(u, d, 2) else RefusedAt(u, d)
  {
    FindIs(t.db.claims, d.k);
  }

  lemma Enters(t: State, d: Drive, input: Input)
    requires Stage(t, d, 2) && input.ack == Good && Settled(d.row.status)
    ensures Stage(Next(t, Step(d.e, input)), d, 3) && Next(t, Step(d.e, input)).orders == t.orders
  {
  }

  lemma Recovers(t: State, d: Drive, input: Input)
    requires Stage(t, d, 3) && OrderFits(t, d) && input.ack == Good && d.row.status == Completed
    ensures Stage(Next(t, Step(d.e, input)), d, 4) && Next(t, Step(d.e, input)).orders == t.orders
  {
  }

  lemma Rereads(t: State, d: Drive, input: Input)
    requires Stage(t, d, 3) && input.ack == Good && d.row.status == Confirming
    ensures Stage(Next(t, Step(d.e, input)), d, 4) && Next(t, Step(d.e, input)).orders == t.orders
  {
  }

  /** Create-or-replay: an order that is already there stays what it is. */
  lemma Orders(t: State, d: Drive, input: Input)
    requires Stage(t, d, 4) && OrderFits(t, d) && input.ack == Good && d.row.status == Confirming
    ensures Stage(Next(t, Step(d.e, input)), d, 5)
  {
  }

  lemma Notes(t: State, d: Drive, input: Input)
    requires Stage(t, d, 5) && input.ack == Good && d.row.status == Confirming
    ensures Stage(Next(t, Step(d.e, input)), d, 6)
  {
  }

  /** The completion as a change of the row and of the execution, nothing else. */
  lemma CompletionStep(t: State, d: Drive, input: Input)
    requires AtPc(t, d.e) && t.execs[d.e].pc.Completing? && t.execs[d.e].sid == d.sid && t.execs[d.e].claim == d.k
    requires input.ack == Good
    requires d.sid in t.db.sessions && BoundConfirming(t.db.sessions[d.sid], d.k)
    ensures
      var x, r := t.execs[d.e], t.db.sessions[d.sid];
      var x' := x.(pc := Finishing, sess := x.sess.(status := Completed, orderId := Some(x.orderId)));
      Next(t, Step(d.e, input)) ==
        PutRow(t, d.sid,
          r.(status := Completed, orderId := Some(x.orderId), version := t.db.tick + 1)).(execs := t.execs[d.e := x'])
  {
    WriteIsPut(t, d.sid, CompleteSession(d.k, t.execs[d.e].orderId));
  }

  lemma Completes(t: State, d: Drive, input: Input)
    requires Stuck(t, d) && Reached(t, d, Completing) && input.ack == Good && d.row.status == Confirming
    ensures
      var u := Next(t, Step(d.e, input));
      CompletedBy(u, d, t.execs[d.e].orderId) && u.orders == t.orders && u.db.ledger == t.db.ledger
  {
    CompletionStep(t, d, input);
  }

  lemma Finishes(t: State, d: Drive, id: OrderId, input: Input)
    requires CompletedBy(t, d, id) && input.ack == Good
    ensures
      var u := Next(t, Step(d.e, input));
      Settles(u, d, id) && u.orders == t.orders && u.db.ledger == t.db.ledger
  {
  }

  lemma DoneStays(t: State, e: Actor, input: Input)
    requires e in t.execs && t.execs[e].pc.Done?
    ensures Next(t, Step(e, input)) == t
  {
  }

  /** One more own step past the claim. */
  lemma OwnStep(t: State, d: Drive, n: nat, input: Input)
    requires n >= 2 && Stage(t, d, n) && OrderFits(t, d) && Settled(d.row.status) && input.ack == Good
    ensures Stage(Next(t, Step(d.e, input)), d, n + 1)
  {
    if n == 2 {
      Enters(t, d, input);
    } else if d.row.status == Completed {
      if n == 3 { Recovers(t, d, input); } else { DoneStays(t, d.e, input); }
    } else if n == 3 {
      Rereads(t, d, input);
    } else if n == 4 {
      Orders(t, d, input);
    } else if n == 5 {
      Notes(t, d, input);
    } else if n == 6 {
      Completes(t, d, input);
    } else if n == 7 {
      var id :| CompletedBy(t, d, id) && Placed(t, d, id);
      Finishes(t, d, id, input);
    } else {
      DoneStays(t, d.e, input);
    }
  }

  // ---- Everybody else ----

  lemma LeftAlone(t: State, ev: Event, d: Drive)
    requires Leaves(t, ev, d) && d.e in t.execs
    ensures d.e in Next(t, ev).execs && Next(t, ev).execs[d.e] == t.execs[d.e] && Untouched(t, Next(t, ev), d)
  {
    OtherKeeps(t, ev, d.e);
  }

  lemma OtherStep(t: State, u: State, d: Drive, n: nat)
    requires Stage(t, d, n) && d.e in t.execs && d.e in u.execs && u.execs[d.e] == t.execs[d.e] && Untouched(t, u, d)
    ensures Stage(u, d, n)
  {
    if n == 7 && d.row.status != Completed {
      var id :| CompletedBy(t, d, id) && Placed(t, d, id);
      assert CompletedBy(u, d, id) && Placed(u, d, id);
    }
  }

  lemma OrderFitsStays(t: State, ev: Event, d: Drive)
    requires OrderFits(t, d)
    requires if ev.Step? && ev.e == d.e then ev.e in t.execs && Tells(t.execs[d.e], d) else Leaves(t, ev, d)
    ensures OrderFits(Next(t, ev), d)
  {
    if ev.Step? && ev.e == d.e { StepFramed(t, d.e, ev.input); }
  }

  /** If the execution orders at all, it orders what the row shows. */
  predicate Tells(x: Execution, d: Drive) { x.pc.Ordering? ==> x.sess.quote == d.row.quote }

  // ---- The whole redrive ----

  /** After n own steps: on its stage, or refused for the one reason that applies. */
  ghost predicate CourseAt(t: State, d: Drive, n: nat, lock: Lock, taken: bool) {
    if n >= 1 && !OrderBounds(d.row.quote) then RefusedAt(t, d)
    else if n >= 2 && !taken then RefusedAt(t, d)
    else Stage(t, d, n) && (n < 2 ==> d.k in t.db.claims && t.db.claims[d.k].lock == lock)
  }

  ghost predicate OnCourse(s: State, evs: seq<Event>, d: Drive)
    requires d.k in s.db.claims
  {
    var lock := s.db.claims[d.k].lock;
    CourseAt(Run(s, evs), d, OwnSteps(evs, d.e), lock, Stale(lock, s.takeover, ClaimTime(s, evs, d.e)))
  }

  lemma CourseOwn(t: State, d: Drive, n: nat, lock: Lock, taken: bool, input: Input)
    requires CourseAt(t, d, n, lock, taken) && OrderFits(t, d) && Settled(d.row.status) && input.ack == Good
    requires UniqueNames(t.db.claims) && (n == 1 ==> taken == Stale(lock, t.takeover, t.db.now))
    ensures CourseAt(Next(t, Step(d.e, input)), d, n + 1, lock, taken)
  {
    if RefusedAt(t, d) {
      DoneStays(t, d.e, input);
    } else if n == 0 {
      Reads(t, d, input);
    } else if n == 1 {
      Claims(t, d, input);
    } else {
      OwnStep(t, d, n, input);
    }
  }

  lemma CourseTells(t: State, d: Drive, n: nat, lock: Lock, taken: bool)
    requires CourseAt(t, d, n, lock, taken)
    ensures d.e in t.execs && Tells(t.execs[d.e], d)
  {
  }

  lemma CourseOther(t: State, u: State, d: Drive, n: nat, lock: Lock, taken: bool)
    requires CourseAt(t, d, n, lock, taken)
    requires d.e in t.execs && d.e in u.execs && u.execs[d.e] == t.execs[d.e] && Untouched(t, u, d)
    ensures CourseAt(u, d, n, lock, taken)
  {
    if !RefusedAt(t, d) { OtherStep(t, u, d, n); }
  }

  /** No two claims share a name, at any point of these events. */
  ghost predicate NamesUnique(s: State, evs: seq<Event>) {
    UniqueNames(Run(s, evs).db.claims) && (evs == [] || NamesUnique(s, evs[..|evs| - 1]))
  }

  lemma {:induction false} NamesStayUnique(s: State, evs: seq<Event>)
    requires CoreInv(s)
    ensures NamesUnique(s, evs)
  {
    CoreFrom(s, evs);
    if evs != [] { NamesStayUnique(s, evs[..|evs| - 1]); }
  }

  lemma {:induction false} Course(s: State, evs: seq<Event>, d: Drive)
    requires NamesUnique(s, evs) && Stage(s, d, 0) && OrderFits(s, d) && Settled(d.row.status) && Tended(s, evs, d)
    ensures d.k in s.db.claims && OnCourse(s, evs, d) && OrderFits(Run(s, evs), d) && Run(s, evs).takeover == s.takeover
  {
    if evs != [] {
      var before, ev := evs[..|evs| - 1], evs[|evs| - 1];
      Course(s, before, d);
      CourseStep(s, before, d, ev);
      assert before + [ev] == evs;
    }
  }

  lemma CourseStep(s: State, before: seq<Event>, d: Drive, ev: Event)
    requires d.k in s.db.claims && OnCourse(s, before, d) && OrderFits(Run(s, before), d) && Settled(d.row.status)
    requires UniqueNames(Run(s, before).db.claims) && Run(s, before).takeover == s.takeover
    requires if ev.Step? && ev.e == d.e then ev.input.ack == Good else Leaves(Run(s, before), ev, d)
    ensures
      var evs := before + [ev];
      OnCourse(s, evs, d) && OrderFits(Run(s, evs), d) && Run(s, evs).takeover == s.takeover
  {
    var t, n := Run(s, before), OwnSteps(before, d.e);
    var lock := s.db.claims[d.k].lock;
    RunAppend(s, before, ev);
    var evs := before + [ev];
    assert evs[..|evs| - 1] == before;
    TakeoverFixed(t, ev);
    var taken := Stale(lock, s.takeover, ClaimTime(s, before, d.e));
    var taken' := Stale(lock, s.takeover, ClaimTime(s, evs, d.e));
    CourseTells(t, d, n, lock, taken);
    if ev.Step? && ev.e == d.e {
      CourseOwn(t, d, n, lock, taken', ev.input);
    } else {
      LeftAlone(t, ev, d);
      CourseOther(t, Next(t, ev), d, n, lock, taken);
    }
    OrderFitsStays(t, ev, d);
  }

  /** What a caller can see when the claim is made: the row passes the order bounds and the lock is free or stale. */
  ghost predicate Drivable(s: State, evs: seq<Event>, d: Drive) {
    OrderBounds(d.row.quote) && d.k in s.db.claims && Stale(s.db.claims[d.k].lock, s.takeover, ClaimTime(s, evs, d.e))
  }

  /**
   * In clean runs, whatever crashed before and whatever everybody else does meanwhile to other sessions: an unfinished
   * attempted session is finished by one acknowledged confirm under the same key if and only if its row passes the
   * order bounds and, when the confirm claims, the claim's lock is free or stale. The row is then completed with its
   * quote untouched, the claim replays the answer, and the order was created from the quote the row shows.
   */
  lemma {:induction false} RedriveFinishes(s0: State, evs: seq<Event>, more: seq<Event>, e: Actor, k: ClaimId)
    requires Init(s0) && CleanRun(s0, evs) && e !in Run(s0, evs).execs
    requires k in Run(s0, evs).db.claims && Run(s0, evs).db.claims[k].subject.Some?
    requires Run(s0, evs).db.claims[k].response.None?
    requires
      var s := Run(s0, evs);
      var c := s.db.claims[k];
      c.hash in s.db.sessions ==>
        var d := Drive(e, c.user, c.hash, c.key, k, s.db.sessions[c.hash], s.db.now);
        Tended(Next(s, Start(e, c.user, c.hash, c.key)), more, d) && OwnSteps(more, e) >= 8
    ensures
      var s := Run(s0, evs);
      var c := s.db.claims[k];
      && c.hash in s.db.sessions
      && var d := Drive(e, c.user, c.hash, c.key, k, s.db.sessions[c.hash], s.db.now);
         var begun := Next(s, Start(e, c.user, c.hash, c.key));
         var t := Run(s0, evs + [Start(e, c.user, c.hash, c.key)] + more);
         && (OrderStands(t, d) <==> Drivable(begun, more, d))
         && (!Drivable(begun, more, d) ==> RefusedAt(t, d))
  {
    var s := Run(s0, evs);
    var c := s.db.claims[k];
    StuckAtStart(s0, evs, k);
    var d := Drive(e, c.user, c.hash, c.key, k, s.db.sessions[c.hash], s.db.now);
    var start := Start(e, c.user, c.hash, c.key);
    FitsAtStart(s0, evs, d);
    NamesOnTheWay(s0, evs, start, more);
    RunAppend(s0, evs, start);
    RunConcat(s0, evs + [start], more);
    RedriveFrom(s, Next(s, start), more, d);
  }

  lemma RedriveFrom(s: State, begun: State, more: seq<Event>, d: Drive)
    requires begun == Next(s, Start(d.e, d.user, d.sid, d.key)) && Stuck(s, d) && d.e !in s.execs
    requires Settled(d.row.status)
    requires OrderFits(begun, d) && NamesUnique(begun, more) && Tended(begun, more, d) && OwnSteps(more, d.e) >= 8
    ensures OrderStands(Run(begun, more), d) <==> Drivable(begun, more, d)
    ensures !Drivable(begun, more, d) ==> RefusedAt(Run(begun, more), d)
  {
    StageZero(s, d);
    Course(begun, more, d);
    var lock := s.db.claims[d.k].lock;
    CourseEnds(Run(begun, more), d, OwnSteps(more, d.e), lock, Stale(lock, s.takeover, ClaimTime(begun, more, d.e)));
  }

  /** Eight own steps on, either everything stands or the confirm was refused. */
  lemma CourseEnds(t: State, d: Drive, n: nat, lock: Lock, taken: bool)
    requires CourseAt(t, d, n, lock, taken) && n >= 8
    ensures if OrderBounds(d.row.quote) && taken then OrderStands(t, d) else RefusedAt(t, d) && !OrderStands(t, d)
  {
  }

  /** What the redrive finds: the attempt on record under its claim. */
  lemma StuckAtStart(s0: State, evs: seq<Event>, k: ClaimId)
    requires Init(s0) && CleanRun(s0, evs)
    requires k in Run(s0, evs).db.claims && Run(s0, evs).db.claims[k].subject.Some?
    requires Run(s0, evs).db.claims[k].response.None?
    ensures
      var s := Run(s0, evs);
      var c := s.db.claims[k];
      && c.hash in s.db.sessions && Settled(s.db.sessions[c.hash].status)
      && s.db.sessions[c.hash].confirmKey == Some(k) && s.db.sessions[c.hash].user == c.user
  {
    AttemptedStaysAttempted(s0, evs, k);
    CoreRun(s0, evs);
    assert ClaimOk(Run(s0, evs), k) && RowOk(Run(s0, evs), Run(s0, evs).db.claims[k].hash);
  }

  lemma StageZero(s: State, d: Drive)
    requires Stuck(s, d) && d.e !in s.execs
    ensures Stage(Next(s, Start(d.e, d.user, d.sid, d.key)), d, 0)
  {
  }

  lemma NamesOnTheWay(s0: State, evs: seq<Event>, start: Event, more: seq<Event>)
    requires Init(s0)
    ensures NamesUnique(Next(Run(s0, evs), start), more)
  {
    CoreRun(s0, evs);
    CoreStep(Run(s0, evs), start);
    NamesStayUnique(Next(Run(s0, evs), start), more);
  }

  lemma FitsAtStart(s0: State, evs: seq<Event>, d: Drive)
    requires Init(s0) && CleanRun(s0, evs)
    requires Stuck(Run(s0, evs), d) && Settled(d.row.status)
    ensures OrderFits(Next(Run(s0, evs), Start(d.e, d.user, d.sid, d.key)), d)
  {
    var s := Run(s0, evs);
    var key := OrderKey(d.user, d.sid, d.key);
    if key in s.orders { ChargedEqualsShown(s0, evs, key); }
    CoreRun(s0, evs);
    if d.row.status == Completed { CompletedNamesOrder(s, d); }
    StartKeepsFit(s, d);
  }

  lemma StartKeepsFit(s: State, d: Drive)
    requires OrderFits(s, d)
    ensures OrderFits(Next(s, Start(d.e, d.user, d.sid, d.key)), d)
  {
  }

  lemma CompletedNamesOrder(s: State, d: Drive)
    requires CoreInv(s) && Stuck(s, d) && d.row.status == Completed
    ensures
      var key := OrderKey(d.user, d.sid, d.key);
      key in s.orders && d.row.orderId == Some(s.orders[key].id)
  {
    assert RowOk(s, d.sid) && ClaimOk(s, d.k);
  }
}
