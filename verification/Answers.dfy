/**
 * What an answer of confirm tells: every refusal of every run has its cause in what one step of that confirm found,
 * and every order is placed for a basket that was found clean.
 */
module Answers {
  import opened Base
  import opened Domain
  import opened Money
  import opened Ledger
  import opened Store
  import opened Protocol
  import opened Safety
  import opened Theorems
  import opened Rows
  import opened Steps
  import Catalog
  import Clean

  // ---- Causes, stage by stage of the program ----

  /** The row read for a session that is absent, somebody else's, over its deadline, or not orderable. */
  predicate ReadCause(s: State, x: Execution, ack: Ack, why: Refusal) {
    if ack != Good then why == Unavailable
    else if x.sid !in s.db.sessions || s.db.sessions[x.sid].user != x.user then why == NoSession
    else
      var r := s.db.sessions[x.sid];
      if r.status == Expired || (r.status in {Open, AddressSet, ShippingSet, Ready} && r.expiresAt <= s.db.now)
      then why == Lapsed
      else why == Rejected && !OrderBounds(r.quote)
  }

  /** The claim row of the key the execution came with. */
  predicate OfKey(c: Claim, x: Execution) { c.user == x.user && c.key == x.key }

  /** The key names another session, or its lock is held and within the takeover window. */
  predicate ClaimCause(s: State, x: Execution, ack: Ack, why: Refusal) {
    if ack != Good then why == Unavailable
    else
      exists k :: k in s.db.claims && OfKey(s.db.claims[k], x) &&
        if why == KeyConflict then s.db.claims[k].hash != x.sid
        else why == InFlight && s.db.claims[k].lock.Held? && s.db.now <= s.db.claims[k].lock.at + s.takeover
  }

  /** The session read before the claim was not ready, or somebody else has bound or moved the row. */
  predicate EnterCause(s: State, x: Execution, ack: Ack, why: Refusal) {
    match x.sess.status
    case Ready =>
      if ack != Good then why == Unavailable
      else why == InFlight && (x.sid in s.db.sessions ==>
        var r := s.db.sessions[x.sid];
        r.status != Ready || (r.confirmKey.Some? && r.confirmKey.value != x.claim))
    case Confirming => why == InFlight && x.sess.confirmKey != Some(x.claim)
    case _ => why == (if x.sess.confirmKey == Some(x.claim) && x.sess.status == Completed then Unavailable
      else InvalidTransition)
  }

  /** The row is not confirming under this claim, or not completed under it. */
  predicate RereadCause(s: State, e: Actor, ack: Ack, why: Refusal)
    requires e in s.execs
  {
    if ack != Good then why == Unavailable else why == InFlight && !Holds(s, e)
  }

  predicate AdoptCause(s: State, x: Execution, ack: Ack, why: Refusal) {
    if ack != Good then why == Unavailable
    else
      why == InFlight && (x.sid in s.db.sessions && s.db.sessions[x.sid].status == Completed ==>
        s.db.sessions[x.sid].confirmKey != Some(x.claim))
  }

  /** The line is not offered, not cleared by inventory, or asks for more than the last line of its SKU. */
  predicate Unsellable(items: seq<Item>, prices: seq<Catalog.PriceInfo>, avail: Catalog.Availability, i: nat)
    requires i < |items|
  {
    var id := items[i].productId;
    || Catalog.LastPrice(prices, id).None?
    || ((!avail.canFulfill || id in avail.shortages) && items[i].quantity > 0)
    || (avail.canFulfill && id !in avail.shortages && Catalog.LastQuantity(Catalog.LinesOf(items), id).Some?
        && items[i].quantity > Catalog.LastQuantity(Catalog.LinesOf(items), id).value)
  }

  /** Product quotes another price than the line shows. */
  predicate Moved(items: seq<Item>, prices: seq<Catalog.PriceInfo>, i: nat)
    requires i < |items|
  {
    var price := Catalog.LastPrice(prices, items[i].productId);
    price.Some? && price.value != items[i].unitPrice
  }

  /** A line's price moved, a line cannot be sold, inventory does not know one, or something did not answer. */
  predicate VerdictCause(db: Db, q: Quote, input: Input, why: Refusal) {
    var got, n := input.got, |q.items|;
    match why
    case PriceChanged => got.prices.Success? && exists i :: 0 <= i < n && Moved(q.items, got.prices.value, i)
    case StockUnavailable =>
      got.prices.Success? && got.avail.Success?
      && exists i :: 0 <= i < n && Unsellable(q.items, got.prices.value, got.avail.value, i)
    case AvailabilityUnknown =>
      got.avail.Success? && exists i :: 0 <= i < n && q.items[i].productId in got.avail.value.unknown
    case _ => why == UpstreamDown && Stuck(db, q, Catalog.Revalidation(q.items, got), input.lookups)
  }

  /** An upstream read failed, or the new tax or discount cannot be derived. */
  predicate Stuck(db: Db, q: Quote, v: Catalog.Verdict, lookups: bool) {
    v.Retry? || (v.Drift? && (!lookups || Components(db, q, v.subtotal).None?))
  }

  /** The code's deadline has passed, or it is unknown, spent, or held to the limit by the user. */
  predicate RedeemCause(s: State, x: Execution, ack: Ack, why: Refusal)
    requires x.sess.quote.promo.Some?
  {
    var l, code := s.db.ledger, x.sess.quote.promo.value;
    if ack != Good then why == UpstreamDown
    else if why == CodeExhausted && code !in l.codes then true
    else
      && code in l.codes && (code, x.sid) !in l.uses
      && var p := l.codes[code];
      if why == CodeExpired then p.expiresAt.Some? && p.expiresAt.value < s.db.now
      else
        && why == CodeExhausted
        && ((p.maxRedemptions.Some? && p.redeemedCount >= p.maxRedemptions.value)
            || (p.perUserLimit.Some? && |UserUses(l, code, x.user)| >= p.perUserLimit.value))
  }

  /** What a step of the execution must have found for it to tell `why` after it. */
  predicate Cause(s: State, e: Actor, input: Input, why: Refusal)
    requires e in s.execs
  {
    var x := s.execs[e];
    if x.pc.Reading? then ReadCause(s, x, input.ack, why)
    else if x.pc.Claiming? then ClaimCause(s, x, input.ack, why)
    else if x.pc.Entering? then EnterCause(s, x, input.ack, why)
    else if x.pc.Rereading? then RereadCause(s, e, input.ack, why)
    else if x.pc.Revalidating? then VerdictCause(s.db, x.sess.quote, input, why)
    else if x.pc.Requoting? || x.pc.Stripping? then
      why == InFlight && (input.ack != Good || Next(s, Step(e, input)).db == s.db)
    else if x.pc.Redeeming? then x.sess.quote.promo.Some? && RedeemCause(s, x, input.ack, why)
    else if x.pc.Ordering? then input.ack != Good && why == if input.ack == Invalid then Rejected else UpstreamDown
    else if x.pc.Adopting? then AdoptCause(s, x, input.ack, why)
    else input.ack != Good && why == Unavailable
  }

  /** The refusal an execution has answered or is about to, unless a write on the way there fails. */
  function Telling(pc: Pc): Option<Refusal> {
    match pc
    case Lapsing => Some(Lapsed)
    case Requoting(_, _, _, _, why) => Some(why)
    case Stripping(reason) => Some(reason)
    case Aborting => Some(UpstreamDown)
    case Releasing(because) => Some(because)
    case Done(Refused(why)) => Some(why)
    case _ => None
  }

  /** After this step the execution tells something it did not tell before. */
  predicate Starts(x: Execution, s': State, e: Actor, why: Refusal) {
    e in s'.execs && Telling(s'.execs[e].pc) == Some(why) && Telling(x.pc) != Some(why)
  }

  lemma ReadTells(s: State, e: Actor, x: Execution, ack: Ack, why: Refusal)
    requires e in s.execs && s.execs[e] == x && x.pc.Reading? && Starts(x, StepRead(s, e, x, ack), e, why)
    ensures ReadCause(s, x, ack, why)
  {
  }

  lemma ClaimTells(s: State, e: Actor, x: Execution, ack: Ack, why: Refusal)
    requires e in s.execs && s.execs[e] == x && x.pc.Claiming? && Starts(x, StepClaim(s, e, x, ack), e, why)
    ensures ClaimCause(s, x, ack, why)
  {
    ClaimMoves(s, e, x, ack);
    var found := FindClaim(s.db.claims, x.user, x.key);
    if found.Some? { assert OfKey(s.db.claims[found.value], x); }
  }

  lemma EnterTells(s: State, e: Actor, x: Execution, ack: Ack, why: Refusal)
    requires e in s.execs && s.execs[e] == x && x.pc.Entering? && Starts(x, StepEnter(s, e, x, ack), e, why)
    ensures EnterCause(s, x, ack, why)
  {
    if x.sess.status == Ready { ReadyTells(s, e, x, ack, why); }
  }

  lemma ReadyTells(s: State, e: Actor, x: Execution, ack: Ack, why: Refusal)
    requires e in s.execs && s.execs[e] == x && x.pc.Entering? && Starts(x, StepEnter(s, e, x, ack), e, why)
    requires x.sess.status == Ready
    ensures if ack != Good then why == Unavailable
      else why == InFlight && OutcomeOf(s.db, x.sid, BeginConfirm(x.claim)) != Applied
  {
  }

  lemma RereadTells(s: State, e: Actor, x: Execution, ack: Ack, why: Refusal)
    requires e in s.execs && s.execs[e] == x && x.pc.Rereading? && Starts(x, StepReread(s, e, x, ack), e, why)
    ensures RereadCause(s, e, ack, why)
  {
  }

  lemma AdoptTells(s: State, e: Actor, x: Execution, ack: Ack, why: Refusal)
    requires e in s.execs && s.execs[e] == x && x.pc.Adopting? && Starts(x, StepAdopt(s, e, x, ack), e, why)
    ensures AdoptCause(s, x, ack, why)
  {
  }

  lemma RedeemGoes(s: State, e: Actor, x: Execution, input: Input, r: Redemption, why: Refusal)
    requires e in s.execs && s.execs[e] == x && x.pc.Redeeming? && x.sess.quote.promo.Some?
    requires r == Redeems(s, x, input) && Starts(x, StepRedeem(s, e, x, input), e, why)
    ensures if input.ack != Good then why == UpstreamDown
      else !r.Redeemed? && why == if r == PromoExpired then CodeExpired else CodeExhausted
  {
  }

  lemma RedeemTells(s: State, e: Actor, x: Execution, input: Input, r: Redemption, why: Refusal)
    requires x.sess.quote.promo.Some? && r == Redeems(s, x, input)
    requires if input.ack != Good then why == UpstreamDown
      else !r.Redeemed? && why == if r == PromoExpired then CodeExpired else CodeExhausted
    ensures RedeemCause(s, x, input.ack, why)
  {
    var l, code := s.db.ledger, x.sess.quote.promo.value;
    RedeemIs(l, code, x.user, x.sid, JudgedAt(s, x.started, input.judged), UserUses(l, code, x.user));
  }

  lemma VerdictGoes(s: State, e: Actor, x: Execution, v: Catalog.Verdict, lookups: bool, why: Refusal)
    requires e in s.execs && s.execs[e] == x && x.pc.Revalidating?
    requires Starts(x, StepVerdict(s, e, x, v, lookups), e, why)
    ensures
      || (why == AvailabilityUnknown && v.Untracked?)
      || (why == StockUnavailable && v.Drift? && v.short)
      || (why == PriceChanged && v.Drift? && !v.short)
      || (why == UpstreamDown && Stuck(s.db, x.sess.quote, v, lookups))
  {
  }

  lemma VerdictTells(s: State, e: Actor, x: Execution, input: Input, v: Catalog.Verdict, why: Refusal)
    requires e in s.execs && s.execs[e] == x && x.pc.Revalidating?
    requires v == Catalog.Revalidation(x.sess.quote.items, input.got)
    requires Starts(x, StepVerdict(s, e, x, v, input.lookups), e, why)
    ensures VerdictCause(s.db, x.sess.quote, input, why)
  {
    VerdictGoes(s, e, x, v, input.lookups, why);
    VerdictMeans(x.sess.quote.items, input.got);
  }

  /** What each verdict says about the two answers. */
  lemma VerdictMeans(items: seq<Item>, got: Catalog.Reads)
    ensures Catalog.Revalidation(items, got).Untracked? ==>
      got.avail.Success? && exists i :: 0 <= i < |items| && items[i].productId in got.avail.value.unknown
    ensures Catalog.Revalidation(items, got).Drift? ==>
      && got.prices.Success? && got.avail.Success?
      && if Catalog.Revalidation(items, got).short
         then exists i :: 0 <= i < |items| && Unsellable(items, got.prices.value, got.avail.value, i)
         else exists i :: 0 <= i < |items| && Moved(items, got.prices.value, i)
  {
    Catalog.UntrackedIffUnknown(items, got);
    if Catalog.Revalidation(items, got).Drift? {
      var prices, avail := got.prices.value, got.avail.value;
      assert got == Catalog.Reads(Success(prices), Success(avail));
      if Catalog.Revalidation(items, got).short { DriftIsShort(items, prices, avail); } else { DriftMoved(items, got); }
    }
  }

  lemma DriftIsShort(items: seq<Item>, prices: seq<Catalog.PriceInfo>, avail: Catalog.Availability)
    requires
      var v := Catalog.Revalidation(items, Catalog.Reads(Success(prices), Success(avail)));
      v.Drift? && v.short
    ensures exists i :: 0 <= i < |items| && Unsellable(items, prices, avail, i)
  {
    Catalog.DriftShort(items, prices, avail);
    var i :| 0 <= i < |items| &&
      var id := items[i].productId;
      || Catalog.LastPrice(prices, id).None?
      || ((!avail.canFulfill || id in avail.shortages) && items[i].quantity > 0)
      || (avail.canFulfill && id !in avail.shortages && Catalog.LastQuantity(Catalog.LinesOf(items), id).Some?
          && items[i].quantity > Catalog.LastQuantity(Catalog.LinesOf(items), id).value);
    assert Unsellable(items, prices, avail, i);
  }

  lemma DriftMoved(items: seq<Item>, got: Catalog.Reads)
    requires Catalog.Revalidation(items, got).Drift? && !Catalog.Revalidation(items, got).short
    ensures got.prices.Success? && exists i :: 0 <= i < |items| && Moved(items, got.prices.value, i)
  {
    var infos := Catalog.Merged(Catalog.LinesOf(items), got.prices.value, got.avail.value);
    assert Catalog.AnyMoved(items, infos);
    var i :| 0 <= i < |items| && Catalog.PriceMoved(items[i], Catalog.Lookup(infos, items[i].productId));
    Catalog.LineLookup(items, got.prices.value, got.avail.value, i);
    assert Moved(items, got.prices.value, i);
  }

  lemma DropTells(s: State, e: Actor, x: Execution, st: Stmt, told: Refusal, ack: Ack, why: Refusal)
    requires e in s.execs && s.execs[e] == x && Telling(x.pc) == Some(told)
    requires Starts(x, StepDrop(s, e, x, st, told, ack), e, why)
    ensures why == InFlight && (ack != Good || StepDrop(s, e, x, st, told, ack).db == s.db)
  {
    DropCases(s, e, x, st, told, ack);
  }

  lemma OrderTells(s: State, e: Actor, x: Execution, ack: Ack, why: Refusal)
    requires e in s.execs && s.execs[e] == x && x.pc.Ordering? && Starts(x, StepOrder(s, e, x, ack), e, why)
    ensures ack != Good && why == if ack == Invalid then Rejected else UpstreamDown
  {
  }

  /** Everywhere else only a call that was not acknowledged tells anything. */
  lemma WriteTells(s: State, e: Actor, x: Execution, input: Input, why: Refusal)
    requires Acts(s, e) && s.execs[e] == x && Starts(x, StepOf(s, e, input), e, why)
    requires x.pc.Recovering? || x.pc.Marking? || x.pc.Noting? || x.pc.Finishing?
    ensures input.ack != Good && why == Unavailable
  {
  }

  lemma EndTells(s: State, e: Actor, x: Execution, input: Input, why: Refusal)
    requires Acts(s, e) && s.execs[e] == x && Starts(x, StepOf(s, e, input), e, why)
    requires x.pc.Lapsing? || x.pc.Completing? || x.pc.Aborting? || x.pc.Releasing?
    ensures input.ack != Good && why == Unavailable
  {
    if x.pc.Completing? { CompleteMoves(s, e, x, input.ack); }
  }

  lemma StepTells(s: State, e: Actor, input: Input, why: Refusal)
    requires Acts(s, e) && Starts(s.execs[e], Next(s, Step(e, input)), e, why)
    ensures Cause(s, e, input, why)
  {
    var x, ack := s.execs[e], input.ack;
    if x.pc.Reading? {
      ReadTells(s, e, x, ack, why);
    } else if x.pc.Claiming? {
      ClaimTells(s, e, x, ack, why);
    } else if x.pc.Entering? {
      EnterTells(s, e, x, ack, why);
    } else if x.pc.Rereading? {
      RereadTells(s, e, x, ack, why);
    } else if x.pc.Revalidating? {
      VerdictTells(s, e, x, input, Catalog.Revalidation(x.sess.quote.items, input.got), why);
    } else if x.pc.Requoting? {
      DropTells(s, e, x, RequoteItems(x.claim, x.pc.items, x.pc.subtotal, x.pc.tax, x.pc.discount), x.pc.why, ack, why);
    } else if x.pc.Stripping? {
      DropTells(s, e, x, StripPromo(x.claim), x.pc.reason, ack, why);
    } else if x.pc.Redeeming? {
      RedeemingTells(s, e, x, input, why);
    } else if x.pc.Ordering? {
      OrderTells(s, e, x, ack, why);
    } else if x.pc.Adopting? {
      AdoptTells(s, e, x, ack, why);
    } else if x.pc.Recovering? || x.pc.Marking? || x.pc.Noting? || x.pc.Finishing? {
      WriteTells(s, e, x, input, why);
    } else {
      EndTells(s, e, x, input, why);
    }
  }

  lemma RedeemingTells(s: State, e: Actor, x: Execution, input: Input, why: Refusal)
    requires Acts(s, e) && s.execs[e] == x && x.pc.Redeeming? && Starts(x, StepOf(s, e, input), e, why)
    ensures x.sess.quote.promo.Some? && RedeemCause(s, x, input.ack, why)
  {
    RedeemGoes(s, e, x, input, Redeems(s, x, input), why);
    RedeemTells(s, e, x, input, Redeems(s, x, input), why);
  }

  // ---- Every refusal of every run ----

  /** The event gives the execution cause to tell `why`: a step of its own that finds it, or its crash. */
  predicate Told(s: State, ev: Event, e: Actor, why: Refusal) {
    || (ev == Crash(e) && why == Crashed)
    || (ev.Step? && ev.e == e && Acts(s, e) && Cause(s, e, ev.input, why))
  }

  lemma TellingFrom(s: State, ev: Event, e: Actor, why: Refusal)
    requires e in Next(s, ev).execs && Telling(Next(s, ev).execs[e].pc) == Some(why)
    ensures (e in s.execs && Telling(s.execs[e].pc) == Some(why)) || Told(s, ev, e, why)
  {
    if e !in s.execs {
      NewcomerReads(s, ev, e);
    } else if !Concerns(ev, e) {
      OtherKeeps(s, ev, e);
    } else if ev.Step? && Acts(s, e) && Telling(s.execs[e].pc) != Some(why) {
      StepTells(s, e, ev.input, why);
    }
  }

  /**
   * In every run, an execution that answers with a refusal, or is on its way to, was given cause to by what one of its
   * own steps found in the tables or heard from upstream, or it crashed.
   */
  lemma {:induction false} RefusalTells(s0: State, evs: seq<Event>, e: Actor, why: Refusal)
    requires Init(s0) && e in Run(s0, evs).execs && Telling(Run(s0, evs).execs[e].pc) == Some(why)
    ensures exists i: nat :: i < |evs| && Told(Run(s0, evs[..i]), evs[i], e, why)
  {
    var n := |evs| - 1;
    var before := evs[..n];
    TellingFrom(Run(s0, before), evs[n], e, why);
    if e in Run(s0, before).execs && Telling(Run(s0, before).execs[e].pc) == Some(why) {
      RefusalTells(s0, before, e, why);
      var i: nat :| i < n && Told(Run(s0, before[..i]), before[i], e, why);
      assert before[..i] == evs[..i];
    }
  }

  // ---- Every order of every run ----

  /** Past re-validation, on the way to the order. */
  predicate Past(pc: Pc) {
    pc.Redeeming? || pc.Stripping? || pc.Marking? || pc.Ordering? || pc.Noting? || pc.Completing?
  }

  /** Past redemption too. */
  predicate Authorized(pc: Pc) { pc.Marking? || pc.Ordering? || pc.Noting? || pc.Completing? }

  /** The event is the re-validation that found this session's lines clean. */
  predicate FindsClean(s: State, ev: Event, e: Actor, sess: Session) {
    && ev.Step? && ev.e == e && Acts(s, e) && s.execs[e].pc.Revalidating? && s.execs[e].sess == sess
    && Catalog.Revalidation(sess.quote.items, ev.input.got) == Catalog.Clean
  }

  /** The code it carries was counted for its session. */
  predicate CodeCounted(s: State, x: Execution) {
    x.sess.quote.promo.Some? ==> (x.sess.quote.promo.value, x.sid) in s.db.ledger.uses
  }

  /** How an execution that set its own marker got past re-validation. */
  predicate Advances(s: State, input: Input, e: Actor, s': State)
    requires e in s.execs && e in s'.execs
  {
    var x, x' := s.execs[e], s'.execs[e];
    Past(x'.pc) && !x'.marked ==>
      && x'.sid == x.sid && x'.sess == x.sess
      && (FindsClean(s, Step(e, input), e, x.sess) || (Past(x.pc) && !x.marked))
      && (Authorized(x'.pc) ==> CodeCounted(s', x') || Authorized(x.pc))
  }

  lemma VerdictAdvances(s: State, e: Actor, input: Input, v: Catalog.Verdict)
    requires Acts(s, e) && s.execs[e].pc.Revalidating?
    requires v == Catalog.Revalidation(s.execs[e].sess.quote.items, input.got)
    ensures e in StepVerdict(s, e, s.execs[e], v, input.lookups).execs
    ensures Advances(s, input, e, StepVerdict(s, e, s.execs[e], v, input.lookups))
  {
  }

  lemma RedeemAdvances(s: State, e: Actor, input: Input)
    requires Acts(s, e) && s.execs[e].pc.Redeeming? && s.execs[e].sess.quote.promo.Some?
    ensures e in StepRedeem(s, e, s.execs[e], input).execs
    ensures Advances(s, input, e, StepRedeem(s, e, s.execs[e], input))
  {
    var x := s.execs[e];
    RedeemKeepsCodes(s.db.ledger, x.sess.quote.promo.value, x.user, x.sid, JudgedAt(s, x.started, input.judged));
  }

  /** The session read stays what it was, and nothing but a redrive gets here from before re-validation. */
  predicate Onward(x: Execution, x': Execution) {
    Past(x'.pc) && !x'.marked ==>
      Authorized(x'.pc) && Authorized(x.pc) && !x.marked && x'.sid == x.sid && x'.sess == x.sess
  }

  lemma MarkAdvances(s: State, e: Actor, input: Input)
    requires Acts(s, e) && s.execs[e].pc.Marking?
    ensures e in StepOf(s, e, input).execs && Onward(s.execs[e], StepOf(s, e, input).execs[e])
  {
  }

  lemma NoteAdvances(s: State, e: Actor, input: Input)
    requires Acts(s, e) && s.execs[e].pc.Noting?
    ensures e in StepOf(s, e, input).execs && Onward(s.execs[e], StepOf(s, e, input).execs[e])
  {
  }

  /** Neither the two drops nor the abort get any further towards the order. */
  lemma DropAdvances(s: State, e: Actor, input: Input)
    requires Acts(s, e) && (s.execs[e].pc.Stripping? || s.execs[e].pc.Requoting? || s.execs[e].pc.Aborting?)
    ensures e in StepOf(s, e, input).execs && Onward(s.execs[e], StepOf(s, e, input).execs[e])
  {
    var x := s.execs[e];
    if x.pc.Stripping? { DropCases(s, e, x, StripPromo(x.claim), x.pc.reason, input.ack); }
    if x.pc.Requoting? {
      DropCases(s, e, x, RequoteItems(x.claim, x.pc.items, x.pc.subtotal, x.pc.tax, x.pc.discount), x.pc.why,
        input.ack);
    }
  }

  lemma OrderAdvances(s: State, e: Actor, input: Input)
    requires Acts(s, e) && (s.execs[e].pc.Ordering? || s.execs[e].pc.Completing?)
    ensures e in StepOf(s, e, input).execs && Onward(s.execs[e], StepOf(s, e, input).execs[e])
  {
    var x := s.execs[e];
    if x.pc.Completing? { CompleteMoves(s, e, x, input.ack); } else { CarryOrder(s, e, x, input.ack); }
  }

  lemma RereadAdvances(s: State, e: Actor, input: Input)
    requires Acts(s, e) && s.execs[e].pc.Rereading?
    ensures e in StepOf(s, e, input).execs && Onward(s.execs[e], StepOf(s, e, input).execs[e])
  {
  }

  lemma UngatedAdvances(s: State, e: Actor, input: Input)
    requires Acts(s, e) && !Gated(s.execs[e].pc) && !s.execs[e].pc.Rereading?
    ensures e in StepOf(s, e, input).execs && Onward(s.execs[e], StepOf(s, e, input).execs[e])
  {
    StepFramed(s, e, input);
    NotPast(s.execs[e], StepOf(s, e, input).execs[e]);
  }

  lemma NotPast(x: Execution, x': Execution)
    requires Carries(x, x') && !Gated(x.pc)
    ensures Onward(x, x')
  {
  }

  lemma StepAdvances(s: State, e: Actor, input: Input)
    requires Acts(s, e) && (s.execs[e].pc.Redeeming? ==> s.execs[e].sess.quote.promo.Some?)
    ensures e in StepOf(s, e, input).execs && Advances(s, input, e, StepOf(s, e, input))
  {
    var pc := s.execs[e].pc;
    if pc.Revalidating? {
      VerdictAdvances(s, e, input, Catalog.Revalidation(s.execs[e].sess.quote.items, input.got));
    } else if pc.Redeeming? {
      RedeemAdvances(s, e, input);
    } else if pc.Stripping? || pc.Requoting? || pc.Aborting? {
      DropAdvances(s, e, input);
    } else if pc.Marking? {
      MarkAdvances(s, e, input);
    } else if pc.Noting? {
      NoteAdvances(s, e, input);
    } else if pc.Ordering? || pc.Completing? {
      OrderAdvances(s, e, input);
    } else if pc.Rereading? {
      RereadAdvances(s, e, input);
    } else {
      UngatedAdvances(s, e, input);
    }
  }

  lemma PastFrom(s: State, ev: Event, e: Actor)
    requires CoreInv(s) && e in Next(s, ev).execs
    requires Past(Next(s, ev).execs[e].pc) && !Next(s, ev).execs[e].marked
    ensures
      var x' := Next(s, ev).execs[e];
      && e in s.execs && s.execs[e].sess == x'.sess && s.execs[e].sid == x'.sid
      && (FindsClean(s, ev, e, x'.sess) || (Past(s.execs[e].pc) && !s.execs[e].marked))
      && (Authorized(x'.pc) ==>
           CodeCounted(Next(s, ev), x') || (Authorized(s.execs[e].pc) && !s.execs[e].marked))
  {
    if ev.Step? && ev.e == e && Acts(s, e) {
      assert ExecOk(s, e);
      StepAdvances(s, e, ev.input);
    } else {
      OtherExecSame(s, ev, e);
    }
  }

  /** In every run, an execution that gets to its own marker found exactly the lines it orders clean. */
  lemma {:induction false} OrdersAreCleared(s0: State, evs: seq<Event>, e: Actor)
    requires Init(s0) && e in Run(s0, evs).execs
    requires Past(Run(s0, evs).execs[e].pc) && !Run(s0, evs).execs[e].marked
    ensures exists i: nat :: i < |evs| && FindsClean(Run(s0, evs[..i]), evs[i], e, Run(s0, evs).execs[e].sess)
  {
    var n := |evs| - 1;
    var sess := Run(s0, evs).execs[e].sess;
    CoreRun(s0, evs[..n]);
    PastFrom(Run(s0, evs[..n]), evs[n], e);
    if !FindsClean(Run(s0, evs[..n]), evs[n], e, sess) {
      OrdersAreCleared(s0, evs[..n], e);
      FoundBefore(s0, evs, n, e, sess);
    }
  }

  lemma FoundBefore(s0: State, evs: seq<Event>, n: nat, e: Actor, sess: Session)
    requires n <= |evs|
    requires exists i: nat :: i < n && FindsClean(Run(s0, evs[..n][..i]), evs[..n][i], e, sess)
    ensures exists i: nat :: i < |evs| && FindsClean(Run(s0, evs[..i]), evs[i], e, sess)
  {
    var i: nat :| i < n && FindsClean(Run(s0, evs[..n][..i]), evs[..n][i], e, sess);
    assert evs[..n][..i] == evs[..i];
  }

  /** And the code it orders with, if it has one, was counted for its session. */
  lemma {:induction false} OrdersAreCounted(s0: State, evs: seq<Event>, e: Actor)
    requires Init(s0) && e in Run(s0, evs).execs
    requires Authorized(Run(s0, evs).execs[e].pc) && !Run(s0, evs).execs[e].marked
    ensures
      var s := Run(s0, evs);
      var promo := s.execs[e].sess.quote.promo;
      promo.Some? ==> (promo.value, s.execs[e].sid) in s.db.ledger.uses
  {
    var n := |evs| - 1;
    CoreRun(s0, evs[..n]);
    PastFrom(Run(s0, evs[..n]), evs[n], e);
    if !CodeCounted(Run(s0, evs), Run(s0, evs).execs[e]) {
      OrdersAreCounted(s0, evs[..n], e);
      Clean.UsesGrow(Run(s0, evs[..n]), evs[n]);
    }
  }
}
