/** The watch gives up a live session: the run behind the exact condition of Watch.WatchEndsExactly. */
module Race {
  import opened Base
  import opened Domain
  import opened Store
  import opened Protocol
  import opened Safety
  import opened Quotes
  import opened Progress
  import opened Watch
  import opened Witnesses
  import L = Lateness
  import F = FirstDrive
  import C = Confirm

  /** A confirm that is re-validating, watched with a timer about to fire. */
  function Watched(g: State): Watch { Watch(g, SID, 1, Waiting, g.db.now + 1, 0, 0, 0, 0) }

  /** The timer fires on the confirming row, and ExpireDue gets as far as the status read. */
  function Firing(): seq<Move> { [Sys(Pass(1)), Wake(Good), Wake(Good), Wake(Good), Wake(Good)] }

  /** Meanwhile the confirm loses its catalog read and goes back to ready; then the binding is read. */
  function GivingUp(): seq<Move> { [Sys(Step(7, DOWN)), Sys(Step(7, DOWN)), Wake(Good)] }

  lemma {:induction false} MovesConcat(w: Watch, a: seq<Move>, b: seq<Move>)
    ensures Moves(w, a + b) == Moves(Moves(w, a), b)
  {
    if b == [] {
      assert a + b == a;
    } else {
      MovesConcat(w, a, b[..|b| - 1]);
      assert (a + b)[..|a + b| - 1] == a + b[..|b| - 1];
    }
  }

  lemma OneMove(w: Watch, m: Move)
    ensures Moves(w, [m]) == Move1(w, m)
  {
    assert [m][..0] == [];
    assert Moves(w, []) == w;
  }

  lemma ThreeMoves(w: Watch, a: Move, b: Move, c: Move)
    ensures Moves(w, [a, b, c]) == Move1(Move1(Move1(w, a), b), c)
  {
    OneMove(w, a);
    MovesConcat(w, [a], [b]);
    OneMove(Moves(w, [a]), b);
    MovesConcat(w, [a] + [b], [c]);
    OneMove(Moves(w, [a] + [b]), c);
    assert [a] + [b] + [c] == [a, b, c];
  }

  lemma FiveMoves(w: Watch, a: Move, m: Move)
    ensures Moves(w, [a, m, m, m, m]) == Move1(Move1(Move1(Move1(Move1(w, a), m), m), m), m)
  {
    ThreeMoves(w, a, m, m);
    MovesConcat(w, [a, m, m], [m]);
    OneMove(Moves(w, [a, m, m]), m);
    MovesConcat(w, [a, m, m] + [m], [m]);
    OneMove(Moves(w, [a, m, m] + [m]), m);
    assert [a, m, m] + [m] + [m] == [a, m, m, m, m];
  }

  /** Timer, two UPDATEs that match nothing, and the status read: confirming. */
  lemma Looks(w: Watch, row: Session)
    requires L.Armed(w) && w.s.db.now >= w.until && w.s.db.sessions[w.sid] == row
    requires row.status == Confirming && row.expiresAt > w.s.db.now
    ensures Command(Command(Command(Command(w, Good), Good), Good), Good) == w.(stage := Binding(row.version))
  {
    L.Fires(w);
    var w1 := w.(stage := Due);
    L.TimerMisses(w1);
    var w2 := w.(stage := Parked);
    L.ParkedMisses(w2);
    L.LooksAtConfirming(w.(stage := Looking));
  }

  lemma Fires(g: State, row: Session)
    requires SID in g.db.sessions && g.db.sessions[SID] == row && row.status == Confirming
    requires row.expiresAt > g.db.now + 1
    ensures Moves(Watched(g), Firing()) ==
      Watched(g).(s := g.(db := g.db.(now := g.db.now + 1)), stage := Binding(row.version))
  {
    var w := Watched(g);
    FiveMoves(w, Sys(Pass(1)), Wake(Good));
    var w1 := w.(s := g.(db := g.db.(now := g.db.now + 1)));
    assert Move1(w, Sys(Pass(1))) == w1;
    Looks(w1, row);
  }

  /** The catalog read fails, the abort lands: the row is ready again and unbound. */
  lemma GivesUp(g: State, d: Drive, row: Session)
    requires F.Opened(g, d, row, false) && BoundConfirming(row, d.k) && AtPc(g, d.e) && g.execs[d.e].pc.Revalidating?
    requires g.execs[d.e].sid == d.sid && g.execs[d.e].claim == d.k
    ensures
      var u := Next(Next(g, Step(d.e, DOWN)), Step(d.e, DOWN));
      d.sid in u.db.sessions && u.db.sessions[d.sid].status == Ready && u.db.sessions[d.sid].confirmKey.None?
  {
    C.VerdictFacts(g, d.e, DOWN);
    var g1 := Next(g, Step(d.e, DOWN));
    assert g1.execs[d.e].pc == Aborting;
    WriteIsPut(g1, d.sid, AbortConfirm(d.k));
  }

  lemma Races(g: State, d: Drive, row: Session)
    requires F.Opened(g, d, row, false) && F.Stands(g, d, Revalidating, row) && BoundConfirming(row, d.k)
    requires g.db.now == d.at
    requires d.e == 7 && d.sid == SID && row.expiresAt > g.db.now + 1
    ensures
      var w := Moves(Watched(g), Firing() + GivingUp());
      && w.stage == Over(Gone) && SID in w.s.db.sessions && w.s.db.sessions[SID].status == Ready
      && !EndSafe(w.s, SID)
  {
    Fires(g, row);
    MovesConcat(Watched(g), Firing(), GivingUp());
    var w := Moves(Watched(g), Firing());
    ThreeMoves(w, Sys(Step(7, DOWN)), Sys(Step(7, DOWN)), Wake(Good));
    GivesUp(w.s, d, row);
  }

  /** Four steps into the first confirm: claimed, confirming, about to re-validate. */
  lemma AtTheGate(t: State, g: State)
    requires Desk(t, READY) && CoreInv(t) && g == Run(t, Driving(4))
    ensures
      var d := F.Owning(g, DRIVE);
      && SID in g.db.sessions && d.e == 7 && d.sid == SID && g.db.now == d.at
      && var row := g.db.sessions[SID];
         F.Opened(g, d, row, false) && F.Stands(g, d, Revalidating, row) && BoundConfirming(row, d.k)
           && row.expiresAt > g.db.now + 1
  {
    Drives(t, 4);
  }

  lemma WatchStarts(evs: seq<Event>)
    ensures Starts(Watched(Run(START, evs)))
  {
    StartIsInit();
    CoreRun(START, evs);
    RowRun(START, evs);
  }

  /**
   * The watch ends although its session is back in ready, unbound and unexpired: a requote or an abort between the
   * status read and the binding read makes the join empty, and an empty join is taken for "gone".
   */
  lemma {:induction false} WatchAbandonsLiveSession()
    ensures
      var g := Run(START, Paying() + Driving(4));
      var w := Moves(Watched(g), Firing() + GivingUp());
      && Init(START) && Starts(Watched(g))
      && w.stage == Over(Gone) && SID in w.s.db.sessions && w.s.db.sessions[SID].status == Ready && !EndSafe(w.s, SID)
  {
    StartIsInit();
    Pays();
    CoreRun(START, Paying());
    var t := Run(START, Paying());
    RunConcat(START, Paying(), Driving(4));
    var g := Run(t, Driving(4));
    AtTheGate(t, g);
    WatchStarts(Paying() + Driving(4));
    Races(g, F.Owning(g, DRIVE), g.db.sessions[SID]);
  }
}
