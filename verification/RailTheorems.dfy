/** What holds in every run of the rail switch. */
module RailTheorems {
  import opened Basics
  import opened Frames
  import opened Carrier
  import opened Rail
  import opened RailSwitch
  import opened RailInvariant
  import D = Detector

  /** One stream: its id, its token (fresh for this stream), and the server's
      configured gate. */
  datatype Setup = Setup(sid: nat, token: seq<byte>, minBulk: int, tlsOnly: bool)

  function Boot(c: Setup): State {
    Start0(c.sid, c.token, c.minBulk, c.tlsOnly)
  }

  /** A run of the system: any sequence of steps each of which can be taken. */
  predicate IsRun(c: Setup, tr: seq<Step>) {
    Config(c.sid, c.token) && Runs(Boot(c), tr)
  }

  function Reached(c: Setup, tr: seq<Step>): State
    requires IsRun(c, tr)
  {
    After(Boot(c), tr)
  }

  lemma ReachedHasInv(c: Setup, tr: seq<Step>)
    requires IsRun(c, tr)
    ensures Inv(Reached(c, tr))
  {
    StartHasInv(c.sid, c.token, c.minBulk, c.tlsOnly);
    hide Inv;
    RunKeeps(Boot(c), tr);
  }

  // ----- exact bytes ---------------------------------------------------------------

  /** In every run, in both directions and across the seam, what Stream.Read has
      returned on one side is a prefix of what Stream.Write was given on the other:
      nothing lost in the middle, doubled or reordered. */
  lemma SeamIsExact(c: Setup, tr: seq<Step>)
    requires IsRun(c, tr)
    ensures var s := Reached(c, tr);
            s.up.rx.consumed <= s.up.tx.passed && s.down.rx.consumed <= s.down.tx.passed
  {
    hide Runs, After;
    ReachedHasInv(c, tr);
  }

  /** A clean end of the carried direction on a live stream means completeness:
      this side's readers hold all the peer's writes reported, mux part and carrier
      part, and nothing more will be accepted or lost on the way. */
  lemma CleanEndIsComplete(c: Setup, tr: seq<Step>, w: Who)
    requires IsRun(c, tr)
    ensures var e := Ends(Reached(c, tr), w);
            e.i.rx.rhc && e.side.die == Alive ==> e.i.rx.consumed == e.i.tx.accepted
  {
    CleanEndExactly(c, tr, w);
  }

  /** A clean end exactly, live stream or not: everything that was read off B has been
      returned by Stream.Read, last of all; and the whole direction is complete if and
      only if no byte met a closed pipe, which a live stream rules out. */
  lemma CleanEndExactly(c: Setup, tr: seq<Step>, w: Who)
    requires IsRun(c, tr)
    ensures var e := Ends(Reached(c, tr), w);
            e.i.rx.rhc ==>
              && e.i.rx.fetched == e.i.rx.fed && EndsWith(e.i.rx.consumed, e.i.rx.fed)
              && (e.i.rx.consumed == e.i.tx.accepted <==> !e.i.rx.dropped)
              && (e.i.rx.dropped ==> e.side.die != Alive)
  {
    hide Runs, After;
    ReachedHasInv(c, tr);
    var e := Ends(Reached(c, tr), w);
    if e.i.rx.rhc {
      EofMeansComplete(e.i);
    }
  }

  // ----- what only grows --------------------------------------------------------------

  /** How a direction can look later in the same run. */
  predicate Grown(d: Dir, d': Dir) {
    && (d.tx.diverted ==> d'.tx.diverted) && (d.rx.barTaken ==> d'.rx.barTaken)
    && d.mx.barriers <= d'.mx.barriers && (d.tx.diverted ==> d'.mx.barriers == d.mx.barriers)
  }

  predicate Frozen(d: Dir, d': Dir) {
    d'.rx.rhc && d'.rx.consumed == d.rx.consumed && d'.tx.accepted == d.tx.accepted && d'.cr.car == []
  }

  predicate Later(d: Dir, d': Dir) {
    Grown(d, d') && (d.rx.rhc ==> Frozen(d, d'))
  }

  lemma MoveGrows(d: Dir, mv: Move)
    requires Enabled(d, mv)
    ensures Grown(d, Do(d, mv))
  {
    hide KindOf, CanOnMux, DoOnMux, CanOnB, DoOnB, CanOffMux, DoOffMux, CanOffB, DoOffB;
  }

  lemma EofFacts(d: Dir)
    requires DirInv(d) && d.rx.rhc
    ensures d.cr.fin && d.cr.car == [] && d.rx.barTaken && d.tx.diverted && d.rx.held == [] && d.rx.pumped == []
    ensures !d.rx.pump.Reading? && !d.rx.pump.Handing? && !d.rx.pump.Off?
    ensures d.mx.items != [] ==> !d.mx.items[0].Data?
  {
    hide Sealed, Payloads, Flow, Tally, Pumped;
  }

  /** A clean end freezes the direction: no later write is accepted, no later
      read returns a byte, and B stays empty. */
  lemma EofFreezes(d: Dir, mv: Move)
    requires DirInv(d) && Enabled(d, mv) && d.rx.rhc
    ensures Frozen(d, Do(d, mv))
  {
    hide DirInv, Flatten, DataItems;
    EofFacts(d);
    Effects(d, mv);
    match KindOf(mv)
    case OnMux => hide DoOnB, DoOffMux, DoOffB;
    case OnB => hide DoOnMux, DoOffMux, DoOffB;
    case OffMux => hide DoOnMux, DoOnB, DoOffB;
    case OffB => hide DoOnMux, DoOnB, DoOffMux;
  }

  lemma MoveLater(d: Dir, mv: Move)
    requires DirInv(d) && Enabled(d, mv)
    ensures Later(d, Do(d, mv))
  {
    hide DirInv, Enabled, Do, Grown, Frozen;
    MoveGrows(d, mv);
    if d.rx.rhc {
      EofFreezes(d, mv);
    }
  }

  lemma LaterSelf(d: Dir)
    requires DirInv(d)
    ensures Later(d, d)
  {
    if d.rx.rhc {
      EofFacts(d);
    }
  }

  lemma LaterLater(a: Dir, b: Dir, c: Dir)
    requires Later(a, b) && Later(b, c)
    ensures Later(a, c)
  {
  }

  lemma ShutLater(d: Dir)
    requires DirInv(d)
    ensures Later(d, ShutOut(d))
  {
    hide DirInv, Do, Later;
    if d.cr.torn {
      LaterSelf(d);
    } else {
      MoveLater(d, Shut);
    }
  }

  lemma ActLater(e: End, a: Act, idle: bool, broke: bool)
    requires CanAct(e, a, idle, broke) && DirInv(e.o) && DirInv(e.i)
    ensures var e' := DoAct(e, a, idle, broke); Later(e.o, e'.o) && Later(e.i, e'.i)
  {
    hide DirInv, Do, ShutOut, Later;
    LaterSelf(e.o);
    LaterSelf(e.i);
    match a
    case Send(mv) => MoveLater(e.o, mv);
    case Recv(mv) => MoveLater(e.i, mv);
    case Reset(k) => MoveLater(e.i, Lose(k));
    case CloseWrite => MoveLater(e.o, Retire);
    case CloseWriteDone => ShutLater(e.o);
    case Die =>
    case DiePipe => MoveLater(e.i, ClosePipe);
    case DieLook =>
    case DieCas => MoveLater(e.o, Retire);
    case DieShut => ShutLater(e.o);
    case DieArm =>
    case DieReleased =>
    case SendFin(how) => MoveLater(e.o, Noting(how, Fin));
    case TakeFin => MoveLater(e.i, TakeNote);
    case FinDone =>
    case OnceEnter(_) =>
    case OnceClose => ShutLater(e.o);
    case OnceNoConn =>
    case OnceDone =>
    case PumpGaveUp => MoveLater(e.i, Stop);
  }

  lemma PreloadLater(s: State, bytes: seq<byte>)
    requires DirInv(s.up)
    ensures Later(s.up, Preload(s, bytes))
  {
    hide DirInv, Do, Later;
    LaterSelf(s.up);
    if s.sv.listener == Waiting && !s.up.cr.lost && !s.up.tx.diverted && !s.cl.side.gone {
      MoveLater(s.up, SetCar(bytes));
    }
  }

  lemma ClientLater(s: State, a: ClientAct)
    requires CanClient(s, a) && DirInv(s.up) && DirInv(s.down)
    ensures var s' := ApplyClient(s, a); Later(s.up, s'.up) && Later(s.down, s'.down)
  {
    hide DirInv, Do, Preload, Later, Opening;
    LaterSelf(s.up);
    LaterSelf(s.down);
    match a
    case TakeOffer(_) => MoveLater(s.down, TakeNote);
    case Dialled(_) =>
    case Publish =>
    case OpenB(filler) => PreloadLater(s, Opening(s.sid, s.token, filler));
    case OpenBFail(filler, k) => PreloadLater(s, Opening(s.sid, s.token, filler)[..k]);
    case Announce =>
    case TakeGo(_) => MoveLater(s.down, TakeBarrier);
    case LoadReady(_) =>
    case LoadGo(_) =>
    case Commit(_, how) => if s.cl.side.die == Alive { MoveLater(s.up, Diverting(how)); }
    case Spawn(_) => MoveLater(s.down, Rail.Start);
    case Skip(_) =>
  }

  lemma BeginLater(d: Dir, go: bool)
    requires DirInv(d) && Enabled(d, TakeBarrier)
    ensures Later(d, BeginUplink(Do(d, TakeBarrier), go))
  {
    hide DirInv, Do, Later;
    var t := Do(d, TakeBarrier);
    MoveLater(d, TakeBarrier);
    if go && Enabled(t, Rail.Start) {
      MoveKeeps(d, TakeBarrier);
      MoveLater(t, Rail.Start);
      LaterLater(d, t, Do(t, Rail.Start));
    }
  }

  lemma ServerLater(s: State, a: ServerAct)
    requires CanServer(s, a) && DirInv(s.up) && DirInv(s.down)
    ensures var s' := ApplyServer(s, a); Later(s.up, s'.up) && Later(s.down, s'.down)
  {
    hide DirInv, Do, Inspect, BeginUplink, TapUplink, ShutOut, Later;
    LaterSelf(s.up);
    LaterSelf(s.down);
    match a
    case BeginPayload =>
    case TapUp(_) =>
    case Win =>
    case Register =>
    case SendOffer(how) => MoveLater(s.down, Noting(how, Offer));
    case Expire =>
    case Accept => MoveLater(s.up, SetCar(Inspect(s.up.cr.car).rest));
    case AcceptUnknown => MoveLater(s.up, SetCar([])); ShutLater(s.down);
    case AcceptFail => MoveLater(s.up, SetCar([])); ShutLater(s.down);
    case Attach(how) => MoveLater(s.down, Diverting(how));
    case Refuse =>
    case CloseRefused => ShutLater(s.down);
    case TakeUplinkFin(late) => BeginLater(s.up, !late && s.sv.side.conn);
  }

  lemma StepLater(s: State, st: Step)
    requires Inv(s) && Can(s, st)
    ensures var s' := Apply(s, st); Later(s.up, s'.up) && Later(s.down, s'.down)
  {
    hide DirInv, Later, DoAct, CanAct, ApplyClient, CanClient, ApplyServer, CanServer, TapDown,
         CutInv, GateInv, WireInv, OfferInv, Lively;
    match st
    case Both(w, a) =>
      ActLater(Ends(s, w), a, RecvIdle(s, w), OpenBroke(s, w));
      TapKeepsWiring(s, w, a);
    case Client1(a) => ClientLater(s, a);
    case Server1(a) => ServerLater(s, a);
  }

  lemma {:induction false} RunLater(s: State, tr: seq<Step>)
    requires Inv(s) && Runs(s, tr)
    ensures var s' := After(s, tr); Later(s.up, s'.up) && Later(s.down, s'.down)
    decreases tr
  {
    hide Later, Apply, Can, DirInv, CutInv, GateInv, WireInv, OfferInv, Lively;
    if tr == [] {
      LaterSelf(s.up);
      LaterSelf(s.down);
    } else {
      var t := Apply(s, tr[0]);
      StepKeeps(s, tr[0]);
      StepLater(s, tr[0]);
      RunLater(t, tr[1..]);
      LaterLater(s.up, t.up, After(t, tr[1..]).up);
      LaterLater(s.down, t.down, After(t, tr[1..]).down);
    }
  }

  /** Completeness outlasts the stream: from a clean end on a live stream onwards,
      whatever happens next, the readers keep exactly what the writes reported. */
  lemma CompletenessLasts(c: Setup, tr: seq<Step>, more: seq<Step>, w: Who)
    requires IsRun(c, tr) && Runs(Reached(c, tr), more)
    requires var e := Ends(Reached(c, tr), w); e.i.rx.rhc && e.side.die == Alive
    ensures var e' := Ends(After(Reached(c, tr), more), w);
            e'.i.rx.consumed == e'.i.tx.accepted == Ends(Reached(c, tr), w).i.tx.accepted
  {
    hide Runs, After;
    ReachedHasInv(c, tr);
    CleanEndIsComplete(c, tr, w);
    hide Inv;
    RunLater(Reached(c, tr), more);
  }

  // ----- barriers --------------------------------------------------------------------------

  /** In every run each barrier enters the mux at most once and no data frame of
      the stream stands behind it; once it has left the mux, none is left at all.
      The uplink barrier exists only after the downlink barrier was received, and
      whenever the server takes it off the mux it finds its carrier attached. */
  lemma BarrierCausality(c: Setup, tr: seq<Step>)
    requires IsRun(c, tr)
    ensures var s := Reached(c, tr);
            && s.up.mx.barriers <= 1 && s.down.mx.barriers <= 1
            && Sealed(s.up.mx.items) && Sealed(s.down.mx.items)
            && (s.up.rx.barTaken ==> NoData(s.up.mx.items)) && (s.down.rx.barTaken ==> NoData(s.down.mx.items))
            && (s.up.mx.barriers == 1 ==> s.cl.goSeen && s.down.rx.barTaken && s.down.mx.barriers == 1)
            && (forall late :: CanServer(s, TakeUplinkFin(late)) ==> s.sv.side.conn && s.sv.listener == Attached)
  {
    hide Runs, After;
    ReachedHasInv(c, tr);
    var s := Reached(c, tr);
    UplinkBarrierHasCarrier(s);
  }

  lemma UplinkBarrierHasCarrier(s: State)
    requires Inv(s)
    ensures s.up.mx.barriers == 1 ==> s.cl.goSeen && s.down.rx.barTaken && s.sv.side.conn && s.sv.listener == Attached
    ensures forall late :: CanServer(s, TakeUplinkFin(late)) ==> s.up.mx.barriers == 1
  {
    PumpHasCarrier(s);
    hide GateInv, WireInv, CutInv, Lively, OfferInv, DirInv, Enabled;
    if exists late :: CanServer(s, TakeUplinkFin(late)) {
      BarrierWaits(s.up);
    }
  }

  lemma BarrierWaits(d: Dir)
    requires DirInv(d) && Enabled(d, TakeBarrier)
    ensures d.mx.barriers == 1
  {
    hide Flow, Closing, Tally, Pumped, Sealed, NoData;
    MuxPopCount(d.mx.items);
  }

  lemma MuxPopCount(m: seq<Item>)
    requires m != [] && m[0].Barrier?
    ensures Count(m, Barrier) >= 1
  {
  }

  /** bWriteConn changes at most once per side: set, it stays set, and no second
      barrier follows. */
  lemma DivertsOnce(c: Setup, tr: seq<Step>, more: seq<Step>, w: Who)
    requires IsRun(c, tr) && Runs(Reached(c, tr), more)
    ensures var d := Ends(Reached(c, tr), w).o;
            var d' := Ends(After(Reached(c, tr), more), w).o;
            d.tx.diverted ==> d'.tx.diverted && d'.mx.barriers == d.mx.barriers
  {
    hide Runs, After;
    ReachedHasInv(c, tr);
    hide Inv;
    RunLater(Reached(c, tr), more);
  }

  // ----- the client's cut-over ----------------------------------------------------------------

  /** Whichever of "carrier ready" and "barrier seen" comes second, the cut-over
      runs once: never twice, never before both, and never lost, since two callers
      cannot both have returned without it. Its feeder can always be started. */
  lemma CutoverExactlyOnce(c: Setup, tr: seq<Step>)
    requires IsRun(c, tr)
    ensures var s := Reached(c, tr);
            && s.cl.commits <= 1
            && (s.cl.commits == 1 ==> s.cl.bReady && s.cl.goSeen)
            && (s.cl.dialCut == Returned && s.cl.recvCut == Returned ==> s.cl.commits == 1)
            && (s.cl.cut.Body? ==> CanClient(s, Spawn(s.cl.cut.runner)))
            && (s.up.tx.diverted ==> s.cl.commits == 1)
  {
    ReachedHasInv(c, tr);
    hide IsRun, Reached, Inv;
    CutoverFacts(Reached(c, tr));
  }

  lemma CutoverFacts(s: State)
    requires Inv(s)
    ensures s.cl.commits <= 1 && (s.cl.commits == 1 ==> s.cl.bReady && s.cl.goSeen)
    ensures s.cl.dialCut == Returned && s.cl.recvCut == Returned ==> s.cl.commits == 1
    ensures s.cl.cut.Body? ==> CanClient(s, Spawn(s.cl.cut.runner))
    ensures s.up.tx.diverted ==> s.cl.commits == 1
  {
    hide DirInv, GateInv, WireInv, OfferInv, Lively, OnceInv, Opening;
    if s.cl.cut.Body? {
      StartsWhen(s.down);
    }
  }

  lemma StartsWhen(d: Dir)
    ensures d.rx.pump.Off? && d.rx.barTaken ==> Enabled(d, Rail.Start)
  {
  }

  // ----- teardown ---------------------------------------------------------------------------------

  /** A close of B reached because both halves are retired finds B empty towards
      this side, with the peer's end-of-stream consumed, and in every continuation
      no byte is ever put on it again: nothing carried is discarded. */
  lemma GracefulCloseDiscardsNothing(c: Setup, tr: seq<Step>, more: seq<Step>, w: Who)
    requires IsRun(c, tr) && Runs(Reached(c, tr), more)
    requires Can(Reached(c, tr), Both(w, OnceEnter(BothHalves)))
    ensures var i := Ends(Reached(c, tr), w).i;
            var i' := Ends(After(Reached(c, tr), more), w).i;
            i.cr.fin && i.cr.car == [] && i'.cr.car == [] && i'.tx.accepted == i.tx.accepted
  {
    hide Runs, After;
    ReachedHasInv(c, tr);
    BothHalvesEnded(Reached(c, tr), w);
    hide Inv;
    RunLater(Reached(c, tr), more);
  }

  lemma BothHalvesEnded(s: State, w: Who)
    requires Inv(s) && Can(s, Both(w, OnceEnter(BothHalves)))
    ensures var i := Ends(s, w).i; i.rx.rhc && i.cr.fin && i.cr.car == []
  {
    hide DirInv, CutInv, GateInv, WireInv, OfferInv, Lively, OnceInv;
    EofFacts(Ends(s, w).i);
  }

  /** Server attach against stream end, in either order: once both have run, a
      carrier that came too late is closed and waitCarrier released; one that was
      attached has its write half retired and the watchdog armed, and closeOnce is
      not used up: the timer, or whoever comes first, still closes B and releases
      waitCarrier. */
  lemma AttachVersusEnd(c: Setup, tr: seq<Step>)
    requires IsRun(c, tr) && Reached(c, tr).sv.side.die == Ended
    ensures var s := Reached(c, tr);
            && (s.sv.listener == Refused ==> s.sv.side.gone && s.sv.side.once == Released)
            && (s.sv.listener == Attached ==> s.down.tx.whc && s.sv.side.watchdog && !Spent(s.sv.side)
                                              && exists more :: ClosesB(s, more))
  {
    hide Runs, After;
    ReachedHasInv(c, tr);
    var s := Reached(c, tr);
    EndedServer(s);
    if s.sv.listener == Attached {
      var more := CloseServer(s);
    }
  }

  /** A continuation that closes the server's end of B and releases waitCarrier. */
  predicate ClosesB(s: State, more: seq<Step>) {
    Runs(s, more) && After(s, more).sv.side.gone && After(s, more).sv.side.once == Released
  }

  lemma EndedServer(s: State)
    requires Inv(s) && s.sv.side.die == Ended
    ensures s.sv.listener == Refused ==> s.sv.side.gone && s.sv.side.once == Released
    ensures s.sv.listener == Attached ==> s.sv.side.conn && s.down.tx.whc && s.sv.side.watchdog && !Spent(s.sv.side)
    ensures s.sv.listener == Attached && s.sv.side.gone ==> s.sv.side.once == ConnShut || s.sv.side.once == Released
  {
    hide DirInv, GateInv, CutInv, OfferInv, Opening;
  }

  lemma TimerEnters(s: State)
    requires s.sv.side.once == Idle && s.sv.side.watchdog
    ensures Can(s, Both(Sv, OnceEnter(Timer)))
    ensures Apply(s, Both(Sv, OnceEnter(Timer))).sv.side == s.sv.side.(once := Got(s.sv.side.conn))
  {
    hide Do, ShutOut, TapDown;
  }

  lemma CloserCloses(s: State)
    requires s.sv.side.once == Got(true)
    ensures Can(s, Both(Sv, OnceClose))
    ensures Apply(s, Both(Sv, OnceClose)).sv.side == s.sv.side.(once := ConnShut, gone := true)
  {
    hide Do, ShutOut, TapDown;
  }

  lemma CloserLeaves(s: State)
    requires s.sv.side.once == ConnShut
    ensures Can(s, Both(Sv, OnceDone))
    ensures Apply(s, Both(Sv, OnceDone)).sv.side == s.sv.side.(once := Released)
  {
    hide Do, ShutOut, TapDown;
  }

  lemma CloseServer(s: State) returns (more: seq<Step>)
    requires s.sv.side.conn && s.sv.side.watchdog && !Spent(s.sv.side)
    requires s.sv.side.gone ==> s.sv.side.once == ConnShut || s.sv.side.once == Released
    ensures ClosesB(s, more)
    decreases match s.sv.side.once case Idle => 3 case Got(_) => 2 case ConnShut => 1 case Released => 0
  {
    var once := s.sv.side.once;
    if once == Released {
      more := [];
    } else {
      hide Can, Apply, ClosesB;
      var st: Step;
      if once == ConnShut {
        CloserLeaves(s);
        st := Both(Sv, OnceDone);
      } else if once == Got(true) {
        CloserCloses(s);
        st := Both(Sv, OnceClose);
      } else {
        TimerEnters(s);
        st := Both(Sv, OnceEnter(Timer));
      }
      var rest := CloseServer(Apply(s, st));
      more := ThenClose(s, st, rest);
    }
  }

  lemma ThenClose(s: State, st: Step, rest: seq<Step>) returns (more: seq<Step>)
    requires Can(s, st) && ClosesB(Apply(s, st), rest)
    ensures ClosesB(s, more)
  {
    hide Can, Apply;
    more := [st] + rest;
    assert more[0] == st && more[1..] == rest;
  }

  // ----- the late cut --------------------------------------------------------------------------------

  /** Downlink bytes given to mux writes that began with the handshake done. */
  function LateVolume(s: State, tr: seq<Step>): (n: nat)
    requires Runs(s, tr)
    decreases tr
  {
    if tr == [] then 0
    else (if Late(s, tr[0]) then |tr[0].a.mv.b| else 0) + LateVolume(Apply(s, tr[0]), tr[1..])
  }

  predicate Late(s: State, st: Step) {
    st.Both? && st.w.Sv? && st.a.Send? && IsPush(st.a.mv) && s.sv.det.phase == D.HandshakeDone
  }

  lemma TapDownEffect(v: Server, b: seq<byte>)
    ensures TapDown(v, b).det.minBulk == v.det.minBulk
    ensures v.det.phase != D.HandshakeDone ==> TapDown(v, b).muxSinceDone == v.muxSinceDone
    ensures v.det.phase == D.HandshakeDone && GateInv(v) ==> TapDown(v, b).muxSinceDone == v.muxSinceDone + |b|
  {
    hide D.Observe, D.Paths;
    if D.Sound(v.det) {
      D.ObserveKeepsConfig(v.det, D.Down(b));
    }
  }

  lemma StepVolume(s: State, st: Step)
    requires Inv(s) && Can(s, st)
    ensures var s' := Apply(s, st);
            && s'.sv.muxSinceDone == s.sv.muxSinceDone + (if Late(s, st) then |st.a.mv.b| else 0)
            && s'.sv.det.minBulk == s.sv.det.minBulk
  {
    match st
    case Both(w, a) => BothVolume(s, w, a);
    case Client1(a) => ClientVolume(s, a);
    case Server1(a) => ServerVolume(s, a);
  }

  lemma BothVolume(s: State, w: Who, a: Act)
    requires GateInv(s.sv) && Can(s, Both(w, a))
    ensures var s' := ApplyBoth(s, w, a);
            && s'.sv.muxSinceDone == s.sv.muxSinceDone + (if Late(s, Both(w, a)) then |a.mv.b| else 0)
            && s'.sv.det.minBulk == s.sv.det.minBulk
  {
    hide DoAct, CanAct, TapDown, D.Paths, D.Sound;
    var s1 := PutEnd(s, w, DoAct(Ends(s, w), a, RecvIdle(s, w), OpenBroke(s, w)));
    assert GateInv(s1.sv);
    if w.Sv? && a.Send? && IsPush(a.mv) {
      TapDownEffect(s1.sv, a.mv.b);
    }
  }

  lemma ClientVolume(s: State, a: ClientAct)
    requires CanClient(s, a)
    ensures ApplyClient(s, a).sv == s.sv
  {
    hide Do, Preload, Opening;
  }

  lemma ServerVolume(s: State, a: ServerAct)
    requires CanServer(s, a)
    ensures var v := ApplyServer(s, a).sv; v.muxSinceDone == s.sv.muxSinceDone && v.det.minBulk == s.sv.det.minBulk
  {
    hide Do, Inspect, BeginUplink, ShutOut, D.Observe, D.Sound;
    match a
    case TapUp(p) => if D.Sound(s.sv.det) { D.ObserveKeepsConfig(s.sv.det, D.Up(p)); }
    case _ =>
  }

  lemma {:induction false} RunVolume(s: State, tr: seq<Step>)
    requires Inv(s) && Runs(s, tr)
    ensures var s' := After(s, tr);
            s'.sv.muxSinceDone == s.sv.muxSinceDone + LateVolume(s, tr) && s'.sv.det.minBulk == s.sv.det.minBulk
    decreases tr
  {
    hide Inv, Apply, Can, Late;
    if tr != [] {
      StepKeeps(s, tr[0]);
      StepVolume(s, tr[0]);
      RunVolume(Apply(s, tr[0]), tr[1..]);
    }
  }

  /** The late-cut contract over whole runs: the downlink is diverted, and B carries
      a downlink byte, only after a Ready verdict; and on the TLS path only after the
      effective gate's worth of downlink payload was given to mux writes begun after
      the handshake was complete. */
  lemma LateCut(c: Setup, tr: seq<Step>)
    requires IsRun(c, tr)
    ensures var s := Reached(c, tr);
            && (s.down.cr.car != [] ==> s.down.tx.diverted)
            && (s.down.tx.diverted ==> s.sv.det.phase == D.Ready)
            && (s.down.tx.diverted && s.sv.det.helloSeen ==>
                  LateVolume(Boot(c), tr) >= D.ResolveMinBulk(c.minBulk) >= D.MIN_BULK_FLOOR)
  {
    StartHasInv(c.sid, c.token, c.minBulk, c.tlsOnly);
    LateCutFrom(c, tr);
  }

  lemma LateCutFrom(c: Setup, tr: seq<Step>)
    requires IsRun(c, tr) && Inv(Boot(c))
    ensures var s := Reached(c, tr);
            && (s.down.cr.car != [] ==> s.down.tx.diverted)
            && (s.down.tx.diverted ==> s.sv.det.phase == D.Ready)
            && (s.down.tx.diverted && s.sv.det.helloSeen ==>
                  LateVolume(Boot(c), tr) >= D.ResolveMinBulk(c.minBulk))
  {
    hide Runs, After, LateVolume;
    RunVolume(Boot(c), tr);
    RunKeeps(Boot(c), tr);
    hide DirInv, CutInv, OfferInv, Lively, D.Paths;
  }
}
