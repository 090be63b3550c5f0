/** What every reached state of the rail switch can still become: a dying stream ends,
    recvLoop empties the mux, bytes under way reach their reader, and the end of one
    side reaches the other. No interleaving strands any of these. */
module RailProgress {
  import opened Basics
  import opened Frames
  import opened Carrier
  import opened Rail
  import opened RailSwitch
  import opened RailInvariant
  import opened RailTheorems
  import opened RailHistory
  import D = Detector

  // ----- what liveness needs to know of a reached state --------------------------------

  /** How far a side's end has got, against its pipe and its feeder. */
  predicate Ending(sd: Side, i: Dir) {
    && (sd.die != Alive && sd.die != Stored ==> i.rx.pipeDone)
    && (i.rx.pump.Stopped? && !i.rx.rhc ==> sd.die != Alive && sd.once == Released)
    && (sd.finWait ==> sd.die != Alive) && (sd.finSent ==> sd.die == Ended)
  }

  /** A barrier that started nothing came to a stream that had ended. */
  predicate Switching(s: State) {
    && (s.down.rx.barTaken && !s.cl.goSeen ==> s.cl.side.die == Ended)
    && (s.up.rx.barTaken && s.up.rx.pump.Off? ==> s.sv.side.die == Ended)
    && (s.cl.cut == Done ==> !s.down.rx.pump.Off?)
  }

  /** Whoever got as far as the listener has sent the whole opening frame. */
  predicate Dialled(s: State) {
    && (s.sv.listener != Waiting && s.sv.listener != Dropped ==> s.cl.dial == Opened || s.cl.dial == Announced)
    && (s.sv.listener == Waiting && s.cl.dial == OpenFailed ==> s.up.cr.car != Preamble(s))
  }

  predicate Live(s: State) {
    && Ending(s.cl.side, s.down) && Ending(s.sv.side, s.up)
    && Switching(s) && Dialled(s)
    && Count(s.up.mx.items, Offer) == 0
  }

  lemma RecvStops(d: Dir, mv: Move)
    requires DirInv(d) && IsRecv(mv) && Enabled(d, mv)
    ensures var d' := Do(d, mv); d'.rx.pump.Stopped? && !d'.rx.rhc ==> d.rx.pump.Stopped? && !d.rx.rhc
  {
    RecvKinds(mv);
    if KindOf(mv).OffMux? {
      Effects(d, mv);
      hide DirInv, DoOnMux, DoOnB, DoOffB, CanOnMux, CanOnB, CanOffB;
    } else {
      hide Flow, Tally, Pumped, Shape, DoOnMux, DoOnB, DoOffMux, CanOnMux, CanOnB, CanOffMux;
    }
  }

  lemma ActKeepsEnding(e: End, a: Act, idle: bool, broke: bool)
    requires CanAct(e, a, idle, broke) && DirInv(e.i) && Ending(e.side, e.i)
    ensures var e' := DoAct(e, a, idle, broke); Ending(e'.side, e'.i)
  {
    ActIn(e, a, idle, broke);
    hide Do, Enabled, ShutOut, IsSend, Noting, DirInv, Swallows;
    match a
    case Send(_) =>
    case Recv(mv) => RecvStops(e.i, mv);
    case Reset(k) => LostMarks(e.i, k);
    case CloseWrite =>
    case CloseWriteDone =>
    case Die =>
    case DiePipe => ClosePipeEffect(e.i);
    case DieLook =>
    case DieCas =>
    case DieShut =>
    case DieArm =>
    case DieReleased =>
    case SendFin(_) =>
    case TakeFin => TakeNoteEffect(e.i);
    case FinDone =>
    case OnceEnter(_) =>
    case OnceClose =>
    case OnceNoConn =>
    case OnceDone =>
    case PumpGaveUp => StopEffect(e.i);
  }

  lemma ActKeepsEnded(e: End, a: Act, idle: bool, broke: bool)
    requires CanAct(e, a, idle, broke) && e.side.die == Ended
    ensures DoAct(e, a, idle, broke).side.die == Ended
  {
    hide Do, Enabled, ShutOut, IsSend, IsRecv, IsTake, IsFetch, Noting;
    match a
    case Send(_) =>
    case Recv(_) =>
    case Reset(_) =>
    case CloseWrite =>
    case CloseWriteDone =>
    case SendFin(_) =>
    case TakeFin =>
    case FinDone =>
    case OnceEnter(_) =>
    case OnceClose =>
    case OnceNoConn =>
    case OnceDone =>
    case PumpGaveUp =>
  }

  lemma BothKeepsEnding(s: State, w: Who, a: Act)
    requires Inv(s) && Live(s) && Can(s, Both(w, a))
    ensures var s' := ApplyBoth(s, w, a); Ending(s'.cl.side, s'.down) && Ending(s'.sv.side, s'.up)
  {
    hide Inv, Switching, Dialled, Count;
    var e, idle, broke := Ends(s, w), RecvIdle(s, w), OpenBroke(s, w);
    assert DirInv(e.i) by {
      BothDirs(s);
    }
    ActKeepsEnding(e, a, idle, broke);
    ActOut(e, a, idle, broke);
    TapKeepsWiring(s, w, a);
    TapKeepsSide(s, w, a);
    hide CanAct, DoAct, ApplyBoth, Can, DirInv, Ending;
    EndingIsPumps(if w.Cl? then s.sv.side else s.cl.side, e.o, DoAct(e, a, idle, broke).o);
  }

  lemma BothDirs(s: State)
    requires Inv(s)
    ensures DirInv(s.up) && DirInv(s.down) && WireInv(s)
  {
  }

  lemma BothKeepsSwitching(s: State, w: Who, a: Act)
    requires Switching(s) && Can(s, Both(w, a)) && DirInv(s.up) && DirInv(s.down)
    ensures Switching(ApplyBoth(s, w, a))
  {
    var e, idle, broke := Ends(s, w), RecvIdle(s, w), OpenBroke(s, w);
    ActOut(e, a, idle, broke);
    ActIn(e, a, idle, broke);
    if e.side.die == Ended {
      ActKeepsEnded(e, a, idle, broke);
    }
    TapKeepsWiring(s, w, a);
    TapKeepsSide(s, w, a);
    hide CanAct, DoAct, ApplyBoth, Can, Swallows;
  }

  lemma BothKeepsDialled(s: State, w: Who, a: Act)
    requires Inv(s) && Dialled(s) && Can(s, Both(w, a))
    ensures Dialled(ApplyBoth(s, w, a))
  {
    BothDirs(s);
    WaitingWire(s);
    hide Inv, Preamble, WireInv;
    ActWire(Ends(s, w), a, RecvIdle(s, w), OpenBroke(s, w));
    TapKeepsWiring(s, w, a);
    hide CanAct, DoAct, ApplyBoth, Can, DirInv;
    var s' := ApplyBoth(s, w, a);
    SamePreamble(s, s');
    if s.sv.listener == Waiting && s.cl.dial == OpenFailed {
      assert s'.up.cr.car <= s.up.cr.car;
      StillShort(s'.up.cr.car, s.up.cr.car, Preamble(s));
    }
  }

  lemma WaitingWire(s: State)
    requires WireInv(s)
    ensures s.sv.listener == Waiting ==> !s.up.tx.diverted && s.up.cr.car <= Preamble(s)
  {
    hide Preamble;
  }

  lemma StillShort(x: seq<byte>, y: seq<byte>, z: seq<byte>)
    requires x <= y <= z && y != z
    ensures x != z
  {
  }

  lemma BothOffersUp(s: State, w: Who, a: Act)
    requires Can(s, Both(w, a))
    ensures Count(ApplyBoth(s, w, a).up.mx.items, Offer) <= Count(s.up.mx.items, Offer)
  {
    ActKeepsOffers(Ends(s, w), a, RecvIdle(s, w), OpenBroke(s, w));
    TapKeepsWiring(s, w, a);
    hide CanAct, DoAct, ApplyBoth, Can, Count;
  }

  lemma BothKeepsLive(s: State, w: Who, a: Act)
    requires Inv(s) && Live(s) && Can(s, Both(w, a))
    ensures Live(ApplyBoth(s, w, a))
  {
    hide Inv, Ending, Switching, Dialled, ApplyBoth, Can, Count;
    BothKeepsEnding(s, w, a);
    BothDirs(s);
    BothKeepsSwitching(s, w, a);
    BothKeepsDialled(s, w, a);
    BothOffersUp(s, w, a);
  }

  lemma SamePreamble(s: State, s': State)
    requires s'.sid == s.sid && s'.token == s.token && s'.cl.filler == s.cl.filler && s'.cl.dial == s.cl.dial
    ensures Preamble(s') == Preamble(s)
  {
  }

  lemma EndingIsPumps(sd: Side, i: Dir, i': Dir)
    requires Ending(sd, i) && i'.rx == i.rx
    ensures Ending(sd, i')
  {
  }

  /** What the client's own steps do to its own counters. */
  lemma ClientPcs(s: State, a: ClientAct)
    requires CanClient(s, a)
    ensures var c, c' := s.cl, ApplyClient(s, a).cl;
            && (c'.goSeen <==> c.goSeen || (a.TakeGo? && !a.late)) && (c'.cut == Done <==> c.cut == Done || a.Spawn?)
            && (a.TakeGo? && a.late ==> c.side.die == Ended)
            && c'.dial == (match a case Dialled(ok) => if ok then Connected else DialFailed
                                   case Publish => Published case Announce => Announced
                                   case TakeOffer(late) => if late then c.dial else Asked
                                   case OpenB(_) => Opened case OpenBFail(_, _) => OpenFailed case _ => c.dial)
            && (c'.filler == c.filler || a.OpenB? || a.OpenBFail?)
  {
    hide Do, Enabled, Preload, Opening, ClientIdle;
    match a
    case TakeOffer(_) =>
    case Dialled(_) =>
    case Publish =>
    case OpenB(_) =>
    case OpenBFail(_, _) =>
    case Announce =>
    case TakeGo(_) =>
    case LoadReady(_) =>
    case LoadGo(_) =>
    case Commit(_, _) =>
    case Spawn(_) =>
    case Skip(_) =>
  }

  lemma ClientKeepsSwitching(s: State, a: ClientAct)
    requires Switching(s) && CanClient(s, a)
    ensures Switching(ApplyClient(s, a))
  {
    ClientTouch(s, a);
    ClientPcs(s, a);
    hide ApplyClient, CanClient;
  }

  lemma ClientKeepsEnding(s: State, a: ClientAct)
    requires Ending(s.cl.side, s.down) && Ending(s.sv.side, s.up) && CanClient(s, a)
    ensures var s' := ApplyClient(s, a); Ending(s'.cl.side, s'.down) && Ending(s'.sv.side, s'.up)
  {
    ClientTouch(s, a);
    if a.Spawn? {
      hide Do, Enabled;
      StartEffect(s.down);
    } else {
      SpawnOnly(s, a);
      hide ApplyClient, CanClient;
    }
  }

  lemma SpawnOnly(s: State, a: ClientAct)
    requires CanClient(s, a) && !a.Spawn?
    ensures ApplyClient(s, a).down.rx.pump == s.down.rx.pump
  {
    hide Do, Enabled, Preload, Opening, ClientIdle, Diverting;
    match a
    case TakeOffer(_) => TakeNoteEffect(s.down);
    case Dialled(_) =>
    case Publish =>
    case OpenB(_) =>
    case OpenBFail(_, _) =>
    case Announce =>
    case TakeGo(_) => BarrierEffect(s.down);
    case LoadReady(_) =>
    case LoadGo(_) =>
    case Commit(_, _) =>
    case Skip(_) =>
  }

  lemma ClientKeepsDialled(s: State, a: ClientAct)
    requires Inv(s) && Dialled(s) && CanClient(s, a)
    ensures Dialled(ApplyClient(s, a))
  {
    if a.TakeOffer? {
      OfferFindsIdleDialer(s, a.late);
    }
    hide DirInv, CutInv, GateInv, OfferInv, OnceInv, Lively, Opening, Do, Enabled, ClientIdle;
    if a.OpenBFail? {
      FailedOpening(s, a.filler, a.k);
      OpenKeepsDialled(s, a);
    } else if a.OpenB? {
      OpenKeepsDialled(s, a);
    } else {
      hide ApplyClient, CanClient, WireInv, Preamble, Config;
      ClientTouch(s, a);
      ClientPcs(s, a);
      OpenBOnly(s, a);
      if s.sv.listener == Waiting && s.cl.dial == OpenFailed {
        SamePreamble(s, ApplyClient(s, a));
      }
    }
  }

  lemma OpenKeepsDialled(s: State, a: ClientAct)
    requires Dialled(s) && CanClient(s, a) && (a.OpenB? || a.OpenBFail?)
    requires a.OpenBFail? && s.sv.listener == Waiting ==> ApplyClient(s, a).up.cr.car != Preamble(ApplyClient(s, a))
    ensures Dialled(ApplyClient(s, a))
  {
    hide Do, Enabled, Opening, Preload, Preamble;
  }

  lemma OpenBOnly(s: State, a: ClientAct)
    requires CanClient(s, a) && !a.OpenB? && !a.OpenBFail?
    ensures var s' := ApplyClient(s, a); s'.up.cr == s.up.cr && s'.sid == s.sid && s'.token == s.token
  {
    hide Do, Enabled, Preload, Opening, ClientIdle, Diverting;
    match a
    case TakeOffer(_) =>
    case Dialled(_) =>
    case Publish =>
    case Announce =>
    case TakeGo(_) =>
    case LoadReady(_) =>
    case LoadGo(_) =>
    case Commit(_, how) => if s.cl.side.die == Alive { DivertMarks(s.up, how); }
    case Spawn(_) =>
    case Skip(_) =>
  }

  lemma FailedOpening(s: State, filler: seq<byte>, k: nat)
    requires WireInv(s) && CanClient(s, OpenBFail(filler, k))
    ensures var s' := ApplyClient(s, OpenBFail(filler, k)); s.sv.listener == Waiting ==> s'.up.cr.car != Preamble(s')
  {
    OpeningIsPreamble(s, OpenBFail(filler, k));
    var w := Opening(s.sid, s.token, filler);
    assert |w| > 0;
    hide Opening, Do;
    PreloadEffect(s, w[..k]);
    hide Preload;
    assert |w[..k]| < |w|;
  }

  lemma ClientKeepsLive(s: State, a: ClientAct)
    requires Inv(s) && Live(s) && CanClient(s, a)
    ensures Live(ApplyClient(s, a))
  {
    ClientKeepsEnding(s, a);
    ClientKeepsSwitching(s, a);
    ClientKeepsDialled(s, a);
    ClientOffersUp(s, a);
    hide Inv, Ending, Switching, Dialled, ApplyClient, CanClient, Count;
  }

  lemma ClientOffersUp(s: State, a: ClientAct)
    requires CanClient(s, a)
    ensures Count(ApplyClient(s, a).up.mx.items, Offer) <= Count(s.up.mx.items, Offer)
  {
    hide Do, Preload, Count, Opening, ClientIdle;
    match a
    case TakeOffer(_) =>
    case Dialled(_) =>
    case Publish =>
    case OpenB(filler) => PreloadEffect(s, Opening(s.sid, s.token, filler));
    case OpenBFail(filler, k) => PreloadEffect(s, Opening(s.sid, s.token, filler)[..k]);
    case Announce =>
    case TakeGo(_) =>
    case LoadReady(_) =>
    case LoadGo(_) =>
    case Commit(_, how) => if s.cl.side.die == Alive { OfferEffect(s.up, Diverting(how)); }
    case Spawn(_) =>
    case Skip(_) =>
  }

  lemma ServerKeepsPumps(s: State, a: ServerAct)
    requires Inv(s) && Ending(s.cl.side, s.down) && Ending(s.sv.side, s.up) && Switching(s) && CanServer(s, a)
    ensures var s' := ApplyServer(s, a); Ending(s'.cl.side, s'.down) && Ending(s'.sv.side, s'.up) && Switching(s')
  {
    ServerTouch(s, a);
    hide Inv;
    UplinkPump(s, a);
    LateIsEnded(s, a);
    hide ApplyServer, CanServer;
  }

  lemma LateIsEnded(s: State, a: ServerAct)
    requires CanServer(s, a)
    ensures a.TakeUplinkFin? && a.late ==> s.sv.side.die == Ended
  {
    hide Do, Enabled, Inspect, ServerIdle;
  }

  lemma UplinkPump(s: State, a: ServerAct)
    requires CanServer(s, a)
    ensures var p := ApplyServer(s, a).up.rx.pump; p == s.up.rx.pump || p == Reading
  {
    hide Do, Enabled, Inspect, BeginUplink, TapUplink, ShutOut, Noting, Diverting, ServerIdle;
    match a
    case BeginPayload =>
    case TapUp(_) =>
    case Win =>
    case Register =>
    case SendOffer(_) =>
    case Expire =>
    case Accept => SetCarEffect(s.up, Inspect(s.up.cr.car).rest);
    case AcceptUnknown => SetCarEffect(s.up, []);
    case AcceptFail => SetCarEffect(s.up, []);
    case Attach(_) =>
    case Refuse =>
    case CloseRefused =>
    case TakeUplinkFin(late) =>
      BarrierEffect(s.up);
      BeginUplinkEffect(Do(s.up, TakeBarrier), !late && s.sv.side.conn);
  }

  /** Only a whole opening frame is claimed, and a dial that failed has not sent one. */
  lemma ClaimedWasOpened(s: State)
    requires Config(s.sid, s.token) && WireInv(s) && Dialled(s) && Presented(s)
    ensures s.cl.dial == Opened || s.cl.dial == Announced
  {
    hide Opening;
    assert |s.up.cr.car| >= HEADER_SIZE;
    hide Inspect;
    InspectPrefix(s.sid, s.token, s.cl.filler, s.up.cr.car);
  }

  lemma ServerKeepsDialled(s: State, a: ServerAct)
    requires Inv(s) && Dialled(s) && CanServer(s, a)
    ensures Dialled(ApplyServer(s, a))
  {
    if a.Accept? {
      ClaimedWasOpened(s);
    }
    hide Inv, Do, Enabled, Inspect, BeginUplink, TapUplink, ShutOut, Noting, Diverting, ServerIdle, Opening, Preamble;
    SamePreamble(s, ApplyServer(s, a));
    match a
    case BeginPayload =>
    case TapUp(p) => TapUplinkEffect(s.sv, p);
    case Win =>
    case Register =>
    case SendOffer(_) =>
    case Expire =>
    case Accept =>
    case AcceptUnknown =>
    case AcceptFail =>
    case Attach(_) =>
    case Refuse =>
    case CloseRefused =>
    case TakeUplinkFin(late) =>
      BarrierEffect(s.up);
      BeginUplinkEffect(Do(s.up, TakeBarrier), !late && s.sv.side.conn);
  }

  lemma ServerOffersUp(s: State, a: ServerAct)
    requires CanServer(s, a)
    ensures Count(ApplyServer(s, a).up.mx.items, Offer) <= Count(s.up.mx.items, Offer)
  {
    hide Do, Inspect, BeginUplink, TapUplink, ShutOut, Count, Noting, Diverting, ServerIdle;
    match a
    case BeginPayload =>
    case TapUp(_) =>
    case Win =>
    case Register =>
    case SendOffer(_) =>
    case Expire =>
    case Accept => SetCarEffect(s.up, Inspect(s.up.cr.car).rest);
    case AcceptUnknown => SetCarEffect(s.up, []);
    case AcceptFail => SetCarEffect(s.up, []);
    case Attach(_) =>
    case Refuse =>
    case CloseRefused =>
    case TakeUplinkFin(late) =>
      BarrierEffect(s.up);
      CountTail(s.up.mx.items);
      BeginUplinkEffect(Do(s.up, TakeBarrier), !late && s.sv.side.conn);
  }

  lemma ServerKeepsLive(s: State, a: ServerAct)
    requires Inv(s) && Live(s) && CanServer(s, a)
    ensures Live(ApplyServer(s, a))
  {
    ServerKeepsPumps(s, a);
    ServerKeepsDialled(s, a);
    ServerOffersUp(s, a);
    hide Inv, Ending, Switching, Dialled, ApplyServer, CanServer, Count;
  }

  lemma StepKeepsLive(s: State, st: Step)
    requires Inv(s) && Live(s) && Can(s, st)
    ensures Live(Apply(s, st))
  {
    hide Inv, Live, ApplyBoth, ApplyClient, ApplyServer, CanClient, CanServer, CanAct;
    match st
    case Both(w, a) => BothKeepsLive(s, w, a);
    case Client1(a) => ClientKeepsLive(s, a);
    case Server1(a) => ServerKeepsLive(s, a);
  }

  /** A state some run reaches, as far as what follows needs to know. */
  predicate Good(s: State) {
    Inv(s) && Live(s)
  }

  lemma {:induction false} RunKeepsGood(s: State, tr: seq<Step>)
    requires Good(s) && Runs(s, tr)
    ensures Good(After(s, tr))
    decreases tr
  {
    hide Inv, Live, Apply, Can;
    if tr != [] {
      StepKeeps(s, tr[0]);
      StepKeepsLive(s, tr[0]);
      RunKeepsGood(Apply(s, tr[0]), tr[1..]);
    }
  }

  lemma ReachedIsGood(c: Setup, tr: seq<Step>)
    requires IsRun(c, tr)
    ensures Good(Reached(c, tr))
  {
    StartHasInv(c.sid, c.token, c.minBulk, c.tlsOnly);
    assert Live(Boot(c));
    hide Inv, Live, Runs, After;
    RunKeepsGood(Boot(c), tr);
  }

  // ----- continuing a run --------------------------------------------------------------

  lemma {:induction false} Chain(s: State, a: seq<Step>, b: seq<Step>)
    requires Runs(s, a) && Runs(After(s, a), b)
    ensures Runs(s, a + b) && After(s, a + b) == After(After(s, a), b)
    decreases a
  {
    hide Can, Apply;
    if a == [] {
      assert a + b == b;
    } else {
      Chain(Apply(s, a[0]), a[1..], b);
      assert (a + b)[1..] == a[1..] + b;
    }
  }

  lemma One(s: State, st: Step)
    requires Can(s, st)
    ensures Runs(s, [st]) && After(s, [st]) == Apply(s, st)
  {
    hide Can, Apply;
    assert [st][1..] == [];
  }

  /** A shared step that is no mux write of the server changes its own end alone. */
  lemma OneAct(s: State, w: Who, a: Act)
    requires CanAct(Ends(s, w), a, RecvIdle(s, w), OpenBroke(s, w)) && !a.Send?
    ensures Runs(s, [Both(w, a)])
    ensures After(s, [Both(w, a)]) == PutEnd(s, w, DoAct(Ends(s, w), a, RecvIdle(s, w), OpenBroke(s, w)))
  {
    hide CanAct, DoAct, PutEnd, RecvIdle, OpenBroke, Ends;
    One(s, Both(w, a));
  }

  lemma PutPut(s: State, w: Who, e: End, e': End)
    ensures Ends(PutEnd(s, w, e), w) == e && PutEnd(PutEnd(s, w, e), w, e') == PutEnd(s, w, e')
    ensures PutEnd(s, w, Ends(s, w)) == s
  {
  }

  // ----- a dying stream ends -------------------------------------------------------------

  /** The next step of the thread inside dieOnce, or of the closeCarrier it waits for. */
  function Dies(sd: Side): (a: Act) {
    match sd.die
    case Stored => DiePipe
    case PipeShut => DieLook
    case SawCarrier => DieCas
    case Shutting => DieShut
    case Checked => DieArm
    case _ =>
      match sd.once
      case Idle => OnceEnter(StreamEnd)
      case Got(conn) => if conn then OnceClose else OnceNoConn
      case ConnShut => OnceDone
      case Released => DieReleased
  }

  function DieRank(sd: Side): (n: nat) {
    match sd.die
    case Alive => 9
    case Stored => 8
    case PipeShut => 7
    case SawMux => (match sd.once case Idle => 4 case Got(_) => 3 case ConnShut => 2 case Released => 1)
    case SawCarrier => 3
    case Shutting => 2
    case Checked => 1
    case Ended => 0
  }

  /** All that the end of a stream touches. */
  predicate OnlyEnds(e: End, e': End) {
    && e'.i.tx == e.i.tx && e'.i.mx == e.i.mx && e'.i.cr == e.i.cr
    && e'.i.rx.held == e.i.rx.held && e'.i.rx.pump == e.i.rx.pump && e'.i.rx.barTaken == e.i.rx.barTaken
    && e'.o.mx == e.o.mx && e'.o.rx == e.o.rx && e'.o.tx.diverted == e.o.tx.diverted
    && e'.side.finWait == e.side.finWait && e'.side.finSent == e.side.finSent && e'.side.conn == e.side.conn
  }

  /** ... and where it leads. */
  function Died(e: End): (e': End) {
    End(DiedSide(e.side, e.o.tx), DiedOut(e.side, e.o), DiedIn(e.side, e.i))
  }

  function DiedSide(sd: Side, o: TxSide): (sd': Side) {
    match sd.die
    case Stored => sd.(die := PipeShut)
    case PipeShut => sd.(die := if o.diverted then SawCarrier else SawMux)
    case SawCarrier => sd.(die := if o.whc then Checked else Shutting)
    case Shutting => sd.(die := Checked)
    case Checked => sd.(die := Ended, watchdog := true)
    case _ =>
      match sd.once
      case Idle => sd.(once := Got(sd.conn))
      case Got(conn) => sd.(once := ConnShut, gone := sd.gone || conn)
      case ConnShut => sd.(once := Released)
      case Released => sd.(die := Ended)
  }

  function DiedOut(sd: Side, o: Dir): (o': Dir) {
    if sd.die == SawCarrier then o.(tx := o.tx.(whc := true))
    else if sd.die == Shutting || (sd.die == SawMux && sd.once == Got(true))
    then o.(cr := o.cr.(fin := o.cr.fin || !o.cr.torn))
    else o
  }

  function DiedIn(sd: Side, i: Dir): (i': Dir) {
    if sd.die == Stored then i.(rx := i.rx.(pipeDone := true)) else i
  }

  lemma DiesTo(e: End, idle: bool, broke: bool)
    requires e.side.die != Alive && e.side.die != Ended
    ensures CanAct(e, Dies(e.side), idle, broke) && DoAct(e, Dies(e.side), idle, broke) == Died(e)
  {
    if e.side.die == SawMux {
      ReleasesTo(e, idle, broke);
    } else {
      DieStepTo(e, idle, broke);
    }
  }

  lemma DieStepTo(e: End, idle: bool, broke: bool)
    requires e.side.die != Alive && e.side.die != Ended && e.side.die != SawMux
    ensures CanAct(e, Dies(e.side), idle, broke) && DoAct(e, Dies(e.side), idle, broke) == Died(e)
  {
    hide Do, Enabled, ShutOut, IsSend, IsRecv, Noting;
    match e.side.die
    case Stored => ClosePipeEffect(e.i);
    case PipeShut =>
    case SawCarrier => RetireEffect(e.o);
    case Shutting => ShutOutEffect(e.o);
    case Checked =>
  }

  lemma ReleasesTo(e: End, idle: bool, broke: bool)
    requires e.side.die == SawMux
    ensures CanAct(e, Dies(e.side), idle, broke) && DoAct(e, Dies(e.side), idle, broke) == Died(e)
  {
    ShutOutEffect(e.o);
    hide Do, Enabled, ShutOut, IsSend, IsRecv, Noting;
    match e.side.once
    case Idle =>
    case Got(_) =>
    case ConnShut =>
    case Released =>
  }

  lemma DiedTouches(e: End)
    ensures OnlyEnds(e, Died(e))
  {
    SideTouched(e.side, e.o.tx);
    hide DiedSide;
  }

  lemma SideTouched(sd: Side, o: TxSide)
    ensures var sd' := DiedSide(sd, o);
            sd'.finWait == sd.finWait && sd'.finSent == sd.finSent && sd'.conn == sd.conn
  {
  }

  lemma DiedIsNearer(e: End)
    requires e.side.die != Alive && e.side.die != Ended
    ensures DieRank(Died(e).side) < DieRank(e.side) && Died(e).side.die != Alive
  {
    hide DiedOut, DiedIn;
  }

  lemma DiesOn(e: End, idle: bool, broke: bool)
    requires e.side.die != Alive && e.side.die != Ended
    ensures CanAct(e, Dies(e.side), idle, broke)
    ensures var e' := DoAct(e, Dies(e.side), idle, broke);
            OnlyEnds(e, e') && DieRank(e'.side) < DieRank(e.side) && e'.side.die != Alive
  {
    hide CanAct, DoAct, Dies, Died, OnlyEnds, DieRank;
    DiesTo(e, idle, broke);
    DiedTouches(e);
    DiedIsNearer(e);
  }

  lemma DiesIsNoSend(sd: Side)
    ensures !Dies(sd).Send?
  {
  }

  lemma OnlyEndsOn(a: End, b: End, c: End)
    requires OnlyEnds(a, b) && OnlyEnds(b, c)
    ensures OnlyEnds(a, c)
  {
  }

  /** The stream's own threads bring its end about, whatever the rest of the system does. */
  lemma {:induction false} EndsUp(s: State, w: Who) returns (more: seq<Step>, e: End)
    requires Ends(s, w).side.die != Alive
    ensures Runs(s, more) && After(s, more) == PutEnd(s, w, e)
    ensures e.side.die == Ended && OnlyEnds(Ends(s, w), e)
    decreases DieRank(Ends(s, w).side)
  {
    e := Ends(s, w);
    PutPut(s, w, e, e);
    if e.side.die == Ended {
      more := [];
    } else {
      var a := Dies(e.side);
      DiesOn(e, RecvIdle(s, w), OpenBroke(s, w));
      DiesIsNoSend(e.side);
      hide CanAct, DoAct, RecvIdle, OpenBroke, Dies, PutEnd, Runs, After, Ends, OnlyEnds, DieRank;
      OneAct(s, w, a);
      var e1 := DoAct(e, a, RecvIdle(s, w), OpenBroke(s, w));
      var t := PutEnd(s, w, e1);
      PutPut(s, w, e1, e1);
      var rest, e2 := EndsUp(t, w);
      PutPut(s, w, e1, e2);
      OnlyEndsOn(e, e1, e2);
      Chain(s, [Both(w, a)], rest);
      more, e := [Both(w, a)] + rest, e2;
    }
  }

  /** What has ended: the pipe is closed, and on B the write half is retired and the
      watchdog armed, or there was nothing to hold B by and waitCarrier is released. */
  predicate WhollyEnded(e: End) {
    && e.side.die == Ended && e.i.rx.pipeDone
    && if e.o.tx.diverted then e.o.tx.whc && e.side.watchdog else e.side.once == Released
  }

  lemma EndedIsWhole(s: State, w: Who)
    requires Good(s) && Ends(s, w).side.die == Ended
    ensures WhollyEnded(Ends(s, w))
  {
    hide DirInv, CutInv, GateInv, OfferInv, OnceInv, WireInv, Switching, Dialled, Count;
  }

  /** In every run: a stream that has begun to die, because it was closed, because a
      cmdFIN was taken, or because its feeder gave up, never comes back, and its own
      steps end it wholly. */
  lemma DyingEnds(c: Setup, tr: seq<Step>, w: Who)
    requires IsRun(c, tr) && Seen(Boot(c), tr, w, Dead)
    ensures forall more :: Runs(Reached(c, tr), more) ==> Ends(After(Reached(c, tr), more), w).side.die != Alive
    ensures exists more :: Runs(Reached(c, tr), more) && WhollyEnded(Ends(After(Reached(c, tr), more), w))
  {
    var s := Reached(c, tr);
    ReachedIsGood(c, tr);
    FlagsAreEvents(c, tr, w, Dead);
    forall more | Runs(s, more) ensures Ends(After(s, more), w).side.die != Alive {
      FlagsLast(c, tr, more, w, Dead);
    }
    hide IsRun, Reached, Seen, Good;
    var more, e := EndsUp(s, w);
    RunKeepsGood(s, more);
    PutPut(s, w, e, e);
    EndedIsWhole(After(s, more), w);
  }

  /** In every run: after a clean end of B the pipe is closed as soon as the feeder has
      stopped, which it can always do, and only a feeder that met an error has made the
      stream die. */
  lemma CleanEndClosesPipe(c: Setup, tr: seq<Step>, w: Who)
    requires IsRun(c, tr)
    ensures var e := Ends(Reached(c, tr), w);
            && (e.i.rx.rhc && e.i.rx.pump.Stopped? ==> e.i.rx.pipeDone)
            && (e.i.rx.pump.Stopped? && !e.i.rx.rhc ==> e.side.die != Alive)
            && (e.i.rx.rhc ==> exists more :: Runs(Reached(c, tr), more) &&
                                              Ends(After(Reached(c, tr), more), w).i.rx.pipeDone)
  {
    var s := Reached(c, tr);
    ReachedIsGood(c, tr);
    hide IsRun, Reached;
    FeederRests(s, w);
    if Ends(s, w).i.rx.rhc {
      var more := FeederCloses(s, w);
    }
  }

  lemma FeederRests(s: State, w: Who)
    requires Good(s)
    ensures var e := Ends(s, w);
            && DirInv(e.i) && (e.i.rx.rhc && e.i.rx.pump.Stopped? ==> e.i.rx.pipeDone)
            && (e.i.rx.rhc ==> e.i.rx.pump.EofMarked? || e.i.rx.pump.Stopped?)
            && (e.i.rx.pump.Stopped? && !e.i.rx.rhc ==> e.side.die != Alive)
  {
    hide Lively, CutInv, GateInv, OfferInv, OnceInv, WireInv, Switching, Dialled, Count, Flow, Tally, Shape;
  }

  lemma FeederCloses(s: State, w: Who) returns (more: seq<Step>)
    requires Good(s) && Ends(s, w).i.rx.rhc
    ensures Runs(s, more) && Ends(After(s, more), w).i.rx.pipeDone
  {
    FeederRests(s, w);
    hide Good, DirInv;
    var e := Ends(s, w);
    if e.i.rx.pump.Stopped? {
      more := [];
    } else {
      WriterCloses(e, RecvIdle(s, w), OpenBroke(s, w));
      hide CanAct, DoAct, PutEnd, RecvIdle, OpenBroke, Runs, After, Ends;
      more := [Both(w, Recv(CloseWriter))];
      var e' := DoAct(e, Recv(CloseWriter), RecvIdle(s, w), OpenBroke(s, w));
      OneAct(s, w, Recv(CloseWriter));
      PutPut(s, w, e', e');
    }
  }

  lemma WriterCloses(e: End, idle: bool, broke: bool)
    requires e.i.rx.pump.EofMarked?
    ensures CanAct(e, Recv(CloseWriter), idle, broke)
    ensures DoAct(e, Recv(CloseWriter), idle, broke).i.rx.pipeDone
  {
    ClosesPipe(e.i);
    hide Do, Enabled;
  }

  lemma ClosesPipe(d: Dir)
    requires d.rx.pump.EofMarked?
    ensures Enabled(d, CloseWriter) && Do(d, CloseWriter) == d.(rx := d.rx.(pump := Stopped, pipeDone := true))
  {
    hide DoOnMux, DoOnB, DoOffMux;
  }

  // ----- the client's cut-over comes through ----------------------------------------------

  /** The next step of a thread inside maybeClientCutover, or of the one it waits for. */
  function Cuts(s: State, t: Thread): (a: ClientAct) {
    match CutOf(s.cl, t)
    case AtReady => LoadReady(t)
    case AtGo => LoadGo(t)
    case _ =>
      match s.cl.cut
      case NotRun => Commit(t, if s.up.mx.broken then Unsent else Sent)
      case Body(x) => Spawn(x)
      case Done => Skip(t)
  }

  function CutRank(c: Client, t: Thread): (n: nat) {
    match CutOf(c, t)
    case AtReady => 5
    case AtGo => 4
    case AtOnce => (match c.cut case NotRun => 3 case Body(_) => 2 case Done => 1)
    case _ => 0
  }

  /** The feeder, started or not. */
  predicate MayStart(d: Dir, d': Dir) {
    d' == d || (d.rx.pump.Off? && d' == d.(rx := d.rx.(pump := Reading)))
  }

  /** All that the cut-over touches on the client, besides the uplink it diverts. */
  predicate OnlyCuts(s: State, s': State) {
    && s'.sv == s.sv && s'.cl.side == s.cl.side && s'.cl.dial == s.cl.dial
    && s'.cl.bReady == s.cl.bReady && s'.cl.goSeen == s.cl.goSeen && MayStart(s.down, s'.down)
    && (s.cl.dialCut == Returned ==> s'.cl.dialCut == Returned)
    && (s.cl.recvCut == Returned ==> s'.cl.recvCut == Returned)
  }

  lemma OnlyCutsOn(a: State, b: State, c: State)
    requires OnlyCuts(a, b) && OnlyCuts(b, c)
    ensures OnlyCuts(a, c)
  {
  }

  lemma CanCut(s: State, t: Thread)
    requires CutInv(s.cl, s.up, s.down) && Calling(CutOf(s.cl, t))
    ensures CanClient(s, Cuts(s, t))
  {
    StartsWhen(s.down);
    DivertsWhen(s.up);
    hide Enabled;
  }

  lemma DivertsWhen(d: Dir)
    ensures !d.tx.diverted ==> Enabled(d, Diverting(if d.mx.broken then Unsent else Sent))
  {
  }

  lemma CutsOn(s: State, t: Thread)
    requires CanClient(s, Cuts(s, t)) && Calling(CutOf(s.cl, t))
    ensures var s' := ApplyClient(s, Cuts(s, t)); CutRank(s'.cl, t) < CutRank(s.cl, t) && CutOf(s'.cl, t) != NotCalled
  {
    hide Do, Enabled, Preload, Opening, ClientIdle, Diverting, Config;
    match CutOf(s.cl, t)
    case AtReady =>
    case AtGo =>
    case AtOnce =>
  }

  lemma CutsOnly(s: State, t: Thread)
    requires CanClient(s, Cuts(s, t))
    ensures OnlyCuts(s, ApplyClient(s, Cuts(s, t)))
  {
    hide Do, Preload, Opening, ClientIdle, Diverting, Config;
    match Cuts(s, t)
    case LoadReady(_) =>
    case LoadGo(_) =>
    case Commit(_, _) =>
    case Spawn(_) => StartEffect(s.down);
    case Skip(_) =>
  }

  lemma {:induction false} CutRuns(s: State, t: Thread) returns (more: seq<Step>)
    requires Good(s) && CutOf(s.cl, t) != NotCalled
    ensures Runs(s, more) && OnlyCuts(s, After(s, more)) && CutOf(After(s, more).cl, t) == Returned
    decreases CutRank(s.cl, t)
  {
    if CutOf(s.cl, t) == Returned {
      more := [];
    } else {
      hide Good, ApplyClient, CanClient, Cuts, CutRank, OnlyCuts, CutInv, DirInv;
      var st := Client1(Cuts(s, t));
      CutOfGood(s);
      CanCut(s, t);
      CutsOn(s, t);
      CutsOnly(s, t);
      One(s, st);
      RunKeepsGood(s, [st]);
      hide Runs, After;
      var s1 := Apply(s, st);
      var rest := CutRuns(s1, t);
      Chain(s, [st], rest);
      OnlyCutsOn(s, s1, After(s1, rest));
      more := [st] + rest;
    }
  }

  lemma CutOfGood(s: State)
    requires Good(s)
    ensures CutInv(s.cl, s.up, s.down) && DirInv(s.up) && DirInv(s.down)
  {
    hide DirInv, CutInv, Live, Lively, GateInv, OfferInv, OnceInv, WireInv;
  }

  // ----- recvLoop gets through -------------------------------------------------------------

  /** What stays the same for a live stream while its incoming mux is worked off. */
  predicate Kept(e: End, e': End) {
    && e'.side.die == Alive && e'.side.gone == e.side.gone && Stage(e'.i) == Stage(e.i)
    && e'.i.tx == e.i.tx && e'.i.cr == e.i.cr && e'.i.mx.barriers == e.i.mx.barriers
    && (e'.i.rx.pump == e.i.rx.pump || (e.i.rx.pump.Off? && e'.i.rx.pump == Reading))
    && e'.i.rx.rhc == e.i.rx.rhc && e'.i.rx.eof == e.i.rx.eof
  }

  lemma KeptOn(a: End, b: End, c: End)
    requires Kept(a, b) && Kept(b, c)
    ensures Kept(a, c)
  {
    hide Stage;
  }

  lemma KeptSelf(e: End)
    requires e.side.die == Alive
    ensures Kept(e, e)
  {
    hide Stage;
  }

  /** Between frames: recvLoop is idle again, no frame was taken, nothing else moved. */
  predicate Ready1(s: State, s': State, w: Who) {
    var e, e' := Ends(s, w), Ends(s', w);
    && RecvIdle(s', w) && e'.i.mx == e.i.mx && Ends(s', Other(w)).side == Ends(s, Other(w)).side
    && (e.side.die != Alive ==> e'.side.die != Alive) && (e.side.die == Alive ==> Kept(e, e'))
  }

  function Other(w: Who): (o: Who) {
    if w.Cl? then Sv else Cl
  }

  /** The reader takes what recvLoop holds. */
  lemma HandsOver(s: State, w: Who) returns (more: seq<Step>)
    ensures Runs(s, more)
    ensures var e, e' := Ends(s, w), Ends(After(s, more), w);
            && After(s, more) == PutEnd(s, w, e') && e'.side == e.side && e'.o == e.o
            && e'.i.rx.held == [] && e'.i.mx == e.i.mx && (e.side.die == Alive ==> Kept(e, e'))
  {
    var e := Ends(s, w);
    var a := Recv(Hand(|e.i.rx.held|));
    HandsAtEnd(e, RecvIdle(s, w), OpenBroke(s, w));
    hide CanAct, DoAct, PutEnd, RecvIdle, OpenBroke, Runs, After, Ends, Kept;
    more := [Both(w, a)];
    OneAct(s, w, a);
    var e' := DoAct(e, a, RecvIdle(s, w), OpenBroke(s, w));
    PutPut(s, w, e', e');
  }

  lemma HandsAtEnd(e: End, idle: bool, broke: bool)
    ensures var a := Recv(Hand(|e.i.rx.held|));
            && CanAct(e, a, idle, broke)
            && var e' := DoAct(e, a, idle, broke);
               && e'.side == e.side && e'.o == e.o && e'.i.rx.held == [] && e'.i.mx == e.i.mx
               && (e.side.die == Alive ==> Kept(e, e'))
  {
    HandsAll(e.i);
    hide Do, Enabled, Stage;
  }

  lemma HandsAll(d: Dir)
    ensures var d' := Do(d, Hand(|d.rx.held|));
            && Enabled(d, Hand(|d.rx.held|)) && d'.rx.held == [] && d'.mx == d.mx && Stage(d') == Stage(d)
            && d'.tx == d.tx && d'.cr == d.cr && d'.rx.pump == d.rx.pump && d'.rx.rhc == d.rx.rhc
            && d'.rx.eof == d.rx.eof
  {
    hide DoOnMux, DoOnB, DoOffB;
    HandStage(d, |d.rx.held|);
  }

  /** recvLoop leaves closeLocally once the stream has ended. */
  lemma LeavesFin(s: State, w: Who) returns (more: seq<Step>, e: End)
    requires Ends(s, w).side.finWait && Ends(s, w).side.die != Alive
    ensures Runs(s, more) && After(s, more) == PutEnd(s, w, e)
    ensures !e.side.finWait && e.side.die != Alive && e.i.mx == Ends(s, w).i.mx && e.i.rx.held == Ends(s, w).i.rx.held
  {
    var m1, e1 := EndsUp(s, w);
    var t := PutEnd(s, w, e1);
    PutPut(s, w, e1, e1);
    OneAct(t, w, FinDone);
    e := DoAct(e1, FinDone, RecvIdle(t, w), OpenBroke(t, w));
    assert e == e1.(side := e1.side.(finWait := false));
    hide CanAct, DoAct, PutEnd, Runs, After, RecvIdle, OpenBroke;
    PutPut(s, w, e1, e);
    Chain(s, m1, [Both(w, FinDone)]);
    more := m1 + [Both(w, FinDone)];
  }

  lemma FinWaitIsDying(s: State, w: Who)
    requires Good(s)
    ensures Ends(s, w).side.finWait ==> Ends(s, w).side.die != Alive
    ensures s.cl.recvCut == NotCalled || s.cl.recvCut == Returned || Calling(s.cl.recvCut)
  {
    hide Inv, Switching, Dialled, Count;
  }

  /** The part of recvLoop that both sides have. */
  lemma HandsAndLeaves(s: State, w: Who) returns (more: seq<Step>)
    requires Good(s)
    ensures Runs(s, more)
    ensures var e, e', s' := Ends(s, w), Ends(After(s, more), w), After(s, more);
            && s' == PutEnd(s, w, e') && e'.i.rx.held == [] && !e'.side.finWait && e'.i.mx == e.i.mx
            && (e.side.die != Alive ==> e'.side.die != Alive) && (e.side.die == Alive ==> Kept(e, e'))
  {
    FinWaitIsDying(s, w);
    hide Good, Kept;
    more := HandsOver(s, w);
    var e1 := Ends(After(s, more), w);
    if e1.side.finWait {
      hide Runs, After;
      var t := After(s, more);
      var rest, e2 := LeavesFin(t, w);
      PutPut(s, w, e1, e2);
      Chain(s, more, rest);
      more := more + rest;
    }
  }

  lemma GetsIdle(s: State, w: Who) returns (more: seq<Step>)
    requires Good(s)
    ensures Runs(s, more) && Ready1(s, After(s, more), w)
  {
    more := HandsAndLeaves(s, w);
    var t := After(s, more);
    OtherStays(s, w, Ends(t, w));
    if w.Cl? && t.cl.recvCut != NotCalled && t.cl.recvCut != Returned {
      RunKeepsGood(s, more);
      hide Good, Runs, After, OnlyCuts, Kept;
      var rest := CutRuns(t, Receiver);
      CutsAreReady(s, t, After(t, rest));
      Chain(s, more, rest);
      more := more + rest;
    }
  }

  lemma OtherStays(s: State, w: Who, e: End)
    ensures Ends(PutEnd(s, w, e), Other(w)).side == Ends(s, Other(w)).side
  {
  }

  lemma CutsAreReady(s: State, t: State, s': State)
    requires OnlyCuts(t, s') && s'.cl.recvCut == Returned && t.down.rx.held == [] && !t.cl.side.finWait
    requires var e, e' := Ends(s, Cl), Ends(t, Cl);
             && e'.i.mx == e.i.mx && (e.side.die != Alive ==> e'.side.die != Alive) && t.sv.side == s.sv.side
             && (e.side.die == Alive ==> Kept(e, e'))
    ensures Ready1(s, s', Cl)
  {
    if s.cl.side.die == Alive {
      KeptStarts(Ends(s, Cl), Ends(t, Cl), Ends(s', Cl));
    }
    hide Kept;
  }

  lemma KeptStarts(e: End, a: End, b: End)
    requires Kept(e, a) && b.side == a.side && MayStart(a.i, b.i)
    ensures Kept(e, b)
  {
    assert Stage(b.i) == Stage(a.i);
    hide Stage;
  }

  // ----- one frame -----------------------------------------------------------------------------

  /** What taking the first frame off the mux leaves. */
  predicate TookHead(s: State, s': State, w: Who) {
    var e, e' := Ends(s, w), Ends(s', w);
    && e.i.mx.items != [] && e'.i.mx.items == e.i.mx.items[1..]
    && Ends(s', Other(w)).side == Ends(s, Other(w)).side
    && (e.side.die != Alive || e.i.mx.items[0].Fin? ==> e'.side.die != Alive)
    && (e.side.die == Alive && !e.i.mx.items[0].Fin? ==> Kept(e, e'))
  }

  lemma TakesFin(s: State, w: Who)
    requires RecvIdle(s, w) && Ends(s, w).i.rx.held == []
    requires Ends(s, w).i.mx.items != [] && Ends(s, w).i.mx.items[0].Fin?
    ensures Can(s, Both(w, TakeFin)) && TookHead(s, Apply(s, Both(w, TakeFin)), w)
  {
    var e := Ends(s, w);
    assert Enabled(e.i, TakeNote);
    TakeNoteEffect(e.i);
    hide Do, Enabled, Kept;
    var e' := DoAct(e, TakeFin, RecvIdle(s, w), OpenBroke(s, w));
    PutPut(s, w, e', e);
    OtherStays(s, w, e');
  }

  /** For a live stream a data frame finds the pipe open. */
  lemma LivePipeOpen(s: State, w: Who)
    requires Good(s) && Ends(s, w).side.die == Alive
    ensures var d := Ends(s, w).i;
            && DirInv(d) && (d.rx.pipeDone ==> d.rx.rhc && d.rx.pump.Stopped?)
            && (d.mx.items != [] && d.mx.items[0].Data? ==> !d.rx.pipeDone && d.rx.pumped == [])
  {
    hide CutInv, GateInv, OfferInv, OnceInv, WireInv, Live, Flow, Tally, Pumped;
    var d := Ends(s, w).i;
    if d.mx.items != [] && d.mx.items[0].Data? {
      DataMeansEarly(d);
    }
  }

  lemma DataMeansEarly(d: Dir)
    requires Shape(d) && d.mx.items != [] && d.mx.items[0].Data?
    ensures !d.rx.barTaken && d.rx.pump.Off? && d.rx.pumped == []
  {
    hide Sealed;
  }

  lemma TakesPayload(d: Dir)
    requires d.mx.items != [] && d.mx.items[0].Data? && d.rx.held == []
    ensures var mv := if d.mx.items[0].payload == [] || !d.rx.pipeDone then TakeData else TakeDrop;
            && Enabled(d, mv) && Do(d, mv).mx.items == d.mx.items[1..]
            && (mv.TakeData? && d.rx.pumped == [] ==> Stage(Do(d, mv)) == Stage(d))
            && (mv.TakeData? ==> var d' := Do(d, mv);
                  && d'.tx == d.tx && d'.cr == d.cr && d'.mx.barriers == d.mx.barriers
                  && d'.rx == d.rx.(held := d.mx.items[0].payload))
  {
    hide DoOnMux, DoOnB, DoOffB;
    if d.rx.pumped == [] {
      TakeMoves(d.rx.consumed, d.rx.held, d.rx.pumped, d.mx.items[0].payload, Payloads(d.mx.items[1..]));
    }
  }

  lemma TakesAtEnd(e: End, broke: bool) returns (mv: Move)
    requires e.i.mx.items != [] && e.i.mx.items[0].Data? && e.i.rx.held == []
    requires e.side.die == Alive ==> !e.i.rx.pipeDone && e.i.rx.pumped == []
    ensures CanAct(e, Recv(mv), true, broke)
    ensures var e' := DoAct(e, Recv(mv), true, broke);
            e'.i.mx.items == e.i.mx.items[1..] && e'.side == e.side && (e.side.die == Alive ==> Kept(e, e'))
  {
    mv := if e.i.mx.items[0].payload == [] || !e.i.rx.pipeDone then TakeData else TakeDrop;
    TakesPayload(e.i);
    hide Do, Enabled, Stage;
  }

  lemma TakesData(s: State, w: Who) returns (st: Step)
    requires Good(s) && RecvIdle(s, w) && Ends(s, w).i.rx.held == []
    requires Ends(s, w).i.mx.items != [] && Ends(s, w).i.mx.items[0].Data?
    ensures Can(s, st) && TookHead(s, Apply(s, st), w)
  {
    if Ends(s, w).side.die == Alive {
      LivePipeOpen(s, w);
    }
    hide Good, DirInv, CanAct, DoAct, Kept, PutEnd, RecvIdle, OpenBroke, Can, Apply;
    var mv := TakesAtEnd(Ends(s, w), OpenBroke(s, w));
    var e' := DoAct(Ends(s, w), Recv(mv), true, OpenBroke(s, w));
    st := Both(w, Recv(mv));
    ActIs(s, w, Recv(mv));
    PutPut(s, w, e', e');
    OtherStays(s, w, e');
  }

  lemma ActIs(s: State, w: Who, a: Act)
    requires CanAct(Ends(s, w), a, RecvIdle(s, w), OpenBroke(s, w)) && !a.Send?
    ensures Can(s, Both(w, a))
    ensures Apply(s, Both(w, a)) == PutEnd(s, w, DoAct(Ends(s, w), a, RecvIdle(s, w), OpenBroke(s, w)))
  {
    hide CanAct, DoAct, PutEnd, RecvIdle, OpenBroke, Ends;
  }

  lemma BarrierStage(d: Dir)
    requires Enabled(d, TakeBarrier) || Enabled(d, TakeNote)
    ensures var d' := d.(mx := d.mx.(items := d.mx.items[1..]), rx := d.rx.(barTaken := true));
            Stage(d') == Stage(d)
    ensures Stage(d.(mx := d.mx.(items := d.mx.items[1..]))) == Stage(d)
  {
    assert [] + Payloads(d.mx.items[1..]) == Payloads(d.mx.items[1..]);
  }

  lemma TakesGo(s: State)
    requires ClientIdle(s) && s.down.mx.items != [] && s.down.mx.items[0].Barrier?
    ensures Can(s, Client1(TakeGo(false))) && TookHead(s, Apply(s, Client1(TakeGo(false))), Cl)
  {
    assert Enabled(s.down, TakeBarrier);
    BarrierEffect(s.down);
    BarrierStage(s.down);
    hide Do, Enabled, Stage;
  }

  lemma TakesOffers(s: State)
    requires ClientIdle(s) && s.down.mx.items != [] && s.down.mx.items[0].Offer?
    ensures Can(s, Client1(TakeOffer(false))) && TookHead(s, Apply(s, Client1(TakeOffer(false))), Cl)
  {
    assert Enabled(s.down, TakeNote);
    TakeNoteEffect(s.down);
    BarrierStage(s.down);
    hide Do, Enabled, Stage;
  }

  lemma TakesUplinkFin(s: State)
    requires ServerIdle(s) && s.up.mx.items != [] && s.up.mx.items[0].Barrier?
    ensures Can(s, Server1(TakeUplinkFin(false))) && TookHead(s, Apply(s, Server1(TakeUplinkFin(false))), Sv)
  {
    assert Enabled(s.up, TakeBarrier);
    BarrierEffect(s.up);
    BarrierStage(s.up);
    var d := Do(s.up, TakeBarrier);
    BeginUplinkEffect(d, s.sv.side.conn);
    assert Stage(d.(rx := d.rx.(pump := Reading))) == Stage(d);
    hide Do, Enabled, BeginUplink, Stage;
  }

  lemma NoOfferUp(s: State)
    requires Live(s) && s.up.mx.items != []
    ensures !s.up.mx.items[0].Offer?
  {
    hide Ending, Switching, Dialled;
    CountTail(s.up.mx.items);
  }

  lemma TakesHead(s: State, w: Who) returns (st: Step)
    requires Good(s) && RecvIdle(s, w) && Ends(s, w).i.mx.items != []
    ensures Can(s, st) && TookHead(s, Apply(s, st), w)
  {
    hide Good, TookHead, Can, Apply;
    match Ends(s, w).i.mx.items[0]
    case Data(_) => st := TakesData(s, w);
    case Fin => TakesFin(s, w); st := Both(w, TakeFin);
    case Barrier =>
      if w.Cl? {
        TakesGo(s);
        st := Client1(TakeGo(false));
      } else {
        TakesUplinkFin(s);
        st := Server1(TakeUplinkFin(false));
      }
    case Offer =>
      if w.Cl? {
        TakesOffers(s);
        st := Client1(TakeOffer(false));
      } else {
        GoodIsLive(s);
        NoOfferUp(s);
        assert false;
      }
  }

  lemma GoodIsLive(s: State)
    requires Good(s)
    ensures Live(s)
  {
  }

  // ----- the mux never jams ---------------------------------------------------------------------

  predicate Drained(s: State, s': State, w: Who) {
    var e, e' := Ends(s, w), Ends(s', w);
    && RecvIdle(s', w) && e'.i.mx.items == [] && Ends(s', Other(w)).side == Ends(s, Other(w)).side
    && (e.side.die != Alive || Fin in e.i.mx.items ==> e'.side.die != Alive)
    && (e.side.die == Alive && Fin !in e.i.mx.items ==> Kept(e, e'))
  }

  lemma DrainedOn(s: State, a: State, b: State, s': State, w: Who)
    requires Ready1(s, a, w) && TookHead(a, b, w) && Drained(b, s', w)
    ensures Drained(s, s', w)
  {
    hide RecvIdle;
    var e, ea, eb, e' := Ends(s, w), Ends(a, w), Ends(b, w), Ends(s', w);
    var m := e.i.mx.items;
    assert Fin in m <==> m[0].Fin? || Fin in m[1..];
    if e.side.die == Alive && Fin !in m {
      hide Kept;
      KeptAlive(e, ea);
      KeptAlive(ea, eb);
      KeptOn(e, ea, eb);
      KeptOn(e, eb, e');
    }
  }

  lemma KeptAlive(e: End, e': End)
    requires Kept(e, e')
    ensures e'.side.die == Alive
  {
  }

  /** From every reached state recvLoop, with the readers, can work off the whole mux of
      either side. A pending cmdFIN makes the stream die; without one a live stream
      stays alive and keeps every byte. */
  lemma {:induction false} Drains(s: State, w: Who) returns (more: seq<Step>)
    requires Good(s)
    ensures Runs(s, more) && Drained(s, After(s, more), w)
    decreases |Ends(s, w).i.mx.items|
  {
    more := GetsIdle(s, w);
    var a := After(s, more);
    RunKeepsGood(s, more);
    if Ends(a, w).i.mx.items != [] {
      hide Good, Runs, After, Kept, Can, Apply, RecvIdle, Drained;
      var st := TakesHead(a, w);
      One(a, st);
      RunKeepsGood(a, [st]);
      var b := Apply(a, st);
      var rest := Drains(b, w);
      DrainedOn(s, a, b, After(b, rest), w);
      Chain(a, [st], rest);
      Chain(s, more, [st] + rest);
      more := more + ([st] + rest);
    }
  }

  // ----- carrierToPipe gets through -----------------------------------------------------------

  /** The next move of a feeder that has met no error. */
  function Feeds(d: Dir): (mv: Move) {
    match d.rx.pump
    case Reading => if d.cr.car != [] then Fetch(|d.cr.car|, More) else FetchEof
    case Handing(_) => if d.rx.pumped != [] then Feed(|d.rx.pumped|) else Next
    case AtEof => MarkEof
    case _ => CloseWriter
  }

  /** It waits for B, or has seen its end. */
  predicate Rested(d: Dir) {
    d.rx.pump.Stopped? || (d.rx.pump.Reading? && d.cr.car == [] && !(d.cr.fin && !d.cr.lost))
  }

  predicate Working(p: Pump) {
    !p.Off? && !p.AtError? && p != Handing(Broken)
  }

  function FeedRank(d: Dir): (n: nat) {
    (if d.cr.car != [] then 5 else 0) +
    match d.rx.pump
    case Handing(_) => if d.rx.pumped != [] then 5 else 4
    case Reading => 3
    case AtEof => 2
    case EofMarked => 1
    case _ => 0
  }

  /** What a feeder's move leaves alone. */
  predicate OnlyFeeds(d: Dir, d': Dir) {
    && d'.tx == d.tx && d'.mx == d.mx && d'.cr == d.cr.(car := d'.cr.car)
    && Stage(d') + d'.cr.car == Stage(d) + d.cr.car && Working(d'.rx.pump)
  }

  lemma FetchTo(d: Dir)
    requires d.rx.pump.Reading? && d.cr.car != [] && !d.rx.pipeDone
    ensures var mv := Fetch(|d.cr.car|, More);
            && Enabled(d, mv)
            && Do(d, mv) == d.(cr := d.cr.(car := []),
                               rx := d.rx.(pump := Handing(More), pumped := d.cr.car,
                                           fetched := d.rx.fetched + d.cr.car))
  {
    hide DoOnMux, DoOnB, DoOffMux;
    assert d.cr.car[..|d.cr.car|] == d.cr.car;
  }

  lemma FetchesAll(d: Dir)
    requires Core(d) && d.rx.pump.Reading? && d.cr.car != [] && !d.rx.pipeDone
    ensures var mv := Fetch(|d.cr.car|, More);
            Enabled(d, mv) && OnlyFeeds(d, Do(d, mv)) && FeedRank(Do(d, mv)) < FeedRank(d)
  {
    FetchTo(d);
    ReadingIsDry(d);
    hide Do, Enabled, Payloads, NoData, Core;
    var car := d.cr.car;
    assert d.rx.consumed + d.rx.held + car + [] + [] == d.rx.consumed + d.rx.held + [] + [] + car;
  }

  lemma ReadingIsDry(d: Dir)
    requires Core(d) && d.rx.pump.Reading?
    ensures d.rx.pumped == [] && Payloads(d.mx.items) == []
  {
    hide Flow, Closing, Sealed, Count, Payloads;
    NoDataNoPayload(d.mx.items);
  }

  lemma FeedsAll(d: Dir)
    requires Core(d) && d.rx.pump.Handing? && d.rx.pump.outcome != Broken && d.rx.pumped != []
    ensures var mv := Feed(|d.rx.pumped|);
            Enabled(d, mv) && OnlyFeeds(d, Do(d, mv)) && FeedRank(Do(d, mv)) < FeedRank(d)
  {
    hide CanOnMux, DoOnMux, CanOnB, DoOnB, CanOffMux, DoOffMux, Flow, Closing, Sealed, Count, NoData;
    FeedStage(d, |d.rx.pumped|);
    hide Stage;
  }

  lemma FeedsQuietly(d: Dir)
    requires Core(d) && Working(d.rx.pump) && !Rested(d) && !Feeds(d).Fetch? && !Feeds(d).Feed?
    ensures Enabled(d, Feeds(d)) && OnlyFeeds(d, Do(d, Feeds(d))) && FeedRank(Do(d, Feeds(d))) < FeedRank(d)
  {
    hide CanOnMux, DoOnMux, CanOnB, DoOnB, CanOffMux, DoOffMux, Flow, Sealed, Count, NoData, Payloads;
    match Feeds(d)
    case FetchEof =>
    case Next =>
    case MarkEof =>
    case CloseWriter =>
  }

  lemma FeedsOn(d: Dir)
    requires Core(d) && Working(d.rx.pump) && !Rested(d) && !d.rx.pipeDone
    ensures Enabled(d, Feeds(d)) && OnlyFeeds(d, Do(d, Feeds(d))) && FeedRank(Do(d, Feeds(d))) < FeedRank(d)
  {
    hide Core, Enabled, Do, OnlyFeeds, FeedRank;
    if Feeds(d).Fetch? {
      FetchesAll(d);
    } else if Feeds(d).Feed? {
      FeedsAll(d);
    } else {
      FeedsQuietly(d);
    }
  }

  lemma OnlyFeedsOn(a: Dir, b: Dir, c: Dir)
    requires OnlyFeeds(a, b) && OnlyFeeds(b, c)
    ensures OnlyFeeds(a, c)
  {
    hide Stage;
  }

  /** At rest, everything it had before it has been read. */
  lemma RestedIsEmpty(d: Dir)
    requires DirInv(d) && Rested(d) && !d.rx.pump.Off? && (d.rx.pump.Stopped? ==> d.rx.rhc)
    ensures d.rx.consumed == Stage(d) + d.cr.car
    ensures d.cr.fin && !d.cr.lost ==> d.rx.rhc && d.rx.pipeDone
  {
    hide Flow, Tally, Sealed, Count;
    NoDataNoPayload(d.mx.items);
  }

  lemma StoppedIsClean(s: State, w: Who)
    requires Good(s) && Ends(s, w).side.die == Alive
    ensures var d := Ends(s, w).i;
            && Core(d) && (d.rx.pump.Stopped? ==> d.rx.rhc) && (d.rx.pipeDone ==> d.rx.pump.Stopped?)
  {
    LivePipeOpen(s, w);
    hide CutInv, GateInv, OfferInv, OnceInv, WireInv, Switching, Dialled, Core, Tally, Pumped, Lively;
  }

  lemma {:induction false} FeedsOut(s: State, w: Who) returns (more: seq<Step>, d: Dir)
    requires Good(s) && Ends(s, w).side.die == Alive && !Ends(s, w).side.gone && Working(Ends(s, w).i.rx.pump)
    ensures Runs(s, more) && After(s, more) == PutEnd(s, w, Ends(s, w).(i := d))
    ensures OnlyFeeds(Ends(s, w).i, d) && Rested(d)
    decreases FeedRank(Ends(s, w).i)
  {
    var e := Ends(s, w);
    PutPut(s, w, e, e);
    if Rested(e.i) {
      more, d := [], e.i;
    } else {
      StoppedIsClean(s, w);
      var mv := Feeds(e.i);
      hide Core, OnlyFeeds, FeedRank;
      FeedsOn(e.i);
      FeedsIsRecv(e, mv, RecvIdle(s, w), OpenBroke(s, w));
      hide CanAct, DoAct, RecvIdle, OpenBroke, PutEnd, Runs, After, Ends, Feeds, Rested, Good, Do, Enabled, Working;
      var e1 := e.(i := Do(e.i, mv));
      OneAct(s, w, Recv(mv));
      RunKeepsGood(s, [Both(w, Recv(mv))]);
      PutPut(s, w, e1, e1);
      StillWorking(e.i, e1.i);
      var t := PutEnd(s, w, e1);
      var rest;
      rest, d := FeedsOut(t, w);
      PutPut(s, w, e1, e1.(i := d));
      OnlyFeedsOn(e.i, e1.i, d);
      Chain(s, [Both(w, Recv(mv))], rest);
      more := [Both(w, Recv(mv))] + rest;
    }
  }

  lemma StillWorking(d: Dir, d': Dir)
    requires OnlyFeeds(d, d')
    ensures Working(d'.rx.pump)
  {
  }

  lemma FeedsIsRecv(e: End, mv: Move, idle: bool, broke: bool)
    requires mv == Feeds(e.i) && Enabled(e.i, mv) && !e.side.gone
    ensures CanAct(e, Recv(mv), idle, broke) && DoAct(e, Recv(mv), idle, broke) == e.(i := Do(e.i, mv))
  {
    hide Do, Enabled;
  }

  // ----- the feeder starts --------------------------------------------------------------------------

  lemma BarrierArrived(s: State, w: Who)
    requires Good(s) && Ends(s, w).i.mx.barriers == 1 && Ends(s, w).i.mx.items == [] && Ends(s, w).side.die == Alive
    ensures w.Sv? ==> !s.up.rx.pump.Off?
    ensures w.Cl? ==> s.cl.goSeen && (s.cl.dial == Opened || s.cl.dial == Announced)
  {
    hide Flow, Closing, Tally, Pumped, Sealed, NoData, CutInv, GateInv, OfferInv, OnceInv, Lively, Preamble, Opening;
    assert Count([], Barrier) == 0;
  }

  lemma CutIsDone(s: State)
    requires Good(s) && s.cl.dialCut == Returned && s.cl.recvCut == Returned && s.cl.goSeen
    ensures !s.down.rx.pump.Off?
  {
    hide DirInv, GateInv, OfferInv, OnceInv, WireInv, Lively, Ending, Dialled, Count;
  }

  lemma GoMeansCalled(s: State)
    requires Good(s)
    ensures (s.cl.goSeen ==> s.cl.recvCut != NotCalled) && (s.cl.dial == Announced ==> s.cl.dialCut != NotCalled)
  {
    hide DirInv, GateInv, OfferInv, OnceInv, WireInv, Lively, Live;
  }

  lemma Announces(s: State)
    requires s.cl.dial == Opened
    ensures Can(s, Client1(Announce))
    ensures Apply(s, Client1(Announce)) == s.(cl := s.cl.(dial := Announced, bReady := true, dialCut := AtReady))
  {
    hide Do, Enabled, Preload, Opening;
  }

  /** The client's cut-over runs to its end once the barrier has come. */
  lemma ClientStarts(s: State) returns (more: seq<Step>)
    requires Good(s) && s.cl.goSeen && s.cl.recvCut == Returned && (s.cl.dial == Opened || s.cl.dial == Announced)
    ensures Runs(s, more)
    ensures var s' := After(s, more);
            s'.cl.side == s.cl.side && MayStart(s.down, s'.down) && !s'.down.rx.pump.Off?
  {
    hide Good, Can, Apply, OnlyCuts;
    var t := s;
    more := [];
    if s.cl.dial == Opened {
      Announces(s);
      One(s, Client1(Announce));
      more := [Client1(Announce)];
      t := Apply(s, Client1(Announce));
    }
    hide Runs, After;
    RunKeepsGood(s, more);
    GoMeansCalled(t);
    var rest := CutRuns(t, Dialer);
    RunKeepsGood(t, rest);
    OnlyCutsMeans(t, After(t, rest));
    CutIsDone(After(t, rest));
    Chain(s, more, rest);
    more := more + rest;
  }

  lemma OnlyCutsMeans(s: State, s': State)
    requires OnlyCuts(s, s')
    ensures s'.cl.side == s.cl.side && MayStart(s.down, s'.down) && s'.cl.goSeen == s.cl.goSeen
    ensures s.cl.recvCut == Returned ==> s'.cl.recvCut == Returned
  {
  }

  /** With the mux worked off and the barrier in, a live side's feeder can be made to run. */
  lemma StartsFeeder(s: State, w: Who) returns (more: seq<Step>)
    requires Good(s) && RecvIdle(s, w) && Ends(s, w).i.mx.items == [] && Ends(s, w).i.mx.barriers == 1
    requires Ends(s, w).side.die == Alive
    ensures Runs(s, more)
    ensures var e, e' := Ends(s, w), Ends(After(s, more), w); Kept(e, e') && !e'.i.rx.pump.Off?
  {
    BarrierArrived(s, w);
    GoMeansCalled(s);
    KeptSelf(Ends(s, w));
    if w.Sv? || !s.down.rx.pump.Off? {
      more := [];
    } else {
      hide Good, Runs, After, Kept;
      more := ClientStarts(s);
      KeptStarts(Ends(s, w), Ends(s, w), Ends(After(s, more), w));
    }
  }

  // ----- nothing is stranded -----------------------------------------------------------------------

  /** Every byte this side is owed can still be brought to it: the mux works, or has
      been left behind with its barrier delivered and B intact. */
  predicate Deliverable(e: End) {
    && e.side.die == Alive && !e.side.gone && Fin !in e.i.mx.items
    && if e.i.mx.barriers == 1
       then !e.i.cr.torn && !e.i.cr.lost && !e.i.rx.pump.AtError? && e.i.rx.pump != Handing(Broken)
       else !e.i.tx.diverted && !e.i.mx.broken
  }

  ghost predicate DeliveredBy(s: State, more: seq<Step>, w: Who) {
    && Runs(s, more)
    && var e, e' := Ends(s, w), Ends(After(s, more), w);
       && e'.side.die == Alive && e'.i.rx.consumed == e.i.tx.accepted
       && (e.i.mx.barriers == 1 && e.i.cr.fin ==> e'.i.rx.rhc && e'.i.rx.pipeDone)
  }

  /** From every reached state of a live stream whose transports still work, whatever the
      threads are in the middle of, a continuation exists in which the readers get every
      byte the peer's writes have reported, and then, if the peer has ended B, the end. */
  lemma NothingIsStranded(c: Setup, tr: seq<Step>, w: Who)
    requires IsRun(c, tr) && Deliverable(Ends(Reached(c, tr), w))
    ensures exists more :: DeliveredBy(Reached(c, tr), more, w)
  {
    ReachedIsGood(c, tr);
    hide IsRun, Reached, Good;
    var more := Delivers(Reached(c, tr), w);
  }

  lemma OwedOnMux(s: State, w: Who)
    requires Good(s) && Deliverable(Ends(s, w))
    ensures var d := Ends(s, w).i;
            d.tx.accepted == if d.mx.barriers == 1 then Stage(d) + d.cr.car else Stage(d)
  {
    hide CutInv, GateInv, OfferInv, OnceInv, WireInv, Live, Closing, Tally, Pumped, Stage;
  }

  lemma MuxIsRead(s: State, w: Who)
    requires Good(s) && Ends(s, w).i.mx.barriers == 0 && Ends(s, w).i.mx.items == [] && Ends(s, w).i.rx.held == []
    ensures Ends(s, w).i.rx.consumed == Stage(Ends(s, w).i)
  {
    hide CutInv, GateInv, OfferInv, OnceInv, WireInv, Live, Closing, Tally, Pumped, Flow, Lively, Sealed, NoData;
    var d := Ends(s, w).i;
    assert Payloads([]) == [] && Count([], Barrier) == 0;
    assert d.rx.pumped == [];
  }

  lemma IdleHoldsNothing(s: State, w: Who)
    requires RecvIdle(s, w)
    ensures Ends(s, w).i.rx.held == []
  {
  }

  lemma BarrierCounts(s: State, w: Who)
    requires Good(s)
    ensures Ends(s, w).i.mx.barriers <= 1
  {
    hide CutInv, GateInv, OfferInv, OnceInv, WireInv, Live, Closing, Tally, Pumped, Flow, Lively, Sealed, NoData, Count;
  }

  lemma Delivers(s: State, w: Who) returns (more: seq<Step>)
    requires Good(s) && Deliverable(Ends(s, w))
    ensures DeliveredBy(s, more, w)
  {
    OwedOnMux(s, w);
    BarrierCounts(s, w);
    more := Drains(s, w);
    var a := After(s, more);
    RunKeepsGood(s, more);
    IdleHoldsNothing(a, w);
    hide Good, Runs, After, Stage;
    if Ends(s, w).i.mx.barriers == 1 {
      var rest := DeliversOverB(a, w);
      hide Drained;
      Chain(s, more, rest);
      more := more + rest;
    } else {
      MuxIsRead(a, w);
    }
  }

  lemma DeliversOverB(s: State, w: Who) returns (more: seq<Step>)
    requires Good(s) && RecvIdle(s, w) && Ends(s, w).i.mx.items == [] && Ends(s, w).i.mx.barriers == 1
    requires Ends(s, w).side.die == Alive && !Ends(s, w).side.gone && !Ends(s, w).i.cr.lost
    requires !Ends(s, w).i.rx.pump.AtError? && Ends(s, w).i.rx.pump != Handing(Broken)
    ensures Runs(s, more)
    ensures var e, e' := Ends(s, w), Ends(After(s, more), w);
            && e'.side.die == Alive && e'.i.rx.consumed == Stage(e.i) + e.i.cr.car
            && (e.i.cr.fin ==> e'.i.rx.rhc && e'.i.rx.pipeDone)
  {
    hide Good, Runs, After, Stage, RecvIdle, Kept, Working, Ends;
    more := StartsFeeder(s, w);
    var a := After(s, more);
    RunKeepsGood(s, more);
    KeptWorks(Ends(s, w), Ends(a, w));
    var rest := FeedsThrough(a, w);
    Chain(s, more, rest);
    more := more + rest;
  }

  lemma KeptWorks(e: End, e': End)
    requires Kept(e, e') && !e'.i.rx.pump.Off? && !e.i.rx.pump.AtError? && e.i.rx.pump != Handing(Broken)
    ensures e'.side.die == Alive && e'.side.gone == e.side.gone && Working(e'.i.rx.pump)
    ensures Stage(e'.i) == Stage(e.i) && e'.i.cr == e.i.cr
  {
    hide Stage;
  }

  lemma FeedsThrough(s: State, w: Who) returns (more: seq<Step>)
    requires Good(s) && Ends(s, w).side.die == Alive && !Ends(s, w).side.gone && Working(Ends(s, w).i.rx.pump)
    requires !Ends(s, w).i.cr.lost
    ensures Runs(s, more)
    ensures var e, e' := Ends(s, w), Ends(After(s, more), w);
            && e'.side.die == Alive && e'.i.rx.consumed == Stage(e.i) + e.i.cr.car
            && (e.i.cr.fin ==> e'.i.rx.rhc && e'.i.rx.pipeDone)
  {
    hide Good, Runs, After, Stage, DirInv, Core;
    var d;
    more, d := FeedsOut(s, w);
    RunKeepsGood(s, more);
    PutPut(s, w, Ends(s, w).(i := d), Ends(s, w));
    StoppedIsClean(After(s, more), w);
    LivePipeOpen(After(s, more), w);
    RestedIsEmpty(d);
  }

  // ----- the end of one side reaches the other -------------------------------------------------------

  lemma SendsFin(s: State, w: Who)
    requires Ends(s, w).side.die == Ended && !Ends(s, w).side.finSent && !Ends(s, w).o.mx.broken
    ensures Runs(s, [Both(w, SendFin(Sent))])
    ensures var s' := After(s, [Both(w, SendFin(Sent))]);
            && Ends(s', w).side.die == Ended && Fin in Ends(s', w).o.mx.items && Ends(s', Other(w)).i == Ends(s', w).o
  {
    var e := Ends(s, w);
    FinEnters(e.o);
    hide Do, Enabled;
    OneAct(s, w, SendFin(Sent));
    PutPut(s, w, DoAct(e, SendFin(Sent), RecvIdle(s, w), OpenBroke(s, w)), e);
  }

  lemma FinEnters(d: Dir)
    requires !d.mx.broken
    ensures Enabled(d, NoteOk(Fin)) && Fin in Do(d, NoteOk(Fin)).mx.items
  {
    hide DoOnB, DoOffMux, DoOffB;
  }

  /** From every reached state in which one side has ended and its mux still works, a
      continuation exists in which its cmdFIN is sent, everything before it is worked
      off, and the peer has ended too. */
  lemma EndReachesPeer(c: Setup, tr: seq<Step>, w: Who)
    requires IsRun(c, tr)
    requires var e := Ends(Reached(c, tr), w); e.side.die == Ended && !e.side.finSent && !e.o.mx.broken
    ensures exists more :: Runs(Reached(c, tr), more) && WhollyEnded(Ends(After(Reached(c, tr), more), w))
                           && WhollyEnded(Ends(After(Reached(c, tr), more), Other(w)))
  {
    ReachedIsGood(c, tr);
    hide IsRun, Reached, Good, WhollyEnded;
    var more := ReachesPeer(Reached(c, tr), w);
  }

  lemma ReachesPeer(s: State, w: Who) returns (more: seq<Step>)
    requires Good(s)
    requires var e := Ends(s, w); e.side.die == Ended && !e.side.finSent && !e.o.mx.broken
    ensures Runs(s, more)
    ensures WhollyEnded(Ends(After(s, more), w)) && WhollyEnded(Ends(After(s, more), Other(w)))
  {
    var st := Both(w, SendFin(Sent));
    SendsFin(s, w);
    RunKeepsGood(s, [st]);
    hide Good, Runs, After, WhollyEnded, Ends;
    var rest := FinReaches(After(s, [st]), w);
    Chain(s, [st], rest);
    more := [st] + rest;
  }

  lemma FinReaches(s: State, w: Who) returns (more: seq<Step>)
    requires Good(s) && Ends(s, w).side.die == Ended && Fin in Ends(s, Other(w)).i.mx.items
    ensures Runs(s, more)
    ensures WhollyEnded(Ends(After(s, more), w)) && WhollyEnded(Ends(After(s, more), Other(w)))
  {
    hide Good, Runs, After, WhollyEnded, Kept, RecvIdle, OnlyEnds;
    more := Drains(s, Other(w));
    RunKeepsGood(s, more);
    var t := After(s, more);
    var rest, e := EndsUp(t, Other(w));
    RunKeepsGood(t, rest);
    PutPut(t, Other(w), e, e);
    OtherStays(t, Other(w), e);
    Chain(s, more, rest);
    more := more + rest;
    EndedIsWhole(After(t, rest), w);
    EndedIsWhole(After(t, rest), Other(w));
  }

  // ----- closeCarrier gets through ----------------------------------------------------------------

  /** The next step of closeCarrier, entered for this reason if it has not been yet. */
  function Closes(sd: Side, why: Why): (a: Act) {
    match sd.once
    case Idle => OnceEnter(why)
    case Got(conn) => if conn then OnceClose else OnceNoConn
    case _ => OnceDone
  }

  function OnceRank(once: OncePc): (n: nat) {
    match once case Idle => 3 case Got(_) => 2 case ConnShut => 1 case Released => 0
  }

  /** B is closed or about to be. */
  predicate Closing1(sd: Side) {
    sd.gone || sd.once == Got(true) || (sd.once == Idle && sd.conn)
  }

  /** All that closeCarrier touches. */
  predicate OnlyCloses(e: End, e': End) {
    && e'.i == e.i && e'.o.tx == e.o.tx && e'.o.mx == e.o.mx && e'.o.rx == e.o.rx
    && e'.side.die == e.side.die && e'.side.finWait == e.side.finWait && e'.side.conn == e.side.conn
    && (Closing1(e.side) ==> Closing1(e'.side)) && e'.side.watchdog == e.side.watchdog
  }

  function ClosedSide(sd: Side): (sd': Side) {
    match sd.once
    case Idle => sd.(once := Got(sd.conn))
    case Got(conn) => sd.(once := ConnShut, gone := sd.gone || conn)
    case _ => sd.(once := Released)
  }

  lemma ClosesTo(e: End, why: Why, idle: bool, broke: bool)
    requires e.side.once != Released && (e.side.once == Idle ==> CanAct(e, OnceEnter(why), idle, broke))
    ensures CanAct(e, Closes(e.side, why), idle, broke)
    ensures var e' := DoAct(e, Closes(e.side, why), idle, broke);
            && e'.side == ClosedSide(e.side) && e'.i == e.i && e'.o.tx == e.o.tx && e'.o.mx == e.o.mx
            && e'.o.rx == e.o.rx
  {
    ShutOutMarks(e.o);
    hide Do, Enabled, ShutOut, IsSend, IsRecv, Noting;
    match e.side.once
    case Idle =>
    case Got(_) =>
    case ConnShut =>
  }

  lemma ClosesOn(e: End, why: Why, idle: bool, broke: bool)
    requires e.side.once != Released && (e.side.once == Idle ==> CanAct(e, OnceEnter(why), idle, broke))
    ensures CanAct(e, Closes(e.side, why), idle, broke)
    ensures var e' := DoAct(e, Closes(e.side, why), idle, broke);
            OnlyCloses(e, e') && OnceRank(e'.side.once) < OnceRank(e.side.once)
  {
    hide CanAct, DoAct, Closes;
    ClosesTo(e, why, idle, broke);
    match e.side.once
    case Idle =>
    case Got(_) =>
    case ConnShut =>
  }

  lemma OnlyClosesOn(a: End, b: End, c: End)
    requires OnlyCloses(a, b) && OnlyCloses(b, c)
    ensures OnlyCloses(a, c)
  {
    hide Closing1;
  }

  lemma ClosesIsNoSend(sd: Side, why: Why)
    ensures !Closes(sd, why).Send?
  {
  }

  lemma {:induction false} OnceFinishes(s: State, w: Who, why: Why) returns (more: seq<Step>, e: End)
    requires Ends(s, w).side.once == Idle ==>
               CanAct(Ends(s, w), OnceEnter(why), RecvIdle(s, w), OpenBroke(s, w))
    ensures Runs(s, more) && After(s, more) == PutEnd(s, w, e)
    ensures e.side.once == Released && OnlyCloses(Ends(s, w), e)
    decreases OnceRank(Ends(s, w).side.once)
  {
    e := Ends(s, w);
    PutPut(s, w, e, e);
    if e.side.once == Released {
      more := [];
    } else {
      var a := Closes(e.side, why);
      ClosesOn(e, why, RecvIdle(s, w), OpenBroke(s, w));
      ClosesIsNoSend(e.side, why);
      var e1 := DoAct(e, a, RecvIdle(s, w), OpenBroke(s, w));
      assert e1.side.once != Idle;
      hide CanAct, DoAct, RecvIdle, OpenBroke, Closes, PutEnd, Runs, After, Ends, OnlyCloses, OnceRank;
      OneAct(s, w, a);
      var t := PutEnd(s, w, e1);
      PutPut(s, w, e1, e1);
      var rest, e2 := OnceFinishes(t, w, why);
      PutPut(s, w, e1, e2);
      OnlyClosesOn(e, e1, e2);
      Chain(s, [Both(w, a)], rest);
      more, e := [Both(w, a)] + rest, e2;
    }
  }

  /** In every run: once both halves of a carried stream are retired, its carrier can be
      closed and waitCarrier released without the stream dying; and so it can when the
      client failed to open B. */
  lemma CarrierCanClose(c: Setup, tr: seq<Step>, w: Who)
    requires IsRun(c, tr)
    requires var e := Ends(Reached(c, tr), w);
             (e.o.tx.whc && e.i.rx.rhc) || (w.Cl? && Reached(c, tr).cl.dial == OpenFailed)
    ensures exists more :: Runs(Reached(c, tr), more) && ClosedBy(Reached(c, tr), After(Reached(c, tr), more), w)
  {
    hide IsRun, Reached;
    var s := Reached(c, tr);
    var why := if Ends(s, w).o.tx.whc && Ends(s, w).i.rx.rhc then BothHalves else OpenError;
    var more, e := OnceFinishes(s, w, why);
    PutPut(s, w, e, e);
    assert ClosedBy(s, After(s, more), w);
  }

  /** closeCarrier has run, closing B unless it was used up before; the stream is as it was. */
  predicate ClosedBy(s: State, s': State, w: Who) {
    var sd, sd' := Ends(s, w).side, Ends(s', w).side;
    && sd'.once == Released && sd'.die == sd.die && sd'.conn == sd.conn && (Closing1(sd) ==> sd'.gone)
  }

  /** In every run: a feeder that has met an error can close B, give up and end its
      stream wholly. */
  lemma FailedFeederEnds(c: Setup, tr: seq<Step>, w: Who)
    requires IsRun(c, tr) && Ends(Reached(c, tr), w).i.rx.pump.AtError?
    ensures exists more :: Runs(Reached(c, tr), more) && WhollyEnded(Ends(After(Reached(c, tr), more), w))
                           && Ends(After(Reached(c, tr), more), w).i.rx.pump.Stopped?
  {
    ReachedIsGood(c, tr);
    hide IsRun, Reached, Good, WhollyEnded;
    var more := GivesUp(Reached(c, tr), w);
  }

  lemma GivesUp(s: State, w: Who) returns (more: seq<Step>)
    requires Good(s) && Ends(s, w).i.rx.pump.AtError?
    ensures Runs(s, more) && WhollyEnded(Ends(After(s, more), w)) && Ends(After(s, more), w).i.rx.pump.Stopped?
  {
    CanEnter(Ends(s, w), RecvIdle(s, w), OpenBroke(s, w));
    hide CanAct, DoAct, RecvIdle, OpenBroke, PutEnd, Runs, After, Good, WhollyEnded, Ends;
    var m1, e1 := OnceFinishes(s, w, PumpError);
    PutPut(s, w, e1, e1);
    var rest, e2 := StopsThenEnds(After(s, m1), w);
    PutPut(s, w, e1, e2);
    Chain(s, m1, rest);
    more := m1 + rest;
    RunKeepsGood(s, more);
    PutPut(s, w, e2, e2);
    EndedIsWhole(After(s, more), w);
  }

  lemma CanEnter(e: End, idle: bool, broke: bool)
    requires e.i.rx.pump.AtError?
    ensures e.side.once == Idle ==> CanAct(e, OnceEnter(PumpError), idle, broke)
  {
  }

  lemma StopsThenEnds(s: State, w: Who) returns (more: seq<Step>, e: End)
    requires Ends(s, w).i.rx.pump.AtError? && Ends(s, w).side.once == Released
    ensures Runs(s, more) && After(s, more) == PutEnd(s, w, e)
    ensures e.side.die == Ended && e.i.rx.pump.Stopped?
  {
    StopsAndDies(Ends(s, w), RecvIdle(s, w), OpenBroke(s, w));
    hide CanAct, DoAct, RecvIdle, OpenBroke, PutEnd, Runs, After, Ends;
    var e1 := DoAct(Ends(s, w), PumpGaveUp, RecvIdle(s, w), OpenBroke(s, w));
    OneAct(s, w, PumpGaveUp);
    PutPut(s, w, e1, e1);
    var rest;
    rest, e := EndsUp(PutEnd(s, w, e1), w);
    PutPut(s, w, e1, e);
    Chain(s, [Both(w, PumpGaveUp)], rest);
    more := [Both(w, PumpGaveUp)] + rest;
  }

  lemma StopsAndDies(e: End, idle: bool, broke: bool)
    requires e.i.rx.pump.AtError? && e.side.once == Released
    ensures CanAct(e, PumpGaveUp, idle, broke)
    ensures var e' := DoAct(e, PumpGaveUp, idle, broke); e'.side.die != Alive && e'.i.rx.pump.Stopped?
  {
    StopEffect(e.i);
    hide Do, Enabled;
  }

  /** In every run: a carrier the server has taken can be attached if the stream lives,
      and refused and closed if it does not. */
  lemma TakenIsSettled(c: Setup, tr: seq<Step>)
    requires IsRun(c, tr) && Reached(c, tr).sv.listener == Taken
    ensures exists more :: Runs(Reached(c, tr), more) &&
                           Settled(Reached(c, tr), After(Reached(c, tr), more).sv)
  {
    ReachedIsGood(c, tr);
    hide IsRun, Reached, Good, Settled;
    var more := Settles(Reached(c, tr));
  }

  lemma Settles(s: State) returns (more: seq<Step>)
    requires Good(s) && s.sv.listener == Taken
    ensures Runs(s, more) && Settled(s, After(s, more).sv)
  {
    if s.sv.side.die == Alive {
      NotYetDiverted(s);
      hide Good, Runs, After;
      var how := if s.down.mx.broken then Unsent else Sent;
      Attaches(s, how);
      One(s, Server1(Attach(how)));
      more := [Server1(Attach(how))];
    } else {
      hide Good, Runs, After;
      Refuses(s);
      One(s, Server1(Refuse));
      var t := Apply(s, Server1(Refuse));
      One(t, Server1(CloseRefused));
      Chain(s, [Server1(Refuse)], [Server1(CloseRefused)]);
      more := [Server1(Refuse)] + [Server1(CloseRefused)];
    }
  }

  lemma Attaches(s: State, how: Sending)
    requires s.sv.listener == Taken && s.sv.side.die == Alive && !s.down.tx.diverted
    requires how == if s.down.mx.broken then Unsent else Sent
    ensures Can(s, Server1(Attach(how)))
    ensures var v := Apply(s, Server1(Attach(how))).sv; v.listener == Attached && v.side.conn
  {
    DivertsWhen(s.down);
    hide Do, Enabled, Diverting, Inspect;
  }

  lemma Refuses(s: State)
    requires s.sv.listener == Taken && s.sv.side.die != Alive
    ensures Can(s, Server1(Refuse)) && Can(Apply(s, Server1(Refuse)), Server1(CloseRefused))
    ensures var v := Apply(Apply(s, Server1(Refuse)), Server1(CloseRefused)).sv;
            v.listener == Refused && v.side.gone && v.side.conn == s.sv.side.conn
  {
    hide Do, Enabled, ShutOut, Inspect;
  }

  predicate Settled(s: State, v: Server) {
    if s.sv.side.die == Alive then v.listener == Attached && v.side.conn
    else v.listener == Refused && v.side.gone && v.side.conn == s.sv.side.conn
  }

  lemma NotYetDiverted(s: State)
    requires Good(s) && s.sv.listener == Taken
    ensures !s.down.tx.diverted
  {
    hide DirInv, CutInv, GateInv, OfferInv, OnceInv, Lively, Live, Preamble;
  }

  /** The opening frame as the server's listener finds it: whole, it is claimed with
      this stream's token and nothing is left; cut off, it is not claimed. */
  lemma OpeningArrives(s: State, filler: seq<byte>, k: nat)
    requires s.sv.listener == Waiting && !s.up.cr.lost && !s.up.tx.diverted && !s.cl.side.gone
    ensures CanClient(s, OpenB(filler)) ==>
              Inspect(ApplyClient(s, OpenB(filler)).up.cr.car) == Claimed(s.token, [])
    ensures CanClient(s, OpenBFail(filler, k)) ==>
              && |ApplyClient(s, OpenBFail(filler, k)).up.cr.car| == k
              && Inspect(ApplyClient(s, OpenBFail(filler, k)).up.cr.car) == NeedMore
  {
    hide Inspect, Enabled;
    if CanClient(s, OpenB(filler)) {
      InspectPrefix(s.sid, s.token, filler, Opening(s.sid, s.token, filler));
      SetCarEffect(s.up, Opening(s.sid, s.token, filler));
    }
    if CanClient(s, OpenBFail(filler, k)) {
      InspectPrefix(s.sid, s.token, filler, Opening(s.sid, s.token, filler)[..k]);
      SetCarEffect(s.up, Opening(s.sid, s.token, filler)[..k]);
    }
    hide Opening, Do;
  }

  // ----- no thread is stuck -----------------------------------------------------------------------

  /** The next step of clientStartCarrier. */
  function DialNext(s: State, ok: bool, filler: seq<byte>): (a: ClientAct) {
    match s.cl.dial
    case Asked => ClientAct.Dialled(ok)
    case Connected => Publish
    case Published => if s.cl.side.gone || !ok then OpenBFail(filler, 0) else OpenB(filler)
    case _ => Announce
  }

  /** ... of serverMaybeTrigger ... */
  function TrigNext(s: State, ok: bool): (a: ServerAct) {
    match s.sv.trig
    case NotTriggered => Win
    case Won => Register
    case _ => SendOffer(if ok && !s.down.mx.broken then Sent else Unsent)
  }

  /** ... of MaybeAcceptCarrier. */
  function ListenNext(s: State): (a: ServerAct) {
    match s.sv.listener
    case Taken => if s.sv.side.die == Alive then Attach(if s.down.mx.broken then Unsent else Sent) else Refuse
    case Refusing => CloseRefused
    case _ =>
      if !Presented(s) then AcceptFail
      else if s.sv.pending && Inspect(s.up.cr.car).token == s.token then Accept
      else AcceptUnknown
  }

  /** In every run no thread waits for another: the dial, the two callers of the
      cut-over, the trigger, the timer and the listener can each take their next step
      whenever they are under way, whichever way it is to go. */
  lemma ThreadsMove(c: Setup, tr: seq<Step>, ok: bool, filler: seq<byte>, t: Thread)
    requires IsRun(c, tr) && PAD_MIN <= |filler| < PAD_MIN + PAD_RANGE
    ensures var s := Reached(c, tr);
            && (s.cl.dial in {Asked, Connected, Published, Opened} ==> CanClient(s, DialNext(s, ok, filler)))
            && (CutOf(s.cl, t) in {AtReady, AtGo, AtOnce} ==> CanClient(s, Cuts(s, t)))
            && (s.sv.trig in {Won, Registered} ==> CanServer(s, TrigNext(s, ok)))
            && (s.sv.trig == NotTriggered && s.sv.det.phase == D.Ready && !s.sv.tapsDone ==> CanServer(s, Win))
            && (s.sv.listener in {Taken, Refusing} || Presented(s) ==> CanServer(s, ListenNext(s)))
            && (s.sv.pending ==> CanServer(s, Expire))
  {
    ReachedIsGood(c, tr);
    hide IsRun, Reached;
    var s := Reached(c, tr);
    CutOfGood(s);
    if Calling(CutOf(s.cl, t)) {
      CanCut(s, t);
    }
    if s.sv.listener == Taken {
      NotYetDiverted(s);
    }
    GoodConfig(s);
    hide Good, CutInv, DirInv, Cuts;
    DialMoves(s, ok, filler);
    TrigMoves(s, ok);
    ListenMoves(s);
  }

  lemma GoodConfig(s: State)
    requires Good(s)
    ensures Config(s.sid, s.token)
  {
    hide DirInv, CutInv, GateInv, OfferInv, OnceInv, WireInv, Lively, Live;
  }

  lemma DialMoves(s: State, ok: bool, filler: seq<byte>)
    requires Config(s.sid, s.token) && PAD_MIN <= |filler| < PAD_MIN + PAD_RANGE
    ensures s.cl.dial in {Asked, Connected, Published, Opened} ==> CanClient(s, DialNext(s, ok, filler))
  {
    hide Enabled, ClientIdle;
  }

  lemma TrigMoves(s: State, ok: bool)
    ensures s.sv.trig in {Won, Registered} ==> CanServer(s, TrigNext(s, ok))
    ensures s.sv.trig == NotTriggered && s.sv.det.phase == D.Ready && !s.sv.tapsDone ==> CanServer(s, Win)
    ensures s.sv.pending ==> CanServer(s, Expire)
  {
    hide Inspect, ServerIdle;
  }

  lemma ListenMoves(s: State)
    requires s.sv.listener == Taken ==> !s.down.tx.diverted
    ensures s.sv.listener in {Taken, Refusing} || Presented(s) ==> CanServer(s, ListenNext(s))
  {
    DivertsWhen(s.down);
    hide Inspect, ServerIdle, Enabled, Diverting;
  }

  /** How a Stream.Write that reaches its critical section returns, when nothing fails
      that has not failed. */
  function Written(d: Dir, b: seq<byte>): (mv: Move) {
    if !d.tx.diverted then if d.mx.broken then PushDead(b) else PushOk(b, [b])
    else if d.cr.broken || d.cr.fin then RawDead(b)
    else if d.cr.lost then RawVoid(b, 0)
    else RawOk(b)
  }

  /** In every run a Stream.Write of any bytes returns, reporting all of them if and
      only if its transport is still good; and a diverted side that has not retired its
      write half can half-close. */
  lemma WriteReturns(c: Setup, tr: seq<Step>, w: Who, b: seq<byte>)
    requires IsRun(c, tr)
    ensures var s := Reached(c, tr);
            var o := Ends(s, w).o;
            && Can(s, Both(w, Send(Written(o, b)))) && GivenBy(Written(o, b)) == b
            && (b != [] ==>
                  (ReportedBy(Written(o, b)) == b <==>
                   if o.tx.diverted then !o.cr.broken && !o.cr.fin && !o.cr.lost else !o.mx.broken))
            && (o.tx.diverted && !o.tx.whc ==> Can(s, Both(w, CloseWrite)))
            && (Ends(s, w).side.shutting ==> Can(s, Both(w, CloseWriteDone)))
  {
    hide IsRun, Reached;
    var s := Reached(c, tr);
    WrittenOk(Ends(s, w).o, b);
    hide Enabled, Written;
  }

  lemma WrittenOk(d: Dir, b: seq<byte>)
    ensures var mv := Written(d, b);
            && IsSend(mv) && Enabled(d, mv) && GivenBy(mv) == b
            && (b != [] ==>
                  (ReportedBy(mv) == b <==>
                   if d.tx.diverted then !d.cr.broken && !d.cr.fin && !d.cr.lost else !d.mx.broken))
  {
    assert Flatten([b]) == b + Flatten([b][1..]);
    assert b + [] == b;
  }

  // ----- what comes after what -----------------------------------------------------------------------

  /** Between two frames recvLoop takes nothing: until it is idle again, whatever happens,
      no frame leaves the mux. */
  lemma LoopIsSequential(c: Setup, tr: seq<Step>, st: Step, w: Who)
    requires IsRun(c, tr) && Can(Reached(c, tr), st) && !RecvIdle(Reached(c, tr), w)
    ensures Ends(Reached(c, tr), w).i.mx.items <= Ends(Apply(Reached(c, tr), st), w).i.mx.items
  {
    hide IsRun, Reached;
    BusyTakesNothing(Reached(c, tr), st, w);
  }

  lemma BusyTakesNothing(s: State, st: Step, w: Who)
    requires Can(s, st) && !RecvIdle(s, w)
    ensures Ends(s, w).i.mx.items <= Ends(Apply(s, st), w).i.mx.items
  {
    match st
    case Both(who, a) =>
      hide CanAct, DoAct, RecvIdle, OpenBroke;
      TapKeepsWiring(s, who, a);
      ItemsGrow(Ends(s, who), a, RecvIdle(s, who), OpenBroke(s, who));
    case Client1(a) => ClientItems(s, a, w);
    case Server1(a) => ServerItems(s, a, w);
  }

  lemma ItemsGrow(e: End, a: Act, idle: bool, broke: bool)
    requires CanAct(e, a, idle, broke)
    ensures var e' := DoAct(e, a, idle, broke);
            e.o.mx.items <= e'.o.mx.items && (idle || e.i.mx.items <= e'.i.mx.items)
  {
    if SideOnly(a) {
      SideOnlyEffect(e, a, idle, broke);
      hide DoAct, CanAct;
    } else {
      hide Do, Enabled, ShutOut, Noting;
      match a
      case Send(mv) => SendItems(e.o, mv);
      case Recv(mv) => if !idle { RecvItems(e.i, mv); }
      case Reset(k) => LostMarks(e.i, k);
      case CloseWrite => RetireEffect(e.o);
      case CloseWriteDone => ShutOutMarks(e.o);
      case DiePipe => ClosePipeEffect(e.i);
      case DieCas => RetireEffect(e.o);
      case DieShut => ShutOutMarks(e.o);
      case SendFin(how) => NotingItems(e.o, how, Fin);
      case TakeFin =>
      case OnceClose => ShutOutMarks(e.o);
      case PumpGaveUp => StopEffect(e.i);
    }
  }

  lemma SendItems(d: Dir, mv: Move)
    requires IsSend(mv) && Enabled(d, mv)
    ensures d.mx.items <= Do(d, mv).mx.items
  {
    hide CanOffMux, DoOffMux, CanOffB, DoOffB, Flatten;
  }

  lemma RecvItems(d: Dir, mv: Move)
    requires IsRecv(mv) && !IsTake(mv) && Enabled(d, mv)
    ensures Do(d, mv).mx.items == d.mx.items
  {
    RecvKinds(mv);
    Effects(d, mv);
    hide CanOnMux, DoOnMux, CanOnB, DoOnB, DoOffB, CanOffB;
  }

  lemma NotingItems(d: Dir, how: Sending, item: Item)
    requires Enabled(d, Noting(how, item))
    ensures d.mx.items <= Do(d, Noting(how, item)).mx.items
  {
    hide DoOnB, DoOffMux, DoOffB;
  }

  lemma DivertItems(d: Dir, how: Sending)
    requires Enabled(d, Diverting(how))
    ensures d.mx.items <= Do(d, Diverting(how)).mx.items
  {
    hide DoOnB, DoOffMux, DoOffB;
  }

  lemma ClientItems(s: State, a: ClientAct, w: Who)
    requires CanClient(s, a) && !RecvIdle(s, w)
    ensures Ends(s, w).i.mx.items <= Ends(ApplyClient(s, a), w).i.mx.items
  {
    if PcOnly(a) {
      PcOnlyEffect(s, a);
      hide ApplyClient, CanClient;
    } else {
      hide Do, Opening, Preload, Diverting, Enabled;
      match a
      case TakeOffer(_) => TakeNoteEffect(s.down);
      case OpenB(filler) => PreloadEffect(s, Opening(s.sid, s.token, filler));
      case OpenBFail(filler, k) => PreloadEffect(s, Opening(s.sid, s.token, filler)[..k]);
      case TakeGo(_) => BarrierEffect(s.down);
      case Commit(_, how) => if s.cl.side.die == Alive { DivertItems(s.up, how); }
      case Spawn(_) => StartEffect(s.down);
    }
  }

  lemma ServerItems(s: State, a: ServerAct, w: Who)
    requires CanServer(s, a) && !RecvIdle(s, w)
    ensures Ends(s, w).i.mx.items <= Ends(ApplyServer(s, a), w).i.mx.items
  {
    if ServerPc(a) {
      ServerPcEffect(s, a);
      hide ApplyServer, CanServer;
    } else {
      hide Do, Enabled, Inspect, BeginUplink, ShutOut, Diverting, Noting;
      match a
      case SendOffer(how) => NotingItems(s.down, how, Offer);
      case Accept => SetCarEffect(s.up, Inspect(s.up.cr.car).rest);
      case AcceptUnknown => SetCarEffect(s.up, []); ShutOutMarks(s.down);
      case AcceptFail => SetCarEffect(s.up, []); ShutOutMarks(s.down);
      case Attach(how) => DivertItems(s.down, how);
      case CloseRefused => ShutOutMarks(s.down);
      case TakeUplinkFin(late) =>
        BarrierEffect(s.up);
        BeginUplinkEffect(Do(s.up, TakeBarrier), !late && s.sv.side.conn);
    }
  }

  /** A side that has closed its end of B reads nothing off it any more, in any
      continuation. */
  lemma ClosedReadsNothing(c: Setup, tr: seq<Step>, more: seq<Step>, w: Who)
    requires IsRun(c, tr) && Runs(Reached(c, tr), more) && Ends(Reached(c, tr), w).side.gone
    ensures Ends(After(Reached(c, tr), more), w).i.rx.fetched == Ends(Reached(c, tr), w).i.rx.fetched
  {
    ReachedHasInv(c, tr);
    hide IsRun, Reached, Inv, Runs, After;
    GoneReadsNothing(Reached(c, tr), more, w);
  }

  lemma {:induction false} GoneReadsNothing(s: State, tr: seq<Step>, w: Who)
    requires Inv(s) && Runs(s, tr) && Ends(s, w).side.gone
    ensures Ends(After(s, tr), w).i.rx.fetched == Ends(s, w).i.rx.fetched
    decreases tr
  {
    hide Inv, Can, Apply, Sets;
    if tr != [] {
      StepKeeps(s, tr[0]);
      StepMarks(s, tr[0], w, CarrierGone);
      StepFetches(s, tr[0], w);
      GoneReadsNothing(Apply(s, tr[0]), tr[1..], w);
    }
  }

  lemma StepFetches(s: State, st: Step, w: Who)
    requires Inv(s) && Can(s, st) && Ends(s, w).side.gone
    ensures Ends(Apply(s, st), w).i.rx.fetched == Ends(s, w).i.rx.fetched
  {
    InvDirs(s);
    hide Inv, DirInv;
    match st
    case Both(who, a) =>
      var e, idle, broke := Ends(s, who), RecvIdle(s, who), OpenBroke(s, who);
      TapKeepsWiring(s, who, a);
      if who == w {
        ActFetches(e, a, idle, broke);
        hide CanAct, DoAct, ApplyBoth;
      } else {
        OtherEnd(s, who, a, w);
        ActOut(e, a, idle, broke);
        hide CanAct, DoAct, ApplyBoth;
      }
    case Client1(a) =>
      ClientTouch(s, a);
      hide ApplyClient, CanClient;
    case Server1(a) =>
      ServerFetches(s, a);
      hide ApplyServer, CanServer;
  }

  lemma ServerFetches(s: State, a: ServerAct)
    requires CanServer(s, a)
    ensures var s' := ApplyServer(s, a); s'.up.rx.fetched == s.up.rx.fetched && s'.down.rx.fetched == s.down.rx.fetched
  {
    if ServerPc(a) {
      ServerPcEffect(s, a);
      hide ApplyServer, CanServer;
    } else {
      hide Do, Enabled, Inspect, BeginUplink, ShutOut, Diverting, Noting;
      match a
      case SendOffer(how) => NotingMarks(s.down, how, Offer);
      case Accept => SetCarEffect(s.up, Inspect(s.up.cr.car).rest);
      case AcceptUnknown => SetCarEffect(s.up, []); ShutOutMarks(s.down);
      case AcceptFail => SetCarEffect(s.up, []); ShutOutMarks(s.down);
      case Attach(how) => DivertMarks(s.down, how);
      case CloseRefused => ShutOutMarks(s.down);
      case TakeUplinkFin(late) =>
        BarrierEffect(s.up);
        BeginUplinkEffect(Do(s.up, TakeBarrier), !late && s.sv.side.conn);
    }
  }

  lemma ActFetches(e: End, a: Act, idle: bool, broke: bool)
    requires CanAct(e, a, idle, broke) && e.side.gone
    ensures DoAct(e, a, idle, broke).i.rx.fetched == e.i.rx.fetched
  {
    if SideOnly(a) {
      SideOnlyEffect(e, a, idle, broke);
      hide DoAct, CanAct;
    } else {
      hide Do, Enabled, ShutOut, Noting, IsRecv, IsSend;
      match a
      case Send(_) =>
      case Recv(mv) => OnlyFetches(e.i, mv);
      case Reset(k) => LostMarks(e.i, k);
      case CloseWrite =>
      case CloseWriteDone =>
      case DiePipe => ClosePipeEffect(e.i);
      case DieCas =>
      case DieShut =>
      case SendFin(_) =>
      case TakeFin => TakeNoteEffect(e.i);
      case OnceClose =>
      case PumpGaveUp => StopEffect(e.i);
    }
  }

  lemma OnlyFetches(d: Dir, mv: Move)
    requires IsRecv(mv) && Enabled(d, mv) && !IsFetch(mv)
    ensures Do(d, mv).rx.fetched == d.rx.fetched
  {
    RecvKinds(mv);
    hide CanOnMux, DoOnMux, CanOnB, DoOnB;
  }

  /** The order of the end: a cmdFIN is sent only for a stream that has ended; recvLoop
      leaves closeLocally only then; and a feeder that gives up has closed B first and
      let the stream die. */
  lemma EndInOrder(c: Setup, tr: seq<Step>, w: Who)
    requires IsRun(c, tr)
    ensures var e := Ends(Reached(c, tr), w);
            && (e.side.finSent ==> e.side.die == Ended)
            && (e.i.rx.pump.Stopped? && !e.i.rx.rhc ==> e.side.once == Released && e.side.die != Alive)
            && (Both(w, TakeFin) in tr && !e.side.finWait ==> e.side.die == Ended)
  {
    ReachedIsGood(c, tr);
    EndingOf(Reached(c, tr), w);
    StartHasInv(c.sid, c.token, c.minBulk, c.tlsOnly);
    hide Inv, Good, Runs, After;
    FinThenEnded(Boot(c), tr, w, false);
  }

  lemma EndingOf(s: State, w: Who)
    requires Good(s)
    ensures Ending(Ends(s, w).side, Ends(s, w).i)
  {
    hide Inv, Ending, Switching, Dialled, Count;
  }

  lemma StepKeepsFin(s: State, st: Step, w: Who, took: bool)
    requires Inv(s) && Can(s, st) && (took && !Ends(s, w).side.finWait ==> Ends(s, w).side.die == Ended)
    ensures var sd := Ends(Apply(s, st), w).side;
            (took || st == Both(w, TakeFin)) && !sd.finWait ==> sd.die == Ended
  {
    hide Inv, CanClient, ApplyClient, CanServer, ApplyServer, ApplyBoth;
    match st
    case Both(who, a) =>
      TapKeepsWiring(s, who, a);
      if who == w {
        ActKeepsFin(Ends(s, w), a, RecvIdle(s, w), OpenBroke(s, w), took);
      } else {
        OtherEnd(s, who, a, w);
      }
      hide CanAct, DoAct;
    case Client1(a) => ClientTouch(s, a);
    case Server1(a) => ServerTouch(s, a);
  }

  lemma ActKeepsFin(e: End, a: Act, idle: bool, broke: bool, took: bool)
    requires CanAct(e, a, idle, broke) && (took && !e.side.finWait ==> e.side.die == Ended)
    ensures var sd := DoAct(e, a, idle, broke).side;
            (took || a == TakeFin) && !sd.finWait ==> sd.die == Ended
  {
    ActToggles(e, a, idle, broke, InFin);
    if e.side.die == Ended {
      ActKeepsEnded(e, a, idle, broke);
    }
    if a.FinDone? {
      FinDoneWhen(e, a, idle, broke);
    }
    hide CanAct, DoAct;
  }

  lemma FinDoneWhen(e: End, a: Act, idle: bool, broke: bool)
    requires CanAct(e, a, idle, broke) && a.FinDone?
    ensures e.side.die == Ended
  {
  }

  lemma {:induction false} FinThenEnded(s: State, tr: seq<Step>, w: Who, took: bool)
    requires Inv(s) && Runs(s, tr) && (took && !Ends(s, w).side.finWait ==> Ends(s, w).side.die == Ended)
    ensures var sd := Ends(After(s, tr), w).side;
            (took || Both(w, TakeFin) in tr) && !sd.finWait ==> sd.die == Ended
    decreases tr
  {
    hide Inv, Can, Apply, Ends;
    if tr != [] {
      StepKeeps(s, tr[0]);
      StepKeepsFin(s, tr[0], w, took);
      FinThenEnded(Apply(s, tr[0]), tr[1..], w, took || tr[0] == Both(w, TakeFin));
      assert tr == [tr[0]] + tr[1..];
    }
  }
}
