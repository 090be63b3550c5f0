/** What every step of the rail switch keeps. */
module RailInvariant {
  import opened Basics
  import opened Frames
  import opened Carrier
  import opened Rail
  import opened RailSwitch
  import D = Detector

  // ----- one side's lifecycle ---------------------------------------------------

  /** The stream-end thread against the cut-over and the pipe, for a side whose
      outgoing direction is `o` and whose incoming direction is `i`. */
  predicate SideInv(sd: Side, o: Dir, i: Dir) {
    && (i.rx.dropped ==> sd.die != Alive)
    && (i.rx.pipeDone ==> (sd.die != Alive && sd.die != Stored) || (i.rx.rhc && i.rx.pump.Stopped?))
    && (o.tx.diverted ==> sd.conn)
    && (o.tx.whc ==> o.tx.diverted)
    && (sd.die == SawMux ==> !o.tx.diverted)
    && (sd.die == SawCarrier || sd.die == Shutting || sd.die == Checked ==> o.tx.diverted)
    && (sd.die == Shutting || sd.die == Checked ==> o.tx.whc)
    && (sd.die == Ended ==> if o.tx.diverted then o.tx.whc && sd.watchdog else sd.once == Released)
  }

  /** The parts of a direction the lifecycle and the wiring look at. */
  predicate SameSender(d: Dir, d': Dir) {
    && d'.tx.diverted == d.tx.diverted && d'.tx.whc == d.tx.whc
    && d'.mx.barriers == d.mx.barriers && d'.rx.barTaken == d.rx.barTaken
    && (!d.tx.diverted && d.cr.car == [] ==> d'.cr.car == [])
    && (d.cr.fin ==> d'.cr.fin)
  }

  predicate SameReceiver(d: Dir, d': Dir) {
    && d'.rx.dropped == d.rx.dropped && d'.rx.pipeDone == d.rx.pipeDone
    && d'.rx.rhc == d.rx.rhc && d'.rx.pump == d.rx.pump
    && d'.rx.barTaken == d.rx.barTaken
  }

  lemma SendEffect(d: Dir, mv: Move)
    requires IsSend(mv) && Enabled(d, mv)
    ensures SameSender(d, Do(d, mv)) && SameReceiver(d, Do(d, mv))
    ensures !d.tx.diverted ==> Do(d, mv).cr.car == d.cr.car
  {
    hide Flatten, DataItems;
    match mv
    case PushOk(_, _) =>
    case PushFail(_, _, _) =>
    case PushDead(_) =>
    case RawOk(_) =>
    case RawShort(_, _) =>
    case RawFail(_, _, _) =>
    case RawVoid(_, _) =>
    case RawDead(_) =>
    case BreakMux =>
  }

  /** A byte meets a closed pipe only if the stream is dying: after a clean end
      of B there is nothing left to hand over. */
  lemma NoDropAfterEof(d: Dir, mv: Move)
    requires DirInv(d) && Enabled(d, mv) && (mv.TakeDrop? || mv.Abandon? || mv.FetchDrop? || mv.Cancel?)
    ensures d.rx.pipeDone && !d.rx.rhc
  {
    hide Flow, Payloads, Count, Sealed;
  }

  predicate RecvChange(d: Dir, d': Dir) {
    && (d'.rx.dropped ==> d.rx.dropped || (d.rx.pipeDone && !d.rx.rhc))
    && (d'.rx.pipeDone ==> d.rx.pipeDone || (d'.rx.rhc && d'.rx.pump.Stopped?))
    && (d.rx.rhc && d.rx.pump.Stopped? ==> d'.rx.rhc && d'.rx.pump.Stopped?)
    && (d.rx.pump.Off? <==> d'.rx.pump.Off?)
    && (d.rx.rhc ==> d'.rx.rhc)
  }

  lemma OffMuxRecv(d: Dir, mv: Move)
    requires DirInv(d) && IsRecv(mv) && KindOf(mv).OffMux? && Enabled(d, mv)
    ensures SameSender(d, Do(d, mv)) && RecvChange(d, Do(d, mv)) && Do(d, mv).cr == d.cr
  {
    hide DirInv;
    match mv
    case TakeData =>
    case TakeDrop => NoDropAfterEof(d, mv);
    case Hand(_) =>
    case Abandon => NoDropAfterEof(d, mv);
  }

  lemma OffBRecv(d: Dir, mv: Move)
    requires DirInv(d) && IsRecv(mv) && KindOf(mv).OffB? && Enabled(d, mv)
    ensures SameSender(d, Do(d, mv)) && RecvChange(d, Do(d, mv)) && !d.rx.pump.Off?
  {
    hide DoOnMux, DoOnB, DoOffMux, CanOnMux, CanOnB, CanOffMux;
    hide Flow, Tally, Pumped, Payloads, Count, Sealed, NoData;
    match mv
    case Fetch(_, _) =>
    case FetchDrop(_) => NoDropAfterEof(d, mv);
    case FetchEof =>
    case FetchErr =>
    case Feed(_) =>
    case Next =>
    case Cancel => NoDropAfterEof(d, mv);
    case MarkEof =>
    case CloseWriter =>
  }

  lemma RecvKinds(mv: Move)
    requires IsRecv(mv)
    ensures KindOf(mv).OffMux? || KindOf(mv).OffB?
  {
  }

  lemma RecvEffect(d: Dir, mv: Move)
    requires DirInv(d) && IsRecv(mv) && Enabled(d, mv)
    ensures SameSender(d, Do(d, mv)) && RecvChange(d, Do(d, mv))
    ensures d.rx.pump.Off? ==> Do(d, mv).cr.car == d.cr.car
  {
    RecvKinds(mv);
    hide DirInv, IsRecv, Enabled, Do, KindOf, SameSender, RecvChange;
    if KindOf(mv).OffMux? {
      OffMuxRecv(d, mv);
    } else {
      OffBRecv(d, mv);
    }
  }

  /** A step of one side keeps that side's lifecycle, and the peer's. */
  predicate Lively(e: End, peer: Side) {
    SideInv(e.side, e.o, e.i) && SideInv(peer, e.i, e.o)
  }

  lemma BytesKeepSide(e: End, a: Act, idle: bool, broke: bool, peer: Side)
    requires CanAct(e, a, idle, broke) && DirInv(e.i) && (a.Send? || a.Recv? || a.Reset?)
    requires Lively(e, peer)
    ensures Lively(DoAct(e, a, idle, broke), peer)
  {
    hide DirInv, Do;
    match a
    case Send(mv) => SendEffect(e.o, mv);
    case Recv(mv) => RecvEffect(e.i, mv);
    case Reset(k) => LoseEffect(e.i, k);
  }

  lemma LoseEffect(d: Dir, k: nat)
    requires k <= |d.cr.car|
    ensures Enabled(d, Lose(k)) && SameSender(d, Do(d, Lose(k))) && SameReceiver(d, Do(d, Lose(k)))
    ensures Do(d, Lose(k)).cr.car <= d.cr.car
  {
    hide DoOnMux, DoOffMux, DoOffB;
  }

  // What single moves do, exactly.

  lemma RetireEffect(d: Dir)
    ensures Enabled(d, Retire) && Do(d, Retire) == d.(tx := d.tx.(whc := true))
  {
    hide DoOnMux, DoOffMux, DoOffB;
  }

  lemma ShutOutEffect(d: Dir)
    ensures ShutOut(d) == d.(cr := d.cr.(fin := d.cr.fin || !d.cr.torn))
  {
    hide DoOnMux, DoOffMux, DoOffB;
  }

  lemma TakeNoteEffect(d: Dir)
    requires Enabled(d, TakeNote)
    ensures Do(d, TakeNote) == d.(mx := d.mx.(items := d.mx.items[1..]))
  {
    hide DoOnMux, DoOnB, DoOffB;
  }

  lemma ClosePipeEffect(d: Dir)
    ensures Enabled(d, ClosePipe) && Do(d, ClosePipe) == d.(rx := d.rx.(pipeDone := true))
  {
    hide DoOnMux, DoOnB, DoOffB;
  }

  lemma StopEffect(d: Dir)
    requires d.rx.pump.AtError?
    ensures Enabled(d, Stop) && Do(d, Stop) == d.(rx := d.rx.(pump := Stopped))
  {
    hide DoOnMux, DoOnB, DoOffMux;
  }

  lemma DyingKeepsSide(e: End, a: Act, idle: bool, broke: bool, peer: Side)
    requires CanAct(e, a, idle, broke) && Lively(e, peer) && (a.Die? || a.DieLook? || a.DieArm? || a.DieReleased?)
    ensures Lively(DoAct(e, a, idle, broke), peer)
  {
    hide Do, ShutOut, Enabled;
    match a
    case Die =>
    case DieLook =>
    case DieArm =>
    case DieReleased =>
  }

  lemma DieKeepsSide(e: End, a: Act, idle: bool, broke: bool, peer: Side)
    requires CanAct(e, a, idle, broke) && Lively(e, peer) && (a.DiePipe? || a.DieCas? || a.DieShut?)
    ensures Lively(DoAct(e, a, idle, broke), peer)
  {
    hide Do, ShutOut, Enabled;
    match a
    case DiePipe => ClosePipeEffect(e.i);
    case DieCas => RetireEffect(e.o);
    case DieShut => ShutEffect(e.o);
  }

  lemma ShutEffect(d: Dir)
    ensures SameSender(d, ShutOut(d)) && SameReceiver(d, ShutOut(d)) && ShutOut(d).cr.car == d.cr.car
  {
    ShutOutEffect(d);
    hide ShutOut;
  }

  lemma CloseWriteKeepsSide(e: End, a: Act, idle: bool, broke: bool, peer: Side)
    requires CanAct(e, a, idle, broke) && Lively(e, peer) && (a.CloseWrite? || a.CloseWriteDone?)
    ensures Lively(DoAct(e, a, idle, broke), peer)
  {
    hide Do, ShutOut, Enabled;
    if a.CloseWrite? {
      RetireEffect(e.o);
    } else {
      ShutEffect(e.o);
    }
  }

  lemma OnceKeepsSide(e: End, a: Act, idle: bool, broke: bool, peer: Side)
    requires CanAct(e, a, idle, broke) && Lively(e, peer)
    requires a.FinDone? || a.OnceEnter? || a.OnceNoConn? || a.OnceDone?
    ensures Lively(DoAct(e, a, idle, broke), peer)
  {
    hide Do, ShutOut, Enabled;
  }

  lemma OnceCloseKeepsSide(e: End, a: Act, idle: bool, broke: bool, peer: Side)
    requires CanAct(e, a, idle, broke) && Lively(e, peer) && (a.OnceClose?)
    ensures Lively(DoAct(e, a, idle, broke), peer)
  {
    hide Do, ShutOut, Enabled;
    ShutEffect(e.o);
  }

  lemma TakeFinKeepsSide(e: End, a: Act, idle: bool, broke: bool, peer: Side)
    requires CanAct(e, a, idle, broke) && Lively(e, peer) && (a.TakeFin?)
    ensures Lively(DoAct(e, a, idle, broke), peer)
  {
    hide Do, ShutOut, Enabled;
    TakeNoteEffect(e.i);
  }

  lemma GaveUpKeepsSide(e: End, a: Act, idle: bool, broke: bool, peer: Side)
    requires CanAct(e, a, idle, broke) && Lively(e, peer) && (a.PumpGaveUp?)
    ensures Lively(DoAct(e, a, idle, broke), peer)
  {
    hide Do, ShutOut, Enabled;
    StopEffect(e.i);
  }

  lemma SendFinKeepsSide(e: End, a: Act, idle: bool, broke: bool, peer: Side)
    requires CanAct(e, a, idle, broke) && Lively(e, peer) && (a.SendFin?)
    ensures Lively(DoAct(e, a, idle, broke), peer)
  {
    hide Do, ShutOut, Enabled;
    SendFinEffect(e, a.how, idle, broke);
  }

  /** Another control frame touches the mux alone. */
  lemma NotingEffect(d: Dir, how: Sending, item: Item)
    requires Enabled(d, Noting(how, item))
    ensures var d' := Do(d, Noting(how, item));
            d' == d.(mx := d'.mx) && d'.mx.barriers == d.mx.barriers
  {
    match how
    case Sent =>
    case Unsent =>
    case SentLate =>
  }

  lemma SendFinEffect(e: End, how: Sending, idle: bool, broke: bool)
    requires CanAct(e, SendFin(how), idle, broke)
    ensures var e' := DoAct(e, SendFin(how), idle, broke);
            && SameSender(e.o, e'.o) && SameReceiver(e.o, e'.o) && e'.o.cr.car == e.o.cr.car
            && e'.i == e.i && e'.side == e.side.(finSent := true)
  {
    NotingEffect(e.o, how, Fin);
  }

  lemma SideKeeps(e: End, a: Act, idle: bool, broke: bool, peer: Side)
    requires CanAct(e, a, idle, broke) && DirInv(e.i) && Lively(e, peer)
    ensures Lively(DoAct(e, a, idle, broke), peer)
  {
    hide *;
    if a.Send? || a.Recv? || a.Reset? {
      BytesKeepSide(e, a, idle, broke, peer);
    } else if a.DiePipe? || a.DieCas? || a.DieShut? {
      DieKeepsSide(e, a, idle, broke, peer);
    } else if a.Die? || a.DieLook? || a.DieArm? || a.DieReleased? {
      DyingKeepsSide(e, a, idle, broke, peer);
    } else if a.CloseWrite? || a.CloseWriteDone? {
      CloseWriteKeepsSide(e, a, idle, broke, peer);
    } else if a.OnceClose? {
      OnceCloseKeepsSide(e, a, idle, broke, peer);
    } else if a.TakeFin? {
      TakeFinKeepsSide(e, a, idle, broke, peer);
    } else if a.PumpGaveUp? {
      GaveUpKeepsSide(e, a, idle, broke, peer);
    } else if a.SendFin? {
      SendFinKeepsSide(e, a, idle, broke, peer);
    } else {
      OnceKeepsSide(e, a, idle, broke, peer);
    }
  }

  // ----- bytes ------------------------------------------------------------------------

  lemma ShutKeeps(d: Dir)
    requires DirInv(d)
    ensures DirInv(ShutOut(d))
  {
    hide DirInv, Do;
    if !d.cr.torn {
      MoveKeeps(d, Shut);
    }
  }

  lemma ActKeepsDirs(e: End, a: Act, idle: bool, broke: bool)
    requires CanAct(e, a, idle, broke) && DirInv(e.o) && DirInv(e.i)
    ensures var e' := DoAct(e, a, idle, broke); DirInv(e'.o) && DirInv(e'.i)
  {
    hide DirInv, Do, ShutOut;
    match a
    case Send(mv) => MoveKeeps(e.o, mv);
    case Recv(mv) => MoveKeeps(e.i, mv);
    case Reset(k) => MoveKeeps(e.i, Lose(k));
    case CloseWrite => MoveKeeps(e.o, Retire);
    case CloseWriteDone => ShutKeeps(e.o);
    case Die =>
    case DiePipe => MoveKeeps(e.i, ClosePipe);
    case DieLook =>
    case DieCas => MoveKeeps(e.o, Retire);
    case DieShut => ShutKeeps(e.o);
    case DieArm =>
    case DieReleased =>
    case SendFin(how) => MoveKeeps(e.o, Noting(how, Fin));
    case TakeFin => MoveKeeps(e.i, TakeNote);
    case FinDone =>
    case OnceEnter(_) =>
    case OnceClose => ShutKeeps(e.o);
    case OnceNoConn =>
    case OnceDone =>
    case PumpGaveUp => MoveKeeps(e.i, Stop);
  }

  // ----- the client's cut-over -----------------------------------------------------------

  predicate Calling(pc: CutPc) {
    pc == AtReady || pc == AtGo || pc == AtOnce
  }

  /** The two store-then-check threads of the client. If one has returned without
      committing, the other is still on its way to commit. */
  predicate CutInv(c: Client, up: Dir, down: Dir) {
    && c.commits == (if c.cut == NotRun then 0 else 1)
    && (c.commits == 1 ==> c.bReady && c.goSeen)
    && (up.tx.diverted ==> c.commits == 1)
    && (c.bReady <==> c.dial == Announced)
    && (c.dialCut != NotCalled <==> c.bReady)
    && (c.recvCut != NotCalled <==> c.goSeen)
    && (c.dialCut == AtOnce ==> c.goSeen)
    && (c.recvCut == AtGo || c.recvCut == AtOnce ==> c.bReady)
    && (c.dialCut == Returned && c.commits == 0 ==> !c.goSeen || Calling(c.recvCut))
    && (c.recvCut == Returned && c.commits == 0 ==> !c.bReady || Calling(c.dialCut))
    && (c.goSeen ==> down.rx.barTaken)
    && (c.cut != Done ==> down.rx.pump.Off?)
    && (c.cut.Body? ==> CutOf(c, c.cut.runner) == AtOnce)
    && (c.side.conn <==> c.dial == Published || c.dial == Opened || c.dial == OpenFailed || c.dial == Announced)
    && (c.dial != DialIdle ==> c.offersTaken >= 1)
  }

  /** The client's steps that move no frame and no byte. */
  predicate PcOnly(a: ClientAct) {
    a.Dialled? || a.Publish? || a.Announce? || a.LoadReady? || a.LoadGo? || a.Skip?
  }

  lemma PcOnlyEffect(s: State, a: ClientAct)
    requires CanClient(s, a) && PcOnly(a)
    ensures var s' := ApplyClient(s, a);
            && s' == s.(cl := s'.cl) && s'.cl.filler == s.cl.filler
            && s'.cl.side == s.cl.side.(conn := s.cl.side.conn || a.Publish?)
            && s'.cl.dial == (match a case Dialled(ok) => if ok then Connected else DialFailed
                                      case Publish => Published case Announce => Announced case _ => s.cl.dial)
  {
    hide Do, Enabled, Preload, Opening;
    match a
    case Dialled(_) =>
    case Publish =>
    case Announce =>
    case LoadReady(_) =>
    case LoadGo(_) =>
    case Skip(_) =>
  }

  lemma CutKeepsPc(s: State, a: ClientAct)
    requires CanClient(s, a) && CutInv(s.cl, s.up, s.down) && PcOnly(a)
    ensures var s' := ApplyClient(s, a); CutInv(s'.cl, s'.up, s'.down)
  {
    hide Do, Enabled, Preload, Opening;
    match a
    case Dialled(_) =>
    case Publish =>
    case Announce =>
    case LoadReady(_) =>
    case LoadGo(_) =>
    case Skip(_) =>
  }

  lemma CutKeepsClient(s: State, a: ClientAct)
    requires CanClient(s, a) && CutInv(s.cl, s.up, s.down)
    requires a.TakeOffer? ==> s.cl.dial == DialIdle
    ensures var s' := ApplyClient(s, a); CutInv(s'.cl, s'.up, s'.down)
  {
    if PcOnly(a) {
      hide CanClient, ApplyClient, CutInv;
      CutKeepsPc(s, a);
    } else {
      CutKeepsWork(s, a);
    }
  }

  lemma CutKeepsWork(s: State, a: ClientAct)
    requires CanClient(s, a) && CutInv(s.cl, s.up, s.down) && !PcOnly(a)
    requires a.TakeOffer? ==> s.cl.dial == DialIdle
    ensures var s' := ApplyClient(s, a); CutInv(s'.cl, s'.up, s'.down)
  {
    hide Do, Opening, Preload;
    match a
    case TakeOffer(_) => TakeNoteEffect(s.down);
    case OpenB(filler) => PreloadEffect(s, Opening(s.sid, s.token, filler));
    case OpenBFail(filler, k) => PreloadEffect(s, Opening(s.sid, s.token, filler)[..k]);
    case TakeGo(_) => BarrierEffect(s.down);
    case Commit(_, _) =>
    case Spawn(_) => StartEffect(s.down);
  }

  lemma BarrierEffect(d: Dir)
    requires Enabled(d, TakeBarrier)
    ensures Do(d, TakeBarrier) == d.(mx := d.mx.(items := d.mx.items[1..]), rx := d.rx.(barTaken := true))
  {
  }

  lemma StartEffect(d: Dir)
    requires Enabled(d, Rail.Start)
    ensures d.rx.pump.Off? && Do(d, Rail.Start) == d.(rx := d.rx.(pump := Reading))
  {
  }

  lemma PreloadEffect(s: State, bytes: seq<byte>)
    ensures var d := Preload(s, bytes);
            d == s.up || (s.sv.listener == Waiting && !s.up.tx.diverted && d == s.up.(cr := s.up.cr.(car := bytes)))
  {
  }

  /** Everything else leaves the cut-over alone. */
  lemma CutKeepsOther(c: Client, c': Client, up: Dir, up': Dir, down: Dir, down': Dir)
    requires CutInv(c, up, down)
    requires c' == c.(side := c'.side) && c'.side.conn == c.side.conn
    requires up'.tx.diverted == up.tx.diverted
    requires (down.rx.barTaken ==> down'.rx.barTaken) && (down.rx.pump.Off? ==> down'.rx.pump.Off?)
    ensures CutInv(c', up', down')
  {
  }

  // ----- the gate ---------------------------------------------------------------------------

  /** What stands behind the server's verdict and its offer. */
  predicate GateInv(v: Server) {
    && D.Sound(v.det) && D.Paths(v.det)
    && (v.tapsDone ==> v.det.phase == D.Ready || v.det.phase == D.Aborted)
    && (v.det.phase != D.Init ==> v.payload)
    && (v.det.phase == D.Init || v.det.phase == D.ClientHello || v.det.phase == D.ServerHello ==> v.muxSinceDone == 0)
    && (v.det.phase == D.HandshakeDone ==> v.muxSinceDone == v.det.sinceDone)
    && (v.det.phase == D.Ready && v.det.helloSeen ==> v.muxSinceDone >= v.det.minBulk)
    && (v.trig != NotTriggered ==> v.det.phase == D.Ready)
    && (v.pending ==> v.trig == Registered || v.trig == Offered)
    && (v.listener != Waiting && v.listener != Dropped ==> v.det.phase == D.Ready)
  }

  lemma TapKeepsGate(v: Server, o: D.Obs)
    requires GateInv(v)
    ensures GateInv(if o.Up? then TapUplink(v, o.p) else TapDown(v, o.p))
  {
    hide D.Observe, D.Sound, D.Paths;
    if !v.tapsDone && v.payload {
      D.ObserveGate(v.det, o);
      D.ObserveKeepsPaths(v.det, o);
      D.ObserveKeepsConfig(v.det, o);
      GateAdvances(v, o);
    }
  }

  lemma GateAdvances(v: Server, o: D.Obs)
    requires GateInv(v) && !v.tapsDone && v.payload
    requires D.Paths(D.Observe(v.det, o))
    ensures GateInv(if o.Up? then TapUplink(v, o.p) else TapDown(v, o.p))
  {
    hide D.Observe, D.Sound;
    D.ObserveGate(v.det, o);
    D.ObserveKeepsConfig(v.det, o);
  }

  lemma GateKeeps(s: State, a: ServerAct)
    requires CanServer(s, a) && GateInv(s.sv)
    ensures GateInv(ApplyServer(s, a).sv)
  {
    hide D.Observe, D.Sound, D.Paths, Do, Enabled, Inspect, BeginUplink;
    match a
    case BeginPayload =>
    case TapUp(p) => TapKeepsGate(s.sv, D.Up(p));
    case Win =>
    case Register =>
    case SendOffer(_) =>
    case Expire =>
    case Accept =>
    case AcceptUnknown =>
    case AcceptFail =>
    case Attach(_) =>
    case Refuse =>
    case CloseRefused =>
    case TakeUplinkFin(_) =>
  }

  // ----- the wiring ----------------------------------------------------------------------------

  /** What the client has written to open B. */
  function Preamble(s: State): seq<byte> {
    if Config(s.sid, s.token) && PAD_MIN <= |s.cl.filler| < PAD_MIN + PAD_RANGE
       && (s.cl.dial == Opened || s.cl.dial == OpenFailed || s.cl.dial == Announced)
    then Opening(s.sid, s.token, s.cl.filler) else []
  }

  /** Until the server has accepted B it holds at most the opening frame; from
      then on, until the client diverts, nothing. */
  predicate WireInv(s: State) {
    && (s.sv.listener == Attached <==> s.down.tx.diverted)
    && (!s.down.tx.diverted ==> s.down.cr.car == [])
    && (s.sv.listener == Waiting ==> !s.up.tx.diverted && s.up.cr.car <= Preamble(s))
    && (s.sv.listener != Waiting && !s.up.tx.diverted ==> s.up.cr.car == [])
    && (s.sv.listener == Refused ==> s.sv.side.gone)
  }

  /** How far a shared step can reach into the wiring. */
  predicate WireChange(e: End, e': End) {
    && e'.o.tx.diverted == e.o.tx.diverted && e'.i.tx.diverted == e.i.tx.diverted
    && (!e.o.tx.diverted ==> e'.o.cr.car == e.o.cr.car) && (!e.i.tx.diverted ==> e'.i.cr.car <= e.i.cr.car)
    && e'.side.conn == e.side.conn && (e.side.gone ==> e'.side.gone)
    && e'.o.rx.barTaken == e.o.rx.barTaken && e'.i.rx.barTaken == e.i.rx.barTaken
    && e'.o.rx.pump == e.o.rx.pump && (e.i.rx.pump.Off? ==> e'.i.rx.pump.Off?)
  }

  lemma ActWire(e: End, a: Act, idle: bool, broke: bool)
    requires CanAct(e, a, idle, broke) && DirInv(e.i)
    ensures WireChange(e, DoAct(e, a, idle, broke))
  {
    if a.Send? || a.Recv? || a.Reset? {
      BytesWire(e, a, idle, broke);
    } else if a.SendFin? {
      SendFinEffect(e, a.how, idle, broke);
    } else {
      QuietWire(e, a, idle, broke);
    }
  }

  lemma NotDivertedNotPumping(d: Dir)
    requires DirInv(d) && !d.tx.diverted
    ensures d.rx.pump.Off? && !d.rx.barTaken && d.mx.barriers == 0
  {
    hide Flow, Payloads, Sealed, NoData;
  }

  lemma BytesWire(e: End, a: Act, idle: bool, broke: bool)
    requires CanAct(e, a, idle, broke) && DirInv(e.i) && (a.Send? || a.Recv? || a.Reset?)
    ensures WireChange(e, DoAct(e, a, idle, broke))
  {
    hide DirInv;
    if !e.i.tx.diverted {
      NotDivertedNotPumping(e.i);
    }
    hide Do, Enabled;
    match a
    case Send(mv) => SendEffect(e.o, mv);
    case Recv(mv) => RecvEffect(e.i, mv);
    case Reset(k) => LoseEffect(e.i, k);
  }

  /** Steps that touch only the side's own program counters. */
  predicate SideOnly(a: Act) {
    || a.Die? || a.DieLook? || a.DieArm? || a.DieReleased? || a.FinDone?
    || a.OnceEnter? || a.OnceNoConn? || a.OnceDone?
  }

  lemma SideOnlyEffect(e: End, a: Act, idle: bool, broke: bool)
    requires CanAct(e, a, idle, broke) && SideOnly(a)
    ensures var e' := DoAct(e, a, idle, broke);
            e' == e.(side := e'.side) && e'.side.conn == e.side.conn && e'.side.gone == e.side.gone
  {
    hide Do, Enabled, ShutOut;
    match a
    case Die =>
    case DieLook =>
    case DieArm =>
    case DieReleased =>
    case FinDone =>
    case OnceEnter(_) =>
    case OnceNoConn =>
    case OnceDone =>
  }

  lemma QuietWire(e: End, a: Act, idle: bool, broke: bool)
    requires CanAct(e, a, idle, broke) && !a.Send? && !a.Recv? && !a.Reset? && !a.SendFin?
    ensures WireChange(e, DoAct(e, a, idle, broke))
  {
    if SideOnly(a) {
      SideOnlyEffect(e, a, idle, broke);
      hide DoAct, CanAct;
    } else {
      WorkWire(e, a, idle, broke);
    }
  }

  lemma WorkWire(e: End, a: Act, idle: bool, broke: bool)
    requires CanAct(e, a, idle, broke) && !a.Send? && !a.Recv? && !a.Reset? && !a.SendFin? && !SideOnly(a)
    ensures WireChange(e, DoAct(e, a, idle, broke))
  {
    hide Do, Enabled, ShutOut;
    match a
    case CloseWrite => RetireEffect(e.o);
    case CloseWriteDone => ShutEffect(e.o);
    case DiePipe => ClosePipeEffect(e.i);
    case DieCas => RetireEffect(e.o);
    case DieShut => ShutEffect(e.o);
    case TakeFin => TakeNoteEffect(e.i);
    case OnceClose => ShutEffect(e.o);
    case PumpGaveUp => StopEffect(e.i);
  }

  lemma BothKeepsWire(s: State, w: Who, a: Act)
    requires Can(s, Both(w, a)) && DirInv(s.up) && DirInv(s.down) && WireInv(s)
    ensures WireInv(ApplyBoth(s, w, a))
  {
    hide DirInv, DoAct, CanAct, TapDown, Opening;
    ActWire(Ends(s, w), a, RecvIdle(s, w), OpenBroke(s, w));
    TapKeepsWiring(s, w, a);
  }

  /** The taps touch the detector and nothing of the wiring. */
  lemma TapKeepsWiring(s: State, w: Who, a: Act)
    requires Can(s, Both(w, a))
    ensures var s' := ApplyBoth(s, w, a);
            var e' := DoAct(Ends(s, w), a, RecvIdle(s, w), OpenBroke(s, w));
            && Ends(s', w) == e' && s'.sid == s.sid && s'.token == s.token
            && s'.cl == (if w.Cl? then s.cl.(side := e'.side) else s.cl)
            && s'.sv.listener == s.sv.listener && s'.sv.trig == s.sv.trig && s'.sv.pending == s.sv.pending
            && (w.Cl? ==> s'.sv == s.sv)
  {
    hide DoAct, CanAct, D.Observe;
  }

  // ----- offers -------------------------------------------------------------------------------------

  /** At most one cmdMigrateReady is ever sent, so at most one carrier is dialled. */
  predicate OfferInv(s: State) {
    Count(s.down.mx.items, Offer) + s.cl.offersTaken <= if s.sv.trig == Offered then 1 else 0
  }

  lemma OfferEffect(d: Dir, mv: Move)
    requires Enabled(d, mv) && (mv.NoteOk? || mv.NoteLate? ==> mv.item == Fin)
    ensures Count(Do(d, mv).mx.items, Offer) <= Count(d.mx.items, Offer)
  {
    match mv
    case PushOk(_, frames) => DataItemsContents(frames, Offer); CountAppend(d.mx.items, DataItems(frames), Offer);
    case PushFail(_, frames, _) => DataItemsContents(frames, Offer); CountAppend(d.mx.items, DataItems(frames), Offer);
    case NoteOk(item) => CountAppend(d.mx.items, [item], Offer); assert [item][1..] == [];
    case NoteLate(item) => CountAppend(d.mx.items, [item], Offer); assert [item][1..] == [];
    case DivertOk => CountAppend(d.mx.items, [Barrier], Offer); assert [Barrier][1..] == [];
    case DivertLate => CountAppend(d.mx.items, [Barrier], Offer); assert [Barrier][1..] == [];
    case _ => OfferUntouched(d, mv);
  }

  lemma OfferUntouched(d: Dir, mv: Move)
    requires Enabled(d, mv)
    requires !mv.PushOk? && !mv.PushFail? && !mv.NoteOk? && !mv.NoteLate? && !mv.DivertOk? && !mv.DivertLate?
    ensures Count(Do(d, mv).mx.items, Offer) <= Count(d.mx.items, Offer)
  {
    hide Count;
    Effects(d, mv);
    CountTail(d.mx.items);
  }

  lemma CountTail(m: seq<Item>)
    ensures m != [] ==> Count(m, Offer) == Count(m[1..], Offer) + if m[0].Offer? then 1 else 0
  {
  }

  lemma ActKeepsOffers(e: End, a: Act, idle: bool, broke: bool)
    requires CanAct(e, a, idle, broke)
    ensures var e' := DoAct(e, a, idle, broke);
            && Count(e'.o.mx.items, Offer) <= Count(e.o.mx.items, Offer)
            && Count(e'.i.mx.items, Offer) <= Count(e.i.mx.items, Offer)
  {
    hide Do, Enabled, ShutOut, Count;
    match a
    case Send(mv) => SendIsNoNote(e.o, mv); OfferEffect(e.o, mv);
    case Recv(mv) => SendIsNoNote(e.i, mv); OfferEffect(e.i, mv);
    case Reset(k) => ResetEnabled(e.i, k); OfferEffect(e.i, Lose(k));
    case CloseWrite => RetireEffect(e.o); OfferEffect(e.o, Retire);
    case CloseWriteDone => ShutMux(e.o);
    case Die =>
    case DiePipe => ClosePipeEffect(e.i); OfferEffect(e.i, ClosePipe);
    case DieLook =>
    case DieCas => RetireEffect(e.o); OfferEffect(e.o, Retire);
    case DieShut => ShutMux(e.o);
    case DieArm =>
    case DieReleased =>
    case SendFin(how) => FinOffers(e, how, idle, broke);
    case TakeFin => OfferEffect(e.i, TakeNote);
    case FinDone =>
    case OnceEnter(_) =>
    case OnceClose => ShutMux(e.o);
    case OnceNoConn =>
    case OnceDone =>
    case PumpGaveUp => StopEffect(e.i);
  }

  lemma SendIsNoNote(d: Dir, mv: Move)
    requires IsSend(mv) || IsRecv(mv)
    ensures !mv.NoteOk? && !mv.NoteLate?
  {
  }

  lemma ResetEnabled(d: Dir, k: nat)
    requires k <= |d.cr.car|
    ensures Enabled(d, Lose(k))
  {
  }

  lemma ShutMux(d: Dir)
    ensures ShutOut(d).mx.items == d.mx.items
  {
  }

  lemma FinOffers(e: End, how: Sending, idle: bool, broke: bool)
    requires CanAct(e, SendFin(how), idle, broke)
    ensures var e' := DoAct(e, SendFin(how), idle, broke);
            Count(e'.o.mx.items, Offer) <= Count(e.o.mx.items, Offer) && e'.i == e.i
  {
    hide Count;
    OfferEffect(e.o, Noting(how, Fin));
  }

  // ----- the client's own steps --------------------------------------------------------------------

  lemma PreloadKeeps(s: State, bytes: seq<byte>)
    requires DirInv(s.up)
    ensures DirInv(Preload(s, bytes))
  {
    hide DirInv, Do;
    if s.sv.listener == Waiting && !s.up.cr.lost && !s.up.tx.diverted && !s.cl.side.gone {
      MoveKeeps(s.up, SetCar(bytes));
    }
  }

  /** When the client commits, the server has already stripped the opening frame. */
  lemma CommitFindsEmptyB(s: State)
    requires DirInv(s.down) && WireInv(s) && s.cl.goSeen && !s.up.tx.diverted
    requires s.down.rx.barTaken
    ensures s.up.cr.car == [] && s.sv.listener == Attached
  {
    hide Flow, Closing, Payloads, Sealed, NoData, Opening;
  }

  lemma ClientKeepsDirs(s: State, a: ClientAct)
    requires CanClient(s, a) && DirInv(s.up) && DirInv(s.down) && WireInv(s) && CutInv(s.cl, s.up, s.down)
    ensures var s' := ApplyClient(s, a); DirInv(s'.up) && DirInv(s'.down)
  {
    hide DirInv, Do, Preload, Opening, WireInv;
    match a
    case TakeOffer(_) => MoveKeeps(s.down, TakeNote);
    case Dialled(_) =>
    case Publish =>
    case OpenB(filler) => PreloadKeeps(s, Opening(s.sid, s.token, filler));
    case OpenBFail(filler, k) => PreloadKeeps(s, Opening(s.sid, s.token, filler)[..k]);
    case Announce =>
    case TakeGo(_) => MoveKeeps(s.down, TakeBarrier);
    case LoadReady(_) =>
    case LoadGo(_) =>
    case Commit(_, how) => CommitKeepsDirs(s, a);
    case Spawn(_) => MoveKeeps(s.down, Rail.Start);
    case Skip(_) =>
  }

  lemma CommitKeepsDirs(s: State, a: ClientAct)
    requires CanClient(s, a) && a.Commit?
    requires DirInv(s.up) && DirInv(s.down) && WireInv(s) && CutInv(s.cl, s.up, s.down)
    ensures var s' := ApplyClient(s, a); DirInv(s'.up) && DirInv(s'.down)
  {
    hide DirInv, Do, WireInv;
    if s.cl.side.die == Alive {
      CommitFindsEmptyB(s);
      MoveKeeps(s.up, Diverting(a.how));
    }
  }

  lemma PcKeepsWire(s: State, a: ClientAct)
    requires CanClient(s, a) && WireInv(s) && PcOnly(a)
    ensures WireInv(ApplyClient(s, a))
  {
    PcOnlyEffect(s, a);
    PreambleGrows(s, a);
    hide ApplyClient, CanClient, Preamble, Opening;
  }

  lemma PreambleGrows(s: State, a: ClientAct)
    requires CanClient(s, a) && PcOnly(a)
    ensures Preamble(s) <= Preamble(ApplyClient(s, a))
  {
    PcOnlyEffect(s, a);
    hide ApplyClient, Opening, Do, Enabled;
  }

  lemma ClientKeepsWire(s: State, a: ClientAct)
    requires CanClient(s, a) && DirInv(s.down) && WireInv(s) && CutInv(s.cl, s.up, s.down)
    requires a.TakeOffer? ==> s.cl.dial == DialIdle
    ensures WireInv(ApplyClient(s, a))
  {
    if PcOnly(a) {
      hide CanClient, ApplyClient, WireInv, CutInv, DirInv;
      PcKeepsWire(s, a);
    } else {
      WorkKeepsWire(s, a);
    }
  }

  lemma WorkKeepsWire(s: State, a: ClientAct)
    requires CanClient(s, a) && DirInv(s.down) && WireInv(s) && CutInv(s.cl, s.up, s.down) && !PcOnly(a)
    requires a.TakeOffer? ==> s.cl.dial == DialIdle
    ensures WireInv(ApplyClient(s, a))
  {
    hide DirInv, Do, Opening, Preload;
    match a
    case TakeOffer(_) => TakeNoteEffect(s.down);
    case OpenB(filler) => PreloadEffect(s, Opening(s.sid, s.token, filler)); OpeningIsPreamble(s, a);
    case OpenBFail(filler, k) => PreloadEffect(s, Opening(s.sid, s.token, filler)[..k]); OpeningIsPreamble(s, a);
    case TakeGo(_) => BarrierEffect(s.down);
    case Commit(_, how) => if s.cl.side.die == Alive { CommitFindsEmptyB(s); DivertEffect(s.up, how); }
    case Spawn(_) => StartEffect(s.down);
  }

  lemma OpeningIsPreamble(s: State, a: ClientAct)
    requires CanClient(s, a) && (a.OpenB? || a.OpenBFail?)
    ensures Preamble(s) == [] && Preamble(ApplyClient(s, a)) == Opening(s.sid, s.token, a.filler)
  {
    hide Do, Opening;
  }

  lemma PcKeepsSides(s: State, a: ClientAct)
    requires CanClient(s, a) && Lively(Ends(s, Cl), s.sv.side) && PcOnly(a)
    ensures var s' := ApplyClient(s, a); Lively(Ends(s', Cl), s'.sv.side)
  {
    PcOnlyEffect(s, a);
    hide ApplyClient, CanClient;
  }

  lemma ClientKeepsSides(s: State, a: ClientAct)
    requires CanClient(s, a) && Lively(Ends(s, Cl), s.sv.side) && CutInv(s.cl, s.up, s.down)
    ensures var s' := ApplyClient(s, a); Lively(Ends(s', Cl), s'.sv.side)
  {
    if PcOnly(a) {
      hide CanClient, ApplyClient, Lively, CutInv;
      PcKeepsSides(s, a);
    } else {
      WorkKeepsSides(s, a);
    }
  }

  lemma WorkKeepsSides(s: State, a: ClientAct)
    requires CanClient(s, a) && Lively(Ends(s, Cl), s.sv.side) && CutInv(s.cl, s.up, s.down) && !PcOnly(a)
    ensures var s' := ApplyClient(s, a); Lively(Ends(s', Cl), s'.sv.side)
  {
    hide Do, Opening, Preload;
    match a
    case TakeOffer(_) => TakeNoteEffect(s.down);
    case OpenB(filler) => PreloadEffect(s, Opening(s.sid, s.token, filler));
    case OpenBFail(filler, k) => PreloadEffect(s, Opening(s.sid, s.token, filler)[..k]);
    case TakeGo(_) => BarrierEffect(s.down);
    case Commit(_, how) => CommitKeepsSides(s, a);
    case Spawn(_) => SpawnKeepsSides(s, a);
  }

  lemma CommitKeepsSides(s: State, a: ClientAct)
    requires CanClient(s, a) && a.Commit? && Lively(Ends(s, Cl), s.sv.side) && CutInv(s.cl, s.up, s.down)
    ensures var s' := ApplyClient(s, a); Lively(Ends(s', Cl), s'.sv.side)
  {
    if s.cl.side.die == Alive {
      DivertEffect(s.up, a.how);
    }
  }

  lemma DivertEffect(d: Dir, how: Sending)
    requires Enabled(d, Diverting(how))
    ensures var d' := Do(d, Diverting(how));
            d'.tx.diverted && d'.tx.whc == d.tx.whc && d'.cr.car == d.cr.car && SameReceiver(d, d')
  {
  }

  lemma SpawnKeepsSides(s: State, a: ClientAct)
    requires CanClient(s, a) && a.Spawn? && Lively(Ends(s, Cl), s.sv.side)
    ensures var s' := ApplyClient(s, a); Lively(Ends(s', Cl), s'.sv.side)
  {
    hide Do;
    StartEffect(s.down);
  }

  // ----- the server's own steps -----------------------------------------------------------------------

  lemma BeginUplinkKeeps(d: Dir, conn: bool)
    requires DirInv(d)
    ensures DirInv(BeginUplink(d, conn))
  {
    hide DirInv, Do;
    if conn && Enabled(d, Rail.Start) {
      MoveKeeps(d, Rail.Start);
    }
  }

  lemma ServerKeepsDirs(s: State, a: ServerAct)
    requires CanServer(s, a) && DirInv(s.up) && DirInv(s.down) && WireInv(s)
    ensures var s' := ApplyServer(s, a); DirInv(s'.up) && DirInv(s'.down)
  {
    hide DirInv, Do, Inspect, Opening, BeginUplink, TapUplink, ShutOut;
    match a
    case BeginPayload =>
    case TapUp(_) =>
    case Win =>
    case Register =>
    case SendOffer(how) => MoveKeeps(s.down, Noting(how, Offer));
    case Expire =>
    case Accept => MoveKeeps(s.up, SetCar(Inspect(s.up.cr.car).rest));
    case AcceptUnknown => MoveKeeps(s.up, SetCar([])); ShutKeeps(s.down);
    case AcceptFail => MoveKeeps(s.up, SetCar([])); ShutKeeps(s.down);
    case Attach(how) => MoveKeeps(s.down, Diverting(how));
    case Refuse =>
    case CloseRefused => ShutKeeps(s.down);
    case TakeUplinkFin(late) =>
      MoveKeeps(s.up, TakeBarrier);
      BeginUplinkKeeps(Do(s.up, TakeBarrier), !late && s.sv.side.conn);
  }

  /** Accepting B takes exactly the opening frame off it. */
  lemma AcceptStrips(s: State)
    requires Config(s.sid, s.token) && WireInv(s) && CanServer(s, Accept)
    ensures Inspect(s.up.cr.car) == Claimed(s.token, [])
  {
    hide Opening;
    assert |s.up.cr.car| >= HEADER_SIZE;
    hide Inspect;
    InspectPrefix(s.sid, s.token, s.cl.filler, s.up.cr.car);
  }

  lemma ServerKeepsWire(s: State, a: ServerAct)
    requires Config(s.sid, s.token) && CanServer(s, a) && DirInv(s.up) && WireInv(s)
    ensures WireInv(ApplyServer(s, a))
  {
    hide DirInv, Do, Enabled, Inspect, Opening, BeginUplink, TapUplink, ShutOut;
    match a
    case BeginPayload =>
    case TapUp(p) => hide D.Observe; TapUplinkEffect(s.sv, p);
    case Win =>
    case Register =>
    case SendOffer(how) => OfferSent(s.down, how);
    case Expire =>
    case Accept => AcceptStrips(s); SetCarEffect(s.up, []);
    case AcceptUnknown => SetCarEffect(s.up, []); ShutEffect(s.down);
    case AcceptFail => SetCarEffect(s.up, []); ShutEffect(s.down);
    case Attach(how) => DivertEffect(s.down, how);
    case Refuse =>
    case CloseRefused => ShutEffect(s.down);
    case TakeUplinkFin(late) => UplinkBegun(s.up, !late && s.sv.side.conn);
  }

  lemma TapUplinkEffect(v: Server, p: seq<byte>)
    ensures TapUplink(v, p) == v.(det := TapUplink(v, p).det, tapsDone := TapUplink(v, p).tapsDone)
  {
    hide D.Observe;
  }

  lemma SetCarEffect(d: Dir, c: seq<byte>)
    requires !d.tx.diverted
    ensures Do(d, SetCar(c)) == d.(cr := d.cr.(car := c))
  {
  }

  lemma BeginUplinkEffect(d: Dir, conn: bool)
    ensures BeginUplink(d, conn) == d || (d.rx.pump.Off? && BeginUplink(d, conn) == d.(rx := d.rx.(pump := Reading)))
  {
  }

  lemma ServerKeepsSides(s: State, a: ServerAct)
    requires CanServer(s, a) && Lively(Ends(s, Cl), s.sv.side)
    ensures var s' := ApplyServer(s, a); Lively(Ends(s', Cl), s'.sv.side)
  {
    hide Do, Inspect, BeginUplink, TapUplink, ShutOut;
    match a
    case BeginPayload =>
    case TapUp(p) => TapUplinkEffect(s.sv, p);
    case Win =>
    case Register =>
    case SendOffer(how) => OfferSent(s.down, how);
    case Expire =>
    case Accept => SetCarEffect(s.up, Inspect(s.up.cr.car).rest);
    case AcceptUnknown => SetCarEffect(s.up, []); ShutEffect(s.down);
    case AcceptFail => SetCarEffect(s.up, []); ShutEffect(s.down);
    case Attach(how) => AttachKeepsSides(s, how);
    case Refuse =>
    case CloseRefused => ShutEffect(s.down);
    case TakeUplinkFin(late) => UplinkBegun(s.up, !late && s.sv.side.conn);
  }

  lemma AttachKeepsSides(s: State, how: Sending)
    requires CanServer(s, Attach(how)) && Lively(Ends(s, Cl), s.sv.side)
    ensures var s' := ApplyServer(s, Attach(how)); Lively(Ends(s', Cl), s'.sv.side)
  {
    hide Do;
    DivertEffect(s.down, how);
  }

  lemma OfferSent(d: Dir, how: Sending)
    requires Enabled(d, Noting(how, Offer))
    ensures var d' := Do(d, Noting(how, Offer));
            SameSender(d, d') && SameReceiver(d, d') && d'.cr.car == d.cr.car
  {
    NotingEffect(d, how, Offer);
  }

  lemma UplinkBegun(d: Dir, go: bool)
    requires Enabled(d, TakeBarrier)
    ensures var d' := BeginUplink(Do(d, TakeBarrier), go);
            && d'.tx.diverted == d.tx.diverted && d'.cr.car == d.cr.car && d'.tx.whc == d.tx.whc && d'.rx.barTaken
            && d'.rx.dropped == d.rx.dropped && d'.rx.pipeDone == d.rx.pipeDone && d'.rx.rhc == d.rx.rhc
            && (d'.rx.pump == d.rx.pump || d.rx.pump.Off?)
  {
    hide Do, BeginUplink;
    BarrierEffect(d);
    BeginUplinkEffect(Do(d, TakeBarrier), go);
  }

  lemma ServerLeavesCut(s: State, a: ServerAct)
    requires CanServer(s, a)
    ensures var s' := ApplyServer(s, a);
            && s'.cl == s.cl && s'.up.tx.diverted == s.up.tx.diverted
            && s'.down.rx.barTaken == s.down.rx.barTaken && s'.down.rx.pump == s.down.rx.pump
  {
    hide Do, Enabled, Inspect, BeginUplink, TapUplink, ShutOut;
    match a
    case BeginPayload =>
    case TapUp(p) =>
    case Win =>
    case Register =>
    case SendOffer(how) => OfferSent(s.down, how);
    case Expire =>
    case Accept => SetCarEffect(s.up, Inspect(s.up.cr.car).rest);
    case AcceptUnknown => SetCarEffect(s.up, []); ShutEffect(s.down);
    case AcceptFail => SetCarEffect(s.up, []); ShutEffect(s.down);
    case Attach(how) => DivertEffect(s.down, how);
    case Refuse =>
    case CloseRefused => ShutEffect(s.down);
    case TakeUplinkFin(late) => UplinkBegun(s.up, !late && s.sv.side.conn);
  }

  lemma ServerKeepsCut(s: State, a: ServerAct)
    requires CanServer(s, a) && CutInv(s.cl, s.up, s.down)
    ensures var s' := ApplyServer(s, a); CutInv(s'.cl, s'.up, s'.down)
  {
    hide CutInv, ApplyServer, CanServer;
    ServerLeavesCut(s, a);
    var s' := ApplyServer(s, a);
    CutKeepsOther(s.cl, s'.cl, s.up, s'.up, s.down, s'.down);
  }

  lemma ServerKeepsOffers(s: State, a: ServerAct)
    requires CanServer(s, a) && OfferInv(s)
    ensures OfferInv(ApplyServer(s, a))
  {
    hide Do, Inspect, BeginUplink, TapUplink, ShutOut, Count;
    match a
    case BeginPayload =>
    case TapUp(p) => TapUplinkEffect(s.sv, p);
    case Win =>
    case Register =>
    case SendOffer(how) => SendOfferCounts(s, how);
    case Expire =>
    case Accept =>
    case AcceptUnknown => ShutMux(s.down);
    case AcceptFail => ShutMux(s.down);
    case Attach(how) => OfferEffect(s.down, Diverting(how));
    case Refuse =>
    case CloseRefused => ShutMux(s.down);
    case TakeUplinkFin(late) =>
  }

  lemma SendOfferCounts(s: State, how: Sending)
    requires CanServer(s, SendOffer(how)) && OfferInv(s)
    ensures OfferInv(ApplyServer(s, SendOffer(how)))
  {
    CountAppend(s.down.mx.items, [Offer], Offer);
    assert [Offer][1..] == [];
  }

  lemma ClientKeepsOffers(s: State, a: ClientAct)
    requires CanClient(s, a) && OfferInv(s)
    ensures OfferInv(ApplyClient(s, a))
  {
    hide Do, Preload, Count, Opening;
    match a
    case TakeOffer(_) => TakeOfferCounts(s.down);
    case Dialled(_) =>
    case Publish =>
    case OpenB(_) =>
    case OpenBFail(_, _) =>
    case Announce =>
    case TakeGo(_) => OfferEffect(s.down, TakeBarrier);
    case LoadReady(_) =>
    case LoadGo(_) =>
    case Commit(_, _) =>
    case Spawn(_) => StartEffect(s.down);
    case Skip(_) =>
  }

  lemma TakeOfferCounts(d: Dir)
    requires Enabled(d, TakeNote) && d.mx.items[0].Offer?
    ensures Count(Do(d, TakeNote).mx.items, Offer) == Count(d.mx.items, Offer) - 1
  {
    CountTail(d.mx.items);
  }

  /** An offer is only ever taken by a client that has not been asked before. */
  lemma OfferFindsIdleDialer(s: State, late: bool)
    requires CanClient(s, TakeOffer(late)) && OfferInv(s) && CutInv(s.cl, s.up, s.down)
    ensures s.cl.dial == DialIdle
  {
    CountTail(s.down.mx.items);
  }

  // ----- the server's closeOnce --------------------------------------------------------------------------

  /** closeOnce was entered while bConn was still nil: whoever enters it later
      finds it used up, and B is not closed. */
  predicate Spent(sd: Side) {
    !sd.gone && (sd.once == Got(false) || sd.once == ConnShut || sd.once == Released)
  }

  /** On the server that happens only to a stream that has ended without a carrier,
      and such a stream is not given one any more. */
  predicate OnceInv(sd: Side, l: ListenPc) {
    && (Spent(sd) ==> !sd.conn && sd.die != Alive)
    && (sd.conn <==> l == Attached) && (sd.watchdog ==> sd.conn) && (sd.once == Got(true) ==> sd.conn)
    && (l == Waiting || l == Taken || l == Refusing ==> !sd.gone)
    && (l == Attached && sd.gone ==> sd.once == ConnShut || sd.once == Released)
  }

  lemma ActKeepsOnce(e: End, a: Act, idle: bool, l: ListenPc)
    requires CanAct(e, a, idle, false) && SideInv(e.side, e.o, e.i) && OnceInv(e.side, l)
    requires !e.i.rx.pump.Off? ==> e.side.conn
    ensures OnceInv(DoAct(e, a, idle, false).side, l)
  {
    hide Do, Enabled, ShutOut, IsRecv, IsSend;
    match a
    case Send(_) =>
    case Recv(_) =>
    case Reset(_) =>
    case CloseWrite =>
    case CloseWriteDone =>
    case Die =>
    case DiePipe =>
    case DieLook =>
    case DieCas =>
    case DieShut =>
    case DieArm =>
    case DieReleased =>
    case SendFin(_) =>
    case TakeFin =>
    case FinDone =>
    case OnceEnter(_) =>
    case OnceClose =>
    case OnceNoConn =>
    case OnceDone =>
    case PumpGaveUp =>
  }

  /** The uplink barrier was sent only after the downlink one had been received, and
      that one only with the carrier attached. */
  lemma PumpHasCarrier(s: State)
    requires DirInv(s.up) && DirInv(s.down) && CutInv(s.cl, s.up, s.down) && WireInv(s)
    ensures s.up.mx.barriers == 1 ==> s.cl.goSeen && s.down.rx.barTaken && s.sv.listener == Attached
    ensures !s.up.rx.pump.Off? ==> s.sv.listener == Attached
  {
    hide Flow, Closing, Tally, Pumped, Payloads, Sealed, NoData, Opening;
  }

  lemma BothKeepsOnce(s: State, w: Who, a: Act)
    requires Can(s, Both(w, a)) && DirInv(s.up) && DirInv(s.down) && Lively(Ends(s, Cl), s.sv.side)
    requires CutInv(s.cl, s.up, s.down) && WireInv(s) && OnceInv(s.sv.side, s.sv.listener)
    ensures var s' := ApplyBoth(s, w, a); OnceInv(s'.sv.side, s'.sv.listener)
  {
    PumpHasCarrier(s);
    TapKeepsWiring(s, w, a);
    hide DirInv, SideInv, CutInv, WireInv, DoAct, CanAct, TapDown, OnceInv, ApplyBoth;
    if w.Sv? {
      AttachedHasConn(s.sv.side, s.sv.listener);
      ActKeepsOnce(Ends(s, Sv), a, RecvIdle(s, Sv), s.sv.listener);
    }
  }

  lemma AttachedHasConn(sd: Side, l: ListenPc)
    requires OnceInv(sd, l)
    ensures l == Attached ==> sd.conn
  {
  }

  lemma ServerKeepsOnce(s: State, a: ServerAct)
    requires CanServer(s, a) && OnceInv(s.sv.side, s.sv.listener)
    ensures var s' := ApplyServer(s, a); OnceInv(s'.sv.side, s'.sv.listener)
  {
    hide Do, Enabled, Inspect, BeginUplink, TapUplink, ShutOut, D.Observe, Opening;
    match a
    case BeginPayload =>
    case TapUp(p) => TapUplinkEffect(s.sv, p);
    case Win =>
    case Register =>
    case SendOffer(_) =>
    case Expire =>
    case Accept =>
    case AcceptUnknown =>
    case AcceptFail =>
    case Attach(_) =>
    case Refuse =>
    case CloseRefused =>
    case TakeUplinkFin(_) =>
  }

  // ----- the whole invariant ----------------------------------------------------------------------------

  predicate Inv(s: State) {
    && Config(s.sid, s.token)
    && DirInv(s.up) && DirInv(s.down)
    && Lively(Ends(s, Cl), s.sv.side)
    && CutInv(s.cl, s.up, s.down)
    && GateInv(s.sv)
    && WireInv(s)
    && OfferInv(s)
    && OnceInv(s.sv.side, s.sv.listener)
  }

  lemma StartHasInv(sid: nat, token: seq<byte>, minBulk: int, tlsOnly: bool)
    requires Config(sid, token)
    ensures Inv(Start0(sid, token, minBulk, tlsOnly))
  {
    hide DirInv;
    FreshHasInv();
  }

  lemma FreshHasInv()
    ensures DirInv(FRESH)
  {
  }

  lemma BothKeeps(s: State, w: Who, a: Act)
    requires Inv(s) && Can(s, Both(w, a))
    ensures Inv(ApplyBoth(s, w, a))
  {
    hide DirInv, CutInv, GateInv, WireInv, DoAct, CanAct, Count, SideInv, TapDown, OnceInv;
    var e := Ends(s, w);
    var idle, broke := RecvIdle(s, w), OpenBroke(s, w);
    var s' := ApplyBoth(s, w, a);
    ActKeepsDirs(e, a, idle, broke);
    SideKeeps(e, a, idle, broke, if w.Cl? then s.sv.side else s.cl.side);
    BothKeepsWire(s, w, a);
    ActKeepsOffers(e, a, idle, broke);
    ActWire(e, a, idle, broke);
    TapKeepsWiring(s, w, a);
    CutKeepsOther(s.cl, s'.cl, s.up, s'.up, s.down, s'.down);
    BothKeepsGate(s, w, a);
    BothKeepsOnce(s, w, a);
  }

  lemma BothKeepsGate(s: State, w: Who, a: Act)
    requires GateInv(s.sv) && Can(s, Both(w, a))
    ensures GateInv(ApplyBoth(s, w, a).sv)
  {
    hide DoAct, CanAct, D.Observe, D.Sound, D.Paths, TapDown;
    var s1 := PutEnd(s, w, DoAct(Ends(s, w), a, RecvIdle(s, w), OpenBroke(s, w)));
    assert GateInv(s1.sv);
    if w.Sv? && a.Send? && IsPush(a.mv) {
      TapKeepsGate(s1.sv, D.Down(a.mv.b));
    }
  }

  lemma ClientKeeps(s: State, a: ClientAct)
    requires Inv(s) && CanClient(s, a)
    ensures Inv(ApplyClient(s, a))
  {
    hide DirInv, CutInv, GateInv, WireInv, Lively, OfferInv, OnceInv, CanClient;
    if a.TakeOffer? {
      OfferFindsIdleDialer(s, a.late);
    }
    ClientKeepsDirs(s, a);
    ClientKeepsSides(s, a);
    CutKeepsClient(s, a);
    ClientKeepsWire(s, a);
    ClientKeepsOffers(s, a);
  }

  lemma ServerKeeps(s: State, a: ServerAct)
    requires Inv(s) && CanServer(s, a)
    ensures Inv(ApplyServer(s, a))
  {
    hide DirInv, CutInv, GateInv, WireInv, Lively, OfferInv, OnceInv, CanServer;
    ServerKeepsDirs(s, a);
    ServerKeepsSides(s, a);
    ServerKeepsCut(s, a);
    GateKeeps(s, a);
    ServerKeepsWire(s, a);
    ServerKeepsOffers(s, a);
    ServerKeepsOnce(s, a);
  }

  lemma StepKeeps(s: State, st: Step)
    requires Inv(s) && Can(s, st)
    ensures Inv(Apply(s, st))
  {
    hide Inv, ApplyBoth, ApplyClient, ApplyServer, CanClient, CanServer, CanAct;
    match st
    case Both(w, a) => BothKeeps(s, w, a);
    case Client1(a) => ClientKeeps(s, a);
    case Server1(a) => ServerKeeps(s, a);
  }

  lemma {:induction false} RunKeeps(s: State, tr: seq<Step>)
    requires Inv(s) && Runs(s, tr)
    ensures Inv(After(s, tr))
    decreases tr
  {
    hide Inv, Apply, Can;
    if tr != [] {
      StepKeeps(s, tr[0]);
      RunKeeps(Apply(s, tr[0]), tr[1..]);
    }
  }
}
