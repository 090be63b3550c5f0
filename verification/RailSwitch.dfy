/** The rail switch: client and server of one stream, the mux between them, and
    carrier B, as a labelled transition system.

    A step is one `writeMu` critical section, one channel or socket operation,
    or one atomic load or store; threads are program counters in the state.
    Scheduling, random draws, failures and losses are the choice of the next
    step and of its parameters, so a statement about every step sequence is a
    statement about every run. */
module RailSwitch {
  import opened Frames
  import opened Carrier
  import opened Rail
  import D = Detector

  datatype Who = Cl | Sv

  // ----- what both sides have -----------------------------------------------

  /** The thread inside the stream's dieOnce. */
  datatype DiePc =
    | Alive        // dieErr nil
    | Stored       // dieErr stored
    | PipeShut     // pipeR closed
    | SawMux       // closeOnStreamEnd read bWriteConn nil: closeCarrier
    | SawCarrier   // closeOnStreamEnd read it non-nil
    | Shutting     // won bWriteHalfClosed, CloseWrite to come
    | Checked      // CloseWrite done or not ours, watchdog to come
    | Ended

  /** closeCarrier's closeOnce. */
  datatype OncePc = Idle | Got(conn: bool) | ConnShut | Released

  datatype Side = Side(
    conn: bool,      // bConn != nil
    die: DiePc,
    once: OncePc,
    watchdog: bool,  // the grace timer is armed
    gone: bool,      // this end of B has been closed
    shutting: bool,  // a CloseWrite caller won bWriteHalfClosed, CloseWrite to come
    finWait: bool,   // recvLoop is inside closeLocally for a cmdFIN
    finSent: bool
  )

  const NEW_SIDE := Side(false, Alive, Idle, false, false, false, false, false)

  // ----- client ------------------------------------------------------------------

  /** clientStartCarrier. */
  datatype DialPc = DialIdle | Asked | Connected | Published | Opened | OpenFailed | Announced | DialFailed

  /** maybeClientCutover, as called by the dialling thread and by recvLoop. */
  datatype CutPc = NotCalled | AtReady | AtGo | AtOnce | Returned

  datatype Thread = Dialer | Receiver

  datatype CutOnce = NotRun | Body(runner: Thread) | Done

  datatype Client = Client(
    side: Side, bReady: bool, goSeen: bool,
    dial: DialPc, filler: seq<byte>, offersTaken: nat,
    dialCut: CutPc, recvCut: CutPc, cut: CutOnce,
    commits: nat     // history: times the cut-over body ran
  )

  // ----- server --------------------------------------------------------------------

  /** serverMaybeTrigger. */
  datatype TrigPc = NotTriggered | Won | Registered | Offered

  /** MaybeAcceptCarrier. */
  datatype ListenPc = Waiting | Taken | Attached | Refusing | Refused | Dropped

  datatype Server = Server(
    side: Side, det: D.Det, payload: bool, tapsDone: bool,
    trig: TrigPc, pending: bool, listener: ListenPc,
    muxSinceDone: nat  // history: downlink bytes given to mux writes begun after the handshake was done
  )

  datatype State = State(sid: nat, token: seq<byte>, up: Dir, down: Dir, cl: Client, sv: Server)

  predicate Config(sid: nat, token: seq<byte>) {
    sid < 0x1_0000_0000 && |token| == TOKEN_LEN
  }

  function Start0(sid: nat, token: seq<byte>, minBulk: int, tlsOnly: bool): State {
    State(sid, token, FRESH, FRESH,
          Client(NEW_SIDE, false, false, DialIdle, [], 0, NotCalled, NotCalled, NotRun, 0),
          Server(NEW_SIDE, D.NewDet(minBulk, tlsOnly), false, false, NotTriggered, false, Waiting, 0))
  }

  // ----- one side's own steps -------------------------------------------------------

  /** A side together with the direction it sends and the one it receives. */
  datatype End = End(side: Side, o: Dir, i: Dir)

  datatype Why = BothHalves | Timer | PumpError | StreamEnd | OpenError

  /** Steps client and server share. */
  datatype Act =
    // bytes
    | Send(mv: Move)        // Stream.Write, or the mux connection failing
    | Recv(mv: Move)        // recvLoop, carrierToPipe, Stream.Read
    | Reset(k: nat)         // B resets towards this side
    // half-close by the relay
    | CloseWrite | CloseWriteDone
    // stream end
    | Die | DiePipe | DieLook | DieCas | DieShut | DieArm | DieReleased
    | SendFin(how: Sending) | TakeFin | FinDone
    // closeCarrier
    | OnceEnter(why: Why) | OnceClose | OnceNoConn | OnceDone
    | PumpGaveUp

  predicate IsSend(mv: Move) {
    mv.PushOk? || mv.PushFail? || mv.PushDead? || mv.RawOk? || mv.RawShort?
    || mv.RawFail? || mv.RawVoid? || mv.RawDead? || mv.BreakMux?
  }

  predicate IsPush(mv: Move) {
    mv.PushOk? || mv.PushFail? || mv.PushDead?
  }

  predicate IsTake(mv: Move) {
    mv.TakeData? || mv.TakeDrop?
  }

  predicate IsFetch(mv: Move) {
    mv.Fetch? || mv.FetchDrop? || mv.FetchEof?
  }

  predicate IsRecv(mv: Move) {
    || IsTake(mv) || IsFetch(mv) || mv.FetchErr? || mv.Hand? || mv.Abandon? || mv.Feed? || mv.Next? || mv.Cancel?
    || mv.MarkEof? || mv.CloseWriter?
  }

  /** `idle`: recvLoop is between frames. `openFailed`: the dialling thread failed
      to write the opening frame. */
  predicate CanAct(e: End, a: Act, idle: bool, openFailed: bool) {
    match a
    case Send(mv) => IsSend(mv) && Enabled(e.o, mv)
    case Recv(mv) => IsRecv(mv) && Enabled(e.i, mv) && (IsTake(mv) ==> idle) && (IsFetch(mv) ==> !e.side.gone)
    case Reset(k) => k <= |e.i.cr.car|
    case CloseWrite => e.o.tx.diverted && !e.o.tx.whc
    case CloseWriteDone => e.side.shutting
    case Die => e.side.die == Alive
    case DiePipe => e.side.die == Stored
    case DieLook => e.side.die == PipeShut
    case DieCas => e.side.die == SawCarrier
    case DieShut => e.side.die == Shutting
    case DieArm => e.side.die == Checked
    case DieReleased => e.side.die == SawMux && e.side.once == Released
    case SendFin(how) => e.side.die == Ended && !e.side.finSent && Enabled(e.o, Noting(how, Fin))
    case TakeFin => idle && Enabled(e.i, TakeNote) && e.i.mx.items[0].Fin?
    case FinDone => e.side.finWait && e.side.die == Ended
    case OnceEnter(why) =>
      && e.side.once == Idle
      && (match why
          case BothHalves => e.o.tx.whc && e.i.rx.rhc
          case Timer => e.side.watchdog
          case PumpError => e.i.rx.pump.AtError?
          case StreamEnd => e.side.die == SawMux
          case OpenError => openFailed)
    case OnceClose => e.side.once == Got(true)
    case OnceNoConn => e.side.once == Got(false)
    case OnceDone => e.side.once == ConnShut
    case PumpGaveUp => e.i.rx.pump.AtError? && e.side.once == Released
  }

  /** CloseWrite or Close on this side's end of B: no clean end follows a record
      that was written in part. */
  function ShutOut(d: Dir): Dir {
    if d.cr.torn then d else Do(d, Shut)
  }

  /** closeWithError and closeLocally run their body once. */
  function Dying(die: DiePc): DiePc {
    if die == Alive then Stored else die
  }

  function DoAct(e: End, a: Act, idle: bool, openFailed: bool): End
    requires CanAct(e, a, idle, openFailed)
  {
    var side := e.side;
    match a
    case Send(mv) => e.(o := Do(e.o, mv))
    case Recv(mv) => e.(i := Do(e.i, mv))
    case Reset(k) => e.(i := Do(e.i, Lose(k)))
    case CloseWrite => e.(o := Do(e.o, Retire), side := side.(shutting := true))
    case CloseWriteDone => e.(o := ShutOut(e.o), side := side.(shutting := false))
    case Die => e.(side := side.(die := Stored))
    case DiePipe => e.(i := Do(e.i, ClosePipe), side := side.(die := PipeShut))
    case DieLook => e.(side := side.(die := if e.o.tx.diverted then SawCarrier else SawMux))
    case DieCas =>
      if e.o.tx.whc then e.(side := side.(die := Checked))
      else e.(o := Do(e.o, Retire), side := side.(die := Shutting))
    case DieShut => e.(o := ShutOut(e.o), side := side.(die := Checked))
    case DieArm => e.(side := side.(die := Ended, watchdog := true))
    case DieReleased => e.(side := side.(die := Ended))
    case SendFin(how) => e.(o := Do(e.o, Noting(how, Fin)), side := side.(finSent := true))
    case TakeFin => e.(i := Do(e.i, TakeNote), side := side.(finWait := true, die := Dying(side.die)))
    case FinDone => e.(side := side.(finWait := false))
    case OnceEnter(_) => e.(side := side.(once := Got(side.conn)))
    case OnceClose => e.(o := ShutOut(e.o), side := side.(once := ConnShut, gone := true))
    case OnceNoConn => e.(side := side.(once := ConnShut))
    case OnceDone => e.(side := side.(once := Released))
    case PumpGaveUp => e.(i := Do(e.i, Stop), side := side.(die := Dying(side.die)))
  }

  // ----- the whole system --------------------------------------------------------------

  function Ends(s: State, w: Who): End {
    match w
    case Cl => End(s.cl.side, s.up, s.down)
    case Sv => End(s.sv.side, s.down, s.up)
  }

  function PutEnd(s: State, w: Who, e: End): State {
    match w
    case Cl => s.(cl := s.cl.(side := e.side), up := e.o, down := e.i)
    case Sv => s.(sv := s.sv.(side := e.side), down := e.o, up := e.i)
  }

  predicate ClientIdle(s: State) {
    s.down.rx.held == [] && !s.cl.side.finWait && (s.cl.recvCut == NotCalled || s.cl.recvCut == Returned)
  }

  predicate ServerIdle(s: State) {
    s.up.rx.held == [] && !s.sv.side.finWait
  }

  predicate RecvIdle(s: State, w: Who) {
    match w case Cl => ClientIdle(s) case Sv => ServerIdle(s)
  }

  predicate OpenBroke(s: State, w: Who) {
    w.Cl? && s.cl.dial == OpenFailed
  }

  function CutOf(c: Client, t: Thread): CutPc {
    match t case Dialer => c.dialCut case Receiver => c.recvCut
  }

  function SetCut(c: Client, t: Thread, pc: CutPc): Client {
    match t case Dialer => c.(dialCut := pc) case Receiver => c.(recvCut := pc)
  }

  /** Steps of the client alone. */
  datatype ClientAct =
    | TakeOffer(late: bool) | Dialled(ok: bool) | Publish
    | OpenB(filler: seq<byte>) | OpenBFail(filler: seq<byte>, k: nat) | Announce
    | TakeGo(late: bool)
    | LoadReady(t: Thread) | LoadGo(t: Thread) | Commit(t: Thread, how: Sending) | Spawn(t: Thread) | Skip(t: Thread)

  /** Steps of the server alone. */
  datatype ServerAct =
    | BeginPayload | TapUp(p: seq<byte>) | Win | Register | SendOffer(how: Sending) | Expire
    | Accept | AcceptUnknown | AcceptFail | Attach(how: Sending) | Refuse | CloseRefused
    | TakeUplinkFin(late: bool)

  datatype Step = Both(w: Who, a: Act) | Client1(c: ClientAct) | Server1(v: ServerAct)

  predicate CanClient(s: State, a: ClientAct) {
    var c := s.cl;
    match a
    case TakeOffer(late) =>
      ClientIdle(s) && Enabled(s.down, TakeNote) && s.down.mx.items[0].Offer? && (late ==> c.side.die == Ended)
    case Dialled(_) => c.dial == Asked
    case Publish => c.dial == Connected
    case OpenB(filler) =>
      c.dial == Published && Config(s.sid, s.token) && PAD_MIN <= |filler| < PAD_MIN + PAD_RANGE && !c.side.gone
    case OpenBFail(filler, k) =>
      && c.dial == Published && Config(s.sid, s.token) && PAD_MIN <= |filler| < PAD_MIN + PAD_RANGE
      && k < |Opening(s.sid, s.token, filler)|
    case Announce => c.dial == Opened
    case TakeGo(late) => ClientIdle(s) && Enabled(s.down, TakeBarrier) && (late ==> c.side.die == Ended)
    case LoadReady(t) => CutOf(c, t) == AtReady
    case LoadGo(t) => CutOf(c, t) == AtGo
    case Commit(t, how) =>
      && CutOf(c, t) == AtOnce && c.cut == NotRun
      && (c.side.die == Alive ==> Enabled(s.up, Diverting(how)))
    case Spawn(t) => c.cut == Body(t) && Enabled(s.down, Rail.Start)
    case Skip(t) => CutOf(c, t) == AtOnce && c.cut == Done
  }

  /** A complete opening frame waits on B. */
  predicate Presented(s: State) {
    s.sv.listener == Waiting && Inspect(s.up.cr.car).Claimed? && !s.up.tx.diverted
  }

  predicate CanServer(s: State, a: ServerAct) {
    var v := s.sv;
    match a
    case BeginPayload => true
    case TapUp(p) => true
    case Win => !v.tapsDone && v.det.phase == D.Ready && v.trig == NotTriggered
    case Register => v.trig == Won
    case SendOffer(how) => v.trig == Registered && Enabled(s.down, Noting(how, Offer))
    case Expire => v.pending
    case Accept => Presented(s) && v.pending && Inspect(s.up.cr.car).token == s.token
    case AcceptUnknown => Presented(s) && !(v.pending && Inspect(s.up.cr.car).token == s.token)
    case AcceptFail => v.listener == Waiting && (s.up.cr.lost || s.up.cr.fin || s.up.cr.broken) && !s.up.tx.diverted
    case Attach(how) => v.listener == Taken && v.side.die == Alive && Enabled(s.down, Diverting(how))
    case Refuse => v.listener == Taken && v.side.die != Alive
    case CloseRefused => v.listener == Refusing
    case TakeUplinkFin(late) => ServerIdle(s) && Enabled(s.up, TakeBarrier) && (late ==> v.side.die == Ended)
  }

  predicate Can(s: State, st: Step) {
    match st
    case Both(w, a) => CanAct(Ends(s, w), a, RecvIdle(s, w), OpenBroke(s, w))
    case Client1(a) => CanClient(s, a)
    case Server1(a) => CanServer(s, a)
  }

  /** observeServerWrite. */
  function TapDown(v: Server, b: seq<byte>): Server {
    if v.tapsDone || !v.payload || !D.Sound(v.det) then v
    else
      var det := D.Observe(v.det, D.Down(b));
      v.(det := det, tapsDone := det.phase == D.Aborted,
         muxSinceDone := v.muxSinceDone + if v.det.phase == D.HandshakeDone then |b| else 0)
  }

  /** observeServerRead. */
  function TapUplink(v: Server, p: seq<byte>): Server {
    if v.tapsDone || !v.payload || !D.Sound(v.det) then v
    else
      var det := D.Observe(v.det, D.Up(p));
      v.(det := det, tapsDone := det.phase == D.Aborted)
  }

  function ApplyBoth(s: State, w: Who, a: Act): State
    requires CanAct(Ends(s, w), a, RecvIdle(s, w), OpenBroke(s, w))
  {
    var s' := PutEnd(s, w, DoAct(Ends(s, w), a, RecvIdle(s, w), OpenBroke(s, w)));
    if w.Sv? && a.Send? && IsPush(a.mv) then s'.(sv := TapDown(s'.sv, a.mv.b)) else s'
  }

  /** Bytes written to B before the server has accepted it. */
  function Preload(s: State, bytes: seq<byte>): Dir {
    if s.sv.listener == Waiting && !s.up.cr.lost && !s.up.tx.diverted && !s.cl.side.gone
    then Do(s.up, SetCar(bytes)) else s.up
  }

  function ApplyClient(s: State, a: ClientAct): State
    requires CanClient(s, a)
  {
    var c := s.cl;
    match a
    case TakeOffer(late) =>
      s.(down := Do(s.down, TakeNote),
         cl := c.(offersTaken := c.offersTaken + 1, dial := if late then c.dial else Asked))
    case Dialled(ok) => s.(cl := c.(dial := if ok then Connected else DialFailed))
    case Publish => s.(cl := c.(dial := Published, side := c.side.(conn := true)))
    case OpenB(filler) =>
      s.(cl := c.(dial := Opened, filler := filler), up := Preload(s, Opening(s.sid, s.token, filler)))
    case OpenBFail(filler, k) =>
      s.(cl := c.(dial := OpenFailed, filler := filler), up := Preload(s, Opening(s.sid, s.token, filler)[..k]))
    case Announce => s.(cl := c.(dial := Announced, bReady := true, dialCut := AtReady))
    case TakeGo(late) =>
      s.(down := Do(s.down, TakeBarrier), cl := if late then c else c.(goSeen := true, recvCut := AtReady))
    case LoadReady(t) => s.(cl := SetCut(c, t, if c.bReady then AtGo else Returned))
    case LoadGo(t) => s.(cl := SetCut(c, t, if c.goSeen then AtOnce else Returned))
    case Commit(t, how) =>
      s.(cl := c.(cut := Body(t), commits := c.commits + 1),
         up := if c.side.die == Alive then Do(s.up, Diverting(how)) else s.up)
    case Spawn(t) => s.(down := Do(s.down, Rail.Start), cl := SetCut(c, t, Returned).(cut := Done))
    case Skip(t) => s.(cl := SetCut(c, t, Returned))
  }

  /** serverOnUplinkFin, after the barrier has left the mux. */
  function BeginUplink(d: Dir, conn: bool): Dir {
    if conn && Enabled(d, Rail.Start) then Do(d, Rail.Start) else d
  }

  function ApplyServer(s: State, a: ServerAct): State
    requires CanServer(s, a)
  {
    var v := s.sv;
    match a
    case BeginPayload => s.(sv := v.(payload := true))
    case TapUp(p) => s.(sv := TapUplink(v, p))
    case Win => s.(sv := v.(trig := Won, tapsDone := true))
    case Register => s.(sv := v.(trig := Registered, pending := true))
    case SendOffer(how) =>
      s.(down := Do(s.down, Noting(how, Offer)), sv := v.(trig := Offered))
    case Expire => s.(sv := v.(pending := false))
    case Accept =>
      s.(up := Do(s.up, SetCar(Inspect(s.up.cr.car).rest)), sv := v.(pending := false, listener := Taken))
    case AcceptUnknown =>
      s.(up := Do(s.up, SetCar([])), down := ShutOut(s.down),
         sv := v.(listener := Dropped, side := v.side.(gone := true)))
    case AcceptFail =>
      s.(up := Do(s.up, SetCar([])), down := ShutOut(s.down),
         sv := v.(listener := Dropped, side := v.side.(gone := true)))
    case Attach(how) =>
      s.(down := Do(s.down, Diverting(how)),
         sv := v.(listener := Attached, side := v.side.(conn := true)))
    case Refuse => s.(sv := v.(listener := Refusing))
    case CloseRefused =>
      s.(down := ShutOut(s.down), sv := v.(listener := Refused, side := v.side.(gone := true)))
    case TakeUplinkFin(late) =>
      s.(up := BeginUplink(Do(s.up, TakeBarrier), !late && v.side.conn))
  }

  function Apply(s: State, st: Step): State
    requires Can(s, st)
  {
    match st
    case Both(w, a) => ApplyBoth(s, w, a)
    case Client1(a) => ApplyClient(s, a)
    case Server1(a) => ApplyServer(s, a)
  }

  // ----- runs ----------------------------------------------------------------------------------

  /** `tr` is a run from s. */
  predicate Runs(s: State, tr: seq<Step>)
    decreases tr
  {
    tr == [] || (Can(s, tr[0]) && Runs(Apply(s, tr[0]), tr[1..]))
  }

  function After(s: State, tr: seq<Step>): State
    requires Runs(s, tr)
    decreases tr
  {
    if tr == [] then s else After(Apply(s, tr[0]), tr[1..])
  }
}
