/** The state of the rail switch, told by the steps of its run: every flag is set by
    its own event and by no other, and never cleared; and the byte histories are the
    arguments and results of the Write calls, in order. */
module RailHistory {
  import opened Basics
  import opened Frames
  import opened Carrier
  import opened Rail
  import opened RailSwitch
  import opened RailInvariant
  import opened RailTheorems
  import D = Detector

  // ----- one move ---------------------------------------------------------------------

  predicate Swallows(mv: Move) {
    mv.TakeDrop? || mv.Abandon? || mv.FetchDrop? || mv.Cancel?
  }

  /** A failed write on B. */
  predicate Breaks(mv: Move) {
    mv.RawShort? || mv.RawFail? || (mv.RawVoid? && mv.n < |mv.b|)
  }

  /** carrierToPipe has left its loop with an error. */
  predicate Failed(r: RxSide) {
    r.pump.AtError? || (r.pump.Stopped? && !r.rhc)
  }

  /** ... by this move. */
  predicate Fails(d: Dir, mv: Move) {
    mv.FetchErr? || mv.FetchDrop? || mv.Cancel? || (mv.Next? && d.rx.pump == Handing(Broken))
  }

  /** What a Stream.Write was given by this move. */
  function GivenBy(mv: Move): (b: seq<byte>) {
    match mv
    case PushOk(b, _) => b
    case PushFail(b, _, _) => b
    case PushDead(b) => b
    case RawOk(b) => b
    case RawShort(b, _) => b
    case RawFail(b, _, _) => b
    case RawVoid(b, _) => b
    case RawDead(b) => b
    case _ => []
  }

  function Upto(b: seq<byte>, n: nat): (r: seq<byte>) {
    if n <= |b| then b[..n] else b
  }

  /** ... and what it reported written: all of it, or as much as the error came with. */
  function ReportedBy(mv: Move): (b: seq<byte>) {
    match mv
    case PushOk(b, _) => b
    case PushFail(b, _, n) => Upto(b, n)
    case RawOk(b) => b
    case RawShort(b, n) => Upto(b, n)
    case RawFail(b, _, n) => Upto(b, n)
    case RawVoid(b, n) => Upto(b, n)
    case _ => []
  }

  /** What a move does to the flags of its direction. */
  predicate Marks(d: Dir, mv: Move, d': Dir) {
    && (d'.tx.diverted <==> d.tx.diverted || mv.DivertOk? || mv.DivertLate? || mv.DivertFail?)
    && (d'.tx.whc <==> d.tx.whc || mv.Retire?)
    && (d'.mx.broken <==>
          d.mx.broken || mv.PushFail? || mv.NoteLate? || mv.BreakMux? || mv.DivertLate? || mv.DivertFail?)
    && (d'.cr.fin <==> d.cr.fin || mv.Shut?) && (d'.cr.lost <==> d.cr.lost || mv.Lose?)
    && (d'.cr.broken <==> d.cr.broken || Breaks(mv)) && (d'.cr.torn <==> d.cr.torn || mv.RawFail?)
    && (d'.rx.pipeDone <==> d.rx.pipeDone || mv.ClosePipe? || mv.CloseWriter?)
    && (d'.rx.barTaken <==> d.rx.barTaken || mv.TakeBarrier?)
    && (d'.rx.rhc <==> d.rx.rhc || mv.MarkEof?)
    && (d'.rx.dropped <==> d.rx.dropped || Swallows(mv))
    && (d'.rx.pump.Off? <==> d.rx.pump.Off? && !mv.Start?)
  }

  /** ... and to its books. */
  predicate Books(d: Dir, mv: Move, d': Dir) {
    d'.tx.passed == d.tx.passed + GivenBy(mv) && d'.tx.accepted == d.tx.accepted + ReportedBy(mv)
  }

  lemma OnMuxBooks(d: Dir, mv: Move)
    requires Enabled(d, mv) && KindOf(mv).OnMux?
    ensures Books(d, mv, Do(d, mv))
  {
    hide CanOnB, DoOnB, CanOffMux, DoOffMux, CanOffB, DoOffB, Flatten, DataItems;
    assert d.tx.passed + [] == d.tx.passed && d.tx.accepted + [] == d.tx.accepted;
    match mv
    case PushOk(_, _) =>
    case PushFail(_, _, _) =>
    case PushDead(_) =>
    case NoteOk(_) =>
    case NoteLate(_) =>
    case BreakMux =>
    case DivertOk =>
    case DivertLate =>
    case DivertFail =>
  }

  lemma OnBBooks(d: Dir, mv: Move)
    requires Enabled(d, mv) && KindOf(mv).OnB?
    ensures Books(d, mv, Do(d, mv))
  {
    hide CanOnMux, DoOnMux, CanOffMux, DoOffMux, CanOffB, DoOffB;
    assert d.tx.passed + [] == d.tx.passed && d.tx.accepted + [] == d.tx.accepted;
    match mv
    case RawOk(_) =>
    case RawShort(_, _) =>
    case RawFail(_, _, _) =>
    case RawVoid(_, _) =>
    case RawDead(_) =>
    case Retire =>
    case Shut =>
    case Lose(_) =>
    case SetCar(_) =>
  }

  lemma MoveBooks(d: Dir, mv: Move)
    requires Enabled(d, mv)
    ensures Books(d, mv, Do(d, mv))
  {
    hide Do, Enabled;
    Effects(d, mv);
    if KindOf(mv).OnMux? {
      OnMuxBooks(d, mv);
    } else if KindOf(mv).OnB? {
      OnBBooks(d, mv);
    } else {
      assert GivenBy(mv) == [] == ReportedBy(mv);
    }
  }

  lemma OnMuxFlags(d: Dir, mv: Move)
    requires Enabled(d, mv) && KindOf(mv).OnMux?
    ensures var d' := Do(d, mv);
            && (d'.tx.diverted <==> d.tx.diverted || mv.DivertOk? || mv.DivertLate? || mv.DivertFail?)
            && d'.tx.whc == d.tx.whc
            && (d'.mx.broken <==>
                  d.mx.broken || mv.PushFail? || mv.NoteLate? || mv.BreakMux? || mv.DivertLate? || mv.DivertFail?)
  {
    hide CanOnB, DoOnB, CanOffMux, DoOffMux, CanOffB, DoOffB, Flatten, DataItems;
    match mv
    case PushOk(_, _) =>
    case PushFail(_, _, _) =>
    case PushDead(_) =>
    case NoteOk(_) =>
    case NoteLate(_) =>
    case BreakMux =>
    case DivertOk =>
    case DivertLate =>
    case DivertFail =>
  }

  lemma OnMuxMarks(d: Dir, mv: Move)
    requires Enabled(d, mv) && KindOf(mv).OnMux?
    ensures Marks(d, mv, Do(d, mv))
  {
    OnMuxFlags(d, mv);
    Effects(d, mv);
    hide Do, Enabled;
  }

  lemma OnBMarks(d: Dir, mv: Move)
    requires Enabled(d, mv) && KindOf(mv).OnB?
    ensures Marks(d, mv, Do(d, mv))
  {
    hide CanOnMux, DoOnMux, CanOffMux, DoOffMux, CanOffB, DoOffB;
    match mv
    case RawOk(_) =>
    case RawShort(_, _) =>
    case RawFail(_, _, _) =>
    case RawVoid(_, _) =>
    case RawDead(_) =>
    case Retire =>
    case Shut =>
    case Lose(_) =>
    case SetCar(_) =>
  }

  lemma OffMuxMarks(d: Dir, mv: Move)
    requires Enabled(d, mv) && KindOf(mv).OffMux?
    ensures Marks(d, mv, Do(d, mv))
  {
    hide CanOnMux, DoOnMux, CanOnB, DoOnB, CanOffB, DoOffB;
    match mv
    case TakeData =>
    case TakeDrop =>
    case TakeBarrier =>
    case TakeNote =>
    case Hand(_) =>
    case Abandon =>
    case ClosePipe =>
  }

  lemma OffBMarks(d: Dir, mv: Move)
    requires Enabled(d, mv) && KindOf(mv).OffB?
    ensures Marks(d, mv, Do(d, mv))
  {
    hide CanOnMux, DoOnMux, CanOnB, DoOnB, CanOffMux, DoOffMux;
    match mv
    case Start =>
    case Fetch(_, _) =>
    case FetchDrop(_) =>
    case FetchEof =>
    case FetchErr =>
    case Feed(_) =>
    case Next =>
    case Cancel =>
    case MarkEof =>
    case CloseWriter =>
    case Stop =>
  }

  lemma MoveMarks(d: Dir, mv: Move)
    requires Enabled(d, mv)
    ensures Marks(d, mv, Do(d, mv))
  {
    hide Marks, Do, Enabled, KindOf;
    match KindOf(mv)
    case OnMux => OnMuxMarks(d, mv);
    case OnB => OnBMarks(d, mv);
    case OffMux => OffMuxMarks(d, mv);
    case OffB => OffBMarks(d, mv);
  }

  // ----- one step -----------------------------------------------------------------------

  /** The flags of the protocol, each as seen by one side: of its stream, of the
      direction it sends, of the one it receives. */
  datatype Mark =
    | Dead | Armed | FinSent | OnceUsed | CarrierGone | HasCarrier
    | Diverted | HalfClosed | CleanlyShut | MuxBroken | BBroken | BTorn
    | FeederFailed | PipeClosed | CleanEnd | BarrierTaken | Pumping | BReset | Swallowed

  predicate Holds(e: End, m: Mark) {
    match m
    case Dead => e.side.die != Alive
    case Armed => e.side.watchdog
    case FinSent => e.side.finSent
    case OnceUsed => e.side.once != Idle
    case CarrierGone => e.side.gone
    case HasCarrier => e.side.conn
    case Diverted => e.o.tx.diverted
    case HalfClosed => e.o.tx.whc
    case CleanlyShut => e.o.cr.fin
    case MuxBroken => e.o.mx.broken
    case BBroken => e.o.cr.broken
    case BTorn => e.o.cr.torn
    case FeederFailed => Failed(e.i.rx)
    case PipeClosed => e.i.rx.pipeDone
    case CleanEnd => e.i.rx.rhc
    case BarrierTaken => e.i.rx.barTaken
    case Pumping => !e.i.rx.pump.Off?
    case BReset => e.i.cr.lost
    case Swallowed => e.i.rx.dropped
  }

  /** The event that sets a flag, among the steps both sides have. */
  predicate ActSets(e: End, a: Act, m: Mark) {
    match m
    case Dead => a.Die? || a.TakeFin? || a.PumpGaveUp?
    case Armed => a.DieArm?
    case FinSent => a.SendFin?
    case OnceUsed => a.OnceEnter?
    case CarrierGone => a.OnceClose?
    case HasCarrier => false
    case Diverted => false
    case HalfClosed => a.CloseWrite? || a.DieCas?
    case CleanlyShut => !e.o.cr.torn && (a.CloseWriteDone? || a.DieShut? || a.OnceClose?)
    case MuxBroken => (a.Send? && (a.mv.PushFail? || a.mv.BreakMux?)) || (a.SendFin? && a.how != Sent)
    case BBroken => a.Send? && Breaks(a.mv)
    case BTorn => a.Send? && a.mv.RawFail?
    case FeederFailed => a.Recv? && Fails(e.i, a.mv)
    case PipeClosed => a.DiePipe? || a == Recv(CloseWriter)
    case CleanEnd => a == Recv(MarkEof)
    case BarrierTaken => false
    case Pumping => false
    case BReset => a.Reset?
    case Swallowed => a.Recv? && Swallows(a.mv)
  }

  lemma ActSide(e: End, a: Act, idle: bool, broke: bool)
    requires CanAct(e, a, idle, broke)
    ensures var sd, sd' := e.side, DoAct(e, a, idle, broke).side;
            && (sd'.die != Alive <==> sd.die != Alive || a.Die? || a.TakeFin? || a.PumpGaveUp?)
            && (sd'.watchdog <==> sd.watchdog || a.DieArm?) && (sd'.finSent <==> sd.finSent || a.SendFin?)
            && (sd'.once != Idle <==> sd.once != Idle || a.OnceEnter?) && (sd'.gone <==> sd.gone || a.OnceClose?)
            && sd'.conn == sd.conn
  {
    hide Do, Enabled, ShutOut, IsRecv, IsSend, IsTake, IsFetch, Noting;
    match a
    case Send(_) =>
    case Recv(_) =>
    case Reset(_) =>
    case CloseWrite =>
    case CloseWriteDone =>
    case Die =>
    case DiePipe =>
    case DieLook => assert e.o.tx.diverted ==> DoAct(e, a, idle, broke).side.die == SawCarrier;
    case DieCas => assert e.o.tx.whc ==> DoAct(e, a, idle, broke).o == e.o;
    case DieShut =>
    case DieArm =>
    case DieReleased =>
    case SendFin(_) =>
    case TakeFin =>
    case FinDone =>
    case OnceEnter(_) =>
    case OnceClose =>
    case OnceNoConn =>
    case OnceDone =>
    case PumpGaveUp =>
  }

  lemma SendMarks(d: Dir, mv: Move)
    requires IsSend(mv) && Enabled(d, mv)
    ensures var d' := Do(d, mv);
            && d'.tx.diverted == d.tx.diverted && d'.tx.whc == d.tx.whc && d'.cr.fin == d.cr.fin
            && (d'.mx.broken <==> d.mx.broken || mv.PushFail? || mv.BreakMux?)
            && (d'.cr.broken <==> d.cr.broken || Breaks(mv)) && (d'.cr.torn <==> d.cr.torn || mv.RawFail?)
            && d'.rx == d.rx && d'.cr.lost == d.cr.lost
  {
    hide Do, Enabled, Breaks;
    MoveMarks(d, mv);
    Effects(d, mv);
  }

  lemma RecvFails(d: Dir, mv: Move)
    requires DirInv(d) && IsRecv(mv) && Enabled(d, mv)
    ensures Failed(Do(d, mv).rx) <==> Failed(d.rx) || Fails(d, mv)
  {
    RecvKinds(mv);
    if KindOf(mv).OffMux? {
      hide DirInv, DoOnMux, DoOnB, DoOffB, CanOnMux, CanOnB, CanOffB;
    } else {
      PumpFails(d, mv);
    }
  }

  lemma PumpFails(d: Dir, mv: Move)
    requires DirInv(d) && IsRecv(mv) && Enabled(d, mv) && KindOf(mv).OffB?
    ensures Failed(Do(d, mv).rx) <==> Failed(d.rx) || Fails(d, mv)
  {
    hide Flow, Tally, Pumped, Shape, DoOnMux, DoOnB, DoOffMux, CanOnMux, CanOnB, CanOffMux;
    match mv
    case Fetch(_, _) =>
    case FetchDrop(_) =>
    case FetchEof =>
    case FetchErr =>
    case Feed(_) =>
    case Next =>
    case Cancel =>
    case MarkEof =>
    case CloseWriter =>
  }

  lemma StopFails(d: Dir)
    requires DirInv(d) && d.rx.pump.AtError?
    ensures !d.rx.rhc
  {
    hide Flow, Tally, Pumped, Shape;
  }

  lemma RecvMarks(d: Dir, mv: Move)
    requires IsRecv(mv) && Enabled(d, mv)
    ensures var d' := Do(d, mv);
            && (d'.rx.pipeDone <==> d.rx.pipeDone || mv.CloseWriter?) && d'.rx.barTaken == d.rx.barTaken
            && (d'.rx.rhc <==> d.rx.rhc || mv.MarkEof?) && (d'.rx.dropped <==> d.rx.dropped || Swallows(mv))
            && (d'.rx.pump.Off? <==> d.rx.pump.Off?) && d'.cr.lost == d.cr.lost
            && d'.tx == d.tx && d'.mx.broken == d.mx.broken && d'.cr.fin == d.cr.fin
            && d'.cr.broken == d.cr.broken && d'.cr.torn == d.cr.torn
  {
    RecvKinds(mv);
    Effects(d, mv);
    hide Do, Enabled, Swallows, KindOf;
    MoveMarks(d, mv);
  }

  lemma ShutOutMarks(d: Dir)
    ensures var d' := ShutOut(d);
            && d'.tx == d.tx && d'.mx == d.mx && d'.rx == d.rx && (d'.cr.fin <==> d.cr.fin || !d.cr.torn)
            && d'.cr.lost == d.cr.lost && d'.cr.broken == d.cr.broken && d'.cr.torn == d.cr.torn
  {
    ShutOutEffect(d);
    hide ShutOut;
  }

  lemma NotingMarks(d: Dir, how: Sending, item: Item)
    requires Enabled(d, Noting(how, item))
    ensures var d' := Do(d, Noting(how, item));
            d' == d.(mx := d'.mx) && (d'.mx.broken <==> d.mx.broken || how != Sent)
  {
    NotingEffect(d, how, item);
    hide Do, Enabled;
    MoveMarks(d, Noting(how, item));
  }

  predicate OutMarks(o: Dir, a: Act, o': Dir) {
    && o'.tx.diverted == o.tx.diverted && (o'.tx.whc <==> o.tx.whc || a.CloseWrite? || a.DieCas?)
    && (o'.cr.fin <==> o.cr.fin || (!o.cr.torn && (a.CloseWriteDone? || a.DieShut? || a.OnceClose?)))
    && (o'.mx.broken <==>
          o.mx.broken || (a.Send? && (a.mv.PushFail? || a.mv.BreakMux?)) || (a.SendFin? && a.how != Sent))
    && (o'.cr.broken <==> o.cr.broken || (a.Send? && Breaks(a.mv)))
    && (o'.cr.torn <==> o.cr.torn || (a.Send? && a.mv.RawFail?))
    && o'.rx == o.rx && o'.cr.lost == o.cr.lost
  }

  predicate InMarks(i: Dir, a: Act, i': Dir) {
    && (i'.rx.pipeDone <==> i.rx.pipeDone || a.DiePipe? || a == Recv(CloseWriter))
    && (i'.rx.rhc <==> i.rx.rhc || a == Recv(MarkEof)) && i'.rx.barTaken == i.rx.barTaken
    && i'.rx.pump.Off? == i.rx.pump.Off? && (i'.cr.lost <==> i.cr.lost || a.Reset?)
    && (i'.rx.dropped <==> i.rx.dropped || (a.Recv? && Swallows(a.mv)))
    && (Failed(i'.rx) <==> Failed(i.rx) || (a.Recv? && Fails(i, a.mv)))
    && i'.tx == i.tx && i'.mx.broken == i.mx.broken && i'.cr.fin == i.cr.fin
    && i'.cr.broken == i.cr.broken && i'.cr.torn == i.cr.torn
  }

  lemma ActOut(e: End, a: Act, idle: bool, broke: bool)
    requires CanAct(e, a, idle, broke)
    ensures OutMarks(e.o, a, DoAct(e, a, idle, broke).o)
  {
    if SideOnly(a) {
      SideOnlyEffect(e, a, idle, broke);
      hide DoAct, CanAct;
    } else {
      ActWorkOut(e, a, idle, broke);
    }
  }

  lemma ActWorkOut(e: End, a: Act, idle: bool, broke: bool)
    requires CanAct(e, a, idle, broke) && !SideOnly(a)
    ensures OutMarks(e.o, a, DoAct(e, a, idle, broke).o)
  {
    hide Do, Enabled, ShutOut, IsRecv, IsSend, Noting;
    match a
    case Send(mv) => SendMarks(e.o, mv);
    case Recv(_) =>
    case Reset(_) =>
    case CloseWrite => RetireEffect(e.o);
    case CloseWriteDone => ShutOutMarks(e.o);
    case DiePipe =>
    case DieCas => RetireEffect(e.o);
    case DieShut => ShutOutMarks(e.o);
    case SendFin(how) => NotingMarks(e.o, how, Fin);
    case TakeFin =>
    case OnceClose => ShutOutMarks(e.o);
    case PumpGaveUp =>
  }

  lemma ActIn(e: End, a: Act, idle: bool, broke: bool)
    requires CanAct(e, a, idle, broke) && DirInv(e.i)
    ensures InMarks(e.i, a, DoAct(e, a, idle, broke).i)
  {
    hide DirInv;
    if SideOnly(a) {
      SideOnlyEffect(e, a, idle, broke);
      hide DoAct, CanAct;
    } else {
      ActWorkIn(e, a, idle, broke);
    }
  }

  lemma ActWorkIn(e: End, a: Act, idle: bool, broke: bool)
    requires CanAct(e, a, idle, broke) && !SideOnly(a) && DirInv(e.i)
    ensures InMarks(e.i, a, DoAct(e, a, idle, broke).i)
  {
    hide Do, Enabled, ShutOut, IsRecv, IsSend, Noting, Swallows, Fails, DirInv, IsTake, IsFetch;
    match a
    case Send(_) =>
    case Recv(mv) => RecvIn(e.i, mv);
    case Reset(k) => LostMarks(e.i, k);
    case CloseWrite =>
    case CloseWriteDone =>
    case DiePipe => ClosePipeEffect(e.i);
    case DieCas =>
    case DieShut =>
    case SendFin(_) =>
    case TakeFin => TakeNoteEffect(e.i);
    case OnceClose =>
    case PumpGaveUp => StopFails(e.i); StopEffect(e.i);
  }

  lemma RecvIn(d: Dir, mv: Move)
    requires IsRecv(mv) && Enabled(d, mv) && DirInv(d)
    ensures InMarks(d, Recv(mv), Do(d, mv))
  {
    hide Do, Enabled, IsRecv, Swallows, Fails, Failed, DirInv;
    RecvMarks(d, mv);
    RecvFails(d, mv);
  }

  lemma LostMarks(d: Dir, k: nat)
    requires k <= |d.cr.car|
    ensures var d' := Do(d, Lose(k));
            && d'.rx == d.rx && d'.cr.lost && d'.tx == d.tx && d'.mx == d.mx && d'.cr.fin == d.cr.fin
            && d'.cr.broken == d.cr.broken && d'.cr.torn == d.cr.torn && d'.cr.car == d.cr.car[..k]
  {
    hide DoOnMux, DoOffMux, DoOffB;
  }

  lemma ActMarks(e: End, a: Act, idle: bool, broke: bool, m: Mark)
    requires CanAct(e, a, idle, broke) && DirInv(e.i)
    ensures Holds(DoAct(e, a, idle, broke), m) <==> Holds(e, m) || ActSets(e, a, m)
  {
    hide CanAct, DoAct, Swallows, Fails, Failed, Breaks, OutMarks, InMarks, DirInv;
    if OfSide(m) {
      ActSide(e, a, idle, broke);
    } else if OfOut(m) {
      ActOut(e, a, idle, broke);
      OutHolds(e, a, DoAct(e, a, idle, broke), m);
    } else {
      ActIn(e, a, idle, broke);
      InHolds(e, a, DoAct(e, a, idle, broke), m);
    }
  }

  predicate OfSide(m: Mark) {
    m.Dead? || m.Armed? || m.FinSent? || m.OnceUsed? || m.CarrierGone? || m.HasCarrier?
  }

  predicate OfOut(m: Mark) {
    m.Diverted? || m.HalfClosed? || m.CleanlyShut? || m.MuxBroken? || m.BBroken? || m.BTorn?
  }

  lemma OutHolds(e: End, a: Act, e': End, m: Mark)
    requires OutMarks(e.o, a, e'.o) && OfOut(m)
    ensures Holds(e', m) <==> Holds(e, m) || ActSets(e, a, m)
  {
  }

  lemma InHolds(e: End, a: Act, e': End, m: Mark)
    requires InMarks(e.i, a, e'.i) && !OfSide(m) && !OfOut(m)
    ensures Holds(e', m) <==> Holds(e, m) || ActSets(e, a, m)
  {
    hide Swallows, Fails, Failed;
  }

  /** The event that sets a flag of side w. */
  predicate Sets(s: State, st: Step, w: Who, m: Mark) {
    match st
    case Both(who, a) => who == w && ActSets(Ends(s, w), a, m)
    case Client1(a) => w.Cl? && ClientSets(s, a, m)
    case Server1(a) => w.Sv? && ServerSets(s, a, m)
  }

  predicate ClientSets(s: State, a: ClientAct, m: Mark) {
    match m
    case HasCarrier => a.Publish?
    case Diverted => a.Commit? && s.cl.side.die == Alive
    case MuxBroken => a.Commit? && s.cl.side.die == Alive && a.how != Sent
    case BarrierTaken => a.TakeGo?
    case Pumping => a.Spawn?
    case _ => false
  }

  predicate ServerSets(s: State, a: ServerAct, m: Mark) {
    match m
    case HasCarrier => a.Attach?
    case Diverted => a.Attach?
    case MuxBroken => (a.Attach? || a.SendOffer?) && a.how != Sent
    case BarrierTaken => a.TakeUplinkFin?
    case Pumping => a.TakeUplinkFin? && !a.late
    case CarrierGone => a.AcceptUnknown? || a.AcceptFail? || a.CloseRefused?
    case CleanlyShut => !s.down.cr.torn && (a.AcceptUnknown? || a.AcceptFail? || a.CloseRefused?)
    case _ => false
  }

  lemma BothMarks(s: State, who: Who, a: Act, w: Who, m: Mark)
    requires Can(s, Both(who, a)) && DirInv(s.up) && DirInv(s.down)
    ensures Holds(Ends(ApplyBoth(s, who, a), w), m) <==> Holds(Ends(s, w), m) || Sets(s, Both(who, a), w, m)
  {
    hide CanAct, DoAct, ApplyBoth, ActSets, Holds, RecvIdle, OpenBroke, Ends, DirInv, OutMarks, InMarks;
    var e, idle, broke := Ends(s, who), RecvIdle(s, who), OpenBroke(s, who);
    EndDirs(s, who);
    TapKeepsWiring(s, who, a);
    if w == who {
      ActMarks(e, a, idle, broke, m);
    } else {
      ActOut(e, a, idle, broke);
      ActIn(e, a, idle, broke);
      OtherEnd(s, who, a, w);
      PeerStays(e, a, DoAct(e, a, idle, broke), Ends(s, w).side, m);
    }
  }

  lemma EndDirs(s: State, w: Who)
    requires DirInv(s.up) && DirInv(s.down)
    ensures DirInv(Ends(s, w).i)
  {
    hide DirInv;
  }

  lemma OtherEnd(s: State, who: Who, a: Act, w: Who)
    requires Can(s, Both(who, a)) && w != who
    ensures var e, e' := Ends(s, who), Ends(ApplyBoth(s, who, a), who);
            && Ends(s, w) == End(Ends(s, w).side, e.i, e.o)
            && Ends(ApplyBoth(s, who, a), w) == End(Ends(s, w).side, e'.i, e'.o)
  {
    TapKeepsSide(s, who, a);
    hide ApplyBoth, Can;
  }

  lemma PeerStays(e: End, a: Act, e': End, peer: Side, m: Mark)
    requires OutMarks(e.o, a, e'.o) && InMarks(e.i, a, e'.i)
    ensures Holds(End(peer, e'.i, e'.o), m) <==> Holds(End(peer, e.i, e.o), m)
  {
    hide Swallows, Fails, Failed, Breaks;
    if OfOut(m) {
      hide OutMarks;
      assert m.CleanlyShut? ==> e'.i.cr.fin == e.i.cr.fin;
    } else if !OfSide(m) {
      hide InMarks;
      assert e'.o.rx == e.o.rx && e'.o.cr.lost == e.o.cr.lost;
    }
  }

  lemma TapKeepsSide(s: State, who: Who, a: Act)
    requires Can(s, Both(who, a))
    ensures who.Cl? ==> ApplyBoth(s, who, a).sv.side == s.sv.side
    ensures who.Sv? ==> ApplyBoth(s, who, a).cl == s.cl
  {
    hide DoAct, CanAct, D.Observe;
  }

  /** What the client's own steps do to the two directions' flags. */
  predicate ClientTouches(s: State, a: ClientAct, s': State) {
    var cuts := a.Commit? && s.cl.side.die == Alive;
    && s'.sv == s.sv && s'.cl.side == s.cl.side.(conn := s.cl.side.conn || a.Publish?)
    && (s'.up.tx.diverted <==> s.up.tx.diverted || cuts)
    && (s'.up.mx.broken <==> s.up.mx.broken || (cuts && a.how != Sent))
    && s'.up.tx.whc == s.up.tx.whc && s'.up.cr == s.up.cr.(car := s'.up.cr.car)
    && s'.up.rx == s.up.rx
    && s'.down.tx == s.down.tx && s'.down.cr == s.down.cr && s'.down.mx.broken == s.down.mx.broken
    && (s'.down.rx.barTaken <==> s.down.rx.barTaken || a.TakeGo?)
    && (s'.down.rx.pump.Off? <==> s.down.rx.pump.Off? && !a.Spawn?)
    && (s'.down.rx.pump == s.down.rx.pump || (s.down.rx.pump.Off? && s'.down.rx.pump == Reading))
    && s'.down.rx == s.down.rx.(barTaken := s'.down.rx.barTaken, pump := s'.down.rx.pump)
  }

  lemma ClientTouch(s: State, a: ClientAct)
    requires CanClient(s, a)
    ensures ClientTouches(s, a, ApplyClient(s, a))
  {
    if PcOnly(a) {
      PcOnlyEffect(s, a);
      hide ApplyClient, CanClient;
    } else {
      ClientWork(s, a);
    }
  }

  lemma ClientWork(s: State, a: ClientAct)
    requires CanClient(s, a) && !PcOnly(a)
    ensures ClientTouches(s, a, ApplyClient(s, a))
  {
    hide Do, Opening, Preload, Diverting, Enabled, ClientIdle, SetCut;
    forall t, pc ensures SetCut(s.cl, t, pc).side == s.cl.side {
      CutLeavesSide(s.cl, t, pc);
    }
    match a
    case TakeOffer(_) => TakeNoteEffect(s.down);
    case OpenB(filler) => PreloadEffect(s, Opening(s.sid, s.token, filler));
    case OpenBFail(filler, k) => PreloadEffect(s, Opening(s.sid, s.token, filler)[..k]);
    case TakeGo(_) => BarrierEffect(s.down);
    case Commit(_, _) => CommitWork(s, a);
    case Spawn(_) => StartEffect(s.down);
  }

  lemma CommitWork(s: State, a: ClientAct)
    requires CanClient(s, a) && a.Commit?
    ensures ClientTouches(s, a, ApplyClient(s, a))
  {
    hide Do, Diverting, Enabled, SetCut;
    if s.cl.side.die == Alive {
      DivertMarks(s.up, a.how);
    }
  }

  lemma CutLeavesSide(c: Client, t: Thread, pc: CutPc)
    ensures SetCut(c, t, pc).side == c.side
  {
  }

  lemma DivertMarks(d: Dir, how: Sending)
    requires Enabled(d, Diverting(how))
    ensures var d' := Do(d, Diverting(how));
            && d'.tx == d.tx.(diverted := true) && d'.cr == d.cr && d'.rx == d.rx
            && (d'.mx.broken <==> d.mx.broken || how != Sent)
  {
    match how
    case Sent =>
    case Unsent =>
    case SentLate =>
  }

  lemma ClientMarks(s: State, a: ClientAct, w: Who, m: Mark)
    requires CanClient(s, a)
    ensures Holds(Ends(ApplyClient(s, a), w), m) <==> Holds(Ends(s, w), m) || Sets(s, Client1(a), w, m)
  {
    hide ApplyClient, CanClient, ClientTouches, Holds, ClientSets, Ends;
    ClientTouch(s, a);
    if w.Cl? {
      ClientTouched(s, a, ApplyClient(s, a), m);
    } else {
      ServerUntouched(s, a, ApplyClient(s, a), m);
    }
  }

  lemma ServerUntouched(s: State, a: ClientAct, s': State, m: Mark)
    requires ClientTouches(s, a, s')
    ensures Holds(Ends(s', Sv), m) <==> Holds(Ends(s, Sv), m)
  {
  }

  // A flag of one group, when only the group's own part has changed.

  lemma HoldsSide(e: End, e': End, m: Mark, conn: bool, gone: bool)
    requires OfSide(m) && e'.side == e.side.(conn := e.side.conn || conn, gone := e.side.gone || gone)
    ensures Holds(e', m) <==> Holds(e, m) || (m.HasCarrier? && conn) || (m.CarrierGone? && gone)
  {
  }

  lemma HoldsOut(e: End, e': End, m: Mark, cuts: bool, breaks: bool, ends: bool)
    requires OfOut(m) && e'.o.tx.whc == e.o.tx.whc && e'.o.cr.broken == e.o.cr.broken && e'.o.cr.torn == e.o.cr.torn
    requires (e'.o.tx.diverted <==> e.o.tx.diverted || cuts) && (e'.o.mx.broken <==> e.o.mx.broken || breaks)
    requires e'.o.cr.fin <==> e.o.cr.fin || ends
    ensures Holds(e', m) <==>
            Holds(e, m) || (m.Diverted? && cuts) || (m.MuxBroken? && breaks) || (m.CleanlyShut? && ends)
  {
  }

  lemma HoldsIn(e: End, e': End, m: Mark, bar: bool, starts: bool)
    requires !OfSide(m) && !OfOut(m) && e'.i.rx.pipeDone == e.i.rx.pipeDone && e'.i.rx.rhc == e.i.rx.rhc
    requires e'.i.rx.dropped == e.i.rx.dropped && e'.i.cr.lost == e.i.cr.lost
    requires Failed(e'.i.rx) == Failed(e.i.rx)
    requires (e'.i.rx.barTaken <==> e.i.rx.barTaken || bar) && (e'.i.rx.pump.Off? <==> e.i.rx.pump.Off? && !starts)
    ensures Holds(e', m) <==> Holds(e, m) || (m.BarrierTaken? && bar) || (m.Pumping? && starts)
  {
  }

  lemma ClientTouched(s: State, a: ClientAct, s': State, m: Mark)
    requires ClientTouches(s, a, s')
    ensures Holds(Ends(s', Cl), m) <==> Holds(Ends(s, Cl), m) || ClientSets(s, a, m)
  {
    hide Holds;
    var cuts := a.Commit? && s.cl.side.die == Alive;
    if OfSide(m) {
      HoldsSide(Ends(s, Cl), Ends(s', Cl), m, a.Publish?, false);
    } else if OfOut(m) {
      HoldsOut(Ends(s, Cl), Ends(s', Cl), m, cuts, cuts && a.how != Sent, false);
    } else {
      HoldsIn(Ends(s, Cl), Ends(s', Cl), m, a.TakeGo?, a.Spawn?);
    }
  }

  predicate Drops(a: ServerAct) {
    a.AcceptUnknown? || a.AcceptFail? || a.CloseRefused?
  }

  predicate ServerTouches(s: State, a: ServerAct, s': State) {
    && s'.cl == s.cl
    && s'.sv.side == s.sv.side.(conn := s.sv.side.conn || a.Attach?, gone := s.sv.side.gone || Drops(a))
    && s'.down.tx == s.down.tx.(diverted := s.down.tx.diverted || a.Attach?) && s'.down.rx == s.down.rx
    && (s'.down.mx.broken <==> s.down.mx.broken || ((a.Attach? || a.SendOffer?) && a.how != Sent))
    && (s'.down.cr.fin <==> s.down.cr.fin || (!s.down.cr.torn && Drops(a))) && s'.down.cr.lost == s.down.cr.lost
    && s'.down.cr.broken == s.down.cr.broken && s'.down.cr.torn == s.down.cr.torn
    && s'.up.tx == s.up.tx && s'.up.mx.broken == s.up.mx.broken
    && s'.up.cr == s.up.cr.(car := s'.up.cr.car)
    && (s'.up.rx.barTaken <==> s.up.rx.barTaken || a.TakeUplinkFin?)
    && (s'.up.rx.pump.Off? <==> s.up.rx.pump.Off? && !(a.TakeUplinkFin? && !a.late))
    && (s'.up.rx.pump == s.up.rx.pump || (s.up.rx.pump.Off? && s'.up.rx.pump == Reading))
    && s'.up.rx == s.up.rx.(barTaken := s'.up.rx.barTaken, pump := s'.up.rx.pump)
  }

  lemma ServerTouch(s: State, a: ServerAct)
    requires Inv(s) && CanServer(s, a)
    ensures ServerTouches(s, a, ApplyServer(s, a))
  {
    if a.TakeUplinkFin? {
      UplinkTaken(s, a.late);
    } else {
      hide Inv;
      ServerWork(s, a);
    }
  }

  lemma UplinkTaken(s: State, late: bool)
    requires Inv(s) && CanServer(s, TakeUplinkFin(late))
    ensures ServerTouches(s, TakeUplinkFin(late), ApplyServer(s, TakeUplinkFin(late)))
  {
    UplinkBarrierHasCarrier(s);
    FirstBarrier(s.up);
    hide Inv;
    UplinkBegins(s, late);
  }

  lemma UplinkBegins(s: State, late: bool)
    requires CanServer(s, TakeUplinkFin(late)) && s.up.rx.pump.Off? && s.sv.side.conn
    ensures ServerTouches(s, TakeUplinkFin(late), ApplyServer(s, TakeUplinkFin(late)))
  {
    BarrierEffect(s.up);
    BeginsThen(Do(s.up, TakeBarrier), !late);
    hide Do, BeginUplink, Enabled, ServerIdle;
  }

  lemma FirstBarrier(d: Dir)
    requires DirInv(d) && Enabled(d, TakeBarrier)
    ensures d.rx.pump.Off? && !d.rx.barTaken
  {
    hide Flow, Closing, Tally, Pumped, Sealed, NoData;
    MuxPopCount(d.mx.items);
  }

  lemma BeginsThen(d: Dir, go: bool)
    requires d.rx.barTaken && d.rx.pump.Off?
    ensures BeginUplink(d, go) == if go then d.(rx := d.rx.(pump := Reading)) else d
  {
  }

  /** The server's steps that move no frame and no byte. */
  predicate ServerPc(a: ServerAct) {
    a.BeginPayload? || a.TapUp? || a.Win? || a.Register? || a.Expire? || a.Refuse?
  }

  lemma ServerPcEffect(s: State, a: ServerAct)
    requires CanServer(s, a) && ServerPc(a)
    ensures var s' := ApplyServer(s, a); s' == s.(sv := s'.sv) && s'.sv.side == s.sv.side
  {
    hide Do, Enabled, Inspect, BeginUplink, TapUplink, ShutOut;
    match a
    case BeginPayload =>
    case TapUp(p) => TapUplinkEffect(s.sv, p);
    case Win =>
    case Register =>
    case Expire =>
    case Refuse =>
  }

  lemma ServerWork(s: State, a: ServerAct)
    requires CanServer(s, a) && !a.TakeUplinkFin?
    ensures ServerTouches(s, a, ApplyServer(s, a))
  {
    if ServerPc(a) {
      ServerPcEffect(s, a);
      hide ApplyServer, CanServer;
    } else {
      ServerWorks(s, a);
    }
  }

  lemma ServerWorks(s: State, a: ServerAct)
    requires CanServer(s, a) && !a.TakeUplinkFin? && !ServerPc(a)
    ensures ServerTouches(s, a, ApplyServer(s, a))
  {
    hide Do, Enabled, Inspect, BeginUplink, TapUplink, ShutOut, Diverting, Noting;
    match a
    case SendOffer(how) => NotingMarks(s.down, how, Offer);
    case Accept => SetCarEffect(s.up, Inspect(s.up.cr.car).rest);
    case AcceptUnknown => SetCarEffect(s.up, []); ShutOutMarks(s.down);
    case AcceptFail => SetCarEffect(s.up, []); ShutOutMarks(s.down);
    case Attach(how) => DivertMarks(s.down, how);
    case CloseRefused => ShutOutMarks(s.down);
  }

  lemma ServerMarks(s: State, a: ServerAct, w: Who, m: Mark)
    requires Inv(s) && CanServer(s, a)
    ensures Holds(Ends(ApplyServer(s, a), w), m) <==> Holds(Ends(s, w), m) || Sets(s, Server1(a), w, m)
  {
    hide Inv, ApplyServer, CanServer, ServerTouches, Holds, ServerSets, Ends;
    ServerTouch(s, a);
    TouchedByServer(s, a, ApplyServer(s, a), w, m);
  }

  lemma TouchedByServer(s: State, a: ServerAct, s': State, w: Who, m: Mark)
    requires ServerTouches(s, a, s')
    ensures Holds(Ends(s', w), m) <==> Holds(Ends(s, w), m) || Sets(s, Server1(a), w, m)
  {
    if w.Cl? {
      ClientUntouched(s, a, s', m);
    } else {
      ServerTouched(s, a, s', m);
    }
  }

  lemma ClientUntouched(s: State, a: ServerAct, s': State, m: Mark)
    requires ServerTouches(s, a, s')
    ensures Holds(Ends(s', Cl), m) <==> Holds(Ends(s, Cl), m)
  {
  }

  lemma ServerTouched(s: State, a: ServerAct, s': State, m: Mark)
    requires ServerTouches(s, a, s')
    ensures Holds(Ends(s', Sv), m) <==> Holds(Ends(s, Sv), m) || ServerSets(s, a, m)
  {
    hide Holds;
    if OfSide(m) {
      HoldsSide(Ends(s, Sv), Ends(s', Sv), m, a.Attach?, Drops(a));
    } else if OfOut(m) {
      var breaks := (a.Attach? || a.SendOffer?) && a.how != Sent;
      HoldsOut(Ends(s, Sv), Ends(s', Sv), m, a.Attach?, breaks, !s.down.cr.torn && Drops(a));
    } else {
      HoldsIn(Ends(s, Sv), Ends(s', Sv), m, a.TakeUplinkFin?, a.TakeUplinkFin? && !a.late);
    }
  }

  lemma InvDirs(s: State)
    requires Inv(s)
    ensures DirInv(s.up) && DirInv(s.down)
  {
  }

  lemma StepMarks(s: State, st: Step, w: Who, m: Mark)
    requires Inv(s) && Can(s, st)
    ensures Holds(Ends(Apply(s, st), w), m) <==> Holds(Ends(s, w), m) || Sets(s, st, w, m)
  {
    hide Inv, Holds, Sets, ApplyBoth, ApplyClient, ApplyServer, CanClient, CanServer, CanAct;
    match st
    case Both(who, a) => InvDirs(s); BothMarks(s, who, a, w, m);
    case Client1(a) => ClientMarks(s, a, w, m);
    case Server1(a) => ServerMarks(s, a, w, m);
  }

  // ----- whole runs --------------------------------------------------------------------

  /** Some step of the run is the event of this flag. */
  predicate Seen(s: State, tr: seq<Step>, w: Who, m: Mark)
    requires Runs(s, tr)
    decreases tr
  {
    tr != [] && (Sets(s, tr[0], w, m) || Seen(Apply(s, tr[0]), tr[1..], w, m))
  }

  lemma {:induction false} RunMarks(s: State, tr: seq<Step>, w: Who, m: Mark)
    requires Inv(s) && Runs(s, tr)
    ensures Holds(Ends(After(s, tr), w), m) <==> Holds(Ends(s, w), m) || Seen(s, tr, w, m)
    decreases tr
  {
    hide Inv, Can, Apply, Holds, Sets;
    if tr != [] {
      StepMarks(s, tr[0], w, m);
      StepKeeps(s, tr[0]);
      RunMarks(Apply(s, tr[0]), tr[1..], w, m);
    }
  }

  /** In every run, on both sides, each flag is up if and only if its event is among
      the steps. */
  lemma FlagsAreEvents(c: Setup, tr: seq<Step>, w: Who, m: Mark)
    requires IsRun(c, tr)
    ensures Holds(Ends(Reached(c, tr), w), m) <==> Seen(Boot(c), tr, w, m)
  {
    StartHasInv(c.sid, c.token, c.minBulk, c.tlsOnly);
    hide Inv, Runs, After, Seen;
    RunMarks(Boot(c), tr, w, m);
    BootIsBlank(c, w, m);
  }

  lemma BootIsBlank(c: Setup, w: Who, m: Mark)
    ensures !Holds(Ends(Boot(c), w), m)
  {
  }

  /** ... and stays up. */
  lemma FlagsLast(c: Setup, tr: seq<Step>, more: seq<Step>, w: Who, m: Mark)
    requires IsRun(c, tr) && Runs(Reached(c, tr), more) && Holds(Ends(Reached(c, tr), w), m)
    ensures Holds(Ends(After(Reached(c, tr), more), w), m)
  {
    ReachedHasInv(c, tr);
    hide Inv, Runs, After, Seen, Holds;
    RunMarks(Reached(c, tr), more, w, m);
  }

  // ----- what comes and goes -------------------------------------------------------------

  /** recvLoop inside closeLocally, and a CloseWrite caller that is to end B. */
  datatype Toggle = InFin | InShut

  predicate On(sd: Side, g: Toggle) {
    match g case InFin => sd.finWait case InShut => sd.shutting
  }

  /** Whether it is on after a run, from the last of its two events. */
  predicate LastOn(tr: seq<Step>, w: Who, g: Toggle) {
    if tr == [] then false
    else
      var st := tr[|tr| - 1];
      if st == Both(w, Begins(g)) then true
      else if st == Both(w, Finishes(g)) then false
      else LastOn(tr[..|tr| - 1], w, g)
  }

  function Begins(g: Toggle): (a: Act) {
    match g case InFin => TakeFin case InShut => CloseWrite
  }

  function Finishes(g: Toggle): (a: Act) {
    match g case InFin => FinDone case InShut => CloseWriteDone
  }

  lemma ActToggles(e: End, a: Act, idle: bool, broke: bool, g: Toggle)
    requires CanAct(e, a, idle, broke)
    ensures On(DoAct(e, a, idle, broke).side, g) <==> (On(e.side, g) && a != Finishes(g)) || a == Begins(g)
  {
    hide Do, Enabled, ShutOut, IsRecv, IsSend, IsTake, IsFetch, Noting;
    match a
    case Send(_) =>
    case Recv(_) =>
    case Reset(_) =>
    case CloseWrite =>
    case CloseWriteDone =>
    case Die =>
    case DiePipe =>
    case DieLook => assert e.o.tx.diverted ==> DoAct(e, a, idle, broke).side.die == SawCarrier;
    case DieCas => assert e.o.tx.whc ==> DoAct(e, a, idle, broke).o == e.o;
    case DieShut =>
    case DieArm =>
    case DieReleased =>
    case SendFin(_) =>
    case TakeFin =>
    case FinDone =>
    case OnceEnter(_) =>
    case OnceClose =>
    case OnceNoConn =>
    case OnceDone =>
    case PumpGaveUp =>
  }

  lemma StepToggles(s: State, st: Step, w: Who, g: Toggle)
    requires Inv(s) && Can(s, st)
    ensures On(Ends(Apply(s, st), w).side, g) <==>
            (On(Ends(s, w).side, g) && st != Both(w, Finishes(g))) || st == Both(w, Begins(g))
  {
    hide Inv, CanAct, DoAct, CanClient, ApplyClient, CanServer, ApplyServer, ApplyBoth, RecvIdle, OpenBroke;
    match st
    case Both(who, a) =>
      TapKeepsWiring(s, who, a);
      if who == w {
        ActToggles(Ends(s, w), a, RecvIdle(s, w), OpenBroke(s, w), g);
      } else {
        OtherEnd(s, who, a, w);
      }
    case Client1(a) => ClientTouch(s, a);
    case Server1(a) => ServerTouch(s, a);
  }

  lemma {:induction false} AfterLast(s: State, tr: seq<Step>)
    requires Runs(s, tr) && tr != []
    ensures var n := |tr| - 1;
            Runs(s, tr[..n]) && Can(After(s, tr[..n]), tr[n]) && After(s, tr) == Apply(After(s, tr[..n]), tr[n])
    decreases tr
  {
    hide Can, Apply;
    var n := |tr| - 1;
    if n > 0 {
      AfterLast(Apply(s, tr[0]), tr[1..]);
      assert tr[1..][..n - 1] == tr[..n][1..] && tr[..n][0] == tr[0];
    } else {
      assert tr[1..] == [];
    }
  }

  lemma {:induction false} RunToggles(s: State, tr: seq<Step>, w: Who, g: Toggle)
    requires Inv(s) && Runs(s, tr) && !On(Ends(s, w).side, g)
    ensures On(Ends(After(s, tr), w).side, g) <==> LastOn(tr, w, g)
    decreases |tr|
  {
    hide Inv, Can, Apply, On, Begins, Finishes;
    if tr != [] {
      var n := |tr| - 1;
      AfterLast(s, tr);
      RunToggles(s, tr[..n], w, g);
      RunKeeps(s, tr[..n]);
      hide Runs, After;
      StepToggles(After(s, tr[..n]), tr[n], w, g);
    }
  }

  /** In every run recvLoop is held up by a cmdFIN if and only if it has taken one and
      not come back from closeLocally, and while it is it takes no frame of the stream;
      likewise a CloseWrite that has won bWriteHalfClosed and not ended B yet. */
  lemma FinHoldsUpLoop(c: Setup, tr: seq<Step>, w: Who)
    requires IsRun(c, tr)
    ensures var e := Ends(Reached(c, tr), w);
            && (e.side.finWait <==> LastOn(tr, w, InFin)) && (e.side.shutting <==> LastOn(tr, w, InShut))
    ensures LastOn(tr, w, InFin) ==> !RecvIdle(Reached(c, tr), w)
  {
    StartHasInv(c.sid, c.token, c.minBulk, c.tlsOnly);
    hide Inv, Runs, After, LastOn;
    RunToggles(Boot(c), tr, w, InFin);
    RunToggles(Boot(c), tr, w, InShut);
  }

  // ----- the two sides' own counters ---------------------------------------------------------

  /** Which of the server's own steps a run has had. */
  datatype ServerSteps = ServerSteps(
    begun: bool, won: bool, registered: bool, offered: bool, expired: bool,
    accepted: bool, dropped: bool, attached: bool, refused: bool, closed: bool)

  const NO_STEPS := ServerSteps(false, false, false, false, false, false, false, false, false, false)

  function ServerHad(tr: seq<Step>): (h: ServerSteps) {
    if tr == [] then NO_STEPS else Plus(ServerHad(tr[..|tr| - 1]), tr[|tr| - 1])
  }

  function Plus(h: ServerSteps, st: Step): (k: ServerSteps) {
    ServerSteps(
      h.begun || st == Server1(BeginPayload), h.won || st == Server1(Win),
      h.registered || st == Server1(Register), h.offered || (st.Server1? && st.v.SendOffer?),
      h.expired || st == Server1(Expire), h.accepted || st == Server1(Accept),
      h.dropped || st == Server1(AcceptUnknown) || st == Server1(AcceptFail),
      h.attached || (st.Server1? && st.v.Attach?), h.refused || st == Server1(Refuse),
      h.closed || st == Server1(CloseRefused))
  }

  lemma InLast(tr: seq<Step>, x: Step)
    requires tr != []
    ensures x in tr <==> x in tr[..|tr| - 1] || x == tr[|tr| - 1]
  {
    assert tr == tr[..|tr| - 1] + [tr[|tr| - 1]];
  }

  /** ... that is, which are among its steps. */
  lemma {:induction false} ServerHadMeans(tr: seq<Step>)
    ensures var h := ServerHad(tr);
            && (h.begun <==> Server1(BeginPayload) in tr) && (h.won <==> Server1(Win) in tr)
            && (h.registered <==> Server1(Register) in tr) && (h.expired <==> Server1(Expire) in tr)
            && (h.accepted <==> Server1(Accept) in tr) && (h.refused <==> Server1(Refuse) in tr)
            && (h.dropped <==> Server1(AcceptUnknown) in tr || Server1(AcceptFail) in tr)
            && (h.closed <==> Server1(CloseRefused) in tr)
  {
    if tr != [] {
      ServerHadMeans(tr[..|tr| - 1]);
      InLast(tr, Server1(BeginPayload));
      InLast(tr, Server1(Win));
      InLast(tr, Server1(Register));
      InLast(tr, Server1(Expire));
      InLast(tr, Server1(Accept));
      InLast(tr, Server1(Refuse));
      InLast(tr, Server1(AcceptUnknown));
      InLast(tr, Server1(AcceptFail));
      InLast(tr, Server1(CloseRefused));
    }
  }

  lemma {:induction false} OffersAndAttaches(tr: seq<Step>)
    ensures ServerHad(tr).offered <==> exists how :: Server1(SendOffer(how)) in tr
    ensures ServerHad(tr).attached <==> exists how :: Server1(Attach(how)) in tr
  {
    if tr != [] {
      OffersAndAttaches(tr[..|tr| - 1]);
      forall how ensures
        && (Server1(SendOffer(how)) in tr <==> Server1(SendOffer(how)) in tr[..|tr| - 1]
                                               || Server1(SendOffer(how)) == tr[|tr| - 1])
        && (Server1(Attach(how)) in tr <==> Server1(Attach(how)) in tr[..|tr| - 1]
                                            || Server1(Attach(how)) == tr[|tr| - 1]) {
        InLast(tr, Server1(SendOffer(how)));
        InLast(tr, Server1(Attach(how)));
      }
    }
  }

  /** The server's trigger, registration and listener, from its steps. */
  predicate ServerTold(v: Server, h: ServerSteps) {
    && (v.payload <==> h.begun) && (v.tapsDone <==> h.won || v.det.phase == D.Aborted)
    && v.trig == (if h.offered then Offered else if h.registered then Registered else if h.won then Won
                  else NotTriggered)
    && (h.offered ==> h.registered) && (h.registered ==> h.won)
    && (v.pending <==> h.registered && !h.expired && !h.accepted)
    && (h.expired || h.accepted ==> h.registered)
    && v.listener == (if h.attached then Attached else if h.closed then Refused else if h.refused then Refusing
                      else if h.accepted then Taken else if h.dropped then ListenPc.Dropped else Waiting)
    && (h.attached || h.refused ==> h.accepted) && (h.closed ==> h.refused) && !(h.attached && h.refused)
    && !(h.accepted && h.dropped)
  }

  lemma ServerTells(s: State, a: ServerAct, h: ServerSteps)
    requires CanServer(s, a) && ServerTold(s.sv, h) && (s.sv.trig != NotTriggered ==> s.sv.det.phase == D.Ready)
    ensures ServerTold(ApplyServer(s, a).sv, Plus(h, Server1(a)))
  {
    hide Do, Enabled, Inspect, BeginUplink, ShutOut, D.Observe, D.Sound, ServerIdle, Noting, Diverting;
    match a
    case BeginPayload =>
    case TapUp(p) =>
    case Win =>
    case Register =>
    case SendOffer(_) =>
    case Expire =>
    case Accept =>
    case AcceptUnknown =>
    case AcceptFail =>
    case Attach(_) =>
    case Refuse =>
    case CloseRefused =>
    case TakeUplinkFin(_) =>
  }

  lemma BothTells(s: State, w: Who, a: Act, h: ServerSteps)
    requires Can(s, Both(w, a)) && ServerTold(s.sv, h) && (s.sv.trig != NotTriggered ==> s.sv.tapsDone)
    ensures ServerTold(ApplyBoth(s, w, a).sv, h)
  {
    hide DoAct, CanAct, D.Observe, D.Sound;
  }

  lemma GateFacts(s: State)
    requires Inv(s)
    ensures s.sv.trig != NotTriggered ==> s.sv.det.phase == D.Ready
  {
    hide DirInv, CutInv, OfferInv, OnceInv, WireInv, Lively, D.Paths, D.Sound;
  }

  lemma PlusNothing(h: ServerSteps, st: Step)
    requires !st.Server1?
    ensures Plus(h, st) == h
  {
  }

  lemma StepTells(s: State, st: Step, h: ServerSteps)
    requires Inv(s) && Can(s, st) && ServerTold(s.sv, h)
    ensures ServerTold(Apply(s, st).sv, Plus(h, st))
  {
    GateFacts(s);
    hide Inv, ApplyServer, CanServer, ApplyClient, CanClient, ApplyBoth, CanAct;
    match st
    case Both(w, a) => BothTells(s, w, a, h); PlusNothing(h, st); hide ServerTold, Plus;
    case Client1(a) => ClientTouch(s, a); PlusNothing(h, st); hide ServerTold, Plus, ClientTouches;
    case Server1(a) => ServerTells(s, a, h); hide ServerTold, Plus;
  }

  lemma {:induction false} RunTells(s: State, tr: seq<Step>)
    requires Inv(s) && Runs(s, tr) && ServerTold(s.sv, ServerHad([]))
    ensures ServerTold(After(s, tr).sv, ServerHad(tr))
    decreases |tr|
  {
    hide Inv, Can, Apply, ServerTold, Plus;
    if tr != [] {
      var n := |tr| - 1;
      AfterLast(s, tr);
      RunTells(s, tr[..n]);
      RunKeeps(s, tr[..n]);
      hide Runs, After;
      StepTells(After(s, tr[..n]), tr[n], ServerHad(tr[..n]));
    }
  }

  /** In every run the server's trigger, its registration and its listener stand exactly
      where the server's own steps have put them. */
  lemma ServerIsTold(c: Setup, tr: seq<Step>)
    requires IsRun(c, tr)
    ensures ServerTold(Reached(c, tr).sv, ServerHad(tr))
  {
    StartHasInv(c.sid, c.token, c.minBulk, c.tlsOnly);
    assert ServerHad([]) == NO_STEPS;
    hide Inv, Runs, After, ServerHad;
    RunTells(Boot(c), tr);
  }

  // ----- what the detector saw -------------------------------------------------------------------

  /** The observation a step makes: a tapped read, or a server write on the mux, once the
      payload has begun and until a verdict is in. */
  function Taps(s: State, st: Step): (os: seq<D.Obs>) {
    if !s.sv.payload || s.sv.tapsDone then []
    else match st
      case Server1(TapUp(p)) => [D.Up(p)]
      case Both(Sv, Send(mv)) => if IsPush(mv) then [D.Down(GivenBy(mv))] else []
      case _ => []
  }

  function Tapped(s: State, tr: seq<Step>): (os: seq<D.Obs>)
    requires Runs(s, tr)
    decreases tr
  {
    if tr == [] then [] else Taps(s, tr[0]) + Tapped(Apply(s, tr[0]), tr[1..])
  }

  lemma RunOne(d: D.Det, o: D.Obs)
    requires D.Sound(d)
    ensures D.Run(d, [o]) == D.Observe(d, o) && D.Run(d, []) == d
  {
    hide D.Observe;
    assert [o][1..] == [];
  }

  lemma StepTaps(s: State, st: Step)
    requires Can(s, st) && D.Sound(s.sv.det)
    ensures Apply(s, st).sv.det == D.Run(s.sv.det, Taps(s, st))
  {
    RunOne(s.sv.det, D.Up([]));
    match st
    case Both(w, a) =>
      hide DoAct, CanAct, D.Observe, D.Sound, D.Run;
      if w.Sv? && a.Send? && IsPush(a.mv) {
        RunOne(s.sv.det, D.Down(a.mv.b));
      }
    case Client1(a) =>
      ClientTouch(s, a);
      hide ApplyClient, CanClient, D.Run, D.Sound;
    case Server1(a) =>
      hide Do, Enabled, Inspect, BeginUplink, ShutOut, D.Observe, D.Sound, D.Run, ServerIdle, Noting, Diverting;
      if a.TapUp? {
        RunOne(s.sv.det, D.Up(a.p));
      }
  }

  lemma {:induction false} RunTaps(s: State, tr: seq<Step>)
    requires Runs(s, tr) && D.Sound(s.sv.det)
    ensures After(s, tr).sv.det == D.Run(s.sv.det, Tapped(s, tr))
    decreases tr
  {
    RunOne(s.sv.det, D.Up([]));
    if tr != [] {
      hide Can, Apply, Taps, D.Observe, D.Sound, D.Run;
      StepTaps(s, tr[0]);
      var t := Apply(s, tr[0]);
      RunTaps(t, tr[1..]);
      D.RunSplit(s.sv.det, Taps(s, tr[0]), Tapped(t, tr[1..]));
    }
  }

  /** In every run the verdict is the detector's on exactly the reads tapped and the
      writes the server put on the mux, in order, from the start of the payload until a
      verdict was in. */
  lemma DetectorSawTaps(c: Setup, tr: seq<Step>)
    requires IsRun(c, tr)
    ensures Reached(c, tr).sv.det == D.Run(D.NewDet(c.minBulk, c.tlsOnly), Tapped(Boot(c), tr))
  {
    hide Runs, After, Tapped, D.Run;
    RunTaps(Boot(c), tr);
  }

  // ----- the books ----------------------------------------------------------------------

  /** What the Stream.Write calls of side w were given along a run, in order ... */
  function Calls(tr: seq<Step>, w: Who): (b: seq<byte>) {
    if tr == [] then [] else CallOf(tr[0], w) + Calls(tr[1..], w)
  }

  function CallOf(st: Step, w: Who): (b: seq<byte>) {
    if st.Both? && st.w == w && st.a.Send? then GivenBy(st.a.mv) else []
  }

  /** ... and what they reported written. */
  function Reports(tr: seq<Step>, w: Who): (b: seq<byte>) {
    if tr == [] then [] else ReportOf(tr[0], w) + Reports(tr[1..], w)
  }

  function ReportOf(st: Step, w: Who): (b: seq<byte>) {
    if st.Both? && st.w == w && st.a.Send? then ReportedBy(st.a.mv) else []
  }

  lemma ActBooks(e: End, a: Act, idle: bool, broke: bool)
    requires CanAct(e, a, idle, broke)
    ensures var o' := DoAct(e, a, idle, broke).o;
            && o'.tx.passed == e.o.tx.passed + (if a.Send? then GivenBy(a.mv) else [])
            && o'.tx.accepted == e.o.tx.accepted + (if a.Send? then ReportedBy(a.mv) else [])
  {
    if a.Send? {
      hide Do, Enabled;
      MoveBooks(e.o, a.mv);
    } else if SideOnly(a) {
      SideOnlyEffect(e, a, idle, broke);
      hide DoAct, CanAct;
    } else {
      ActKeepsBooks(e, a, idle, broke);
    }
  }

  lemma ActKeepsBooks(e: End, a: Act, idle: bool, broke: bool)
    requires CanAct(e, a, idle, broke) && !a.Send? && !SideOnly(a)
    ensures var o' := DoAct(e, a, idle, broke).o;
            o'.tx.passed == e.o.tx.passed && o'.tx.accepted == e.o.tx.accepted
  {
    hide Do, Enabled, ShutOut, IsRecv, IsSend, Noting;
    match a
    case Recv(_) =>
    case Reset(_) =>
    case CloseWrite => RetireEffect(e.o);
    case CloseWriteDone => ShutOutMarks(e.o);
    case DiePipe =>
    case DieCas => RetireEffect(e.o);
    case DieShut => ShutOutMarks(e.o);
    case SendFin(how) => NotingMarks(e.o, how, Fin);
    case TakeFin =>
    case OnceClose => ShutOutMarks(e.o);
    case PumpGaveUp =>
  }

  lemma ClientKeepsBooks(s: State, a: ClientAct, w: Who)
    requires CanClient(s, a)
    ensures var o, o' := Ends(s, w).o, Ends(ApplyClient(s, a), w).o;
            o'.tx.passed == o.tx.passed && o'.tx.accepted == o.tx.accepted
  {
    if PcOnly(a) {
      PcOnlyEffect(s, a);
      hide ApplyClient, CanClient;
    } else {
      hide Do, Opening, Preload, Diverting;
      match a
      case TakeOffer(_) => TakeNoteEffect(s.down);
      case OpenB(filler) => PreloadEffect(s, Opening(s.sid, s.token, filler));
      case OpenBFail(filler, k) => PreloadEffect(s, Opening(s.sid, s.token, filler)[..k]);
      case TakeGo(_) => BarrierEffect(s.down);
      case Commit(_, how) => if s.cl.side.die == Alive { DivertMarks(s.up, how); }
      case Spawn(_) => StartEffect(s.down);
    }
  }

  lemma StepBooks(s: State, st: Step, w: Who)
    requires Inv(s) && Can(s, st)
    ensures var o, o' := Ends(s, w).o, Ends(Apply(s, st), w).o;
            && o'.tx.passed == o.tx.passed + CallOf(st, w) && o'.tx.accepted == o.tx.accepted + ReportOf(st, w)
  {
    hide Inv, CanAct, DoAct, CanClient, ApplyClient, CanServer, ApplyServer, TapDown;
    match st
    case Both(who, a) =>
      var e, idle, broke := Ends(s, who), RecvIdle(s, who), OpenBroke(s, who);
      TapKeepsWiring(s, who, a);
      ActBooks(e, a, idle, broke);
      InvDirs(s);
      ActIn(e, a, idle, broke);
    case Client1(a) => ClientKeepsBooks(s, a, w);
    case Server1(a) => ServerTouch(s, a);
  }

  lemma {:induction false} RunBooks(s: State, tr: seq<Step>, w: Who)
    requires Inv(s) && Runs(s, tr)
    ensures var o, o' := Ends(s, w).o, Ends(After(s, tr), w).o;
            && o'.tx.passed == o.tx.passed + Calls(tr, w) && o'.tx.accepted == o.tx.accepted + Reports(tr, w)
    decreases tr
  {
    hide Inv, Can, Apply, CallOf, ReportOf;
    if tr != [] {
      StepBooks(s, tr[0], w);
      StepKeeps(s, tr[0]);
      RunBooks(Apply(s, tr[0]), tr[1..], w);
    }
  }

  /** The books are the calls: whatever the transports do, `passed` and `accepted` are
      what the Write calls of the run were given and reported, in order. */
  lemma BooksAreCalls(c: Setup, tr: seq<Step>, w: Who)
    requires IsRun(c, tr)
    ensures var o := Ends(Reached(c, tr), w).o; o.tx.passed == Calls(tr, w) && o.tx.accepted == Reports(tr, w)
  {
    StartHasInv(c.sid, c.token, c.minBulk, c.tlsOnly);
    hide Inv, Runs, After;
    RunBooks(Boot(c), tr, w);
  }
}
