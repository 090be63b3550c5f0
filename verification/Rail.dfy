/** One direction of a stream, from the sender's Stream.Write to the receiver's
    Stream.Read, across the seam from the mux to carrier B.

    `Dir` holds what the two sides and the two transports hold for that
    direction; `Move` lists everything that can happen to it, each move one
    critical section, one channel operation or one atomic store. The invariant
    at the end is what every interleaving of those moves keeps. */
module Rail {
  import opened Basics
  import opened Frames

  // ----- the mux as this stream's frames see it --------------------------

  /** Barrier is cmdMigrateGo on the downlink and cmdUplinkFin on the uplink,
      Offer is cmdMigrateReady. */
  datatype Item = Data(payload: seq<byte>) | Barrier | Offer | Fin

  function Payloads(m: seq<Item>): (r: seq<byte>) {
    if m == [] then []
    else (if m[0].Data? then m[0].payload else []) + Payloads(m[1..])
  }

  function Count(m: seq<Item>, it: Item): (n: nat) {
    if m == [] then 0 else (if m[0] == it then 1 else 0) + Count(m[1..], it)
  }

  function DataItems(frames: seq<seq<byte>>): (r: seq<Item>)
    ensures |r| == |frames| && forall i :: 0 <= i < |r| ==> r[i] == Data(frames[i])
  {
    seq(|frames|, i requires 0 <= i < |frames| => Data(frames[i]))
  }

  predicate NoData(m: seq<Item>) {
    m == [] || (!m[0].Data? && NoData(m[1..]))
  }

  /** No data frame stands behind the barrier. */
  predicate Sealed(m: seq<Item>) {
    m == [] || (if m[0].Barrier? then NoData(m[1..]) else Sealed(m[1..]))
  }

  lemma {:induction false} PayloadsAppend(a: seq<Item>, b: seq<Item>)
    ensures Payloads(a + b) == Payloads(a) + Payloads(b)
  {
    if a == [] {
      assert a + b == b;
    } else {
      PayloadsAppend(a[1..], b);
      assert (a + b)[1..] == a[1..] + b;
    }
  }

  lemma {:induction false} CountAppend(a: seq<Item>, b: seq<Item>, it: Item)
    ensures Count(a + b, it) == Count(a, it) + Count(b, it)
  {
    if a == [] {
      assert a + b == b;
    } else {
      CountAppend(a[1..], b, it);
      assert (a + b)[1..] == a[1..] + b;
    }
  }

  lemma {:induction false} CountZero(m: seq<Item>, it: Item)
    ensures Count(m, it) == 0 <==> it !in m
  {
    if m != [] {
      CountZero(m[1..], it);
      assert m == [m[0]] + m[1..];
    }
  }

  lemma {:induction false} DataItemsContents(frames: seq<seq<byte>>, it: Item)
    requires !it.Data?
    ensures Payloads(DataItems(frames)) == Flatten(frames) && Count(DataItems(frames), it) == 0
  {
    if frames != [] {
      DataItemsContents(frames[1..], it);
      assert DataItems(frames)[1..] == DataItems(frames[1..]);
    }
  }

  lemma {:induction false} NoDataNoPayload(m: seq<Item>)
    requires NoData(m)
    ensures Payloads(m) == []
  {
    if m != [] {
      NoDataNoPayload(m[1..]);
    }
  }

  /** Data may follow data; only non-data may follow a barrier. */
  lemma {:induction false} SealedAppend(a: seq<Item>, b: seq<Item>)
    requires NoData(b) || Count(a, Barrier) == 0 == Count(b, Barrier)
    ensures NoData(a) && NoData(b) ==> NoData(a + b)
    ensures Sealed(a) ==> Sealed(a + b)
  {
    if a == [] {
      assert a + b == b;
      SealedAlone(b);
    } else {
      SealedAppend(a[1..], b);
      assert (a + b)[1..] == a[1..] + b;
    }
  }

  lemma {:induction false} SealedAlone(b: seq<Item>)
    requires NoData(b) || Count(b, Barrier) == 0
    ensures Sealed(b)
  {
    if b != [] {
      SealedAlone(b[1..]);
    }
  }

  // ----- state ------------------------------------------------------------

  /** How a read from B ended: more to come, a clean io.EOF, or any other error. */
  datatype Ending = More | Eof | Broken

  /** Where the receiver's carrierToPipe stands. */
  datatype Pump =
    | Off                      // not started
    | Reading                  // in bc.Read
    | Handing(outcome: Ending) // in pipeW.Write, having read with that outcome
    | AtEof                    // left the loop with io.EOF
    | EofMarked                // bReadHalfClosed stored
    | AtError                  // left the loop with another error
    | Stopped

  /** passed, accepted: history, what this direction's Stream.Write calls were given
      and what they reported written. */
  datatype TxSide = TxSide(
    passed: seq<byte>, accepted: seq<byte>,
    diverted: bool,      // bWriteConn != nil
    whc: bool            // bWriteHalfClosed
  )

  datatype MuxLine = MuxLine(items: seq<Item>, broken: bool, barriers: nat)

  datatype BLine = BLine(
    car: seq<byte>,
    broken: bool,        // a Write on B has failed
    torn: bool,          // ... leaving other bytes on B than it reported
    lost: bool,          // B was reset
    fin: bool            // B was ended cleanly
  )

  datatype RxSide = RxSide(
    barTaken: bool,      // the barrier has left the mux
    held: seq<byte>,     // rest of the frame recvLoop is handing to the pipe
    pump: Pump,
    pumped: seq<byte>,   // rest of the chunk carrierToPipe is handing to the pipe
    consumed: seq<byte>, // history: bytes Stream.Read has returned
    pipeDone: bool,
    dropped: bool,       // history: some byte met a closed pipe
    swallowed: nat,      // history: how many did
    fetched: seq<byte>,  // history: bytes carrierToPipe has read off B
    fed: seq<byte>,      // history: those of them Stream.Read has returned
    eof: bool,           // history: carrierToPipe's Read returned io.EOF
    rhc: bool            // bReadHalfClosed
  )

  datatype Dir = Dir(tx: TxSide, mx: MuxLine, cr: BLine, rx: RxSide)

  const FRESH := Dir(TxSide([], [], false, false), MuxLine([], false, 0), BLine([], false, false, false, false),
                     RxSide(false, [], Off, [], [], false, false, 0, [], [], false, false))

  /** How the write of one control frame can go: reported and delivered, failed,
      or failed although it was delivered. */
  datatype Sending = Sent | Unsent | SentLate

  /** Everything that can happen to one direction. Parameters resolve what the
      network, the scheduler and the random splitter decide. */
  datatype Move =
    // migWrite on the mux: done, cut short by a failure, or refused by a dead connection
    | PushOk(b: seq<byte>, frames: seq<seq<byte>>)
    | PushFail(b: seq<byte>, frames: seq<seq<byte>>, n: nat)
    | PushDead(b: seq<byte>)
    | NoteOk(item: Item)                    // another control frame is written
    | NoteLate(item: Item)                  // ... or its write fails after delivering it
    | BreakMux                              // the mux connection fails
    | DivertOk                              // barrier written, then bWriteConn set
    | DivertLate                            // ... its write failing after delivering it
    | DivertFail                            // barrier write failed, bWriteConn set all the same
    // migWrite on B: done, cut short, cut short leaving other bytes than reported,
    // into a reset connection, or after the end
    | RawOk(b: seq<byte>)
    | RawShort(b: seq<byte>, n: nat)
    | RawFail(b: seq<byte>, m: nat, n: nat)
    | RawVoid(b: seq<byte>, n: nat)
    | RawDead(b: seq<byte>)
    | Retire                                // bWriteHalfClosed
    | Shut                                  // CloseWrite or Close flushes and ends B
    | Lose(k: nat)                          // B resets: k in-flight bytes survive
    | SetCar(c: seq<byte>)                  // opening frame written, or stripped
    // recvLoop reads a frame of this stream
    | TakeData                              // and starts pipeW.Write, unless it is empty
    | TakeDrop                              // and finds the pipe closed
    | TakeBarrier
    | TakeNote
    | Hand(k: nat)                          // a Stream.Read takes k held bytes
    | Abandon                               // the pipe closes under recvLoop
    // carrierToPipe
    | Start
    | Fetch(k: nat, e: Ending)              // bc.Read, then pipeW.Write begins
    | FetchDrop(k: nat)                     // bc.Read, then the pipe is found closed
    | FetchEof                              // bc.Read returns 0, io.EOF
    | FetchErr                              // bc.Read returns 0 and another error
    | Feed(k: nat)                          // a Stream.Read takes k pumped bytes
    | Next                                  // pipeW.Write returned nil
    | Cancel                                // the pipe closes under carrierToPipe
    | MarkEof                               // bReadHalfClosed
    | CloseWriter                           // pipeW.Close
    | Stop                                  // returns after an error
    | ClosePipe                             // pipeR.Close

  // ----- kinds of moves ----------------------------------------------------------

  datatype Kind =
    | OnMux    // the sender on the mux
    | OnB      // the sender on B, and B's own mishaps
    | OffMux   // recvLoop and the pipe
    | OffB     // carrierToPipe

  function KindOf(mv: Move): (k: Kind) {
    match mv
    case PushOk(_, _) | PushFail(_, _, _) | PushDead(_) | NoteOk(_) | NoteLate(_) | BreakMux
       | DivertOk | DivertLate | DivertFail => OnMux
    case RawOk(_) | RawShort(_, _) | RawFail(_, _, _) | RawVoid(_, _) | RawDead(_)
       | Retire | Shut | Lose(_) | SetCar(_) => OnB
    case TakeData | TakeDrop | TakeBarrier | TakeNote | Hand(_) | Abandon | ClosePipe => OffMux
    case _ => OffB
  }

  predicate CanOnMux(d: Dir, mv: Move)
    requires KindOf(mv).OnMux?
  {
    match mv
    case PushOk(b, frames) => !d.tx.diverted && !d.mx.broken && Flatten(frames) == b
    case PushFail(b, frames, n) => !d.tx.diverted && !d.mx.broken && Flatten(frames) <= b && n <= |b|
    case PushDead(b) => !d.tx.diverted && d.mx.broken
    case NoteOk(item) => (item.Offer? || item.Fin?) && !d.mx.broken
    case NoteLate(item) => (item.Offer? || item.Fin?) && !d.mx.broken
    case BreakMux => true
    case DivertOk => !d.tx.diverted && !d.mx.broken
    case DivertLate => !d.tx.diverted && !d.mx.broken
    case DivertFail => !d.tx.diverted
    case _ => false
  }

  function DoOnMux(d: Dir, mv: Move): (d': Dir)
    requires KindOf(mv).OnMux? && CanOnMux(d, mv)
    ensures d'.cr == d.cr && d'.rx == d.rx && d.mx.barriers <= d'.mx.barriers
    ensures d.tx.diverted ==> d'.tx.diverted && d'.mx.barriers == d.mx.barriers
  {
    match mv
    case PushOk(b, frames) =>
      d.(tx := d.tx.(passed := d.tx.passed + b, accepted := d.tx.accepted + b),
         mx := d.mx.(items := d.mx.items + DataItems(frames)))
    case PushFail(b, frames, n) =>
      d.(tx := d.tx.(passed := d.tx.passed + b, accepted := d.tx.accepted + b[..n]),
         mx := d.mx.(items := d.mx.items + DataItems(frames), broken := true))
    case PushDead(b) => d.(tx := d.tx.(passed := d.tx.passed + b))
    case NoteOk(item) => d.(mx := d.mx.(items := d.mx.items + [item]))
    case NoteLate(item) => d.(mx := d.mx.(items := d.mx.items + [item], broken := true))
    case BreakMux => d.(mx := d.mx.(broken := true))
    case DivertOk =>
      d.(tx := d.tx.(diverted := true), mx := d.mx.(items := d.mx.items + [Barrier], barriers := d.mx.barriers + 1))
    case DivertLate =>
      d.(tx := d.tx.(diverted := true),
         mx := d.mx.(items := d.mx.items + [Barrier], barriers := d.mx.barriers + 1, broken := true))
    case DivertFail => d.(tx := d.tx.(diverted := true), mx := d.mx.(broken := true))
    case _ => d
  }

  predicate CanOnB(d: Dir, mv: Move)
    requires KindOf(mv).OnB?
  {
    match mv
    case RawOk(b) => d.tx.diverted && !d.cr.broken && !d.cr.fin && !d.cr.lost
    case RawShort(b, n) => d.tx.diverted && !d.cr.broken && !d.cr.fin && !d.cr.lost && n <= |b|
    case RawFail(b, m, n) => d.tx.diverted && !d.cr.broken && !d.cr.fin && !d.cr.lost && m <= |b| && n <= |b|
    case RawVoid(b, n) => d.tx.diverted && !d.cr.broken && !d.cr.fin && d.cr.lost && n <= |b|
    case RawDead(b) => d.tx.diverted && (d.cr.broken || d.cr.fin)
    case Retire => true
    case Shut => !d.cr.torn
    case Lose(k) => k <= |d.cr.car|
    case SetCar(_) => !d.tx.diverted
    case _ => false
  }

  function DoOnB(d: Dir, mv: Move): (d': Dir)
    requires KindOf(mv).OnB? && CanOnB(d, mv)
    ensures d'.mx == d.mx && d'.rx == d.rx && d'.tx.diverted == d.tx.diverted
  {
    match mv
    case RawOk(b) =>
      d.(tx := d.tx.(passed := d.tx.passed + b, accepted := d.tx.accepted + b), cr := d.cr.(car := d.cr.car + b))
    case RawShort(b, n) =>
      d.(tx := d.tx.(passed := d.tx.passed + b, accepted := d.tx.accepted + b[..n]),
         cr := d.cr.(car := d.cr.car + b[..n], broken := true))
    case RawFail(b, m, n) =>
      d.(tx := d.tx.(passed := d.tx.passed + b, accepted := d.tx.accepted + b[..n]),
         cr := d.cr.(car := d.cr.car + b[..m], broken := true, torn := true))
    case RawVoid(b, n) =>
      d.(tx := d.tx.(passed := d.tx.passed + b, accepted := d.tx.accepted + b[..n]), cr := d.cr.(broken := n < |b|))
    case RawDead(b) => d.(tx := d.tx.(passed := d.tx.passed + b))
    case Retire => d.(tx := d.tx.(whc := true))
    case Shut => d.(cr := d.cr.(fin := true))
    case Lose(k) => d.(cr := d.cr.(lost := true, car := d.cr.car[..k]))
    case SetCar(c) => d.(cr := d.cr.(car := c))
    case _ => d
  }

  predicate CanOffMux(d: Dir, mv: Move)
    requires KindOf(mv).OffMux?
  {
    match mv
    case TakeData =>
      && d.mx.items != [] && d.mx.items[0].Data? && d.rx.held == []
      && (d.mx.items[0].payload == [] || !d.rx.pipeDone)
    case TakeDrop =>
      d.mx.items != [] && d.mx.items[0].Data? && d.mx.items[0].payload != [] && d.rx.held == [] && d.rx.pipeDone
    case TakeBarrier => d.mx.items != [] && d.mx.items[0].Barrier? && d.rx.held == []
    case TakeNote => d.mx.items != [] && (d.mx.items[0].Offer? || d.mx.items[0].Fin?) && d.rx.held == []
    case Hand(k) => k <= |d.rx.held|
    case Abandon => d.rx.pipeDone && d.rx.held != []
    case ClosePipe => true
    case _ => false
  }

  function DoOffMux(d: Dir, mv: Move): (d': Dir)
    requires KindOf(mv).OffMux? && CanOffMux(d, mv)
    ensures d'.tx == d.tx && d'.cr == d.cr && d'.mx.barriers == d.mx.barriers && (d.rx.barTaken ==> d'.rx.barTaken)
    ensures d'.rx.pump == d.rx.pump && d'.rx.rhc == d.rx.rhc && (d.rx.dropped ==> d'.rx.dropped)
  {
    match mv
    case TakeData => d.(mx := d.mx.(items := d.mx.items[1..]), rx := d.rx.(held := d.mx.items[0].payload))
    case TakeDrop =>
      d.(mx := d.mx.(items := d.mx.items[1..]),
         rx := d.rx.(dropped := true, swallowed := d.rx.swallowed + |d.mx.items[0].payload|))
    case TakeBarrier => d.(mx := d.mx.(items := d.mx.items[1..]), rx := d.rx.(barTaken := true))
    case TakeNote => d.(mx := d.mx.(items := d.mx.items[1..]))
    case Hand(k) => d.(rx := d.rx.(consumed := d.rx.consumed + d.rx.held[..k], held := d.rx.held[k..]))
    case Abandon => d.(rx := d.rx.(held := [], dropped := true, swallowed := d.rx.swallowed + |d.rx.held|))
    case ClosePipe => d.(rx := d.rx.(pipeDone := true))
    case _ => d
  }

  predicate CanOffB(d: Dir, mv: Move)
    requires KindOf(mv).OffB?
  {
    match mv
    case Start => d.rx.pump.Off? && d.rx.barTaken
    case Fetch(k, e) =>
      && d.rx.pump.Reading? && 0 < k <= |d.cr.car| && !d.rx.pipeDone
      && (e.Eof? ==> k == |d.cr.car| && d.cr.fin && !d.cr.lost)
    case FetchDrop(k) => d.rx.pump.Reading? && 0 < k <= |d.cr.car| && d.rx.pipeDone
    case FetchEof => d.rx.pump.Reading? && d.cr.car == [] && d.cr.fin && !d.cr.lost
    case FetchErr => d.rx.pump.Reading?
    case Feed(k) => d.rx.pump.Handing? && k <= |d.rx.pumped|
    case Next => d.rx.pump.Handing? && d.rx.pumped == []
    case Cancel => d.rx.pump.Handing? && d.rx.pumped != [] && d.rx.pipeDone
    case MarkEof => d.rx.pump.AtEof?
    case CloseWriter => d.rx.pump.EofMarked?
    case Stop => d.rx.pump.AtError?
    case _ => false
  }

  function DoOffB(d: Dir, mv: Move): (d': Dir)
    requires KindOf(mv).OffB? && CanOffB(d, mv)
    ensures d'.tx == d.tx && d'.mx == d.mx && d'.rx.barTaken == d.rx.barTaken && d'.rx.held == d.rx.held
  {
    match mv
    case Start => d.(rx := d.rx.(pump := Reading))
    case Fetch(k, e) =>
      d.(cr := d.cr.(car := d.cr.car[k..]),
         rx := d.rx.(pump := Handing(e), pumped := d.cr.car[..k], eof := d.rx.eof || e.Eof?,
                     fetched := d.rx.fetched + d.cr.car[..k]))
    case FetchDrop(k) =>
      d.(cr := d.cr.(car := d.cr.car[k..]),
         rx := d.rx.(pump := AtError, dropped := true, swallowed := d.rx.swallowed + k,
                     fetched := d.rx.fetched + d.cr.car[..k]))
    case FetchEof => d.(rx := d.rx.(pump := AtEof, eof := true))
    case FetchErr => d.(rx := d.rx.(pump := AtError))
    case Feed(k) =>
      d.(rx := d.rx.(consumed := d.rx.consumed + d.rx.pumped[..k], pumped := d.rx.pumped[k..],
                     fed := d.rx.fed + d.rx.pumped[..k]))
    case Next =>
      d.(rx := d.rx.(pump := match d.rx.pump.outcome case More => Reading case Eof => AtEof case Broken => AtError))
    case Cancel =>
      d.(rx := d.rx.(pump := AtError, pumped := [], dropped := true, swallowed := d.rx.swallowed + |d.rx.pumped|))
    case MarkEof => d.(rx := d.rx.(pump := EofMarked, rhc := true))
    case CloseWriter => d.(rx := d.rx.(pump := Stopped, pipeDone := true))
    case Stop => d.(rx := d.rx.(pump := Stopped))
    case _ => d
  }

  /** Writing a barrier, and then setting bWriteConn whatever came of it. */
  function Diverting(how: Sending): (mv: Move) {
    match how case Sent => DivertOk case Unsent => DivertFail case SentLate => DivertLate
  }

  /** Writing another control frame. */
  function Noting(how: Sending, item: Item): (mv: Move) {
    match how case Sent => NoteOk(item) case Unsent => BreakMux case SentLate => NoteLate(item)
  }

  predicate Enabled(d: Dir, mv: Move) {
    match KindOf(mv)
    case OnMux => CanOnMux(d, mv)
    case OnB => CanOnB(d, mv)
    case OffMux => CanOffMux(d, mv)
    case OffB => CanOffB(d, mv)
  }

  function Do(d: Dir, mv: Move): Dir
    requires Enabled(d, mv)
  {
    match KindOf(mv)
    case OnMux => DoOnMux(d, mv)
    case OnB => DoOnB(d, mv)
    case OffMux => DoOffMux(d, mv)
    case OffB => DoOffB(d, mv)
  }

  /** Each kind of move leaves two of the four parts alone. */
  lemma Effects(d: Dir, mv: Move)
    requires Enabled(d, mv)
    ensures var d' := Do(d, mv);
            match KindOf(mv)
            case OnMux => d'.cr == d.cr && d'.rx == d.rx
            case OnB => d'.mx == d.mx && d'.rx == d.rx
            case OffMux => d'.tx == d.tx && d'.cr == d.cr
            case OffB => d'.tx == d.tx && d'.mx == d.mx
  {
    hide KindOf, CanOnMux, DoOnMux, CanOnB, DoOnB, CanOffMux, DoOffMux, CanOffB, DoOffB;
  }

  // ----- invariant ----------------------------------------------------------

  /** What has left the mux, or is still on it, in order. */
  function Stage(d: Dir): seq<byte> {
    d.rx.consumed + d.rx.held + d.rx.pumped + Payloads(d.mx.items)
  }

  /** The barrier discipline. */
  predicate Shape(d: Dir) {
    && Count(d.mx.items, Barrier) + (if d.rx.barTaken then 1 else 0) == d.mx.barriers <= 1
    && (!d.tx.diverted ==> d.mx.barriers == 0)
    && Sealed(d.mx.items)
    && (d.rx.barTaken ==> d.rx.held == [] && NoData(d.mx.items))
    && (!d.rx.pump.Off? ==> d.rx.barTaken)
    && (d.rx.pumped != [] ==> d.rx.pump.Handing?)
    && (d.rx.dropped ==> d.rx.pipeDone && d.rx.held == [] && d.rx.pumped == [])
    && (d.cr.fin ==> !d.cr.torn) && (d.cr.torn ==> d.cr.broken)
  }

  /** Exact bytes: nothing is duplicated or reordered, and until a transport
      fails or a closed pipe swallows a byte nothing is missing either. */
  predicate Flow(d: Dir) {
    && d.rx.consumed <= d.tx.passed
    && (!d.rx.dropped ==> Stage(d) <= d.tx.passed)
    && (!d.mx.broken && !d.tx.diverted ==>
          d.tx.accepted == d.tx.passed && (!d.rx.dropped ==> Stage(d) == d.tx.passed))
    && (d.mx.barriers == 1 && !d.cr.broken && !d.cr.lost && !d.cr.fin ==> d.tx.accepted == d.tx.passed)
    && (d.mx.barriers == 1 && !d.rx.dropped ==> Stage(d) + d.cr.car <= d.tx.passed)
    && (d.mx.barriers == 1 && !d.rx.dropped && !d.cr.torn && !d.cr.lost ==> Stage(d) + d.cr.car == d.tx.accepted)
  }

  /** A clean end of B closes the direction for good. */
  predicate Closing(d: Dir) {
    && (d.rx.eof ==> d.cr.fin && d.cr.car == [] && d.rx.barTaken && (!d.rx.dropped ==> Stage(d) == d.tx.accepted))
    && (d.rx.pump.AtEof? || d.rx.pump.EofMarked? || (d.rx.pump.Handing? && d.rx.pump.outcome.Eof?) || d.rx.rhc
        ==> d.rx.eof)
    && (d.rx.pump.EofMarked? ==> d.rx.rhc)
    && (d.rx.pump.AtEof? ==> !d.rx.rhc)
    && (d.rx.eof ==> !d.rx.pump.Reading? && !d.rx.pump.Off? && !(d.rx.pump.Handing? && !d.rx.pump.outcome.Eof?))
    && (d.rx.rhc ==> d.rx.pump.EofMarked? || d.rx.pump.Stopped?)
    && (d.rx.eof && d.rx.pump.AtEof? ==> d.rx.pumped == [])
  }

  /** How many bytes of the stream are on the mux or past it. */
  function Size(d: Dir): nat {
    |d.rx.consumed| + |d.rx.held| + |d.rx.pumped| + |Payloads(d.mx.items)|
  }

  /** The same balance in numbers, with what a closed pipe swallowed. */
  predicate Tally(d: Dir) {
    && (d.rx.dropped <==> d.rx.swallowed > 0)
    && (!d.mx.broken && !d.tx.diverted ==> Size(d) + d.rx.swallowed == |d.tx.accepted|)
    && (d.mx.barriers == 1 && !d.cr.torn && !d.cr.lost ==>
          Size(d) + |d.cr.car| + d.rx.swallowed == |d.tx.accepted|)
    && (d.rx.eof ==> Size(d) + d.rx.swallowed == |d.tx.accepted|)
  }

  predicate EndsWith(s: seq<byte>, t: seq<byte>) {
    |t| <= |s| && s[|s| - |t|..] == t
  }

  /** What carrierToPipe read off B it has handed on, but for the chunk in hand,
      and that is the last the readers got; it gives up only with an error, and a
      clean end has closed the pipe. */
  predicate Pumped(r: RxSide) {
    && EndsWith(r.consumed, r.fed)
    && (r.pump.AtError? || (r.pump.Stopped? && !r.rhc) || r.fetched == r.fed + r.pumped)
    && (r.fed != [] ==> r.barTaken)
    && (r.rhc && r.pump.Stopped? ==> r.pipeDone)
  }

  predicate Core(d: Dir) {
    Shape(d) && Flow(d) && Closing(d)
  }

  predicate DirInv(d: Dir) {
    Core(d) && Tally(d) && Pumped(d.rx)
  }

  // ----- every move keeps it --------------------------------------------------

  lemma MuxPlusData(m: seq<Item>, frames: seq<seq<byte>>)
    requires Sealed(m) && Count(m, Barrier) == 0
    ensures var m' := m + DataItems(frames);
            Sealed(m') && Count(m', Barrier) == 0 && Payloads(m') == Payloads(m) + Flatten(frames)
  {
    DataItemsContents(frames, Barrier);
    CountAppend(m, DataItems(frames), Barrier);
    SealedAppend(m, DataItems(frames));
    PayloadsAppend(m, DataItems(frames));
  }

  lemma MuxPlusNote(m: seq<Item>, item: Item)
    requires Sealed(m) && !item.Data?
    ensures var m' := m + [item];
            && Sealed(m') && (NoData(m) ==> NoData(m')) && Payloads(m') == Payloads(m)
            && Count(m', Barrier) == Count(m, Barrier) + (if item.Barrier? then 1 else 0)
  {
    var one := [item];
    assert one[1..] == [];
    assert Payloads(one[1..]) == [] && NoData(one[1..]) && Count(one[1..], Barrier) == 0;
    assert Payloads(one) == [];
    CountAppend(m, [item], Barrier);
    SealedAppend(m, [item]);
    PayloadsAppend(m, [item]);
  }

  lemma PushKeeps(d: Dir, mv: Move)
    requires Core(d) && Enabled(d, mv) && (mv.PushOk? || mv.PushFail?)
    ensures Core(Do(d, mv))
  {
    hide CanOnB, DoOnB, CanOffMux, DoOffMux, CanOffB, DoOffB;
    hide Sealed, NoData, Count, Payloads, Flatten;
    MuxPlusData(d.mx.items, mv.frames);
    assert Stage(Do(d, mv)) == Stage(d) + Flatten(mv.frames);
    hide Stage, DataItems;
    assert d.tx.passed <= d.tx.passed + mv.b && d.tx.passed + Flatten(mv.frames) <= d.tx.passed + mv.b;
  }

  lemma NoteKeeps(d: Dir, mv: Move)
    requires Core(d) && Enabled(d, mv) && (mv.NoteOk? || mv.NoteLate? || mv.DivertOk? || mv.DivertLate?)
    requires mv.DivertOk? || mv.DivertLate? ==> d.cr.car == []
    ensures Core(Do(d, mv))
  {
    hide CanOnB, DoOnB, CanOffMux, DoOffMux, CanOffB, DoOffB;
    MuxPlusNote(d.mx.items, if mv.NoteOk? || mv.NoteLate? then mv.item else Barrier);
    assert Stage(Do(d, mv)) == Stage(d);
  }

  lemma RawKeeps(d: Dir, mv: Move)
    requires Core(d) && Enabled(d, mv) && (mv.RawOk? || mv.RawShort? || mv.RawFail?)
    ensures Core(Do(d, mv))
  {
    hide CanOnMux, DoOnMux, CanOffMux, DoOffMux, CanOffB, DoOffB;
    var d' := Do(d, mv);
    var add := if mv.RawOk? then mv.b else if mv.RawShort? then mv.b[..mv.n] else mv.b[..mv.m];
    assert Stage(d') + d'.cr.car == (Stage(d) + d.cr.car) + add;
  }

  lemma MuxPop(m: seq<Item>)
    requires m != [] && Sealed(m)
    ensures Sealed(m[1..]) && (m[0].Barrier? || NoData(m) ==> NoData(m[1..]))
    ensures Payloads(m) == (if m[0].Data? then m[0].payload else []) + Payloads(m[1..])
    ensures Count(m, Barrier) == (if m[0].Barrier? then 1 else 0) + Count(m[1..], Barrier)
    ensures m[0].Data? ==> !NoData(m)
  {
    if m[0].Barrier? {
      SealedAlone(m[1..]);
    }
  }

  // What each move does to the concatenation in `Stage`, on sequences alone.

  lemma TakeMoves(c: seq<byte>, h: seq<byte>, p: seq<byte>, payload: seq<byte>, tail: seq<byte>)
    requires h == [] && p == []
    ensures c + payload + p + tail == c + h + p + (payload + tail)
  {
  }

  lemma HandMoves(c: seq<byte>, h: seq<byte>, k: nat, p: seq<byte>, tail: seq<byte>)
    requires k <= |h|
    ensures (c + h[..k]) + h[k..] + p + tail == c + h + p + tail
    ensures c + h[..k] <= c + h + p + tail
  {
    assert (c + h[..k]) + h[k..] == c + h;
    assert c + h[..k] <= c + h;
    assert c + h <= c + h + p + tail;
  }

  lemma FeedMoves(c: seq<byte>, h: seq<byte>, p: seq<byte>, k: nat, tail: seq<byte>)
    requires k <= |p| && h == []
    ensures (c + p[..k]) + h + p[k..] + tail == c + h + p + tail
    ensures c + p[..k] <= c + h + p + tail
  {
    assert (c + p[..k]) + h + p[k..] == c + h + p;
    assert c + p[..k] <= c + h + p;
  }

  lemma TakeKeeps(d: Dir, mv: Move)
    requires Core(d) && Enabled(d, mv) && (mv.TakeBarrier? || mv.TakeNote?)
    ensures Core(Do(d, mv))
  {
    hide CanOnMux, DoOnMux, CanOnB, DoOnB, CanOffB, DoOffB;
    MuxPop(d.mx.items);
    assert [] + Payloads(d.mx.items[1..]) == Payloads(d.mx.items[1..]);
  }

  lemma TakeDropKeeps(d: Dir)
    requires Core(d) && Enabled(d, TakeDrop)
    ensures Core(Do(d, TakeDrop))
  {
    hide CanOnMux, DoOnMux, CanOnB, DoOnB, CanOffB, DoOffB;
    MuxPop(d.mx.items);
  }

  lemma TakeDataKeeps(d: Dir)
    requires Core(d) && Enabled(d, TakeData)
    ensures Core(Do(d, TakeData))
  {
    hide CanOnMux, DoOnMux, CanOnB, DoOnB, CanOffB, DoOffB;
    MuxPop(d.mx.items);
    TakeMoves(d.rx.consumed, d.rx.held, d.rx.pumped, d.mx.items[0].payload, Payloads(d.mx.items[1..]));
  }

  lemma HandStage(d: Dir, k: nat)
    requires k <= |d.rx.held|
    ensures var d' := d.(rx := d.rx.(consumed := d.rx.consumed + d.rx.held[..k], held := d.rx.held[k..]));
            Stage(d') == Stage(d) && d'.rx.consumed <= Stage(d)
  {
    HandMoves(d.rx.consumed, d.rx.held, k, d.rx.pumped, Payloads(d.mx.items));
  }

  lemma FeedStage(d: Dir, k: nat)
    requires k <= |d.rx.pumped| && d.rx.held == []
    ensures var d' := d.(rx := d.rx.(consumed := d.rx.consumed + d.rx.pumped[..k], pumped := d.rx.pumped[k..],
                                     fed := d.rx.fed + d.rx.pumped[..k]));
            Stage(d') == Stage(d) && d'.rx.consumed <= Stage(d)
  {
    FeedMoves(d.rx.consumed, d.rx.held, d.rx.pumped, k, Payloads(d.mx.items));
  }

  lemma HandKeeps(d: Dir, k: nat)
    requires Core(d) && Enabled(d, Hand(k))
    ensures Core(Do(d, Hand(k)))
  {
    hide CanOnMux, DoOnMux, CanOnB, DoOnB, CanOffB, DoOffB;
    hide Stage, Sealed, NoData, Count;
    HandStage(d, k);
  }

  lemma FeedKeeps(d: Dir, k: nat)
    requires Core(d) && Enabled(d, Feed(k))
    ensures Core(Do(d, Feed(k)))
  {
    hide CanOnMux, DoOnMux, CanOnB, DoOnB, CanOffMux, DoOffMux;
    hide Stage, Sealed, NoData, Count;
    FeedStage(d, k);
  }

  lemma FetchKeeps(d: Dir, k: nat, e: Ending)
    requires Core(d) && Enabled(d, Fetch(k, e))
    ensures Core(Do(d, Fetch(k, e)))
  {
    hide CanOnMux, DoOnMux, CanOnB, DoOnB, CanOffMux, DoOffMux;
    var d' := Do(d, Fetch(k, e));
    NoDataNoPayload(d.mx.items);
    assert d.cr.car == d.cr.car[..k] + d.cr.car[k..];
    assert Stage(d') + d'.cr.car == Stage(d) + d.cr.car;
  }

  lemma LoseKeeps(d: Dir, k: nat)
    requires Core(d) && Enabled(d, Lose(k))
    ensures Core(Do(d, Lose(k)))
  {
    hide CanOnMux, DoOnMux, CanOffMux, DoOffMux, CanOffB, DoOffB;
    assert Stage(d) + d.cr.car[..k] <= Stage(d) + d.cr.car;
  }

  lemma QuietSendKeeps(d: Dir, mv: Move)
    requires Core(d) && Enabled(d, mv)
    requires mv.PushDead? || mv.BreakMux? || mv.DivertFail? || mv.RawVoid? || mv.RawDead?
    ensures Core(Do(d, mv))
  {
    hide Sealed, NoData, Count, Payloads;
    match mv
    case PushDead(b) => assert d.tx.passed <= d.tx.passed + b;
    case BreakMux =>
    case DivertFail =>
    case RawVoid(b, _) => assert d.tx.passed <= d.tx.passed + b;
    case RawDead(b) => assert d.tx.passed <= d.tx.passed + b;
  }

  lemma QuietKeeps(d: Dir, mv: Move)
    requires Core(d) && Enabled(d, mv)
    requires mv.Shut? || mv.Retire? || mv.SetCar? || mv.Abandon? || mv.ClosePipe?
    ensures Core(Do(d, mv))
  {
    hide Sealed, NoData, Count, Payloads;
    match mv
    case Shut =>
    case Retire =>
    case SetCar(_) =>
    case Abandon =>
    case ClosePipe =>
  }

  lemma FetchEndKeeps(d: Dir, mv: Move)
    requires Core(d) && Enabled(d, mv) && (mv.FetchDrop? || mv.FetchEof? || mv.FetchErr? || mv.Cancel?)
    ensures Core(Do(d, mv))
  {
    hide CanOnMux, DoOnMux, CanOnB, DoOnB, CanOffMux, DoOffMux;
    hide Sealed, NoData, Count, Payloads;
    match mv
    case FetchDrop(_) =>
    case FetchEof =>
    case FetchErr =>
    case Cancel =>
  }

  /** Moves of carrierToPipe that touch no byte. */
  lemma PumpKeeps(d: Dir, mv: Move)
    requires Core(d) && Enabled(d, mv) && (mv.Start? || mv.Next?)
    ensures Core(Do(d, mv))
  {
    hide CanOnMux, DoOnMux, CanOnB, DoOnB, CanOffMux, DoOffMux;
    assert Stage(Do(d, mv)) == Stage(d);
    hide Sealed, NoData, Count, Payloads, Stage;
    match mv
    case Start =>
    case Next =>
  }

  lemma PumpEndKeeps(d: Dir, mv: Move)
    requires Core(d) && Enabled(d, mv) && (mv.MarkEof? || mv.CloseWriter? || mv.Stop?)
    ensures Core(Do(d, mv))
  {
    hide CanOnMux, DoOnMux, CanOnB, DoOnB, CanOffMux, DoOffMux;
    assert Stage(Do(d, mv)) == Stage(d);
    hide Sealed, NoData, Count, Payloads, Stage;
    match mv
    case MarkEof =>
    case CloseWriter =>
    case Stop =>
  }

  lemma OnMuxKeeps(d: Dir, mv: Move)
    requires Core(d) && Enabled(d, mv) && KindOf(mv).OnMux?
    requires mv.DivertOk? || mv.DivertLate? || mv.DivertFail? ==> d.cr.car == []
    ensures Core(Do(d, mv))
  {
    hide Core, Enabled, Do;
    match mv
    case PushOk(_, _) => PushKeeps(d, mv);
    case PushFail(_, _, _) => PushKeeps(d, mv);
    case PushDead(_) => QuietSendKeeps(d, mv);
    case NoteOk(_) => NoteKeeps(d, mv);
    case NoteLate(_) => NoteKeeps(d, mv);
    case BreakMux => QuietSendKeeps(d, mv);
    case DivertOk => NoteKeeps(d, mv);
    case DivertLate => NoteKeeps(d, mv);
    case DivertFail => QuietSendKeeps(d, mv);
  }

  lemma OnBKeeps(d: Dir, mv: Move)
    requires Core(d) && Enabled(d, mv) && KindOf(mv).OnB?
    ensures Core(Do(d, mv))
  {
    hide Core, Enabled, Do;
    match mv
    case RawOk(_) => RawKeeps(d, mv);
    case RawShort(_, _) => RawKeeps(d, mv);
    case RawFail(_, _, _) => RawKeeps(d, mv);
    case RawVoid(_, _) => QuietSendKeeps(d, mv);
    case RawDead(_) => QuietSendKeeps(d, mv);
    case Retire => QuietKeeps(d, mv);
    case Shut => QuietKeeps(d, mv);
    case Lose(k) => LoseKeeps(d, k);
    case SetCar(_) => QuietKeeps(d, mv);
  }

  lemma OffMuxKeeps(d: Dir, mv: Move)
    requires Core(d) && Enabled(d, mv) && KindOf(mv).OffMux?
    ensures Core(Do(d, mv))
  {
    hide Core, Enabled, Do;
    match mv
    case TakeData => TakeDataKeeps(d);
    case TakeDrop => TakeDropKeeps(d);
    case TakeBarrier => TakeKeeps(d, mv);
    case TakeNote => TakeKeeps(d, mv);
    case Hand(k) => HandKeeps(d, k);
    case Abandon => QuietKeeps(d, mv);
    case ClosePipe => QuietKeeps(d, mv);
  }

  lemma OffBKeeps(d: Dir, mv: Move)
    requires Core(d) && Enabled(d, mv) && KindOf(mv).OffB?
    ensures Core(Do(d, mv))
  {
    hide Core, Enabled, Do;
    match mv
    case Start => PumpKeeps(d, mv);
    case Fetch(k, e) => FetchKeeps(d, k, e);
    case FetchDrop(_) => FetchEndKeeps(d, mv);
    case FetchEof => FetchEndKeeps(d, mv);
    case FetchErr => FetchEndKeeps(d, mv);
    case Feed(k) => FeedKeeps(d, k);
    case Next => PumpKeeps(d, mv);
    case Cancel => FetchEndKeeps(d, mv);
    case MarkEof => PumpEndKeeps(d, mv);
    case CloseWriter => PumpEndKeeps(d, mv);
    case Stop => PumpEndKeeps(d, mv);
  }

  lemma CoreKeeps(d: Dir, mv: Move)
    requires Core(d) && Enabled(d, mv)
    requires mv.DivertOk? || mv.DivertLate? || mv.DivertFail? ==> d.cr.car == []
    ensures Core(Do(d, mv))
  {
    hide Core, Enabled, Do;
    if KindOf(mv).OnMux? {
      OnMuxKeeps(d, mv);
    } else if KindOf(mv).OnB? {
      OnBKeeps(d, mv);
    } else if KindOf(mv).OffMux? {
      OffMuxKeeps(d, mv);
    } else {
      OffBKeeps(d, mv);
    }
  }

  // ----- the balance in numbers ---------------------------------------------------

  lemma PushSize(m: seq<Item>, frames: seq<seq<byte>>)
    ensures |Payloads(m + DataItems(frames))| == |Payloads(m)| + |Flatten(frames)|
  {
    DataItemsContents(frames, Barrier);
    PayloadsAppend(m, DataItems(frames));
  }

  lemma NoteSize(m: seq<Item>, item: Item)
    requires !item.Data?
    ensures |Payloads(m + [item])| == |Payloads(m)|
  {
    assert [item][1..] == [];
    PayloadsAppend(m, [item]);
  }

  lemma PopSize(m: seq<Item>)
    requires m != []
    ensures |Payloads(m[1..])| == |Payloads(m)| - if m[0].Data? then |m[0].payload| else 0
  {
  }

  lemma OnMuxTally(d: Dir, mv: Move)
    requires Core(d) && Tally(d) && Enabled(d, mv) && KindOf(mv).OnMux?
    requires mv.DivertOk? || mv.DivertLate? || mv.DivertFail? ==> d.cr.car == []
    ensures Tally(Do(d, mv))
  {
    hide CanOnB, DoOnB, CanOffMux, DoOffMux, CanOffB, DoOffB;
    hide Stage, Payloads, Sealed, NoData, Count, Flow, Flatten, DataItems;
    match mv
    case PushOk(_, frames) => PushSize(d.mx.items, frames);
    case PushFail(_, frames, _) => PushSize(d.mx.items, frames);
    case PushDead(_) =>
    case NoteOk(item) => NoteSize(d.mx.items, item);
    case NoteLate(item) => NoteSize(d.mx.items, item);
    case BreakMux =>
    case DivertOk => NoteSize(d.mx.items, Barrier);
    case DivertLate => NoteSize(d.mx.items, Barrier);
    case DivertFail =>
  }

  lemma OnBTally(d: Dir, mv: Move)
    requires Core(d) && Tally(d) && Enabled(d, mv) && KindOf(mv).OnB?
    ensures Tally(Do(d, mv))
  {
    hide CanOnMux, DoOnMux, CanOffMux, DoOffMux, CanOffB, DoOffB;
    Effects(d, mv);
    assert Size(Do(d, mv)) == Size(d);
    hide Size, Payloads, Sealed, NoData, Count, Flow;
    match mv
    case RawOk(_) =>
    case RawShort(_, _) =>
    case RawFail(_, _, _) =>
    case RawVoid(_, _) =>
    case RawDead(_) =>
    case Retire =>
    case Shut =>
    case Lose(_) =>
    case SetCar(_) =>
  }

  lemma OffMuxTally(d: Dir, mv: Move)
    requires Core(d) && Tally(d) && Enabled(d, mv) && KindOf(mv).OffMux?
    ensures Tally(Do(d, mv))
  {
    hide CanOnMux, DoOnMux, CanOnB, DoOnB, CanOffB, DoOffB;
    hide Stage, Payloads, Sealed, NoData, Count, Flow;
    match mv
    case TakeData => PopSize(d.mx.items);
    case TakeDrop => PopSize(d.mx.items);
    case TakeBarrier => PopSize(d.mx.items);
    case TakeNote => PopSize(d.mx.items);
    case Hand(_) =>
    case Abandon =>
    case ClosePipe =>
  }

  lemma OffBTally(d: Dir, mv: Move)
    requires Core(d) && Tally(d) && Enabled(d, mv) && KindOf(mv).OffB?
    ensures Tally(Do(d, mv))
  {
    hide CanOnMux, DoOnMux, CanOnB, DoOnB, CanOffMux, DoOffMux;
    hide Stage, Payloads, Sealed, NoData, Count, Flow;
    match mv
    case Start =>
    case Fetch(_, _) =>
    case FetchDrop(_) =>
    case FetchEof =>
    case FetchErr =>
    case Feed(_) =>
    case Next =>
    case Cancel =>
    case MarkEof =>
    case CloseWriter =>
    case Stop =>
  }

  lemma TallyKeeps(d: Dir, mv: Move)
    requires Core(d) && Tally(d) && Enabled(d, mv)
    requires mv.DivertOk? || mv.DivertLate? || mv.DivertFail? ==> d.cr.car == []
    ensures Tally(Do(d, mv))
  {
    hide Core, Tally, Enabled, Do;
    if KindOf(mv).OnMux? {
      OnMuxTally(d, mv);
    } else if KindOf(mv).OnB? {
      OnBTally(d, mv);
    } else if KindOf(mv).OffMux? {
      OffMuxTally(d, mv);
    } else {
      OffBTally(d, mv);
    }
  }

  lemma OffMuxPumped(d: Dir, mv: Move)
    requires Core(d) && Pumped(d.rx) && Enabled(d, mv) && KindOf(mv).OffMux?
    ensures Pumped(Do(d, mv).rx)
  {
    hide CanOnMux, DoOnMux, CanOnB, DoOnB, CanOffB, DoOffB;
    hide Core, EndsWith;
    match mv
    case TakeData =>
    case TakeDrop =>
    case TakeBarrier =>
    case TakeNote =>
    case Hand(k) => HandPumped(d, k);
    case Abandon =>
    case ClosePipe =>
  }

  lemma OffBPumped(d: Dir, mv: Move)
    requires Core(d) && Pumped(d.rx) && Enabled(d, mv) && KindOf(mv).OffB?
    ensures Pumped(Do(d, mv).rx)
  {
    hide Core, Pumped, Enabled, Do;
    if mv.Fetch? {
      FetchPumped(d, mv.k, mv.e);
    } else if mv.Feed? {
      FeedPumped(d, mv.k);
    } else {
      OtherPumped(d, mv);
    }
  }

  lemma OtherPumped(d: Dir, mv: Move)
    requires Core(d) && Pumped(d.rx) && Enabled(d, mv) && KindOf(mv).OffB? && !mv.Fetch? && !mv.Feed?
    ensures Pumped(Do(d, mv).rx)
  {
    hide CanOnMux, DoOnMux, CanOnB, DoOnB, CanOffMux, DoOffMux;
    hide Flow, EndsWith, Payloads, Sealed, NoData, Count, Stage;
    match mv
    case Start =>
    case FetchDrop(_) =>
    case FetchEof =>
    case FetchErr =>
    case Next =>
    case Cancel =>
    case MarkEof =>
    case CloseWriter =>
    case Stop =>
  }

  lemma FetchPumped(d: Dir, k: nat, e: Ending)
    requires Core(d) && Pumped(d.rx) && Enabled(d, Fetch(k, e))
    ensures Pumped(Do(d, Fetch(k, e)).rx)
  {
    hide CanOnMux, DoOnMux, CanOnB, DoOnB, CanOffMux, DoOffMux;
    hide Flow, EndsWith, Payloads, Sealed, NoData, Count, Closing, Stage;
    assert d.rx.pumped == [] && d.rx.fed + [] == d.rx.fed;
  }

  lemma PumpedKeeps(d: Dir, mv: Move)
    requires Core(d) && Pumped(d.rx) && Enabled(d, mv)
    ensures Pumped(Do(d, mv).rx)
  {
    hide Core, Pumped, Enabled, Do;
    Effects(d, mv);
    if KindOf(mv).OffMux? {
      OffMuxPumped(d, mv);
    } else if KindOf(mv).OffB? {
      OffBPumped(d, mv);
    }
  }

  lemma HandPumped(d: Dir, k: nat)
    requires Core(d) && Pumped(d.rx) && k <= |d.rx.held|
    ensures EndsWith(d.rx.consumed + d.rx.held[..k], d.rx.fed)
  {
    hide Flow, Closing, Payloads, Sealed, NoData, Count;
    if d.rx.fed != [] {
      assert d.rx.consumed + d.rx.held[..k] == d.rx.consumed;
    }
  }

  lemma FeedPumped(d: Dir, k: nat)
    requires Core(d) && Pumped(d.rx) && Enabled(d, Feed(k))
    ensures Pumped(Do(d, Feed(k)).rx)
  {
    hide CanOnMux, DoOnMux, CanOnB, DoOnB, CanOffMux, DoOffMux;
    hide Flow, Closing, Payloads, Sealed, NoData, Count;
    var x := d.rx.pumped[..k];
    var c := d.rx.consumed + x;
    assert d.rx.fetched == d.rx.fed + x + d.rx.pumped[k..];
    assert c[|c| - |d.rx.fed + x|..] == d.rx.consumed[|d.rx.consumed| - |d.rx.fed|..] + x;
  }

  /** The invariant is inductive. Diverting is the one move that needs to know
      something more: B carries nothing yet in this direction. */
  lemma MoveKeeps(d: Dir, mv: Move)
    requires DirInv(d) && Enabled(d, mv)
    requires mv.DivertOk? || mv.DivertLate? || mv.DivertFail? ==> d.cr.car == []
    ensures DirInv(Do(d, mv))
  {
    hide Core, Tally, Pumped, Enabled, Do;
    CoreKeeps(d, mv);
    TallyKeeps(d, mv);
    PumpedKeeps(d, mv);
  }

  /** After a clean end of B the receiver's readers hold every byte the sender's
      writes reported if and only if none met a closed pipe; and in either case
      every byte that was read off B has been handed on. */
  lemma EofMeansComplete(d: Dir)
    requires DirInv(d) && d.rx.rhc
    ensures d.rx.consumed == d.tx.accepted <==> !d.rx.dropped
    ensures d.cr.car == [] && d.cr.fin && d.rx.fetched == d.rx.fed && EndsWith(d.rx.consumed, d.rx.fed)
  {
    NoDataNoPayload(d.mx.items);
    assert Stage(d) == d.rx.consumed;
    assert d.rx.fed + [] == d.rx.fed;
  }
}
