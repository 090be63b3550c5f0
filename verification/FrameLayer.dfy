/** The session's write side: frames chunked, split, buffered, flushed and padded
    onto one connection, and what the peer's receive loop makes of the bytes. */
module FrameLayer {
  import opened Frames

  // ----- what the peer hears of a prefix of the wire ------------------------------

  function NoWaste(fs: seq<Frame>): (r: seq<Frame>) {
    if fs == [] then [] else NoWaste(fs[..|fs| - 1]) + if fs[|fs| - 1].cmd == CMD_WASTE then [] else [fs[|fs| - 1]]
  }

  lemma NoWasteSnoc(fs: seq<Frame>, f: Frame)
    ensures NoWaste(fs + [f]) == NoWaste(fs) + if f.cmd == CMD_WASTE then [] else [f]
  {
    assert (fs + [f])[..|fs|] == fs;
  }

  lemma {:induction false} NoWasteAppend(a: seq<Frame>, b: seq<Frame>)
    ensures NoWaste(a + b) == NoWaste(a) + NoWaste(b)
  {
    if b == [] {
      assert a + b == a;
    } else {
      hide NoWaste;
      var n := |b| - 1;
      NoWasteAppend(a, b[..n]);
      NoWasteSnoc(b[..n], b[n]);
      NoWasteSnoc(a + b[..n], b[n]);
      LastApart(a, b);
      Assoc(NoWaste(a), NoWaste(b[..n]), if b[n].cmd == CMD_WASTE then [] else [b[n]]);
    }
  }

  lemma NoWasteCons(f: Frame, fs: seq<Frame>)
    ensures NoWaste([f] + fs) == (if f.cmd == CMD_WASTE then [] else [f]) + NoWaste(fs)
  {
    assert NoWaste([f]) == NoWaste([f][..0]) + if f.cmd == CMD_WASTE then [] else [f];
    assert NoWaste([f][..0]) == [];
    hide NoWaste;
    NoWasteAppend([f], fs);
  }

  lemma HeardCons(f: Frame, fs: seq<Frame>)
    ensures Heard([f] + fs) == if Refused(f.cmd, |f.data|) then [] else if Final(f) then [f] else [f] + Heard(fs)
  {
    assert ([f] + fs)[1..] == fs;
  }

  lemma HeardIgnoresWasteStep(f: Frame, fs: seq<Frame>)
    requires NoWaste(Heard(fs)) == Heard(NoWaste(fs))
    ensures NoWaste(Heard([f] + fs)) == Heard(NoWaste([f] + fs))
  {
    assert NoWaste([]) == [];
    HeardCons(f, fs);
    HeardCons(f, NoWaste(fs));
    NoWasteCons(f, fs);
    NoWasteCons(f, Heard(fs));
    NoWasteCons(f, []);
    hide Heard, NoWaste;
    assert [f] + [] == [f];
    assert forall s: seq<Frame> :: [] + s == s;
  }

  /** Padding is neither refused nor final, so it never changes how far the peer
      gets through the real frames. */
  lemma {:induction false} HeardIgnoresWaste(fs: seq<Frame>)
    ensures NoWaste(Heard(fs)) == Heard(NoWaste(fs))
  {
    if fs != [] {
      HeardIgnoresWaste(fs[1..]);
      hide Heard, NoWaste;
      HeardIgnoresWasteStep(fs[0], fs[1..]);
      assert fs == [fs[0]] + fs[1..];
    }
  }

  lemma {:induction false} HeardPrefix(a: seq<Frame>, b: seq<Frame>)
    requires a <= b
    ensures Heard(a) <= Heard(b)
  {
    if a != [] {
      HeardPrefix(a[1..], b[1..]);
    }
  }

  lemma NoWastePrefix(a: seq<Frame>, b: seq<Frame>)
    requires a <= b
    ensures NoWaste(a) <= NoWaste(b)
  {
    NoWasteAppend(a, b[|a|..]);
    assert b == a + b[|a|..];
  }

  lemma BeyondFirst(w: seq<byte>, e: seq<byte>, rest: seq<byte>)
    requires e + rest <= w
    ensures w == e + w[|e|..] && rest <= w[|e|..]
  {
    assert w[..|e|] == w[..|e + rest|][..|e|] == e;
    assert w[|e|..][..|rest|] == w[..|e + rest|][|e|..] == rest;
  }

  /** Every frame that arrived whole is handled, in order ... */
  lemma {:induction false} ReceiveAtLeast(fs: seq<Frame>, w: seq<byte>)
    requires AllSendable(fs) && AllFit(fs) && EncodeAll(fs) <= w
    ensures Heard(fs) <= Receive(w)
  {
    if fs != [] {
      assert fs[0] in fs;
      var e := Encode(fs[0]);
      BeyondFirst(w, e, EncodeAll(fs[1..]));
      ReceiveOne(fs[0], w[|e|..]);
      hide Receive, Encode, EncodeAll;
      ReceiveAtLeast(fs[1..], w[|e|..]);
    }
  }

  lemma PrefixOfTwo(w: seq<byte>, e: seq<byte>, rest: seq<byte>)
    requires w <= e + rest
    ensures if |w| < |e| then w < e else w == e + w[|e|..] && w[|e|..] <= rest
  {
    if |w| < |e| {
      assert w == (e + rest)[..|w|] == e[..|w|];
    } else {
      assert w[..|e|] == (e + rest)[..|e|] == e;
      assert w[|e|..] == (e + rest)[..|w|][|e|..] == rest[..|w| - |e|];
    }
  }

  /** ... and nothing but the frames that were sent is. */
  lemma {:induction false} ReceiveAtMost(fs: seq<Frame>, w: seq<byte>)
    requires AllSendable(fs) && AllFit(fs) && w <= EncodeAll(fs)
    ensures Receive(w) <= Heard(fs)
  {
    if fs != [] {
      assert fs[0] in fs;
      var e := Encode(fs[0]);
      PrefixOfTwo(w, e, EncodeAll(fs[1..]));
      if |w| < |e| {
        TornIsSilent(fs[0], w);
      } else {
        ReceiveOne(fs[0], w[|e|..]);
        hide Receive, Encode, EncodeAll;
        ReceiveAtMost(fs[1..], w[|e|..]);
      }
    }
  }

  // ----- the write side as a state machine -------------------------------------------

  /** How one Write on the connection ends: all bytes taken, or an error after n. */
  datatype Fault = Clean | Short(n: nat)

  datatype Out = Out(
    wire: seq<byte>,          // bytes the connection has taken
    dead: bool,               // a Write on it has failed
    closed: bool,
    buffering: bool,
    buffered: seq<Frame>,     // the frames in s.buffer
    whole: seq<Frame>,        // everything written successfully, padding included
    log: seq<Frame>,          // that, and the batch of the Write that failed
    accepted: seq<Frame>,     // handed to writeConn, which reported success
    dropped: seq<Frame>,      // accepted into the buffer and lost by a failed flush
    submitted: seq<Frame>)    // handed to writeConn of the open session

  function Init(buffering: bool): (o: Out) {
    Out([], false, false, buffering, [], [], [], [], [], [])
  }

  predicate IsWaste(f: Frame) {
    f.cmd == CMD_WASTE && Fits(f)
  }

  datatype Op =
    | Send(f: Frame, pad: seq<Frame>, fault: Fault)   // writeConn, with what the shaper appends
    | EndBuffering
    | Inject(pad: seq<Frame>, fault: Fault)           // window-update and idle records
    | Close(pad: seq<Frame>, fault: Fault)            // with or without the goodbye record

  predicate Can(op: Op) {
    match op
    case Send(f, pad, _) => Sendable(f) && forall p :: p in pad ==> IsWaste(p)
    case EndBuffering => true
    case Inject(pad, _) => forall p :: p in pad ==> IsWaste(p)
    case Close(pad, _) => forall p :: p in pad ==> IsWaste(p)
  }

  /** One Write of whole frames on the connection. */
  function Put(o: Out, batch: seq<Frame>, fault: Fault): (r: Out)
    requires AllFit(batch)
  {
    if o.dead then o
    else
      var b := EncodeAll(batch);
      match fault
      case Clean => o.(wire := o.wire + b, whole := o.whole + batch, log := o.log + batch)
      case Short(n) => o.(wire := o.wire + (if n < |b| then b[..n] else b), log := o.log + batch, dead := true)
  }

  function SendOn(o: Out, f: Frame, pad: seq<Frame>, fault: Fault): (r: Out)
    requires AllFit(o.buffered + [f] + pad)
  {
    var r := Put(o, o.buffered + [f] + pad, fault);
    if o.dead || fault.Short?
    then r.(buffered := [], submitted := o.submitted + [f], dropped := o.dropped + o.buffered)
    else r.(buffered := [], submitted := o.submitted + [f], accepted := o.accepted + [f])
  }

  function Apply(o: Out, op: Op): (r: Out)
    requires Can(op) && AllSendable(o.buffered)
  {
    match op
    case Send(f, pad, fault) =>
      if o.closed then o
      else if o.buffering then
        o.(buffered := o.buffered + [f], accepted := o.accepted + [f], submitted := o.submitted + [f])
      else SendOn(o, f, pad, fault)
    case EndBuffering => o.(buffering := false)
    case Inject(pad, fault) => if o.closed then o else Put(o, pad, fault)
    case Close(pad, fault) => if o.closed then o else Put(o, pad, fault).(closed := true)
  }

  /** The bytes on the wire are frames: every successful Write whole, and at
      most a part of the batch of the one that failed. */
  ghost predicate Wired(o: Out) {
    && AllSendable(o.log) && o.whole <= o.log
    && AllFit(o.log) && AllFit(o.whole) && EncodeAll(o.whole) <= o.wire <= EncodeAll(o.log)
    && (!o.dead ==> o.whole == o.log)
  }

  /** No frame is lost or moved: what was accepted is on the wire, in order, or
      still buffered behind it, or was lost by the flush that failed. */
  ghost predicate Booked(o: Out) {
    && (!o.dead ==> o.dropped == [] && NoWaste(o.submitted) == NoWaste(o.accepted))
    && NoWaste(o.accepted) == NoWaste(o.whole) + NoWaste(o.dropped) + NoWaste(o.buffered)
    && NoWaste(o.log) <= NoWaste(o.submitted)
  }

  ghost predicate Sound(o: Out) {
    Wired(o) && Booked(o) && AllSendable(o.buffered)
  }

  lemma PutKeepsWire(o: Out, batch: seq<Frame>, fault: Fault)
    requires Wired(o) && AllSendable(batch)
    ensures AllFit(batch) && Wired(Put(o, batch, fault))
  {
    SendableAppend(o.log, batch);
    hide Wired, EncodeAll;
    if o.dead {
    } else if fault.Clean? {
      CleanKeepsWire(o, batch);
    } else {
      ShortKeepsWire(o, batch, fault);
    }
  }

  lemma CleanKeepsWire(o: Out, batch: seq<Frame>)
    requires Wired(o) && AllSendable(batch) && !o.dead
    ensures AllFit(batch) && Wired(Put(o, batch, Clean))
  {
    SendableAppend(o.log, batch);
    EncodeAllAppend(o.log, batch);
    hide EncodeAll, AllSendable, AllFit;
  }

  lemma ShortKeepsWire(o: Out, batch: seq<Frame>, fault: Fault)
    requires Wired(o) && AllSendable(batch) && !o.dead && fault.Short?
    ensures AllFit(batch) && Wired(Put(o, batch, fault))
  {
    EncodeAllAppend(o.log, batch);
    SendableAppend(o.log, batch);
    var b := EncodeAll(batch);
    hide EncodeAll, AllSendable, AllFit;
    TakePrefix(o.wire, b, fault.n);
  }

  lemma SendableAppend(a: seq<Frame>, b: seq<Frame>)
    requires AllSendable(a) && AllSendable(b)
    ensures AllSendable(a + b) && AllFit(b)
  {
  }

  lemma TakePrefix(w: seq<byte>, b: seq<byte>, n: nat)
    ensures w <= w + (if n < |b| then b[..n] else b) <= w + b
  {
    if n < |b| {
      assert b == b[..n] + b[n..];
      assert w + b == w + b[..n] + b[n..];
    }
  }

  lemma {:induction false} NoWasteOfWaste(pad: seq<Frame>)
    requires forall p :: p in pad ==> IsWaste(p)
    ensures NoWaste(pad) == []
  {
    if pad != [] {
      assert IsWaste(pad[|pad| - 1]);
      NoWasteOfWaste(pad[..|pad| - 1]);
    }
  }

  lemma PutWasteKeepsBooks(o: Out, pad: seq<Frame>, fault: Fault)
    requires AllFit(pad) && Booked(o) && (!o.dead ==> o.whole == o.log) && forall p :: p in pad ==> IsWaste(p)
    ensures Booked(Put(o, pad, fault))
  {
    NoWasteOfWaste(pad);
    NoWasteAppend(o.log, pad);
    NoWasteAppend(o.whole, pad);
    assert forall s: seq<Frame> :: s + [] == s;
    hide NoWaste;
  }

  lemma BufferKeepsBooks(o: Out, f: Frame)
    requires Booked(o)
    ensures Booked(o.(buffered := o.buffered + [f], accepted := o.accepted + [f], submitted := o.submitted + [f]))
  {
    NoWasteAppend(o.buffered, [f]);
    NoWasteAppend(o.accepted, [f]);
    NoWasteAppend(o.submitted, [f]);
    hide NoWaste;
  }

  lemma BatchNoWaste(a: seq<Frame>, f: Frame, pad: seq<Frame>)
    requires forall p :: p in pad ==> IsWaste(p)
    ensures NoWaste(a + [f] + pad) == NoWaste(a) + NoWaste([f])
  {
    NoWasteOfWaste(pad);
    NoWasteAppend(a, [f]);
    NoWasteAppend(a + [f], pad);
  }

  lemma SendDeadKeepsBooks(o: Out, f: Frame, pad: seq<Frame>, fault: Fault)
    requires AllFit(o.buffered + [f] + pad) && Booked(o) && o.dead
    ensures Booked(SendOn(o, f, pad, fault))
  {
    NoWasteAppend(o.submitted, [f]);
    NoWasteAppend(o.dropped, o.buffered);
    assert NoWaste([]) == [];
    hide NoWaste, EncodeAll;
    var w, d, b := NoWaste(o.whole), NoWaste(o.dropped), NoWaste(o.buffered);
    assert w + (d + b) + [] == w + d + b;
    var r := SendOn(o, f, pad, fault);
    assert r == o.(buffered := [], submitted := o.submitted + [f], dropped := o.dropped + o.buffered);
    assert NoWaste(o.submitted) <= NoWaste(o.submitted + [f]);
  }

  lemma BatchBooks(o: Out, f: Frame, pad: seq<Frame>)
    requires Booked(o) && !o.dead && o.whole == o.log && forall p :: p in pad ==> IsWaste(p)
    ensures NoWaste(o.log + (o.buffered + [f] + pad)) == NoWaste(o.submitted + [f]) == NoWaste(o.accepted + [f])
    ensures NoWaste(o.accepted) == NoWaste(o.log) + NoWaste(o.buffered)
  {
    BatchNoWaste(o.buffered, f, pad);
    NoWasteAppend(o.log, o.buffered + [f] + pad);
    NoWasteAppend(o.submitted, [f]);
    NoWasteAppend(o.accepted, [f]);
    assert NoWaste([]) == [];
    hide NoWaste;
    assert NoWaste(o.log) + [] == NoWaste(o.log);
  }

  lemma SendCleanKeepsBooks(o: Out, f: Frame, pad: seq<Frame>)
    requires AllFit(o.buffered + [f] + pad) && Booked(o) && !o.dead && o.whole == o.log
    requires forall p :: p in pad ==> IsWaste(p)
    ensures Booked(SendOn(o, f, pad, Clean))
  {
    BatchBooks(o, f, pad);
    assert NoWaste([]) == [];
    hide NoWaste, EncodeAll;
    var sent := NoWaste(o.log + (o.buffered + [f] + pad));
    assert sent + [] + [] == sent;
  }

  lemma SendShortKeepsBooks(o: Out, f: Frame, pad: seq<Frame>, fault: Fault)
    requires AllFit(o.buffered + [f] + pad) && Booked(o) && !o.dead && o.whole == o.log && fault.Short?
    requires forall p :: p in pad ==> IsWaste(p)
    ensures Booked(SendOn(o, f, pad, fault))
  {
    BatchBooks(o, f, pad);
    assert NoWaste([]) == [];
    assert o.dropped + o.buffered == o.buffered;
    hide NoWaste, EncodeAll;
    assert NoWaste(o.whole) + NoWaste(o.buffered) + [] == NoWaste(o.accepted);
  }

  lemma SendKeepsBooks(o: Out, f: Frame, pad: seq<Frame>, fault: Fault)
    requires AllFit(o.buffered + [f] + pad) && Booked(o) && (!o.dead ==> o.whole == o.log)
    requires forall p :: p in pad ==> IsWaste(p)
    ensures Booked(SendOn(o, f, pad, fault))
  {
    if o.dead {
      SendDeadKeepsBooks(o, f, pad, fault);
    } else if fault.Clean? {
      SendCleanKeepsBooks(o, f, pad);
    } else {
      SendShortKeepsBooks(o, f, pad, fault);
    }
  }

  lemma StepKeeps(o: Out, op: Op)
    requires Sound(o) && Can(op)
    ensures Sound(Apply(o, op))
  {
    hide Wired, Booked, Put, EncodeAll;
    WiredFacts(o);
    match op
    case Send(f, pad, fault) =>
      if !o.closed {
        if o.buffering {
          BufferKeepsBooks(o, f);
          SameWire(o, Apply(o, op));
        } else {
          PutKeepsWire(o, o.buffered + [f] + pad, fault);
          SendKeepsBooks(o, f, pad, fault);
          SameWire(Put(o, o.buffered + [f] + pad, fault), Apply(o, op));
        }
      }
    case EndBuffering =>
      SameWire(o, Apply(o, op));
      SameBooks(o, Apply(o, op));
    case Inject(pad, fault) =>
      if !o.closed {
        PutKeepsWire(o, pad, fault);
        PutWasteKeepsBooks(o, pad, fault);
        PutKeepsBuffer(o, pad, fault);
      }
    case Close(pad, fault) =>
      if !o.closed {
        PutKeepsWire(o, pad, fault);
        PutWasteKeepsBooks(o, pad, fault);
        PutKeepsBuffer(o, pad, fault);
        SameWire(Put(o, pad, fault), Apply(o, op));
        SameBooks(Put(o, pad, fault), Apply(o, op));
      }
  }

  lemma WiredFacts(o: Out)
    requires Wired(o)
    ensures !o.dead ==> o.whole == o.log
  {
  }

  lemma PutKeepsBuffer(o: Out, batch: seq<Frame>, fault: Fault)
    requires AllFit(batch)
    ensures Put(o, batch, fault).buffered == o.buffered
  {
  }

  lemma SameWire(o: Out, p: Out)
    requires Wired(o) && p.wire == o.wire && p.dead == o.dead && p.whole == o.whole && p.log == o.log
    ensures Wired(p)
  {
  }

  lemma SameBooks(o: Out, p: Out)
    requires Booked(o) && p == o.(closed := p.closed, buffering := p.buffering)
    ensures Booked(p)
  {
  }

  // ----- whole runs ----------------------------------------------------------------------

  predicate Runs(ops: seq<Op>) {
    forall op :: op in ops ==> Can(op)
  }

  ghost function After(ops: seq<Op>, buffering: bool): (o: Out)
    requires Runs(ops)
    ensures Sound(o)
  {
    if ops == [] then
      Init(buffering)
    else
      var o := After(ops[..|ops| - 1], buffering);
      StepKeeps(o, ops[|ops| - 1]);
      Apply(o, ops[|ops| - 1])
  }

  /** What the peer has made of the wire, against the books. */
  ghost predicate Faithful(o: Out) {
    var got := NoWaste(Receive(o.wire));
    && Heard(NoWaste(o.whole)) <= got <= Heard(NoWaste(o.submitted))
    && (!o.dead ==> got == Heard(NoWaste(o.whole))
                    && NoWaste(o.accepted) == NoWaste(o.whole) + NoWaste(o.buffered)
                    && NoWaste(o.submitted) == NoWaste(o.accepted))
  }

  lemma SoundIsFaithful(o: Out)
    requires Sound(o)
    ensures Faithful(o)
  {
    ReceiveAtLeast(o.whole, o.wire);
    ReceiveAtMost(o.log, o.wire);
    NoWastePrefix(Heard(o.whole), Receive(o.wire));
    NoWastePrefix(Receive(o.wire), Heard(o.log));
    HeardIgnoresWaste(o.whole);
    HeardIgnoresWaste(o.log);
    HeardPrefix(NoWaste(o.log), NoWaste(o.submitted));
    assert NoWaste([]) == [];
    hide NoWaste, Heard, Receive, EncodeAll;
    assert NoWaste(o.whole) + [] == NoWaste(o.whole);
  }

  /** Frame-layer round trip, after any interleaving of writes, injections and
      faults: the peer has handled every frame of every successful Write and
      nothing but frames handed to writeConn, in connLock order. While no Write has
      failed that is exactly the accepted frames, but for those still buffered. */
  lemma RoundTrip(ops: seq<Op>, buffering: bool)
    requires Runs(ops)
    ensures Faithful(After(ops, buffering))
  {
    SoundIsFaithful(After(ops, buffering));
  }

  // ----- one stream ------------------------------------------------------------------------

  /** The bytes a frame sequence carries for a stream. */
  function Payload(fs: seq<Frame>, sid: nat): (r: seq<byte>) {
    if fs == [] then []
    else
      Payload(fs[..|fs| - 1], sid) + Carried(fs[|fs| - 1], sid)
  }

  function Carried(f: Frame, sid: nat): (r: seq<byte>) {
    if f.cmd == CMD_PSH && f.sid == sid then f.data else []
  }

  lemma PayloadSnoc(fs: seq<Frame>, f: Frame, sid: nat)
    ensures Payload(fs + [f], sid) == Payload(fs, sid) + Carried(f, sid)
  {
    hide Carried;
    assert (fs + [f])[..|fs|] == fs;
  }

  lemma {:induction false} PayloadAppend(a: seq<Frame>, b: seq<Frame>, sid: nat)
    ensures Payload(a + b, sid) == Payload(a, sid) + Payload(b, sid)
  {
    if b == [] {
      assert a + b == a;
    } else {
      hide Payload, Carried;
      var n := |b| - 1;
      PayloadAppend(a, b[..n], sid);
      PayloadSnoc(b[..n], b[n], sid);
      PayloadSnoc(a + b[..n], b[n], sid);
      LastApart(a, b);
      Assoc(Payload(a, sid), Payload(b[..n], sid), Carried(b[n], sid));
    }
  }

  lemma LastApart(a: seq<Frame>, b: seq<Frame>)
    requires b != []
    ensures var n := |b| - 1; b == b[..n] + [b[n]] && a + b == a + b[..n] + [b[n]]
  {
  }

  lemma Assoc<T>(x: seq<T>, y: seq<T>, z: seq<T>)
    ensures x + y + z == x + (y + z)
  {
  }

  lemma {:induction false} PayloadIgnoresWaste(fs: seq<Frame>, sid: nat)
    ensures Payload(NoWaste(fs), sid) == Payload(fs, sid)
  {
    if fs != [] {
      var n := |fs| - 1;
      PayloadIgnoresWaste(fs[..n], sid);
      PayloadAppend(NoWaste(fs[..n]), if fs[n].cmd == CMD_WASTE then [] else [fs[n]], sid);
    }
  }

  lemma PayloadPrefix(a: seq<Frame>, b: seq<Frame>, sid: nat)
    requires a <= b
    ensures Payload(a, sid) <= Payload(b, sid)
  {
    PayloadAppend(a, b[|a|..], sid);
    assert b == a + b[|a|..];
  }

  /** No oversized padding scheme and no alert, which end the receive loop. */
  predicate Quiet(fs: seq<Frame>) {
    forall f :: f in fs ==> !Refused(f.cmd, |f.data|) && !Final(f)
  }

  lemma {:induction false} QuietIsHeard(fs: seq<Frame>)
    requires Quiet(fs)
    ensures Heard(fs) == fs
  {
    if fs != [] {
      QuietIsHeard(fs[1..]);
      assert fs == [fs[0]] + fs[1..];
    }
  }

  predicate StillOpen(ops: seq<Op>) {
    ops == [] || (StillOpen(ops[..|ops| - 1]) && !ops[|ops| - 1].Close?)
  }

  /** The bytes the stream's own data frames brought to writeConn before the
      session closed, in the order of those calls; no other call contributes. */
  function Handed(ops: seq<Op>, sid: nat): (r: seq<byte>) {
    if ops == [] then []
    else
      var n := |ops| - 1;
      Handed(ops[..n], sid) + if ops[n].Send? && StillOpen(ops[..n]) then Carried(ops[n].f, sid) else []
  }

  lemma SubmitNext(o: Out, op: Op, sid: nat)
    requires Sound(o) && Can(op)
    ensures Payload(Apply(o, op).submitted, sid) ==
            Payload(o.submitted, sid) + if op.Send? && !o.closed then Carried(op.f, sid) else []
    ensures Apply(o, op).closed == (o.closed || op.Close?)
  {
    hide Sound, EncodeAll, Carried;
    if op.Send? && !o.closed {
      assert (o.submitted + [op.f])[..|o.submitted|] == o.submitted;
    }
  }

  lemma {:induction false} HandedIsSubmitted(ops: seq<Op>, buffering: bool, sid: nat)
    requires Runs(ops)
    ensures Payload(After(ops, buffering).submitted, sid) == Handed(ops, sid)
    ensures After(ops, buffering).closed <==> !StillOpen(ops)
  {
    assert Payload([], sid) == [];
    hide Sound, Apply, Carried, Payload;
    if ops == [] {
    } else {
      var n := |ops| - 1;
      HandedIsSubmitted(ops[..n], buffering, sid);
      var o := After(ops[..n], buffering);
      assert Can(ops[n]) && Sound(o);
      SubmitNext(o, ops[n], sid);
      assert After(ops, buffering) == Apply(o, ops[n]);
    }
  }

  /** Per stream, in any sound state: received payload is a prefix of what was handed
      in, and while no Write has failed it is what was accepted, but for the buffer. */
  lemma SoundStreamBytes(o: Out, sid: nat)
    requires Sound(o) && Quiet(o.submitted)
    ensures var got := Payload(Receive(o.wire), sid);
            && got <= Payload(o.submitted, sid)
            && (!o.dead ==> got + Payload(o.buffered, sid) == Payload(o.accepted, sid) == Payload(o.submitted, sid))
  {
    SoundIsFaithful(o);
    hide Receive, Sound;
    NoWasteIn(o.submitted);
    QuietIsHeard(NoWaste(o.submitted));
    PayloadIgnoresWaste(Receive(o.wire), sid);
    PayloadIgnoresWaste(o.submitted, sid);
    PayloadPrefix(NoWaste(Receive(o.wire)), NoWaste(o.submitted), sid);
    if !o.dead {
      PayloadIgnoresWaste(o.accepted, sid);
      PayloadIgnoresWaste(o.buffered, sid);
      PayloadAppend(NoWaste(o.whole), NoWaste(o.buffered), sid);
      QuietIsHeard(NoWaste(o.whole));
    }
  }

  /** Per stream: whatever calls of other streams, injections and faults come in
      between, the payload the peer has received is a prefix of what the stream's
      own calls brought, and while no Write has failed it is all of it but for
      what is still buffered. */
  lemma StreamBytes(ops: seq<Op>, buffering: bool, sid: nat)
    requires Runs(ops) && Quiet(After(ops, buffering).submitted)
    ensures var o := After(ops, buffering);
            var got := Payload(Receive(o.wire), sid);
            && got <= Handed(ops, sid)
            && (!o.dead ==> got + Payload(o.buffered, sid) == Handed(ops, sid))
  {
    HandedIsSubmitted(ops, buffering, sid);
    hide Receive, Payload, Handed;
    SoundStreamBytes(After(ops, buffering), sid);
  }

  lemma {:induction false} NoWasteIn(fs: seq<Frame>)
    ensures forall f :: f in NoWaste(fs) ==> f in fs
  {
    if fs != [] {
      NoWasteIn(fs[..|fs| - 1]);
    }
  }

  // ----- the buffer drains -----------------------------------------------------------------

  lemma StepBuffers(o: Out, op: Op)
    requires Sound(o) && Can(op)
    ensures var r := Apply(o, op);
            && (r.buffering <==> o.buffering && !op.EndBuffering?)
            && (!o.buffering && o.buffered == [] ==> r.buffered == [])
            && (op.Send? && !o.closed && !o.buffering ==> r.buffered == [])
            && (!o.buffering ==> |r.buffered| <= |o.buffered|)
            && (op.Send? && !o.closed && o.buffering ==> r.wire == o.wire && r.buffered == o.buffered + [op.f])
  {
    hide Sound, EncodeAll;
  }

  /** A session buffers until the first EndBuffering of its run, and never again. */
  lemma {:induction false} BufferingEnds(ops: seq<Op>, buffering: bool)
    requires Runs(ops)
    ensures After(ops, buffering).buffering <==> buffering && EndBuffering !in ops
  {
    if ops != [] {
      var n := |ops| - 1;
      var o, op := After(ops[..n], buffering), ops[n];
      assert Can(op) && After(ops, buffering) == Apply(o, op);
      StepBuffers(o, op);
      hide Sound, Apply, Can, After, Runs;
      BufferingEnds(ops[..n], buffering);
      LastIn(ops);
    }
  }

  lemma LastIn(ops: seq<Op>)
    requires ops != []
    ensures EndBuffering in ops <==> EndBuffering in ops[..|ops| - 1] || ops[|ops| - 1].EndBuffering?
  {
    assert ops == ops[..|ops| - 1] + [ops[|ops| - 1]];
  }

  /** Once buffering has ended, the next write drains the buffer: after any write of an
      open session the peer holds, if no Write has failed, everything any stream's
      calls brought, nothing held back. */
  lemma NextWriteDrains(ops: seq<Op>, buffering: bool, f: Frame, pad: seq<Frame>, fault: Fault, sid: nat)
    requires Runs(ops) && Can(Send(f, pad, fault)) && (!buffering || EndBuffering in ops) && StillOpen(ops)
    ensures Runs(ops + [Send(f, pad, fault)])
    ensures var o := After(ops + [Send(f, pad, fault)], buffering);
            && o.buffered == []
            && (!After(ops, buffering).dead && fault.Clean? ==> !o.dead)
            && (!o.dead && Quiet(o.submitted) ==>
                  Payload(Receive(o.wire), sid) == Handed(ops + [Send(f, pad, fault)], sid))
  {
    var op := Send(f, pad, fault);
    var more := ops + [op];
    assert more[..|ops|] == ops && more[|ops|] == op;
    assert Runs(more);
    BufferingEnds(ops, buffering);
    HandedIsSubmitted(ops, buffering, sid);
    var o := After(ops, buffering);
    StepBuffers(o, op);
    SendAlive(o, f, pad, fault);
    hide Apply, Can, Sound, Receive, Handed, Runs;
    assert After(more, buffering) == Apply(o, op);
    if Quiet(After(more, buffering).submitted) {
      StreamBytes(more, buffering, sid);
      PayloadOfNone(sid);
    }
  }

  lemma SendAlive(o: Out, f: Frame, pad: seq<Frame>, fault: Fault)
    requires Sound(o) && Can(Send(f, pad, fault))
    ensures !o.dead && fault.Clean? ==> !Apply(o, Send(f, pad, fault)).dead
  {
    hide Sound, EncodeAll;
  }

  lemma PayloadOfNone(sid: nat)
    ensures Payload([], sid) == []
  {
  }
}
