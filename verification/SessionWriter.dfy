/** The session's write methods over the shaper and one connection, each proved
    to be an operation of the frame layer's state machine. */
module SessionWriter {
  import opened Basics
  import opened Frames
  import opened FrameLayer
  import opened Shaper

  const EARLY_SPLIT_THRESHOLD := 256
  const EARLY_SPLIT_MIN := 48

  /** What one call meets: the published scheme, the random draws, the fate of
      its Write, and whether Close finds the connection lock free. */
  datatype Env = Env(scheme: Scheme, raw: nat -> nat, noise: nat -> byte, fault: Fault, lockFree: bool)

  function Push(sid: nat, c: seq<byte>): (f: Frame)
    ensures f == Frame(2, sid, c)
  {
    Frame(CMD_PSH, sid, c)
  }

  function Pushes(sid: nat, cs: seq<seq<byte>>): (fs: seq<Frame>) {
    seq(|cs|, i requires 0 <= i < |cs| => Push(sid, cs[i]))
  }

  /** The frames of one data write carry its bytes, in order, to its stream only. */
  lemma {:induction false} PushesCarry(sid: nat, cs: seq<seq<byte>>, other: nat)
    ensures Payload(Pushes(sid, cs), other) == if other == sid then Flatten(cs) else []
  {
    if cs != [] {
      var n := |cs| - 1;
      PushesCarry(sid, cs[..n], other);
      FlattenSnoc(cs[..n], cs[n]);
      assert cs == cs[..n] + [cs[n]];
      assert Pushes(sid, cs)[..n] == Pushes(sid, cs[..n]);
    }
  }

  lemma PushesAppend(sid: nat, cs: seq<seq<byte>>, c: seq<byte>)
    ensures Pushes(sid, cs + [c]) == Pushes(sid, cs) + [Push(sid, c)]
    ensures Flatten(cs + [c]) == Flatten(cs) + c
  {
    FlattenSnoc(cs, c);
  }

  /** The length of a piece, drawn between the minimum and `maxCut`. */
  function SplitCut(raw: nat, maxCut: nat): (cut: nat)
    requires maxCut > EARLY_SPLIT_MIN
    ensures 48 <= cut <= maxCut
  {
    EARLY_SPLIT_MIN + Draw(raw, maxCut - EARLY_SPLIT_MIN + 1)
  }

  /** ... and any of these can be drawn. */
  lemma SplitCutIsAnyOf(maxCut: nat, cut: nat)
    requires 48 <= cut <= maxCut && maxCut > 48
    ensures exists raw :: SplitCut(raw, maxCut) == cut
  {
    DrawIsAnyOf(maxCut - 48 + 1, cut - 48);
    assert SplitCut(cut - 48, maxCut) == cut;
  }

  class Session {
    const shaper: RecordShaper
    var wire: seq<byte>
    var dead: bool
    var closed: bool
    var broken: bool
    var buffering: bool
    var buffer: seq<byte>
    ghost var out: Out

    ghost predicate Mirrors()
      reads this
    {
      && out.wire == wire && out.dead == dead && out.closed == closed && out.buffering == buffering
      && AllFit(out.buffered) && buffer == EncodeAll(out.buffered)
    }

    ghost predicate Valid()
      reads this, shaper
    {
      shaper.Valid() && Mirrors() && Sound(out)
    }

    constructor (scheme: Scheme, isClient: bool)
      ensures Valid() && out == Init(isClient) && fresh(shaper)
    {
      shaper := new RecordShaper(scheme);
      wire, dead, closed, broken, buffering, buffer := [], false, false, false, isClient, [];
      out := Init(isClient);
    }

    /** Write on the connection. */
    method ConnWrite(b: seq<byte>, ghost batch: seq<Frame>, fault: Fault) returns (ok: bool)
      requires Mirrors() && AllFit(batch) && b == EncodeAll(batch)
      modifies `wire, `dead, `out
      ensures Mirrors() && out == Put(old(out), batch, fault) && ok == (!old(dead) && fault.Clean?)
    {
      out := Put(out, batch, fault);
      if dead {
        return false;
      }
      match fault
      case Clean =>
        wire := wire + b;
        return true;
      case Short(n) =>
        wire, dead := wire + (if n < |b| then b[..n] else b), true;
        return false;
    }

    /** What the shaper turns a record into: itself, or itself and one waste frame. */
    static ghost predicate ShapedAs(b: seq<byte>, shaped: seq<byte>, pad: seq<Frame>) {
      && |pad| <= 1 && (forall p :: p in pad ==> IsWaste(p) && p.sid == 0)
      && AllFit(pad) && shaped == b + EncodeAll(pad)
    }

    static lemma PaddedAs(b: seq<byte>, shaped: seq<byte>, t: PadTarget) returns (pad: seq<Frame>)
      requires PadsTo(b, shaped, t)
      ensures ShapedAs(b, shaped, pad)
    {
      var payload: seq<byte> :| |payload| <= MAX_FRAME_DATA && shaped == b + Encode(Waste(payload));
      pad := [Waste(payload)];
      assert EncodeAll(pad) == Encode(Waste(payload)) + EncodeAll(pad[1..]);
    }

    method Flush(b: seq<byte>, env: Env) returns (shaped: seq<byte>, ghost pad: seq<Frame>)
      requires shaper.Valid()
      modifies shaper
      ensures shaper.Valid() && ShapedAs(b, shaped, pad) && FlushShape(shaper.config, b, shaped)
    {
      shaped := shaper.ShapeFlush(b, env.scheme, env.raw(0), env.noise);
      pad := [];
      hide PadsTo;
      if shaped != b {
        pad := PaddedAs(b, shaped, shaper.config.headersTarget);
      }
    }

    method Control(b: seq<byte>, env: Env) returns (shaped: seq<byte>, ghost pad: seq<Frame>)
      requires shaper.Valid()
      modifies shaper
      ensures shaper.Valid() && ShapedAs(b, shaped, pad) && ControlShape(shaper.config, b, shaped)
    {
      shaped := shaper.ShapeControl(b, env.scheme, env.raw, env.noise);
      pad := [];
      hide PadsTo;
      if shaped != b {
        ghost var t :| t in shaper.config.padTargets && PadsTo(b, shaped, t);
        pad := PaddedAs(b, shaped, t);
      }
    }

    /** Which shape writeConn owes a record: a flush and a control SYN look like
        HEADERS, another control frame like a control frame, data is left alone. */
    static ghost predicate RecordShape(config: Config, buffer: seq<byte>, b: seq<byte>, isCtrl: bool, f: Frame,
                                       record: seq<byte>) {
      if buffer != [] || (isCtrl && f.cmd == CMD_SYN) then FlushShape(config, buffer + b, record)
      else if isCtrl then ControlShape(config, b, record)
      else record == b
    }

    /** The record of one writeConn call that is not buffered, and what becomes of
        the buffer. */
    method Record(b: seq<byte>, isCtrl: bool, ghost f: Frame, env: Env)
      returns (record: seq<byte>, ghost pad: seq<Frame>)
      requires Mirrors() && shaper.Valid() && Sendable(f) && b == Encode(f)
      modifies shaper
      ensures shaper.Valid() && (forall p :: p in pad ==> IsWaste(p)) && |pad| <= 1
      ensures AllFit(out.buffered + [f] + pad) && record == EncodeAll(out.buffered + [f] + pad)
      ensures RecordShape(shaper.config, buffer, b, isCtrl, f, record)
    {
      assert b[0] == f.cmd;
      assert [] + b == b;
      hide FlushShape, ControlShape;
      if |buffer| > 0 {
        record, pad := Flush(buffer + b, env);
      } else if isCtrl && |b| > 0 && b[0] == CMD_SYN {
        record, pad := Flush(b, env);
      } else if isCtrl {
        record, pad := Control(b, env);
      } else {
        record, pad := b, [];
      }
      assert buffer + b == if |buffer| > 0 then buffer + b else b;
      assert b + EncodeAll([]) == b;
      RecordBytes(out.buffered, f, pad);
    }

    static lemma RecordBytes(buffered: seq<Frame>, f: Frame, pad: seq<Frame>)
      requires AllFit(buffered) && Fits(f) && AllFit(pad)
      ensures AllFit(buffered + [f] + pad)
      ensures EncodeAll(buffered + [f] + pad) == EncodeAll(buffered) + Encode(f) + EncodeAll(pad)
    {
      EncodeAllAppend(buffered, [f]);
      EncodeAllAppend(buffered + [f], pad);
      assert EncodeAll([f]) == Encode(f) + EncodeAll([f][1..]);
    }

    /** The buffering branch. */
    method Hold(b: seq<byte>, ghost f: Frame, ghost fault: Fault)
      requires Valid() && Sendable(f) && b == Encode(f) && !closed && buffering
      modifies `buffer, `out
      ensures Valid() && out == Apply(old(out), Send(f, [], fault)) && out.accepted == old(out.accepted) + [f]
      ensures buffer == old(buffer) + b
    {
      StepKeeps(out, Send(f, [], fault));
      assert AllSendable(out.buffered);
      RecordBytes(out.buffered, f, []);
      assert out.buffered + [f] + [] == out.buffered + [f];
      hide Sound;
      buffer := buffer + b;
      out := Apply(out, Send(f, [], fault));
    }

    /** The writing branches. */
    method SendRecord(record: seq<byte>, ghost f: Frame, ghost pad: seq<Frame>, fault: Fault) returns (ok: bool)
      requires Valid() && !closed && !buffering && Can(Send(f, pad, fault))
      requires AllFit(out.buffered + [f] + pad) && record == EncodeAll(out.buffered + [f] + pad)
      modifies `wire, `dead, `buffer, `out
      ensures Valid() && out == Apply(old(out), Send(f, pad, fault))
      ensures out.accepted == if ok then old(out.accepted) + [f] else old(out.accepted)
      ensures (ok <==> !old(dead) && fault.Clean?) && buffer == [] && (ok ==> wire == old(wire) + record && !dead)
    {
      assert AllSendable(out.buffered) && EncodeAll([]) == [];
      ghost var o := out;
      StepKeeps(out, Send(f, pad, fault));
      assert Apply(out, Send(f, pad, fault)) == SendOn(out, f, pad, fault);
      hide Sound, EncodeAll, Can, Sendable, Apply;
      ok := ConnWrite(record, out.buffered + [f] + pad, fault);
      buffer := [];
      out := SendOn(o, f, pad, fault);
    }

    /** writeConn: one connLock section. */
    method WriteConn(b: seq<byte>, isCtrl: bool, ghost f: Frame, env: Env)
      returns (ok: bool, ghost pad: seq<Frame>, ghost record: seq<byte>)
      requires Valid() && Sendable(f) && b == Encode(f)
      modifies this, shaper
      ensures Valid() && broken == old(broken)
      ensures Can(Send(f, pad, env.fault)) && out == Apply(old(out), Send(f, pad, env.fault))
      ensures out.accepted == if ok then old(out.accepted) + [f] else old(out.accepted)
      ensures closed == old(closed) && buffering == old(buffering)
      ensures ok <==> !closed && (buffering || (!old(dead) && env.fault.Clean?))
      ensures buffering && ok ==> wire == old(wire) && dead == old(dead) && buffer == old(buffer) + b
      ensures !closed && !buffering ==>
                && RecordShape(shaper.config, old(buffer), b, isCtrl, f, record) && buffer == []
                && (ok ==> wire == old(wire) + record && !dead)
    {
      assert AllSendable(out.buffered);
      assert closed ==> Apply(out, Send(f, [], env.fault)) == out;
      hide Sound, EncodeAll, Encode, RecordShape, Apply, Sendable, IsWaste;
      ok, pad, record := false, [], [];
      if closed {
        return;
      }
      if buffering {
        Hold(b, f, env.fault);
        ok := true;
        return;
      }
      var whole;
      whole, pad := Record(b, isCtrl, f, env);
      record := whole;
      ok := SendRecord(whole, f, pad, env.fault);
    }

    /** sendPSH. */
    method SendPush(sid: nat, chunk: seq<byte>, env: Env) returns (ok: bool)
      requires Valid() && sid < 0x1_0000_0000 && |chunk| <= MAX_FRAME_DATA
      modifies this, shaper
      ensures Valid() && out.accepted == if ok then old(out.accepted) + [Push(sid, chunk)] else old(out.accepted)
      ensures broken == (old(broken) || !ok) && closed == old(closed) && buffering == old(buffering)
      ensures ok <==> !closed && (buffering || (!old(dead) && env.fault.Clean?))
      ensures ok && !old(dead) ==> !dead
    {
      hide Sound, EncodeAll, Apply;
      var b := [CMD_PSH] + BE32(sid) + BE16(|chunk|) + chunk;
      ghost var pad, record;
      ok, pad, record := WriteConn(b, false, Push(sid, chunk), env);
      if !ok {
        broken := true;
      }
    }

    /** Exactly the first n bytes of a data write were accepted, as the chunks cs,
        for this stream alone; n falls short only on an error. */
    static ghost predicate Wrote(before: seq<Frame>, after: seq<Frame>, sid: nat, data: seq<byte>, n: nat,
                                 cs: seq<seq<byte>>) {
      && n <= |data| && Flatten(cs) == data[..n] && after == before + Pushes(sid, cs)
      && forall c :: c in cs ==> 0 < |c| <= H2_MAX_PAYLOAD
    }

    /** Chunks as large as a record allows, but for the last. */
    static ghost predicate Chunked(cs: seq<seq<byte>>, more: bool) {
      forall i :: 0 <= i < |cs| && (more || i < |cs| - 1) ==> |cs[i]| == 16384
    }

    /** One more chunk accepted. */
    static lemma WroteNext(before: seq<Frame>, after: seq<Frame>, sid: nat, data: seq<byte>, n: nat,
                           cs: seq<seq<byte>>, c: seq<byte>)
      requires Wrote(before, after, sid, data, n, cs) && 0 < |c| <= H2_MAX_PAYLOAD && c <= data[n..]
      ensures Wrote(before, after + [Push(sid, c)], sid, data, n + |c|, cs + [c])
    {
      PushesAppend(sid, cs, c);
      assert data[..n] + c == data[..n + |c|];
    }

    /** ... so the stream's accepted payload grew by exactly those bytes, and no
        other stream's changed. */
    static lemma WroteBytes(before: seq<Frame>, after: seq<Frame>, sid: nat, data: seq<byte>, n: nat,
                            cs: seq<seq<byte>>, other: nat)
      requires Wrote(before, after, sid, data, n, cs)
      ensures Payload(after, other) == Payload(before, other) + if other == sid then data[..n] else []
    {
      PushesCarry(sid, cs, other);
      PayloadAppend(before, Pushes(sid, cs), other);
    }

    /** An open session on a connection that takes every Write. */
    static ghost predicate Untroubled(closed: bool, dead: bool, env: nat -> Env) {
      !closed && !dead && forall i :: env(i).fault.Clean?
    }

    /** One more piece of a data write: sent, or nothing more is accepted. */
    method SendPiece(sid: nat, chunk: seq<byte>, env: Env, ghost before: seq<Frame>, ghost data: seq<byte>,
                     ghost n: nat, ghost cs: seq<seq<byte>>)
      returns (ok: bool)
      requires Valid() && sid < 0x1_0000_0000 && 0 < |chunk| <= H2_MAX_PAYLOAD && n <= |data| && chunk <= data[n..]
      requires Wrote(before, out.accepted, sid, data, n, cs)
      modifies this, shaper
      ensures Valid() && broken == (old(broken) || !ok) && closed == old(closed)
      ensures (!closed && !old(dead) && env.fault.Clean? ==> ok) && (ok && !old(dead) ==> !dead)
      ensures if ok then Wrote(before, out.accepted, sid, data, n + |chunk|, cs + [chunk])
              else Wrote(before, out.accepted, sid, data, n, cs)
    {
      hide Sound, Mirrors, Wrote, Valid;
      WroteNext(before, out.accepted, sid, data, n, cs, chunk);
      ok := SendPush(sid, chunk, env);
    }

    /** writeDataFrame: chunks of at most 16384 bytes, until the first failure. */
    method WriteDataFrame(sid: nat, data: seq<byte>, env: nat -> Env)
      returns (n: nat, ok: bool, ghost cs: seq<seq<byte>>)
      requires Valid() && sid < 0x1_0000_0000
      modifies this, shaper
      ensures Valid() && Wrote(old(out.accepted), out.accepted, sid, data, n, cs)
      ensures ok <==> n == |data|
      ensures broken == (old(broken) || !ok)
      ensures Untroubled(old(closed), old(dead), env) ==> ok
      ensures Chunked(cs, !ok)
    {
      hide Sound, Mirrors, Wrote, Valid;
      n, cs, ok := 0, [], true;
      ghost var before := out.accepted;
      NothingWritten(before, sid, data);
      while n < |data|
        invariant Chunked(cs, n < |data|)
        invariant Valid() && Wrote(before, out.accepted, sid, data, n, cs) && n <= |data|
        invariant broken == old(broken) && closed == old(closed) && (!old(dead) ==> !dead)
      {
        var chunk := data[n..];
        if |chunk| > H2_MAX_PAYLOAD {
          chunk := chunk[..H2_MAX_PAYLOAD];
        }
        ok := SendPiece(sid, chunk, env(n), before, data, n, cs);
        if !ok {
          return;
        }
        n, cs := n + |chunk|, cs + [chunk];
      }
    }

    static lemma NothingWritten(before: seq<Frame>, sid: nat, data: seq<byte>)
      ensures Wrote(before, before, sid, data, 0, [])
    {
      assert before + [] == before;
    }

    /** writeDataFrameSplit: two or three pieces of at least 48 bytes, wherever
        the draws put the cuts. */
    method WriteDataFrameSplit(sid: nat, data: seq<byte>, raw: nat -> nat, env: nat -> Env)
      returns (n: nat, ok: bool, ghost cs: seq<seq<byte>>)
      requires Valid() && sid < 0x1_0000_0000 && EARLY_SPLIT_THRESHOLD < |data| <= H2_MAX_PAYLOAD
      modifies this, shaper
      ensures Valid() && Wrote(old(out.accepted), out.accepted, sid, data, n, cs)
      ensures ok <==> n == |data|
      ensures broken == (old(broken) || !ok)
      ensures |cs| <= 3 && (ok ==> 2 <= |cs|) && forall c :: c in cs ==> |c| >= 48
      ensures |data| <= 600 ==> |cs| <= 2
      ensures ok && |data| > 600 && |cs| == 2 ==> |cs[1]| == 96
      ensures Untroubled(old(closed), old(dead), env) ==> ok
    {
      hide Sound, Mirrors, Wrote, Valid;
      var parts := if |data| > 600 then 3 else 2;
      var i := 0;
      n, cs, ok := 0, [], true;
      ghost var before := out.accepted;
      NothingWritten(before, sid, data);
      while i < parts
        invariant 0 <= i <= parts && |cs| == i && n <= |data| && parts == (if |data| > 600 then 3 else 2)
        invariant if i < parts then |data| - n >= EARLY_SPLIT_MIN * (parts - i) else n == |data|
        invariant i == 0 ==> n == 0
        invariant Valid() && Wrote(before, out.accepted, sid, data, n, cs) && broken == old(broken) && ok
        invariant forall c :: c in cs ==> |c| >= EARLY_SPLIT_MIN
        invariant closed == old(closed) && (!old(dead) ==> !dead)
      {
        var chunk := data[n..];
        if i < parts - 1 {
          var maxCut := |data| - n - EARLY_SPLIT_MIN * (parts - i - 1);
          if maxCut <= EARLY_SPLIT_MIN {
            ok := SendPiece(sid, chunk, env(i), before, data, n, cs);
            if ok {
              n, cs := |data|, cs + [chunk];
            }
            return;
          }
          var cut := SplitCut(raw(i), maxCut);
          chunk := data[n..n + cut];
        }
        ok := SendPiece(sid, chunk, env(i), before, data, n, cs);
        if !ok {
          return;
        }
        n, cs, i := n + |chunk|, cs + [chunk], i + 1;
      }
    }

    /** writeDataFrameShaped, the path of every Stream.Write on the mux. */
    method WriteDataFrameShaped(sid: nat, data: seq<byte>, early: bool, raw: nat -> nat, env: nat -> Env)
      returns (n: nat, ok: bool, ghost cs: seq<seq<byte>>)
      requires Valid() && sid < 0x1_0000_0000
      modifies this, shaper
      ensures Valid() && Wrote(old(out.accepted), out.accepted, sid, data, n, cs)
      ensures ok <==> n == |data|
      ensures forall other :: Payload(out.accepted, other) ==
                Payload(old(out.accepted), other) + if other == sid then data[..n] else []
      ensures Untroubled(old(closed), old(dead), env) ==> ok
      ensures early && 256 < |data| <= 16384 ==>
                |cs| <= 3 && (ok ==> 2 <= |cs|) && forall c :: c in cs ==> |c| >= 48
      ensures !early || |data| <= 256 || |data| > 16384 ==> Chunked(cs, !ok)
    {
      hide Sound, Mirrors, Chunked;
      ghost var before := out.accepted;
      if !early || |data| <= EARLY_SPLIT_THRESHOLD || |data| > H2_MAX_PAYLOAD {
        n, ok, cs := WriteDataFrame(sid, data, env);
      } else {
        n, ok, cs := WriteDataFrameSplit(sid, data, raw, env);
      }
      forall other
        ensures Payload(out.accepted, other) == Payload(before, other) + if other == sid then data[..n] else [] {
        WroteBytes(before, out.accepted, sid, data, n, cs, other);
      }
    }

    /** Waste written straight to the connection, outside writeConn. */
    method WriteWaste(waste: seq<Frame>, fault: Fault) returns (n: nat)
      requires Valid() && !closed && AllFit(waste) && waste != [] && forall p :: p in waste ==> IsWaste(p)
      modifies `wire, `dead, `out
      ensures Valid() && out == Apply(old(out), Inject(waste, fault))
      ensures out.accepted == old(out.accepted) && out.buffered == old(out.buffered)
      ensures n > 0 <==> !old(dead) && (fault.Clean? || fault.n > 0)
    {
      StepKeeps(out, Inject(waste, fault));
      hide Sound;
      var b := EncodeAll(waste);
      assert |b| >= HEADER_SIZE;
      var before := |wire|;
      var _ := ConnWrite(b, waste, fault);
      n := |wire| - before;
    }

    static predicate Twin(waste: seq<Frame>) {
      |waste| == 2 && forall w :: w in waste ==> IsWaste(w) && |Encode(w)| == 13
    }

    static function TwinRecords(noise: nat -> byte): (waste: seq<Frame>)
      ensures Twin(waste) && AllFit(waste) && forall w :: w in waste ==> IsWaste(w)
    {
      [Waste(Noise(noise, 6)), Waste(Noise(i => noise(i + 6), 6))]
    }

    /** writeWindowUpdateWaste: two records of thirteen bytes, best effort; a
        partial write marks the connection broken. */
    method WindowUpdate(env: Env)
      requires Valid()
      modifies this
      ensures Valid() && out.accepted == old(out.accepted) && out.buffered == old(out.buffered)
      ensures if old(closed || broken) || !env.lockFree then out == old(out) && broken == old(broken)
              else && (exists waste :: Twin(waste) && out == Apply(old(out), Inject(waste, env.fault)))
                   && broken == (!old(dead) && env.fault.Short? && env.fault.n > 0)
    {
      if closed || broken || !env.lockFree {
        return;
      }
      var waste := TwinRecords(env.noise);
      hide Sound, EncodeAll, Twin, IsWaste, Put;
      ghost var o := out;
      var n := WriteWaste(waste, env.fault);
      if n > 0 && env.fault.Short? {
        broken := true;
      }
      assert out == Apply(o, Inject(waste, env.fault));
    }

    static predicate Farewell(w: Frame) {
      IsWaste(w) && |Encode(w)| == 17
    }

    /** Close: acts once; the seventeen-byte goodbye record is written only if the
        lock is free, and it adds no frame. */
    method CloseSession(env: Env)
      requires Valid()
      modifies this
      ensures Valid() && closed && out.accepted == old(out.accepted) && NoWaste(out.log) == NoWaste(old(out.log))
      ensures if old(closed) then out == old(out)
              else if !env.lockFree then out == old(out).(closed := true)
              else exists w :: Farewell(w) && out == Apply(old(out), Inject([w], env.fault)).(closed := true)
    {
      if closed {
        return;
      }
      if env.lockFree {
        var w := Waste(Noise(env.noise, 10));
        assert Farewell(w);
        Goodbye(w, env.fault);
      }
      hide Sound, NoWaste, EncodeAll, Put, Farewell;
      NowClosed();
    }

    method Goodbye(w: Frame, fault: Fault)
      requires Valid() && !closed && IsWaste(w)
      modifies `wire, `dead, `out
      ensures Valid() && out.accepted == old(out.accepted) && NoWaste(out.log) == NoWaste(old(out.log))
      ensures out == Apply(old(out), Inject([w], fault))
    {
      NoWasteOfWaste([w]);
      NoWasteAppend(out.log, [w]);
      hide Sound, NoWaste, EncodeAll;
      var _ := WriteWaste([w], fault);
    }

    method NowClosed()
      requires Valid()
      modifies `closed, `out
      ensures Valid() && closed && out == old(out).(closed := true)
    {
      SameWire(out, out.(closed := true));
      SameBooks(out, out.(closed := true));
      hide Wired, Booked;
      closed := true;
      out := out.(closed := true);
    }

    /** writeControlFrame: an oversized payload is refused untouched, a failed
        write closes the session. */
    method WriteControlFrame(f: Frame, env: Env) returns (ok: bool)
      requires Valid() && f.sid < 0x1_0000_0000 && (Undrained(f.cmd) ==> f.data == [])
      modifies this, shaper
      ensures Valid() && out.accepted == if ok then old(out.accepted) + [f] else old(out.accepted)
      ensures |f.data| > 65535 ==> !ok && out == old(out)
      ensures ok <==> |f.data| <= 65535 && !old(closed) && (old(buffering) || (!old(dead) && env.fault.Clean?))
      ensures if ok then !closed else |f.data| <= 65535 ==> closed
    {
      hide Sound, EncodeAll, Apply;
      if |f.data| > MAX_FRAME_DATA {
        return false;
      }
      var b := [f.cmd] + BE32(f.sid) + BE16(|f.data|) + f.data;
      ghost var pad, record;
      ok, pad, record := WriteConn(b, true, f, env);
      if !ok {
        CloseSession(env);
      }
    }

    /** At every point between calls the peer's receive loop has recovered what
        the frame layer promises from this session's bytes. */
    lemma PeerRecovers()
      requires Valid()
      ensures out.wire == wire && Faithful(out)
    {
      SoundIsFaithful(out);
    }

    /** ... and of each stream's bytes: while no Write has failed, everything this
        session's writes accepted for it, but for what is still buffered. */
    lemma StreamRecovers(sid: nat)
      requires Valid() && Quiet(out.submitted)
      ensures var got := Payload(Receive(wire), sid);
              && got <= Payload(out.submitted, sid)
              && (!dead ==> got + Payload(out.buffered, sid) == Payload(out.accepted, sid))
    {
      SoundStreamBytes(out, sid);
    }

    /** The end of OpenStream: the next write flushes the buffer. */
    method StopBuffering()
      requires Valid()
      modifies `buffering, `out
      ensures Valid() && out == Apply(old(out), EndBuffering)
      ensures !buffering && out == old(out).(buffering := false)
    {
      StepKeeps(out, EndBuffering);
      hide Sound;
      out := Apply(out, EndBuffering);
      buffering := false;
    }
  }
}
