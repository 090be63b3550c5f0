/** The mux frame format: command numbers, the seven-byte header, and the
    receive loop's parser, with the round trip between them. */
module Frames {

  type byte = x: int | 0 <= x < 256

  const CMD_WASTE: byte := 0
  const CMD_SYN: byte := 1
  const CMD_PSH: byte := 2
  const CMD_FIN: byte := 3
  const CMD_SETTINGS: byte := 4
  const CMD_ALERT: byte := 5
  const CMD_UPDATE_PADDING: byte := 6
  const CMD_SYNACK: byte := 7
  const CMD_HEART_REQUEST: byte := 8
  const CMD_HEART_RESPONSE: byte := 9
  const CMD_SERVER_SETTINGS: byte := 10
  const CMD_MIGRATE_READY: byte := 11
  const CMD_MIGRATE_GO: byte := 12
  const CMD_MIGRATE_CARRIER: byte := 13
  const CMD_UPLINK_FIN: byte := 14

  const HEADER_SIZE := 7
  const MAX_FRAME_DATA := 0xFFFF
  const H2_MAX_PAYLOAD := 16384
  const MAX_PADDING_SCHEME := 16384

  datatype Frame = Frame(cmd: byte, sid: nat, data: seq<byte>)

  /** Representable on the wire: a 32-bit stream id and a 16-bit length. */
  predicate Fits(f: Frame) {
    f.sid < 0x1_0000_0000 && |f.data| <= MAX_FRAME_DATA
  }

  // ----- header ---------------------------------------------------------

  function BE16(n: nat): (r: seq<byte>)
    requires n < 0x1_0000
  {
    [n / 256, n % 256]
  }

  function BE32(n: nat): (r: seq<byte>)
    requires n < 0x1_0000_0000
  {
    [n / 0x100_0000, n / 0x1_0000 % 256, n / 256 % 256, n % 256]
  }

  function Header(cmd: byte, sid: nat, length: nat): (h: seq<byte>)
    requires sid < 0x1_0000_0000 && length <= MAX_FRAME_DATA
    ensures |h| == HEADER_SIZE
  {
    [cmd] + BE32(sid) + BE16(length)
  }

  function Cmd(h: seq<byte>): byte
    requires |h| >= HEADER_SIZE
  {
    h[0]
  }

  function StreamId(h: seq<byte>): nat
    requires |h| >= HEADER_SIZE
  {
    h[1] as int * 0x100_0000 + h[2] as int * 0x1_0000 + h[3] as int * 256 + h[4] as int
  }

  function Length(h: seq<byte>): nat
    requires |h| >= HEADER_SIZE
  {
    h[5] as int * 256 + h[6] as int
  }

  lemma BE32Inverts(n: nat)
    requires n < 0x1_0000_0000
    ensures var b := BE32(n);
            b[0] as int * 0x100_0000 + b[1] as int * 0x1_0000 + b[2] as int * 256 + b[3] as int == n
  {
    var k := n / 256;
    var j := k / 256;
    assert n / 0x1_0000 == j && n / 0x100_0000 == j / 256;
  }

  lemma BE16Inverts(n: nat)
    requires n < 0x1_0000
    ensures BE16(n)[0] as int * 256 + BE16(n)[1] as int == n
  {
  }

  /** The header is the command, four bytes of stream id and two of length, most
      significant first, and the decoders invert the encoder, whatever bytes follow. */
  lemma HeaderRoundTrip(cmd: byte, sid: nat, length: nat, tail: seq<byte>)
    requires sid < 0x1_0000_0000 && length <= MAX_FRAME_DATA
    ensures var h := Header(cmd, sid, length) + tail;
            && Cmd(h) == cmd && StreamId(h) == sid && Length(h) == length
            && h[7..] == tail && h[0] == cmd && h[5] as int * 256 + h[6] as int == length
            && h[1] as int * 16777216 + h[2] as int * 65536 + h[3] as int * 256 + h[4] as int == sid
  {
    BE32Inverts(sid);
    BE16Inverts(length);
    var s, l := BE32(sid), BE16(length);
    var h := Header(cmd, sid, length) + tail;
    assert |s| == 4 && |l| == 2;
    hide BE32, BE16;
    assert h == [cmd] + s + l + tail;
    assert h[0] == cmd && h[1] == s[0] && h[2] == s[1] && h[3] == s[2] && h[4] == s[3] && h[5] == l[0] && h[6] == l[1];
  }

  // ----- frames ---------------------------------------------------------

  function Encode(f: Frame): (w: seq<byte>)
    requires Fits(f)
    ensures |w| == HEADER_SIZE + |f.data|
  {
    Header(f.cmd, f.sid, |f.data|) + f.data
  }

  predicate AllFit(fs: seq<Frame>) {
    forall f :: f in fs ==> Fits(f)
  }

  function EncodeAll(fs: seq<Frame>): (w: seq<byte>)
    requires AllFit(fs)
  {
    if fs == [] then [] else Encode(fs[0]) + EncodeAll(fs[1..])
  }

  lemma {:induction false} EncodeAllAppend(a: seq<Frame>, b: seq<Frame>)
    requires AllFit(a) && AllFit(b)
    ensures AllFit(a + b) && EncodeAll(a + b) == EncodeAll(a) + EncodeAll(b)
  {
    hide Encode, Fits;
    if a == [] {
      assert a + b == b;
    } else {
      EncodeAllAppend(a[1..], b);
      assert (a + b)[1..] == a[1..] + b;
      var x, y, z := Encode(a[0]), EncodeAll(a[1..]), EncodeAll(b);
      assert x + (y + z) == x + y + z;
    }
  }

  // ----- the receive loop's parser --------------------------------------

  /** Commands whose arm reads no payload at all, whatever the length field says. */
  predicate Undrained(cmd: byte) {
    cmd == CMD_SYN || cmd == CMD_FIN || cmd == CMD_HEART_REQUEST || cmd == CMD_HEART_RESPONSE
  }

  /** An oversized padding scheme ends the loop before its payload is read. */
  predicate Refused(cmd: byte, length: nat) {
    cmd == CMD_UPDATE_PADDING && length > MAX_PADDING_SCHEME
  }

  /** A non-empty alert is delivered and then ends the loop. */
  predicate Final(f: Frame) {
    f.cmd == CMD_ALERT && f.data != []
  }

  /** The frames the receive loop handles from the byte stream `w`; bytes of an
      incomplete frame at the end are left unread. */
  function Receive(w: seq<byte>): (fs: seq<Frame>)
    decreases |w|
  {
    if |w| < HEADER_SIZE then []
    else if Undrained(Cmd(w)) then
      [Frame(Cmd(w), StreamId(w), [])] + Receive(w[HEADER_SIZE..])
    else if Refused(Cmd(w), Length(w)) || |w| < HEADER_SIZE + Length(w) then []
    else
      var f := Frame(Cmd(w), StreamId(w), w[HEADER_SIZE..HEADER_SIZE + Length(w)]);
      if Final(f) then [f] else [f] + Receive(w[HEADER_SIZE + Length(w)..])
  }

  /** What both peers keep: a frame whose arm reads no payload carries none. */
  predicate Sendable(f: Frame) {
    Fits(f) && (Undrained(f.cmd) ==> f.data == [])
  }

  predicate AllSendable(fs: seq<Frame>) {
    forall f :: f in fs ==> Sendable(f)
  }

  /** The part of a frame sequence the peer acts on: everything up to a refused
      padding scheme, or up to and including the first non-empty alert. */
  function Heard(fs: seq<Frame>): (r: seq<Frame>) {
    if fs == [] || Refused(fs[0].cmd, |fs[0].data|) then []
    else if Final(fs[0]) then [fs[0]]
    else [fs[0]] + Heard(fs[1..])
  }

  /** Wire bytes that stop inside a frame: they add nothing. */
  predicate Torn(f: Frame, cut: seq<byte>) {
    Sendable(f) && cut < Encode(f)
  }

  lemma TornIsSilent(f: Frame, cut: seq<byte>)
    requires Torn(f, cut)
    ensures Receive(cut) == []
  {
    if |cut| >= HEADER_SIZE {
      var h := Encode(f);
      HeaderRoundTrip(f.cmd, f.sid, |f.data|, f.data);
      assert forall i :: 0 <= i < HEADER_SIZE ==> cut[i] == h[i];
    }
  }

  lemma ReceiveOne(f: Frame, tail: seq<byte>)
    requires Sendable(f)
    ensures Receive(Encode(f) + tail) ==
            if Refused(f.cmd, |f.data|) then []
            else if Final(f) then [f] else [f] + Receive(tail)
  {
    var w := Encode(f) + tail;
    HeaderRoundTrip(f.cmd, f.sid, |f.data|, f.data + tail);
    assert w == Header(f.cmd, f.sid, |f.data|) + (f.data + tail);
    assert w[HEADER_SIZE + |f.data|..] == tail;
    assert w[HEADER_SIZE..HEADER_SIZE + |f.data|] == f.data;
  }

  /** One frame of any kind at the head of the wire, by its command number: an alert
      with a payload is the last the loop handles; a padding scheme longer than 16384
      is not handled and ends it; SYN, FIN and the two heartbeats leave their payload
      unread; every other frame is handled whole, and the loop goes on behind it. */
  lemma ReceiveAny(f: Frame, tail: seq<byte>)
    requires Fits(f)
    ensures Receive(Encode(f) + tail) ==
            if f.cmd in {1, 3, 8, 9} then [Frame(f.cmd, f.sid, [])] + Receive(f.data + tail)
            else if f.cmd == 6 && |f.data| > 16384 then []
            else if f.cmd == 5 && f.data != [] then [f]
            else [f] + Receive(tail)
  {
    if f.cmd in {1, 3, 8, 9} {
      ReceiveUndrained(f, tail);
    } else {
      hide Receive, Encode;
      ReceiveOne(f, tail);
    }
  }

  lemma ReceiveUndrained(f: Frame, tail: seq<byte>)
    requires Fits(f) && Undrained(f.cmd)
    ensures Receive(Encode(f) + tail) == [Frame(f.cmd, f.sid, [])] + Receive(f.data + tail)
  {
    var w := Encode(f) + tail;
    HeaderRoundTrip(f.cmd, f.sid, |f.data|, f.data + tail);
    assert w == Header(f.cmd, f.sid, |f.data|) + (f.data + tail);
  }

  /** Framing is lossless: whatever whole frames were written, followed by a
      possibly torn last one, the peer's loop handles exactly those frames. */
  lemma {:induction false} ReceiveInvertsEncode(fs: seq<Frame>, last: Frame, cut: seq<byte>)
    requires AllSendable(fs) && Torn(last, cut)
    ensures AllFit(fs) && Receive(EncodeAll(fs) + cut) == Heard(fs)
  {
    if fs == [] {
      assert EncodeAll(fs) + cut == cut;
      TornIsSilent(last, cut);
    } else {
      assert fs[0] in fs;
      ReceiveInvertsEncode(fs[1..], last, cut);
      var tail := EncodeAll(fs[1..]) + cut;
      assert EncodeAll(fs) + cut == Encode(fs[0]) + tail;
      hide EncodeAll, Encode, Receive;
      ReceiveOne(fs[0], tail);
    }
  }

  /** With nothing torn. */
  lemma ReceiveWhole(fs: seq<Frame>)
    requires AllSendable(fs)
    ensures AllFit(fs) && Receive(EncodeAll(fs)) == Heard(fs)
  {
    var f := Frame(CMD_WASTE, 0, []);
    assert Torn(f, []);
    ReceiveInvertsEncode(fs, f, []);
    assert EncodeAll(fs) + [] == EncodeAll(fs);
  }
}
