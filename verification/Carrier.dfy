/** The one frame that opens carrier B, and the server's inspection of it. */
module Carrier {
  import opened Frames

  const TOKEN_LEN := 16
  const PAD_MIN := 128
  const PAD_RANGE := 512
  const MAX_DATA := 4096

  /** The token followed by `filler`, under a cmdMigrateCarrier header. */
  function Opening(sid: nat, token: seq<byte>, filler: seq<byte>): (w: seq<byte>)
    requires sid < 0x1_0000_0000
    requires |token| == TOKEN_LEN && PAD_MIN <= |filler| < PAD_MIN + PAD_RANGE
    ensures |w| == HEADER_SIZE + TOKEN_LEN + |filler| && 151 <= |w| <= 662
  {
    Header(CMD_MIGRATE_CARRIER, sid, TOKEN_LEN + |filler|) + (token + filler)
  }

  /** How the server classifies a fresh connection from its first bytes. */
  datatype Verdict =
    | NeedMore                                    // a ReadFull would still block
    | NotCarrier                                  // header rewound, normal session
    | Rejected                                    // bad length: connection closed
    | Claimed(token: seq<byte>, rest: seq<byte>)  // token, and what is left on B

  function Inspect(w: seq<byte>): (v: Verdict) {
    if |w| < HEADER_SIZE then NeedMore
    else if Cmd(w) != CMD_MIGRATE_CARRIER then NotCarrier
    else if Length(w) < TOKEN_LEN || Length(w) > MAX_DATA then Rejected
    else if |w| < HEADER_SIZE + Length(w) then NeedMore
    else Claimed(w[HEADER_SIZE..HEADER_SIZE + TOKEN_LEN], w[HEADER_SIZE + Length(w)..])
  }

  /** The server strips exactly the opening frame: every following byte stays on
      B, and no proper prefix of the frame is ever taken for a whole one. */
  lemma InspectStripsOpening(sid: nat, token: seq<byte>, filler: seq<byte>, payload: seq<byte>, cut: nat)
    requires sid < 0x1_0000_0000
    requires |token| == TOKEN_LEN && PAD_MIN <= |filler| < PAD_MIN + PAD_RANGE
    requires cut < |Opening(sid, token, filler)|
    ensures Inspect(Opening(sid, token, filler) + payload) == Claimed(token, payload)
    ensures Inspect(Opening(sid, token, filler)[..cut]) == NeedMore
  {
    var n := TOKEN_LEN + |filler|;
    var open := Opening(sid, token, filler);
    var w := open + payload;
    assert w == Header(CMD_MIGRATE_CARRIER, sid, n) + (token + filler + payload);
    HeaderRoundTrip(CMD_MIGRATE_CARRIER, sid, n, token + filler + payload);
    assert w[HEADER_SIZE..HEADER_SIZE + TOKEN_LEN] == token;
    assert w[HEADER_SIZE + n..] == payload;
    if cut >= HEADER_SIZE {
      HeaderRoundTrip(CMD_MIGRATE_CARRIER, sid, n, token + filler);
      assert forall i :: 0 <= i < HEADER_SIZE ==> open[..cut][i] == open[i];
    }
  }

  /** Seen through any prefix that has arrived: claimed exactly when complete. */
  lemma InspectPrefix(sid: nat, token: seq<byte>, filler: seq<byte>, w: seq<byte>)
    requires sid < 0x1_0000_0000
    requires |token| == TOKEN_LEN && PAD_MIN <= |filler| < PAD_MIN + PAD_RANGE
    requires w <= Opening(sid, token, filler)
    ensures Inspect(w).Claimed? <==> w == Opening(sid, token, filler)
    ensures Inspect(w) == if w == Opening(sid, token, filler) then Claimed(token, []) else NeedMore
  {
    var open := Opening(sid, token, filler);
    if |w| < |open| {
      InspectStripsOpening(sid, token, filler, [], |w|);
      assert w == open[..|w|];
    } else {
      InspectStripsOpening(sid, token, filler, [], 0);
      assert w == open + [];
    }
  }

  /** A fresh connection by its first frame, whatever follows: any other command than
      13 is a normal session; a carrier frame is refused unless it holds 16 to 4096
      bytes; and then its first 16 are the token, and everything behind it stays. */
  lemma InspectFirstFrame(f: Frame, tail: seq<byte>)
    requires Fits(f)
    ensures Inspect(Encode(f) + tail) ==
            if f.cmd != 13 then NotCarrier
            else if |f.data| < 16 || |f.data| > 4096 then Rejected
            else Claimed(f.data[..16], tail)
  {
    var w := Encode(f) + tail;
    HeaderRoundTrip(f.cmd, f.sid, |f.data|, f.data + tail);
    assert w == Header(f.cmd, f.sid, |f.data|) + (f.data + tail);
    hide Header;
    if |f.data| >= TOKEN_LEN {
      assert w[HEADER_SIZE..HEADER_SIZE + TOKEN_LEN] == f.data[..TOKEN_LEN];
      assert w[HEADER_SIZE + |f.data|..] == tail;
    }
  }
}
