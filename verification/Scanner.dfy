/** The incremental TLS record scanner: fed one direction's bytes in arbitrary
    fragments, it reports each record once, as soon as its first body byte is
    known. The record format is that of section 5.1 of RFC 8446. */
module Scanner {
  import opened Basics
  import opened Frames

  const HDR_LEN := 5
  /** 2^14 + 2048; a longer declared body is not taken for TLS. */
  const MAX_BODY := 0x4800

  /** One report: outer content type, declared length, first body byte. */
  datatype Rec = Rec(kind: byte, length: nat, first: byte)

  /** The scanner's fields. */
  datatype Scan = Scan(
    hdr: seq<byte>, hdrLen: nat, bodyLeft: nat, recLength: nat, recType: byte,
    firstByte: byte, gotFirst: bool, reported: bool, broken: bool)

  const NEW_SCAN := Scan([0, 0, 0, 0, 0], 0, 0, 0, 0, 0, false, false, false)

  predicate Ok(s: Scan) {
    && |s.hdr| == HDR_LEN && s.hdrLen <= HDR_LEN
    && (s.hdrLen == HDR_LEN && !s.broken ==> s.bodyLeft > 0 && s.gotFirst == s.reported)
  }

  datatype Out = Out(scan: Scan, recs: seq<Rec>)

  function BodyLength(hdr: seq<byte>): nat
    requires |hdr| == HDR_LEN
  {
    hdr[3] as int * 256 + hdr[4] as int
  }

  /** What happens when the five header bytes are complete. */
  function Begin(s: Scan): (o: Out)
    requires |s.hdr| == HDR_LEN && s.hdrLen == HDR_LEN && !s.broken
    ensures Ok(o.scan)
  {
    var n := BodyLength(s.hdr);
    var t := s.(recType := s.hdr[0], recLength := n);
    if n > MAX_BODY then Out(t.(broken := true), [])
    else
      var u := t.(bodyLeft := n, gotFirst := false, reported := false, firstByte := 0);
      if n == 0 then Out(u.(reported := true, hdrLen := 0), [Rec(s.hdr[0], 0, 0)])
      else Out(u, [])
  }

  /** The scanner one byte at a time: the reference for the chunked loop. */
  function OneByte(s: Scan, b: byte): (o: Out)
    requires Ok(s)
    ensures Ok(o.scan)
  {
    if s.broken then Out(s, [])
    else if s.hdrLen < HDR_LEN then
      var t := s.(hdr := s.hdr[s.hdrLen := b], hdrLen := s.hdrLen + 1);
      if t.hdrLen < HDR_LEN then Out(t, []) else Begin(t)
    else
      var t := s.(bodyLeft := s.bodyLeft - 1, hdrLen := if s.bodyLeft == 1 then 0 else HDR_LEN);
      if s.reported then Out(t, [])
      else Out(t.(firstByte := b, gotFirst := true, reported := true), [Rec(s.recType, s.recLength, b)])
  }

  function Feed(s: Scan, p: seq<byte>): (o: Out)
    requires Ok(s)
    ensures Ok(o.scan)
    decreases p
  {
    if p == [] then Out(s, [])
    else
      var a := OneByte(s, p[0]);
      var r := Feed(a.scan, p[1..]);
      Out(r.scan, a.recs + r.recs)
  }

  // ----- fragmentation ---------------------------------------------------

  /** Feeding `p` and then `q` is feeding `p + q`: same fields, same reports. */
  lemma {:induction false} FeedSplit(s: Scan, p: seq<byte>, q: seq<byte>)
    requires Ok(s)
    ensures Feed(s, p + q) ==
            Out(Feed(Feed(s, p).scan, q).scan, Feed(s, p).recs + Feed(Feed(s, p).scan, q).recs)
    decreases p
  {
    hide OneByte, Feed;
    if p == [] {
      FeedNothing(s);
      assert p + q == q;
    } else {
      FeedCons(s, p);
      FeedCons(s, p + q);
      FeedSplit(OneByte(s, p[0]).scan, p[1..], q);
      assert (p + q)[1..] == p[1..] + q;
    }
  }

  lemma FeedNothing(s: Scan)
    requires Ok(s)
    ensures Feed(s, []) == Out(s, [])
  {
  }

  lemma FeedCons(s: Scan, p: seq<byte>)
    requires Ok(s) && p != []
    ensures var a := OneByte(s, p[0]);
            var r := Feed(a.scan, p[1..]);
            Feed(s, p) == Out(r.scan, a.recs + r.recs)
  {
    hide OneByte;
  }

  function FeedEach(s: Scan, ps: seq<seq<byte>>): (o: Out)
    requires Ok(s)
    ensures Ok(o.scan)
    decreases ps
  {
    if ps == [] then Out(s, [])
    else
      var a := Feed(s, ps[0]);
      var r := FeedEach(a.scan, ps[1..]);
      Out(r.scan, a.recs + r.recs)
  }

  /** However a stream is cut into fragments, the scanner ends in the same state
      and reports the same records. */
  lemma {:induction false} FragmentationIndependence(s: Scan, ps: seq<seq<byte>>)
    requires Ok(s)
    ensures FeedEach(s, ps) == Feed(s, Flatten(ps))
    decreases ps
  {
    if ps != [] {
      FragmentationIndependence(Feed(s, ps[0]).scan, ps[1..]);
      FeedSplit(s, ps[0], Flatten(ps[1..]));
    }
  }

  // ----- the reference parser ----------------------------------------------

  /** The records of a whole stream, read off it directly: one per header whose
      first body byte has arrived (or whose body is empty), up to the first
      over-long record. */
  function Parse(w: seq<byte>): (rs: seq<Rec>)
    decreases |w|
  {
    if |w| < HDR_LEN then []
    else
      var n, rest := BodyLength(w[..HDR_LEN]), w[HDR_LEN..];
      if n > MAX_BODY then []
      else if n == 0 then [Rec(w[0], 0, 0)] + Parse(rest)
      else if rest == [] then []
      else [Rec(w[0], n, rest[0])] + if |rest| < n then [] else Parse(rest[n..])
  }

  function Put(hdr: seq<byte>, at: nat, p: seq<byte>): (r: seq<byte>)
    requires at + |p| <= |hdr|
    ensures |r| == |hdr|
  {
    hdr[..at] + p + hdr[at + |p|..]
  }

  /** Header bytes that do not complete the header are only stored. */
  lemma {:induction false} FeedHeader(s: Scan, p: seq<byte>)
    requires Ok(s) && !s.broken && s.hdrLen + |p| < HDR_LEN
    ensures Feed(s, p) == Out(s.(hdr := Put(s.hdr, s.hdrLen, p), hdrLen := s.hdrLen + |p|), [])
    decreases p
  {
    if p == [] {
      assert Put(s.hdr, s.hdrLen, p) == s.hdr;
    } else {
      var t := OneByte(s, p[0]).scan;
      FeedHeader(t, p[1..]);
      assert Put(t.hdr, t.hdrLen, p[1..]) == Put(s.hdr, s.hdrLen, p);
    }
  }

  /** Completing the header. */
  lemma FeedWholeHeader(s: Scan, p: seq<byte>)
    requires Ok(s) && !s.broken && p != [] && s.hdrLen + |p| == HDR_LEN
    ensures Feed(s, p) == Begin(s.(hdr := Put(s.hdr, s.hdrLen, p), hdrLen := HDR_LEN))
  {
    var k := |p| - 1;
    var init, last := p[..k], [p[k]];
    var t := s.(hdr := Put(s.hdr, s.hdrLen, init), hdrLen := HDR_LEN - 1);
    assert p == init + last;
    assert t.hdr[t.hdrLen := p[k]] == Put(s.hdr, s.hdrLen, p);
    hide Feed, OneByte, Begin, Put;
    FeedSplit(s, init, last);
    FeedHeader(s, init);
    FeedOne(t, p[k]);
    LastHeaderByte(t, p[k]);
    assert [] + Begin(t.(hdr := t.hdr[t.hdrLen := p[k]], hdrLen := HDR_LEN)).recs
        == Begin(t.(hdr := t.hdr[t.hdrLen := p[k]], hdrLen := HDR_LEN)).recs;
  }

  lemma FeedOne(s: Scan, b: byte)
    requires Ok(s)
    ensures Feed(s, [b]) == OneByte(s, b)
  {
    hide OneByte;
    assert [b][1..] == [];
    FeedNothing(OneByte(s, b).scan);
  }

  lemma LastHeaderByte(s: Scan, b: byte)
    requires Ok(s) && !s.broken && s.hdrLen == HDR_LEN - 1
    ensures OneByte(s, b) == Begin(s.(hdr := s.hdr[s.hdrLen := b], hdrLen := HDR_LEN))
  {
    hide Begin;
  }

  /** Body bytes of a reported record are only counted. */
  lemma {:induction false} FeedBody(s: Scan, p: seq<byte>)
    requires Ok(s) && !s.broken && s.hdrLen == HDR_LEN && s.reported && |p| <= s.bodyLeft
    ensures Feed(s, p) ==
            Out(s.(bodyLeft := s.bodyLeft - |p|, hdrLen := if |p| == s.bodyLeft then 0 else HDR_LEN), [])
    decreases p
  {
    if p != [] {
      var t := OneByte(s, p[0]).scan;
      if |p| == 1 {
        assert p[1..] == [];
      } else {
        FeedBody(t, p[1..]);
      }
    }
  }

  /** The first body byte reports the record. */
  lemma FeedFirst(s: Scan, p: seq<byte>)
    requires Ok(s) && !s.broken && s.hdrLen == HDR_LEN && !s.reported && 0 < |p| <= s.bodyLeft
    ensures Feed(s, p) ==
            Out(s.(bodyLeft := s.bodyLeft - |p|, hdrLen := if |p| == s.bodyLeft then 0 else HDR_LEN,
                   firstByte := p[0], gotFirst := true, reported := true),
                [Rec(s.recType, s.recLength, p[0])])
  {
    var t := OneByte(s, p[0]).scan;
    if |p| == 1 {
      assert p[1..] == [];
    } else {
      FeedBody(t, p[1..]);
    }
  }

  lemma {:induction false} BrokenIsSilent(s: Scan, p: seq<byte>)
    requires Ok(s) && s.broken
    ensures Feed(s, p) == Out(s, [])
  {
    if p != [] {
      BrokenIsSilent(s, p[1..]);
    }
  }

  /** From a record boundary, the scanner reports exactly what the reference
      parser reads, each record once and in order. */
  lemma {:induction false} ScanIsParse(s: Scan, w: seq<byte>)
    requires Ok(s) && !s.broken && s.hdrLen == 0
    ensures Feed(s, w).recs == Parse(w)
    decreases |w|
  {
    if |w| < HDR_LEN {
      FeedHeader(s, w);
    } else {
      ScanHeader(s, w);
    }
  }

  lemma {:induction false} ScanHeader(s: Scan, w: seq<byte>)
    requires Ok(s) && !s.broken && s.hdrLen == 0 && |w| >= HDR_LEN
    ensures Feed(s, w).recs == Parse(w)
    decreases |w|, 0
  {
    hide Feed, OneByte, Parse, Begin;
    var h, rest := w[..HDR_LEN], w[HDR_LEN..];
    var o := ScanSplit(s, w);
    ParseHead(w);
    Begun(s.(hdr := h, hdrLen := HDR_LEN));
    var n := BodyLength(h);
    if n > MAX_BODY {
      BrokenIsSilent(o.scan, rest);
    } else if n == 0 {
      ScanIsParse(o.scan, rest);
    } else if rest != [] {
      ScanBody(o.scan, rest, n);
    } else {
      FeedNothing(o.scan);
    }
  }

  /** The first step of the parse, in terms of what follows the header. */
  lemma ParseHead(w: seq<byte>)
    requires |w| >= HDR_LEN
    ensures var n, rest := BodyLength(w[..HDR_LEN]), w[HDR_LEN..];
            Parse(w) == if n > MAX_BODY then []
                        else if n == 0 then [Rec(w[0], 0, 0)] + Parse(rest)
                        else if rest == [] then []
                        else [Rec(w[0], n, rest[0])] + if |rest| < n then [] else Parse(rest[n..])
  {
  }

  /** Where a complete header leaves the scanner. */
  lemma Begun(s: Scan)
    requires |s.hdr| == HDR_LEN && s.hdrLen == HDR_LEN && !s.broken
    ensures var n, o := BodyLength(s.hdr), Begin(s);
            if n > MAX_BODY then o.recs == [] && o.scan.broken
            else if n == 0 then o.recs == [Rec(s.hdr[0], 0, 0)] && !o.scan.broken && o.scan.hdrLen == 0
            else && o.recs == [] && !o.scan.broken && o.scan.hdrLen == HDR_LEN && !o.scan.reported
                 && o.scan.bodyLeft == o.scan.recLength == n && o.scan.recType == s.hdr[0]
  {
  }

  lemma ScanSplit(s: Scan, w: seq<byte>) returns (o: Out)
    requires Ok(s) && !s.broken && s.hdrLen == 0 && |w| >= HDR_LEN
    ensures o == Begin(s.(hdr := w[..HDR_LEN], hdrLen := HDR_LEN))
    ensures Feed(s, w).recs == o.recs + Feed(o.scan, w[HDR_LEN..]).recs
  {
    hide Feed, OneByte, Begin;
    var h, rest := w[..HDR_LEN], w[HDR_LEN..];
    assert w == h + rest;
    FeedSplit(s, h, rest);
    FeedWholeHeader(s, h);
    assert Put(s.hdr, 0, h) == h;
    o := Begin(s.(hdr := h, hdrLen := HDR_LEN));
  }

  lemma {:induction false} ScanBody(s: Scan, rest: seq<byte>, n: nat)
    requires Ok(s) && !s.broken && s.hdrLen == HDR_LEN && !s.reported && rest != []
    requires s.bodyLeft == s.recLength == n
    ensures Feed(s, rest).recs == [Rec(s.recType, n, rest[0])] + if |rest| < n then [] else Parse(rest[n..])
    decreases |rest|
  {
    if |rest| < n {
      FeedFirst(s, rest);
    } else {
      var a, b := rest[..n], rest[n..];
      assert rest == a + b;
      FeedSplit(s, a, b);
      FeedFirst(s, a);
      ScanIsParse(Feed(s, a).scan, b);
    }
  }

  /** Any fragmentation of a stream, fed to a new scanner, yields its parse. */
  lemma ReportsAreTheParse(ps: seq<seq<byte>>)
    ensures FeedEach(NEW_SCAN, ps).recs == Parse(Flatten(ps))
  {
    FragmentationIndependence(NEW_SCAN, ps);
    ScanIsParse(NEW_SCAN, Flatten(ps));
  }

  // ----- records as the protocol writes them ------------------------------------

  /** A record on the wire: content type, protocol version, body length with the
      most significant byte first, body. */
  function RecordBytes(kind: byte, major: byte, minor: byte, body: seq<byte>): (w: seq<byte>)
    requires |body| < 65536
    ensures |w| == 5 + |body|
  {
    [kind, major, minor, |body| / 256, |body| % 256] + body
  }

  lemma RecordHead(kind: byte, major: byte, minor: byte, body: seq<byte>, tail: seq<byte>, k: nat)
    requires |body| < 65536 && 5 <= k <= 5 + |body| + |tail|
    ensures var w := (RecordBytes(kind, major, minor, body) + tail)[..k];
            w[0] == kind && BodyLength(w[..HDR_LEN]) == |body| && w[HDR_LEN..] == (body + tail)[..k - 5]
  {
    var w := RecordBytes(kind, major, minor, body) + tail;
    assert w == [kind, major, minor, |body| / 256, |body| % 256] + (body + tail);
    assert w[..k][..HDR_LEN] == [kind, major, minor, |body| / 256, |body| % 256];
    assert w[..k][HDR_LEN..] == (body + tail)[..k - 5];
  }

  /** A whole record is reported once, with its type, length and first body byte (0 if
      it has none), and the parse goes on behind it; one with more than 18432 bytes
      ends it. */
  lemma ParseRecord(kind: byte, major: byte, minor: byte, body: seq<byte>, tail: seq<byte>)
    requires |body| < 65536
    ensures Parse(RecordBytes(kind, major, minor, body) + tail) ==
            if |body| > 18432 then []
            else [Rec(kind, |body|, if body == [] then 0 else body[0])] + Parse(tail)
  {
    var w := RecordBytes(kind, major, minor, body) + tail;
    assert w[..|w|] == w && (body + tail)[..|w| - 5] == body + tail;
    RecordHead(kind, major, minor, body, tail, |w|);
    ParseHead(w);
    assert (body + tail)[|body|..] == tail;
    assert body == [] ==> body + tail == tail;
  }

  /** A record cut off inside: reported as soon as its first body byte is there, not
      before. */
  lemma ParseCut(kind: byte, major: byte, minor: byte, body: seq<byte>, k: nat)
    requires |body| <= 18432 && k < 5 + |body|
    ensures Parse(RecordBytes(kind, major, minor, body)[..k]) == if k <= 5 then [] else [Rec(kind, |body|, body[0])]
  {
    var r := RecordBytes(kind, major, minor, body);
    if k >= 5 {
      RecordHead(kind, major, minor, body, [], k);
      assert r + [] == r && body + [] == body;
      ParseHead(r[..k]);
    }
  }

  // ----- the scanner object -------------------------------------------------

  /** One more piece fed. */
  lemma FeedOn(s: Scan, p: seq<byte>, i: nat, n: nat, a: Out, b: Out)
    requires Ok(s) && Ok(a.scan) && i <= |p| && n <= |p| - i
    requires Feed(s, p[..i]) == a && Feed(a.scan, p[i..][..n]) == b
    ensures Feed(s, p[..i + n]) == Out(b.scan, a.recs + b.recs)
  {
    hide Feed;
    FeedSplit(s, p[..i], p[i..][..n]);
    assert p[..i] + p[i..][..n] == p[..i + n];
  }

  /** Nothing is left to feed, or nothing that changes anything. */
  lemma FeedRest(s: Scan, p: seq<byte>, i: nat, a: Out)
    requires Ok(s) && Ok(a.scan) && i <= |p| && Feed(s, p[..i]) == a
    requires i == |p| || a.scan.broken
    ensures Feed(s, p) == a
  {
    hide Feed;
    FeedSplit(s, p[..i], p[i..]);
    assert p[..i] + p[i..] == p && a.recs + [] == a.recs;
    if a.scan.broken {
      BrokenIsSilent(a.scan, p[i..]);
    } else {
      FeedNothing(a.scan);
      assert p[i..] == [];
    }
  }

  class RecordScanner {
    const hdr: array<byte>
    var hdrLen: nat
    var bodyLeft: nat
    var recLength: nat
    var recType: byte
    var firstByte: byte
    var gotFirst: bool
    var reported: bool
    var broken: bool

    ghost function View(): Scan
      reads this, hdr
    {
      Scan(hdr[..], hdrLen, bodyLeft, recLength, recType, firstByte, gotFirst, reported, broken)
    }

    constructor ()
      ensures View() == NEW_SCAN && fresh(hdr)
    {
      hdr := new byte[HDR_LEN](_ => 0);
      hdrLen, bodyLeft, recLength, recType, firstByte := 0, 0, 0, 0, 0;
      gotFirst, reported, broken := false, false, false;
      new;
      assert hdr[..] == [0, 0, 0, 0, 0];
    }

    /** Copies what fits of p into the header. */
    method CopyHeader(p: seq<byte>) returns (n: nat)
      requires Ok(View()) && !broken && hdrLen < HDR_LEN && p != []
      modifies `hdrLen, hdr
      ensures n == if |p| < HDR_LEN - old(hdrLen) then |p| else HDR_LEN - old(hdrLen)
      ensures View() == old(View()).(hdr := Put(old(hdr[..]), old(hdrLen), p[..n]), hdrLen := old(hdrLen) + n)
    {
      n := if |p| < HDR_LEN - hdrLen then |p| else HDR_LEN - hdrLen;
      ghost var h := hdr[..];
      forall i | 0 <= i < n {
        hdr[hdrLen + i] := p[i];
      }
      assert hdr[..] == Put(h, hdrLen, p[..n]);
      hdrLen := hdrLen + n;
    }

    /** All five bytes are in: start the record, or report it if it is empty. */
    method StartRecord() returns (rep: seq<Rec>)
      requires |hdr[..]| == HDR_LEN && hdrLen == HDR_LEN && !broken
      modifies this
      ensures Begin(old(View())) == Out(View(), rep)
    {
      rep := [];
      recType := hdr[0];
      recLength := hdr[3] as int * 256 + hdr[4] as int;
      if recLength > MAX_BODY {
        broken := true;
        return;
      }
      bodyLeft := recLength;
      gotFirst, reported, firstByte := false, false, 0;
      if recLength == 0 {
        rep := [Rec(recType, 0, 0)];
        reported := true;
        hdrLen := 0;
      }
    }

    /** The header branch of the loop: copy what fits, and start the record when
        all five bytes are in. `rep` holds the report of an empty record. */
    method TakeHeader(p: seq<byte>) returns (n: nat, rep: seq<Rec>)
      requires Ok(View()) && !broken && hdrLen < HDR_LEN && p != []
      modifies this, hdr
      ensures 0 < n <= |p| && Ok(View())
      ensures Feed(old(View()), p[..n]) == Out(View(), rep)
    {
      ghost var s := View();
      n := CopyHeader(p);
      hide Feed, OneByte, Begin, Put;
      rep := [];
      if hdrLen < HDR_LEN {
        FeedHeader(s, p[..n]);
        return;
      }
      FeedWholeHeader(s, p[..n]);
      rep := StartRecord();
    }

    /** The body branch: skip what is there of the body. */
    method TakeBody(p: seq<byte>) returns (n: nat, rep: seq<Rec>)
      requires Ok(View()) && !broken && hdrLen == HDR_LEN && p != []
      modifies this
      ensures 0 < n <= |p| && Ok(View())
      ensures Feed(old(View()), p[..n]) == Out(View(), rep)
      ensures broken == old(broken)
    {
      hide Feed, OneByte;
      ghost var s := View();
      n := if bodyLeft > |p| then |p| else bodyLeft;
      if reported {
        FeedBody(s, p[..n]);
      } else {
        FeedFirst(s, p[..n]);
      }
      if !gotFirst {
        firstByte := p[0];
        gotFirst := true;
      }
      rep := [];
      if !reported {
        rep := [Rec(recType, recLength, firstByte)];
        reported := true;
      }
      bodyLeft := bodyLeft - n;
      if bodyLeft == 0 {
        hdrLen := 0;
      }
    }

    /** feed: chunk by chunk over `p`, with the reports in the order onRecord
        is invoked. */
    method FeedAll(p: seq<byte>) returns (recs: seq<Rec>)
      requires Ok(View())
      modifies this, hdr
      ensures Ok(View()) && Feed(old(View()), p) == Out(View(), recs)
    {
      recs := [];
      var i := 0;
      assert p[..0] == [];
      assert Feed(View(), []) == Out(View(), []);
      hide Feed, OneByte;
      while i < |p| && !broken
        invariant i <= |p| && Ok(View())
        invariant Feed(old(View()), p[..i]) == Out(View(), recs)
      {
        ghost var s := View();
        var n, rep;
        if hdrLen < HDR_LEN {
          n, rep := TakeHeader(p[i..]);
        } else {
          n, rep := TakeBody(p[i..]);
        }
        FeedOn(old(View()), p, i, n, Out(s, recs), Out(View(), rep));
        i := i + n;
        recs := recs + rep;
      }
      FeedRest(old(View()), p, i, Out(View(), recs));
    }
  }
}
