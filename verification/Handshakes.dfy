/** The TLS path of the detector over whole runs: authorised exactly when the
    records show a handshake and enough downlink follows it. */
module Handshakes {
  import opened Frames
  import opened Scanner
  import opened Detector

  // ----- what the records show, said of the record list alone ------------------------

  /** The index of the first server record, or the length if there is none. */
  function FirstServer(log: seq<Event>): (i: nat)
    ensures i <= |log| && (i < |log| ==> log[i].ServerRec?)
    ensures forall j :: 0 <= j < i ==> log[j].ClientRec?
  {
    if log == [] then 0
    else
      var n := |log| - 1;
      var i := FirstServer(log[..n]);
      if i < n || log[n].ServerRec? then i else n + 1
  }

  lemma FirstServerSnoc(log: seq<Event>, e: Event)
    ensures FirstServer(log + [e]) ==
            if FirstServer(log) < |log| || e.ServerRec? then FirstServer(log) else |log| + 1
  {
    assert (log + [e])[..|log|] == log;
  }

  /** The server's first record is its ServerHello, and by some point behind it a
      further server record and a client record have come, with no further 0x16
      from the server up to there. */
  ghost predicate Completes(log: seq<Event>) {
    exists e :: Handshake(log, FirstServer(log), e)
  }

  // ----- the same, kept up record by record -------------------------------------------

  datatype Progress =
    | NoHello                            // no server record yet
    | Half(server: bool, client: bool)   // ServerHello, and which flights have begun
    | Complete
    | Ruined                             // no continuation completes

  function Advance(p: Progress, e: Event): (q: Progress) {
    match p
    case NoHello => if e.ClientRec? then p else if IsHello(e) then Half(false, false) else Ruined
    case Half(s, c) =>
      if e.ServerRec? && e.r.kind == REC_HANDSHAKE then Ruined
      else if (s || e.ServerRec?) && (c || e.ClientRec?) then Complete
      else Half(s || e.ServerRec?, c || e.ClientRec?)
    case _ => p
  }

  function Track(log: seq<Event>): (p: Progress) {
    if log == [] then NoHello else Advance(Track(log[..|log| - 1]), log[|log| - 1])
  }

  lemma TrackSnoc(log: seq<Event>, e: Event)
    ensures Track(log + [e]) == Advance(Track(log), e)
  {
    assert (log + [e])[..|log|] == log;
  }

  /** A second server handshake record at j, before both flights were in. */
  predicate Spoilt(log: seq<Event>, i: nat, j: nat) {
    && i < j < |log| && log[j].ServerRec? && log[j].r.kind == REC_HANDSHAKE
    && !(ServerAfter(log, i, j - 1) && ClientAfter(log, i, j - 1))
  }

  /** What each stage of the bookkeeping says of the list. */
  ghost predicate Says(p: Progress, log: seq<Event>) {
    var i := FirstServer(log);
    match p
    case NoHello => i == |log|
    case Half(s, c) =>
      && i < |log| && IsHello(log[i]) && CleanAfter(log, i, |log| - 1) && !(s && c)
      && (s <==> ServerAfter(log, i, |log| - 1)) && (c <==> ClientAfter(log, i, |log| - 1))
    case Complete => exists e :: Handshake(log, i, e)
    case Ruined => i < |log| && (!IsHello(log[i]) || exists j :: Spoilt(log, i, j))
  }

  /** The predicates look only at the records up to where they end. */
  lemma Extended(log: seq<Event>, x: Event, i: nat, e: nat)
    requires e < |log|
    ensures ServerAfter(log + [x], i, e) <==> ServerAfter(log, i, e)
    ensures ClientAfter(log + [x], i, e) <==> ClientAfter(log, i, e)
    ensures CleanAfter(log + [x], i, e) <==> CleanAfter(log, i, e)
  {
    var l := log + [x];
    assert forall m :: 0 <= m < |log| ==> l[m] == log[m];
    if ServerAfter(log, i, e) {
      var m :| i < m <= e < |log| && log[m].ServerRec?;
      assert l[m].ServerRec?;
    }
    if ClientAfter(log, i, e) {
      var m :| i < m <= e < |log| && log[m].ClientRec?;
      assert l[m].ClientRec?;
    }
    if CleanAfter(l, i, e) {
      forall m | i < m <= e < |log| && log[m].ServerRec? ensures log[m].r.kind != REC_HANDSHAKE {
        assert l[m] == log[m];
      }
    }
  }

  lemma OneMore(log: seq<Event>, x: Event, i: nat)
    requires i < |log|
    ensures var l, n := log + [x], |log|;
            && (ServerAfter(l, i, n) <==> ServerAfter(log, i, n - 1) || x.ServerRec?)
            && (ClientAfter(l, i, n) <==> ClientAfter(log, i, n - 1) || x.ClientRec?)
            && (CleanAfter(l, i, n) <==> CleanAfter(log, i, n - 1) && !(x.ServerRec? && x.r.kind == REC_HANDSHAKE))
  {
    var l, n := log + [x], |log|;
    Extended(log, x, i, n - 1);
    assert l[n] == x;
    if ServerAfter(l, i, n) {
      var m :| i < m <= n < |l| && l[m].ServerRec?;
      assert m == n || ServerAfter(l, i, n - 1);
    }
    if ServerAfter(l, i, n - 1) {
      var m :| i < m <= n - 1 < |l| && l[m].ServerRec?;
    }
    if ClientAfter(l, i, n) {
      var m :| i < m <= n < |l| && l[m].ClientRec?;
      assert m == n || ClientAfter(l, i, n - 1);
    }
    if ClientAfter(l, i, n - 1) {
      var m :| i < m <= n - 1 < |l| && l[m].ClientRec?;
    }
  }

  lemma SaysNext(p: Progress, log: seq<Event>, x: Event)
    requires Says(p, log)
    ensures Says(Advance(p, x), log + [x])
  {
    var l, i := log + [x], FirstServer(log);
    FirstServerSnoc(log, x);
    assert l[|log|] == x && forall m :: 0 <= m < |log| ==> l[m] == log[m];
    hide FirstServer, ServerAfter, ClientAfter, CleanAfter;
    match p
    case NoHello => HelloNext(log, x);
    case Half(s, c) => HalfNext(p, log, x);
    case Complete =>
      var e :| Handshake(log, i, e);
      Extended(log, x, i, e);
      assert Handshake(l, i, e);
    case Ruined =>
      if IsHello(log[i]) {
        var j: nat :| Spoilt(log, i, j);
        Extended(log, x, i, j - 1);
        assert Spoilt(l, i, j);
      }
  }

  lemma HelloNext(log: seq<Event>, x: Event)
    requires Says(NoHello, log)
    ensures Says(Advance(NoHello, x), log + [x])
  {
    FirstServerSnoc(log, x);
    assert (log + [x])[|log|] == x;
  }

  lemma HalfNext(p: Progress, log: seq<Event>, x: Event)
    requires p.Half? && Says(p, log)
    ensures Says(Advance(p, x), log + [x])
  {
    var l, i, n := log + [x], FirstServer(log), |log|;
    FirstServerSnoc(log, x);
    OneMore(log, x, i);
    Extended(log, x, i, n - 1);
    assert l[n] == x && l[i] == log[i];
    hide FirstServer, ServerAfter, ClientAfter, CleanAfter;
    var q := Advance(p, x);
    if q.Complete? {
      assert Handshake(l, i, n);
    } else if q.Ruined? {
      assert Spoilt(l, i, n);
    }
  }

  lemma {:induction false} TrackSays(log: seq<Event>)
    ensures Says(Track(log), log)
  {
    if log != [] {
      var n := |log| - 1;
      TrackSays(log[..n]);
      SaysNext(Track(log[..n]), log[..n], log[n]);
      assert log == log[..n] + [log[n]];
    }
  }

  /** A spoilt list completes nowhere. */
  lemma SpoiltNeverCompletes(log: seq<Event>, i: nat, j: nat, e: nat)
    requires Spoilt(log, i, j)
    ensures !Handshake(log, i, e)
  {
  }

  /** The bookkeeping is right in both directions. */
  lemma TrackIsExact(log: seq<Event>)
    ensures Track(log) == Complete <==> Completes(log)
  {
    TrackSays(log);
    var i := FirstServer(log);
    if Completes(log) {
      var e :| Handshake(log, i, e);
      match Track(log)
      case NoHello =>
      case Half(s, c) => BothFlights(log, i, e);
      case Complete =>
      case Ruined =>
        if IsHello(log[i]) {
          var j: nat :| Spoilt(log, i, j);
          SpoiltNeverCompletes(log, i, j, e);
        }
    }
  }

  lemma BothFlights(log: seq<Event>, i: nat, e: nat)
    requires Handshake(log, i, e)
    ensures ServerAfter(log, i, |log| - 1) && ClientAfter(log, i, |log| - 1)
  {
    var m :| i < m <= e < |log| && log[m].ServerRec?;
    var c :| i < c <= e < |log| && log[c].ClientRec?;
    assert m <= |log| - 1 && c <= |log| - 1;
  }

  // ----- the detector follows the bookkeeping ------------------------------------------

  /** The detector, on the TLS path, against the records reported since. */
  predicate Follows(d: Det, p: Progress) {
    match p
    case NoHello => d.phase == ClientHello && d.serverFlight == 0 && !d.clientFlight
    case Half(s, c) => d.phase == ServerHello && (s <==> d.serverFlight >= 1) && (c <==> d.clientFlight)
    case Complete => d.phase == HandshakeDone || d.phase == Ready
    case Ruined => d.phase == Aborted
  }

  lemma OnFollows(d: Det, p: Progress, e: Event)
    requires Follows(d, p)
    ensures Follows(On(d, e), Advance(p, e))
    ensures On(d, e).phase == Ready ==> d.phase == Ready
    ensures On(d, e).phase == HandshakeDone ==> d.phase == HandshakeDone || On(d, e).sinceDone == 0
  {
  }

  lemma {:induction false} OnAllFollows(d: Det, log: seq<Event>, es: seq<Event>)
    requires Follows(d, Track(log))
    ensures var r := OnAll(d, es);
            && Follows(r, Track(log + es)) && (r.phase == Ready ==> d.phase == Ready)
            && (r.phase == HandshakeDone ==> d.phase == HandshakeDone || r.sinceDone == 0)
    decreases es
  {
    hide On, Advance, Follows, Track;
    if es == [] {
      assert log + es == log;
    } else {
      OnFollows(d, Track(log), es[0]);
      TrackSnoc(log, es[0]);
      OnAllFollows(On(d, es[0]), log + [es[0]], es[1..]);
      assert log + [es[0]] + es[1..] == log + es;
      OnAllDone(d, es);
    }
  }

  lemma {:induction false} OnAllDone(d: Det, es: seq<Event>)
    requires es != []
    ensures OnAll(d, es) == OnAll(On(d, es[0]), es[1..])
    ensures On(d, es[0]).phase == HandshakeDone ==> OnAll(On(d, es[0]), es[1..]) == On(d, es[0])
  {
    hide On;
    if On(d, es[0]).phase == HandshakeDone {
      DoneIgnores(On(d, es[0]), es[1..]);
    }
  }

  lemma {:induction false} DoneIgnores(d: Det, es: seq<Event>)
    requires d.phase == HandshakeDone
    ensures OnAll(d, es) == d
    decreases es
  {
    if es != [] {
      DoneIgnores(d, es[1..]);
    }
  }

  /** One observation: the records it reports are added, and only downlink given in
      HandshakeDone moves the gate. */
  lemma ObserveFollows(d: Det, log: seq<Event>, o: Obs)
    requires Sound(d) && Follows(d, Track(log)) && (d.phase == HandshakeDone ==> d.sinceDone < d.minBulk)
    ensures var r := Observe(d, o);
            && Follows(r, Track(log + Events(d, o))) && r.minBulk == d.minBulk
            && (r.phase == Ready && d.phase != Ready ==> Behind(d) + Late(Track(log), o) >= d.minBulk)
  {
    hide OnAll, Feed, Track;
    ObserveKeepsConfig(d, o);
    if Scans(d, o) {
      hide Events;
      OnAllFollows(Scanned(d, o), log, Events(d, o));
    } else {
      assert log + [] == log;
    }
  }

  /** How much of the gate is behind. */
  function Behind(d: Det): (n: nat) {
    if d.phase == HandshakeDone then d.sinceDone else 0
  }

  /** What an observation adds to the downlink of later calls. */
  function Late(p: Progress, o: Obs): (n: nat) {
    if p == Complete && o.Down? then |o.p| else 0
  }

  /** The downlink volume of the calls made after the one whose records completed the
      handshake. */
  function LateDown(d: Det, log: seq<Event>, os: seq<Obs>): (n: nat)
    requires Sound(d)
    decreases os
  {
    if os == [] then 0
    else Late(Track(log), os[0]) + LateDown(Observe(d, os[0]), log + Events(d, os[0]), os[1..])
  }

  lemma {:induction false} TlsRunExact(d: Det, log: seq<Event>, os: seq<Obs>)
    requires Sound(d) && Follows(d, Track(log)) && d.minBulk > 0
    requires d.phase == HandshakeDone ==> d.sinceDone < d.minBulk
    requires d.phase != Ready
    ensures Run(d, os).phase == Ready <==> Behind(d) + LateDown(d, log, os) >= d.minBulk
    decreases os
  {
    hide Observe, Events, Track, Late, Behind;
    if os == [] {
      NotYet(d);
    } else {
      ObserveFollows(d, log, os[0]);
      var d', log' := Observe(d, os[0]), log + Events(d, os[0]);
      if d'.phase == Ready {
        VerdictIsFinal(d', os[1..]);
      } else {
        Carry(d, log, os[0]);
        TlsRunExact(d', log', os[1..]);
      }
    }
  }

  lemma NotYet(d: Det)
    requires d.minBulk > 0 && (d.phase == HandshakeDone ==> d.sinceDone < d.minBulk)
    ensures Behind(d) < d.minBulk
  {
  }

  /** Short of Ready, what is behind carries over exactly. */
  lemma Carry(d: Det, log: seq<Event>, o: Obs)
    requires Sound(d) && Follows(d, Track(log)) && d.minBulk > 0
    requires d.phase == HandshakeDone ==> d.sinceDone < d.minBulk
    requires d.phase != Ready && Observe(d, o).phase != Ready
    ensures var r := Observe(d, o);
            && Behind(r) == Behind(d) + Late(Track(log), o) && r.minBulk == d.minBulk
            && (r.phase == HandshakeDone ==> r.sinceDone < r.minBulk)
  {
    hide OnAll, Feed, Track;
    ObserveKeepsConfig(d, o);
    if Scans(d, o) {
      hide Events;
      OnAllFollows(Scanned(d, o), log, Events(d, o));
    }
  }

  /** No observation before the first uplink payload; then one that begins with 0x16:
      only client records so far. */
  lemma {:induction false} ClientOnly(rs: seq<Rec>, d: Det)
    requires d.phase == ClientHello
    ensures Track(FromClient(rs)) == NoHello && OnAll(d, FromClient(rs)) == d
  {
    if rs != [] {
      var n := |rs| - 1;
      ClientOnly(rs[..n], d);
      assert FromClient(rs)[..n] == FromClient(rs[..n]);
      ClientIgnored(d, FromClient(rs));
    }
  }

  lemma {:induction false} ClientIgnored(d: Det, es: seq<Event>)
    requires d.phase == ClientHello && forall e :: e in es ==> e.ClientRec?
    ensures OnAll(d, es) == d
    decreases es
  {
    if es != [] {
      assert es[0] in es;
      ClientIgnored(d, es[1..]);
    }
  }

  /** A flow whose first uplink payload byte is 0x16 is authorised exactly when the
      records reported since show the handshake and the downlink volume of the calls
      after the one that completed it reaches the gate. */
  lemma TlsFlowExact(minBulk: int, tlsOnly: bool, before: seq<Obs>, p: seq<byte>, after: seq<Obs>)
    requires forall o :: o in before && o.Up? ==> o.p == []
    requires p != [] && p[0] == REC_HANDSHAKE
    ensures var d0 := Run(NewDet(minBulk, tlsOnly), before);
            var d1, log := Observe(d0, Up(p)), Events(d0, Up(p));
            Run(NewDet(minBulk, tlsOnly), before + [Up(p)] + after).phase == Ready <==>
              Completes(log + Log(d1, after)) && LateDown(d1, log, after) >= ResolveMinBulk(minBulk)
  {
    var d := NewDet(minBulk, tlsOnly);
    InitWaits(d, before);
    RunSplit(d, before, [Up(p)] + after);
    assert before + [Up(p)] + after == before + ([Up(p)] + after);
    var os := [Up(p)] + after;
    assert os[0] == Up(p) && os[1..] == after;
    var d0 := Run(d, before);
    RunKeepsPaths(d, before);
    Begins(d0, p);
    var d1, log := Observe(d0, Up(p)), Events(d0, Up(p));
    hide Observe, Events;
    TlsRunExact(d1, log, after);
    LateNeedsHandshake(d1, log, after);
    TrackIsExact(log + Log(d1, after));
  }

  lemma Begins(d: Det, p: seq<byte>)
    requires Sound(d) && Paths(d) && d.phase == Init && p != [] && p[0] == REC_HANDSHAKE
    ensures var d1 := Observe(d, Up(p));
            && d1.phase == ClientHello && d1.minBulk == d.minBulk && Follows(d1, Track(Events(d, Up(p))))
  {
    hide Feed, Track, OnAll;
    ClientOnly(Feed(d.up, p).recs, Scanned(d, Up(p)));
  }

  /** Downlink counts only once the handshake is in the records. */
  lemma {:induction false} LateNeedsHandshake(d: Det, log: seq<Event>, os: seq<Obs>)
    requires Sound(d)
    ensures LateDown(d, log, os) > 0 ==> Track(log + Log(d, os)) == Complete
    decreases os
  {
    hide Observe, Events, Track;
    if os != [] {
      var d', log' := Observe(d, os[0]), log + Events(d, os[0]);
      LateNeedsHandshake(d', log', os[1..]);
      assert log' + Log(d', os[1..]) == log + Log(d, os);
      if Track(log) == Complete {
        CompleteStays(log, Log(d, os));
      }
    }
  }

  lemma {:induction false} CompleteStays(log: seq<Event>, es: seq<Event>)
    requires Track(log) == Complete
    ensures Track(log + es) == Complete
    decreases |es|
  {
    if es == [] {
      assert log + es == log;
    } else {
      var n := |es| - 1;
      CompleteStays(log, es[..n]);
      TrackSnoc(log + es[..n], es[n]);
      assert log + es == log + es[..n] + [es[n]];
    }
  }

  // ----- a flow in bytes ------------------------------------------------------------------

  /** One whole record fed to a detector that still scans and stands at a record boundary
      of that direction. */
  lemma OneRecord(d: Det, up: bool, kind: byte, major: byte, minor: byte, body: seq<byte>)
    requires Sound(d) && 0 < |body| <= 18432 && (d.phase == ClientHello || d.phase == ServerHello)
    requires var s := if up then d.up else d.down; s.hdrLen == 0 && !s.broken
    ensures var w, rec := RecordBytes(kind, major, minor, body), Rec(kind, |body|, body[0]);
            var s := Feed(if up then d.up else d.down, w).scan;
            && s.hdrLen == 0 && !s.broken
            && Observe(d, if up then Up(w) else Down(w)) ==
               On(if up then d.(up := s) else d.(down := s), if up then ClientRec(rec) else ServerRec(rec))
  {
    var w, rec := RecordBytes(kind, major, minor, body), Rec(kind, |body|, body[0]);
    var o := if up then Up(w) else Down(w);
    FedRecord(if up then d.up else d.down, kind, major, minor, body);
    hide Feed, RecordBytes, On;
    var e := if up then ClientRec(rec) else ServerRec(rec);
    assert Events(d, o) == [e];
    assert [e][1..] == [];
    assert OnAll(Scanned(d, o), [e]) == OnAll(On(Scanned(d, o), e), []);
  }

  lemma FedRecord(s: Scan, kind: byte, major: byte, minor: byte, body: seq<byte>)
    requires Ok(s) && !s.broken && s.hdrLen == 0 && 0 < |body| <= 18432
    ensures var o := Feed(s, RecordBytes(kind, major, minor, body));
            o.recs == [Rec(kind, |body|, body[0])] && o.scan.hdrLen == 0 && !o.scan.broken
  {
    var w := RecordBytes(kind, major, minor, body);
    var h := w[..HDR_LEN];
    RecordHead(kind, major, minor, body, [], |w|);
    assert w + [] == w && w[..|w|] == w && (body + [])[..|body|] == body;
    assert w == h + body;
    hide Feed, RecordBytes, Begin;
    FeedSplit(s, h, body);
    FeedWholeHeader(s, h);
    assert Put(s.hdr, 0, h) == h;
    var t := s.(hdr := h, hdrLen := HDR_LEN);
    Begun(t);
    FeedFirst(Begin(t).scan, body);
    assert [] + [Rec(kind, |body|, body[0])] == [Rec(kind, |body|, body[0])];
  }

  /** A TLS 1.3 flow in bytes: ClientHello, ServerHello, the server's next record, the
      client's flight, each a whole record with any body; then downlink. It is
      authorised if and only if that downlink reaches the gate, and only at that call. */
  lemma Tls13Flow(minBulk: int, tlsOnly: bool, ch: seq<byte>, sh: seq<byte>, kind: byte, flight: seq<byte>,
                  ck: byte, fin: seq<byte>, bulk: seq<byte>)
    requires 0 < |ch| <= 18432 && 0 < |sh| <= 18432 && 0 < |flight| <= 18432 && 0 < |fin| <= 18432
    requires sh[0] == 2 && kind != 22
    ensures var hello := [Up(RecordBytes(22, 3, 1, ch)), Down(RecordBytes(22, 3, 3, sh)),
                          Down(RecordBytes(kind, 3, 3, flight)), Up(RecordBytes(ck, 3, 3, fin))];
            && Run(NewDet(minBulk, tlsOnly), hello).phase == HandshakeDone
            && Run(NewDet(minBulk, tlsOnly), hello + [Down(bulk)]).phase ==
               if |bulk| >= ResolveMinBulk(minBulk) then Ready else HandshakeDone
  {
    var d0 := NewDet(minBulk, tlsOnly);
    var o1, o2 := Up(RecordBytes(22, 3, 1, ch)), Down(RecordBytes(22, 3, 3, sh));
    var o3, o4 := Down(RecordBytes(kind, 3, 3, flight)), Up(RecordBytes(ck, 3, 3, fin));
    var d1 := Opens(d0, ch);
    OneRecord(d1, false, 22, 3, 3, sh);
    var d2 := Observe(d1, o2);
    OneRecord(d2, false, kind, 3, 3, flight);
    var d3 := Observe(d2, o3);
    OneRecord(d3, true, ck, 3, 3, fin);
    var d4 := Observe(d3, o4);
    assert d4.phase == HandshakeDone && d4.sinceDone == 0 && d4.minBulk == ResolveMinBulk(minBulk);
    hide Observe, RecordBytes, NewDet;
    RunFour(d0, o1, o2, o3, o4);
    RunSplit(d0, [o1, o2, o3, o4], [Down(bulk)]);
    TlsGateExact(d4, [Down(bulk)]);
    assert DownVolume([Down(bulk)]) == |bulk| + DownVolume([Down(bulk)][1..]);
  }

  lemma Opens(d: Det, ch: seq<byte>) returns (r: Det)
    requires Sound(d) && Paths(d) && d.phase == Init && d.up == NEW_SCAN && 0 < |ch| <= 18432
    ensures r == Observe(d, Up(RecordBytes(22, 3, 1, ch)))
    ensures r.phase == ClientHello && r == d.(phase := ClientHello, up := r.up) && r.up.hdrLen == 0 && !r.up.broken
  {
    var w := RecordBytes(22, 3, 1, ch);
    r := Observe(d, Up(w));
    FedRecord(d.up, 22, 3, 1, ch);
    assert w[0] == 22;
    hide Feed, RecordBytes;
    ClientOnly(Feed(d.up, w).recs, Scanned(d, Up(w)));
  }

  lemma RunNext(d: Det, o: Obs, os: seq<Obs>)
    requires Sound(d)
    ensures Run(d, [o] + os) == Run(Observe(d, o), os)
  {
    hide Observe;
    assert ([o] + os)[1..] == os;
  }

  lemma RunFour(d: Det, a: Obs, b: Obs, c: Obs, e: Obs)
    requires Sound(d)
    ensures Run(d, [a, b, c, e]) == Observe(Observe(Observe(Observe(d, a), b), c), e)
  {
    hide Observe, Run;
    assert [a, b, c, e] == [a] + ([b] + ([c] + ([e] + [])));
    RunNext(d, a, [b] + ([c] + ([e] + [])));
    var d1 := Observe(d, a);
    RunNext(d1, b, [c] + ([e] + []));
    var d2 := Observe(d1, b);
    RunNext(d2, c, [e] + []);
    var d3 := Observe(d2, c);
    RunNext(d3, e, []);
    RunNone(Observe(d3, e));
  }

  lemma RunNone(d: Det)
    requires Sound(d)
    ensures Run(d, []) == d
  {
  }
}
