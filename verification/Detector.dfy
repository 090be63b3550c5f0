/** The inner-TLS handshake detector that authorises the cut-over: two record
    scanners, one per direction, drive a seven-phase machine. */
module Detector {
  import opened Frames
  import opened Scanner

  const REC_HANDSHAKE: byte := 0x16
  const MSG_SERVER_HELLO: byte := 0x02
  const DEFAULT_MIN_BULK := 65536
  const MIN_BULK_FLOOR := 2048

  datatype Phase = Init | ClientHello | ServerHello | HandshakeDone | Bulk | Ready | Aborted

  datatype Det = Det(
    phase: Phase, up: Scan, down: Scan,
    helloSeen: bool, serverFlight: nat, clientFlight: bool,
    sinceDone: nat, bulk: nat, minBulk: nat, tlsOnly: bool)

  /** A configured gate: 0 or less means the default, and no other value may go
      below the floor. */
  function ResolveMinBulk(n: int): (gate: nat)
    ensures gate >= 2048 && (n >= 2048 ==> gate == n) && (0 < n < 2048 ==> gate == 2048)
    ensures n <= 0 ==> gate == 65536
  {
    if n <= 0 then DEFAULT_MIN_BULK else if n < MIN_BULK_FLOOR then MIN_BULK_FLOOR else n
  }

  function NewDet(minBulk: int, tlsOnly: bool): (d: Det)
    ensures Sound(d) && d.minBulk >= MIN_BULK_FLOOR
  {
    Det(Init, NEW_SCAN, NEW_SCAN, false, 0, false, 0, 0, ResolveMinBulk(minBulk), tlsOnly)
  }

  predicate Sound(d: Det) {
    Ok(d.up) && Ok(d.down)
  }

  // ----- the machine, record by record --------------------------------------

  datatype Event = ClientRec(r: Rec) | ServerRec(r: Rec)

  function MaybeDone(d: Det): Det {
    if d.phase == ServerHello && d.serverFlight >= 1 && d.clientFlight
    then d.(phase := HandshakeDone, sinceDone := 0) else d
  }

  predicate IsHello(e: Event) {
    e.ServerRec? && e.r.kind == REC_HANDSHAKE && (e.r.first == MSG_SERVER_HELLO || e.r.length == 0)
  }

  function On(d: Det, e: Event): Det {
    match d.phase
    case ClientHello =>
      if e.ClientRec? then d
      else if IsHello(e) then d.(phase := ServerHello, helloSeen := true)
      else d.(phase := Aborted)
    case ServerHello =>
      if e.ClientRec? then MaybeDone(d.(clientFlight := true))
      else if e.r.kind == REC_HANDSHAKE then d.(phase := Aborted)
      else MaybeDone(d.(serverFlight := d.serverFlight + 1))
    case _ => d
  }

  function OnAll(d: Det, es: seq<Event>): (r: Det)
    ensures r.up == d.up && r.down == d.down && r.minBulk == d.minBulk && r.tlsOnly == d.tlsOnly
    ensures r.bulk == d.bulk
    decreases es
  {
    if es == [] then d else OnAll(On(d, es[0]), es[1..])
  }

  function FromClient(rs: seq<Rec>): (es: seq<Event>)
    ensures |es| == |rs|
  {
    seq(|rs|, i requires 0 <= i < |rs| => ClientRec(rs[i]))
  }

  function FromServer(rs: seq<Rec>): (es: seq<Event>)
    ensures |es| == |rs|
  {
    seq(|rs|, i requires 0 <= i < |rs| => ServerRec(rs[i]))
  }

  function AddBulk(d: Det, n: nat): Det {
    d.(bulk := d.bulk + n, phase := if d.bulk + n >= d.minBulk then Ready else d.phase)
  }

  // ----- the two taps -----------------------------------------------------------

  datatype Obs = Up(p: seq<byte>) | Down(p: seq<byte>)

  /** Whether this observation reaches a record scanner. */
  predicate Scans(d: Det, o: Obs) {
    match d.phase
    case Init => o.Down? || (o.p != [] && o.p[0] == REC_HANDSHAKE)
    case ClientHello => true
    case ServerHello => true
    case _ => false
  }

  /** The records it reports, in order. */
  function Events(d: Det, o: Obs): seq<Event>
    requires Sound(d)
  {
    if !Scans(d, o) then []
    else if o.Up? then FromClient(Feed(d.up, o.p).recs)
    else FromServer(Feed(d.down, o.p).recs)
  }

  /** The detector with its scanner advanced, and in the TLS mode if this is the
      first uplink byte. */
  function Scanned(d: Det, o: Obs): (r: Det)
    requires Sound(d) && Scans(d, o)
    ensures Sound(r)
  {
    if o.Up? then d.(up := Feed(d.up, o.p).scan, phase := if d.phase == Init then ClientHello else d.phase)
    else d.(down := Feed(d.down, o.p).scan)
  }

  function Observe(d: Det, o: Obs): (r: Det)
    requires Sound(d)
    ensures Sound(r)
  {
    if Scans(d, o) then OnAll(Scanned(d, o), Events(d, o))
    else match d.phase
      case Bulk => AddBulk(d, |o.p|)
      case HandshakeDone =>
        if o.Up? then d
        else d.(sinceDone := d.sinceDone + |o.p|,
                phase := if d.sinceDone + |o.p| >= d.minBulk then Ready else HandshakeDone)
      case Init =>
        if o.p == [] then d
        else if d.tlsOnly then d.(phase := Aborted)
        else AddBulk(d.(phase := Bulk), |o.p|)
      case _ => d
  }

  function Run(d: Det, os: seq<Obs>): (r: Det)
    requires Sound(d)
    ensures Sound(r)
    decreases os
  {
    if os == [] then d else Run(Observe(d, os[0]), os[1..])
  }

  /** Every record reported along a run. */
  function Log(d: Det, os: seq<Obs>): (es: seq<Event>)
    requires Sound(d)
    decreases os
  {
    if os == [] then [] else Events(d, os[0]) + Log(Observe(d, os[0]), os[1..])
  }

  lemma {:induction false} RunSplit(d: Det, a: seq<Obs>, b: seq<Obs>)
    requires Sound(d)
    ensures Run(d, a + b) == Run(Run(d, a), b)
    decreases a
  {
    hide Observe;
    if a == [] {
      assert a + b == b;
    } else {
      RunSplit(Observe(d, a[0]), a[1..], b);
      assert (a + b)[1..] == a[1..] + b;
    }
  }

  // ----- verdicts are final ---------------------------------------------------

  lemma {:induction false} VerdictIsFinal(d: Det, os: seq<Obs>)
    requires Sound(d) && (d.phase == Ready || d.phase == Aborted)
    ensures Run(d, os) == d
    decreases os
  {
    if os != [] {
      VerdictIsFinal(d, os[1..]);
    }
  }

  // ----- what each phase has behind it -----------------------------------------

  /** The counters that belong to each phase. */
  predicate Paths(d: Det) {
    && (d.phase == Init || d.phase == ClientHello ==> !d.helloSeen && d.serverFlight == 0 && !d.clientFlight)
    && (d.phase == Init || d.phase == ClientHello || d.phase == ServerHello ==> d.bulk == 0 && d.sinceDone == 0)
    && (d.phase == ServerHello ==> d.helloSeen && (d.serverFlight == 0 || !d.clientFlight))
    && (d.phase == HandshakeDone ==> d.helloSeen && d.sinceDone < d.minBulk)
    && (d.phase == Bulk ==> !d.helloSeen && d.bulk < d.minBulk)
    && (d.phase == Ready ==>
          if d.helloSeen then d.sinceDone >= d.minBulk else d.bulk >= d.minBulk)
    && (d.tlsOnly ==> d.phase != Bulk && d.bulk == 0)
    && d.minBulk > 0
  }

  lemma OnKeepsPaths(d: Det, e: Event)
    requires Paths(d)
    ensures Paths(On(d, e))
  {
  }

  lemma {:induction false} OnAllKeepsPaths(d: Det, es: seq<Event>)
    requires Paths(d)
    ensures Paths(OnAll(d, es))
    decreases es
  {
    hide Paths, On;
    if es != [] {
      OnKeepsPaths(d, es[0]);
      OnAllKeepsPaths(On(d, es[0]), es[1..]);
    }
  }

  lemma ObserveKeepsPaths(d: Det, o: Obs)
    requires Sound(d) && Paths(d)
    ensures Paths(Observe(d, o))
  {
    hide OnAll, Feed, Events;
    if Scans(d, o) {
      OnAllKeepsPaths(Scanned(d, o), Events(d, o));
    }
  }

  lemma {:induction false} RunKeepsPaths(d: Det, os: seq<Obs>)
    requires Sound(d) && Paths(d)
    ensures Paths(Run(d, os))
    decreases os
  {
    hide Paths, Observe;
    if os != [] {
      ObserveKeepsPaths(d, os[0]);
      RunKeepsPaths(Observe(d, os[0]), os[1..]);
    }
  }

  /** Restricted to TLS, the detector never takes the volume-only path, and no
      opaque flow is ever authorised. */
  lemma TlsOnlyNeverBulk(minBulk: int, os: seq<Obs>)
    ensures var d := Run(NewDet(minBulk, true), os);
            d.phase != Bulk && d.bulk == 0 && (d.phase == Ready ==> d.helloSeen)
  {
    RunKeepsPaths(NewDet(minBulk, true), os);
    RunKeepsConfig(NewDet(minBulk, true), os);
  }

  lemma ObserveKeepsConfig(d: Det, o: Obs)
    requires Sound(d)
    ensures var r := Observe(d, o); r.minBulk == d.minBulk && r.tlsOnly == d.tlsOnly
  {
    hide OnAll, Feed, Events;
  }

  lemma {:induction false} RunKeepsConfig(d: Det, os: seq<Obs>)
    requires Sound(d)
    ensures var r := Run(d, os); r.minBulk == d.minBulk && r.tlsOnly == d.tlsOnly
    decreases os
  {
    hide Observe;
    if os != [] {
      ObserveKeepsConfig(d, os[0]);
      RunKeepsConfig(Observe(d, os[0]), os[1..]);
    }
  }

  lemma OnKeepsCount(d: Det, e: Event)
    requires d.sinceDone == 0 && d.phase != Ready
    ensures On(d, e).sinceDone == 0 && On(d, e).phase != Ready
  {
  }

  lemma {:induction false} OnAllKeepsCount(d: Det, es: seq<Event>)
    requires d.sinceDone == 0 && d.phase != Ready
    ensures OnAll(d, es).sinceDone == 0 && OnAll(d, es).phase != Ready
    decreases es
  {
    hide On;
    if es != [] {
      OnKeepsCount(d, es[0]);
      OnAllKeepsCount(On(d, es[0]), es[1..]);
    }
  }

  /** One observation moves the TLS gate only once the handshake is done, and
      then by exactly the downlink bytes it was given. */
  lemma ObserveGate(d: Det, o: Obs)
    requires Sound(d) && Paths(d)
    ensures var r := Observe(d, o);
            && (d.phase == HandshakeDone && o.Down? ==>
                  r.helloSeen && r.sinceDone == d.sinceDone + |o.p| && (r.phase == HandshakeDone || r.phase == Ready))
            && (d.phase == HandshakeDone && o.Up? ==> r == d)
            && (d.phase == Ready || d.phase == Aborted ==> r == d)
            && (d.phase == Bulk ==> !r.helloSeen && (r.phase == Bulk || r.phase == Ready))
            && (d.phase == Init || d.phase == ClientHello || d.phase == ServerHello ==>
                  (r.phase == HandshakeDone ==> r.sinceDone == 0) && (r.phase == Ready ==> !r.helloSeen))
  {
    hide OnAll, Feed, Events;
    if Scans(d, o) {
      OnAllKeepsCount(Scanned(d, o), Events(d, o));
    }
  }

  // ----- the TLS path needs a handshake ------------------------------------------

  predicate ServerAfter(log: seq<Event>, i: nat, e: nat) {
    exists m :: i < m <= e < |log| && log[m].ServerRec?
  }

  predicate ClientAfter(log: seq<Event>, i: nat, e: nat) {
    exists m :: i < m <= e < |log| && log[m].ClientRec?
  }

  /** No cleartext handshake record from the server behind index i, up to e. */
  predicate CleanAfter(log: seq<Event>, i: nat, e: nat) {
    forall m :: i < m <= e < |log| && log[m].ServerRec? ==> log[m].r.kind != REC_HANDSHAKE
  }

  /** A ServerHello at i, then by e a further server record and a client record,
      with no further 0x16 from the server in between. */
  predicate Handshake(log: seq<Event>, i: nat, e: nat) {
    && i < e < |log| && IsHello(log[i])
    && ServerAfter(log, i, e) && ClientAfter(log, i, e) && CleanAfter(log, i, e)
  }

  /** The log since the ServerHello at i explains the two flight flags. */
  predicate Since(d: Det, log: seq<Event>, i: nat) {
    && i < |log| && IsHello(log[i]) && CleanAfter(log, i, |log| - 1)
    && (d.serverFlight >= 1 <==> ServerAfter(log, i, |log| - 1))
    && (d.clientFlight <==> ClientAfter(log, i, |log| - 1))
  }

  ghost predicate Explained(d: Det, log: seq<Event>) {
    && (d.phase == ServerHello ==> exists i :: Since(d, log, i))
    && (d.phase == HandshakeDone || (d.phase == Ready && d.helloSeen) ==> exists i, e :: Handshake(log, i, e))
  }

  lemma HandshakeStays(log: seq<Event>, e: Event, i: nat, k: nat)
    requires Handshake(log, i, k)
    ensures Handshake(log + [e], i, k)
  {
    var m :| i < m <= k && log[m].ServerRec?;
    var c :| i < c <= k && log[c].ClientRec?;
    var l := log + [e];
    assert forall x :: 0 <= x < |log| ==> l[x] == log[x];
    assert l[m].ServerRec? && l[c].ClientRec?;
  }

  lemma SinceGrows(d: Det, log: seq<Event>, e: Event, i: nat)
    requires Since(d, log, i) && d.phase == ServerHello && !(e.ServerRec? && e.r.kind == REC_HANDSHAKE)
    ensures Since(On(d, e), log + [e], i)
  {
    var l := log + [e];
    var n := |log|;
    assert l[n] == e && forall x :: 0 <= x < n ==> l[x] == log[x];
    assert ServerAfter(l, i, n) <==> ServerAfter(log, i, n - 1) || e.ServerRec? by {
      if ServerAfter(log, i, n - 1) {
        var m :| i < m <= n - 1 && log[m].ServerRec?;
        assert l[m].ServerRec?;
      }
    }
    assert ClientAfter(l, i, n) <==> ClientAfter(log, i, n - 1) || e.ClientRec? by {
      if ClientAfter(log, i, n - 1) {
        var m :| i < m <= n - 1 && log[m].ClientRec?;
        assert l[m].ClientRec?;
      }
    }
  }

  lemma OnKeepsExplained(d: Det, log: seq<Event>, e: Event)
    requires Paths(d) && Explained(d, log)
    ensures Explained(On(d, e), log + [e])
  {
    var d' := On(d, e);
    var l := log + [e];
    if d.phase == ServerHello && d'.phase != Aborted {
      var i :| Since(d, log, i);
      SinceGrows(d, log, e, i);
      if d'.phase == HandshakeDone {
        assert Handshake(l, i, |log|);
      }
    } else if d.phase == ClientHello && d'.phase == ServerHello {
      assert l[|log|] == e;
      assert Since(d', l, |log|);
    } else if exists i, k :: Handshake(log, i, k) {
      var i, k :| Handshake(log, i, k);
      HandshakeStays(log, e, i, k);
    }
  }

  lemma {:induction false} OnAllKeepsExplained(d: Det, log: seq<Event>, es: seq<Event>)
    requires Paths(d) && Explained(d, log)
    ensures Explained(OnAll(d, es), log + es)
    decreases es
  {
    hide Paths, On, Explained;
    if es == [] {
      assert log + es == log;
    } else {
      OnKeepsPaths(d, es[0]);
      OnKeepsExplained(d, log, es[0]);
      OnAllKeepsExplained(On(d, es[0]), log + [es[0]], es[1..]);
      assert log + [es[0]] + es[1..] == log + es;
    }
  }

  lemma ObserveKeepsExplained(d: Det, log: seq<Event>, o: Obs)
    requires Sound(d) && Paths(d) && Explained(d, log)
    ensures Explained(Observe(d, o), log + Events(d, o))
  {
    hide OnAll, Feed;
    if Scans(d, o) {
      hide Events;
      var s := Scanned(d, o);
      assert Paths(s) && Explained(s, log) by {
        if d.phase == ServerHello {
          var i :| Since(d, log, i);
          assert Since(s, log, i);
        }
      }
      OnAllKeepsExplained(s, log, Events(d, o));
    } else {
      assert log + [] == log;
    }
  }

  lemma {:induction false} RunKeepsExplained(d: Det, log: seq<Event>, os: seq<Obs>)
    requires Sound(d) && Paths(d) && Explained(d, log)
    ensures Explained(Run(d, os), log + Log(d, os))
    decreases os
  {
    hide Paths, Observe, Explained, Events;
    if os == [] {
      assert log + [] == log;
    } else {
      ObserveKeepsPaths(d, os[0]);
      ObserveKeepsExplained(d, log, os[0]);
      RunKeepsExplained(Observe(d, os[0]), log + Events(d, os[0]), os[1..]);
      assert log + Events(d, os[0]) + Log(Observe(d, os[0]), os[1..]) == log + Log(d, os);
    }
  }

  /** However the two directions interleave and fragment, a flow on the TLS path
      is past its handshake, or authorised, only after the peers' records showed
      one: a ServerHello, then a server record and a client record behind it,
      and no cleartext-typed handshake record from the server among them. */
  lemma TlsReadyNeedsHandshake(minBulk: int, tlsOnly: bool, os: seq<Obs>)
    ensures var d := Run(NewDet(minBulk, tlsOnly), os);
            var log := Log(NewDet(minBulk, tlsOnly), os);
            d.phase == HandshakeDone || (d.phase == Ready && d.helloSeen) ==>
              exists i, e :: Handshake(log, i, e)
  {
    var d := NewDet(minBulk, tlsOnly);
    RunKeepsExplained(d, [], os);
    assert [] + Log(d, os) == Log(d, os);
  }

  /** A server record typed as a handshake, coming after the ServerHello and
      before both flights are in, ends the matter: the flow is never migrated. */
  lemma SecondServerHandshakeAborts(d: Det, e: Event, es: seq<Event>, os: seq<Obs>)
    requires Sound(d) && d.phase == ServerHello && e.ServerRec? && e.r.kind == REC_HANDSHAKE
    ensures Run(OnAll(On(d, e), es), os).phase == Aborted
  {
    AbortedStays(On(d, e), es);
    VerdictIsFinal(OnAll(On(d, e), es), os);
  }

  lemma {:induction false} AbortedStays(d: Det, es: seq<Event>)
    requires d.phase == Aborted
    ensures OnAll(d, es) == d
    decreases es
  {
    if es != [] {
      AbortedStays(d, es[1..]);
    }
  }

  // ----- what one record decides -------------------------------------------------------

  /** Before the ServerHello only the server's record counts: type 22 with message 2, or
      an empty record of type 22, is the ServerHello, and anything else rules the flow
      out. Behind it a server record of type 22 rules it out too, and the handshake is
      done once one other server record and one client record have come. */
  lemma RecordDecides(d: Det, kind: byte, length: nat, first: byte)
    requires Paths(d)
    ensures var r := Rec(kind, length, first);
            && (d.phase == ClientHello ==>
                  && On(d, ClientRec(r)).phase == ClientHello
                  && On(d, ServerRec(r)).phase ==
                     if kind == 22 && (first == 2 || length == 0) then ServerHello else Aborted)
            && (d.phase == ServerHello ==>
                  && On(d, ClientRec(r)).phase == (if d.serverFlight > 0 then HandshakeDone else ServerHello)
                  && On(d, ServerRec(r)).phase ==
                     if kind == 22 then Aborted else if d.clientFlight then HandshakeDone else ServerHello)
            && (d.phase != ClientHello && d.phase != ServerHello ==> On(d, ClientRec(r)) == On(d, ServerRec(r)) == d)
  {
  }

  // ----- the gates are exact ---------------------------------------------------------

  function Volume(os: seq<Obs>): (n: nat) {
    if os == [] then 0 else |os[0].p| + Volume(os[1..])
  }

  function DownVolume(os: seq<Obs>): (n: nat) {
    if os == [] then 0 else (if os[0].Down? then |os[0].p| else 0) + DownVolume(os[1..])
  }

  /** From the bulk phase, exactly the total volume decides. */
  lemma {:induction false} BulkGate(d: Det, os: seq<Obs>)
    requires Sound(d) && d.phase == Bulk && d.bulk < d.minBulk
    ensures Run(d, os).phase == if d.bulk + Volume(os) >= d.minBulk then Ready else Bulk
    decreases os
  {
    if os != [] {
      var d' := Observe(d, os[0]);
      if d'.phase == Ready {
        VerdictIsFinal(d', os[1..]);
      } else {
        BulkGate(d', os[1..]);
      }
    }
  }

  lemma {:induction false} InitWaits(d: Det, os: seq<Obs>)
    requires Sound(d) && d.phase == Init && forall o :: o in os && o.Up? ==> o.p == []
    ensures var r := Run(d, os); r.phase == Init && r.bulk == d.bulk && r.minBulk == d.minBulk && r.tlsOnly == d.tlsOnly
    decreases os
  {
    hide Feed;
    if os != [] {
      if Scans(d, os[0]) {
        InitIgnores(Scanned(d, os[0]), Events(d, os[0]));
      }
      InitWaits(Observe(d, os[0]), os[1..]);
    }
  }

  lemma {:induction false} InitIgnores(d: Det, es: seq<Event>)
    requires d.phase == Init
    ensures OnAll(d, es) == d
    decreases es
  {
    if es != [] {
      InitIgnores(d, es[1..]);
    }
  }

  /** A flow whose first uplink payload byte is not 0x16 is authorised exactly
      when everything observed since that payload, in both directions and
      including it, reaches the gate, which is never below 2048. */
  lemma OpaqueFlowExact(minBulk: int, before: seq<Obs>, p: seq<byte>, after: seq<Obs>)
    requires forall o :: o in before && o.Up? ==> o.p == []
    requires p != [] && p[0] != REC_HANDSHAKE
    ensures var d := Run(NewDet(minBulk, false), before + [Up(p)] + after);
            && (d.phase == Ready <==> |p| + Volume(after) >= ResolveMinBulk(minBulk))
            && (d.phase == Bulk <==> |p| + Volume(after) < ResolveMinBulk(minBulk))
  {
    var d0 := NewDet(minBulk, false);
    InitWaits(d0, before);
    RunSplit(d0, before, [Up(p)] + after);
    assert before + [Up(p)] + after == before + ([Up(p)] + after);
    var d1 := Run(d0, before);
    var os := [Up(p)] + after;
    assert os[1..] == after;
    var d2 := Observe(d1, Up(p));
    if d2.phase == Ready {
      VerdictIsFinal(d2, after);
    } else {
      BulkGate(d2, after);
    }
  }

  /** Restricted to TLS, such a flow is ruled out by that payload, for good. */
  lemma OpaqueRuledOut(minBulk: int, before: seq<Obs>, p: seq<byte>, after: seq<Obs>)
    requires forall o :: o in before && o.Up? ==> o.p == []
    requires p != [] && p[0] != 22
    ensures Run(NewDet(minBulk, true), before + [Up(p)] + after).phase == Aborted
  {
    var d0 := NewDet(minBulk, true);
    InitWaits(d0, before);
    RunSplit(d0, before, [Up(p)] + after);
    assert before + [Up(p)] + after == before + ([Up(p)] + after);
    var os := [Up(p)] + after;
    assert os[1..] == after;
    VerdictIsFinal(Observe(Run(d0, before), Up(p)), after);
  }

  /** Once the handshake is done, exactly the downlink volume of later calls
      decides; the uplink no longer matters. */
  lemma {:induction false} TlsGateExact(d: Det, os: seq<Obs>)
    requires Sound(d) && d.phase == HandshakeDone && d.sinceDone < d.minBulk
    ensures Run(d, os).phase == if d.sinceDone + DownVolume(os) >= d.minBulk then Ready else HandshakeDone
    decreases os
  {
    if os != [] {
      var d' := Observe(d, os[0]);
      if d'.phase == Ready {
        VerdictIsFinal(d', os[1..]);
      } else {
        TlsGateExact(d', os[1..]);
      }
    }
  }

  // ----- the detector object ------------------------------------------------------------

  class HandshakeDetector {
    var phase: Phase
    const upScan: RecordScanner
    const downScan: RecordScanner
    var helloSeen: bool
    var serverFlight: nat
    var clientFlight: bool
    var sinceDone: nat
    var bulk: nat
    const minBulk: nat
    const tlsOnly: bool

    ghost function View(): Det
      reads this, upScan, upScan.hdr, downScan, downScan.hdr
    {
      Det(phase, upScan.View(), downScan.View(), helloSeen, serverFlight, clientFlight,
          sinceDone, bulk, minBulk, tlsOnly)
    }

    ghost predicate Valid()
      reads this, upScan, upScan.hdr, downScan, downScan.hdr
    {
      upScan != downScan && upScan.hdr != downScan.hdr && Sound(View())
    }

    constructor (configured: int, tlsOnly: bool)
      ensures Valid() && View() == NewDet(configured, tlsOnly)
      ensures fresh(upScan) && fresh(upScan.hdr) && fresh(downScan) && fresh(downScan.hdr)
    {
      phase, helloSeen, serverFlight, clientFlight := Init, false, 0, false;
      sinceDone, bulk, minBulk := 0, 0, ResolveMinBulk(configured);
      this.tlsOnly := tlsOnly;
      upScan := new RecordScanner();
      downScan := new RecordScanner();
    }

    method PromoteIfDone()
      requires Valid()
      modifies this
      ensures Valid() && View() == MaybeDone(old(View()))
    {
      if phase == ServerHello && serverFlight >= 1 && clientFlight {
        phase := HandshakeDone;
        sinceDone := 0;
      }
    }

    /** The uplink scanner's callback. */
    method OnClientRecord(r: Rec)
      requires Valid()
      modifies this
      ensures Valid() && View() == On(old(View()), ClientRec(r))
    {
      if phase == ServerHello {
        clientFlight := true;
        PromoteIfDone();
      }
    }

    /** The downlink scanner's callback. */
    method OnServerRecord(r: Rec)
      requires Valid()
      modifies this
      ensures Valid() && View() == On(old(View()), ServerRec(r))
    {
      if phase == ClientHello {
        if r.kind == REC_HANDSHAKE && (r.first == MSG_SERVER_HELLO || r.length == 0) {
          phase := ServerHello;
          helloSeen := true;
        } else {
          phase := Aborted;
        }
      } else if phase == ServerHello {
        if r.kind == REC_HANDSHAKE {
          phase := Aborted;
        } else {
          serverFlight := serverFlight + 1;
          PromoteIfDone();
        }
      }
    }

    method CountBulk(n: nat)
      requires Valid()
      modifies this
      ensures Valid() && View() == AddBulk(old(View()), n)
    {
      bulk := bulk + n;
      if bulk >= minBulk {
        phase := Ready;
      }
    }

    method CountDownlink(n: nat)
      requires Valid() && phase == HandshakeDone
      modifies this
      ensures Valid()
      ensures var d := old(View());
              View() == d.(sinceDone := d.sinceDone + n,
                           phase := if d.sinceDone + n >= d.minBulk then Ready else HandshakeDone)
    {
      sinceDone := sinceDone + n;
      if sinceDone >= minBulk {
        phase := Ready;
      }
    }

    method Enter(p: Phase)
      requires Valid()
      modifies this
      ensures Valid() && View() == old(View()).(phase := p)
    {
      phase := p;
    }

    /** The first payload is not a TLS handshake record. */
    method ChooseOpaque(n: nat)
      requires Valid()
      modifies this
      ensures Valid()
      ensures var d := old(View());
              View() == if d.tlsOnly then d.(phase := Aborted) else AddBulk(d.(phase := Bulk), n)
    {
      if tlsOnly {
        Enter(Aborted);
      } else {
        Enter(Bulk);
        CountBulk(n);
      }
    }

    /** The uplink bytes go through the scanner, and each reported record through
        the callback, which never touches the scanner. */
    method ScanUplink(p: seq<byte>)
      requires Valid()
      modifies this, upScan, upScan.hdr
      ensures Valid()
      ensures var d := old(View()); var o := Feed(d.up, p);
              View() == OnAll(d.(up := o.scan), FromClient(o.recs))
    {
      hide Feed, On;
      var recs := upScan.FeedAll(p);
      ghost var s := View();
      assert recs[0..] == recs;
      for i := 0 to |recs|
        invariant Valid() && OnAll(View(), FromClient(recs[i..])) == OnAll(s, FromClient(recs))
      {
        assert FromClient(recs[i..])[0] == ClientRec(recs[i]);
        assert FromClient(recs[i..])[1..] == FromClient(recs[i + 1..]);
        OnClientRecord(recs[i]);
      }
    }

    method ScanDownlink(p: seq<byte>)
      requires Valid()
      modifies this, downScan, downScan.hdr
      ensures Valid()
      ensures var d := old(View()); var o := Feed(d.down, p);
              View() == OnAll(d.(down := o.scan), FromServer(o.recs))
    {
      hide Feed, On;
      var recs := downScan.FeedAll(p);
      ghost var s := View();
      assert recs[0..] == recs;
      for i := 0 to |recs|
        invariant Valid() && OnAll(View(), FromServer(recs[i..])) == OnAll(s, FromServer(recs))
      {
        assert FromServer(recs[i..])[0] == ServerRec(recs[i]);
        assert FromServer(recs[i..])[1..] == FromServer(recs[i + 1..]);
        OnServerRecord(recs[i]);
      }
    }

    /** observeUplink. */
    method ObserveUplink(p: seq<byte>)
      requires Valid()
      modifies this, upScan, upScan.hdr
      ensures Valid() && View() == Observe(old(View()), Up(p))
    {
      hide Feed, OnAll, FromClient, FromServer, Ok;
      if phase == Aborted || phase == HandshakeDone || phase == Ready {
        return;
      }
      if phase == Bulk {
        CountBulk(|p|);
        return;
      }
      if phase == Init {
        if |p| == 0 {
          return;
        }
        if p[0] != REC_HANDSHAKE {
          ChooseOpaque(|p|);
          return;
        }
        Enter(ClientHello);
      }
      ScanUplink(p);
    }

    /** observeDownlink. */
    method ObserveDownlink(p: seq<byte>)
      requires Valid()
      modifies this, downScan, downScan.hdr
      ensures Valid() && View() == Observe(old(View()), Down(p))
    {
      hide Feed, OnAll, FromClient, FromServer, Ok;
      if phase == Aborted || phase == Ready {
        return;
      }
      if phase == Bulk {
        CountBulk(|p|);
        return;
      }
      if phase == HandshakeDone {
        CountDownlink(|p|);
        return;
      }
      ScanDownlink(p);
    }
  }
}
