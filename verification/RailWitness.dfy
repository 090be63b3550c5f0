/** Runs that exist: a stream that migrates and ends cleanly, a clean end of B on a
    dying stream that is not complete, and the race in which a client carrier is
    never released; with the exact conditions that go with the last. */
module RailWitness {
  import opened Basics
  import opened Frames
  import opened Carrier
  import opened Rail
  import opened RailSwitch
  import opened RailInvariant
  import opened RailTheorems
  import D = Detector

  ghost predicate Reach(c: Setup, s: State) {
    exists tr :: IsRun(c, tr) && Reached(c, tr) == s
  }

  lemma {:induction false} RunsOn(s: State, tr: seq<Step>, st: Step)
    requires Runs(s, tr) && Can(After(s, tr), st)
    ensures Runs(s, tr + [st]) && After(s, tr + [st]) == Apply(After(s, tr), st)
    decreases tr
  {
    hide Can, Apply;
    if tr == [] {
      assert tr + [st] == [st] && [st][1..] == [];
    } else {
      RunsOn(Apply(s, tr[0]), tr[1..], st);
      assert (tr + [st])[1..] == tr[1..] + [st];
    }
  }

  lemma Go(c: Setup, s: State, st: Step)
    requires Reach(c, s) && Can(s, st)
    ensures Reach(c, Apply(s, st))
  {
    hide Can, Apply, Runs, After;
    var tr :| IsRun(c, tr) && Reached(c, tr) == s;
    RunsOn(Boot(c), tr, st);
    assert IsRun(c, tr + [st]) && Reached(c, tr + [st]) == Apply(s, st);
  }

  lemma GoClient(c: Setup, s: State, a: ClientAct)
    requires Reach(c, s) && CanClient(s, a)
    ensures Reach(c, ApplyClient(s, a))
  {
    hide CanClient, ApplyClient, Reach;
    Go(c, s, Client1(a));
  }

  lemma GoServer(c: Setup, s: State, a: ServerAct)
    requires Reach(c, s) && CanServer(s, a)
    ensures Reach(c, ApplyServer(s, a))
  {
    hide CanServer, ApplyServer, Reach;
    Go(c, s, Server1(a));
  }

  /** A shared step that is no mux write of the server. */
  lemma GoEnd(c: Setup, s: State, w: Who, a: Act)
    requires Reach(c, s) && CanAct(Ends(s, w), a, RecvIdle(s, w), OpenBroke(s, w))
    requires a.Send? ==> !IsPush(a.mv)
    ensures Reach(c, PutEnd(s, w, DoAct(Ends(s, w), a, RecvIdle(s, w), OpenBroke(s, w))))
  {
    hide CanAct, DoAct, Reach, PutEnd, RecvIdle, OpenBroke, Ends;
    Go(c, s, Both(w, a));
  }

  // ----- one step each: where it leads from any state that allows it -------------------

  function Down(s: State, d: Dir): (t: State) {
    s.(down := d)
  }

  /** A move of the client's receiving threads, or of a reader. */
  lemma Receives(c: Setup, s: State, mv: Move)
    requires Reach(c, s) && IsRecv(mv) && Enabled(s.down, mv) && ClientIdle(s) && !s.cl.side.gone
    ensures Reach(c, Down(s, Do(s.down, mv)))
  {
    hide Enabled, Do, Reach, IsRecv, ClientIdle;
    GoEnd(c, s, Cl, Recv(mv));
  }

  /** A reader takes what recvLoop holds. */
  lemma Hands(c: Setup, s: State)
    requires Reach(c, s)
    ensures Reach(c, Down(s, Do(s.down, Hand(|s.down.rx.held|))))
  {
    hide Do, Reach;
    GoEnd(c, s, Cl, Recv(Hand(|s.down.rx.held|)));
  }

  lemma Carries(c: Setup, s: State, b: seq<byte>)
    requires Reach(c, s) && Enabled(s.down, RawOk(b))
    ensures Reach(c, Down(s, Do(s.down, RawOk(b))))
  {
    hide Enabled, Do, Reach;
    GoEnd(c, s, Sv, Send(RawOk(b)));
  }

  /** A mux write of the server that the detector does not look at. */
  lemma Pushes(c: Setup, s: State, b: seq<byte>)
    requires Reach(c, s) && Enabled(s.down, PushOk(b, [b])) && (s.sv.tapsDone || !s.sv.payload)
    ensures Reach(c, Down(s, Do(s.down, PushOk(b, [b]))))
  {
    hide Enabled, Do, Reach;
    Go(c, s, Both(Sv, Send(PushOk(b, [b]))));
  }

  lemma HalfCloses(c: Setup, s: State)
    requires Reach(c, s) && s.down.tx.diverted && !s.down.tx.whc && !s.down.cr.torn && !s.sv.side.shutting
    ensures Reach(c, Down(s, Do(Do(s.down, Retire), Shut)))
  {
    RetireEffect(s.down);
    hide Reach, Do, Enabled, IsSend, IsRecv, RecvIdle, OpenBroke;
    var t := Down(s, Do(s.down, Retire)).(sv := s.sv.(side := s.sv.side.(shutting := true)));
    GoEnd(c, s, Sv, CloseWrite);
    assert PutEnd(s, Sv, DoAct(Ends(s, Sv), CloseWrite, RecvIdle(s, Sv), OpenBroke(s, Sv))) == t;
    HalfClosed(c, t);
    assert s.sv == t.sv.(side := t.sv.side.(shutting := false));
  }

  lemma HalfClosed(c: Setup, t: State)
    requires Reach(c, t) && t.sv.side.shutting && !t.down.cr.torn
    ensures Reach(c, Down(t, Do(t.down, Shut)).(sv := t.sv.(side := t.sv.side.(shutting := false))))
  {
    hide Reach;
    GoEnd(c, t, Sv, CloseWriteDone);
  }

  // bytes over B, and its end, on the downlink's parts

  function Loaded(d: Dir, b: seq<byte>): (e: Dir) {
    d.(tx := d.tx.(passed := d.tx.passed + b, accepted := d.tx.accepted + b), cr := d.cr.(car := b))
  }

  lemma LoadB(d: Dir, b: seq<byte>)
    requires d.tx.diverted && d.cr == FRESH.cr
    ensures Enabled(d, RawOk(b)) && Do(d, RawOk(b)) == Loaded(d, b)
  {
    hide DoOnMux, DoOffMux, DoOffB;
  }

  function InHand(d: Dir): (e: Dir) {
    d.(cr := d.cr.(car := []),
       rx := d.rx.(pump := Handing(More), pumped := d.cr.car, fetched := d.rx.fetched + d.cr.car))
  }

  lemma FetchB(d: Dir)
    requires d.rx.pump == Reading && d.cr.car != [] && !d.rx.pipeDone
    ensures var k := |d.cr.car|; Enabled(d, Fetch(k, More)) && Do(d, Fetch(k, More)) == InHand(d)
  {
    hide DoOnMux, DoOnB, DoOffMux;
    assert d.cr.car[..|d.cr.car|] == d.cr.car;
  }

  function HandedOn(d: Dir): (e: Dir) {
    d.(rx := d.rx.(consumed := d.rx.consumed + d.rx.pumped, fed := d.rx.fed + d.rx.pumped, pumped := []))
  }

  lemma FeedB(d: Dir)
    requires d.rx.pump == Handing(More)
    ensures var k := |d.rx.pumped|; Enabled(d, Feed(k)) && Do(d, Feed(k)) == HandedOn(d)
  {
    hide DoOnMux, DoOnB, DoOffMux;
    assert d.rx.pumped[..|d.rx.pumped|] == d.rx.pumped;
  }

  function AtPump(d: Dir, p: Pump): (e: Dir) {
    d.(rx := d.rx.(pump := p))
  }

  lemma NextB(d: Dir)
    requires d.rx.pump == Handing(More) && d.rx.pumped == []
    ensures Enabled(d, Next) && Do(d, Next) == AtPump(d, Reading)
  {
    hide DoOnMux, DoOnB, DoOffMux;
  }

  /** Bytes given to a server write go all the way to the client's reader. */
  lemma GoesOverB(c: Setup, s: State, b: seq<byte>)
    requires Reach(c, s) && ClientIdle(s) && !s.cl.side.gone && b != []
    requires s.down.tx.diverted && s.down.cr == FRESH.cr && s.down.rx.pump == Reading && !s.down.rx.pipeDone
    ensures Reach(c, Down(s, AtPump(HandedOn(InHand(Loaded(s.down, b))), Reading)))
  {
    hide Reach, Do, Enabled;
    LoadB(s.down, b);
    Carries(c, s, b);
    var d := Loaded(s.down, b);
    FetchB(d);
    Receives(c, Down(s, d), Fetch(|b|, More));
    FeedB(InHand(d));
    Receives(c, Down(s, InHand(d)), Feed(|b|));
    NextB(HandedOn(InHand(d)));
    Receives(c, Down(s, HandedOn(InHand(d))), Next);
  }

  function EndedB(d: Dir): (e: Dir) {
    d.(tx := d.tx.(whc := true), cr := d.cr.(fin := true), rx := d.rx.(eof := true, pump := EofMarked, rhc := true))
  }

  function FinB(d: Dir): (e: Dir) {
    d.(tx := d.tx.(whc := true), cr := d.cr.(fin := true))
  }

  lemma HalfEndsB(d: Dir)
    requires d.cr == FRESH.cr
    ensures Enabled(d, Retire) && Enabled(Do(d, Retire), Shut) && Do(Do(d, Retire), Shut) == FinB(d)
  {
    hide DoOnMux, DoOffMux, DoOffB;
  }

  lemma EndsB(d: Dir)
    requires d.rx.pump == Reading && d.cr == FRESH.cr
    ensures var e := FinB(d);
            Enabled(e, FetchEof) && Enabled(Do(e, FetchEof), MarkEof) && Do(Do(e, FetchEof), MarkEof) == EndedB(d)
  {
    hide DoOnMux, DoOnB, DoOffMux;
  }

  /** The server half-closes and the client's carrierToPipe sees it. */
  lemma EndsCleanly(c: Setup, s: State)
    requires Reach(c, s) && ClientIdle(s) && !s.cl.side.gone && !s.sv.side.shutting
    requires s.down.tx.diverted && !s.down.tx.whc && s.down.cr == FRESH.cr && s.down.rx.pump == Reading
    ensures Reach(c, Down(s, EndedB(s.down)))
  {
    HalfEndsB(s.down);
    EndsB(s.down);
    StillIdle(s, FinB(s.down));
    hide Reach, Do, Enabled, ClientIdle;
    HalfCloses(c, s);
    Receives(c, Down(s, FinB(s.down)), FetchEof);
    Receives(c, Down(s, Do(FinB(s.down), FetchEof)), MarkEof);
  }

  lemma StillIdle(s: State, d: Dir)
    requires ClientIdle(s) && d.rx.held == [] && Enabled(d, FetchEof)
    ensures ClientIdle(Down(s, d)) && ClientIdle(Down(s, Do(d, FetchEof)))
  {
    hide DoOnMux, DoOnB, DoOffMux;
  }

  // the server's offer

  function Authorised(s: State): (t: State)
    requires D.Sound(s.sv.det)
  {
    s.(sv := s.sv.(payload := true, det := D.Observe(s.sv.det, D.Up(Flood()))))
  }

  lemma BeginsPayload(c: Setup, s: State)
    requires Reach(c, s)
    ensures Reach(c, s.(sv := s.sv.(payload := true)))
  {
    hide Reach, Do, Enabled, Inspect, BeginUplink, TapUplink, ShutOut;
    GoServer(c, s, BeginPayload);
  }

  /** A tapped uplink read that does not abort the detector. */
  lemma Taps(c: Setup, s: State, p: seq<byte>)
    requires Reach(c, s) && s.sv.payload && !s.sv.tapsDone && D.Sound(s.sv.det)
    requires D.Observe(s.sv.det, D.Up(p)).phase != D.Aborted
    ensures Reach(c, s.(sv := s.sv.(det := D.Observe(s.sv.det, D.Up(p)))))
  {
    hide Reach, Do, Enabled, Inspect, BeginUplink, ShutOut, D.Observe, D.Sound;
    GoServer(c, s, TapUp(p));
  }

  lemma Floods(c: Setup, s: State)
    requires Reach(c, s) && s.sv.det == D.NewDet(2048, false) && !s.sv.tapsDone
    ensures Reach(c, Authorised(s)) && Authorised(s).sv.det.phase == D.Ready
  {
    FloodIsReady();
    hide Reach, Flood, D.NewDet, D.Observe, D.Sound;
    BeginsPayload(c, s);
    Taps(c, s.(sv := s.sv.(payload := true)), Flood());
  }

  function Registers(s: State): (t: State) {
    s.(sv := s.sv.(trig := Registered, tapsDone := true, pending := true))
  }

  lemma Triggers(c: Setup, s: State)
    requires Reach(c, s) && !s.sv.tapsDone && s.sv.det.phase == D.Ready && s.sv.trig == NotTriggered
    ensures Reach(c, Registers(s))
  {
    hide Reach, Do, Inspect, BeginUplink, TapUplink, ShutOut;
    GoServer(c, s, Win);
    GoServer(c, s.(sv := s.sv.(trig := Won, tapsDone := true)), Register);
  }

  lemma Offers(c: Setup, s: State)
    requires Reach(c, s) && s.sv.trig == Registered && Enabled(s.down, NoteOk(Offer))
    ensures Reach(c, Down(s, Do(s.down, NoteOk(Offer))).(sv := s.sv.(trig := Offered)))
  {
    hide Reach, Do, Enabled, Inspect, BeginUplink, TapUplink, ShutOut;
    GoServer(c, s, SendOffer(Sent));
  }

  // the client's dial

  lemma TakesOffer(c: Setup, s: State)
    requires Reach(c, s) && ClientIdle(s) && Enabled(s.down, TakeNote) && s.down.mx.items[0].Offer?
    ensures Reach(c, Down(s, Do(s.down, TakeNote)).(cl := s.cl.(offersTaken := s.cl.offersTaken + 1, dial := Asked)))
  {
    hide Reach, Do, Enabled, Preload, Opening, ClientIdle;
    GoClient(c, s, TakeOffer(false));
  }

  function Published1(s: State): (t: State) {
    s.(cl := s.cl.(dial := Published, side := s.cl.side.(conn := true)))
  }

  lemma Publishes(c: Setup, s: State)
    requires Reach(c, s) && s.cl.dial == Asked
    ensures Reach(c, Published1(s))
  {
    hide Reach, Do, Enabled, Preload, Opening;
    GoClient(c, s, Dialled(true));
    GoClient(c, s.(cl := s.cl.(dial := Connected)), Publish);
  }

  function Opened1(s: State): (t: State)
    requires Config(s.sid, s.token)
  {
    s.(cl := s.cl.(dial := Opened, filler := Filler()), up := Do(FRESH, SetCar(Opening(s.sid, s.token, Filler()))))
  }

  lemma Opens(c: Setup, s: State)
    requires Reach(c, s) && Config(s.sid, s.token) && s.cl.dial == Published && !s.cl.side.gone
    requires s.up == FRESH && s.sv.listener == Waiting
    ensures Reach(c, Opened1(s))
  {
    hide Reach, Do, Enabled, Opening;
    GoClient(c, s, OpenB(Filler()));
  }

  function Announced1(s: State): (t: State) {
    s.(cl := s.cl.(dial := Announced, bReady := true, dialCut := Returned))
  }

  lemma Announces(c: Setup, s: State)
    requires Reach(c, s) && s.cl.dial == Opened && !s.cl.goSeen
    ensures Reach(c, Announced1(s))
  {
    hide Reach, Do, Enabled, Preload, Opening;
    var t := s.(cl := s.cl.(dial := Announced, bReady := true, dialCut := AtReady));
    GoClient(c, s, Announce);
    GoClient(c, t, LoadReady(Dialer));
    GoClient(c, t.(cl := t.cl.(dialCut := AtGo)), LoadGo(Dialer));
  }

  // attach and cut-over

  lemma Accepts(c: Setup, s: State)
    requires Reach(c, s) && s.sv.listener == Waiting && s.sv.pending && !s.up.tx.diverted
    requires Inspect(s.up.cr.car) == Claimed(s.token, [])
    ensures Reach(c, s.(up := Do(s.up, SetCar([])), sv := s.sv.(pending := false, listener := Taken)))
  {
    hide Reach, Do, Inspect, BeginUplink, TapUplink, ShutOut;
    GoServer(c, s, Accept);
  }

  lemma Attaches(c: Setup, s: State)
    requires Reach(c, s) && s.sv.listener == Taken && s.sv.side.die == Alive && Enabled(s.down, DivertOk)
    ensures Reach(c, Down(s, Do(s.down, DivertOk)).(
                         sv := s.sv.(listener := Attached, side := s.sv.side.(conn := true))))
  {
    hide Reach, Do, Enabled, Inspect, BeginUplink, TapUplink, ShutOut;
    GoServer(c, s, Attach(Sent));
  }

  lemma TakesGo(c: Setup, s: State)
    requires Reach(c, s) && ClientIdle(s) && Enabled(s.down, TakeBarrier) && s.cl.bReady
    ensures Reach(c, Down(s, Do(s.down, TakeBarrier)).(cl := s.cl.(goSeen := true, recvCut := AtOnce)))
  {
    hide Reach, Do, Enabled, Preload, Opening, ClientIdle;
    var t := Down(s, Do(s.down, TakeBarrier)).(cl := s.cl.(goSeen := true, recvCut := AtReady));
    GoClient(c, s, TakeGo(false));
    GoClient(c, t, LoadReady(Receiver));
    GoClient(c, t.(cl := t.cl.(recvCut := AtGo)), LoadGo(Receiver));
  }

  /** The cut-over's body: the uplink is diverted if the stream is alive. */
  function Committed1(s: State): (t: State)
    requires s.cl.side.die == Alive ==> Enabled(s.up, DivertOk)
  {
    s.(cl := s.cl.(cut := Body(Receiver), commits := s.cl.commits + 1),
       up := if s.cl.side.die == Alive then Do(s.up, DivertOk) else s.up)
  }

  lemma Commits(c: Setup, s: State)
    requires Reach(c, s) && s.cl.recvCut == AtOnce && s.cl.cut == NotRun
    requires s.cl.side.die == Alive ==> Enabled(s.up, DivertOk)
    ensures Reach(c, Committed1(s))
  {
    hide Reach, Do, Enabled, Preload, Opening;
    GoClient(c, s, Commit(Receiver, Sent));
  }

  lemma Spawns(c: Setup, s: State)
    requires Reach(c, s) && s.cl.cut == Body(Receiver) && Enabled(s.down, Rail.Start)
    ensures Reach(c, Down(s, Do(s.down, Rail.Start)).(cl := s.cl.(recvCut := Returned, cut := Done)))
  {
    hide Reach, Do, Enabled, Preload, Opening;
    GoClient(c, s, Spawn(Receiver));
  }

  lemma TakesUplinkFin(c: Setup, s: State)
    requires Reach(c, s) && ServerIdle(s) && s.sv.side.conn
    requires Enabled(s.up, TakeBarrier) && Enabled(Do(s.up, TakeBarrier), Rail.Start)
    ensures Reach(c, s.(up := Do(Do(s.up, TakeBarrier), Rail.Start)))
  {
    hide Reach, Do, Enabled, Inspect, TapUplink, ShutOut, ServerIdle;
    GoServer(c, s, TakeUplinkFin(false));
  }

  // the client's stream end

  function Client2(s: State, sd: Side): (t: State) {
    s.(cl := s.cl.(side := sd))
  }

  lemma Dies(c: Setup, s: State)
    requires Reach(c, s) && s.cl.side.die == Alive
    ensures Reach(c, Client2(s, s.cl.side.(die := Stored)))
  {
    hide Reach, Do, Enabled, ShutOut;
    GoEnd(c, s, Cl, Die);
  }

  lemma ShutsPipe(c: Setup, s: State)
    requires Reach(c, s) && s.cl.side.die == Stored
    ensures Reach(c, Client2(Down(s, Do(s.down, ClosePipe)), s.cl.side.(die := PipeShut)))
  {
    hide Reach, Do, ShutOut;
    GoEnd(c, s, Cl, DiePipe);
  }

  lemma LooksAtMux(c: Setup, s: State)
    requires Reach(c, s) && s.cl.side.die == PipeShut && !s.up.tx.diverted
    ensures Reach(c, Client2(s, s.cl.side.(die := SawMux)))
  {
    hide Reach, Do, Enabled, ShutOut;
    GoEnd(c, s, Cl, DieLook);
  }

  lemma EntersOnce(c: Setup, s: State)
    requires Reach(c, s) && s.cl.side.die == SawMux && s.cl.side.once == Idle
    ensures Reach(c, Client2(s, s.cl.side.(once := Got(s.cl.side.conn))))
  {
    hide Reach, Do, Enabled, ShutOut;
    GoEnd(c, s, Cl, OnceEnter(StreamEnd));
  }

  lemma FindsNoConn(c: Setup, s: State)
    requires Reach(c, s) && s.cl.side.once == Got(false)
    ensures Reach(c, Client2(s, s.cl.side.(once := ConnShut)))
  {
    hide Reach, Do, Enabled, ShutOut;
    GoEnd(c, s, Cl, OnceNoConn);
  }

  lemma LeavesOnce(c: Setup, s: State)
    requires Reach(c, s) && s.cl.side.once == ConnShut
    ensures Reach(c, Client2(s, s.cl.side.(once := Released)))
  {
    hide Reach, Do, Enabled, ShutOut;
    GoEnd(c, s, Cl, OnceDone);
  }

  lemma FinishesDying(c: Setup, s: State)
    requires Reach(c, s) && s.cl.side.die == SawMux && s.cl.side.once == Released
    ensures Reach(c, Client2(s, s.cl.side.(die := Ended)))
  {
    hide Reach, Do, Enabled, ShutOut;
    GoEnd(c, s, Cl, DieReleased);
  }

  // ----- the common beginning: an opaque flow crosses its gate ---------------------

  function Zeros(n: nat): (r: seq<byte>)
    ensures |r| == n && forall i :: 0 <= i < n ==> r[i] == 0
  {
    seq(n, i => 0)
  }

  function Token(): (r: seq<byte>)
    ensures |r| == TOKEN_LEN
  {
    Zeros(TOKEN_LEN)
  }

  function Filler(): (r: seq<byte>)
    ensures |r| == PAD_MIN
  {
    Zeros(PAD_MIN)
  }

  function Flood(): (r: seq<byte>) {
    Zeros(2048)
  }

  lemma FloodIsReady()
    ensures D.Observe(D.NewDet(2048, false), D.Up(Flood())).phase == D.Ready
  {
    hide D.OnAll, D.Events, D.Scanned;
  }

  function Witness(): (c: Setup) {
    Setup(1, Token(), 2048, false)
  }

  /** A direction still on the mux: given and read so far, and what is on the way. */
  function Line(given: seq<byte>, read: seq<byte>, items: seq<Item>): (d: Dir) {
    FRESH.(tx := FRESH.tx.(passed := given, accepted := given), mx := FRESH.mx.(items := items),
           rx := FRESH.rx.(consumed := read))
  }

  /** One byte has gone all the way over the mux. */
  lemma OneByteOnMux()
    ensures Reach(Witness(), Down(Boot(Witness()), Line([5], [5], [])))
  {
    var c, s := Witness(), Boot(Witness());
    assert IsRun(c, []) && Reached(c, []) == s;
    hide Reach;
    assert Flatten([[5]]) == [5] + Flatten([[5]][1..]) && DataItems([[5]]) == [Data([5])];
    Pushes(c, s, [5]);
    assert Do(FRESH, PushOk([5], [[5]])) == Line([5], [], [Data([5])]);
    OneByteRead(Down(s, Line([5], [], [Data([5])])));
  }

  function Holding(): (d: Dir) {
    var d := Line([5], [], []);
    d.(rx := d.rx.(held := [5]))
  }

  lemma OneByteMoves()
    ensures var d := Line([5], [], [Data([5])]); Enabled(d, TakeData) && Do(d, TakeData) == Holding()
    ensures Do(Holding(), Hand(1)) == Line([5], [5], [])
  {
    hide DoOnMux, DoOnB, DoOffB;
  }

  lemma OneByteRead(s: State)
    requires Reach(Witness(), s) && s.down == Line([5], [], [Data([5])]) && ClientIdle(s) && !s.cl.side.gone
    ensures Reach(Witness(), Down(s, Line([5], [5], [])))
  {
    OneByteMoves();
    hide Reach, Do, Enabled, ClientIdle;
    Receives(Witness(), s, TakeData);
    Hands(Witness(), Down(s, Holding()));
  }

  /** The server once it has made its offer. */
  function Offerer(): (v: Server) {
    Server(NEW_SIDE, D.Observe(D.NewDet(2048, false), D.Up(Flood())), true, true, Offered, true, Waiting, 0)
  }

  function Dialling(): (s: State) {
    var s := Boot(Witness());
    State(1, Token(), FRESH, Line([5], [5], []), s.cl.(offersTaken := 1, dial := Asked), Offerer())
  }

  lemma ReachOffer()
    ensures Reach(Witness(), Down(Boot(Witness()), Line([5], [5], [Offer])).(sv := Offerer()))
  {
    OneByteOnMux();
    hide Reach, D.Observe;
    var c, s := Witness(), Down(Boot(Witness()), Line([5], [5], []));
    Floods(c, s);
    Triggers(c, Authorised(s));
    Offers(c, Registers(Authorised(s)));
    assert Do(s.down, NoteOk(Offer)) == Line([5], [5], [Offer]);
  }

  lemma ReachDialling()
    ensures Reach(Witness(), Dialling())
  {
    ReachOffer();
    hide Reach, D.Observe;
    var s := Down(Boot(Witness()), Line([5], [5], [Offer])).(sv := Offerer());
    TakesOffer(Witness(), s);
    assert Do(s.down, TakeNote) == Line([5], [5], []);
  }

  /** The server holds the carrier, stripped of its opening frame. */
  function Claimant(): (s: State) {
    var t := Announced1(Opened1(Published1(Dialling())));
    t.(up := FRESH, sv := Offerer().(pending := false, listener := Taken))
  }

  lemma ReachClaimant()
    ensures Reach(Witness(), Claimant())
  {
    ReachDialling();
    hide Reach, D.Observe, Opening;
    var c, s := Witness(), Dialling();
    Publishes(c, s);
    Opens(c, Published1(s));
    var t := Opened1(Published1(s));
    Announces(c, t);
    InspectPrefix(1, Token(), Filler(), Opening(1, Token(), Filler()));
    hide Inspect;
    assert t.up == FRESH.(cr := FRESH.cr.(car := Opening(1, Token(), Filler())));
    Accepts(c, Announced1(t));
    assert Do(t.up, SetCar([])) == FRESH;
  }

  // ----- a migration that completes ------------------------------------------------

  /** Diverted, the barrier taken off the mux. */
  function Cut(given: seq<byte>, read: seq<byte>): (d: Dir) {
    var d := Line(given, read, []);
    d.(tx := d.tx.(diverted := true), mx := d.mx.(barriers := 1), rx := d.rx.(barTaken := true))
  }

  function Barred(s: State): (t: State) {
    Down(s, Cut([5], [5])).(sv := s.sv.(listener := Attached, side := s.sv.side.(conn := true)),
                            cl := s.cl.(goSeen := true, recvCut := AtOnce))
  }

  lemma ReachBarred()
    ensures Reach(Witness(), Barred(Claimant()))
  {
    ReachClaimant();
    BarredMoves();
    hide Reach, D.Observe, Opening, Do, Enabled;
    var c, s := Witness(), Claimant();
    Attaches(c, s);
    TakesGo(c, Down(s, Do(s.down, DivertOk)).(sv := Barred(s).sv));
  }

  lemma BarredMoves()
    ensures var d := Line([5], [5], []);
            && Enabled(d, DivertOk) && Do(d, DivertOk).rx == d.rx && Enabled(Do(d, DivertOk), TakeBarrier)
            && Do(Do(d, DivertOk), TakeBarrier) == Cut([5], [5])
  {
    hide DoOnB, DoOffB;
  }

  function Pumping(d: Dir): (e: Dir) {
    d.(rx := d.rx.(pump := Reading))
  }

  /** Both directions on B. */
  function Carried(): (s: State) {
    var s := Barred(Claimant());
    Down(s, Pumping(Cut([5], [5]))).(up := Pumping(Cut([], [])),
                                     cl := s.cl.(recvCut := Returned, cut := Done, commits := 1))
  }

  lemma ReachCarried()
    ensures Reach(Witness(), Carried())
  {
    ReachBarred();
    DivertFresh();
    hide Reach, D.Observe, Opening, Do, Enabled;
    var c, s := Witness(), Barred(Claimant());
    Commits(c, s);
    CanStart(s.down);
    StartEffect(s.down);
    Spawns(c, Committed1(s));
    StartsUplink(Down(Committed1(s), Pumping(s.down)).(cl := Carried().cl));
  }

  lemma CanStart(d: Dir)
    requires d.rx.pump == Off && d.rx.barTaken
    ensures Enabled(d, Rail.Start)
  {
  }

  function Barrier1(): (d: Dir) {
    FRESH.(tx := FRESH.tx.(diverted := true), mx := MuxLine([Barrier], false, 1))
  }

  lemma DivertFresh()
    ensures Enabled(FRESH, DivertOk) && Do(FRESH, DivertOk) == Barrier1()
    ensures Enabled(Barrier1(), TakeBarrier) && Do(Barrier1(), TakeBarrier) == Cut([], [])
  {
    hide DoOnB, DoOffB;
  }

  lemma StartsUplink(s: State)
    requires Reach(Witness(), s) && s.up == Barrier1() && ServerIdle(s) && s.sv.side.conn
    ensures Reach(Witness(), s.(up := Pumping(Cut([], []))))
  {
    DivertFresh();
    hide Reach, Do, Enabled, ServerIdle;
    CanStart(Cut([], []));
    StartEffect(Cut([], []));
    TakesUplinkFin(Witness(), s);
  }

  /** One more downlink byte, this time over B. */
  function BothRead(): (d: Dir) {
    var d := Pumping(Cut([5, 7], [5, 7]));
    d.(rx := d.rx.(fetched := [7], fed := [7]))
  }

  lemma ReachBothRead()
    ensures Reach(Witness(), Down(Carried(), BothRead()))
  {
    ReachCarried();
    hide Reach, D.Observe, Opening;
    GoesOverB(Witness(), Carried(), [7]);
    assert AtPump(HandedOn(InHand(Loaded(Carried().down, [7]))), Reading) == BothRead();
  }

  /** There is a run in which a stream moves both directions onto B, delivers bytes
      on both sides of the seam, and reaches the clean end on a live stream. */
  lemma MigrationCompletes()
    ensures exists s :: Reach(Witness(), s) && s.up.tx.diverted && s.down.tx.diverted && s.down.rx.rhc
                        && s.cl.side.die == Alive && s.down.rx.consumed == [5, 7] == s.down.tx.accepted
  {
    ReachBothRead();
    hide Reach, D.Observe, Opening;
    EndsCleanly(Witness(), Down(Carried(), BothRead()));
  }

  // ----- a clean end that is not complete -------------------------------------------

  /** The last mux byte is on its way when the client's stream dies. */
  function Doomed(): (d: Dir) {
    var d := Line([5, 9], [5], [Data([9]), Barrier]);
    d.(tx := d.tx.(diverted := true), mx := d.mx.(barriers := 1))
  }

  function DoomedState(): (s: State) {
    var s := Claimant();
    Down(s, Doomed()).(sv := s.sv.(listener := Attached, side := s.sv.side.(conn := true)))
  }

  lemma DoomedMoves()
    ensures var d := Line([5], [5], []);
            && Enabled(d, PushOk([9], [[9]])) && Enabled(Do(d, PushOk([9], [[9]])), DivertOk)
            && Do(Do(d, PushOk([9], [[9]])), DivertOk) == Doomed()
  {
    hide DoOnB, DoOffMux, DoOffB;
    assert Flatten([[9]]) == [9] + Flatten([[9]][1..]) && DataItems([[9]]) == [Data([9])];
  }

  lemma ReachDoomed()
    ensures Reach(Witness(), DoomedState())
  {
    ReachClaimant();
    DoomedMoves();
    hide Reach, D.Observe, Opening, Do, Enabled;
    var c, s := Witness(), Claimant();
    Pushes(c, s, [9]);
    Attaches(c, Down(s, Do(s.down, PushOk([9], [[9]]))));
  }

  /** The byte has met the closed pipe, the barrier has been taken. */
  function Swallowed(): (d: Dir) {
    var d := Cut([5, 9], [5]);
    d.(rx := d.rx.(pipeDone := true, dropped := true, swallowed := 1))
  }

  lemma SwallowedMoves()
    ensures Enabled(Doomed(), ClosePipe)
    ensures var d := Do(Doomed(), ClosePipe);
            && Enabled(d, TakeDrop) && Enabled(Do(d, TakeDrop), TakeBarrier)
            && Do(Do(d, TakeDrop), TakeBarrier) == Swallowed()
            && d.rx.held == [] && Do(d, TakeDrop).rx.held == []
  {
    ClosePipeEffect(Doomed());
    var d := Do(Doomed(), ClosePipe);
    DropsByte(d);
    var e := Do(d, TakeDrop);
    assert Enabled(e, TakeBarrier);
    hide Do;
    BarrierEffect(e);
  }

  lemma DropsByte(d: Dir)
    requires d.mx.items == [Data([9]), Barrier] && d.rx.held == [] && d.rx.pipeDone
    ensures Enabled(d, TakeDrop)
    ensures Do(d, TakeDrop) == d.(mx := d.mx.(items := [Barrier]),
                                  rx := d.rx.(dropped := true, swallowed := d.rx.swallowed + 1))
  {
    hide DoOnMux, DoOnB, DoOffB;
  }

  function SwallowedState(): (s: State) {
    var s := DoomedState();
    Down(s, Swallowed()).(cl := s.cl.(side := s.cl.side.(die := PipeShut), goSeen := true, recvCut := AtOnce))
  }

  lemma ReachSwallowed()
    ensures Reach(Witness(), SwallowedState())
  {
    ReachDoomed();
    SwallowedMoves();
    hide Reach, D.Observe, Opening, Do, Enabled;
    var c, s := Witness(), DoomedState();
    Dies(c, s);
    ShutsPipe(c, Client2(s, s.cl.side.(die := Stored)));
    var t := Client2(Down(s, Do(Doomed(), ClosePipe)), s.cl.side.(die := PipeShut));
    Receives(c, t, TakeDrop);
    TakesGo(c, Down(t, Do(t.down, TakeDrop)));
  }

  lemma ReachDyingPump()
    ensures var s := SwallowedState();
            Reach(Witness(), Down(s, Pumping(Swallowed())).(
                               cl := s.cl.(recvCut := Returned, cut := Done, commits := 1)))
  {
    ReachSwallowed();
    hide Reach, D.Observe, Opening, Do, Enabled;
    var c, s := Witness(), SwallowedState();
    Commits(c, s);
    CanStart(Swallowed());
    StartEffect(Swallowed());
    Spawns(c, Committed1(s));
  }

  /** A clean end of B alone does not mean completeness: there is a run in which the
      client's stream dies before the last mux bytes are read, B ends cleanly, and
      the readers lack what the writes reported. */
  lemma DyingEndIsIncomplete()
    ensures exists s :: Reach(Witness(), s) && s.down.rx.rhc && s.cl.side.die != Alive
                        && s.down.rx.consumed == [5] && s.down.tx.accepted == [5, 9]
  {
    ReachDyingPump();
    hide Reach, D.Observe, Opening;
    var s := SwallowedState();
    EndsCleanly(Witness(), Down(s, Pumping(Swallowed())).(cl := s.cl.(recvCut := Returned, cut := Done, commits := 1)));
  }

  // ----- the client carrier: exactly when it is released ---------------------------

  /** The client enters closeOnce while bConn is still nil. */
  predicate EntersOnNil(s: State, st: Step) {
    st.Both? && st.w.Cl? && st.a.OnceEnter? && !s.cl.side.conn
  }

  /** ... somewhere along the run. */
  predicate OnceOnNil(s: State, tr: seq<Step>)
    requires Runs(s, tr)
    decreases tr
  {
    tr != [] && (EntersOnNil(s, tr[0]) || OnceOnNil(Apply(s, tr[0]), tr[1..]))
  }

  /** Only closeOnce closes the client's end of B. */
  predicate CloserInv(sd: Side) {
    sd.gone ==> sd.once == ConnShut || sd.once == Released
  }

  predicate OnceAct(a: Act) {
    a.OnceEnter? || a.OnceClose? || a.OnceNoConn? || a.OnceDone?
  }

  predicate DieAct(a: Act) {
    a.Die? || a.DiePipe? || a.DieLook? || a.DieCas? || a.DieShut? || a.DieArm? || a.DieReleased?
  }

  lemma DieActs(e: End, a: Act, idle: bool, broke: bool)
    requires CanAct(e, a, idle, broke) && DieAct(a)
    ensures var sd := DoAct(e, a, idle, broke).side; sd.once == e.side.once && sd.gone == e.side.gone
  {
    hide Do, Enabled, ShutOut, CanAct;
    match a
    case Die =>
    case DiePipe =>
    case DieLook =>
    case DieCas => assert e.o.tx.whc ==> DoAct(e, a, idle, broke).o == e.o;
    case DieShut =>
    case DieArm =>
    case DieReleased =>
  }

  lemma OtherActs(e: End, a: Act, idle: bool, broke: bool)
    requires CanAct(e, a, idle, broke) && !OnceAct(a) && !DieAct(a)
    ensures var sd := DoAct(e, a, idle, broke).side; sd.once == e.side.once && sd.gone == e.side.gone
  {
    hide Do, Enabled, ShutOut, CanAct, Noting;
    match a
    case Send(_) =>
    case Recv(_) =>
    case Reset(_) =>
    case CloseWrite =>
    case CloseWriteDone =>
    case SendFin(_) =>
    case TakeFin =>
    case FinDone =>
    case PumpGaveUp =>
  }

  lemma OnceActs(e: End, a: Act, idle: bool, broke: bool)
    requires CanAct(e, a, idle, broke) && CloserInv(e.side) && OnceAct(a)
    ensures var sd := DoAct(e, a, idle, broke).side;
            CloserInv(sd) && (Spent(sd) <==> Spent(e.side) || (a.OnceEnter? && !e.side.conn))
  {
    hide Do, Enabled, ShutOut, IsRecv, IsSend;
    match a
    case OnceEnter(_) =>
    case OnceClose =>
    case OnceNoConn =>
    case OnceDone =>
  }

  lemma ActCloser(e: End, a: Act, idle: bool, broke: bool)
    requires CanAct(e, a, idle, broke) && CloserInv(e.side)
    ensures var sd := DoAct(e, a, idle, broke).side;
            CloserInv(sd) && (Spent(sd) <==> Spent(e.side) || (a.OnceEnter? && !e.side.conn))
  {
    hide CanAct, DoAct;
    if OnceAct(a) {
      OnceActs(e, a, idle, broke);
    } else if DieAct(a) {
      DieActs(e, a, idle, broke);
    } else {
      OtherActs(e, a, idle, broke);
    }
  }

  predicate CutAct(a: ClientAct) {
    a.LoadReady? || a.LoadGo? || a.Commit? || a.Spawn? || a.Skip?
  }

  lemma CutCloser(s: State, a: ClientAct)
    requires CanClient(s, a) && CutAct(a)
    ensures ApplyClient(s, a).cl.side == s.cl.side
  {
    hide Do, Enabled, Preload, Opening, CanClient, Diverting;
    match a
    case LoadReady(_) =>
    case LoadGo(_) =>
    case Commit(_, _) =>
    case Spawn(_) =>
    case Skip(_) =>
  }

  lemma DialCloser(s: State, a: ClientAct)
    requires CanClient(s, a) && !CutAct(a)
    ensures ApplyClient(s, a).cl.side == s.cl.side.(conn := s.cl.side.conn || a.Publish?)
  {
    hide Do, Enabled, Preload, Opening, CanClient, SetCut;
    match a
    case TakeOffer(_) =>
    case Dialled(_) =>
    case Publish =>
    case OpenB(_) =>
    case OpenBFail(_, _) =>
    case Announce =>
    case TakeGo(_) =>
  }

  lemma ClientCloser(s: State, a: ClientAct)
    requires CanClient(s, a)
    ensures var sd := ApplyClient(s, a).cl.side; sd == s.cl.side.(conn := sd.conn)
  {
    hide CanClient, ApplyClient;
    if CutAct(a) {
      CutCloser(s, a);
    } else {
      DialCloser(s, a);
    }
  }

  lemma ServerLeavesClient(s: State, a: ServerAct)
    requires CanServer(s, a)
    ensures ApplyServer(s, a).cl == s.cl
  {
    hide Do, Enabled, ShutOut, Inspect, TapUplink, BeginUplink;
  }

  lemma StepCloser(s: State, st: Step)
    requires Can(s, st) && CloserInv(s.cl.side)
    ensures var sd := Apply(s, st).cl.side;
            CloserInv(sd) && (Spent(sd) <==> Spent(s.cl.side) || EntersOnNil(s, st))
  {
    hide CanAct, DoAct, CanClient, ApplyClient, CanServer, ApplyServer, TapDown;
    match st
    case Both(w, a) => if w.Cl? { ActCloser(Ends(s, Cl), a, RecvIdle(s, Cl), OpenBroke(s, Cl)); }
    case Client1(a) => ClientCloser(s, a);
    case Server1(a) => ServerLeavesClient(s, a);
  }

  lemma {:induction false} RunCloser(s: State, tr: seq<Step>)
    requires Runs(s, tr) && CloserInv(s.cl.side)
    ensures var sd := After(s, tr).cl.side;
            CloserInv(sd) && (Spent(sd) <==> Spent(s.cl.side) || OnceOnNil(s, tr))
    decreases tr
  {
    hide Can, Apply, CloserInv, Spent, EntersOnNil;
    if tr != [] {
      StepCloser(s, tr[0]);
      RunCloser(Apply(s, tr[0]), tr[1..]);
    }
  }

  /** Once the client's stream has ended with a carrier published: no continuation
      ever closes that carrier if and only if the run entered closeOnce while bConn
      was nil. Otherwise it is closed, or an enabled step still closes it. */
  lemma ClientCarrierFate(c: Setup, tr: seq<Step>)
    requires IsRun(c, tr)
    requires var sd := Reached(c, tr).cl.side; sd.die == Ended && sd.conn
    ensures var s := Reached(c, tr);
            (forall more :: Runs(s, more) ==> !After(s, more).cl.side.gone) <==> OnceOnNil(Boot(c), tr)
  {
    ReachedHasInv(c, tr);
    RunCloser(Boot(c), tr);
    var s := Reached(c, tr);
    hide IsRun, Reached;
    if Spent(s.cl.side) {
      forall more | Runs(s, more) ensures !After(s, more).cl.side.gone {
        RunCloser(s, more);
      }
    } else {
      var more := CloseIt(s);
      assert Runs(s, more) && After(s, more).cl.side.gone;
    }
  }

  lemma CloseIt(s: State) returns (more: seq<Step>)
    requires Inv(s) && s.cl.side.die == Ended && s.cl.side.conn && !Spent(s.cl.side)
    ensures Runs(s, more) && After(s, more).cl.side.gone
  {
    hide DirInv, CutInv, GateInv, WireInv, OfferInv, OnceInv, Do;
    if s.cl.side.gone {
      more := [];
    } else if s.cl.side.once == Got(true) {
      more := CloseNow(s);
    } else {
      var enter := Both(Cl, OnceEnter(Timer));
      var rest := CloseNow(Apply(s, enter));
      more := [enter] + rest;
      assert more[0] == enter && more[1..] == rest;
    }
  }

  lemma CloseNow(s: State) returns (more: seq<Step>)
    requires s.cl.side.once == Got(true)
    ensures Runs(s, more) && After(s, more).cl.side.gone
  {
    hide Do, ShutOut;
    var close := Both(Cl, OnceClose);
    more := [close];
    assert more[1..] == [] && Runs(Apply(s, close), []) && After(Apply(s, close), []) == Apply(s, close);
  }

  lemma StreamEnds(c: Setup, s: State)
    requires Reach(c, s) && s.cl.side.die == Alive && !s.up.tx.diverted && Enabled(s.down, ClosePipe)
    ensures Reach(c, Client2(Down(s, Do(s.down, ClosePipe)), s.cl.side.(die := SawMux)))
  {
    hide Reach, Do, Enabled;
    var t, sd := Down(s, Do(s.down, ClosePipe)), s.cl.side;
    Dies(c, s);
    ShutsPipe(c, Client2(s, sd.(die := Stored)));
    assert Client2(Down(Client2(s, sd.(die := Stored)), t.down), sd.(die := PipeShut))
        == Client2(t, sd.(die := PipeShut));
    LooksAtMux(c, Client2(t, sd.(die := PipeShut)));
  }

  /** closeCarrier on behalf of the ended stream finds no connection. */
  lemma SpendsOnce(c: Setup, s: State)
    requires Reach(c, s) && s.cl.side.die == SawMux && s.cl.side.once == Idle && !s.cl.side.conn
    ensures Reach(c, Client2(s, s.cl.side.(die := Ended, once := Released)))
  {
    hide Reach;
    var sd := s.cl.side;
    EntersOnce(c, s);
    FindsNoConn(c, Client2(s, sd.(once := Got(false))));
    LeavesOnce(c, Client2(s, sd.(once := ConnShut)));
    FinishesDying(c, Client2(s, sd.(once := Released)));
  }

  /** The client's stream has ended while the dial is under way. */
  function Spurned(): (s: State)
    requires Enabled(Dialling().down, ClosePipe)
  {
    var s := Dialling();
    Client2(Down(s, Do(s.down, ClosePipe)), s.cl.side.(die := SawMux))
  }

  /** The race exists: the stream ends while the client dials, closeOnce is used up
      on a nil bConn, and the carrier published afterwards is never closed. */
  lemma ClientCarrierLeaks()
    ensures exists tr :: IsRun(Witness(), tr) && OnceOnNil(Boot(Witness()), tr)
                         && Reached(Witness(), tr).cl.side.die == Ended && Reached(Witness(), tr).cl.side.conn
  {
    hide Runs, After, OnceOnNil, Reach, Witness;
    var s := Leaky();
    var tr := Trace(Witness(), s);
    RunCloser(Boot(Witness()), tr);
  }

  lemma Trace(c: Setup, s: State) returns (tr: seq<Step>)
    requires Reach(c, s)
    ensures IsRun(c, tr) && Reached(c, tr) == s
  {
    hide IsRun, Reached;
    tr :| IsRun(c, tr) && Reached(c, tr) == s;
  }

  lemma Leaky() returns (s: State)
    ensures Reach(Witness(), s) && s.cl.side.die == Ended && s.cl.side.conn && Spent(s.cl.side)
  {
    ReachDialling();
    ClosePipeEffect(Dialling().down);
    hide Reach, D.Observe, Do, Enabled;
    var c, t := Witness(), Spurned();
    StreamEnds(c, Dialling());
    SpendsOnce(c, t);
    var u := Client2(t, t.cl.side.(die := Ended, once := Released));
    Publishes(c, u);
    s := Published1(u);
  }
}
