/** Stream accounting on one pooled session: opens that are refused, fail on the
    SYN write or succeed, racing the close of the session and of each stream. Each
    step is one lock section or atomic action. Frames from the peer name a stream
    only after its SYN was written. */
module Accounting {

  datatype Phase =
    | Opening      // counted by openOn, not yet registered
    | Registered   // in the session's map, SYN not yet written
    | SynFailed    // the SYN write failed
    | Deleted      // ... and the stream was taken out of the map
    | Open         // handed to the caller
    | Failed       // openOn returned the error

  /** dead: dieErr is set. hooked: the die hook ran. */
  datatype Stream = Stream(phase: Phase, mapped: bool, dead: bool, hooked: bool)

  datatype Sweep = NotYet | Sweeping(todo: set<nat>) | Swept

  datatype State = State(active: int, closed: bool, broken: bool, sweep: Sweep, streams: map<nat, Stream>)

  datatype Step =
    | Begin(id: nat)          // openOn counts before opening
    | Refuse(id: nat)         // OpenStream fails before registering
    | Register(id: nat)
    | SynWritten(id: nat)
    | SynLost(id: nat)        // writeControlFrame fails and closes the session
    | Delete(id: nat)
    | RollBack(id: nat)       // openOn's error path, dieErr still nil
    | LeaveToHook(id: nat)    // openOn's error path, dieErr set
    | Break                   // connBroken
    | StartClose              // the session's dieOnce
    | SweepBegin              // Close takes streamLock ...
    | SweepKill(id: nat)      // ... closes each registered stream ...
    | SweepEnd                // ... and empties the map
    | RemoteFin(id: nat)      // cmdFIN: out of the map, closed locally
    | LocalEnd(id: nat)       // closeWithError: by the user or a SYNACK error
    | Forget(id: nat)         // streamClosed takes it out of the map
    | RunHook(id: nat)        // the die hook: the count goes down

  function Init(): (s: State) {
    State(0, false, false, NotYet, map[])
  }

  predicate At(s: State, id: nat, phase: Phase) {
    id in s.streams && s.streams[id].phase == phase
  }

  predicate Unlocked(s: State) {
    !s.sweep.Sweeping?
  }

  predicate Can(s: State, step: Step) {
    match step
    case Begin(id) => id !in s.streams
    case Refuse(id) => At(s, id, Opening) && (s.closed || s.broken)
    case Register(id) => At(s, id, Opening) && Unlocked(s) && !s.closed
    case SynWritten(id) => At(s, id, Registered)
    case SynLost(id) => At(s, id, Registered)
    case Delete(id) => At(s, id, SynFailed) && Unlocked(s)
    case RollBack(id) => At(s, id, Deleted) && !s.streams[id].dead
    case LeaveToHook(id) => At(s, id, Deleted) && s.streams[id].dead
    case Break => true
    case StartClose => true
    case SweepBegin => s.closed && s.sweep.NotYet?
    case SweepKill(id) => s.sweep.Sweeping? && id in s.sweep.todo && id in s.streams
    case SweepEnd => s.sweep.Sweeping? && s.sweep.todo == {}
    case RemoteFin(id) => At(s, id, Open) && s.streams[id].mapped && Unlocked(s)
    case LocalEnd(id) => At(s, id, Open)
    case Forget(id) => At(s, id, Open) && s.streams[id].dead && Unlocked(s)
    case RunHook(id) => id in s.streams && s.streams[id].dead && !s.streams[id].hooked
  }

  function With(s: State, id: nat, x: Stream): (t: State) {
    s.(streams := s.streams[id := x])
  }

  function Apply(s: State, step: Step): (t: State)
    requires Can(s, step)
  {
    match step
    case Begin(id) => With(s, id, Stream(Opening, false, false, false)).(active := s.active + 1)
    case Refuse(id) => With(s, id, s.streams[id].(phase := Failed)).(active := s.active - 1)
    case Register(id) => With(s, id, s.streams[id].(phase := Registered, mapped := true))
    case SynWritten(id) => With(s, id, s.streams[id].(phase := Open))
    case SynLost(id) => With(s, id, s.streams[id].(phase := SynFailed)).(closed := true)
    case Delete(id) => With(s, id, s.streams[id].(phase := Deleted, mapped := false))
    case RollBack(id) => With(s, id, s.streams[id].(phase := Failed)).(active := s.active - 1)
    case LeaveToHook(id) => With(s, id, s.streams[id].(phase := Failed))
    case Break => s.(broken := true)
    case StartClose => s.(closed := true)
    case SweepBegin => s.(sweep := Sweeping(set id | id in s.streams && s.streams[id].mapped))
    case SweepKill(id) =>
      With(s, id, s.streams[id].(dead := true)).(sweep := Sweeping(s.sweep.todo - {id}))
    case SweepEnd =>
      s.(sweep := Swept, streams := map id | id in s.streams :: s.streams[id].(mapped := false))
    case RemoteFin(id) => With(s, id, s.streams[id].(mapped := false, dead := true))
    case LocalEnd(id) => With(s, id, s.streams[id].(dead := true))
    case Forget(id) => With(s, id, s.streams[id].(mapped := false))
    case RunHook(id) => With(s, id, s.streams[id].(hooked := true)).(active := s.active - 1)
  }

  /** Counted: an open in progress, or a stream whose die hook has still to run.
      A failed open counts only while a hook is still due. */
  predicate Counted(x: Stream) {
    !x.hooked && (x.phase.Failed? ==> x.dead)
  }

  ghost function CountedIds(m: map<nat, Stream>): (r: set<nat>) {
    set id | id in m && Counted(m[id])
  }

  predicate StreamOk(s: State, id: nat)
    requires id in s.streams
  {
    var x := s.streams[id];
    && (x.mapped ==> x.phase.Registered? || x.phase.SynFailed? || x.phase.Open?)
    && (x.hooked ==> x.dead)
    && (x.phase.Opening? ==> !x.dead)
    && (Listed(x) && !x.mapped ==> x.dead)
    && (x.mapped && s.sweep.Sweeping? && id !in s.sweep.todo ==> x.dead)
    && (x.mapped ==> !s.sweep.Swept?)
  }

  /** Registered, and not taken back by a failed SYN. */
  predicate Listed(x: Stream) {
    x.phase.Registered? || x.phase.SynFailed? || x.phase.Open?
  }

  ghost predicate Inv(s: State) {
    && s.active == |CountedIds(s.streams)|
    && (forall id :: id in s.streams ==> StreamOk(s, id))
    && (s.sweep.Sweeping? ==> forall id :: id in s.sweep.todo ==> id in s.streams && s.streams[id].mapped)
    && (!s.sweep.NotYet? ==> s.closed)
  }

  function One(b: bool): (n: nat) {
    if b then 1 else 0
  }

  /** One stream changes: the count moves by what it counted before and after. */
  lemma CountWith(m: map<nat, Stream>, id: nat, x: Stream)
    ensures |CountedIds(m[id := x])| == |CountedIds(m)| - One(id in m && Counted(m[id])) + One(Counted(x))
  {
    var before, after := CountedIds(m), CountedIds(m[id := x]);
    assert before - {id} == after - {id};
    Without(before, id);
    Without(after, id);
  }

  lemma Without(ids: set<nat>, id: nat)
    ensures |ids - {id}| == |ids| - One(id in ids)
  {
    if id !in ids {
      assert ids - {id} == ids;
    }
  }

  lemma CountUnmapped(m: map<nat, Stream>)
    ensures CountedIds(map id | id in m :: m[id].(mapped := false)) == CountedIds(m)
  {
  }

  /** The stream a step is about. */
  function Subject(step: Step): (id: nat) {
    match step
    case Begin(id) => id
    case Refuse(id) => id
    case Register(id) => id
    case SynWritten(id) => id
    case SynLost(id) => id
    case Delete(id) => id
    case RollBack(id) => id
    case LeaveToHook(id) => id
    case Break => 0
    case StartClose => 0
    case SweepBegin => 0
    case SweepKill(id) => id
    case SweepEnd => 0
    case RemoteFin(id) => id
    case LocalEnd(id) => id
    case Forget(id) => id
    case RunHook(id) => id
  }

  lemma StepCounts(s: State, step: Step)
    requires Inv(s) && Can(s, step)
    ensures var t := Apply(s, step); t.active == |CountedIds(t.streams)|
  {
    var t := Apply(s, step);
    var id := Subject(step);
    if id in t.streams {
      CountWith(s.streams, id, t.streams[id]);
    }
    CountUnmapped(s.streams);
    hide CountedIds;
    match step
    case Begin(id) =>
    case Refuse(id) =>
      assert StreamOk(s, id);
    case Register(id) =>
    case SynWritten(id) =>
    case SynLost(id) =>
    case Delete(id) =>
    case RollBack(id) =>
      assert StreamOk(s, id);
    case LeaveToHook(id) =>
    case Break =>
    case StartClose =>
    case SweepBegin =>
    case SweepKill(id) =>
      assert StreamOk(s, id) && s.streams[id].mapped;
    case SweepEnd =>
    case RemoteFin(id) =>
    case LocalEnd(id) =>
    case Forget(id) =>
    case RunHook(id) =>
  }

  lemma StepStreams(s: State, step: Step)
    requires Inv(s) && Can(s, step)
    ensures var t := Apply(s, step);
            && (forall id :: id in t.streams ==> StreamOk(t, id))
            && (t.sweep.Sweeping? ==> forall id :: id in t.sweep.todo ==> id in t.streams && t.streams[id].mapped)
            && (!t.sweep.NotYet? ==> t.closed)
  {
    hide CountedIds;
    forall id | id in Apply(s, step).streams ensures StreamOk(Apply(s, step), id) {
      StreamNext(s, step, id);
    }
    hide StreamOk;
  }

  /** Steps of the session rather than of one stream. */
  predicate Wide(x: Step) {
    x.Break? || x.StartClose? || x.SweepBegin? || x.SweepEnd?
  }

  lemma StreamNext(s: State, step: Step, id: nat)
    requires Can(s, step) && id in Apply(s, step).streams && (id in s.streams ==> StreamOk(s, id))
    requires !s.sweep.NotYet? ==> s.closed
    requires s.sweep.Sweeping? ==> forall k :: k in s.sweep.todo ==> k in s.streams && s.streams[k].mapped
    ensures StreamOk(Apply(s, step), id)
  {
    if Wide(step) {
      WideNext(s, step, id);
    } else if Subject(step) != id {
      OtherNext(s, step, id);
    } else {
      OwnNext(s, step, id);
    }
  }

  lemma OtherNext(s: State, step: Step, id: nat)
    requires Can(s, step) && !Wide(step) && Subject(step) != id && id in s.streams && StreamOk(s, id)
    ensures id in Apply(s, step).streams && StreamOk(Apply(s, step), id)
  {
    OthersStay(s, step, id);
    SweepShrinks(s, step, id);
    hide Apply, Can;
  }

  lemma OthersStay(s: State, x: Step, id: nat)
    requires Can(s, x) && !Wide(x) && Subject(x) != id && id in s.streams
    ensures id in Apply(s, x).streams && Apply(s, x).streams[id] == s.streams[id]
  {
  }

  lemma SweepShrinks(s: State, x: Step, id: nat)
    requires Can(s, x) && !Wide(x) && Subject(x) != id
    ensures var t := Apply(s, x).sweep;
            && t.Sweeping? == s.sweep.Sweeping? && t.Swept? == s.sweep.Swept?
            && (t.Sweeping? ==> (id in t.todo <==> id in s.sweep.todo))
  {
  }

  lemma WideNext(s: State, step: Step, id: nat)
    requires Can(s, step) && id in s.streams && StreamOk(s, id) && Wide(step)
    ensures id in Apply(s, step).streams && StreamOk(Apply(s, step), id)
  {
    match step
    case Break =>
    case StartClose =>
    case SweepBegin =>
    case SweepEnd =>
  }

  lemma OwnNext(s: State, step: Step, id: nat)
    requires Can(s, step) && id in Apply(s, step).streams && (id in s.streams ==> StreamOk(s, id))
    requires !Wide(step) && Subject(step) == id && (!s.sweep.NotYet? ==> s.closed)
    requires s.sweep.Sweeping? ==> forall k :: k in s.sweep.todo ==> k in s.streams && s.streams[k].mapped
    ensures StreamOk(Apply(s, step), id)
  {
    match step
    case Begin(_) =>
    case Refuse(_) =>
    case Register(_) =>
    case SynWritten(_) =>
    case SynLost(_) =>
    case Delete(_) =>
    case RollBack(_) =>
    case LeaveToHook(_) =>
    case SweepKill(_) =>
    case RemoteFin(_) =>
    case LocalEnd(_) =>
    case Forget(_) =>
    case RunHook(_) =>
  }

  // ----- runs ------------------------------------------------------------------------

  ghost predicate Runs(steps: seq<Step>)
    decreases |steps|
  {
    steps == [] || (Runs(steps[..|steps| - 1]) && Can(After(steps[..|steps| - 1]), steps[|steps| - 1]))
  }

  ghost function After(steps: seq<Step>): (s: State)
    decreases |steps|
  {
    if steps == [] then Init()
    else
      var s := After(steps[..|steps| - 1]);
      if Can(s, steps[|steps| - 1]) then Apply(s, steps[|steps| - 1]) else s
  }

  lemma {:induction false} RunKeeps(steps: seq<Step>)
    requires Runs(steps)
    ensures Inv(After(steps))
  {
    if steps != [] {
      var n := |steps| - 1;
      RunKeeps(steps[..n]);
      StepCounts(After(steps[..n]), steps[n]);
      StepStreams(After(steps[..n]), steps[n]);
    }
  }

  /** activeStreams is exact after every run, so it is never negative: it counts
      the opens in progress and the streams whose die hook has not run. */
  lemma CountIsExact(steps: seq<Step>)
    requires Runs(steps)
    ensures var s := After(steps);
            s.active == |CountedIds(s.streams)| && s.active >= 0
  {
    RunKeeps(steps);
  }

  /** The hook that brings the count to zero, and so parks the session in the
      idle pool, runs only when no open is in progress and every other stream's
      hook has run; and it is the last: no count can go below zero afterwards. */
  lemma ParksOnlyWhenIdle(steps: seq<Step>, id: nat)
    requires Runs(steps) && Can(After(steps), RunHook(id))
    ensures var s := After(steps);
            var t := Apply(s, RunHook(id));
            t.active <= 0 <==> forall other :: other in s.streams && other != id ==> !Counted(s.streams[other])
  {
    RunKeeps(steps);
    var s := After(steps);
    var t := Apply(s, RunHook(id));
    StepCounts(s, RunHook(id));
    assert forall other :: other in CountedIds(t.streams) ==> other != id && Counted(s.streams[other]);
    if t.active > 0 {
      var other :| other in CountedIds(t.streams);
    } else {
      assert CountedIds(t.streams) == {};
      forall other | other in s.streams && other != id ensures !Counted(s.streams[other]) {
        assert other !in CountedIds(t.streams);
      }
    }
  }

  // ----- the state, told by the steps alone --------------------------------------------

  /** A stream from the steps that named it, each of which comes at most once. */
  ghost predicate ToldOf(steps: seq<Step>, x: Stream, id: nat) {
    && (x.dead <==> SweepKill(id) in steps || RemoteFin(id) in steps || LocalEnd(id) in steps)
    && (x.hooked <==> RunHook(id) in steps)
    && x.phase == (if Refuse(id) in steps || RollBack(id) in steps || LeaveToHook(id) in steps then Failed
                   else if Delete(id) in steps then Deleted
                   else if SynLost(id) in steps then SynFailed
                   else if SynWritten(id) in steps then Open
                   else if Register(id) in steps then Registered
                   else Opening)
    && (x.mapped <==> Register(id) in steps && Delete(id) !in steps && RemoteFin(id) !in steps
                      && Forget(id) !in steps && SweepEnd !in steps)
    && (RemoteFin(id) in steps || Forget(id) in steps || LocalEnd(id) in steps ==> SynWritten(id) in steps)
    && (SynWritten(id) in steps || SynLost(id) in steps || SweepKill(id) in steps ==> Register(id) in steps)
    && (Delete(id) in steps ==> SynLost(id) in steps)
    && (RollBack(id) in steps || LeaveToHook(id) in steps ==> Delete(id) in steps)
    && (Refuse(id) in steps ==> Register(id) !in steps)
  }

  ghost predicate Told(steps: seq<Step>, s: State) {
    && (s.closed <==> StartClose in steps || exists id :: SynLost(id) in steps)
    && (s.broken <==> Break in steps)
    && (s.sweep.NotYet? <==> SweepBegin !in steps) && (s.sweep.Swept? <==> SweepEnd in steps)
    && (forall id :: id in s.streams <==> Begin(id) in steps)
    && (forall id :: id in s.streams ==> ToldOf(steps, s.streams[id], id))
    && (forall x :: x in steps && !Wide(x) ==> Begin(Subject(x)) in steps)
  }

  lemma ToldNext(steps: seq<Step>, s: State, x: Step, id: nat)
    requires Inv(s) && Told(steps, s) && Can(s, x) && id in Apply(s, x).streams
    ensures ToldOf(steps + [x], Apply(s, x).streams[id], id)
  {
    hide CountedIds;
    if Wide(x) {
      assert StreamOk(s, id) && ToldOf(steps, s.streams[id], id);
      hide ToldOf;
      ToldByWide(steps, s, x, id);
    } else if Subject(x) != id {
      assert ToldOf(steps, s.streams[id], id);
      hide ToldOf;
      ToldByOther(steps, s.streams[id], x, id);
      OthersStay(s, x, id);
    } else if id in s.streams {
      assert StreamOk(s, id) && ToldOf(steps, s.streams[id], id);
      hide ToldOf, Told;
      ToldByOwn(steps, s, x, id);
    } else {
      hide ToldOf;
      ToldByBegin(steps, x, id);
    }
  }

  lemma ToldByOther(steps: seq<Step>, z: Stream, x: Step, id: nat)
    requires ToldOf(steps, z, id) && !Wide(x) && Subject(x) != id
    ensures ToldOf(steps + [x], z, id)
  {
  }

  lemma ToldByWide(steps: seq<Step>, s: State, x: Step, id: nat)
    requires id in s.streams && ToldOf(steps, s.streams[id], id) && Can(s, x) && Wide(x)
    ensures ToldOf(steps + [x], Apply(s, x).streams[id], id)
  {
  }

  lemma ToldByBegin(steps: seq<Step>, x: Step, id: nat)
    requires x == Begin(id) && forall y :: y in steps && !Wide(y) ==> Subject(y) != id
    ensures ToldOf(steps + [x], Stream(Opening, false, false, false), id)
  {
  }

  /** The steps of an open, and of its failure. */
  predicate Opens(x: Step) {
    x.Refuse? || x.Register? || x.SynWritten? || x.SynLost? || x.Delete? || x.RollBack? || x.LeaveToHook?
  }

  lemma ToldByOwn(steps: seq<Step>, s: State, x: Step, id: nat)
    requires id in s.streams && StreamOk(s, id) && ToldOf(steps, s.streams[id], id) && Can(s, x)
    requires !Wide(x) && Subject(x) == id
    requires (!s.sweep.NotYet? ==> s.closed) && (s.sweep.Swept? <==> SweepEnd in steps)
    requires s.sweep.Sweeping? ==> forall k :: k in s.sweep.todo ==> k in s.streams && s.streams[k].mapped
    ensures ToldOf(steps + [x], Apply(s, x).streams[id], id)
  {
    if Opens(x) {
      ToldByOpen(steps, s, x, id);
    } else {
      ToldByEnd(steps, s, x, id);
    }
  }

  lemma ToldByOpen(steps: seq<Step>, s: State, x: Step, id: nat)
    requires id in s.streams && StreamOk(s, id) && ToldOf(steps, s.streams[id], id) && Can(s, x)
    requires Opens(x) && Subject(x) == id
    requires (!s.sweep.NotYet? ==> s.closed) && (s.sweep.Swept? <==> SweepEnd in steps)
    ensures ToldOf(steps + [x], Apply(s, x).streams[id], id)
  {
    match x
    case Refuse(_) =>
    case Register(_) =>
    case SynWritten(_) =>
    case SynLost(_) =>
    case Delete(_) =>
    case RollBack(_) =>
    case LeaveToHook(_) =>
  }

  lemma ToldByEnd(steps: seq<Step>, s: State, x: Step, id: nat)
    requires id in s.streams && StreamOk(s, id) && ToldOf(steps, s.streams[id], id) && Can(s, x)
    requires !Opens(x) && !Wide(x) && Subject(x) == id
    requires s.sweep.Sweeping? ==> forall k :: k in s.sweep.todo ==> k in s.streams && s.streams[k].mapped
    ensures ToldOf(steps + [x], Apply(s, x).streams[id], id)
  {
    match x
    case SweepKill(_) =>
    case RemoteFin(_) =>
    case LocalEnd(_) =>
    case Forget(_) =>
    case RunHook(_) =>
  }

  lemma ToldSession(steps: seq<Step>, s: State, x: Step)
    requires Told(steps, s) && Can(s, x)
    ensures var t, more := Apply(s, x), steps + [x];
            && (t.broken <==> Break in more)
            && (t.sweep.NotYet? <==> SweepBegin !in more) && (t.sweep.Swept? <==> SweepEnd in more)
            && (forall id :: id in t.streams <==> Begin(id) in more)
            && (forall y :: y in more && !Wide(y) ==> Begin(Subject(y)) in more)
  {
    hide ToldOf;
  }

  lemma ToldClosed(steps: seq<Step>, s: State, x: Step)
    requires Can(s, x) && (s.closed <==> StartClose in steps || exists id :: SynLost(id) in steps)
    ensures Apply(s, x).closed <==> StartClose in steps + [x] || exists id :: SynLost(id) in steps + [x]
  {
    var more := steps + [x];
    if exists id :: SynLost(id) in steps {
      var id :| SynLost(id) in steps;
      assert SynLost(id) in more;
    }
    if x.SynLost? {
      assert SynLost(x.id) in more;
    }
  }

  lemma ToldStep(steps: seq<Step>, s: State, x: Step)
    requires Inv(s) && Told(steps, s) && Can(s, x)
    ensures Told(steps + [x], Apply(s, x))
  {
    ToldSession(steps, s, x);
    ToldClosed(steps, s, x);
    hide Inv, ToldOf, Apply, Can;
    forall id | id in Apply(s, x).streams ensures ToldOf(steps + [x], Apply(s, x).streams[id], id) {
      ToldNext(steps, s, x, id);
    }
  }

  /** The state after every run is what its steps say: which streams exist, how far
      each open got, what killed it, whether its hook ran, and whether the session is
      closed. */
  lemma {:induction false} StateIsTold(steps: seq<Step>)
    requires Runs(steps)
    ensures Told(steps, After(steps))
  {
    if steps != [] {
      var n := |steps| - 1;
      assert After(steps) == Apply(After(steps[..n]), steps[n]) && steps == steps[..n] + [steps[n]];
      RunKeeps(steps[..n]);
      hide Inv, Told, Apply, Can, After;
      StateIsTold(steps[..n]);
      ToldStep(steps[..n], After(steps[..n]), steps[n]);
    }
  }

  /** Close kills every stream that was registered and not taken back, whatever it
      races with; afterwards no stream is in the map. */
  lemma CloseKillsAll(steps: seq<Step>, id: nat)
    requires Runs(steps) && SweepEnd in steps && Register(id) in steps
    ensures var s := After(steps);
            id in s.streams && !s.streams[id].mapped && (s.streams[id].dead || Delete(id) in steps)
  {
    StateIsTold(steps);
    RunKeeps(steps);
    var s := After(steps);
    assert Begin(Subject(Register(id))) in steps;
    assert StreamOk(s, id) && ToldOf(steps, s.streams[id], id);
  }

  /** Which step a counted stream can take next. */
  function Next(s: State, id: nat): (step: Step)
    requires id in s.streams
  {
    var x := s.streams[id];
    if x.dead then RunHook(id)
    else match x.phase
      case Opening => if s.closed || s.broken then Refuse(id) else Register(id)
      case Registered => SynWritten(id)
      case SynFailed => Delete(id)
      case Deleted => RollBack(id)
      case _ => LocalEnd(id)
  }

  /** After every run each counted stream can take a step of its own, unless the close
      holds streamLock, and then the close can go on; an open stream can always be
      ended, and a SYN always written or lost. */
  lemma NothingBlocks(steps: seq<Step>, id: nat)
    requires Runs(steps)
    ensures var s := After(steps);
            && (id in s.streams && Counted(s.streams[id]) ==> Can(s, Next(s, id)) || s.sweep.Sweeping?)
            && (s.sweep.Sweeping? ==> Can(s, SweepEnd) || exists k :: Can(s, SweepKill(k)))
            && (At(s, id, Open) ==> Can(s, LocalEnd(id)))
            && (At(s, id, Open) && s.streams[id].mapped && !s.sweep.Sweeping? ==> Can(s, RemoteFin(id)))
            && (At(s, id, Open) && s.streams[id].dead && !s.sweep.Sweeping? ==> Can(s, Forget(id)))
            && (At(s, id, Registered) ==> Can(s, SynWritten(id)) && Can(s, SynLost(id)))
            && (s.closed && s.sweep.NotYet? ==> Can(s, SweepBegin)) && Can(s, StartClose) && Can(s, Break)
            && (id !in s.streams ==> Can(s, Begin(id)))
  {
    RunKeeps(steps);
    var s := After(steps);
    hide Runs, After, CountedIds, StreamOk, Can, Next, Counted;
    SweepGoesOn(s);
    CallsGoOn(s, id);
    if id in s.streams && Counted(s.streams[id]) && !s.sweep.Sweeping? {
      CanMove(s, id);
    }
  }

  lemma SweepGoesOn(s: State)
    requires s.sweep.Sweeping? ==> forall id :: id in s.sweep.todo ==> id in s.streams && s.streams[id].mapped
    ensures s.sweep.Sweeping? ==> Can(s, SweepEnd) || exists k :: Can(s, SweepKill(k))
  {
    if s.sweep.Sweeping? && s.sweep.todo != {} {
      var k :| k in s.sweep.todo;
      assert Can(s, SweepKill(k));
    }
  }

  lemma CallsGoOn(s: State, id: nat)
    ensures At(s, id, Open) ==> Can(s, LocalEnd(id))
    ensures At(s, id, Open) && s.streams[id].mapped && !s.sweep.Sweeping? ==> Can(s, RemoteFin(id))
    ensures At(s, id, Open) && s.streams[id].dead && !s.sweep.Sweeping? ==> Can(s, Forget(id))
    ensures At(s, id, Registered) ==> Can(s, SynWritten(id)) && Can(s, SynLost(id))
    ensures (s.closed && s.sweep.NotYet? ==> Can(s, SweepBegin)) && Can(s, StartClose) && Can(s, Break)
    ensures id !in s.streams ==> Can(s, Begin(id))
  {
  }

  lemma CanMove(s: State, id: nat)
    requires id in s.streams && Counted(s.streams[id]) && !s.sweep.Sweeping?
    ensures Can(s, Next(s, id))
  {
    match s.streams[id].phase
    case Opening =>
    case Registered =>
    case SynFailed =>
    case Deleted =>
    case Open =>
    case Failed =>
  }

  // ----- a closed session empties -----------------------------------------------------

  lemma RunOn(steps: seq<Step>, x: Step)
    requires Runs(steps) && Can(After(steps), x)
    ensures Runs(steps + [x]) && After(steps + [x]) == Apply(After(steps), x)
  {
    assert (steps + [x])[..|steps|] == steps;
  }

  /** The step that settles a counted stream once the close has swept. */
  function Settles(x: Stream, id: nat): (step: Step) {
    if x.dead then RunHook(id) else if x.phase.Opening? then Refuse(id) else RollBack(id)
  }

  /** It can be taken, and touches no other stream. */
  lemma Settle(steps: seq<Step>, id: nat) returns (more: seq<Step>)
    requires Runs(steps) && After(steps).sweep.Swept?
    requires id in After(steps).streams && Counted(After(steps).streams[id])
    ensures Runs(more) && After(more).sweep.Swept? && After(more).streams.Keys == After(steps).streams.Keys
    ensures !Counted(After(more).streams[id])
    ensures forall k :: k in After(steps).streams && k != id ==> After(more).streams[k] == After(steps).streams[k]
  {
    var s := After(steps);
    RunKeeps(steps);
    assert StreamOk(s, id);
    hide Inv, Runs, After, CountedIds;
    var step := Settles(s.streams[id], id);
    more := steps + [step];
    RunOn(steps, step);
  }

  lemma FewerCounted(a: map<nat, Stream>, b: map<nat, Stream>, id: nat)
    requires a.Keys == b.Keys && id in a && Counted(a[id]) && !Counted(b[id])
    requires forall k :: k in a && k != id ==> b[k] == a[k]
    ensures |CountedIds(b)| < |CountedIds(a)|
  {
    assert CountedIds(b) == CountedIds(a) - {id};
    Without(CountedIds(a), id);
  }

  /** From every run whose session has closed and swept, the count can be brought to
      zero: no failure or race leaves a stream counted for ever. */
  lemma {:induction false} CountDrains(steps: seq<Step>) returns (more: seq<Step>)
    requires Runs(steps) && After(steps).sweep.Swept?
    ensures Runs(more) && After(more).active == 0
    decreases |CountedIds(After(steps).streams)|
  {
    var s := After(steps);
    RunKeeps(steps);
    if CountedIds(s.streams) == {} {
      more := steps;
    } else {
      var id :| id in CountedIds(s.streams);
      more := Settle(steps, id);
      FewerCounted(s.streams, After(more).streams, id);
      hide Inv, Runs, After, CountedIds;
      more := CountDrains(more);
    }
  }
}
