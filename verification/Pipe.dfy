/** The synchronous pipe under every stream: parallel readers and writers meet in
    a hand-off, with deadlines and closes at any point. Each step is one select
    case, lock operation or channel exchange. */
module Pipe {
  import opened Basics
  import opened Frames

  datatype Error = Eof | ClosedPipe | Deadline | Custom(code: nat)

  /** The holder of wrMu. `n` bytes of `data` have been taken so far; `first`
      is the loop's `once`, which lets an empty write hand over once. */
  datatype Holder =
    | Free
    | Offering(writer: nat, data: seq<byte>, n: nat, first: bool)
    | Awaiting(writer: nat, data: seq<byte>, n: nat, reader: nat, room: nat, taken: nat)

  datatype Written = Written(writer: nat, data: seq<byte>, n: nat, err: Option<Error>)

  datatype Got = Got(reader: nat, room: nat, bytes: seq<byte>, err: Option<Error>)

  datatype State = State(
    waiting: map<nat, seq<byte>>,  // writers queued on wrMu
    holder: Holder,
    reading: map<nat, nat>,        // readers in their second select, with the room they offer
    done: bool,
    rerr: Option<Error>,
    werr: Option<Error>,
    wrote: seq<Written>,          // returned writes, in lock order
    got: seq<Got>)               // returned reads, in hand-off order

  datatype Step =
    | StartWrite(writer: nat, data: seq<byte>)
    | RefuseWrite(writer: nat, data: seq<byte>, late: bool)
    | TakeLock(writer: nat)
    | StartRead(reader: nat, room: nat)
    | RefuseRead(reader: nat, room: nat, late: bool)
    | HandOver(reader: nat)
    | Acknowledge
    | AbandonWrite(late: bool)
    | AbandonRead(reader: nat, late: bool)
    | StoreReadError(err: Option<Error>)
    | StoreWriteError(err: Option<Error>)
    | CloseDone

  function Init(): (s: State) {
    State(map[], Free, map[], false, None, None, [], [])
  }

  // ----- the close-error rules ----------------------------------------------------

  function ReadCloseError(s: State): (e: Error) {
    if s.rerr.None? && s.werr.Some? then s.werr.value else ClosedPipe
  }

  function WriteCloseError(s: State): (e: Error) {
    if s.werr.None? && s.rerr.Some? then s.rerr.value else ClosedPipe
  }

  /** `late`: the deadline's branch of a select, else the closed pipe's. */
  function WriteEnd(s: State, late: bool): (e: Error) {
    if late then Deadline else WriteCloseError(s)
  }

  function ReadEnd(s: State, late: bool): (e: Error) {
    if late then Deadline else ReadCloseError(s)
  }

  // ----- steps --------------------------------------------------------------------

  predicate Idle(s: State, id: nat) {
    id !in s.waiting && id !in s.reading && (s.holder.Free? || s.holder.writer != id)
    && (s.holder.Awaiting? ==> s.holder.reader != id)
  }

  predicate Can(s: State, step: Step) {
    match step
    case StartWrite(w, _) => !s.done && Idle(s, w)
    case RefuseWrite(w, _, late) => Idle(s, w) && (late || s.done)
    case TakeLock(w) => s.holder.Free? && w in s.waiting
    case StartRead(r, _) => !s.done && Idle(s, r)
    case RefuseRead(r, _, late) => Idle(s, r) && (late || s.done)
    case HandOver(r) => s.holder.Offering? && r in s.reading
    case Acknowledge => s.holder.Awaiting?
    case AbandonWrite(late) => s.holder.Offering? && (late || s.done)
    case AbandonRead(r, late) => r in s.reading && (late || s.done)
    case StoreReadError(_) => true
    case StoreWriteError(_) => true
    case CloseDone => s.rerr.Some? || s.werr.Some?
  }

  function Min(a: nat, b: nat): (r: nat) {
    if a < b then a else b
  }

  /** copy(b, bw): what a reader with this room takes from the holder's slice. */
  function Slice(h: Holder): (r: seq<byte>)
    requires h.Awaiting? && h.n + h.taken <= |h.data|
  {
    h.data[h.n..h.n + h.taken]
  }

  function Apply(s: State, step: Step): (t: State)
    requires Can(s, step) && HolderOk(s.holder)
  {
    match step
    case StartWrite(w, data) => s.(waiting := s.waiting[w := data])
    case RefuseWrite(w, data, late) => s.(wrote := s.wrote + [Written(w, data, 0, Some(WriteEnd(s, late)))])
    case TakeLock(w) => s.(waiting := s.waiting - {w}, holder := Offering(w, s.waiting[w], 0, true))
    case StartRead(r, room) => s.(reading := s.reading[r := room])
    case RefuseRead(r, room, late) => s.(got := s.got + [Got(r, room, [], Some(ReadEnd(s, late)))])
    case HandOver(r) =>
      var h := s.holder;
      var room := s.reading[r];
      s.(reading := s.reading - {r}, holder := Awaiting(h.writer, h.data, h.n, r, room, Min(room, |h.data| - h.n)))
    case Acknowledge =>
      var h := s.holder;
      var t := s.(got := s.got + [Got(h.reader, h.room, Slice(h), None)]);
      if h.n + h.taken < |h.data| then t.(holder := Offering(h.writer, h.data, h.n + h.taken, false))
      else t.(holder := Free, wrote := s.wrote + [Written(h.writer, h.data, h.n + h.taken, None)])
    case AbandonWrite(late) =>
      var h := s.holder;
      s.(holder := Free, wrote := s.wrote + [Written(h.writer, h.data, h.n, Some(WriteEnd(s, late)))])
    case AbandonRead(r, late) =>
      s.(reading := s.reading - {r}, got := s.got + [Got(r, s.reading[r], [], Some(ReadEnd(s, late)))])
    case StoreReadError(err) =>
      if s.rerr.Some? then s else s.(rerr := Some(if err.Some? then err.value else ClosedPipe))
    case StoreWriteError(err) => if s.werr.Some? then s else s.(werr := Some(if err.Some? then err.value else Eof))
    case CloseDone => s.(done := true)
  }

  predicate HolderOk(h: Holder) {
    match h
    case Free => true
    case Offering(_, data, n, first) => if first then n == 0 else n < |data|
    case Awaiting(_, data, n, _, room, taken) => n + taken <= |data| && taken <= room && (n == |data| ==> n == 0)
  }

  // ----- the invariant --------------------------------------------------------------

  /** The bytes all returned reads carried, in hand-off order. */
  function Taken(got: seq<Got>): (r: seq<byte>) {
    if got == [] then [] else Taken(got[..|got| - 1]) + got[|got| - 1].bytes
  }

  predicate WriteOk(w: Written) {
    && w.n <= |w.data|
    && (if w.err.None? then w.n == |w.data| else w.n < |w.data| || w.data == [])
  }

  /** The prefixes the returned writes reported. */
  function Given(wrote: seq<Written>): (r: seq<byte>) {
    if wrote == [] then []
    else
      var w := wrote[|wrote| - 1];
      Given(wrote[..|wrote| - 1]) + if w.n <= |w.data| then w.data[..w.n] else []
  }

  /** What the holder's write has had read so far. */
  function Current(h: Holder): (r: seq<byte>)
    requires HolderOk(h)
  {
    if h.Free? then [] else h.data[..h.n]
  }

  predicate ReadOk(s: State, g: Got) {
    && |g.bytes| <= g.room
    && (g.err.Some? ==> g.bytes == [] && (g.err.value.Deadline? || g.err.value.ClosedPipe? || s.werr == g.err))
  }

  predicate WriteErrOk(s: State, w: Written) {
    w.err.Some? ==> w.err.value.Deadline? || w.err.value.ClosedPipe? || s.rerr == w.err
  }

  predicate Inv(s: State) {
    && BytesAgree(s)
    && (forall g :: g in s.got ==> ReadOk(s, g))
    && (forall w :: w in s.wrote ==> WriteOk(w) && WriteErrOk(s, w))
    && (s.done ==> s.rerr.Some? || s.werr.Some?)
  }

  lemma TakenNext(got: seq<Got>, g: Got)
    ensures Taken(got + [g]) == Taken(got) + g.bytes
  {
    assert (got + [g])[..|got|] == got;
  }

  lemma GivenNext(wrote: seq<Written>, w: Written)
    requires w.n <= |w.data|
    ensures Given(wrote + [w]) == Given(wrote) + w.data[..w.n]
  {
    assert (wrote + [w])[..|wrote|] == wrote;
  }

  lemma NothingTaken(got: seq<Got>, g: Got)
    requires g.bytes == []
    ensures Taken(got + [g]) == Taken(got)
  {
    TakenNext(got, g);
  }

  lemma NothingGiven(wrote: seq<Written>, w: Written)
    requires w.n == 0
    ensures Given(wrote + [w]) == Given(wrote)
  {
    GivenNext(wrote, w);
  }

  predicate BytesAgree(s: State) {
    HolderOk(s.holder) && Taken(s.got) == Given(s.wrote) + Current(s.holder)
  }

  lemma Glue(given: seq<byte>, d: seq<byte>, n: nat, m: nat)
    requires n <= m <= |d|
    ensures given + d[..n] + d[n..m] == given + d[..m]
  {
    assert d[..n] + d[n..m] == d[..m];
  }

  /** The holder's write returns with n bytes read. */
  lemma ReturnBytes(wrote: seq<Written>, w: Written, taken: seq<byte>)
    requires w.n <= |w.data| && taken == Given(wrote) + w.data[..w.n]
    ensures taken == Given(wrote + [w]) + []
  {
    GivenNext(wrote, w);
  }

  lemma AcknowledgeBytes(s: State)
    requires BytesAgree(s) && s.holder.Awaiting?
    ensures BytesAgree(Apply(s, Acknowledge))
  {
    var h := s.holder;
    var m := h.n + h.taken;
    var g := Got(h.reader, h.room, Slice(h), None);
    TakenNext(s.got, g);
    Glue(Given(s.wrote), h.data, h.n, m);
    hide Taken, Given;
    assert Taken(s.got + [g]) == Given(s.wrote) + h.data[..m];
    var t := Apply(s, Acknowledge);
    assert t.got == s.got + [g];
    if m < |h.data| {
      assert t.wrote == s.wrote && Current(t.holder) == h.data[..m];
    } else {
      ReturnBytes(s.wrote, Written(h.writer, h.data, m, None), Taken(s.got + [g]));
      assert t.wrote == s.wrote + [Written(h.writer, h.data, m, None)] && Current(t.holder) == [];
    }
  }

  /** Only the exchange moves bytes, and it moves them on both sides at once. */
  lemma StepBytes(s: State, step: Step)
    requires BytesAgree(s) && Can(s, step)
    ensures BytesAgree(Apply(s, step))
  {
    hide Taken, Given;
    match step
    case StartWrite(w, data) =>
    case RefuseWrite(w, data, late) =>
      NothingGiven(s.wrote, Written(w, data, 0, Some(WriteEnd(s, late))));
    case TakeLock(w) =>
    case StartRead(r, room) =>
    case RefuseRead(r, room, late) =>
      NothingTaken(s.got, Got(r, room, [], Some(ReadEnd(s, late))));
    case HandOver(r) =>
    case Acknowledge =>
      AcknowledgeBytes(s);
    case AbandonWrite(late) =>
      ReturnBytes(s.wrote, Written(s.holder.writer, s.holder.data, s.holder.n, Some(WriteEnd(s, late))), Taken(s.got));
    case AbandonRead(r, late) =>
      NothingTaken(s.got, Got(r, s.reading[r], [], Some(ReadEnd(s, late))));
    case StoreReadError(err) =>
    case StoreWriteError(err) =>
    case CloseDone =>
  }

  lemma ReadResults(s: State, step: Step)
    requires Inv(s) && Can(s, step)
    ensures var t := Apply(s, step);
            (forall g :: g in t.got ==> ReadOk(t, g)) && s.got <= t.got
  {
    hide Taken, Given, WriteOk, WriteErrOk;
    match step
    case StartWrite(w, data) =>
    case RefuseWrite(w, data, late) =>
    case TakeLock(w) =>
    case StartRead(r, room) =>
    case RefuseRead(r, room, late) =>
    case HandOver(r) =>
    case Acknowledge =>
    case AbandonWrite(late) =>
    case AbandonRead(r, late) =>
    case StoreReadError(err) =>
    case StoreWriteError(err) =>
    case CloseDone =>
  }

  lemma WriteResults(s: State, step: Step)
    requires Inv(s) && Can(s, step)
    ensures var t := Apply(s, step);
            && (forall w :: w in t.wrote ==> WriteOk(w) && WriteErrOk(t, w)) && s.wrote <= t.wrote
            && (t.done ==> t.rerr.Some? || t.werr.Some?)
  {
    hide Taken, Given, ReadOk;
    match step
    case StartWrite(w, data) =>
    case RefuseWrite(w, data, late) =>
    case TakeLock(w) =>
    case StartRead(r, room) =>
    case RefuseRead(r, room, late) =>
    case HandOver(r) =>
    case Acknowledge =>
    case AbandonWrite(late) =>
    case AbandonRead(r, late) =>
    case StoreReadError(err) =>
    case StoreWriteError(err) =>
    case CloseDone =>
  }

  // ----- runs ------------------------------------------------------------------------

  ghost predicate Runs(steps: seq<Step>)
    decreases |steps|, 0
  {
    if steps == [] then true
    else
      var n := |steps| - 1;
      Runs(steps[..n]) && Can(After(steps[..n]), steps[n])
  }

  ghost function After(steps: seq<Step>): (s: State)
    requires Runs(steps)
    ensures Inv(s)
    decreases |steps|, 1
  {
    if steps == [] then Init()
    else
      var n := |steps| - 1;
      var s := After(steps[..n]);
      StepBytes(s, steps[n]);
      ReadResults(s, steps[n]);
      WriteResults(s, steps[n]);
      Apply(s, steps[n])
  }

  lemma {:induction false} GivenPrefix(wrote: seq<Written>, k: nat)
    requires k < |wrote| && wrote[k].n <= |wrote[k].data|
    ensures Given(wrote[..k]) + wrote[k].data[..wrote[k].n] <= Given(wrote)
  {
    var n := |wrote| - 1;
    if k < n {
      GivenPrefix(wrote[..n], k);
      assert wrote[..n][..k] == wrote[..k];
    }
  }

  /** Hand-off exactness over every run: the bytes read, in hand-off order, are
      the prefixes the writes reported, in lock order, then what the write under
      way has had read; so a write that returned n had exactly its first n bytes
      read, right after those of the writes before it. It reports success exactly
      when that is all of them, and a read that reports an error carries none. */
  lemma HandOffExact(steps: seq<Step>)
    requires Runs(steps)
    ensures var s := After(steps);
            && Taken(s.got) == Given(s.wrote) + Current(s.holder)
            && (forall k :: 0 <= k < |s.wrote| ==>
                  WriteOk(s.wrote[k]) && Given(s.wrote[..k]) + s.wrote[k].data[..s.wrote[k].n] <= Taken(s.got))
            && (forall g :: g in s.got ==> ReadOk(s, g))
  {
    var s := After(steps);
    forall k | 0 <= k < |s.wrote|
      ensures WriteOk(s.wrote[k]) && Given(s.wrote[..k]) + s.wrote[k].data[..s.wrote[k].n] <= Taken(s.got)
    {
      assert s.wrote[k] in s.wrote;
      GivenPrefix(s.wrote, k);
    }
  }

  /** The close-error rules over every run: a read fails with the writer's close
      error, a closed pipe or its deadline, and sees end of file only if the
      writer closed cleanly; likewise for writes and the reader's error. */
  lemma CloseErrors(steps: seq<Step>, g: Got, w: Written)
    requires Runs(steps)
    ensures var s := After(steps);
            && (g in s.got && g.err == Some(Eof) ==> s.werr == Some(Eof))
            && (w in s.wrote && w.err.Some? && w.err.value.Custom? ==> s.rerr == w.err)
  {
    var s := After(steps);
    assert g in s.got ==> ReadOk(s, g);
    assert w in s.wrote ==> WriteErrOk(s, w);
  }

  // ----- closes, from the steps alone -------------------------------------------------

  /** What the reader's first close left behind: its error, or ClosedPipe for a plain one. */
  function ReaderClose(steps: seq<Step>): (e: Option<Error>) {
    if steps == [] then None
    else
      match steps[0]
      case StoreReadError(None) => Some(ClosedPipe)
      case StoreReadError(Some(err)) => Some(err)
      case _ => ReaderClose(steps[1..])
  }

  /** What the writer's first close left behind: its error, or end of file for a plain one. */
  function WriterClose(steps: seq<Step>): (e: Option<Error>) {
    if steps == [] then None
    else
      match steps[0]
      case StoreWriteError(None) => Some(Eof)
      case StoreWriteError(Some(err)) => Some(err)
      case _ => WriterClose(steps[1..])
  }

  lemma {:induction false} ReaderCloseSnoc(steps: seq<Step>, x: Step)
    ensures ReaderClose(steps + [x]) == if ReaderClose(steps).Some? then ReaderClose(steps) else ReaderClose([x])
  {
    if steps == [] {
      assert steps + [x] == [x];
    } else {
      ReaderCloseSnoc(steps[1..], x);
      assert (steps + [x])[1..] == steps[1..] + [x];
    }
  }

  lemma {:induction false} WriterCloseSnoc(steps: seq<Step>, x: Step)
    ensures WriterClose(steps + [x]) == if WriterClose(steps).Some? then WriterClose(steps) else WriterClose([x])
  {
    if steps == [] {
      assert steps + [x] == [x];
    } else {
      WriterCloseSnoc(steps[1..], x);
      assert (steps + [x])[1..] == steps[1..] + [x];
    }
  }

  lemma OneClose(s: State, x: Step)
    requires HolderOk(s.holder) && Can(s, x)
    ensures Apply(s, x).rerr == if s.rerr.Some? then s.rerr else ReaderClose([x])
    ensures Apply(s, x).werr == if s.werr.Some? then s.werr else WriterClose([x])
    ensures Apply(s, x).done <==> s.done || x.CloseDone?
  {
    assert [x][1..] == [];
  }

  /** The first close of each end decides, for good, and the pipe is closed exactly
      by the step that closes it. */
  lemma {:induction false} FirstCloseCounts(steps: seq<Step>)
    requires Runs(steps)
    ensures After(steps).rerr == ReaderClose(steps) && After(steps).werr == WriterClose(steps)
    ensures After(steps).done <==> CloseDone in steps
  {
    if steps != [] {
      var n := |steps| - 1;
      var x := steps[n];
      FirstCloseCounts(steps[..n]);
      assert steps == steps[..n] + [x];
      hide Apply, ReaderClose, WriterClose, Can;
      OneClose(After(steps[..n]), x);
      ReaderCloseSnoc(steps[..n], x);
      WriterCloseSnoc(steps[..n], x);
    }
  }

  /** What a read that ended without bytes returned. */
  function ReadVerdict(steps: seq<Step>, late: bool): (e: Option<Error>) {
    if late then Some(Deadline)
    else if ReaderClose(steps).Some? then Some(ClosedPipe)
    else WriterClose(steps)
  }

  function WriteVerdict(steps: seq<Step>, late: bool): (e: Option<Error>) {
    if late then Some(Deadline)
    else if WriterClose(steps).Some? then Some(ClosedPipe)
    else ReaderClose(steps)
  }

  /** A read ended by the closed pipe returns the writer's error, end of file for a
      clean close, if and only if the reader had not been closed by then; otherwise
      ClosedPipe. A read past its deadline says so. There is always an error. */
  lemma ReadsEndExactly(steps: seq<Step>, step: Step)
    requires Runs(steps) && Can(After(steps), step) && (step.RefuseRead? || step.AbandonRead?)
    ensures var s, t := After(steps), Apply(After(steps), step);
            && |t.got| == |s.got| + 1 && t.got[..|s.got|] == s.got
            && var g := t.got[|s.got|];
               g.reader == step.reader && g.bytes == [] && g.err == ReadVerdict(steps, step.late) && g.err.Some?
  {
    FirstCloseCounts(steps);
  }

  /** Likewise for writes, which report the bytes already taken. */
  lemma WritesEndExactly(steps: seq<Step>, step: Step)
    requires Runs(steps) && Can(After(steps), step) && (step.RefuseWrite? || step.AbandonWrite?)
    ensures var s, t := After(steps), Apply(After(steps), step);
            && |t.wrote| == |s.wrote| + 1 && t.wrote[..|s.wrote|] == s.wrote
            && var w := t.wrote[|s.wrote|];
               && w.err == WriteVerdict(steps, step.late) && w.err.Some?
               && (step.RefuseWrite? ==> w.data == step.data && w.n == 0)
               && (step.AbandonWrite? ==> w.data[..w.n] == Current(s.holder) && t.holder == Free)
  {
    FirstCloseCounts(steps);
  }

  /** Whichever end closes first can go on to close the pipe. */
  lemma CloseFinishes(steps: seq<Step>)
    requires Runs(steps)
    ensures ReaderClose(steps).Some? || WriterClose(steps).Some? ==> Can(After(steps), CloseDone)
    ensures forall err :: Can(After(steps), StoreReadError(err)) && Can(After(steps), StoreWriteError(err))
  {
    FirstCloseCounts(steps);
  }

  /** A closed pipe strands nobody: no call begins any more, and whoever waits in it
      can return, or will once the exchange under way is acknowledged. */
  lemma CloseWakesAll(steps: seq<Step>, id: nat, data: seq<byte>, room: nat)
    requires Runs(steps) && CloseDone in steps
    ensures var s := After(steps);
            && !Can(s, StartWrite(id, data)) && !Can(s, StartRead(id, room))
            && (id in s.reading ==> Can(s, AbandonRead(id, false)))
            && (s.holder.Offering? ==> Can(s, AbandonWrite(false)))
            && (s.holder.Free? && id in s.waiting ==> Can(s, TakeLock(id)))
            && (s.holder.Awaiting? ==> Can(s, Acknowledge))
  {
    FirstCloseCounts(steps);
  }

  // ----- every call returns once --------------------------------------------------------

  /** The calls one caller has begun, by what they were given. */
  function WritesBegun(steps: seq<Step>, w: nat): (r: seq<seq<byte>>) {
    if steps == [] then [] else WritesBegun(steps[..|steps| - 1], w) + WriteBegun(steps[|steps| - 1], w)
  }

  function WriteBegun(x: Step, w: nat): (r: seq<seq<byte>>) {
    if (x.StartWrite? || x.RefuseWrite?) && x.writer == w then [x.data] else []
  }

  function ReadsBegun(steps: seq<Step>, r: nat): (q: seq<nat>) {
    if steps == [] then [] else ReadsBegun(steps[..|steps| - 1], r) + ReadBegun(steps[|steps| - 1], r)
  }

  function ReadBegun(x: Step, r: nat): (q: seq<nat>) {
    if (x.StartRead? || x.RefuseRead?) && x.reader == r then [x.room] else []
  }

  /** Those that have returned. */
  function WritesDone(wrote: seq<Written>, w: nat): (r: seq<seq<byte>>) {
    if wrote == [] then [] else WritesDone(wrote[..|wrote| - 1], w) + WriteDone(wrote[|wrote| - 1], w)
  }

  function WriteDone(x: Written, w: nat): (r: seq<seq<byte>>) {
    if x.writer == w then [x.data] else []
  }

  function ReadsDone(got: seq<Got>, r: nat): (q: seq<nat>) {
    if got == [] then [] else ReadsDone(got[..|got| - 1], r) + ReadDone(got[|got| - 1], r)
  }

  function ReadDone(x: Got, r: nat): (q: seq<nat>) {
    if x.reader == r then [x.room] else []
  }

  /** The one under way. */
  function Writing(s: State, w: nat): (r: seq<seq<byte>>) {
    if w in s.waiting then [s.waiting[w]]
    else if !s.holder.Free? && s.holder.writer == w then [s.holder.data]
    else []
  }

  function Reading(s: State, r: nat): (q: seq<nat>) {
    if r in s.reading then [s.reading[r]]
    else if s.holder.Awaiting? && s.holder.reader == r then [s.holder.room]
    else []
  }

  predicate Apart(s: State) {
    && (!s.holder.Free? ==> s.holder.writer !in s.waiting)
    && (s.holder.Awaiting? ==> s.holder.reader !in s.reading)
  }

  lemma WriteStep(s: State, x: Step, w: nat)
    requires HolderOk(s.holder) && Apart(s) && Can(s, x)
    ensures var t := Apply(s, x);
            && Apart(t)
            && ((t.wrote == s.wrote && Writing(t, w) == Writing(s, w) + WriteBegun(x, w))
                || exists d :: t.wrote == s.wrote + [d] &&
                               WriteDone(d, w) + Writing(t, w) == Writing(s, w) + WriteBegun(x, w))
  {
    var t := Apply(s, x);
    if t.wrote != s.wrote {
      var d := t.wrote[|s.wrote|];
      assert t.wrote == s.wrote + [d];
    }
  }

  lemma ReadStep(s: State, x: Step, r: nat)
    requires HolderOk(s.holder) && Apart(s) && Can(s, x)
    ensures var t := Apply(s, x);
            || (t.got == s.got && Reading(t, r) == Reading(s, r) + ReadBegun(x, r))
            || exists g :: t.got == s.got + [g] && ReadDone(g, r) + Reading(t, r) == Reading(s, r) + ReadBegun(x, r)
  {
    var t := Apply(s, x);
    if t.got != s.got {
      var g := t.got[|s.got|];
      assert t.got == s.got + [g];
    }
  }

  lemma WritesDoneSnoc(wrote: seq<Written>, d: Written, w: nat)
    ensures WritesDone(wrote + [d], w) == WritesDone(wrote, w) + WriteDone(d, w)
  {
    assert (wrote + [d])[..|wrote|] == wrote;
  }

  lemma ReadsDoneSnoc(got: seq<Got>, g: Got, r: nat)
    ensures ReadsDone(got + [g], r) == ReadsDone(got, r) + ReadDone(g, r)
  {
    assert (got + [g])[..|got|] == got;
  }

  lemma Balance<T>(begun: seq<T>, b: seq<T>, done: seq<T>, d: seq<T>, p: seq<T>, q: seq<T>)
    requires begun == done + p && d + q == p + b
    ensures begun + b == done + d + q
  {
    assert begun + b == done + (p + b);
    assert done + d + q == done + (d + q);
  }

  lemma {:induction false} WritesBalance(steps: seq<Step>, w: nat)
    requires Runs(steps)
    ensures var s := After(steps);
            Apart(s) && WritesBegun(steps, w) == WritesDone(s.wrote, w) + Writing(s, w)
  {
    if steps != [] {
      var n := |steps| - 1;
      var s, x := After(steps[..n]), steps[n];
      var t := After(steps);
      assert t == Apply(s, x) && HolderOk(s.holder);
      hide Runs, After, Apply, Can, Inv, Writing, WriteBegun, WriteDone, WritesDone, Apart;
      WritesBalance(steps[..n], w);
      WriteStep(s, x, w);
      if t.wrote == s.wrote {
        assert [] + Writing(t, w) == Writing(t, w) && WritesDone(s.wrote, w) + [] == WritesDone(s.wrote, w);
        Balance(WritesBegun(steps[..n], w), WriteBegun(x, w), WritesDone(s.wrote, w), [], Writing(s, w), Writing(t, w));
      } else {
        var d :| t.wrote == s.wrote + [d] && WriteDone(d, w) + Writing(t, w) == Writing(s, w) + WriteBegun(x, w);
        WritesDoneSnoc(s.wrote, d, w);
        Balance(WritesBegun(steps[..n], w), WriteBegun(x, w), WritesDone(s.wrote, w), WriteDone(d, w),
                Writing(s, w), Writing(t, w));
      }
    }
  }

  lemma {:induction false} ReadsBalance(steps: seq<Step>, r: nat)
    requires Runs(steps)
    ensures var s := After(steps);
            ReadsBegun(steps, r) == ReadsDone(s.got, r) + Reading(s, r)
  {
    if steps != [] {
      var n := |steps| - 1;
      var s, x := After(steps[..n]), steps[n];
      var t := After(steps);
      assert t == Apply(s, x) && HolderOk(s.holder);
      hide Runs, After, Apply, Can, Inv, Reading, ReadBegun, ReadDone, ReadsDone, Apart;
      WritesBalance(steps[..n], r);
      ReadsBalance(steps[..n], r);
      ReadStep(s, x, r);
      if t.got == s.got {
        assert [] + Reading(t, r) == Reading(t, r) && ReadsDone(s.got, r) + [] == ReadsDone(s.got, r);
        Balance(ReadsBegun(steps[..n], r), ReadBegun(x, r), ReadsDone(s.got, r), [], Reading(s, r), Reading(t, r));
      } else {
        var g :| t.got == s.got + [g] && ReadDone(g, r) + Reading(t, r) == Reading(s, r) + ReadBegun(x, r);
        ReadsDoneSnoc(s.got, g, r);
        Balance(ReadsBegun(steps[..n], r), ReadBegun(x, r), ReadsDone(s.got, r), ReadDone(g, r),
                Reading(s, r), Reading(t, r));
      }
    }
  }

  /** Over every interleaving: the calls a caller has begun are, in order and with what
      they were given, those that have returned and at most one still under way. None
      is lost, and none returns twice. */
  lemma EveryCallReturnsOnce(steps: seq<Step>, id: nat)
    requires Runs(steps)
    ensures var s := After(steps);
            && WritesBegun(steps, id) == WritesDone(s.wrote, id) + Writing(s, id)
            && ReadsBegun(steps, id) == ReadsDone(s.got, id) + Reading(s, id)
  {
    WritesBalance(steps, id);
    ReadsBalance(steps, id);
  }

  // ----- nothing is stuck ---------------------------------------------------------------

  lemma RunOn(steps: seq<Step>, x: Step)
    requires Runs(steps) && Can(After(steps), x)
    ensures Runs(steps + [x]) && After(steps + [x]) == Apply(After(steps), x)
  {
    assert (steps + [x])[..|steps|] == steps;
  }

  lemma HolderIsOk(steps: seq<Step>)
    requires Runs(steps)
    ensures HolderOk(After(steps).holder)
  {
  }

  /** A reader with room meets the write under way: it gets what is left of it, as
      far as its room goes, and the write returns exactly when nothing is left. */
  lemma Exchange(steps: seq<Step>, r: nat, room: nat)
    requires Runs(steps) && After(steps).holder.Offering? && !After(steps).done && Idle(After(steps), r)
    ensures var s, more := After(steps), steps + [StartRead(r, room)] + [HandOver(r)] + [Acknowledge];
            var left := s.holder.data[s.holder.n..];
            var k := if room < |left| then room else |left|;
            && Runs(more)
            && var t := After(more);
               && t.got == s.got + [Got(r, room, left[..k], None)] && !t.done && Idle(t, r)
               && t.waiting == s.waiting && t.reading == s.reading
               && if k < |left|
                  then t.wrote == s.wrote && t.holder.Offering? && t.holder.writer == s.holder.writer
                       && t.holder.data == s.holder.data && t.holder.data[t.holder.n..] == left[k..]
                  else t.wrote == s.wrote + [Written(s.holder.writer, s.holder.data, |s.holder.data|, None)]
                       && t.holder.Free?
  {
    var s := After(steps);
    var h := s.holder;
    var one := steps + [StartRead(r, room)];
    var two := one + [HandOver(r)];
    RunOn(steps, StartRead(r, room));
    RunOn(one, HandOver(r));
    RunOn(two, Acknowledge);
    ExchangeMoves(s, r, room);
  }

  lemma ExchangeMoves(s: State, r: nat, room: nat)
    requires HolderOk(s.holder) && s.holder.Offering? && !s.done && Idle(s, r)
    ensures var a := Apply(s, StartRead(r, room));
            HolderOk(a.holder) && Can(a, HandOver(r)) &&
            var b := Apply(a, HandOver(r));
            HolderOk(b.holder) &&
            var t := Apply(b, Acknowledge);
            var left := s.holder.data[s.holder.n..];
            var k := if room < |left| then room else |left|;
            && t.got == s.got + [Got(r, room, left[..k], None)] && !t.done && Idle(t, r)
            && t.waiting == s.waiting && t.reading == s.reading
            && if k < |left|
               then t.wrote == s.wrote && t.holder.Offering? && t.holder.writer == s.holder.writer
                    && t.holder.data == s.holder.data && t.holder.data[t.holder.n..] == left[k..]
               else t.wrote == s.wrote + [Written(s.holder.writer, s.holder.data, |s.holder.data|, None)]
                    && t.holder.Free?
  {
    var a := Apply(s, StartRead(r, room));
    assert a.reading - {r} == s.reading;
    var h, left := s.holder, s.holder.data[s.holder.n..];
    var k := if room < |left| then room else |left|;
    assert Apply(a, HandOver(r)).holder == Awaiting(h.writer, h.data, h.n, r, room, k);
    assert h.data[h.n..h.n + k] == left[..k] && h.data[h.n + k..] == left[k..];
  }

  /** While the pipe is open, one reader with any room at all sees the write under
      way through: it returns all its bytes and no error, and they were read. */
  lemma {:induction false} WriteFinishes(steps: seq<Step>, r: nat, room: nat) returns (more: seq<Step>)
    requires Runs(steps) && After(steps).holder.Offering? && !After(steps).done && Idle(After(steps), r) && room > 0
    ensures var s := After(steps);
            && Runs(more)
            && var t := After(more);
               && t.wrote == s.wrote + [Written(s.holder.writer, s.holder.data, |s.holder.data|, None)]
               && t.holder.Free? && !t.done && t.waiting == s.waiting
               && Taken(t.got) == Taken(s.got) + s.holder.data[s.holder.n..]
    decreases |After(steps).holder.data| - After(steps).holder.n
  {
    hide Apply, Can, Taken, Runs, Inv, After, Idle;
    HolderIsOk(steps);
    var s := After(steps);
    var left := s.holder.data[s.holder.n..];
    more := steps + [StartRead(r, room)] + [HandOver(r)] + [Acknowledge];
    Exchange(steps, r, room);
    var k := if room < |left| then room else |left|;
    TakenNext(s.got, Got(r, room, left[..k], None));
    if k < |left| {
      HolderIsOk(more);
      var t := After(more);
      assert |t.holder.data[t.holder.n..]| == |left| - k;
      more := WriteFinishes(more, r, room);
      assert left == left[..k] + left[k..];
    }
  }
}
