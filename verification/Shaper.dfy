/** The record shaper: padding a control frame, or the initial flush, with one
    trailing waste frame so that the record has a configured size. Every random
    draw is a parameter. */
module Shaper {
  import opened Basics
  import opened Frames

  const PAD_RETRIES := 3
  const STACK_TARGETS := 16

  datatype PadTarget = PadTarget(min: int, max: int)

  datatype Config = Config(padTargets: seq<PadTarget>, headersTarget: PadTarget)

  /** The published scheme: its configuration and the digest that names it. */
  datatype Scheme = Scheme(config: Config, digest: string)

  /** FastIntn on a raw draw. */
  function Draw(raw: nat, n: int): (r: nat)
    ensures r == 0 || r < n
  {
    if n <= 1 then 0 else raw % n
  }

  function Waste(payload: seq<byte>): (f: Frame) {
    Frame(CMD_WASTE, 0, payload)
  }

  // ----- the trailing waste frame ------------------------------------------------

  /** The payload that brings `length` bytes to `target`, as far as one frame can. */
  function WastePayload(length: nat, target: int): (n: nat)
    ensures n <= MAX_FRAME_DATA
  {
    var n := target - length - HEADER_SIZE;
    if n < 0 then 0 else if n > MAX_FRAME_DATA then MAX_FRAME_DATA else n
  }

  function Noise(noise: nat -> byte, n: nat): (r: seq<byte>)
    ensures |r| == n
  {
    seq(n, i requires 0 <= i < n => noise(i))
  }

  /** What appendWasteFrame must produce. */
  function Padded(b: seq<byte>, target: int, noise: nat -> byte): (r: seq<byte>) {
    b + Encode(Waste(Noise(noise, WastePayload(|b|, target))))
  }

  /** The waste header, written over whatever the bytes held before. */
  method PutHeader(out: array<byte>, off: nat, payload: nat)
    requires off + HEADER_SIZE <= out.Length && payload <= MAX_FRAME_DATA
    modifies out
    ensures out[..off] == old(out[..off])
    ensures out[off..off + HEADER_SIZE] == Header(CMD_WASTE, 0, payload)
  {
    out[off] := CMD_WASTE;
    out[off + 1], out[off + 2], out[off + 3], out[off + 4] := 0, 0, 0, 0;
    out[off + 5], out[off + 6] := payload / 256, payload % 256;
  }

  method FillNoise(out: array<byte>, off: nat, payload: nat, noise: nat -> byte)
    requires off + payload <= out.Length
    modifies out
    ensures out[..off] == old(out[..off])
    ensures out[off..off + payload] == Noise(noise, payload)
  {
    for i := 0 to payload
      invariant out[..off] == old(out[..off])
      invariant forall j :: 0 <= j < i ==> out[off + j] == noise(j)
    {
      out[off + i] := noise(i);
    }
  }

  method Grow(buffer: array<byte>, length: nat, n: nat) returns (out: array<byte>)
    requires length <= buffer.Length && length <= n
    ensures fresh(out) && out.Length == n && out[..length] == buffer[..length]
  {
    out := new byte[n];
    for i := 0 to length
      invariant forall j :: 0 <= j < i ==> out[j] == buffer[j]
    {
      out[i] := buffer[i];
    }
  }

  /** appendWasteFrame on a buffer holding `length` bytes: in place when the
      spare capacity allows, else in a fresh buffer. Whatever the spare bytes
      held, the result is the frame followed by one well-formed waste frame. */
  method AppendWaste(buffer: array<byte>, length: nat, target: int, noise: nat -> byte)
    returns (out: array<byte>, n: nat)
    requires length <= buffer.Length
    modifies buffer
    ensures n <= out.Length && (out == buffer || fresh(out)) && (out == buffer <==> n <= buffer.Length)
    ensures out[..n] == Padded(old(buffer[..length]), target, noise)
    ensures out != buffer ==> buffer[..] == old(buffer[..])
  {
    var payload := WastePayload(length, target);
    n := length + HEADER_SIZE + payload;
    ghost var b := buffer[..length];
    if buffer.Length >= n {
      out := buffer;
    } else {
      out := Grow(buffer, length, n);
    }
    PutHeader(out, length, payload);
    ghost var head := b + Header(CMD_WASTE, 0, payload);
    assert out[..length + HEADER_SIZE] == head;
    FillNoise(out, length + HEADER_SIZE, payload, noise);
    assert out[..n] == head + Noise(noise, payload);
  }

  // ----- choosing a target --------------------------------------------------------

  predicate Feasible(t: PadTarget, length: nat) {
    t.max >= length + HEADER_SIZE
  }

  /** A length the target allows, unless one waste frame cannot fill that much. */
  predicate Lands(t: PadTarget, length: nat, size: int) {
    && size == length + HEADER_SIZE + WastePayload(length, size)
    && size <= t.max && (t.min <= t.max ==> t.min <= size || size == length + HEADER_SIZE + MAX_FRAME_DATA)
  }

  /** The picked target's size for a frame of `length` bytes. */
  function SizeIn(t: PadTarget, length: nat, raw: nat): (size: int) {
    if t.min == t.max then t.min
    else
      var lo := if t.min < length + HEADER_SIZE then length + HEADER_SIZE else t.min;
      if lo > t.max then t.max else lo + Draw(raw, t.max - lo + 1)
  }

  /** The whole promise of padding: the frame is kept as prefix, exactly one
      waste frame follows, and the record's length lies in a configured target. */
  ghost predicate PadsTo(b: seq<byte>, r: seq<byte>, t: PadTarget) {
    && Feasible(t, |b|) && Lands(t, |b|, |r|)
    && exists payload: seq<byte> :: |payload| <= MAX_FRAME_DATA && r == b + Encode(Waste(payload))
  }

  lemma SizeFits(b: seq<byte>, t: PadTarget, raw: nat, noise: nat -> byte)
    requires Feasible(t, |b|)
    ensures PadsTo(b, Padded(b, SizeIn(t, |b|, raw), noise), t)
  {
    var size := SizeIn(t, |b|, raw);
    var payload := Noise(noise, WastePayload(|b|, size));
    assert Padded(b, size, noise) == b + Encode(Waste(payload));
  }

  /** What that means for whoever reads the record: the frame, and behind it one waste
      frame for stream 0 that fills the rest; no longer than the target's maximum, and
      no shorter than its minimum unless a full waste frame cannot reach that. */
  lemma PadsToMeans(b: seq<byte>, r: seq<byte>, t: PadTarget)
    requires PadsTo(b, r, t)
    ensures |b| + 7 <= |r| <= t.max && r[..|b|] == b
    ensures t.min <= |r| || t.max < t.min || |r| == |b| + 7 + 65535
    ensures exists payload: seq<byte> ::
              |payload| == |r| - |b| - 7 && Receive(r[|b|..]) == [Frame(0, 0, payload)]
  {
    var payload: seq<byte> :| |payload| <= MAX_FRAME_DATA && r == b + Encode(Waste(payload));
    var w := Encode(Waste(payload));
    assert r[..|b|] == b && r[|b|..] == w;
    ReceiveOne(Waste(payload), []);
    assert w + [] == w;
  }

  /** Every size from the least that holds frame and waste header, within the target,
      up to its maximum is drawn by some random number. */
  lemma SizeIsAnyOf(t: PadTarget, length: nat, size: int)
    requires t.min <= size <= t.max && size >= length + 7
    ensures exists raw :: SizeIn(t, length, raw) == size
  {
    if t.min == t.max {
      assert SizeIn(t, length, 0) == size;
    } else {
      var lo := if t.min < length + 7 then length + 7 else t.min;
      DrawIsAnyOf(t.max - lo + 1, size - lo);
      assert SizeIn(t, length, size - lo) == size;
    }
  }

  lemma DrawIsAnyOf(n: int, k: nat)
    requires k < n
    ensures Draw(k, n) == k
  {
  }

  lemma HeadersSizeIsAnyOf(t: PadTarget, b: seq<byte>, noise: nat -> byte, size: int)
    requires t.min <= size <= t.max && |b| + 7 <= size <= |b| + 7 + 65535
    ensures exists raw :: PadToHeaders(t, b, raw, noise).Some? && |PadToHeaders(t, b, raw, noise).value| == size
  {
    var lo := if t.min < |b| + 7 then |b| + 7 else t.min;
    DrawIsAnyOf(t.max - lo + 1, size - lo);
    var r := PadToHeaders(t, b, size - lo, noise);
    assert r == Some(Padded(b, size, noise));
  }

  /** padControlFrame: three weighted attempts, then a pick among the first
      sixteen feasible targets. Pads exactly when some target is feasible. */
  method PadControl(targets: seq<PadTarget>, b: seq<byte>, raw: nat -> nat, noise: nat -> byte)
    returns (padded: Option<seq<byte>>)
    ensures padded.Some? <==> exists t :: t in targets && t.max >= |b| + 7
    ensures padded.Some? ==> exists t :: t in targets && PadsTo(b, padded.value, t)
  {
    if |targets| == 0 {
      return None;
    }
    var picked: PadTarget := targets[0];
    var found := false;
    var attempt := 0;
    while attempt < PAD_RETRIES && !found
      invariant 0 <= attempt <= PAD_RETRIES
      invariant found ==> picked in targets && Feasible(picked, |b|)
    {
      var candidate := targets[Draw(raw(attempt), |targets|)];
      if Feasible(candidate, |b|) {
        picked, found := candidate, true;
      }
      attempt := attempt + 1;
    }
    if !found {
      var feasible, n := Gather(targets, |b|);
      if n == 0 {
        assert feasible[..0] == [];
        return None;
      }
      picked := feasible[Draw(raw(PAD_RETRIES), n)];
    }
    SizeFits(b, picked, raw(PAD_RETRIES + 1), noise);
    padded := Some(Padded(b, SizeIn(picked, |b|, raw(PAD_RETRIES + 1)), noise));
  }

  /** The fallback array: feasible targets in order, at most sixteen. */
  method Gather(targets: seq<PadTarget>, length: nat) returns (feasible: array<PadTarget>, n: nat)
    ensures fresh(feasible) && n <= feasible.Length == 16
    ensures forall j :: 0 <= j < n ==> feasible[j] in targets && Feasible(feasible[j], length)
    ensures n < 16 ==> forall t :: t in targets && Feasible(t, length) ==> t in feasible[..n]
  {
    feasible := new PadTarget[STACK_TARGETS](_ => PadTarget(0, 0));
    n := 0;
    for i := 0 to |targets|
      invariant n <= STACK_TARGETS
      invariant forall j :: 0 <= j < n ==> feasible[j] in targets && Feasible(feasible[j], length)
      invariant n < STACK_TARGETS ==>
                  forall j :: 0 <= j < i && Feasible(targets[j], length) ==> targets[j] in feasible[..n]
    {
      if Feasible(targets[i], length) && n < STACK_TARGETS {
        feasible[n] := targets[i];
        assert feasible[..n + 1] == feasible[..n] + [targets[i]];
        n := n + 1;
      }
    }
  }

  /** padToHeadersTarget: pads exactly when the frame and a waste header fit. */
  function PadToHeaders(t: PadTarget, b: seq<byte>, raw: nat, noise: nat -> byte): (padded: Option<seq<byte>>) {
    var least := |b| + HEADER_SIZE;
    if t.max <= 0 || least > t.max then None
    else
      var lo := if t.min < least then least else t.min;
      if lo > t.max then None
      else Some(Padded(b, if lo == t.max then lo else lo + Draw(raw, t.max - lo + 1), noise))
  }

  lemma PadToHeadersExact(t: PadTarget, b: seq<byte>, raw: nat, noise: nat -> byte)
    ensures var r := PadToHeaders(t, b, raw, noise);
            && (r.Some? <==> t.max >= |b| + 7 && t.min <= t.max)
            && (r.Some? ==> PadsTo(b, r.value, t))
  {
    if Feasible(t, |b|) && t.min <= t.max {
      var lo := if t.min < |b| + HEADER_SIZE then |b| + HEADER_SIZE else t.min;
      var size := if lo == t.max then lo else lo + Draw(raw, t.max - lo + 1);
      var payload := Noise(noise, WastePayload(|b|, size));
      assert Padded(b, size, noise) == b + Encode(Waste(payload));
    }
  }

  // ----- the cached configuration ----------------------------------------------------

  function MaxOf(targets: seq<PadTarget>): (m: int)
    ensures m >= 0 && forall t :: t in targets ==> t.max <= m
    ensures m == 0 || exists t :: t in targets && t.max == m
  {
    if targets == [] then 0
    else
      var rest := MaxOf(targets[..|targets| - 1]);
      var t := targets[|targets| - 1];
      if t.max > rest then t.max else rest
  }

  /** How a control record may look: padded into a target whenever one can hold it. */
  ghost predicate ControlShape(config: Config, b: seq<byte>, r: seq<byte>) {
    if exists t :: t in config.padTargets && Feasible(t, |b|)
    then exists t :: t in config.padTargets && PadsTo(b, r, t)
    else r == b
  }

  /** How the initial flush, or a later SYN, may look. */
  ghost predicate FlushShape(config: Config, b: seq<byte>, r: seq<byte>) {
    var t := config.headersTarget;
    if Feasible(t, |b|) && t.min <= t.max then PadsTo(b, r, t) else r == b
  }

  class RecordShaper {
    var config: Config
    var digest: string
    var maxTarget: int

    ghost predicate Valid()
      reads this
    {
      maxTarget == MaxOf(config.padTargets)
    }

    constructor (scheme: Scheme)
      ensures Valid() && config == scheme.config && digest == scheme.digest
    {
      config, digest := scheme.config, scheme.digest;
      new;
      maxTarget := ComputeMaxTarget();
    }

    method ComputeMaxTarget() returns (m: int)
      ensures m == MaxOf(config.padTargets)
    {
      var ts := config.padTargets;
      m := 0;
      for i := 0 to |ts|
        invariant m == MaxOf(ts[..i])
      {
        assert ts[..i + 1][..i] == ts[..i];
        if ts[i].max > m {
          m := ts[i].max;
        }
      }
      assert ts[..|ts|] == ts;
    }

    /** maybeRefreshConfig against the scheme currently published. */
    method Refresh(scheme: Scheme)
      requires Valid()
      modifies this
      ensures Valid() && digest == scheme.digest
      ensures config == if scheme.digest == old(digest) then old(config) else scheme.config
    {
      if scheme.digest != digest {
        config, digest := scheme.config, scheme.digest;
        maxTarget := ComputeMaxTarget();
      }
    }

    /** The bytes WriteControl hands to the connection. The size cache never
        skips a frame that some target could still pad. */
    method ShapeControl(b: seq<byte>, scheme: Scheme, raw: nat -> nat, noise: nat -> byte) returns (r: seq<byte>)
      requires Valid()
      modifies this
      ensures Valid() && digest == scheme.digest
      ensures config == if scheme.digest == old(digest) then old(config) else scheme.config
      ensures ControlShape(config, b, r)
    {
      Refresh(scheme);
      r := b;
      if |b| < maxTarget {
        var padded := PadControl(config.padTargets, b, raw, noise);
        if padded.Some? {
          r := padded.value;
        }
      }
    }

    /** The bytes WriteInitialFlush hands to the connection. */
    method ShapeFlush(b: seq<byte>, scheme: Scheme, raw: nat, noise: nat -> byte) returns (r: seq<byte>)
      requires Valid()
      modifies this
      ensures Valid() && digest == scheme.digest
      ensures config == if scheme.digest == old(digest) then old(config) else scheme.config
      ensures FlushShape(config, b, r)
    {
      Refresh(scheme);
      PadToHeadersExact(config.headersTarget, b, raw, noise);
      var padded := PadToHeaders(config.headersTarget, b, raw, noise);
      r := if padded.Some? then padded.value else b;
    }
  }
}
