/** The service-wide registry that matches an inbound carrier to the stream
    awaiting it, and the acceptance of a fresh connection against it. */
module Registry {
  import opened Basics
  import opened Frames
  import opened Carrier

  type Token = seq<byte>

  /** Streams are named by numbers. */
  datatype Op =
    | Register(token: Token, stream: nat)
    | Lapse(token: Token, stream: nat)     // the registration's timer fires
    | Take(token: Token)

  function Apply(m: map<Token, nat>, op: Op): (r: map<Token, nat>) {
    match op
    case Register(tok, s) => m[tok := s]
    case Lapse(tok, s) => if tok in m && m[tok] == s then m - {tok} else m
    case Take(tok) => m - {tok}
  }

  function After(ops: seq<Op>): (m: map<Token, nat>) {
    if ops == [] then map[] else Apply(After(ops[..|ops| - 1]), ops[|ops| - 1])
  }

  /** Step i hands out the stream registered under its token. */
  predicate Wins(ops: seq<Op>, i: nat) {
    i < |ops| && ops[i].Take? && ops[i].token in After(ops[..i])
  }

  /** Every token is registered at most once, as random tokens are. */
  predicate FreshTokens(ops: seq<Op>) {
    forall i, j :: 0 <= i < j < |ops| && ops[i].Register? && ops[j].Register? ==> ops[i].token != ops[j].token
  }

  lemma {:induction false} PendingWasRegistered(ops: seq<Op>, tok: Token)
    requires tok in After(ops)
    ensures exists i :: 0 <= i < |ops| && ops[i] == Register(tok, After(ops)[tok])
  {
    var n := |ops| - 1;
    if ops[n] == Register(tok, After(ops)[tok]) {
    } else {
      PendingWasRegistered(ops[..n], tok);
      var i :| 0 <= i < n && ops[..n][i] == Register(tok, After(ops)[tok]);
      assert ops[i] == Register(tok, After(ops)[tok]);
    }
  }

  /** A token that was taken, and not registered again, is not pending. */
  lemma {:induction false} TakenIsGone(ops: seq<Op>, i: nat, tok: Token)
    requires i < |ops| && ops[i] == Take(tok)
    requires forall j :: i < j < |ops| ==> !(ops[j].Register? && ops[j].token == tok)
    ensures tok !in After(ops)
  {
    var n := |ops| - 1;
    if i < n {
      TakenIsGone(ops[..n], i, tok);
    }
  }

  /** A carrier token is honoured at most once, and only for the stream that
      registered it, whatever the order of registrations, timers and claims. */
  lemma HonouredOnce(ops: seq<Op>, i: nat, j: nat)
    requires FreshTokens(ops) && Wins(ops, i) && Wins(ops, j) && ops[i].token == ops[j].token
    ensures i == j
    ensures exists r :: 0 <= r < i && ops[r] == Register(ops[i].token, After(ops[..i])[ops[i].token])
  {
    var tok := ops[i].token;
    PendingWasRegistered(ops[..i], tok);
    PendingWasRegistered(ops[..j], tok);
    var r :| 0 <= r < i && ops[..i][r] == Register(tok, After(ops[..i])[tok]);
    var q :| 0 <= q < j && ops[..j][q] == Register(tok, After(ops[..j])[tok]);
    assert ops[r].Register? && ops[q].Register? && ops[r].token == ops[q].token;
    assert ops[r] == Register(tok, After(ops[..i])[tok]);
    if i < j {
      TakenIsGone(ops[..j], i, tok);
    } else if j < i {
      TakenIsGone(ops[..i], j, tok);
    }
  }

  /** Registered at r, and neither claimed, timed out nor registered anew since. */
  predicate Stands(ops: seq<Op>, r: nat, tok: Token, s: nat) {
    && r < |ops| && ops[r] == Register(tok, s)
    && forall j :: r < j < |ops| ==>
         ops[j] != Take(tok) && ops[j] != Lapse(tok, s) && !(ops[j].Register? && ops[j].token == tok)
  }

  lemma StandsStill(ops: seq<Op>, x: Op, r: nat, tok: Token, s: nat)
    requires r < |ops|
    ensures Stands(ops + [x], r, tok, s) <==>
            Stands(ops, r, tok, s) && x != Take(tok) && x != Lapse(tok, s) && !(x.Register? && x.token == tok)
  {
    var more := ops + [x];
    assert forall j :: 0 <= j < |ops| ==> more[j] == ops[j];
    assert more[|ops|] == x;
    if Stands(more, r, tok, s) {
      forall j | r < j < |ops|
        ensures ops[j] != Take(tok) && ops[j] != Lapse(tok, s) && !(ops[j].Register? && ops[j].token == tok)
      {
        assert more[j] == ops[j];
      }
    }
  }

  /** What is pending, exactly, over any order of registrations, timers and claims. */
  lemma {:induction false} PendingExactly(ops: seq<Op>, tok: Token, s: nat)
    ensures tok in After(ops) && After(ops)[tok] == s <==> exists r :: Stands(ops, r, tok, s)
  {
    if ops != [] {
      var n := |ops| - 1;
      var prev, x := ops[..n], ops[n];
      assert ops == prev + [x];
      PendingExactly(prev, tok, s);
      forall r | 0 <= r < n
        ensures Stands(ops, r, tok, s) <==>
                Stands(prev, r, tok, s) && x != Take(tok) && x != Lapse(tok, s) && !(x.Register? && x.token == tok)
      {
        StandsStill(prev, x, r, tok, s);
      }
      assert Stands(ops, n, tok, s) <==> x == Register(tok, s);
      hide Stands;
      if tok in After(prev) && After(prev)[tok] == s {
        var r :| Stands(prev, r, tok, s);
        InRange(prev, r, tok, s);
      }
      if r :| Stands(ops, r, tok, s) {
        InRange(ops, r, tok, s);
      }
    }
  }

  lemma InRange(ops: seq<Op>, r: nat, tok: Token, s: nat)
    requires Stands(ops, r, tok, s)
    ensures r < |ops|
  {
  }

  /** A claim wins if and only if a registration of its token stands, and it is then
      handed the stream of that registration. */
  lemma HonouredExactly(ops: seq<Op>, i: nat, s: nat)
    requires i < |ops| && ops[i].Take?
    ensures Wins(ops, i) && After(ops[..i])[ops[i].token] == s <==> exists r :: Stands(ops[..i], r, ops[i].token, s)
  {
    PendingExactly(ops[..i], ops[i].token, s);
  }

  /** What becomes of a fresh connection that delivered these bytes, then no more. */
  datatype Outcome =
    | Session                                    // header handed back, a normal session
    | Failed                                     // no whole header arrived
    | Dropped                                    // closed
    | Attached(stream: nat, rest: seq<byte>)     // the carrier of that stream

  class MigRegistry {
    var pending: map<Token, nat>

    constructor ()
      ensures pending == map[]
    {
      pending := map[];
    }

    method Put(tok: Token, stream: nat)
      modifies this
      ensures pending == Apply(old(pending), Register(tok, stream))
    {
      pending := pending[tok := stream];
    }

    /** The timer armed by a registration removes that registration only. */
    method Expire(tok: Token, stream: nat)
      modifies this
      ensures pending == Apply(old(pending), Lapse(tok, stream))
    {
      if tok in pending && pending[tok] == stream {
        pending := pending - {tok};
      }
    }

    method Claim(tok: Token) returns (stream: Option<nat>)
      modifies this
      ensures pending == Apply(old(pending), Take(tok))
      ensures stream == if tok in old(pending) then Some(old(pending)[tok]) else None
    {
      stream := if tok in pending then Some(pending[tok]) else None;
      pending := pending - {tok};
    }

    /** MaybeAcceptCarrier on a connection whose bytes are w. */
    method Accept(w: seq<byte>) returns (o: Outcome)
      modifies this
      ensures pending == if Inspect(w).Claimed? then Apply(old(pending), Take(Inspect(w).token)) else old(pending)
      ensures o == match Inspect(w)
                   case NeedMore => if |w| < HEADER_SIZE then Failed else Dropped
                   case NotCarrier => Session
                   case Rejected => Dropped
                   case Claimed(tok, rest) => if tok in old(pending) then Attached(old(pending)[tok], rest) else Dropped
    {
      if |w| < HEADER_SIZE {
        return Failed;
      }
      if Cmd(w) != CMD_MIGRATE_CARRIER {
        return Session;
      }
      var length := Length(w);
      if length < TOKEN_LEN || length > MAX_DATA || |w| < HEADER_SIZE + length {
        return Dropped;
      }
      var stream := Claim(w[HEADER_SIZE..HEADER_SIZE + TOKEN_LEN]);
      if stream.None? {
        return Dropped;
      }
      return Attached(stream.value, w[HEADER_SIZE + length..]);
    }
  }
}
