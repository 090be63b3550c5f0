/** The client's pool of idle sessions: taking one out, and the periodic cleanup
    that walks the skip list while removing from it. */
module IdlePool {
  import opened SkipLists

  class Session {
    const serial: Key
    var idleSince: int
    var closed: bool
    var broken: bool
    var activeStreams: int

    constructor (serial: Key)
      ensures this.serial == serial && !closed && !broken && activeStreams == 0
    {
      this.serial := serial;
      idleSince, closed, broken, activeStreams := 0, false, false, 0;
    }

    ghost function View(): (e: Entry)
      reads this
    {
      Entry(closed, broken, activeStreams, idleSince)
    }
  }

  /** The pool key: newest session first. */
  function PoolKey(serial: Key): (k: Key) {
    KEY_LIMIT - 1 - serial
  }

  // ----- what a cleanup pass decides, as values ------------------------------

  datatype Entry = Entry(closed: bool, broken: bool, activeStreams: int, idleSince: int)

  datatype Fate =
    | Forgotten   // already closed: only taken out
    | Reaped      // broken but open: taken out and closed
    | Busy        // carries streams again: only taken out
    | Unexpired   // kept
    | Renewed     // expired, kept to fill the minimum
    | TimedOut    // expired: taken out and closed

  predicate Keeps(f: Fate) {
    f.Unexpired? || f.Renewed?
  }

  predicate Dooms(f: Fate) {
    f.Reaped? || f.TimedOut?
  }

  /** Open, unbroken and without streams. */
  predicate Eligible(e: Entry) {
    !e.closed && !e.broken && e.activeStreams <= 0
  }

  /** Fit to carry another stream. */
  predicate Usable(e: Entry) {
    !e.closed && !e.broken
  }

  function Judge(e: Entry, expiry: int, minIdle: int, kept: int): (f: Fate) {
    if e.closed then Forgotten
    else if e.broken then Reaped
    else if e.activeStreams > 0 then Busy
    else if e.idleSince >= expiry then Unexpired
    else if kept < minIdle then Renewed
    else TimedOut
  }

  /** The fates of the entries, in the order they are visited. */
  function Fates(es: seq<Entry>, expiry: int, minIdle: int): (fs: seq<Fate>)
    ensures |fs| == |es|
  {
    if es == [] then []
    else
      var fs := Fates(es[..|es| - 1], expiry, minIdle);
      fs + [Judge(es[|es| - 1], expiry, minIdle, Count(fs))]
  }

  /** How many are kept. */
  function Count(fs: seq<Fate>): (n: nat)
    ensures n <= |fs|
  {
    if fs == [] then 0 else Count(fs[..|fs| - 1]) + if Keeps(fs[|fs| - 1]) then 1 else 0
  }

  function EligibleCount(es: seq<Entry>): (n: nat) {
    if es == [] then 0 else EligibleCount(es[..|es| - 1]) + if Eligible(es[|es| - 1]) then 1 else 0
  }

  lemma {:induction false} FatePrefix(es: seq<Entry>, expiry: int, minIdle: int, i: nat)
    requires i <= |es|
    ensures Fates(es, expiry, minIdle)[..i] == Fates(es[..i], expiry, minIdle)
  {
    hide Judge, Count;
    var n := |es| - 1;
    if i < |es| {
      FatePrefix(es[..n], expiry, minIdle, i);
      assert es[..n][..i] == es[..i];
      assert Fates(es, expiry, minIdle)[..i] == Fates(es[..n], expiry, minIdle)[..i];
    } else {
      assert es[..i] == es;
    }
  }

  lemma FateAt(es: seq<Entry>, expiry: int, minIdle: int, i: nat)
    requires i < |es|
    ensures var fs := Fates(es, expiry, minIdle); fs[i] == Judge(es[i], expiry, minIdle, Count(fs[..i]))
  {
    hide Judge, Count;
    FatePrefix(es, expiry, minIdle, i);
    FatePrefix(es, expiry, minIdle, i + 1);
    assert es[..i + 1][..i] == es[..i];
  }

  /** A pass keeps every eligible unexpired session, times a session out exactly
      if it is eligible, expired and the minimum was kept before it, and closes
      nothing that carries streams over a working connection. */
  lemma SweepIsFair(es: seq<Entry>, expiry: int, minIdle: int, i: nat)
    requires i < |es|
    ensures var fs := Fates(es, expiry, minIdle);
            && (fs[i].Unexpired? <==> Eligible(es[i]) && es[i].idleSince >= expiry)
            && (fs[i].TimedOut? <==> Eligible(es[i]) && es[i].idleSince < expiry && Count(fs[..i]) >= minIdle)
            && (Dooms(fs[i]) ==> !es[i].closed && (es[i].broken || es[i].activeStreams <= 0))
            && (Keeps(fs[i]) ==> Eligible(es[i]))
  {
    FateAt(es, expiry, minIdle, i);
  }

  /** ... and leaves at least the minimum, or all the eligible if they are fewer. */
  lemma {:induction false} SweepKeepsEnough(es: seq<Entry>, expiry: int, minIdle: int)
    ensures var n := Count(Fates(es, expiry, minIdle));
            n <= EligibleCount(es) && (n >= minIdle || n == EligibleCount(es))
  {
    if es != [] {
      var n := |es| - 1;
      SweepKeepsEnough(es[..n], expiry, minIdle);
      var fs := Fates(es[..n], expiry, minIdle);
      assert (fs + [Judge(es[n], expiry, minIdle, Count(fs))])[..n] == fs;
    }
  }

  // ----- what a pass leaves behind ---------------------------------------------

  /** The keys of the entries with a fate of a kind, in visiting order. */
  function Doomed(ks: seq<Key>, fs: seq<Fate>): (r: seq<Key>)
    requires |ks| == |fs|
  {
    if ks == [] then []
    else
      var n := |ks| - 1;
      Doomed(ks[..n], fs[..n]) + if Dooms(fs[n]) then [ks[n]] else []
  }

  function Removed(ks: seq<Key>, fs: seq<Fate>): (r: set<Key>)
    requires |ks| == |fs|
  {
    set i | 0 <= i < |ks| && !Keeps(fs[i]) :: ks[i]
  }

  /** The new idle times of the renewed sessions, from the time of the visit. */
  function Stamps(ks: seq<Key>, fs: seq<Fate>, clock: nat -> int): (r: map<Key, int>)
    requires |ks| == |fs|
  {
    if ks == [] then map[]
    else
      var n := |ks| - 1;
      var before := Stamps(ks[..n], fs[..n], clock);
      if fs[n].Renewed? then before[ks[n] := clock(n)] else before
  }

  lemma {:induction false} StampsAreVisited(ks: seq<Key>, fs: seq<Fate>, clock: nat -> int)
    requires |ks| == |fs|
    ensures forall k :: k in Stamps(ks, fs, clock) ==> k in ks
  {
    if ks != [] {
      var n := |ks| - 1;
      StampsAreVisited(ks[..n], fs[..n], clock);
    }
  }

  lemma RemovedAppend(ks: seq<Key>, fs: seq<Fate>, k: Key, f: Fate)
    requires |ks| == |fs|
    ensures Removed(ks + [k], fs + [f]) == Removed(ks, fs) + if Keeps(f) then {} else {k}
  {
    var ks', fs' := ks + [k], fs + [f];
    assert ks'[|ks|] == k && fs'[|ks|] == f;
    forall i | 0 <= i < |ks| ensures ks'[i] == ks[i] && fs'[i] == fs[i] {
    }
  }

  lemma RemovedAreVisited(ks: seq<Key>, fs: seq<Fate>)
    requires |ks| == |fs|
    ensures forall k :: k in Removed(ks, fs) ==> k in ks
  {
  }

  lemma {:induction false} DoomedAre(ks: seq<Key>, fs: seq<Fate>)
    requires |ks| == |fs|
    ensures forall k :: k in Doomed(ks, fs) <==> exists i :: 0 <= i < |ks| && ks[i] == k && Dooms(fs[i])
  {
    if ks != [] {
      var n := |ks| - 1;
      DoomedAre(ks[..n], fs[..n]);
      forall k | exists i :: 0 <= i < |ks| && ks[i] == k && Dooms(fs[i]) ensures k in Doomed(ks, fs) {
        var i :| 0 <= i < |ks| && ks[i] == k && Dooms(fs[i]);
        if i < n {
          assert ks[..n][i] == k && Dooms(fs[..n][i]);
        }
      }
    }
  }

  lemma InOrderInit(ks: seq<Key>, keys: set<Key>)
    requires InOrder(ks, keys) && ks != []
    ensures var n := |ks| - 1; ks[n] in keys && InOrder(ks[..n], keys - {ks[n]})
  {
    var n := |ks| - 1;
    forall k ensures k in ks[..n] <==> k in keys - {ks[n]} {
      assert k in ks <==> k in ks[..n] || k == ks[n];
    }
  }

  lemma {:induction false} InOrderSize(ks: seq<Key>, keys: set<Key>)
    requires InOrder(ks, keys)
    ensures |ks| == |keys|
  {
    if ks == [] {
      assert keys == {};
    } else {
      InOrderInit(ks, keys);
      InOrderSize(ks[..|ks| - 1], keys - {ks[|ks| - 1]});
    }
  }

  /** There is only one such list. */
  lemma {:induction false} InOrderUnique(a: seq<Key>, b: seq<Key>, keys: set<Key>)
    requires InOrder(a, keys) && InOrder(b, keys)
    ensures a == b
  {
    InOrderSize(a, keys);
    InOrderSize(b, keys);
    if a != [] {
      var n := |a| - 1;
      assert a[n] in b && b[n] in a;
      InOrderInit(a, keys);
      InOrderInit(b, keys);
      InOrderUnique(a[..n], b[..n], keys - {a[n]});
      assert a == a[..n] + [a[n]] && b == b[..n] + [b[n]];
    }
  }

  lemma {:induction false} RemovedSize(ks: seq<Key>, fs: seq<Fate>)
    requires |ks| == |fs| && Ascending(ks)
    ensures |Removed(ks, fs)| == |ks| - Count(fs)
  {
    if ks == [] {
      assert Removed(ks, fs) == {};
    } else {
      var n := |ks| - 1;
      RemovedSize(ks[..n], fs[..n]);
      hide Removed, Keeps, Count;
      RemovedSizeNext(ks[..n], fs[..n], ks[n], fs[n]);
      assert ks == ks[..n] + [ks[n]] && fs == fs[..n] + [fs[n]];
    }
  }

  lemma RemovedSizeNext(ks: seq<Key>, fs: seq<Fate>, k: Key, f: Fate)
    requires |ks| == |fs| && k !in ks
    ensures |Removed(ks + [k], fs + [f])| == |Removed(ks, fs)| + 1 - (Count(fs + [f]) - Count(fs))
  {
    RemovedAppend(ks, fs, k, f);
    RemovedAreVisited(ks, fs);
    hide Removed;
    assert (fs + [f])[..|fs|] == fs;
  }

  lemma {:induction false} CountGrows(fs: seq<Fate>, i: nat)
    requires i <= |fs|
    ensures Count(fs[..i]) <= Count(fs)
  {
    if i < |fs| {
      CountGrows(fs[..|fs| - 1], i);
      assert fs[..|fs| - 1][..i] == fs[..i];
    } else {
      assert fs[..i] == fs;
    }
  }

  // ----- the pool -----------------------------------------------------------------

  /** Each session is filed under its own key, so no two keys share one. */
  ghost predicate Keyed(c: map<Key, Session?>) {
    forall k :: k in c ==> c[k] != null && k == PoolKey(c[k].serial)
  }

  ghost function Views(c: map<Key, Session?>): (v: map<Key, Entry>)
    requires Keyed(c)
    reads c.Values
    ensures v.Keys == c.Keys
  {
    map k | k in c :: c[k].View()
  }

  function EntriesOf(ks: seq<Key>, v: map<Key, Entry>): (es: seq<Entry>)
    requires forall k :: k in ks ==> k in v
    ensures |es| == |ks|
  {
    seq(|ks|, i requires 0 <= i < |ks| => v[ks[i]])
  }

  function FatesOf(ks: seq<Key>, v: map<Key, Entry>, expiry: int, minIdle: int): (fs: seq<Fate>)
    requires forall k :: k in ks ==> k in v
    ensures |fs| == |ks|
  {
    Fates(EntriesOf(ks, v), expiry, minIdle)
  }

  lemma FatesOfAppend(ks: seq<Key>, v: map<Key, Entry>, expiry: int, minIdle: int, k: Key)
    requires k in v && forall j :: j in ks ==> j in v
    ensures var fs := FatesOf(ks, v, expiry, minIdle);
            FatesOf(ks + [k], v, expiry, minIdle) == fs + [Judge(v[k], expiry, minIdle, Count(fs))]
  {
    var es := EntriesOf(ks + [k], v);
    assert es[..|es| - 1] == EntriesOf(ks, v);
  }

  lemma FoldsAppend(ks: seq<Key>, fs: seq<Fate>, clock: nat -> int, k: Key, f: Fate)
    requires |ks| == |fs|
    ensures Doomed(ks + [k], fs + [f]) == Doomed(ks, fs) + if Dooms(f) then [k] else []
    ensures Stamps(ks + [k], fs + [f], clock) ==
            if f.Renewed? then Stamps(ks, fs, clock)[k := clock(|ks|)] else Stamps(ks, fs, clock)
    ensures Count(fs + [f]) == Count(fs) + if Keeps(f) then 1 else 0
  {
    assert (ks + [k])[..|ks|] == ks && (fs + [f])[..|fs|] == fs;
  }

  /** The entries of `v` but for the new idle times. */
  function Stamped(v: map<Key, Entry>, stamps: map<Key, int>): (w: map<Key, Entry>)
    ensures w.Keys == v.Keys
  {
    map k | k in v :: if k in stamps then v[k].(idleSince := stamps[k]) else v[k]
  }

  function Restamp(v: map<Key, Entry>, key: Key, renewed: bool, now: int): (w: map<Key, Entry>)
    requires key in v
  {
    if renewed then v[key := v[key].(idleSince := now)] else v
  }

  lemma StampedNext(v: map<Key, Entry>, stamps: map<Key, int>, key: Key, renewed: bool, now: int)
    requires key in v && key !in stamps
    ensures Restamp(Stamped(v, stamps), key, renewed, now) == Stamped(v, if renewed then stamps[key := now] else stamps)
  {
  }

  /** The entries once the sessions in ss are closed. */
  ghost function Shut(c: map<Key, Session?>, v: map<Key, Entry>, ss: seq<Session>): (w: map<Key, Entry>)
    requires c.Keys == v.Keys
    ensures w.Keys == c.Keys
  {
    map k | k in v :: v[k].(closed := v[k].closed || c[k] in ss)
  }

  lemma ShutNone(c: map<Key, Session?>, v: map<Key, Entry>)
    requires c.Keys == v.Keys
    ensures Shut(c, v, []) == v
  {
  }

  lemma ShutNext(c: map<Key, Session?>, v: map<Key, Entry>, ss: seq<Session>, i: nat)
    requires c.Keys == v.Keys && i < |ss|
    ensures Shut(c, Shut(c, v, ss[..i]), [ss[i]]) == Shut(c, v, ss[..i + 1])
  {
    assert ss[..i + 1] == ss[..i] + [ss[i]];
  }

  /** ss are the sessions filed under ks. */
  ghost predicate Filed(c: map<Key, Session?>, ks: seq<Key>, ss: seq<Session>) {
    |ss| == |ks| && forall i :: 0 <= i < |ks| ==> ks[i] in c && c[ks[i]] == ss[i]
  }

  lemma FiledNext(c: map<Key, Session?>, ks: seq<Key>, ss: seq<Session>, key: Key, session: Session)
    requires Filed(c, ks, ss) && key in c && c[key] == session
    ensures Filed(c, ks + [key], ss + [session])
  {
  }

  lemma TakenOut(c: map<Key, Session?>, gone: set<Key>, key: Key)
    ensures c - gone - {key} == c - (gone + {key})
  {
  }

  /** The iterator stands on the first entry not yet visited. */
  ghost predicate Standing(c: map<Key, Session?>, m: map<Key, Node<Session?>>, visited: seq<Key>, it: Node?<Session?>) {
    if it == null then forall k :: k in c ==> k in visited
    else it.key in m && m[it.key] == it && it.key in c && forall k :: k in c ==> (k in visited <==> k < it.key)
  }

  lemma StandingNext(c: map<Key, Session?>, m: map<Key, Node<Session?>>, visited: seq<Key>,
                     it: Node<Session?>, t: Node?<Session?>, removed: set<Key>)
    requires Ascending(visited) && (forall k :: k in visited ==> k in c) && Standing(c, m, visited, it)
    requires (forall k :: k in removed ==> k in visited) && m.Keys == c.Keys - removed
    requires if t == null then forall k :: k in m ==> k <= it.key
             else t.key in m && m[t.key] == t && t.key > it.key && forall k :: k in m && k > it.key ==> t.key <= k
    ensures Ascending(visited + [it.key])
    ensures Standing(c, m - {it.key}, visited + [it.key], t) && Standing(c, m, visited + [it.key], t)
    ensures it.key !in visited
  {
    forall i | 0 <= i < |visited| ensures visited[i] < it.key {
      assert visited[i] in visited && visited[i] in c;
    }
    forall k | k in c && k !in visited && k != it.key ensures k > it.key && k in m {
      assert k in m.Keys;
    }
    assert forall k :: k in visited + [it.key] <==> k in visited || k == it.key;
  }

  // ----- the order of the pool, by serial numbers ------------------------------------

  /** The pool lists sessions from the newest to the oldest. */
  lemma NewestFirst(c: map<Key, Session?>, j: Key, k: Key)
    requires Keyed(c) && j in c && k in c
    ensures j < k <==> c[j].serial > c[k].serial
    ensures c[j].serial == c[k].serial ==> j == k
  {
  }

  /** What getIdleSession picks, by serial numbers alone: a usable session, newer than
      every other usable one; exactly the older ones stay. */
  ghost predicate PicksNewest(c: map<Key, Session?>, v: map<Key, Entry>, s: Session, rest: map<Key, Session?>)
    requires Keyed(c) && c.Keys == v.Keys
  {
    && (exists k :: k in c && c[k] == s && Usable(v[k]))
    && (forall k :: k in c && Usable(v[k]) && c[k] != s ==> c[k].serial < s.serial)
    && (forall k :: k in rest <==> k in c && c[k].serial < s.serial)
    && (forall k :: k in rest ==> rest[k] == c[k])
  }

  lemma LeastIsNewest(c: map<Key, Session?>, v: map<Key, Entry>, s: Session, rest: map<Key, Session?>)
    requires Keyed(c) && c.Keys == v.Keys
    requires var cut := PoolKey(s.serial);
             && cut in c && c[cut] == s && Usable(v[cut]) && rest == From(c, cut + 1)
             && forall k :: k in c && k < cut ==> !Usable(v[k])
    ensures PicksNewest(c, v, s, rest)
  {
    var cut := PoolKey(s.serial);
    forall k | k in c ensures (k < cut <==> c[k].serial > s.serial) && (c[k].serial == s.serial ==> k == cut) {
      NewestFirst(c, k, cut);
      NewestFirst(c, cut, k);
    }
  }

  /** The keys kept among the first i. */
  ghost function KeptBefore(ks: seq<Key>, fs: seq<Fate>, i: nat): (r: set<Key>)
    requires |ks| == |fs| && i <= |ks|
  {
    set j | 0 <= j < i && Keeps(fs[j]) :: ks[j]
  }

  lemma KeptBeforeNext(ks: seq<Key>, fs: seq<Fate>, n: nat)
    requires |ks| == |fs| && n < |ks| && Ascending(ks)
    ensures KeptBefore(ks, fs, n + 1) == KeptBefore(ks, fs, n) + if Keeps(fs[n]) then {ks[n]} else {}
    ensures ks[n] !in KeptBefore(ks, fs, n)
  {
    hide Keeps;
  }

  lemma CountNext(fs: seq<Fate>, n: nat)
    requires n < |fs|
    ensures Count(fs[..n + 1]) == Count(fs[..n]) + if Keeps(fs[n]) then 1 else 0
  {
    hide Keeps;
    assert fs[..n + 1][..n] == fs[..n];
  }

  lemma {:induction false} KeptBeforeSize(ks: seq<Key>, fs: seq<Fate>, i: nat)
    requires |ks| == |fs| && i <= |ks| && Ascending(ks)
    ensures |KeptBefore(ks, fs, i)| == Count(fs[..i])
  {
    if i == 0 {
      assert KeptBefore(ks, fs, i) == {};
    } else {
      KeptBeforeSize(ks, fs, i - 1);
      KeptBeforeNext(ks, fs, i - 1);
      CountNext(fs, i - 1);
      hide KeptBefore, Count, Keeps, Ascending;
    }
  }

  /** The entries from a key on. */
  ghost function From(c: map<Key, Session?>, lo: int): (r: map<Key, Session?>) {
    map k | k in c && k >= lo :: c[k]
  }

  class Pool {
    const idle: SkipList<Session?>
    const minIdle: int

    ghost predicate Valid()
      reads idle, idle.head, idle.m.Values
    {
      idle.Valid() && Keyed(idle.Contents())
    }

    constructor (minIdle: int)
      ensures Valid() && idle.Contents() == map[] && this.minIdle == minIdle && fresh(idle.Repr())
    {
      this.minIdle := minIdle;
      idle := new SkipList<Session?>();
    }

    /** What the die hook of a session's last stream does while it is usable. */
    method Park(session: Session, now: int, draw: nat)
      requires Valid() && draw < KEY_LIMIT && idle.len < 0x40_0000_0000
      modifies idle.Repr(), session`idleSince
      ensures Valid() && fresh(idle.Repr() - old(idle.Repr())) && session.idleSince == now
      ensures idle.Contents() == old(idle.Contents())[PoolKey(session.serial) := session]
    {
      hide SkipList.Valid;
      session.idleSince := now;
      idle.Insert(PoolKey(session.serial), session, draw);
    }

    method TakeOut(ghost c: map<Key, Session?>, key: Key)
      requires Valid() && Keyed(c)
      modifies idle.Repr()
      ensures Valid() && idle.Repr() <= old(idle.Repr())
      ensures idle.Contents() == old(idle.Contents()) - {key} && idle.m == old(idle.m) - {key}
      ensures Views(c) == old(Views(c))
    {
      hide SkipList.Valid;
      var _ := idle.Remove(key);
    }

    method Renew(ghost c: map<Key, Session?>, key: Key, session: Session, now: int)
      requires Keyed(c) && key in c && c[key] == session
      modifies session`idleSince
      ensures Views(c) == Restamp(old(Views(c)), key, true, now)
    {
      session.idleSince := now;
    }

    /** One round of the cleanup loop, on an entry the iterator has moved off. */
    method Visit(ghost c: map<Key, Session?>, key: Key, session: Session, expiry: int, now: int, kept: int)
      returns (doom: bool, kept': int, ghost fate: Fate)
      requires Valid() && key in idle.Contents() && idle.Contents()[key] == session
      requires Keyed(c) && key in c && c[key] == session
      modifies idle.Repr(), session`idleSince
      ensures Valid() && idle.Repr() <= old(idle.Repr())
      ensures fate == Judge(old(session.View()), expiry, minIdle, kept)
      ensures doom == Dooms(fate) && kept' == kept + if Keeps(fate) then 1 else 0
      ensures idle.Contents() == if Keeps(fate) then old(idle.Contents()) else old(idle.Contents()) - {key}
      ensures idle.m == if Keeps(fate) then old(idle.m) else old(idle.m) - {key}
      ensures Views(c) == Restamp(old(Views(c)), key, fate.Renewed?, now)
    {
      hide SkipList.Valid, Views, Keyed, Valid, SkipList.Contents;
      fate := Judge(session.View(), expiry, minIdle, kept);
      doom, kept' := false, kept;
      if session.closed || session.broken {
        TakeOut(c, key);
        doom := session.broken && !session.closed;
      } else if session.activeStreams > 0 {
        TakeOut(c, key);
      } else if session.idleSince >= expiry {
        kept' := kept + 1;
      } else if kept < minIdle {
        Renew(c, key, session, now);
        kept' := kept + 1;
      } else {
        doom := true;
        TakeOut(c, key);
      }
    }

    /** What a pass over `visited` has done so far. */
    ghost predicate Tally(c: map<Key, Session?>, v: map<Key, Entry>, visited: seq<Key>, toClose: seq<Session>,
                          expiry: int, rest: map<Key, Session?>)
      requires c.Keys == v.Keys
    {
      && (forall k :: k in visited ==> k in v)
      && var fs := FatesOf(visited, v, expiry, minIdle);
      && rest == c - Removed(visited, fs)
      && Filed(c, Doomed(visited, fs), toClose)
    }

    ghost function StampsOf(v: map<Key, Entry>, visited: seq<Key>, expiry: int, clock: nat -> int): (r: map<Key, int>)
      requires forall k :: k in visited ==> k in v
    {
      Stamps(visited, FatesOf(visited, v, expiry, minIdle), clock)
    }

    lemma TallyNext(c: map<Key, Session?>, v: map<Key, Entry>, visited: seq<Key>, toClose: seq<Session>,
                    expiry: int, rest: map<Key, Session?>, key: Key, session: Session)
      requires c.Keys == v.Keys && Tally(c, v, visited, toClose, expiry, rest) && key in c && c[key] == session
      ensures var fate := Judge(v[key], expiry, minIdle, Count(FatesOf(visited, v, expiry, minIdle)));
              && Tally(c, v, visited + [key], if Dooms(fate) then toClose + [session] else toClose, expiry,
                       if Keeps(fate) then rest else rest - {key})
              && Count(FatesOf(visited + [key], v, expiry, minIdle)) ==
                 Count(FatesOf(visited, v, expiry, minIdle)) + if Keeps(fate) then 1 else 0
    {
      var fs := FatesOf(visited, v, expiry, minIdle);
      var fate := Judge(v[key], expiry, minIdle, Count(fs));
      hide FatesOf, Removed, Doomed, Stamps, Count, Judge, Filed;
      FatesOfAppend(visited, v, expiry, minIdle, key);
      FoldsAppend(visited, fs, n => 0, key, fate);
      RemovedAppend(visited, fs, key, fate);
      FiledNext(c, Doomed(visited, fs), toClose, key, session);
      TakenOut(c, Removed(visited, fs), key);
      assert Doomed(visited, fs) + [] == Doomed(visited, fs) && Removed(visited, fs) + {} == Removed(visited, fs);
    }

    lemma StampsNext(v: map<Key, Entry>, visited: seq<Key>, expiry: int, clock: nat -> int, key: Key)
      requires key in v && key !in visited && forall k :: k in visited ==> k in v
      ensures key !in StampsOf(v, visited, expiry, clock)
      ensures var fate := Judge(v[key], expiry, minIdle, Count(FatesOf(visited, v, expiry, minIdle)));
              var stamps := StampsOf(v, visited, expiry, clock);
              StampsOf(v, visited + [key], expiry, clock) ==
              if fate.Renewed? then stamps[key := clock(|visited|)] else stamps
    {
      var fs := FatesOf(visited, v, expiry, minIdle);
      FatesOfAppend(visited, v, expiry, minIdle, key);
      FoldsAppend(visited, fs, clock, key, Judge(v[key], expiry, minIdle, Count(fs)));
      StampsAreVisited(visited, fs, clock);
    }

    ghost predicate Swept(c: map<Key, Session?>, v: map<Key, Entry>, visited: seq<Key>, toClose: seq<Session>,
                          expiry: int, clock: nat -> int)
      requires c.Keys == v.Keys && Keyed(c)
      reads idle, idle.m.Values, c.Values
    {
      && Tally(c, v, visited, toClose, expiry, idle.Contents())
      && Views(c) == Stamped(v, StampsOf(v, visited, expiry, clock))
    }

    /** Between two rounds. */
    ghost predicate Halfway(c: map<Key, Session?>, v: map<Key, Entry>, visited: seq<Key>, toClose: seq<Session>,
                            expiry: int, clock: nat -> int, it: Node?<Session?>, kept: int)
      requires c.Keys == v.Keys && Keyed(c)
      reads idle, idle.m.Values, c.Values
    {
      && Ascending(visited) && Standing(c, idle.m, visited, it)
      && Swept(c, v, visited, toClose, expiry, clock)
      && kept == Count(FatesOf(visited, v, expiry, minIdle))
    }

    lemma Untouched(c: map<Key, Session?>, v: map<Key, Entry>, visited: seq<Key>, toClose: seq<Session>,
                    expiry: int, clock: nat -> int, it: Node<Session?>, kept: int)
      requires Valid() && c.Keys == v.Keys && Keyed(c)
      requires Halfway(c, v, visited, toClose, expiry, clock, it, kept)
      ensures it.key in idle.m && idle.m[it.key] == it && it.key in c && it.key !in visited
      ensures it.value == c[it.key] && it.key in idle.Contents() && idle.Contents()[it.key] == it.value
      ensures it.value != null && it.value.View() == v[it.key]
      ensures forall k :: k in visited ==> k in v
    {
      hide SkipList.Valid;
      StampsAreVisited(visited, FatesOf(visited, v, expiry, minIdle), clock);
      assert it.key in idle.Contents();
      assert Views(c)[it.key] == c[it.key].View();
    }

    lemma MovesOn(c: map<Key, Session?>, v: map<Key, Entry>, visited: seq<Key>, toClose: seq<Session>,
                  expiry: int, clock: nat -> int, it: Node<Session?>, kept: int)
      requires Valid() && c.Keys == v.Keys && Keyed(c)
      requires Halfway(c, v, visited, toClose, expiry, clock, it, kept)
      ensures |it.next| > 0 && Ascending(visited + [it.key])
      ensures it.next[0] != null ==> it.next[0].key > it.key
      ensures Standing(c, idle.m - {it.key}, visited + [it.key], it.next[0])
      ensures Standing(c, idle.m, visited + [it.key], it.next[0])
    {
      hide SkipList.Valid;
      var fs := FatesOf(visited, v, expiry, minIdle);
      RemovedAreVisited(visited, fs);
      assert idle.m.Keys == c.Keys - Removed(visited, fs) by {
        assert idle.m.Keys == idle.Contents().Keys;
      }
      idle.Successor(it);
      StandingNext(c, idle.m, visited, it, it.next[0], Removed(visited, fs));
    }

    /** One round: read the entry, move on, judge it. */
    method Round(ghost c: map<Key, Session?>, ghost v: map<Key, Entry>, ghost visited: seq<Key>, toClose: seq<Session>,
                 expiry: int, clock: nat -> int, it: Node<Session?>, kept: int, round: nat)
      returns (toClose': seq<Session>, it': Node?<Session?>, kept': int)
      requires Valid() && c.Keys == v.Keys && Keyed(c) && round == |visited|
      requires Halfway(c, v, visited, toClose, expiry, clock, it, kept)
      modifies idle.Repr(), c.Values
      ensures Valid() && idle.Repr() <= old(idle.Repr())
      ensures it' != null ==> it'.key > it.key
      ensures Halfway(c, v, visited + [it.key], toClose', expiry, clock, it', kept')
    {
      hide SkipList.Valid, Tally, Standing, FatesOf, Judge, StampsOf, Views, Stamped, Restamp;
      Untouched(c, v, visited, toClose, expiry, clock, it, kept);
      MovesOn(c, v, visited, toClose, expiry, clock, it, kept);
      var session := it.value;
      var key := it.key;
      it' := it.next[0];
      TallyNext(c, v, visited, toClose, expiry, idle.Contents(), key, session);
      StampsNext(v, visited, expiry, clock, key);
      var doom;
      ghost var fate;
      doom, kept', fate := Visit(c, key, session, expiry, clock(round), kept);
      toClose' := if doom then toClose + [session] else toClose;
      StampedNext(v, StampsOf(v, visited, expiry, clock), key, fate.Renewed?, clock(round));
    }

    /** The loop of idleCleanupExpTime. The iterator moves on before its entry is
        judged, so it always stands on an entry still linked in. */
    method Sweep(expiry: int, clock: nat -> int) returns (toClose: seq<Session>, ghost visited: seq<Key>)
      requires Valid()
      modifies idle.Repr(), idle.Contents().Values
      ensures Valid() && idle.Repr() <= old(idle.Repr())
      ensures InOrder(visited, old(idle.Contents()).Keys)
      ensures Swept(old(idle.Contents()), old(Views(idle.Contents())), visited, toClose, expiry, clock)
    {
      hide SkipList.Valid, Views, Halfway, Swept, SkipList.Contents;
      ghost var c, v := idle.Contents(), Views(idle.Contents());
      ghost var repr := idle.Repr();
      visited, toClose := [], [];
      var kept, round := 0, 0;
      var it := idle.First();
      Outset(c, v, expiry, clock, it);
      while it != null
        modifies repr, c.Values
        invariant Valid() && idle.Repr() <= repr && round == |visited|
        invariant Halfway(c, v, visited, toClose, expiry, clock, it, kept)
        decreases if it == null then 0 else KEY_LIMIT - it.key
      {
        ghost var key := it.key;
        toClose, it, kept := Round(c, v, visited, toClose, expiry, clock, it, kept, round);
        visited, round := visited + [key], round + 1;
      }
      Finish(c, v, visited, toClose, expiry, clock, kept);
    }

    lemma Outset(c: map<Key, Session?>, v: map<Key, Entry>, expiry: int, clock: nat -> int, it: Node?<Session?>)
      requires Keyed(c) && c == idle.Contents() && v == Views(c)
      requires if it == null then idle.m == map[]
               else it.key in idle.m && idle.m[it.key] == it && forall k :: k in idle.m ==> it.key <= k
      ensures Halfway(c, v, [], [], expiry, clock, it, 0)
    {
      assert idle.m.Keys == c.Keys;
    }

    lemma Finish(c: map<Key, Session?>, v: map<Key, Entry>, visited: seq<Key>, toClose: seq<Session>,
                 expiry: int, clock: nat -> int, kept: int)
      requires c.Keys == v.Keys && Keyed(c) && Halfway(c, v, visited, toClose, expiry, clock, null, kept)
      ensures InOrder(visited, c.Keys) && Swept(c, v, visited, toClose, expiry, clock)
    {
    }

    /** Session.Close: only the first call acts, and its die hook takes the
        session's key out of the pool, where it no longer is. */
    method Close(ghost c: map<Key, Session?>, s: Session)
      requires Valid() && Keyed(c) && PoolKey(s.serial) !in idle.Contents()
      modifies idle.Repr(), s`closed
      ensures Valid() && idle.Repr() <= old(idle.Repr()) && idle.Contents() == old(idle.Contents())
      ensures Views(c) == Shut(c, old(Views(c)), [s])
    {
      hide SkipList.Valid;
      if !s.closed {
        s.closed := true;
        assert idle.Contents() == idle.Contents() - {PoolKey(s.serial)};
        TakeOut(c, PoolKey(s.serial));
      }
    }

    method CloseAll(ghost c: map<Key, Session?>, ss: seq<Session>)
      requires Valid() && Keyed(c) && forall s :: s in ss ==> PoolKey(s.serial) !in idle.Contents()
      modifies idle.Repr(), ss`closed
      ensures Valid() && idle.Contents() == old(idle.Contents())
      ensures Views(c) == Shut(c, old(Views(c)), ss)
    {
      hide SkipList.Valid, Views, SkipList.Contents, Shut;
      ghost var rest, v, repr := idle.Contents(), Views(c), idle.Repr();
      ShutNone(c, v);
      for i := 0 to |ss|
        modifies repr, ss`closed
        invariant Valid() && idle.Contents() == rest && idle.Repr() <= repr
        invariant Views(c) == Shut(c, v, ss[..i])
      {
        Close(c, ss[i]);
        ShutNext(c, v, ss, i);
      }
      assert ss[..|ss|] == ss;
    }

    lemma DoomedAreOut(c: map<Key, Session?>, v: map<Key, Entry>, visited: seq<Key>, toClose: seq<Session>,
                       expiry: int, rest: map<Key, Session?>)
      requires c.Keys == v.Keys && Keyed(c) && Tally(c, v, visited, toClose, expiry, rest)
      ensures forall s :: s in toClose ==>
                PoolKey(s.serial) in c && c[PoolKey(s.serial)] == s && PoolKey(s.serial) !in rest && s in c.Values
    {
      var fs := FatesOf(visited, v, expiry, minIdle);
      DoomedAre(visited, fs);
      forall s | s in toClose
        ensures PoolKey(s.serial) in c && c[PoolKey(s.serial)] == s && PoolKey(s.serial) !in rest && s in c.Values
      {
        var j :| 0 <= j < |toClose| && toClose[j] == s;
        var k := Doomed(visited, fs)[j];
        assert k in Doomed(visited, fs) && c[k] == s;
        var i :| 0 <= i < |visited| && visited[i] == k && Dooms(fs[i]);
        assert visited[i] in Removed(visited, fs);
      }
    }

    /** idleCleanupExpTime. */
    method Cleanup(expiry: int, clock: nat -> int) returns (toClose: seq<Session>, ghost visited: seq<Key>)
      requires Valid()
      modifies idle.Repr(), idle.Contents().Values
      ensures Valid()
      ensures InOrder(visited, old(idle.Contents()).Keys)
      ensures Tally(old(idle.Contents()), old(Views(idle.Contents())), visited, toClose, expiry, idle.Contents())
      ensures var c, v := old(idle.Contents()), old(Views(idle.Contents()));
              Views(c) == Shut(c, Stamped(v, StampsOf(v, visited, expiry, clock)), toClose)
    {
      hide SkipList.Valid, Tally, StampsOf, Stamped, Views, Shut, InOrder;
      ghost var c, v := idle.Contents(), Views(idle.Contents());
      toClose, visited := Sweep(expiry, clock);
      DoomedAreOut(c, v, visited, toClose, expiry, idle.Contents());
      CloseAll(c, toClose);
    }

    /** What a pass over the whole pool leaves: only eligible sessions, every
        unexpired one among them, and either all of them or at least the minimum. */
    lemma CleanupKeeps(c: map<Key, Session?>, v: map<Key, Entry>, visited: seq<Key>, toClose: seq<Session>,
                       expiry: int, rest: map<Key, Session?>)
      requires c.Keys == v.Keys && Keyed(c) && InOrder(visited, c.Keys)
      requires Tally(c, v, visited, toClose, expiry, rest)
      ensures var eligible := set k | k in v && Eligible(v[k]);
              && rest.Keys <= eligible && (rest.Keys == eligible || |rest| >= minIdle)
              && (forall k :: k in eligible && v[k].idleSince >= expiry ==> k in rest)
    {
      hide Tally, FatesOf;
      var fs := FatesOf(visited, v, expiry, minIdle);
      var eligible := set k | k in v && Eligible(v[k]);
      RestSize(c, v, visited, toClose, expiry, rest);
      forall i | 0 <= i < |visited|
        ensures visited[i] in rest <==> Keeps(fs[i])
        ensures Keeps(fs[i]) ==> Eligible(v[visited[i]])
        ensures Eligible(v[visited[i]]) && v[visited[i]].idleSince >= expiry ==> Keeps(fs[i])
        ensures Eligible(v[visited[i]]) && !Keeps(fs[i]) ==> |rest| >= minIdle
      {
        FateOfKey(c, v, visited, toClose, expiry, rest, i);
      }
      if !(eligible <= rest.Keys) {
        var k :| k in eligible && k !in rest;
        var i :| 0 <= i < |visited| && visited[i] == k;
      }
    }

    lemma FateOfKey(c: map<Key, Session?>, v: map<Key, Entry>, visited: seq<Key>, toClose: seq<Session>,
                    expiry: int, rest: map<Key, Session?>, i: nat)
      requires c.Keys == v.Keys && Ascending(visited) && Tally(c, v, visited, toClose, expiry, rest) && i < |visited|
      ensures var fs := FatesOf(visited, v, expiry, minIdle);
              && fs[i] == Judge(v[visited[i]], expiry, minIdle, Count(fs[..i]))
              && (visited[i] in rest <==> Keeps(fs[i])) && Count(fs[..i]) <= Count(fs)
    {
      var fs := FatesOf(visited, v, expiry, minIdle);
      FateAt(EntriesOf(visited, v), expiry, minIdle, i);
      CountGrows(fs, i);
    }

    lemma RestSize(c: map<Key, Session?>, v: map<Key, Entry>, visited: seq<Key>, toClose: seq<Session>,
                   expiry: int, rest: map<Key, Session?>)
      requires c.Keys == v.Keys && InOrder(visited, c.Keys) && Tally(c, v, visited, toClose, expiry, rest)
      ensures |rest| == Count(FatesOf(visited, v, expiry, minIdle)) && rest.Keys <= c.Keys
    {
      var fs := FatesOf(visited, v, expiry, minIdle);
      RemovedSize(visited, fs);
      RemovedAreVisited(visited, fs);
      InOrderSize(visited, c.Keys);
      assert rest.Keys == c.Keys - Removed(visited, fs);
      assert Removed(visited, fs) <= c.Keys;
    }

    /** Every session a pass closes was open, and either broken or without streams
        and expired. */
    lemma CleanupCloses(c: map<Key, Session?>, v: map<Key, Entry>, visited: seq<Key>, toClose: seq<Session>,
                      expiry: int, rest: map<Key, Session?>, s: Session)
      requires c.Keys == v.Keys && Keyed(c) && Ascending(visited) && Tally(c, v, visited, toClose, expiry, rest)
      requires s in toClose
      ensures PoolKey(s.serial) in v
      ensures var e := v[PoolKey(s.serial)]; !e.closed && (e.broken || (e.activeStreams <= 0 && e.idleSince < expiry))
    {
      var i := DoomedAt(c, v, visited, toClose, expiry, rest, s);
      hide Tally, Doomed, Removed;
      FateAt(EntriesOf(visited, v), expiry, minIdle, i);
    }

    /** Those kept after s in serial number. */
    static ghost function Newer(rest: map<Key, Session?>, s: Session): (r: set<Key>) {
      set k | k in rest && rest[k] != null && rest[k].serial > s.serial
    }

    /** A session is timed out only if at least the minimum of newer sessions is kept:
        a pass lets the oldest go. */
    lemma OldestGo(c: map<Key, Session?>, v: map<Key, Entry>, visited: seq<Key>, toClose: seq<Session>,
                   expiry: int, rest: map<Key, Session?>, s: Session)
      requires c.Keys == v.Keys && Keyed(c) && Ascending(visited) && Tally(c, v, visited, toClose, expiry, rest)
      requires s in toClose && PoolKey(s.serial) in v && !v[PoolKey(s.serial)].broken
      ensures |Newer(rest, s)| >= minIdle
    {
      var i := DoomedAt(c, v, visited, toClose, expiry, rest, s);
      var fs := FatesOf(visited, v, expiry, minIdle);
      FateOfKey(c, v, visited, toClose, expiry, rest, i);
      assert Count(fs[..i]) >= minIdle;
      KeptBeforeSize(visited, fs, i);
      hide Tally, Keyed, FatesOf, KeptBefore, Newer, Count, Judge;
      KeptAreNewer(c, v, visited, toClose, expiry, rest, i, s);
      SubsetSize(KeptBefore(visited, fs, i), Newer(rest, s));
    }

    lemma KeptAreNewer(c: map<Key, Session?>, v: map<Key, Entry>, visited: seq<Key>, toClose: seq<Session>,
                       expiry: int, rest: map<Key, Session?>, i: nat, s: Session)
      requires c.Keys == v.Keys && Keyed(c) && Ascending(visited) && Tally(c, v, visited, toClose, expiry, rest)
      requires i < |visited| && visited[i] == PoolKey(s.serial)
      ensures KeptBefore(visited, FatesOf(visited, v, expiry, minIdle), i) <= Newer(rest, s)
    {
      var fs := FatesOf(visited, v, expiry, minIdle);
      forall k | k in KeptBefore(visited, fs, i) ensures k in Newer(rest, s) {
        var j :| 0 <= j < i && Keeps(fs[j]) && visited[j] == k;
        FateOfKey(c, v, visited, toClose, expiry, rest, j);
      }
    }

    static lemma SubsetSize(a: set<Key>, b: set<Key>)
      requires a <= b
      ensures |a| <= |b|
    {
      assert b == a + (b - a);
    }

    /** The visit that doomed it. */
    lemma DoomedAt(c: map<Key, Session?>, v: map<Key, Entry>, visited: seq<Key>, toClose: seq<Session>,
                   expiry: int, rest: map<Key, Session?>, s: Session) returns (i: nat)
      requires c.Keys == v.Keys && Keyed(c) && Tally(c, v, visited, toClose, expiry, rest) && s in toClose
      ensures i < |visited| && visited[i] == PoolKey(s.serial) && visited[i] in v
      ensures (forall k :: k in visited ==> k in v) && Dooms(FatesOf(visited, v, expiry, minIdle)[i])
    {
      var fs := FatesOf(visited, v, expiry, minIdle);
      DoomedAre(visited, fs);
      hide FatesOf, Removed;
      var j :| 0 <= j < |toClose| && toClose[j] == s;
      var k := Doomed(visited, fs)[j];
      assert k in Doomed(visited, fs) && c[k] == s;
      i :| 0 <= i < |visited| && visited[i] == k && Dooms(fs[i]);
    }

    /** Takes out the entry with the least key. */
    method Pop(ghost c: map<Key, Session?>, ghost lo: int) returns (key: Key, s: Session)
      requires Valid() && Keyed(c) && idle.Contents() == From(c, lo) && idle.Contents() != map[]
      modifies idle.Repr()
      ensures Valid() && idle.Repr() <= old(idle.Repr())
      ensures lo <= key && key in c && c[key] == s && (forall k :: k in c && lo <= k ==> key <= k)
      ensures idle.Contents() == From(c, key + 1) && Views(c) == old(Views(c))
    {
      hide SkipList.Valid, Views;
      var it := idle.First();
      Least(c, lo, it);
      key, s := it.key, it.value;
      hide From, SkipList.Contents;
      TakeOut(c, key);
    }

    lemma Least(c: map<Key, Session?>, lo: int, it: Node?<Session?>)
      requires Keyed(c) && idle.Contents() == From(c, lo) && idle.Contents() != map[]
      requires if it == null then idle.m == map[]
               else it.key in idle.m && idle.m[it.key] == it && forall k :: k in idle.m ==> it.key <= k
      ensures it != null && lo <= it.key && it.key in c && c[it.key] == it.value && it.value != null
      ensures forall k :: k in c && lo <= k ==> it.key <= k
      ensures From(c, lo) - {it.key} == From(c, it.key + 1)
    {
      assert idle.m.Keys == idle.Contents().Keys;
      if it != null {
        assert it.key in idle.Contents();
        assert forall k :: k in c && lo <= k ==> k in idle.Contents();
      }
    }

    /** What skipping every entry below `cut` hands out to be closed. */
    ghost predicate Skipped(c: map<Key, Session?>, v: map<Key, Entry>, cut: int, toClose: seq<Session>)
      requires c.Keys == v.Keys
    {
      forall k :: k in c ==>
        (k < cut ==> !Usable(v[k])) && (c[k] in toClose <==> k < cut && v[k].broken && !v[k].closed)
    }

    lemma SkipNext(c: map<Key, Session?>, v: map<Key, Entry>, lo: int, toClose: seq<Session>, key: Key)
      requires Keyed(c) && c.Keys == v.Keys && Skipped(c, v, lo, toClose)
      requires key in c && lo <= key && forall k :: k in c && lo <= k ==> key <= k
      ensures Skipped(c, v, key, toClose)
      ensures !Usable(v[key]) ==>
                Skipped(c, v, key + 1, if v[key].broken && !v[key].closed then toClose + [c[key]] else toClose)
    {
    }

    /** getIdleSession: the usable session with the least key, that is the newest;
        every entry up to it leaves the pool, and the broken ones among those
        passed over are handed out to be closed. */
    method GetIdle() returns (session: Session?, toClose: seq<Session>)
      requires Valid()
      modifies idle.Repr()
      ensures Valid()
      ensures var c, v := old(idle.Contents()), old(Views(idle.Contents()));
              if session == null then
                idle.Contents() == map[] && Skipped(c, v, KEY_LIMIT, toClose)
              else
                var cut := PoolKey(session.serial);
                && cut in c && c[cut] == session && Usable(v[cut])
                && idle.Contents() == From(c, cut + 1) && Skipped(c, v, cut, toClose)
                && PicksNewest(c, v, session, idle.Contents())
    {
      hide SkipList.Valid, Skipped, From, SkipList.Contents, Views;
      ghost var c, v, repr := idle.Contents(), Views(idle.Contents()), idle.Repr();
      ghost var lo: int := 0;
      session, toClose := null, [];
      Beginning(c, v);
      while !idle.IsEmpty()
        modifies repr
        invariant Valid() && idle.Repr() <= repr && 0 <= lo <= KEY_LIMIT
        invariant idle.Contents() == From(c, lo) && Skipped(c, v, lo, toClose) && Views(c) == v
        decreases KEY_LIMIT - lo
      {
        var key, s := Pop(c, lo);
        SkipNext(c, v, lo, toClose, key);
        ViewAt(c, key);
        lo := key as int + 1;
        if s.closed || s.broken {
          if s.broken && !s.closed {
            toClose := toClose + [s];
          }
        } else {
          session := s;
          Picked(c, v, key, s, toClose);
          return;
        }
      }
      Exhausted(c, v, lo, toClose);
    }

    lemma Picked(c: map<Key, Session?>, v: map<Key, Entry>, key: Key, s: Session, toClose: seq<Session>)
      requires Keyed(c) && c.Keys == v.Keys && key in c && c[key] == s && Usable(v[key])
      requires Skipped(c, v, key, toClose)
      ensures PicksNewest(c, v, s, From(c, key + 1))
    {
      LeastIsNewest(c, v, s, From(c, key + 1));
    }

    lemma ViewAt(c: map<Key, Session?>, key: Key)
      requires Keyed(c) && key in c
      ensures Views(c)[key] == c[key].View()
    {
    }

    lemma Beginning(c: map<Key, Session?>, v: map<Key, Entry>)
      requires Keyed(c) && c.Keys == v.Keys
      ensures From(c, 0) == c && Skipped(c, v, 0, [])
    {
    }

    lemma Exhausted(c: map<Key, Session?>, v: map<Key, Entry>, lo: int, toClose: seq<Session>)
      requires c.Keys == v.Keys && lo <= KEY_LIMIT && From(c, lo) == map[] && Skipped(c, v, lo, toClose)
      ensures Skipped(c, v, KEY_LIMIT, toClose)
    {
      forall k | k in c ensures k < lo {
        assert k !in From(c, lo);
      }
    }
  }
}
