/** The skip list under the session pool: linked nodes with a tower of forward
    pointers each, refined to a finite map with ordered queries. Keys are the
    pool's uint64 keys. */
module SkipLists {
  import opened Basics

  const MAX_LEVEL := 40
  const KEY_LIMIT := 0x1_0000_0000_0000_0000

  type Key = k: int | 0 <= k < KEY_LIMIT

  class Node<V> {
    const key: Key
    var value: V
    var next: seq<Node?<V>>

    constructor (level: nat, key: Key, value: V)
      ensures this.key == key && this.value == value
      ensures |next| == level && forall i :: 0 <= i < level ==> next[i] == null
    {
      this.key := key;
      this.value := value;
      next := seq(level, _ => null);
    }
  }

  // ----- the links, as values -------------------------------------------------
  //
  // `m` maps each key to its node, `nx` each node (and the head) to its tower.

  ghost predicate Above<V>(head: Node<V>, n: Node<V>, k: Key) {
    n == head || n.key < k
  }

  ghost predicate Towers<V>(m: map<Key, Node<V>>, nx: map<Node<V>, seq<Node?<V>>>) {
    forall k :: k in m ==> m[k] in nx
  }

  /** Pointer i of n leads to the first node above n that is higher than i, and
      is nil exactly when there is none. */
  ghost predicate Linked<V>(head: Node<V>, m: map<Key, Node<V>>, nx: map<Node<V>, seq<Node?<V>>>, n: Node<V>, i: nat)
    requires n in nx && i < |nx[n]| && Towers(m, nx)
  {
    var t := nx[n][i];
    if t == null then
      forall k :: k in m && Above(head, n, k) ==> |nx[m[k]]| <= i
    else
      && t.key in m && m[t.key] == t && Above(head, n, t.key) && |nx[t]| > i
      && forall k :: k in m && Above(head, n, k) && k < t.key ==> |nx[m[k]]| <= i
  }

  ghost predicate Shape<V>(head: Node<V>, m: map<Key, Node<V>>, nx: map<Node<V>, seq<Node?<V>>>, level: nat) {
    && 1 <= level <= MAX_LEVEL
    && nx.Keys == m.Values + {head} && head !in m.Values && |nx[head]| == MAX_LEVEL
    && Towers(m, nx)
    && (forall k :: k in m ==> m[k].key == k && 1 <= |nx[m[k]]| <= level)
    && (forall i :: level <= i < MAX_LEVEL ==> nx[head][i] == null)
  }

  ghost predicate AllLinked<V>(head: Node<V>, m: map<Key, Node<V>>, nx: map<Node<V>, seq<Node?<V>>>)
    requires Towers(m, nx)
  {
    forall n, i :: n in nx && 0 <= i < |nx[n]| ==> Linked(head, m, nx, n, i)
  }

  /** n is the last node of level i below (or up to, if `upTo`) the key. */
  ghost predicate PrevAt<V>(head: Node<V>, nx: map<Node<V>, seq<Node?<V>>>, n: Node<V>, i: nat, key: Key, equal: bool) {
    && n in nx && i < |nx[n]| && Above(head, n, key)
    && (nx[n][i] == null || nx[n][i].key > key || (equal && nx[n][i].key == key))
  }

  /** At level i, only the predecessor's pointer can step over a key. */
  lemma OnlyPrevSteps<V>(head: Node<V>, m: map<Key, Node<V>>, nx: map<Node<V>, seq<Node?<V>>>, level: nat,
                         p: Node<V>, n: Node<V>, i: nat, key: Key)
    requires Shape(head, m, nx, level) && AllLinked(head, m, nx)
    requires PrevAt(head, nx, p, i, key, true) && PrevAt(head, nx, n, i, key, true)
    ensures p == n
  {
    assert Linked(head, m, nx, p, i) && Linked(head, m, nx, n, i);
    assert p == head || m[p.key] == p;
    assert n == head || m[n.key] == n;
  }

  // ----- the levels as lists ----------------------------------------------------

  predicate Ascending(ks: seq<Key>) {
    forall i, j :: 0 <= i < j < |ks| ==> ks[i] < ks[j]
  }

  /** ks lists the keys of a set in order, each once. */
  ghost predicate InOrder(ks: seq<Key>, keys: set<Key>) {
    Ascending(ks) && forall k :: k in ks <==> k in keys
  }

  /** The keys met along level i after n. */
  ghost function Chain<V>(head: Node<V>, m: map<Key, Node<V>>, nx: map<Node<V>, seq<Node?<V>>>, level: nat,
                          n: Node<V>, i: nat): (ks: seq<Key>)
    requires Shape(head, m, nx, level) && AllLinked(head, m, nx) && n in nx && i < |nx[n]|
    decreases if n == head then KEY_LIMIT + 1 else KEY_LIMIT - n.key
  {
    assert Linked(head, m, nx, n, i);
    var t := nx[n][i];
    if t == null then [] else [t.key] + Chain(head, m, nx, level, t, i)
  }

  ghost function Higher<V>(head: Node<V>, m: map<Key, Node<V>>, nx: map<Node<V>, seq<Node?<V>>>, n: Node<V>, i: nat)
    : (keys: set<Key>)
    requires Towers(m, nx)
  {
    set k | k in m && Above(head, n, k) && |nx[m[k]]| > i
  }

  /** Following level i meets exactly the nodes higher than i, in key order. */
  lemma {:induction false} ChainInOrder<V>(head: Node<V>, m: map<Key, Node<V>>, nx: map<Node<V>, seq<Node?<V>>>,
                                           level: nat, n: Node<V>, i: nat)
    requires Shape(head, m, nx, level) && AllLinked(head, m, nx) && n in nx && i < |nx[n]|
    ensures InOrder(Chain(head, m, nx, level, n, i), Higher(head, m, nx, n, i))
    decreases if n == head then KEY_LIMIT + 1 else KEY_LIMIT - n.key
  {
    assert Linked(head, m, nx, n, i);
    var t := nx[n][i];
    if t != null {
      ChainInOrder(head, m, nx, level, t, i);
      var rest := Chain(head, m, nx, level, t, i);
      assert forall j :: 0 <= j < |rest| ==> rest[j] in rest;
      HigherNext(head, m, nx, level, n, i);
    }
  }

  lemma HigherNext<V>(head: Node<V>, m: map<Key, Node<V>>, nx: map<Node<V>, seq<Node?<V>>>,
                      level: nat, n: Node<V>, i: nat)
    requires Shape(head, m, nx, level) && AllLinked(head, m, nx) && n in nx && i < |nx[n]| && nx[n][i] != null
    ensures var t := nx[n][i];
            && t in nx && t != head && Above(head, n, t.key)
            && Higher(head, m, nx, n, i) == {t.key} + Higher(head, m, nx, t, i)
            && forall k :: k in Higher(head, m, nx, t, i) ==> k > t.key
  {
    assert Linked(head, m, nx, n, i);
  }

  /** Level 0 from the head is the whole map in order; each level is made of
      keys of the one below, in the same order. */
  lemma LevelsNest<V>(head: Node<V>, m: map<Key, Node<V>>, nx: map<Node<V>, seq<Node?<V>>>, level: nat, i: nat)
    requires Shape(head, m, nx, level) && AllLinked(head, m, nx) && i + 1 < MAX_LEVEL
    ensures InOrder(Chain(head, m, nx, level, head, 0), m.Keys)
    ensures Ascending(Chain(head, m, nx, level, head, i)) && Ascending(Chain(head, m, nx, level, head, i + 1))
    ensures forall k :: k in Chain(head, m, nx, level, head, i + 1) ==> k in Chain(head, m, nx, level, head, i)
    ensures i >= level ==> Chain(head, m, nx, level, head, i) == []
  {
    hide Linked;
    ChainInOrder(head, m, nx, level, head, 0);
    ChainInOrder(head, m, nx, level, head, i);
    ChainInOrder(head, m, nx, level, head, i + 1);
    assert Higher(head, m, nx, head, 0) == m.Keys;
    assert Higher(head, m, nx, head, i + 1) <= Higher(head, m, nx, head, i);
  }

  // ----- insertion ----------------------------------------------------------------

  /** The towers after a node of height h went in behind `prevs`. */
  ghost predicate Inserted<V>(head: Node<V>, nx: map<Node<V>, seq<Node?<V>>>, nx': map<Node<V>, seq<Node?<V>>>,
                              node: Node<V>, h: nat, level: nat, prevs: seq<Node<V>>)
    requires |prevs| == level && head in nx
  {
    && nx'.Keys == nx.Keys + {node} && node !in nx && |nx'[node]| == h
    && (forall n :: n in nx ==> |nx'[n]| == |nx[n]|)
    && (forall n, j {:trigger nx'[n][j]} :: n in nx && 0 <= j < |nx[n]| ==>
          nx'[n][j] == if j < h && (if j < level then prevs[j] == n else n == head) then node else nx[n][j])
    && (forall j {:trigger nx'[node][j]} :: 0 <= j < h ==>
          nx'[node][j] == if j < level && prevs[j] in nx && j < |nx[prevs[j]]| then nx[prevs[j]][j] else null)
  }

  lemma InsertLinksOld<V>(head: Node<V>, m: map<Key, Node<V>>, nx: map<Node<V>, seq<Node?<V>>>, level: nat,
                          key: Key, node: Node<V>, h: nat, prevs: seq<Node<V>>, nx': map<Node<V>, seq<Node?<V>>>,
                          n: Node<V>, i: nat)
    requires Shape(head, m, nx, level) && AllLinked(head, m, nx)
    requires key !in m && node.key == key && 1 <= h <= MAX_LEVEL && |prevs| == level
    requires forall j :: 0 <= j < level ==> PrevAt(head, nx, prevs[j], j, key, false)
    requires Inserted(head, nx, nx', node, h, level, prevs)
    requires n in nx && i < |nx[n]|
    ensures Towers(m[key := node], nx')
    ensures Linked(head, m[key := node], nx', n, i)
  {
    var m' := m[key := node];
    assert Linked(head, m, nx, n, i);
    assert forall k :: k in m ==> m'[k] == m[k] && |nx'[m[k]]| == |nx[m[k]]|;
    if i < h && i < level {
      assert PrevAt(head, nx, prevs[i], i, key, false);
      if PrevAt(head, nx, n, i, key, true) {
        OnlyPrevSteps(head, m, nx, level, prevs[i], n, i, key);
      }
    }
  }

  lemma InsertLinksNew<V>(head: Node<V>, m: map<Key, Node<V>>, nx: map<Node<V>, seq<Node?<V>>>, level: nat,
                          key: Key, node: Node<V>, h: nat, prevs: seq<Node<V>>, nx': map<Node<V>, seq<Node?<V>>>,
                          i: nat)
    requires Shape(head, m, nx, level) && AllLinked(head, m, nx)
    requires key !in m && node.key == key && 1 <= h <= MAX_LEVEL && |prevs| == level
    requires forall j :: 0 <= j < level ==> PrevAt(head, nx, prevs[j], j, key, false)
    requires Inserted(head, nx, nx', node, h, level, prevs)
    requires i < h
    ensures Towers(m[key := node], nx')
    ensures Linked(head, m[key := node], nx', node, i)
  {
    var m' := m[key := node];
    assert forall k :: k in m ==> m'[k] == m[k] && |nx'[m[k]]| == |nx[m[k]]|;
    assert node != head;
    if i < level {
      assert PrevAt(head, nx, prevs[i], i, key, false);
      assert Linked(head, m, nx, prevs[i], i);
    }
  }

  lemma InsertKeepsLinks<V>(head: Node<V>, m: map<Key, Node<V>>, nx: map<Node<V>, seq<Node?<V>>>, level: nat,
                            key: Key, node: Node<V>, h: nat, prevs: seq<Node<V>>, nx': map<Node<V>, seq<Node?<V>>>)
    requires Shape(head, m, nx, level) && AllLinked(head, m, nx)
    requires key !in m && node.key == key && 1 <= h <= MAX_LEVEL && |prevs| == level
    requires forall j :: 0 <= j < level ==> PrevAt(head, nx, prevs[j], j, key, false)
    requires Inserted(head, nx, nx', node, h, level, prevs)
    ensures Shape(head, m[key := node], nx', if h > level then h else level)
    ensures AllLinked(head, m[key := node], nx')
  {
    InsertKeepsShape(head, m, nx, level, key, node, h, prevs, nx');
    hide Linked, Inserted, PrevAt;
    var m' := m[key := node];
    forall n, i | n in nx' && 0 <= i < |nx'[n]|
      ensures Linked(head, m', nx', n, i)
    {
      TowerAfter(head, nx, nx', node, h, level, prevs, n);
      if n == node {
        InsertLinksNew(head, m, nx, level, key, node, h, prevs, nx', i);
      } else {
        InsertLinksOld(head, m, nx, level, key, node, h, prevs, nx', n, i);
      }
    }
  }

  lemma TowerAfter<V>(head: Node<V>, nx: map<Node<V>, seq<Node?<V>>>, nx': map<Node<V>, seq<Node?<V>>>,
                      node: Node<V>, h: nat, level: nat, prevs: seq<Node<V>>, n: Node<V>)
    requires |prevs| == level && head in nx && Inserted(head, nx, nx', node, h, level, prevs) && n in nx'
    ensures n == node ==> |nx'[n]| == h
    ensures n != node ==> n in nx && |nx'[n]| == |nx[n]|
  {
  }

  lemma InsertKeepsShape<V>(head: Node<V>, m: map<Key, Node<V>>, nx: map<Node<V>, seq<Node?<V>>>, level: nat,
                            key: Key, node: Node<V>, h: nat, prevs: seq<Node<V>>, nx': map<Node<V>, seq<Node?<V>>>)
    requires Shape(head, m, nx, level) && key !in m && node.key == key && 1 <= h <= MAX_LEVEL && |prevs| == level
    requires Inserted(head, nx, nx', node, h, level, prevs)
    ensures Shape(head, m[key := node], nx', if h > level then h else level)
  {
    var m' := m[key := node];
    assert m'.Values == m.Values + {node} by {
      assert m'[key] == node;
      forall n | n in m.Values ensures n in m'.Values {
        var k :| k in m && m[k] == n;
        assert m'[k] == n;
      }
    }
    forall k | k in m' ensures m'[k].key == k && m'[k] in nx' && 1 <= |nx'[m'[k]]| <= (if h > level then h else level) {
      assert k == key || (k in m && m'[k] == m[k]);
    }
    forall i | (if h > level then h else level) <= i < MAX_LEVEL ensures nx'[head][i] == null {
      assert nx'[head][i] == nx[head][i];
    }
  }

  // ----- removal -------------------------------------------------------------------

  /** The towers after `node` was unlinked from behind `prevs`. */
  ghost predicate Unlinked<V>(nx: map<Node<V>, seq<Node?<V>>>, nx': map<Node<V>, seq<Node?<V>>>,
                              node: Node<V>, prevs: seq<Node<V>>)
    requires node in nx && |prevs| >= |nx[node]|
  {
    && nx'.Keys == nx.Keys - {node}
    && (forall n :: n in nx' ==> |nx'[n]| == |nx[n]|)
    && (forall n, j {:trigger nx'[n][j]} :: n in nx' && 0 <= j < |nx[n]| ==>
          nx'[n][j] == if j < |nx[node]| && prevs[j] == n then nx[node][j] else nx[n][j])
  }

  lemma RemoveLinks<V>(head: Node<V>, m: map<Key, Node<V>>, nx: map<Node<V>, seq<Node?<V>>>, level: nat,
                       key: Key, node: Node<V>, prevs: seq<Node<V>>, nx': map<Node<V>, seq<Node?<V>>>,
                       n: Node<V>, i: nat)
    requires Shape(head, m, nx, level) && AllLinked(head, m, nx)
    requires key in m && m[key] == node && |prevs| == level
    requires forall j :: 0 <= j < level ==> PrevAt(head, nx, prevs[j], j, key, true)
    requires Unlinked(nx, nx', node, prevs)
    requires n in nx' && i < |nx'[n]|
    ensures Towers(m - {key}, nx')
    ensures Linked(head, m - {key}, nx', n, i)
  {
    var m' := m - {key};
    assert Linked(head, m, nx, n, i);
    forall k | k in m' ensures m'[k] in nx' && |nx'[m[k]]| == |nx[m[k]]| {
      assert m[k].key == k && m[k] != node;
    }
    var t := nx[n][i];
    if i < |nx[node]| {
      assert PrevAt(head, nx, prevs[i], i, key, true);
      assert Linked(head, m, nx, node, i) && Linked(head, m, nx, prevs[i], i);
      if t == node {
        OnlyPrevSteps(head, m, nx, level, prevs[i], n, i, key);
      } else if t != null {
        assert t.key in m' && m'[t.key] == t;
      }
      if nx[node][i] != null && prevs[i] == n {
        assert nx[node][i].key in m';
      }
    } else if t != null {
      assert t != node;
      assert t.key in m' && m'[t.key] == t;
    }
  }

  lemma RemoveKeepsLinks<V>(head: Node<V>, m: map<Key, Node<V>>, nx: map<Node<V>, seq<Node?<V>>>, level: nat,
                            key: Key, node: Node<V>, prevs: seq<Node<V>>, nx': map<Node<V>, seq<Node?<V>>>)
    requires Shape(head, m, nx, level) && AllLinked(head, m, nx)
    requires key in m && m[key] == node && |prevs| == level
    requires forall j :: 0 <= j < level ==> PrevAt(head, nx, prevs[j], j, key, true)
    requires Unlinked(nx, nx', node, prevs)
    ensures Shape(head, m - {key}, nx', level)
    ensures AllLinked(head, m - {key}, nx')
  {
    RemoveKeepsShape(head, m, nx, level, key, node, prevs, nx');
    hide Linked, Unlinked, PrevAt;
    forall n, i | n in nx' && 0 <= i < |nx'[n]|
      ensures Linked(head, m - {key}, nx', n, i)
    {
      RemoveLinks(head, m, nx, level, key, node, prevs, nx', n, i);
    }
  }

  lemma RemoveKeepsShape<V>(head: Node<V>, m: map<Key, Node<V>>, nx: map<Node<V>, seq<Node?<V>>>, level: nat,
                            key: Key, node: Node<V>, prevs: seq<Node<V>>, nx': map<Node<V>, seq<Node?<V>>>)
    requires Shape(head, m, nx, level) && AllLinked(head, m, nx) && key in m && m[key] == node && |prevs| == level
    requires Unlinked(nx, nx', node, prevs)
    ensures Shape(head, m - {key}, nx', level)
  {
    var m' := m - {key};
    assert m'.Values == m.Values - {node} by {
      forall n | n in m.Values && n != node ensures n in m'.Values {
        var k :| k in m && m[k] == n;
        assert k != key && m'[k] == n;
      }
      assert forall k :: k in m' ==> m'[k].key == k;
    }
    forall i | level <= i < MAX_LEVEL ensures nx'[head][i] == null {
      assert |nx[node]| <= level && head in nx';
      assert nx'[head][i] == nx[head][i];
    }
    forall k | k in m' ensures m'[k].key == k && m'[k] in nx' && 1 <= |nx'[m'[k]]| <= level {
      assert m'[k] == m[k] && m[k] != node;
    }
  }

  /** An empty top level may be given up. */
  lemma LowerLevel<V>(head: Node<V>, m: map<Key, Node<V>>, nx: map<Node<V>, seq<Node?<V>>>, level: nat)
    requires Shape(head, m, nx, level) && AllLinked(head, m, nx) && level > 1 && nx[head][level - 1] == null
    ensures Shape(head, m, nx, level - 1)
  {
    assert Linked(head, m, nx, head, level - 1);
  }

  // ----- level choice -----------------------------------------------------------------

  function Pow2(n: nat): (r: nat)
    ensures r >= 1
  {
    if n == 0 then 1 else 2 * Pow2(n - 1)
  }

  /** bits.Len64. */
  function BitLen(k: nat): (n: nat) {
    if k == 0 then 0 else 1 + BitLen(k / 2)
  }

  lemma {:induction false} BitLenBound(k: nat, n: nat)
    requires k < Pow2(n)
    ensures BitLen(k) <= n
  {
    if k > 0 {
      BitLenBound(k / 2, n - 1);
    }
  }

  lemma Pow2At40()
    ensures Pow2(40) == 0x100_0000_0000 && Pow2(38) == 0x40_0000_0000
  {
    assert Pow2(8) == 256;
    assert Pow2(16) == 0x1_0000;
    assert Pow2(24) == 0x100_0000;
    assert Pow2(32) == 0x1_0000_0000;
  }

  /** The level of a draw: 41 less the bits of the draw modulo 2^40 - 1, cut down to
      what the length allows, and no further than that. */
  predicate LevelFor(draw: nat, len: nat, level: nat) {
    var start := 41 - BitLen(draw % 0xFF_FFFF_FFFF);
    && (level <= 3 || Pow2(level - 3) <= len)
    && level <= start && (level < start ==> level >= 3 && Pow2(level - 2) > len)
  }

  /** randomLevel for a raw 64-bit draw: between 1 and 40 whenever the list holds
      fewer than 2^38 entries (a draw of 0 starts at 41), above 3 only if the list
      is long enough, and cut down no further than that. */
  method RandomLevel(draw: nat, len: nat) returns (level: nat)
    requires draw < KEY_LIMIT
    ensures 1 <= level <= 41 && (len < 0x40_0000_0000 ==> level <= MAX_LEVEL)
    ensures LevelFor(draw, len, level)
  {
    Pow2At40();
    var k := draw % 0xFF_FFFF_FFFF;
    BitLenBound(k, 40);
    level := MAX_LEVEL - BitLen(k) + 1;
    ghost var start := level;
    while level > 3 && Pow2(level - 3) > len
      invariant 1 <= level <= start
      invariant level < start ==> level >= 3 && Pow2(level - 2) > len
    {
      level := level - 1;
    }
  }

  // ----- the list -------------------------------------------------------------------------

  class SkipList<V(0)> {
    var level: nat
    var len: nat
    const head: Node<V>
    const prevsCache: array<Node?<V>>
    ghost var m: map<Key, Node<V>>

    /** Everything an operation may change. */
    ghost function Repr(): set<object>
      reads this
    {
      {this, head, prevsCache} + m.Values
    }

    ghost function Nexts(): map<Node<V>, seq<Node?<V>>>
      reads this, head, m.Values
    {
      map n | n in m.Values + {head} :: n.next
    }

    ghost predicate Valid()
      reads this, head, m.Values
    {
      && Shape(head, m, Nexts(), level) && AllLinked(head, m, Nexts())
      && len == |m| && prevsCache.Length == MAX_LEVEL
    }

    /** What the list stands for. */
    ghost function Contents(): map<Key, V>
      reads this, m.Values
    {
      map k | k in m :: m[k].value
    }

    constructor ()
      ensures Valid() && Contents() == map[] && fresh(Repr())
    {
      var v: V := *;
      level, len, m := 1, 0, map[];
      head := new Node<V>(MAX_LEVEL, 0, v);
      prevsCache := new Node?<V>[MAX_LEVEL](_ => null);
      new;
      hide Valid, Contents;
      NothingListed();
    }

    lemma NothingListed()
      requires m == map[] && level == 1 && len == 0 && prevsCache.Length == MAX_LEVEL
      requires |head.next| == MAX_LEVEL && forall j :: 0 <= j < MAX_LEVEL ==> head.next[j] == null
      ensures Valid() && Contents() == map[]
    {
      hide AllLinked, Linked, Nexts, Shape, Valid;
      NoLinks(head, head.next);
      NowValid(map[head := head.next]);
    }

    predicate IsEmpty()
      reads this, head, m.Values
      requires Valid()
      ensures IsEmpty() <==> Contents() == map[]
    {
      EmptyIff();
      len == 0
    }

    lemma EmptyIff()
      requires Valid()
      ensures len == 0 <==> Contents() == map[]
    {
      assert Contents().Keys == m.Keys;
      if len != 0 {
        var k :| k in m;
        assert k in Contents();
      }
    }

    /** n is the first entry whose key is at least `key`, or nil if none is. */
    ghost predicate IsLower(n: Node?<V>, key: Key)
      reads this
    {
      if n == null then forall k :: k in m ==> k < key
      else n.key in m && m[n.key] == n && n.key >= key && forall k :: k in m && k >= key ==> n.key <= k
    }

    ghost predicate Member(n: Node<V>)
      reads this
    {
      n == head || n in m.Values
    }

    /** A pointer of a member leads to a higher member, or nowhere. */
    lemma Step(n: Node<V>, i: nat)
      requires Valid() && Member(n) && i < |n.next|
      ensures Linked(head, m, Nexts(), n, i) && Nexts()[n] == n.next
      ensures var t := n.next[i];
              t != null ==>
                t in m.Values && t != head && t.key in m && m[t.key] == t && Above(head, n, t.key) && |t.next| > i
    {
      assert n in Nexts() && Nexts()[n] == n.next;
      assert Linked(head, m, Nexts(), n, i);
    }

    /** Standing right below the key at level 0 decides it. */
    lemma AtBottom(n: Node<V>, key: Key)
      requires Valid() && Member(n) && |n.next| > 0 && Above(head, n, key)
      requires n.next[0] == null || n.next[0].key >= key
      ensures IsLower(n.next[0], key)
      ensures key in m ==> n.next[0] == m[key]
    {
      Step(n, 0);
      var t := n.next[0];
      forall k | k in m && k >= key ensures t != null && t.key <= k {
        assert |Nexts()[m[k]]| >= 1;
      }
      if key in m {
        assert m[key].key == key;
      }
    }

    /** The inner loop of every search: along level i from `from`, up to the last
        node below the key. */
    method WalkLevel(from: Node<V>, i: nat, key: Key) returns (prev: Node<V>)
      requires Valid() && Member(from) && i < |from.next| && Above(head, from, key)
      ensures Member(prev) && i < |prev.next| && Above(head, prev, key)
      ensures prev.next[i] == null || prev.next[i].key >= key
    {
      hide Shape, AllLinked, Linked, Nexts;
      prev := from;
      var cur: Node?<V> := prev.next[i];
      while cur != null
        invariant Member(prev) && |prev.next| > i && Above(head, prev, key) && cur == prev.next[i]
        decreases if cur == null then 0 else KEY_LIMIT - cur.key
      {
        Step(prev, i);
        if cur.key >= key {
          return;
        }
        prev := cur;
        cur := cur.next[i];
        Step(prev, i);
      }
    }

    /** doFindNode: the node of `key`; failing that nil if `eq`, else the first
        entry above it. */
    method DoFindNode(key: Key, eq: bool) returns (node: Node?<V>)
      requires Valid()
      ensures key in m ==> node == m[key]
      ensures key !in m ==> if eq then node == null else IsLower(node, key)
    {
      hide Shape, AllLinked, Linked;
      var prev: Node<V> := head;
      var i := level;
      HeadTower();
      while i > 0
        invariant 0 <= i <= level && Member(prev) && |prev.next| >= i && Above(head, prev, key)
        invariant i < level ==> |prev.next| > i && (prev.next[i] == null || prev.next[i].key > key)
      {
        i := i - 1;
        prev := WalkLevel(prev, i, key);
        var cur := prev.next[i];
        if cur != null && cur.key == key {
          Step(prev, i);
          return cur;
        }
      }
      AtBottom(prev, key);
      if eq {
        return null;
      }
      return prev.next[0];
    }

    lemma HeadTower()
      requires Valid()
      ensures |head.next| == MAX_LEVEL && 1 <= level <= MAX_LEVEL
    {
      assert head in Nexts();
    }

    /** Where Go's Find returns a pointer to the value, this returns the node that holds it. */
    method Find(key: Key) returns (node: Node?<V>)
      requires Valid()
      ensures node != null <==> key in Contents()
      ensures node != null ==> node == m[key] && node.value == Contents()[key]
    {
      node := DoFindNode(key, true);
    }

    method LowerBound(key: Key) returns (node: Node?<V>)
      requires Valid()
      ensures IsLower(node, key)
    {
      node := DoFindNode(key, false);
      if key in m {
        MemberKey(key);
      }
    }

    lemma MemberKey(key: Key)
      requires Valid() && key in m
      ensures m[key].key == key && 1 <= |m[key].next| <= level && m[key] in m.Values && m[key] != head
    {
      assert m[key] in Nexts();
    }

    /** n is the first entry whose key is greater, or nil if none is. */
    ghost predicate IsUpper(n: Node?<V>, key: Key)
      reads this
    {
      if n == null then forall k :: k in m ==> k <= key
      else n.key in m && m[n.key] == n && n.key > key && forall k :: k in m && k > key ==> n.key <= k
    }

    method UpperBound(key: Key) returns (node: Node?<V>)
      requires Valid()
      ensures IsUpper(node, key)
    {
      node := LowerBound(key);
      if node != null && node.key == key {
        MemberKey(key);
        hide Shape, AllLinked, Linked;
        Successor(node);
        node := node.next[0];
      }
    }

    /** The iterator FindRange returns: where it starts and where it ends. */
    method FindRange(first: Key, last: Key) returns (node: Node?<V>, end: Node?<V>)
      requires Valid()
      ensures IsLower(node, first) && IsUpper(end, last)
    {
      node := LowerBound(first);
      end := UpperBound(last);
    }

    /** The keys from lo on that lie below n, or all of them if n is nil. */
    ghost function Between(lo: Key, n: Node?<V>): (keys: set<Key>)
      reads this
    {
      set k | k in m && lo <= k && (n == null || k < n.key)
    }

    /** Walking that range with IsNotEnd, Key and MoveToNext; None is a step off the
        end of the list, a nil dereference. The walk yields exactly the keys from
        `first` to `last`, so `last` itself whenever it is present; it fails exactly
        when some key lies strictly between `last` and a greater `first`. */
    method WalkRange(first: Key, last: Key) returns (r: Option<seq<Key>>)
      requires Valid()
      ensures r.None? <==> exists k :: k in m && last < k < first
      ensures r.Some? ==> InOrder(r.value, set k | k in m && first <= k <= last)
      ensures r.Some? ==> (last in r.value <==> last in m && first <= last)
    {
      hide Shape, AllLinked, Linked, Nexts, Valid;
      var it, end := FindRange(first, last);
      var ks: seq<Key> := [];
      while it != end
        invariant it != null ==> it.key in m && m[it.key] == it && it.key >= first
        invariant InOrder(ks, Between(first, it))
        invariant end != null && end.key >= first ==> it != null && it.key <= end.key
        decreases if it == null then 0 else KEY_LIMIT - it.key
      {
        if it == null {
          return None;
        }
        MemberKey(it.key);
        Successor(it);
        OneFurther(ks, first, it, it.next[0]);
        ks := ks + [it.key];
        it := it.next[0];
      }
      r := Some(ks);
    }

    lemma OneFurther(ks: seq<Key>, lo: Key, n: Node<V>, t: Node?<V>)
      requires InOrder(ks, Between(lo, n)) && n.key in m && lo <= n.key
      requires if t == null then forall k :: k in m ==> k <= n.key
               else t.key > n.key && forall k :: k in m && k > n.key ==> t.key <= k
      ensures InOrder(ks + [n.key], Between(lo, t))
    {
      forall i | 0 <= i < |ks| ensures ks[i] < n.key {
        assert ks[i] in ks;
      }
      forall k ensures k in ks + [n.key] <==> k in Between(lo, t) {
        assert k in ks + [n.key] <==> k in ks || k == n.key;
      }
    }

    /** next[0] is the successor in key order. */
    lemma Successor(n: Node<V>)
      requires Valid() && n in m.Values && n.key in m && m[n.key] == n
      ensures |n.next| > 0
      ensures var t := n.next[0];
              if t == null then forall k :: k in m ==> k <= n.key
              else t.key in m && m[t.key] == t && t.key > n.key && forall k :: k in m && k > n.key ==> t.key <= k
    {
      MemberKey(n.key);
      Step(n, 0);
      var t := n.next[0];
      forall k | k in m && k > n.key ensures t != null && t.key <= k {
        assert |Nexts()[m[k]]| >= 1;
      }
    }

    /** Iterate starts at the least key. */
    method First() returns (node: Node?<V>)
      requires Valid()
      ensures if node == null then m == map[]
              else node.key in m && m[node.key] == node && forall k :: k in m ==> node.key <= k
    {
      HeadTower();
      node := head.next[0];
      AtBottom0();
    }

    lemma AtBottom0()
      requires Valid()
      ensures |head.next| > 0
      ensures var t := head.next[0];
              if t == null then m == map[] else t.key in m && m[t.key] == t && forall k :: k in m ==> t.key <= k
    {
      HeadTower();
      AtBottom(head, 0);
      assert head.next[0] == null ==> m.Keys == {};
    }

    /** The recorded predecessors, one per level in use. */
    ghost predicate Prevs(key: Key, from: nat, equal: bool)
      reads this, head, m.Values, prevsCache
    {
      && level <= prevsCache.Length
      && forall i :: from <= i < level ==>
           prevsCache[i] != null && PrevAt(head, Nexts(), prevsCache[i], i, key, equal)
    }

    lemma RecordPrev(n: Node<V>, i: nat, key: Key, equal: bool)
      requires Valid() && Member(n) && i < |n.next| && Above(head, n, key)
      requires n.next[i] == null || n.next[i].key > key || (equal && n.next[i].key == key)
      ensures PrevAt(head, Nexts(), n, i, key, equal)
    {
    }

    /** findInsertPoint: the node of `key`, or nil with the predecessors recorded. */
    method FindInsertPoint(key: Key) returns (node: Node?<V>)
      requires Valid()
      modifies prevsCache
      ensures Valid()
      ensures node != null ==> key in m && node == m[key]
      ensures node == null ==> key !in m && Prevs(key, 0, false)
    {
      hide Shape, AllLinked, Linked, PrevAt;
      ghost var nx := Nexts();
      var prev: Node<V> := head;
      var i := level;
      HeadTower();
      while i > 0
        invariant 0 <= i <= level && Member(prev) && |prev.next| >= i && Above(head, prev, key)
        invariant i < level ==> |prev.next| > i && (prev.next[i] == null || prev.next[i].key > key)
        invariant Nexts() == nx && Valid()
        invariant forall j :: i <= j < level ==> prevsCache[j] != null && PrevAt(head, nx, prevsCache[j], j, key, false)
      {
        i := i - 1;
        prev := WalkLevel(prev, i, key);
        var cur := prev.next[i];
        if cur != null && cur.key == key {
          Step(prev, i);
          return cur;
        }
        RecordPrev(prev, i, key, false);
        assert PrevAt(head, nx, prev, i, key, false);
        prevsCache[i] := prev;
      }
      AtBottom(prev, key);
      return null;
    }

    /** findPrevNodes: the predecessors, whether or not the key is present. */
    method FindPrevNodes(key: Key)
      requires Valid()
      modifies prevsCache
      ensures Valid() && Prevs(key, 0, true)
    {
      hide Shape, AllLinked, Linked, PrevAt;
      ghost var nx := Nexts();
      var prev: Node<V> := head;
      var i := level;
      HeadTower();
      while i > 0
        invariant 0 <= i <= level && Member(prev) && |prev.next| >= i && Above(head, prev, key)
        invariant Nexts() == nx && Valid()
        invariant forall j :: i <= j < level ==> prevsCache[j] != null && PrevAt(head, nx, prevsCache[j], j, key, true)
      {
        i := i - 1;
        prev := WalkLevel(prev, i, key);
        RecordPrev(prev, i, key, true);
        assert PrevAt(head, nx, prev, i, key, true);
        prevsCache[i] := prev;
      }
    }

    /** The recorded predecessors as a sequence. */
    ghost predicate Recorded(prevs: seq<Node<V>>)
      reads this, prevsCache
    {
      level <= prevsCache.Length && |prevs| == level && forall j :: 0 <= j < level ==> prevsCache[j] == prevs[j]
    }

    /** The towers, with a node that is not yet in the map. */
    ghost function NextsAnd(node: Node<V>): map<Node<V>, seq<Node?<V>>>
      reads this, head, m.Values, node
    {
      map n | n in m.Values + {head, node} :: n.next
    }

    /** The towers after the node went in behind the first `done` predecessors. */
    ghost predicate Spliced(nx: map<Node<V>, seq<Node?<V>>>, node: Node<V>, h: nat, prevs: seq<Node<V>>, done: nat)
      reads nx.Keys, node
      requires done <= |prevs| && forall j :: 0 <= j < |prevs| ==> prevs[j] in nx && j < |nx[prevs[j]]|
    {
      && |node.next| == h
      && (forall j :: 0 <= j < h ==> node.next[j] == if j < done then nx[prevs[j]][j] else null)
      && (forall n :: n in nx ==> |n.next| == |nx[n]|)
      && (forall n, j {:trigger n.next[j]} :: n in nx && 0 <= j < |nx[n]| ==>
            n.next[j] == if j < done && prevs[j] == n then node else nx[n][j])
    }

    /** Insert's first loop: behind the predecessors. */
    method LinkBehind(node: Node<V>, h: nat, minLevel: nat, ghost prevs: seq<Node<V>>)
      requires 1 <= h <= MAX_LEVEL && minLevel <= level && minLevel <= h
      requires node !in m.Values && node != head && |node.next| == h && forall j :: 0 <= j < h ==> node.next[j] == null
      requires Recorded(prevs) && forall j :: 0 <= j < level ==> prevs[j] in Nexts() && j < |prevs[j].next|
      modifies head`next, m.Values`next, node`next
      ensures Spliced(old(Nexts()), node, h, prevs, minLevel)
    {
      ghost var nx := Nexts();
      for i := 0 to minLevel
        invariant Spliced(nx, node, h, prevs, i)
      {
        var p := prevsCache[i];
        node.next := node.next[i := p.next[i]];
        p.next := p.next[i := node];
      }
    }

    /** Insert's two loops: behind the predecessors, then from the head on the
        levels that did not exist before. */
    method LinkIn(node: Node<V>, h: nat, ghost prevs: seq<Node<V>>)
      requires 1 <= level <= MAX_LEVEL && 1 <= h <= MAX_LEVEL && |head.next| == MAX_LEVEL && head !in m.Values
      requires node !in m.Values && node != head && |node.next| == h && forall j :: 0 <= j < h ==> node.next[j] == null
      requires Recorded(prevs) && forall j :: 0 <= j < level ==> prevs[j] in Nexts() && j < |prevs[j].next|
      modifies head`next, m.Values`next, node`next
      ensures Inserted(head, old(Nexts()), NextsAnd(node), node, h, level, prevs) && |node.next| == h
    {
      ghost var nx := Nexts();
      var minLevel := if level < h then level else h;
      LinkBehind(node, h, minLevel, prevs);
      ghost var below := head.next;
      for i := minLevel to h
        modifies head`next
        invariant |head.next| == MAX_LEVEL
        invariant forall j :: 0 <= j < MAX_LEVEL ==> head.next[j] == if minLevel <= j < i then node else below[j]
      {
        head.next := head.next[i := node];
      }
    }

    /** Insert, for a raw random draw. */
    method Insert(key: Key, value: V, draw: nat)
      requires Valid() && draw < KEY_LIMIT && len < 0x40_0000_0000
      modifies Repr()
      ensures Valid() && fresh(Repr() - old(Repr()))
      ensures Contents() == old(Contents())[key := value]
      ensures key in old(m) ==> m == old(m)
      ensures forall k :: k in old(m) ==> k in m && m[k] == old(m)[k]
      ensures key !in old(m) ==> key in m && LevelFor(draw, old(len), |m[key].next|)
    {
      hide Valid, Prevs, Contents, LevelFor;
      var node := FindInsertPoint(key);
      if node != null {
        MemberKey(key);
        SetValue(node, value);
        return;
      }
      var h := RandomLevel(draw, len);
      node := new Node<V>(h, key, value);
      InsertNode(node, h);
    }

    method SetValue(node: Node<V>, value: V)
      requires Valid() && node.key in m && m[node.key] == node
      modifies node`value
      ensures Valid() && Contents() == old(Contents())[node.key := value]
    {
      node.value := value;
      assert Nexts() == old(Nexts());
      forall k | k in m && k != node.key ensures m[k] != node {
        assert m[k].key == k;
      }
    }

    lemma RecordedFacts(prevs: seq<Node<V>>, key: Key, equal: bool)
      requires Valid() && Prevs(key, 0, equal) && Recorded(prevs)
      ensures forall j :: 0 <= j < level ==>
                PrevAt(head, Nexts(), prevs[j], j, key, equal) && prevs[j] in Nexts() && j < |prevs[j].next|
    {
      hide Shape, AllLinked, Linked;
    }

    /** Links the node in; the list's own fields are still those of before. */
    method LinkNode(node: Node<V>, h: nat)
      requires Valid() && 1 <= h <= MAX_LEVEL && node.key !in m && Prevs(node.key, 0, false)
      requires node !in m.Values && node != head && |node.next| == h && forall j :: 0 <= j < h ==> node.next[j] == null
      modifies head`next, m.Values`next, node`next
      ensures Shape(head, m[node.key := node], NextsAnd(node), if h > level then h else level)
      ensures AllLinked(head, m[node.key := node], NextsAnd(node)) && |node.next| == h
    {
      hide Linked, PrevAt, Inserted;
      ghost var nx := Nexts();
      ghost var prevs: seq<Node<V>> := prevsCache[..level];
      RecordedFacts(prevs, node.key, false);
      HeadTower();
      LinkIn(node, h, prevs);
      InsertKeepsLinks(head, m, nx, level, node.key, node, h, prevs, NextsAnd(node));
    }

    lemma NextsAre(nx: map<Node<V>, seq<Node?<V>>>)
      requires nx.Keys == m.Values + {head} && forall n :: n in nx ==> nx[n] == n.next
      ensures Nexts() == nx
    {
    }

    lemma Opened()
      requires Valid()
      ensures Shape(head, m, Nexts(), level) && AllLinked(head, m, Nexts())
      ensures len == |m| && prevsCache.Length == MAX_LEVEL && head in Nexts()
    {
    }

    lemma Counted()
      requires Valid()
      ensures len == |m| && prevsCache.Length == MAX_LEVEL
    {
    }

    /** Valid again, from links and counts established one by one. */
    lemma NowValid(nx: map<Node<V>, seq<Node?<V>>>)
      requires Shape(head, m, nx, level) && AllLinked(head, m, nx)
      requires forall n :: n in nx ==> nx[n] == n.next
      requires len == |m| && prevsCache.Length == MAX_LEVEL
      ensures Valid() && Nexts() == nx
    {
      hide AllLinked, Linked;
      NextsAre(nx);
    }

    lemma ContentsAre(c: map<Key, V>)
      requires c.Keys == m.Keys && forall k :: k in m ==> c[k] == m[k].value
      ensures Contents() == c
    {
    }

    /** Brings the node into the map, raises the level and counts it. */
    method EnterNode(node: Node<V>, h: nat)
      requires Valid() && 1 <= h <= MAX_LEVEL && node.key !in m && Prevs(node.key, 0, false)
      requires node !in m.Values && node != head && |node.next| == h && forall j :: 0 <= j < h ==> node.next[j] == null
      modifies this, head`next, m.Values`next, node`next
      ensures Valid() && m == old(m)[node.key := node] && |node.next| == h
    {
      hide Linked, PrevAt, Shape, AllLinked, Nexts, Prevs, Valid;
      ghost var m' := m[node.key := node];
      Counted();
      assert |m'| == len + 1;
      LinkNode(node, h);
      ghost var nx := NextsAnd(node);
      var top := if h > level then h else level;
      m, level, len := m', top, len + 1;
      NowValid(nx);
    }

    method InsertNode(node: Node<V>, h: nat)
      requires Valid() && 1 <= h <= MAX_LEVEL && node.key !in m && Prevs(node.key, 0, false)
      requires node !in m.Values && node != head && |node.next| == h && forall j :: 0 <= j < h ==> node.next[j] == null
      modifies this, head`next, m.Values`next, node`next
      ensures Valid() && m == old(m)[node.key := node] && |node.next| == h
      ensures Contents() == old(Contents())[node.key := node.value]
    {
      hide Valid, Prevs;
      ghost var c := Contents()[node.key := node.value];
      EnterNode(node, h);
      ContentsAre(c);
    }

    /** The towers left once a node is out of the map. */
    ghost function NextsBut(node: Node<V>): map<Node<V>, seq<Node?<V>>>
      reads this, head, m.Values
    {
      map n | n in m.Values + {head} && n != node :: n.next
    }

    /** Remove's loop: every predecessor takes over the node's pointer. The node
        keeps its own tower, so an iterator standing on it can still move on. */
    method LinkOut(node: Node<V>, ghost prevs: seq<Node<V>>)
      requires 1 <= level && node in m.Values && node != head && |node.next| <= level
      requires Recorded(prevs)
      requires forall j :: 0 <= j < level ==> prevs[j] in Nexts() && prevs[j] != node && j < |prevs[j].next|
      modifies head`next, m.Values`next
      ensures node.next == old(node.next)
      ensures Unlinked(old(Nexts()), NextsBut(node), node, prevs)
    {
      ghost var nx := Nexts();
      for i := 0 to |node.next|
        invariant node.next == nx[node]
        invariant forall n :: n in nx ==> |n.next| == |nx[n]|
        invariant forall n, j {:trigger n.next[j]} :: n in nx && n != node && 0 <= j < |nx[n]| ==>
                    n.next[j] == if j < i && prevs[j] == n then nx[node][j] else nx[n][j]
      {
        var p := prevsCache[i];
        p.next := p.next[i := node.next[i]];
      }
    }

    /** A recorded predecessor is never the node itself. */
    lemma PrevIsNotNode(prevs: seq<Node<V>>, node: Node<V>)
      requires Valid() && Prevs(node.key, 0, true) && Recorded(prevs) && node.key in m && m[node.key] == node
      ensures forall j :: 0 <= j < level ==> prevs[j] != node
    {
      MemberKey(node.key);
    }

    method UnlinkNode(node: Node<V>)
      requires Valid() && node.key in m && m[node.key] == node && Prevs(node.key, 0, true)
      modifies head`next, m.Values`next
      ensures node.next == old(node.next)
      ensures Shape(head, m - {node.key}, NextsBut(node), level)
      ensures AllLinked(head, m - {node.key}, NextsBut(node))
    {
      hide Linked, PrevAt, Unlinked;
      ghost var nx := Nexts();
      ghost var prevs: seq<Node<V>> := prevsCache[..level];
      RecordedFacts(prevs, node.key, true);
      PrevIsNotNode(prevs, node);
      MemberKey(node.key);
      LinkOut(node, prevs);
      RemoveKeepsLinks(head, m, nx, level, node.key, node, prevs, NextsBut(node));
    }

    method ExitNode(node: Node<V>)
      requires Valid() && node.key in m && m[node.key] == node && Prevs(node.key, 0, true)
      modifies this, head`next, m.Values`next
      ensures Valid() && m == old(m) - {node.key} && node.next == old(node.next)
    {
      hide Linked, PrevAt, Shape, AllLinked, Nexts, Prevs, Valid;
      ghost var m' := m - {node.key};
      Counted();
      assert |m'| == len - 1 by {
        assert m'.Keys == m.Keys - {node.key};
      }
      UnlinkNode(node);
      ghost var nx := NextsBut(node);
      m, len := m', len - 1;
      NowValid(nx);
    }

    lemma NextsFacts()
      ensures Nexts().Keys == m.Values + {head} && forall n :: n in Nexts() ==> Nexts()[n] == n.next
    {
    }

    /** Remove's second loop: give up empty top levels. */
    method TrimLevels()
      requires Valid()
      modifies `level
      ensures Valid() && (level > 1 ==> head.next[level - 1] != null)
    {
      hide AllLinked, Linked, Nexts, Shape, Valid;
      ghost var nx := Nexts();
      NextsFacts();
      HeadTower();
      Opened();
      while level > 1 && head.next[level - 1] == null
        modifies `level
        invariant 1 <= level <= MAX_LEVEL && |head.next| == MAX_LEVEL
        invariant Shape(head, m, nx, level) && AllLinked(head, m, nx)
        decreases level
      {
        LowerLevel(head, m, nx, level);
        level := level - 1;
      }
      NowValid(nx);
    }

    /** Remove. */
    method Remove(key: Key) returns (found: bool)
      requires Valid()
      modifies Repr()
      ensures Valid() && Repr() <= old(Repr())
      ensures found <==> key in old(Contents())
      ensures Contents() == old(Contents()) - {key}
      ensures m == old(m) - {key}
      ensures found ==> old(m)[key].next == old(m[key].next)
    {
      hide Valid, Prevs, Nexts;
      FindPrevNodes(key);
      PrevBottom(key);
      var node := prevsCache[0].next[0];
      if node == null || node.key != key {
        assert m == m - {key};
        ContentsAre(Contents() - {key});
        return false;
      }
      RemoveNode(node);
      return true;
    }

    lemma PrevBottom(key: Key)
      requires Valid() && Prevs(key, 0, true)
      ensures prevsCache.Length > 0 && prevsCache[0] != null && |prevsCache[0].next| > 0
      ensures var t := prevsCache[0].next[0];
              if t != null && t.key == key then key in m && m[key] == t else key !in m
    {
      assert PrevAt(head, Nexts(), prevsCache[0], 0, key, true);
      AtBottom(prevsCache[0], key);
    }

    method RemoveNode(node: Node<V>)
      requires Valid() && node.key in m && m[node.key] == node && Prevs(node.key, 0, true)
      modifies this, head`next, m.Values`next
      ensures Valid() && m == old(m) - {node.key} && node.next == old(node.next)
      ensures Contents() == old(Contents()) - {node.key}
    {
      hide Valid, Prevs;
      ghost var c := Contents() - {node.key};
      ExitNode(node);
      TrimLevels();
      ContentsAre(c);
    }

    /** Clear. */
    method Clear()
      requires Valid()
      modifies this, head`next
      ensures Valid() && Contents() == map[] && m == map[]
    {
      hide AllLinked, Linked, Nexts, Shape, Valid;
      HeadTower();
      Counted();
      var i := 0;
      while i < |head.next|
        modifies head`next
        invariant 0 <= i <= |head.next| == MAX_LEVEL
        invariant forall j :: 0 <= j < i ==> head.next[j] == null
      {
        head.next := head.next[i := null];
        i := i + 1;
      }
      level, len, m := 1, 0, map[];
      NothingListed();
    }
  }

  lemma NoLinks<V>(head: Node<V>, tower: seq<Node?<V>>)
    requires |tower| == MAX_LEVEL && forall j :: 0 <= j < MAX_LEVEL ==> tower[j] == null
    ensures Shape(head, map[], map[head := tower], 1) && AllLinked(head, map[], map[head := tower])
  {
  }
}
