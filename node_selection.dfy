/** The `nodeResolver` the Manager hands to its transport: keep the nodes
    whose state is connected, sort them by penalties with a stable sort and
    take the first one. */
module NodeSelection {
  import opened Wrappers

  /** The transport's numeric state for a connected node. */
  const CONNECTED: int := 2

  /** What the resolver reads of a node: its state and its penalty score.
      `name` identifies the node. */
  datatype NodeInfo = NodeInfo(name: string, state: int, penalties: int)

  predicate IsConnected(n: NodeInfo)
  {
    n.state == CONNECTED
  }

  /** `filter(node => node.state === 2)`, keeping the iteration order. */
  function Connected(s: seq<NodeInfo>): (r: seq<NodeInfo>)
    ensures |r| <= |s|
    ensures forall y :: y in r <==> y in s && IsConnected(y)
  {
    if s == [] then []
    else if IsConnected(s[0]) then [s[0]] + Connected(s[1..])
    else Connected(s[1..])
  }

  predicate Sorted(s: seq<NodeInfo>)
  {
    forall i, j :: 0 <= i < j < |s| ==> s[i].penalties <= s[j].penalties
  }

  /** Dropping the disconnected nodes keeps the order: filtering a
      concatenation is concatenating the filtered parts. */
  lemma {:induction false} ConnectedAppend(a: seq<NodeInfo>, b: seq<NodeInfo>)
    ensures Connected(a + b) == Connected(a) + Connected(b)
  {
    if a == [] {
      assert a + b == b;
    } else {
      assert (a + b)[0] == a[0];
      assert (a + b)[1..] == a[1..] + b;
      ConnectedAppend(a[1..], b);
    }
  }

  /** One node is kept exactly when it is connected. */
  lemma ConnectedSingle(x: NodeInfo)
    ensures Connected([x]) == if IsConnected(x) then [x] else []
  {
  }

  /** The number of leading nodes with penalties strictly below those of `x`. */
  function InsertionPoint(x: NodeInfo, s: seq<NodeInfo>): (k: nat)
    ensures k <= |s|
    ensures forall j :: 0 <= j < k ==> s[j].penalties < x.penalties
    ensures k < |s| ==> x.penalties <= s[k].penalties
  {
    if s == [] || x.penalties <= s[0].penalties then 0 else 1 + InsertionPoint(x, s[1..])
  }

  /** Inserts `x` in front of the first node whose penalties are not below its
      own, so that `x` stays ahead of the equal nodes after it. */
  function Insert(x: NodeInfo, s: seq<NodeInfo>): (r: seq<NodeInfo>)
    requires Sorted(s)
    ensures Sorted(r)
    ensures multiset(r) == multiset(s) + multiset{x}
    ensures |r| == |s| + 1
    ensures s == [] || x.penalties <= s[0].penalties ==> r == [x] + s
    ensures s != [] && x.penalties > s[0].penalties ==> r[0] == s[0]
  {
    if s == [] || x.penalties <= s[0].penalties then [x] + s
    else
      var t := Insert(x, s[1..]);
      assert s == [s[0]] + s[1..];
      [s[0]] + t
  }

  /** `x` goes right after the nodes with strictly lower penalties, ahead of
      every node whose penalties equal its own. */
  lemma {:induction false} InsertAt(x: NodeInfo, s: seq<NodeInfo>)
    requires Sorted(s)
    ensures Insert(x, s) == s[..InsertionPoint(x, s)] + [x] + s[InsertionPoint(x, s)..]
  {
    if s != [] && x.penalties > s[0].penalties {
      var t, k := s[1..], InsertionPoint(x, s[1..]);
      InsertAt(x, t);
      SpliceFront(s, k, x);
    }
  }

  lemma SpliceFront(s: seq<NodeInfo>, k: nat, x: NodeInfo)
    requires s != [] && k < |s|
    ensures [s[0]] + (s[1..][..k] + [x] + s[1..][k..]) == s[..k + 1] + [x] + s[k + 1..]
  {
    assert [s[0]] + s[1..][..k] == s[..k + 1];
    assert s[1..][k..] == s[k + 1..];
  }

  /** `sort((a, b) => a.penalties - b.penalties)`: an ascending permutation;
      `SortStable` states that equal nodes keep their order. */
  function SortByPenalties(s: seq<NodeInfo>): (r: seq<NodeInfo>)
    ensures Sorted(r)
    ensures multiset(r) == multiset(s)
    ensures |r| == |s|
  {
    if s == [] then []
    else
      assert s == [s[0]] + s[1..];
      Insert(s[0], SortByPenalties(s[1..]))
  }

  /** The nodes whose penalties are `p`, in order. */
  function WithPenalty(s: seq<NodeInfo>, p: int): seq<NodeInfo>
  {
    if s == [] then []
    else (if s[0].penalties == p then [s[0]] else []) + WithPenalty(s[1..], p)
  }

  lemma {:induction false} InsertWithPenalty(x: NodeInfo, s: seq<NodeInfo>, p: int)
    requires Sorted(s)
    ensures WithPenalty(Insert(x, s), p) == (if x.penalties == p then [x] else []) + WithPenalty(s, p)
  {
    if s == [] || x.penalties <= s[0].penalties {
      assert ([x] + s)[1..] == s;
    } else {
      var t := Insert(x, s[1..]);
      assert Insert(x, s) == [s[0]] + t;
      assert ([s[0]] + t)[1..] == t;
      InsertWithPenalty(x, s[1..], p);
      var hx := if x.penalties == p then [x] else [];
      var h0 := if s[0].penalties == p then [s[0]] else [];
      assert h0 == [] || hx == [];
      assert WithPenalty(s, p) == h0 + WithPenalty(s[1..], p);
    }
  }

  /** The sort is stable: for every penalty value, the nodes with that value
      come out in the order they went in. */
  lemma {:induction false} SortStable(s: seq<NodeInfo>, p: int)
    ensures WithPenalty(SortByPenalties(s), p) == WithPenalty(s, p)
  {
    if s != [] {
      SortStable(s[1..], p);
      InsertWithPenalty(s[0], SortByPenalties(s[1..]), p);
    }
  }

  /** `[...nodes.values()].filter(...).sort(...).shift()`: the resolver works
      on a copy of the collection, so the input is not changed. */
  function Resolve(nodes: seq<NodeInfo>): Option<NodeInfo>
  {
    var sorted := SortByPenalties(Connected(nodes));
    if sorted == [] then None else Some(sorted[0])
  }

  /** The resolver on one more node at the front of the iteration order: a
      connected front node wins unless the rest holds one with strictly lower
      penalties. */
  lemma ResolveStep(x: NodeInfo, rest: seq<NodeInfo>)
    ensures !IsConnected(x) ==> Resolve([x] + rest) == Resolve(rest)
    ensures IsConnected(x) && (Resolve(rest).None? || x.penalties <= Resolve(rest).value.penalties) ==>
      Resolve([x] + rest) == Some(x)
    ensures IsConnected(x) && Resolve(rest).Some? && x.penalties > Resolve(rest).value.penalties ==>
      Resolve([x] + rest) == Resolve(rest)
  {
    assert ([x] + rest)[1..] == rest;
  }

  /** Nothing is resolved exactly when no node is connected. */
  lemma ResolveNone(nodes: seq<NodeInfo>)
    ensures Resolve(nodes).None? <==> forall n :: n in nodes ==> !IsConnected(n)
  {
    var c := Connected(nodes);
    if c != [] {
      assert c[0] in c;
    }
    if Resolve(nodes).None? {
      assert multiset(SortByPenalties(c)) == multiset{};
      assert c == [];
    }
  }

  /** A resolved node is a connected node of the input whose penalties are at
      most those of every connected node. */
  lemma ResolveSound(nodes: seq<NodeInfo>)
    requires Resolve(nodes).Some?
    ensures var n := Resolve(nodes).value;
      && n in nodes && IsConnected(n)
      && forall m :: m in nodes && IsConnected(m) ==> n.penalties <= m.penalties
  {
    var c := Connected(nodes);
    var sorted := SortByPenalties(c);
    var n := sorted[0];
    assert n in multiset(sorted);
    assert n in c;
    forall m | m in nodes && IsConnected(m)
      ensures n.penalties <= m.penalties
    {
      assert m in multiset(c);
      assert m in multiset(sorted);
      var k :| 0 <= k < |sorted| && sorted[k] == m;
      if k > 0 {
        assert sorted[0].penalties <= sorted[k].penalties;
      }
    }
  }

  /** Node `k` is connected, has the lowest penalties among connected nodes,
      and every connected node before it has strictly higher penalties. */
  predicate EarliestBest(nodes: seq<NodeInfo>, k: nat)
  {
    && k < |nodes| && IsConnected(nodes[k])
    && (forall j :: 0 <= j < |nodes| && IsConnected(nodes[j]) ==> nodes[k].penalties <= nodes[j].penalties)
    && (forall j :: 0 <= j < k && IsConnected(nodes[j]) ==> nodes[k].penalties < nodes[j].penalties)
  }

  /** When the front node is the earliest best, no later node beats it. */
  lemma EarliestBestFront(nodes: seq<NodeInfo>)
    requires EarliestBest(nodes, 0)
    ensures Resolve(nodes) == Some(nodes[0])
  {
    var x, rest := nodes[0], nodes[1..];
    assert nodes == [x] + rest;
    ResolveStep(x, rest);
    if Resolve(rest).Some? {
      ResolveSound(rest);
      var m := Resolve(rest).value;
      var j :| 0 <= j < |rest| && rest[j] == m;
      assert nodes[j + 1] == m;
    }
  }

  /** Past the front, the earliest best node is still the earliest best of the rest. */
  lemma EarliestBestTail(nodes: seq<NodeInfo>, k: nat)
    requires k > 0 && EarliestBest(nodes, k)
    ensures EarliestBest(nodes[1..], k - 1)
  {
    var rest := nodes[1..];
    forall j | 0 <= j < |rest| && IsConnected(rest[j])
      ensures rest[k - 1].penalties <= rest[j].penalties
    {
      assert rest[j] == nodes[j + 1];
    }
    forall j | 0 <= j < k - 1 && IsConnected(rest[j])
      ensures rest[k - 1].penalties < rest[j].penalties
    {
      assert rest[j] == nodes[j + 1];
    }
  }

  /** Ties go to the node met first: the resolver returns the earliest of the
      connected nodes with the lowest penalties. */
  lemma {:induction false} ResolvePicksEarliestBest(nodes: seq<NodeInfo>, k: nat)
    requires EarliestBest(nodes, k)
    ensures Resolve(nodes) == Some(nodes[k])
  {
    if k == 0 {
      EarliestBestFront(nodes);
    } else {
      var x, rest := nodes[0], nodes[1..];
      assert nodes == [x] + rest;
      EarliestBestTail(nodes, k);
      ResolvePicksEarliestBest(rest, k - 1);
      ResolveStep(x, rest);
    }
  }
}
