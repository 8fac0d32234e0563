/**
 * The node list of the dashboard's node page (the `useNodeList` hook): the filter list the page
 * edits, the nodes annotated with the state of their raylet, the order the page shows them in
 * (head nodes first, then alive nodes, then by state and node id) and the filtering of that
 * list, and the pagination settings.
 */
module NodeList {
  import opened Wrappers
  import opened Strings

  // ---------------------------------------------------------------------------------------------
  // data
  // ---------------------------------------------------------------------------------------------

  /** The node fields a filter can test. */
  datatype FilterKey = Hostname | Ip | State

  /** `{ key, val }`: keep the nodes whose `key` field contains `val`. */
  datatype Filter = Filter(key: FilterKey, val: string)

  /** The part of a node's raylet that the hook reads. */
  datatype Raylet = Raylet(state: string, isHeadNode: bool, nodeId: string)

  /**
   * A node as the page lists it: host name, IP, raylet, and the `state` the hook copies from the
   * raylet. A missing field is the empty string; both are falsy in JavaScript.
   */
  datatype Node = Node(hostname: string, ip: string, raylet: Raylet, state: string)

  /** `node[key]`. */
  function FieldOf(n: Node, key: FilterKey): string
  {
    match key
    case Hostname => n.hostname
    case Ip => n.ip
    case State => n.state
  }

  // ---------------------------------------------------------------------------------------------
  // changeFilter
  // ---------------------------------------------------------------------------------------------

  /** The keys the filter list mentions. */
  function Keys(filters: seq<Filter>): set<FilterKey>
  {
    set i | 0 <= i < |filters| :: filters[i].key
  }

  /** No key is filtered twice. */
  predicate UniqueKeys(filters: seq<Filter>)
  {
    forall i, j | 0 <= i < j < |filters| :: filters[i].key != filters[j].key
  }

  /** `filter.find((e) => e.key === key)`, as the index of the entry found. */
  function FindFilter(filters: seq<Filter>, key: FilterKey): (r: Option<nat>)
    ensures r.Some? <==> key in Keys(filters)
    ensures r.Some? ==> r.value < |filters| && filters[r.value].key == key &&
                        forall j | 0 <= j < r.value :: filters[j].key != key
  {
    if |filters| == 0 then None
    else if filters[0].key == key then Some(0)
    else
      var rest := FindFilter(filters[1..], key);
      assert Keys(filters) == {filters[0].key} + Keys(filters[1..]) by {
        assert forall i | 1 <= i < |filters| :: filters[i] == filters[1..][i - 1];
      }
      match rest
      case Some(i) => Some(i + 1)
      case None => None
  }

  /** The value the filter list holds for `key`: the one `find` sees. */
  function ValueOf(filters: seq<Filter>, key: FilterKey): (r: Option<string>)
    ensures r.Some? <==> key in Keys(filters)
  {
    match FindFilter(filters, key)
    case Some(i) => Some(filters[i].val)
    case None => None
  }

  /**
   * `changeFilter(key, val)`: the first entry on `key` gets the new value, or, when no entry
   * filters `key`, one is appended. The list grows only for a new key, every other key keeps its
   * value, no other entry moves, and a list without repeated keys stays so.
   */
  function ChangeFilter(filters: seq<Filter>, key: FilterKey, val: string): (r: seq<Filter>)
    ensures Keys(r) == Keys(filters) + {key}
    ensures |r| == if key in Keys(filters) then |filters| else |filters| + 1
    ensures ValueOf(r, key) == Some(val)
    ensures forall k | k != key :: ValueOf(r, k) == ValueOf(filters, k)
    ensures forall i | 0 <= i < |filters| && filters[i].key != key :: r[i] == filters[i]
    ensures UniqueKeys(filters) ==> UniqueKeys(r)
  {
    match FindFilter(filters, key)
    case Some(i) =>
      var r := filters[i := filters[i].(val := val)];
      ChangedInPlace(filters, i, val);
      r
    case None =>
      var r := filters + [Filter(key, val)];
      Appended(filters, key, val);
      r
  }

  /** Updating the value of the first entry on its key. */
  lemma ChangedInPlace(filters: seq<Filter>, i: nat, val: string)
    requires i < |filters| && forall j | 0 <= j < i :: filters[j].key != filters[i].key
    ensures var r := filters[i := filters[i].(val := val)];
            Keys(r) == Keys(filters) &&
            FindFilter(r, filters[i].key) == Some(i) &&
            forall k | k != filters[i].key :: FindFilter(r, k) == FindFilter(filters, k)
  {
    var r := filters[i := filters[i].(val := val)];
    assert forall j | 0 <= j < |r| :: r[j].key == filters[j].key;
    assert Keys(r) == Keys(filters);
    FindSameKeys(r, filters);
  }

  /** Appending an entry for a key the list does not filter yet. */
  lemma Appended(filters: seq<Filter>, key: FilterKey, val: string)
    requires key !in Keys(filters)
    ensures var r := filters + [Filter(key, val)];
            Keys(r) == Keys(filters) + {key} && FindFilter(r, key) == Some(|filters|) &&
            (forall k | k != key :: FindFilter(r, k) == FindFilter(filters, k)) &&
            (UniqueKeys(filters) ==> UniqueKeys(r))
  {
    var r := filters + [Filter(key, val)];
    assert forall i | 0 <= i < |filters| :: r[i] == filters[i];
    assert Keys(r) == Keys(filters) + {key} by {
      assert r[|filters|].key == key;
    }
    FirstIndex(r, key, |filters|);
    forall k | k != key
      ensures FindFilter(r, k) == FindFilter(filters, k)
    {
      if k in Keys(filters) {
        var found := FindFilter(filters, k).value;
        FirstIndex(r, k, found);
      }
    }
  }

  /** `find` stops at the first entry on `k`. */
  lemma FirstIndex(filters: seq<Filter>, k: FilterKey, i: nat)
    requires i < |filters| && filters[i].key == k && forall j | 0 <= j < i :: filters[j].key != k
    ensures FindFilter(filters, k) == Some(i)
  {
    assert k in Keys(filters);
  }

  /** Two lists whose entries carry the same keys position by position are searched alike. */
  lemma {:induction false} FindSameKeys(a: seq<Filter>, b: seq<Filter>)
    requires |a| == |b| && forall j | 0 <= j < |a| :: a[j].key == b[j].key
    ensures forall k :: FindFilter(a, k) == FindFilter(b, k)
    decreases |a|
  {
    if |a| > 0 {
      FindSameKeys(a[1..], b[1..]);
    }
  }

  // ---------------------------------------------------------------------------------------------
  // nodeListWithState
  // ---------------------------------------------------------------------------------------------

  /** `nodeList.map((e) => ({ ...e, state: e.raylet.state }))`. */
  function WithState(nodes: seq<Node>): (r: seq<Node>)
    ensures |r| == |nodes|
    ensures forall i | 0 <= i < |r| ::
              r[i].state == nodes[i].raylet.state && r[i].raylet == nodes[i].raylet &&
              r[i].hostname == nodes[i].hostname && r[i].ip == nodes[i].ip
  {
    seq(|nodes|, i requires 0 <= i < |nodes| => nodes[i].(state := nodes[i].raylet.state))
  }

  /** Copying the state a second time changes nothing. */
  lemma WithStateIdempotent(nodes: seq<Node>)
    ensures WithState(WithState(nodes)) == WithState(nodes)
  {
    var once := WithState(nodes);
    assert forall i | 0 <= i < |once| :: WithState(once)[i] == once[i];
  }

  // ---------------------------------------------------------------------------------------------
  // the order: lodash `sortBy` with three criteria
  // ---------------------------------------------------------------------------------------------

  /** JavaScript's `a < b` on strings: code unit by code unit, a proper prefix first. */
  predicate StrBelow(a: string, b: string)
    decreases |a|
  {
    |b| > 0 && (|a| == 0 || a[0] < b[0] || (a[0] == b[0] && StrBelow(a[1..], b[1..])))
  }

  lemma {:induction false} StrBelowIrreflexive(a: string)
    ensures !StrBelow(a, a)
    decreases |a|
  {
    if |a| > 0 {
      StrBelowIrreflexive(a[1..]);
    }
  }

  lemma {:induction false} StrBelowTransitive(a: string, b: string, c: string)
    requires StrBelow(a, b) && StrBelow(b, c)
    ensures StrBelow(a, c)
    decreases |a|
  {
    if |a| > 0 && a[0] == b[0] && b[0] == c[0] {
      StrBelowTransitive(a[1..], b[1..], c[1..]);
    }
  }

  lemma {:induction false} StrBelowTotal(a: string, b: string)
    requires a != b
    ensures StrBelow(a, b) || StrBelow(b, a)
    decreases |a|
  {
    if |a| > 0 && |b| > 0 && a[0] == b[0] {
      assert a == [a[0]] + a[1..] && b == [b[0]] + b[1..];
      StrBelowTotal(a[1..], b[1..]);
    }
  }

  /** The three sort criteria of a node: not a head node, the state ("0" for ALIVE), the node id. */
  datatype Rank = Rank(notHead: bool, stateKey: string, nodeId: string)

  function RankOf(n: Node): Rank
  {
    Rank(!n.raylet.isHeadNode, if n.raylet.state == "ALIVE" then "0" else n.raylet.state, n.raylet.nodeId)
  }

  /** lodash's ascending comparison of criteria in turn; `false` sorts before `true`. */
  predicate RankBelow(x: Rank, y: Rank)
  {
    (!x.notHead && y.notHead) ||
    (x.notHead == y.notHead &&
     (StrBelow(x.stateKey, y.stateKey) || (x.stateKey == y.stateKey && StrBelow(x.nodeId, y.nodeId))))
  }

  /** `RankBelow` is a strict total order. */
  lemma RankBelowIrreflexive(x: Rank)
    ensures !RankBelow(x, x)
  {
    StrBelowIrreflexive(x.stateKey);
    StrBelowIrreflexive(x.nodeId);
  }

  lemma RankBelowTransitive(x: Rank, y: Rank, z: Rank)
    requires RankBelow(x, y) && RankBelow(y, z)
    ensures RankBelow(x, z)
  {
    if x.notHead == y.notHead == z.notHead {
      if StrBelow(x.stateKey, y.stateKey) && StrBelow(y.stateKey, z.stateKey) {
        StrBelowTransitive(x.stateKey, y.stateKey, z.stateKey);
      } else if x.stateKey == y.stateKey == z.stateKey {
        StrBelowTransitive(x.nodeId, y.nodeId, z.nodeId);
      }
    }
  }

  lemma RankBelowTotal(x: Rank, y: Rank)
    requires x != y
    ensures RankBelow(x, y) || RankBelow(y, x)
  {
    if x.stateKey != y.stateKey {
      StrBelowTotal(x.stateKey, y.stateKey);
    } else if x.nodeId != y.nodeId {
      StrBelowTotal(x.nodeId, y.nodeId);
    }
  }

  /** `x` sorts no later than `y`. */
  predicate RankAtMost(x: Rank, y: Rank)
  {
    !RankBelow(y, x)
  }

  lemma RankAtMostTransitive(x: Rank, y: Rank, z: Rank)
    requires RankAtMost(x, y) && RankAtMost(y, z)
    ensures RankAtMost(x, z)
  {
    if RankBelow(z, x) {
      if x == y {
      } else {
        RankBelowTotal(x, y);
        RankBelowTransitive(z, x, y);
      }
    }
  }

  /** No node ranks below a node that comes before it. */
  predicate Sorted(s: seq<Node>)
  {
    forall i, j | 0 <= i < j < |s| :: RankAtMost(RankOf(s[i]), RankOf(s[j]))
  }

  /** Insert `x` before the first node that does not rank below it. */
  function Insert(x: Node, s: seq<Node>): (r: seq<Node>)
    ensures multiset(r) == multiset(s) + multiset{x}
    ensures |r| == |s| + 1
  {
    if |s| == 0 then [x]
    else if RankBelow(RankOf(s[0]), RankOf(x)) then
      assert s == [s[0]] + s[1..];
      [s[0]] + Insert(x, s[1..])
    else [x] + s
  }

  /** `_.sortBy(list, criteria)`: a stable sort on the three criteria. */
  function SortNodes(s: seq<Node>): (r: seq<Node>)
    ensures multiset(r) == multiset(s)
  {
    if |s| == 0 then []
    else
      assert s == [s[0]] + s[1..];
      Insert(s[0], SortNodes(s[1..]))
  }

  lemma {:induction false} InsertSorted(x: Node, s: seq<Node>)
    requires Sorted(s)
    ensures Sorted(Insert(x, s))
    decreases |s|
  {
    if |s| == 0 {
    } else if RankBelow(RankOf(s[0]), RankOf(x)) {
      var tail := Insert(x, s[1..]);
      InsertSorted(x, s[1..]);
      forall j | 0 <= j < |tail|
        ensures RankAtMost(RankOf(s[0]), RankOf(tail[j]))
      {
        HeadBeforeInserted(x, s, tail[j]);
      }
      ConsSorted(s[0], tail);
      assert Insert(x, s) == [s[0]] + tail;
    } else {
      forall j | 0 <= j < |s|
        ensures RankAtMost(RankOf(x), RankOf(s[j]))
      {
        if j > 0 {
          RankAtMostTransitive(RankOf(x), RankOf(s[0]), RankOf(s[j]));
        }
      }
      ConsSorted(x, s);
    }
  }

  /** The head of a sorted list ranks no later than `x` or any later node of the list. */
  lemma HeadBeforeInserted(x: Node, s: seq<Node>, y: Node)
    requires Sorted(s) && |s| > 0 && RankBelow(RankOf(s[0]), RankOf(x))
    requires y in multiset(Insert(x, s[1..]))
    ensures RankAtMost(RankOf(s[0]), RankOf(y))
  {
    if y == x {
      RankBelowIrreflexive(RankOf(x));
      if RankBelow(RankOf(x), RankOf(s[0])) {
        RankBelowTransitive(RankOf(x), RankOf(s[0]), RankOf(x));
      }
    } else {
      assert y in multiset(s[1..]);
      var k :| 0 <= k < |s[1..]| && s[1..][k] == y;
      assert s[k + 1] == y;
    }
  }

  /** A node that ranks no later than every node of a sorted list can go in front of it. */
  lemma ConsSorted(x: Node, s: seq<Node>)
    requires Sorted(s) && forall j | 0 <= j < |s| :: RankAtMost(RankOf(x), RankOf(s[j]))
    ensures Sorted([x] + s)
  {
    var r := [x] + s;
    forall i, j | 0 <= i < j < |r|
      ensures RankAtMost(RankOf(r[i]), RankOf(r[j]))
    {
      assert r[j] == s[j - 1];
      if i > 0 {
        assert r[i] == s[i - 1];
      }
    }
  }

  /** The sorted list is ordered by the three criteria. */
  lemma {:induction false} SortNodesSorted(s: seq<Node>)
    ensures Sorted(SortNodes(s))
    decreases |s|
  {
    if |s| > 0 {
      SortNodesSorted(s[1..]);
      InsertSorted(s[0], SortNodes(s[1..]));
    }
  }

  /** The nodes of `s` with rank `k`, in the order of `s`. */
  function OfRank(s: seq<Node>, k: Rank): seq<Node>
  {
    if |s| == 0 then []
    else (if RankOf(s[0]) == k then [s[0]] else []) + OfRank(s[1..], k)
  }

  lemma {:induction false} InsertOfRank(x: Node, s: seq<Node>, k: Rank)
    ensures OfRank(Insert(x, s), k) == (if RankOf(x) == k then [x] else []) + OfRank(s, k)
    decreases |s|
  {
    if |s| == 0 {
      assert OfRank([x], k) == (if RankOf(x) == k then [x] else []) + OfRank([], k);
    } else if RankBelow(RankOf(s[0]), RankOf(x)) {
      var tail := Insert(x, s[1..]);
      InsertOfRank(x, s[1..], k);
      assert ([s[0]] + tail)[1..] == tail;
      if RankOf(x) == k {
        RankBelowIrreflexive(k);
      }
    } else {
      assert ([x] + s)[1..] == s;
    }
  }

  /** The sort is stable: nodes of equal rank keep the order they came in. */
  lemma {:induction false} SortNodesStable(s: seq<Node>, k: Rank)
    ensures OfRank(SortNodes(s), k) == OfRank(s, k)
    decreases |s|
  {
    if |s| > 0 {
      SortNodesStable(s[1..], k);
      InsertOfRank(s[0], SortNodes(s[1..]), k);
    }
  }

  /** A list that is already in order is left as it is. */
  lemma {:induction false} SortNodesKeepsSorted(s: seq<Node>)
    requires Sorted(s)
    ensures SortNodes(s) == s
    decreases |s|
  {
    if |s| > 0 {
      assert Sorted(s[1..]) by {
        assert forall i | 0 <= i < |s[1..]| :: s[1..][i] == s[i + 1];
      }
      SortNodesKeepsSorted(s[1..]);
      if |s| > 1 {
        assert RankAtMost(RankOf(s[0]), RankOf(s[1]));
      }
      assert s == [s[0]] + s[1..];
    }
  }

  /** Head nodes come first. */
  lemma HeadNodesFirst(s: seq<Node>, i: int, j: int)
    requires Sorted(s) && 0 <= i < j < |s| && s[j].raylet.isHeadNode
    ensures s[i].raylet.isHeadNode
  {
    assert RankAtMost(RankOf(s[i]), RankOf(s[j]));
  }

  /**
   * Among head nodes and among the others, an alive node comes before every node whose state
   * sorts after "0" (every state that starts with a letter, as DEAD does).
   */
  lemma AliveBeforeOthers(s: seq<Node>, i: int, j: int)
    requires Sorted(s) && 0 <= i < j < |s| && s[i].raylet.isHeadNode == s[j].raylet.isHeadNode
    requires s[i].raylet.state != "ALIVE" && StrBelow("0", s[i].raylet.state)
    ensures s[j].raylet.state != "ALIVE"
  {
    assert RankAtMost(RankOf(s[i]), RankOf(s[j]));
  }

  // ---------------------------------------------------------------------------------------------
  // the filter
  // ---------------------------------------------------------------------------------------------

  /** `node[f.key] && node[f.key].includes(f.val)`. */
  predicate PassesFilter(n: Node, f: Filter)
  {
    FieldOf(n, f.key) != "" && IsSubstring(f.val, FieldOf(n, f.key))
  }

  /** `filter.every(...)`. */
  predicate MatchesAll(n: Node, filters: seq<Filter>)
  {
    forall i | 0 <= i < |filters| :: PassesFilter(n, filters[i])
  }

  /** `a` is `b` with some elements left out, the rest in their order. */
  predicate IsSublist(a: seq<Node>, b: seq<Node>)
    decreases |b|
  {
    if |a| == 0 then true
    else if |b| == 0 then false
    else if a[0] == b[0] then IsSublist(a[1..], b[1..])
    else IsSublist(a, b[1..])
  }

  /**
   * `list.filter((node) => filter.every(...))`: the matching nodes, each as often as in the list,
   * in their order.
   */
  function FilterNodes(nodes: seq<Node>, filters: seq<Filter>): (r: seq<Node>)
    ensures forall i | 0 <= i < |r| :: MatchesAll(r[i], filters)
    ensures forall n :: multiset(r)[n] == if MatchesAll(n, filters) then multiset(nodes)[n] else 0
    ensures IsSublist(r, nodes)
  {
    if |nodes| == 0 then []
    else
      var rest := FilterNodes(nodes[1..], filters);
      assert nodes == [nodes[0]] + nodes[1..];
      if MatchesAll(nodes[0], filters) then
        assert ([nodes[0]] + rest)[1..] == rest;
        [nodes[0]] + rest
      else
        SublistSkips(rest, nodes);
        rest
  }

  /** Leaving out one more element of the list keeps a sublist a sublist. */
  lemma {:induction false} SublistSkips(a: seq<Node>, b: seq<Node>)
    requires |b| > 0 && IsSublist(a, b[1..])
    ensures IsSublist(a, b)
    decreases |b|, 0
  {
    if |a| > 0 && a[0] == b[0] {
      SublistTail(a, b[1..]);
    }
  }

  /** Leaving out the first element of a sublist keeps it a sublist. */
  lemma {:induction false} SublistTail(a: seq<Node>, c: seq<Node>)
    requires |a| > 0 && IsSublist(a, c)
    ensures IsSublist(a[1..], c)
    decreases |c|, 1
  {
    if a[0] == c[0] {
      SublistSkips(a[1..], c);
    } else {
      SublistTail(a, c[1..]);
      SublistSkips(a[1..], c);
    }
  }

  /** Every element of a sublist is an element of the list. */
  lemma {:induction false} SublistMembers(a: seq<Node>, b: seq<Node>)
    requires IsSublist(a, b)
    ensures forall i | 0 <= i < |a| :: a[i] in b
    decreases |b|
  {
    if |a| > 0 {
      if a[0] == b[0] {
        SublistMembers(a[1..], b[1..]);
        assert forall i | 1 <= i < |a| :: a[i] == a[1..][i - 1];
      } else {
        SublistMembers(a, b[1..]);
      }
    }
  }

  /** A sublist of a list in order is in order. */
  lemma {:induction false} SublistSorted(a: seq<Node>, b: seq<Node>)
    requires IsSublist(a, b) && Sorted(b)
    ensures Sorted(a)
    decreases |b|
  {
    if |a| > 0 {
      assert Sorted(b[1..]) by {
        assert forall i | 0 <= i < |b[1..]| :: b[1..][i] == b[i + 1];
      }
      if a[0] == b[0] {
        SublistSorted(a[1..], b[1..]);
        SublistMembers(a[1..], b[1..]);
        forall j | 1 <= j < |a|
          ensures RankAtMost(RankOf(a[0]), RankOf(a[j]))
        {
          assert a[j] == a[1..][j - 1];
          var k :| 0 <= k < |b[1..]| && b[1..][k] == a[j];
          assert b[k + 1] == a[j];
        }
        assert forall i, j | 1 <= i < j < |a| :: a[i] == a[1..][i - 1] && a[j] == a[1..][j - 1];
      } else {
        SublistSorted(a, b[1..]);
      }
    }
  }

  /** With no filter every node is shown. */
  lemma {:induction false} NoFilterKeepsAll(nodes: seq<Node>)
    ensures FilterNodes(nodes, []) == nodes
    decreases |nodes|
  {
    if |nodes| > 0 {
      NoFilterKeepsAll(nodes[1..]);
      assert nodes == [nodes[0]] + nodes[1..];
    }
  }

  /** An empty field fails a filter on it, even one for the empty string. */
  lemma EmptyFieldFails(n: Node, filters: seq<Filter>, i: int)
    requires 0 <= i < |filters| && FieldOf(n, filters[i].key) == ""
    ensures !MatchesAll(n, filters)
  {
  }

  /** A filter for the empty string keeps exactly the nodes whose field is not empty. */
  lemma EmptyValueTestsPresence(n: Node, key: FilterKey)
    ensures PassesFilter(n, Filter(key, "")) <==> FieldOf(n, key) != ""
  {
    SubstringBasics(FieldOf(n, key));
  }

  /**
   * On a list without repeated keys, a node matches the changed list exactly when it passes the
   * new filter and every filter on another key.
   */
  lemma ChangeFilterMatches(n: Node, filters: seq<Filter>, key: FilterKey, val: string)
    requires UniqueKeys(filters)
    ensures MatchesAll(n, ChangeFilter(filters, key, val)) <==>
              PassesFilter(n, Filter(key, val)) &&
              forall i | 0 <= i < |filters| && filters[i].key != key :: PassesFilter(n, filters[i])
  {
    var r := ChangeFilter(filters, key, val);
    var found := FindFilter(filters, key);
    if found.Some? {
      assert r == filters[found.value := filters[found.value].(val := val)];
      assert r[found.value] == Filter(key, val);
      forall i | 0 <= i < |filters| && i != found.value
        ensures filters[i].key != key
      {
        if i < found.value {
        } else {
          assert filters[found.value].key != filters[i].key;
        }
      }
    } else {
      assert r == filters + [Filter(key, val)];
      assert r[|filters|] == Filter(key, val);
      assert forall i | 0 <= i < |filters| :: r[i] == filters[i] && filters[i].key != key;
    }
  }

  /** The second of two changes to one key wins. */
  lemma ChangeFilterLastWins(filters: seq<Filter>, key: FilterKey, v1: string, v2: string)
    ensures ChangeFilter(ChangeFilter(filters, key, v1), key, v2) == ChangeFilter(filters, key, v2)
  {
    var once := ChangeFilter(filters, key, v1);
    var found := FindFilter(filters, key);
    if found.Some? {
      ChangedInPlace(filters, found.value, v1);
    } else {
      Appended(filters, key, v1);
    }
  }

  /** The filter list the page starts with, and the one a series of `changeFilter` calls leaves. */
  function AfterChanges(changes: seq<Filter>): (r: seq<Filter>)
    ensures UniqueKeys(r)
    ensures Keys(r) == Keys(changes)
  {
    if |changes| == 0 then []
    else
      var init := changes[..|changes| - 1];
      var last := changes[|changes| - 1];
      assert Keys(changes) == Keys(init) + {last.key} by {
        assert forall i | 0 <= i < |init| :: init[i] == changes[i];
      }
      ChangeFilter(AfterChanges(init), last.key, last.val)
  }

  // ---------------------------------------------------------------------------------------------
  // the list the page shows
  // ---------------------------------------------------------------------------------------------

  /**
   * The `nodeList` the hook returns: the nodes with their state, sorted, then filtered. It is in
   * order, holds exactly the matching nodes, and keeps nodes of equal rank in the order given
   * (the order `sorterFunc` left them in, which is not part of this model).
   */
  function ShownNodes(nodes: seq<Node>, filters: seq<Filter>): (r: seq<Node>)
  {
    FilterNodes(SortNodes(WithState(nodes)), filters)
  }

  lemma ShownNodesProperties(nodes: seq<Node>, filters: seq<Filter>)
    ensures var r := ShownNodes(nodes, filters);
            Sorted(r) &&
            (forall i | 0 <= i < |r| :: MatchesAll(r[i], filters) && r[i].state == r[i].raylet.state) &&
            (forall n | MatchesAll(n, filters) :: multiset(r)[n] == multiset(WithState(nodes))[n])
  {
    var withState := WithState(nodes);
    var sorted := SortNodes(withState);
    SortNodesSorted(withState);
    SublistSorted(FilterNodes(sorted, filters), sorted);
    var r := ShownNodes(nodes, filters);
    SublistMembers(r, sorted);
    forall i | 0 <= i < |r|
      ensures r[i].state == r[i].raylet.state
    {
      assert r[i] in multiset(sorted);
      assert r[i] in multiset(withState);
      var k :| 0 <= k < |withState| && withState[k] == r[i];
    }
  }

  // ---------------------------------------------------------------------------------------------
  // pagination
  // ---------------------------------------------------------------------------------------------

  /** `{ pageSize: 10, pageNo: 1 }`. */
  const INITIAL_PAGE: map<string, int> := map["pageSize" := 10, "pageNo" := 1]

  /**
   * `setPage(key, val)`: `{ ...page, [key]: val }`. The named setting takes the value, every other
   * setting keeps its own, and a name the page did not have is added.
   */
  function SetPage(page: map<string, int>, key: string, val: int): (r: map<string, int>)
    ensures r.Keys == page.Keys + {key}
    ensures r[key] == val
    ensures forall k | k in page && k != key :: r[k] == page[k]
  {
    page[key := val]
  }

  /** Updates of different settings commute; of the same setting, the second wins. */
  lemma SetPageUpdates(page: map<string, int>, k1: string, v1: int, k2: string, v2: int)
    ensures k1 != k2 ==> SetPage(SetPage(page, k1, v1), k2, v2) == SetPage(SetPage(page, k2, v2), k1, v1)
    ensures k1 == k2 ==> SetPage(SetPage(page, k1, v1), k2, v2) == SetPage(page, k2, v2)
  {
  }

  /** The page size and number are always there, whatever the page sets. */
  lemma PageKeepsSettings(page: map<string, int>, key: string, val: int)
    requires "pageSize" in page && "pageNo" in page
    ensures "pageSize" in SetPage(page, key, val) && "pageNo" in SetPage(page, key, val)
  {
  }
}
