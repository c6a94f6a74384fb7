// prisma/seeds/dev.seed.ts:174-190: the payload under the checksum of a workflow graph. Ids are compared by an order
// the caller supplies (localeCompare), guards and side effects by another (the default order of strings).
module GraphChecksum {

  type Order = (string, string) -> bool

  ghost predicate TotalOrder(le: Order) {
    && (forall a, b :: le(a, b) || le(b, a))
    && (forall a, b :: le(a, b) && le(b, a) ==> a == b)
    && (forall a, b, c :: le(a, b) && le(b, c) ==> le(a, c))
  }

  // ----- A stable sort by key -----

  function Insert<T>(x: T, s: seq<T>, key: T -> string, le: Order): seq<T> {
    if s == [] then [x]
    else if le(key(x), key(s[0])) then [x] + s
    else [s[0]] + Insert(x, s[1..], key, le)
  }

  function Sort<T>(s: seq<T>, key: T -> string, le: Order): seq<T> {
    if s == [] then [] else Insert(s[0], Sort(s[1..], key, le), key, le)
  }

  /** The elements of one key, in order. */
  ghost function Of<T>(s: seq<T>, key: T -> string, k: string): seq<T> {
    if s == [] then [] else (if key(s[0]) == k then [s[0]] else []) + Of(s[1..], key, k)
  }

  ghost predicate Ascending<T>(s: seq<T>, key: T -> string, le: Order) {
    s == [] || ((forall y :: y in s ==> le(key(s[0]), key(y))) && Ascending(s[1..], key, le))
  }

  lemma StrictlyAfter(le: Order, a: string, b: string)
    requires TotalOrder(le) && !le(a, b)
    ensures le(b, a) && a != b
  {
  }

  lemma OfCons<T>(x: T, s: seq<T>, key: T -> string, k: string)
    ensures Of([x] + s, key, k) == if key(x) == k then [x] + Of(s, key, k) else Of(s, key, k)
  {
    assert ([x] + s)[1..] == s;
  }

  lemma {:induction false} InsertOf<T>(x: T, s: seq<T>, key: T -> string, le: Order, k: string)
    requires TotalOrder(le)
    ensures Of(Insert(x, s, key, le), key, k) == if key(x) == k then [x] + Of(s, key, k) else Of(s, key, k)
  {
    hide TotalOrder, Of;
    if s == [] || le(key(x), key(s[0])) {
      assert Insert(x, s, key, le) == [x] + s;
      OfCons(x, s, key, k);
    } else {
      StrictlyAfter(le, key(x), key(s[0]));
      InsertOf(x, s[1..], key, le, k);
      OfCons(s[0], Insert(x, s[1..], key, le), key, k);
      OfCons(s[0], s[1..], key, k);
      assert s == [s[0]] + s[1..];
    }
  }

  lemma {:induction false} InsertMembers<T>(x: T, s: seq<T>, key: T -> string, le: Order)
    ensures multiset(Insert(x, s, key, le)) == multiset(s) + multiset{x}
    ensures forall y :: y in Insert(x, s, key, le) <==> y == x || y in s
  {
    if s != [] && !le(key(x), key(s[0])) {
      InsertMembers(x, s[1..], key, le);
      assert s == [s[0]] + s[1..];
    }
  }

  lemma {:induction false} InsertAscending<T>(x: T, s: seq<T>, key: T -> string, le: Order)
    requires TotalOrder(le) && Ascending(s, key, le)
    ensures Ascending(Insert(x, s, key, le), key, le)
  {
    if s != [] && !le(key(x), key(s[0])) {
      InsertAscending(x, s[1..], key, le);
      InsertMembers(x, s[1..], key, le);
      assert Insert(x, s, key, le)[1..] == Insert(x, s[1..], key, le);
    } else {
      assert ([x] + s)[1..] == s;
      if s != [] {
        forall y | y in s ensures le(key(x), key(y)) {
          assert le(key(x), key(s[0])) && le(key(s[0]), key(y));
        }
      }
    }
  }

  /** Sorting permutes, orders, and keeps the elements of one key in the order they came. */
  lemma {:induction false} SortIsStable<T>(s: seq<T>, key: T -> string, le: Order)
    requires TotalOrder(le)
    ensures multiset(Sort(s, key, le)) == multiset(s)
    ensures Ascending(Sort(s, key, le), key, le)
    ensures forall k :: Of(Sort(s, key, le), key, k) == Of(s, key, k)
  {
    hide TotalOrder, Insert, Ascending, Of;
    if s == [] {
      NothingAscends(key, le);
    } else {
      assert s == [s[0]] + s[1..];
      var rest := Sort(s[1..], key, le);
      SortIsStable(s[1..], key, le);
      InsertMembers(s[0], rest, key, le);
      InsertAscending(s[0], rest, key, le);
      forall k ensures Of(Sort(s, key, le), key, k) == Of(s, key, k) {
        InsertOf(s[0], rest, key, le, k);
        OfCons(s[0], s[1..], key, k);
      }
    }
  }

  lemma NothingAscends<T>(key: T -> string, le: Order)
    ensures Ascending<T>([], key, le)
  {
  }

  lemma {:induction false} OfMembers<T>(s: seq<T>, key: T -> string, k: string)
    ensures forall x :: x in Of(s, key, k) <==> x in s && key(x) == k
  {
    if s != [] {
      OfMembers(s[1..], key, k);
      assert s == [s[0]] + s[1..];
    }
  }

  ghost predicate SameOf<T(!new)>(s: seq<T>, t: seq<T>, key: T -> string) {
    forall k :: Of(s, key, k) == Of(t, key, k)
  }

  lemma HeadShared<T(!new)>(s: seq<T>, t: seq<T>, key: T -> string)
    requires SameOf(s, t, key) && s != []
    ensures s[0] in t
  {
    OfMembers(s, key, key(s[0]));
    OfMembers(t, key, key(s[0]));
    assert Of(s, key, key(s[0])) == Of(t, key, key(s[0]));
    assert s[0] in Of(s, key, key(s[0]));
  }

  lemma HeadsMeet<T(!new)>(s: seq<T>, t: seq<T>, key: T -> string, le: Order)
    requires TotalOrder(le) && Ascending(s, key, le) && Ascending(t, key, le) && SameOf(s, t, key) && s != []
    ensures t != [] && t[0] == s[0]
  {
    HeadShared(s, t, key);
    HeadShared(t, s, key);
    assert le(key(s[0]), key(t[0])) && le(key(t[0]), key(s[0]));
    assert Of(s, key, key(s[0]))[0] == s[0] && Of(t, key, key(s[0]))[0] == t[0];
  }

  lemma OfTail<T>(s: seq<T>, key: T -> string, k: string)
    requires s != []
    ensures Of(s[1..], key, k) == if key(s[0]) == k then Of(s, key, k)[1..] else Of(s, key, k)
  {
  }

  /** Two ascending sequences that agree key by key are the same sequence. */
  lemma {:induction false} AscendingDetermined<T(!new)>(s: seq<T>, t: seq<T>, key: T -> string, le: Order)
    requires TotalOrder(le) && Ascending(s, key, le) && Ascending(t, key, le) && SameOf(s, t, key)
    ensures s == t
  {
    if s != [] {
      HeadsMeet(s, t, key, le);
      forall k ensures Of(s[1..], key, k) == Of(t[1..], key, k) {
        OfTail(s, key, k);
        OfTail(t, key, k);
        assert Of(s, key, k) == Of(t, key, k);
      }
      AscendingDetermined(s[1..], t[1..], key, le);
    } else if t != [] {
      HeadsMeet(t, s, key, le);
    }
  }

  /** Two sequences sort to the same one exactly when they list the elements of each key in the same order. */
  lemma SortsAgree<T(!new)>(s: seq<T>, t: seq<T>, key: T -> string, le: Order)
    requires TotalOrder(le)
    ensures Sort(s, key, le) == Sort(t, key, le) <==> SameOf(s, t, key)
  {
    SortIsStable(s, key, le);
    SortIsStable(t, key, le);
    if Sort(s, key, le) == Sort(t, key, le) {
      forall k ensures Of(s, key, k) == Of(t, key, k) {
        assert Of(Sort(s, key, le), key, k) == Of(Sort(t, key, le), key, k);
      }
    }
    if SameOf(s, t, key) {
      forall k ensures Of(Sort(s, key, le), key, k) == Of(Sort(t, key, le), key, k) {
        assert Of(s, key, k) == Of(t, key, k);
      }
      AscendingDetermined(Sort(s, key, le), Sort(t, key, le), key, le);
    }
  }

  // ----- Graphs -----

  datatype Node = Node(id: string, typ: string)

  datatype Text = Text(source: string, target: string, caption: string, permission: string)

  datatype Edge = Edge(id: string, text: Text, guards: seq<string>, sideEffects: seq<string>)

  datatype Graph = Graph(entityType: string, nodes: seq<Node>, edges: seq<Edge>)

  function NodeId(n: Node): string {
    n.id
  }

  function EdgeId(e: Edge): string {
    e.id
  }

  function Self(x: string): string {
    x
  }

  function CanonicalEdge(e: Edge, plain: Order): Edge {
    e.(guards := Sort(e.guards, Self, plain), sideEffects := Sort(e.sideEffects, Self, plain))
  }

  function CanonicalEdges(edges: seq<Edge>, plain: Order): seq<Edge> {
    if edges == [] then [] else [CanonicalEdge(edges[0], plain)] + CanonicalEdges(edges[1..], plain)
  }

  /** The payload: nodes and edges sorted by id, each edge's guards and side effects sorted. */
  function Payload(g: Graph, byId: Order, plain: Order): Graph {
    Graph(g.entityType, Sort(g.nodes, NodeId, byId), CanonicalEdges(Sort(g.edges, EdgeId, byId), plain))
  }

  // ----- Strings: order carries no more than multiplicity -----

  function Copies(k: string, n: nat): seq<string> {
    seq(n, _ => k)
  }

  lemma CopiesGrow(k: string, n: nat)
    ensures Copies(k, 0) == []
    ensures [k] + Copies(k, n) == Copies(k, n + 1)
  {
  }

  lemma CountHead(s: seq<string>, k: string)
    requires s != []
    ensures multiset(s)[k] == multiset(s[1..])[k] + if s[0] == k then 1 else 0
  {
    assert s == [s[0]] + s[1..];
  }

  lemma {:induction false} OfSelf(s: seq<string>, k: string)
    ensures Of(s, Self, k) == Copies(k, multiset(s)[k])
  {
    hide Copies;
    if s == [] {
      CopiesGrow(k, 0);
    } else {
      OfSelf(s[1..], k);
      CountHead(s, k);
      CopiesGrow(k, multiset(s[1..])[k]);
    }
  }

  lemma StringsSort(a: seq<string>, b: seq<string>, plain: Order)
    requires TotalOrder(plain)
    ensures Sort(a, Self, plain) == Sort(b, Self, plain) <==> multiset(a) == multiset(b)
  {
    SortIsStable(a, Self, plain);
    SortIsStable(b, Self, plain);
    if multiset(a) == multiset(b) {
      forall k ensures Of(a, Self, k) == Of(b, Self, k) {
        OfSelf(a, k);
        OfSelf(b, k);
      }
      SortsAgree(a, b, Self, plain);
    }
  }

  /** An edge up to the order of its guards and of its side effects. */
  datatype LooseEdge = LooseEdge(id: string, text: Text, guards: multiset<string>, sideEffects: multiset<string>)

  function Loose(e: Edge): LooseEdge {
    LooseEdge(e.id, e.text, multiset(e.guards), multiset(e.sideEffects))
  }

  lemma CanonicalIsLoose(e: Edge, f: Edge, plain: Order)
    requires TotalOrder(plain)
    ensures CanonicalEdge(e, plain) == CanonicalEdge(f, plain) <==> Loose(e) == Loose(f)
  {
    hide Sort;
    StringsSort(e.guards, f.guards, plain);
    StringsSort(e.sideEffects, f.sideEffects, plain);
  }

  function Loosened(edges: seq<Edge>): seq<LooseEdge> {
    if edges == [] then [] else [Loose(edges[0])] + Loosened(edges[1..])
  }

  /** The same graph up to reordering of nodes, edges, guards and side effects. */
  ghost predicate SameGraph(g: Graph, h: Graph) {
    && g.entityType == h.entityType
    && multiset(g.nodes) == multiset(h.nodes)
    && multiset(Loosened(g.edges)) == multiset(Loosened(h.edges))
  }

  function LooseId(e: LooseEdge): string {
    e.id
  }

  lemma {:induction false} CanonicalEdgesAreLoosened(s: seq<Edge>, t: seq<Edge>, plain: Order)
    requires TotalOrder(plain)
    ensures CanonicalEdges(s, plain) == CanonicalEdges(t, plain) <==> Loosened(s) == Loosened(t)
  {
    hide CanonicalEdge, Loose, TotalOrder;
    if s != [] && t != [] {
      CanonicalIsLoose(s[0], t[0], plain);
      CanonicalEdgesAreLoosened(s[1..], t[1..], plain);
      HeadAndTail(CanonicalEdge(s[0], plain), CanonicalEdges(s[1..], plain),
                  CanonicalEdge(t[0], plain), CanonicalEdges(t[1..], plain));
      HeadAndTail(Loose(s[0]), Loosened(s[1..]), Loose(t[0]), Loosened(t[1..]));
    }
  }

  lemma HeadAndTail<T>(x: T, s: seq<T>, y: T, t: seq<T>)
    ensures [x] + s == [y] + t <==> x == y && s == t
  {
    if [x] + s == [y] + t {
      assert ([x] + s)[0] == x && ([x] + s)[1..] == s;
      assert ([y] + t)[0] == y && ([y] + t)[1..] == t;
    }
  }

  lemma {:induction false} LoosenedInsert(x: Edge, s: seq<Edge>, byId: Order)
    ensures Loosened(Insert(x, s, EdgeId, byId)) == Insert(Loose(x), Loosened(s), LooseId, byId)
  {
    if s == [] || byId(x.id, s[0].id) {
      assert ([x] + s)[1..] == s;
    } else {
      LoosenedInsert(x, s[1..], byId);
      assert ([s[0]] + Insert(x, s[1..], EdgeId, byId))[1..] == Insert(x, s[1..], EdgeId, byId);
      assert Loosened(s)[1..] == Loosened(s[1..]);
    }
  }

  /** Forgetting the order inside the edges and sorting the edges commute. */
  lemma {:induction false} LoosenedSort(s: seq<Edge>, byId: Order)
    ensures Loosened(Sort(s, EdgeId, byId)) == Sort(Loosened(s), LooseId, byId)
  {
    if s != [] {
      LoosenedSort(s[1..], byId);
      LoosenedInsert(s[0], Sort(s[1..], EdgeId, byId), byId);
      assert Loosened(s)[1..] == Loosened(s[1..]);
    }
  }

  /**
   * For all graphs: the payloads are equal exactly when the graphs have the same entity type and list the nodes of
   * each id, and the edges of each id up to the order of guards and side effects, in the same order.
   */
  lemma PayloadsAgree(g: Graph, h: Graph, byId: Order, plain: Order)
    requires TotalOrder(byId) && TotalOrder(plain)
    ensures Payload(g, byId, plain) == Payload(h, byId, plain)
       <==> && g.entityType == h.entityType
            && SameOf(g.nodes, h.nodes, NodeId)
            && SameOf(Loosened(g.edges), Loosened(h.edges), LooseId)
  {
    hide Sort, TotalOrder, SameOf, CanonicalEdges, Loosened;
    SortsAgree(g.nodes, h.nodes, NodeId, byId);
    CanonicalEdgesAreLoosened(Sort(g.edges, EdgeId, byId), Sort(h.edges, EdgeId, byId), plain);
    LoosenedSort(g.edges, byId);
    LoosenedSort(h.edges, byId);
    SortsAgree(Loosened(g.edges), Loosened(h.edges), LooseId, byId);
  }

  // ----- Distinct ids -----

  ghost predicate DistinctKeys<T(!new)>(s: seq<T>, key: T -> string) {
    s == [] || ((forall y :: y in s[1..] ==> key(y) != key(s[0])) && DistinctKeys(s[1..], key))
  }

  lemma {:induction false} OfCounts<T>(s: seq<T>, key: T -> string, x: T)
    ensures multiset(Of(s, key, key(x)))[x] == multiset(s)[x]
  {
    if s != [] {
      OfCounts(s[1..], key, x);
      assert s == [s[0]] + s[1..];
    }
  }

  lemma SameOfSameBag<T(!new)>(s: seq<T>, t: seq<T>, key: T -> string)
    requires SameOf(s, t, key)
    ensures multiset(s) == multiset(t)
  {
    forall x ensures multiset(s)[x] == multiset(t)[x] {
      OfCounts(s, key, x);
      OfCounts(t, key, x);
      assert Of(s, key, key(x)) == Of(t, key, key(x));
    }
  }

  lemma {:induction false} NoneOf<T>(s: seq<T>, key: T -> string, k: string)
    requires forall y :: y in s ==> key(y) != k
    ensures Of(s, key, k) == []
  {
    if s != [] {
      NoneOf(s[1..], key, k);
    }
  }

  lemma {:induction false} DistinctOf<T(!new)>(s: seq<T>, key: T -> string, x: T)
    requires DistinctKeys(s, key) && x in s
    ensures Of(s, key, key(x)) == [x]
  {
    if s[0] == x {
      NoneOf(s[1..], key, key(x));
    } else {
      assert x in s[1..];
      DistinctOf(s[1..], key, x);
    }
  }

  lemma BagMembers<T>(s: seq<T>, t: seq<T>, x: T)
    requires multiset(s) == multiset(t) && x in s
    ensures x in t
  {
    assert x in multiset(s);
  }

  lemma SameBagSameOf<T(!new)>(s: seq<T>, t: seq<T>, key: T -> string)
    requires DistinctKeys(s, key) && DistinctKeys(t, key) && multiset(s) == multiset(t)
    ensures SameOf(s, t, key)
  {
    hide DistinctKeys;
    forall k ensures Of(s, key, k) == Of(t, key, k) {
      if x :| x in s && key(x) == k {
        BagMembers(s, t, x);
        DistinctOf(s, key, x);
        DistinctOf(t, key, x);
      } else {
        forall y | y in t ensures key(y) != k {
          BagMembers(t, s, y);
        }
        NoneOf(s, key, k);
        NoneOf(t, key, k);
      }
    }
  }

  ghost predicate DistinctIds(g: Graph) {
    DistinctKeys(g.nodes, NodeId) && DistinctKeys(g.edges, EdgeId)
  }

  lemma {:induction false} LoosenedDistinct(s: seq<Edge>)
    requires DistinctKeys(s, EdgeId)
    ensures DistinctKeys(Loosened(s), LooseId)
  {
    if s != [] {
      LoosenedDistinct(s[1..]);
      LoosenedMembers(s[1..]);
      assert Loosened(s)[1..] == Loosened(s[1..]);
    }
  }

  lemma {:induction false} LoosenedMembers(s: seq<Edge>)
    ensures forall l :: l in Loosened(s) ==> exists e :: e in s && Loose(e) == l
  {
    if s != [] {
      LoosenedMembers(s[1..]);
      assert forall e :: e in s[1..] ==> e in s;
    }
  }

  /** Equal payloads never come from different graphs. */
  lemma EqualPayloadsSameGraph(g: Graph, h: Graph, byId: Order, plain: Order)
    requires TotalOrder(byId) && TotalOrder(plain) && Payload(g, byId, plain) == Payload(h, byId, plain)
    ensures SameGraph(g, h)
  {
    hide SameOf, Payload;
    PayloadsAgree(g, h, byId, plain);
    SameOfSameBag(g.nodes, h.nodes, NodeId);
    SameOfSameBag(Loosened(g.edges), Loosened(h.edges), LooseId);
  }

  /** With distinct ids the payload is a normal form: equal exactly for the same graph up to reordering. */
  lemma PayloadIsNormalForm(g: Graph, h: Graph, byId: Order, plain: Order)
    requires TotalOrder(byId) && TotalOrder(plain) && DistinctIds(g) && DistinctIds(h)
    ensures Payload(g, byId, plain) == Payload(h, byId, plain) <==> SameGraph(g, h)
  {
    hide SameOf, Payload, TotalOrder, Loosened;
    if Payload(g, byId, plain) == Payload(h, byId, plain) {
      EqualPayloadsSameGraph(g, h, byId, plain);
    }
    if SameGraph(g, h) {
      LoosenedDistinct(g.edges);
      LoosenedDistinct(h.edges);
      SameBagSameOf(g.nodes, h.nodes, NodeId);
      SameBagSameOf(Loosened(g.edges), Loosened(h.edges), LooseId);
      PayloadsAgree(g, h, byId, plain);
    }
  }

  /** Two nodes that share an id give away the order they were written in. */
  lemma DuplicateIdsTellOrder(byId: Order, plain: Order, id: string, typ: string, other: string)
    requires TotalOrder(byId) && TotalOrder(plain) && typ != other
    ensures var g := Graph("Trip", [Node(id, typ), Node(id, other)], []);
      var h := Graph("Trip", [Node(id, other), Node(id, typ)], []);
      SameGraph(g, h) && Payload(g, byId, plain) != Payload(h, byId, plain)
  {
    var (a, b) := (Node(id, typ), Node(id, other));
    PayloadsAgree(Graph("Trip", [a, b], []), Graph("Trip", [b, a], []), byId, plain);
    assert [a, b][1..] == [b] && [b, a][1..] == [a] && [a][1..] == [] && [b][1..] == [];
    assert Of([a, b], NodeId, id)[0] == a && Of([b, a], NodeId, id)[0] == b;
  }

  // ----- The payload is the graph itself, put in order -----

  lemma CanonicalKeepsLoose(e: Edge, plain: Order)
    requires TotalOrder(plain)
    ensures Loose(CanonicalEdge(e, plain)) == Loose(e)
    ensures Ascending(CanonicalEdge(e, plain).guards, Self, plain)
    ensures Ascending(CanonicalEdge(e, plain).sideEffects, Self, plain)
  {
    hide Sort;
    SortIsStable(e.guards, Self, plain);
    SortIsStable(e.sideEffects, Self, plain);
  }

  ghost predicate ListsAscend(edges: seq<Edge>, plain: Order) {
    forall e :: e in edges ==> Ascending(e.guards, Self, plain) && Ascending(e.sideEffects, Self, plain)
  }

  lemma {:induction false} CanonicalKeepsLoosened(s: seq<Edge>, plain: Order)
    requires TotalOrder(plain)
    ensures Loosened(CanonicalEdges(s, plain)) == Loosened(s) && ListsAscend(CanonicalEdges(s, plain), plain)
  {
    hide CanonicalEdge, Loose, TotalOrder, Ascending;
    if s != [] {
      var (x, rest) := (CanonicalEdge(s[0], plain), CanonicalEdges(s[1..], plain));
      CanonicalKeepsLoose(s[0], plain);
      CanonicalKeepsLoosened(s[1..], plain);
      assert ([x] + rest)[1..] == rest;
    }
  }

  lemma {:induction false} CanonicalAscends(s: seq<Edge>, byId: Order, plain: Order)
    requires Ascending(s, EdgeId, byId)
    ensures Ascending(CanonicalEdges(s, plain), EdgeId, byId)
    ensures forall y :: y in CanonicalEdges(s, plain) ==> exists e :: e in s && e.id == y.id
  {
    if s != [] {
      CanonicalAscends(s[1..], byId, plain);
      assert forall y :: y in s ==> byId(s[0].id, y.id) by {
        assert forall y :: y in s ==> byId(EdgeId(s[0]), EdgeId(y));
      }
      var (x, rest) := (CanonicalEdge(s[0], plain), CanonicalEdges(s[1..], plain));
      assert ([x] + rest)[1..] == rest;
      assert forall e :: e in s[1..] ==> e in s;
    }
  }

  /**
   * The payload is the graph it was made from, up to reordering, with nodes and edges in the order of their ids and
   * each edge's guards and side effects in theirs.
   */
  lemma PayloadIsTheGraph(g: Graph, byId: Order, plain: Order)
    requires TotalOrder(byId) && TotalOrder(plain)
    ensures var p := Payload(g, byId, plain);
      && SameGraph(p, g)
      && Ascending(p.nodes, NodeId, byId) && Ascending(p.edges, EdgeId, byId) && ListsAscend(p.edges, plain)
  {
    hide Sort, CanonicalEdges, Loosened, TotalOrder, Ascending, ListsAscend;
    SortIsStable(g.nodes, NodeId, byId);
    SortIsStable(g.edges, EdgeId, byId);
    CanonicalKeepsLoosened(Sort(g.edges, EdgeId, byId), plain);
    CanonicalAscends(Sort(g.edges, EdgeId, byId), byId, plain);
    LoosenedSort(g.edges, byId);
    SortIsStable(Loosened(g.edges), LooseId, byId);
  }
}
