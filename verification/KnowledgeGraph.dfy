/** The hierarchy graph builder (apps/runtime/src/ado-knowledge-graph.ts).

    Scope and item identifiers are numbers standing for the identifier strings in the order the
    source sorts work item keys. `wellFormed` stands for the textual checks on identifiers, dates and
    digests; the content hash is an arbitrary function. */
module KnowledgeGraph {
  import opened Wrappers

  datatype Item = Item(scope: int, id: int)

  predicate Before(a: Item, b: Item) {
    a.scope < b.scope || (a.scope == b.scope && a.id < b.id)
  }

  datatype Provenance = Provenance(source: Item, revision: nat, relationId: Option<int>, contentHash: int)

  datatype Node = Node(item: Item, provenance: Provenance, wellFormed: bool)

  datatype EdgeType = PARENT | CHILD | RELATED | DEPENDS_ON | EXTERNAL_SUPPORTING_REFERENCE

  datatype Target = WorkItem(item: Item) | Reference(referenceId: int)

  datatype Edge = Edge(source: Item, kind: EdgeType, target: Target, provenance: Provenance, wellFormed: bool) {
    predicate IsHierarchy() { (kind.PARENT? || kind.CHILD?) && target.WorkItem? }

    function Parent(): Item
      requires target.WorkItem?
    {
      if kind.CHILD? then source else target.item
    }

    function Child(): Item
      requires target.WorkItem?
    {
      if kind.CHILD? then target.item else source
    }
  }

  datatype Kind = ORPHAN | SELF_LINK | MULTIPLE_PARENTS | CYCLE
  datatype Domain = HIERARCHY | RELATION
  datatype Issue = Issue(kind: Kind, domain: Domain, nodeKeys: seq<Item>)
  datatype HierarchyNode = HierarchyNode(key: Item, parents: seq<Item>, children: seq<Item>)
  datatype Graph = Graph(nodes: seq<Node>, edges: seq<Edge>, hierarchy: seq<HierarchyNode>, roots: seq<Item>,
                         issues: seq<Issue>, validHierarchy: bool)
  datatype Error = InvalidRequest

  type Relation = map<Item, set<Item>>
  type ContentHash = (EdgeType, Target) -> int

  const MAX_NODES := 10_000
  const MAX_EDGES := 50_000

  // ---- sorting ---------------------------------------------------------------------------

  ghost predicate IsFirst(m: Item, s: set<Item>) {
    m in s && forall x :: x in s && x != m ==> Before(m, x)
  }

  lemma FirstExists(s: set<Item>)
    requires s != {}
    ensures exists m :: IsFirst(m, s)
  {
    var x :| x in s;
    if s == {x} {
      assert IsFirst(x, s);
    } else {
      FirstExists(s - {x});
      var m :| IsFirst(m, s - {x});
      var w := if Before(m, x) then m else x;
      forall y | y in s && y != w
        ensures Before(w, y)
      {
        assert y == x || y == m || Before(m, y);
      }
      assert IsFirst(w, s);
    }
  }

  /** The elements of `s` in key order. */
  function Sorted(s: set<Item>): (q: seq<Item>)
    ensures |q| == |s| && (forall x :: x in q <==> x in s)
    ensures forall i, j :: 0 <= i < j < |q| ==> Before(q[i], q[j])
  {
    if s == {} then []
    else
      FirstExists(s);
      var m :| m in s && forall x :: x in s && x != m ==> Before(m, x);
      [m] + Sorted(s - {m})
  }

  // ---- what the input says ---------------------------------------------------------------

  predicate NodeOk(n: Node) {
    n.wellFormed && n.provenance.revision > 0 && n.provenance.source == n.item
  }

  predicate EdgeOk(known: map<Item, Node>, hash: ContentHash, e: Edge) {
    && e.wellFormed && e.provenance.revision > 0
    && e.provenance.relationId.Some? && e.provenance.source == e.source
    && (e.kind.EXTERNAL_SUPPORTING_REFERENCE? <==> e.target.Reference?)
    && e.provenance.contentHash == hash(e.kind, e.target)
    && (e.source in known ==> known[e.source].provenance.revision == e.provenance.revision)
    && (e.target.WorkItem? ==> e.source.scope == e.target.item.scope)
  }

  function NodeMap(nodes: seq<Node>): (m: map<Item, Node>)
    ensures m.Keys == set n | n in nodes :: n.item
  {
    if nodes == [] then map[]
    else
      var n := |nodes| - 1;
      assert nodes == nodes[..n] + [nodes[n]];
      NodeMap(nodes[..n])[nodes[n].item := nodes[n]]
  }

  function Identity(e: Edge): (Item, nat, Option<int>) {
    (e.source, e.provenance.revision, e.provenance.relationId)
  }

  ghost predicate AcceptsNodes(nodes: seq<Node>) {
    && (forall i :: 0 <= i < |nodes| ==> NodeOk(nodes[i]))
    && (forall i, j :: 0 <= i < j < |nodes| ==> nodes[i].item != nodes[j].item)
  }

  ghost predicate AcceptsEdges(known: map<Item, Node>, hash: ContentHash, edges: seq<Edge>) {
    && (forall i :: 0 <= i < |edges| ==> EdgeOk(known, hash, edges[i]))
    && (forall i, j :: 0 <= i < j < |edges| ==> Identity(edges[i]) != Identity(edges[j]))
  }

  ghost predicate Accepts(nodes: seq<Node>, edges: seq<Edge>, hash: ContentHash) {
    |nodes| <= MAX_NODES && |edges| <= MAX_EDGES && AcceptsNodes(nodes) && AcceptsEdges(NodeMap(nodes), hash, edges)
  }

  function Items(nodes: seq<Node>): set<Item> {
    set n | n in nodes :: n.item
  }

  /** The parent links of the hierarchy, as (parent, child). */
  function Links(edges: seq<Edge>): set<(Item, Item)> {
    set e | e in edges && e.IsHierarchy() :: (e.Parent(), e.Child())
  }

  function ParentsOf(known: set<Item>, links: set<(Item, Item)>): Relation {
    map k | k in known :: set l | l in links && l.1 == k :: l.0
  }

  function ChildrenOf(known: set<Item>, links: set<(Item, Item)>): Relation {
    map k | k in known :: set l | l in links && l.0 == k :: l.1
  }

  /** Endpoints of work item edges that no node describes. */
  function Missing(known: set<Item>, edges: seq<Edge>): set<Item> {
    (set e | e in edges && e.source !in known :: e.source)
    + (set e | e in edges && e.target.WorkItem? && e.target.item !in known :: e.target.item)
  }

  function HierarchyMissing(known: set<Item>, edges: seq<Edge>): set<Item> {
    (set e | e in edges && e.IsHierarchy() && e.source !in known :: e.source)
    + (set e | e in edges && e.IsHierarchy() && e.target.item !in known :: e.target.item)
  }

  // ---- the expected issue list -----------------------------------------------------------

  function SelfLinks(edges: seq<Edge>): seq<Issue> {
    if edges == [] then []
    else
      var n := |edges| - 1;
      SelfLinks(edges[..n]) + if edges[n].IsHierarchy() && edges[n].Parent() == edges[n].Child() then
        [Issue(SELF_LINK, HIERARCHY, [edges[n].Parent()])] else []
  }

  function Orphans(missing: seq<Item>, hierarchyMissing: set<Item>): seq<Issue> {
    seq(|missing|, i requires 0 <= i < |missing| =>
          Issue(ORPHAN, if missing[i] in hierarchyMissing then HIERARCHY else RELATION, [missing[i]]))
  }

  function MultipleParents(nodes: seq<Node>, parents: Relation): seq<Issue>
    requires forall n :: n in nodes ==> n.item in parents
  {
    if nodes == [] then []
    else
      var n := |nodes| - 1;
      var key := nodes[n].item;
      MultipleParents(nodes[..n], parents) + if |parents[key]| > 1 then
        [Issue(MULTIPLE_PARENTS, HIERARCHY, [key] + Sorted(parents[key]))] else []
  }

  // ---- the builder -----------------------------------------------------------------------

  lemma NodeMapOfLonger(nodes: seq<Node>, n: Node)
    ensures NodeMap(nodes + [n]) == NodeMap(nodes)[n.item := n]
    ensures AcceptsNodes(nodes + [n]) <==> AcceptsNodes(nodes) && NodeOk(n) && n.item !in NodeMap(nodes)
  {
    var longer := nodes + [n];
    assert longer[..|nodes|] == nodes;
    if AcceptsNodes(longer) {
      forall i, j | 0 <= i < j < |nodes|
        ensures NodeOk(nodes[i]) && NodeOk(nodes[j]) && nodes[i].item != nodes[j].item
      {
        assert longer[i] == nodes[i] && longer[j] == nodes[j];
      }
      forall i | 0 <= i < |nodes|
        ensures NodeOk(nodes[i]) && nodes[i].item != n.item
      {
        assert longer[i] == nodes[i] && longer[|nodes|] == n;
      }
    }
  }

  lemma AcceptedPrefix(nodes: seq<Node>, i: nat)
    requires i <= |nodes| && !AcceptsNodes(nodes[..i])
    ensures !AcceptsNodes(nodes)
  {
  }

  method RegisterNodes(nodes: seq<Node>) returns (r: Result<map<Item, Node>, Error>)
    ensures r.Success? <==> AcceptsNodes(nodes)
    ensures r.Success? ==> r.value == NodeMap(nodes)
  {
    var known: map<Item, Node> := map[];
    for i := 0 to |nodes|
      invariant known == NodeMap(nodes[..i])
      invariant AcceptsNodes(nodes[..i])
    {
      var node := nodes[i];
      assert nodes[..i + 1] == nodes[..i] + [node];
      NodeMapOfLonger(nodes[..i], node);
      if !NodeOk(node) || node.item in known {
        AcceptedPrefix(nodes, i + 1);
        return Failure(InvalidRequest);
      }
      known := known[node.item := node];
    }
    assert nodes[..|nodes|] == nodes;
    return Success(known);
  }

  /** What the edge loop accumulates. */
  datatype EdgeScan = EdgeScan(parents: Relation, children: Relation, missing: set<Item>, hierarchyMissing: set<Item>,
                               issues: seq<Issue>)

  ghost predicate ScanOf(scan: EdgeScan, known: set<Item>, edges: seq<Edge>) {
    && scan.parents == ParentsOf(known, Links(edges))
    && scan.children == ChildrenOf(known, Links(edges))
    && scan.missing == Missing(known, edges)
    && scan.hierarchyMissing == HierarchyMissing(known, edges)
    && scan.issues == SelfLinks(edges)
  }

  function Add(r: Relation, key: Item, value: Item): Relation {
    if key in r then r[key := r[key] + {value}] else r
  }

  /** One turn of the edge loop, for an edge that passed its checks. */
  method ScanEdge(scan: EdgeScan, known: set<Item>, edge: Edge) returns (next: EdgeScan)
    ensures edge.target.Reference? ==>
      next == scan.(missing := scan.missing + if edge.source in known then {} else {edge.source})
    ensures edge.target.WorkItem? ==>
      next.missing == scan.missing + (set x | x in {edge.source, edge.target.item} && x !in known)
    ensures edge.target.WorkItem? && !edge.IsHierarchy() ==> next == scan.(missing := next.missing)
    ensures edge.IsHierarchy() ==>
      && next.hierarchyMissing == scan.hierarchyMissing + (set x | x in {edge.source, edge.target.item} && x !in known)
      && next.parents == Add(scan.parents, edge.Child(), edge.Parent())
      && next.children == Add(scan.children, edge.Parent(), edge.Child())
      && next.issues == scan.issues + if edge.Parent() == edge.Child() then
           [Issue(SELF_LINK, HIERARCHY, [edge.Parent()])] else []
  {
    next := scan;
    if edge.source !in known { next := next.(missing := next.missing + {edge.source}); }
    if edge.target.Reference? { return; }
    var target := edge.target.item;
    if target !in known { next := next.(missing := next.missing + {target}); }
    if !edge.kind.PARENT? && !edge.kind.CHILD? { return; }
    if edge.source !in known { next := next.(hierarchyMissing := next.hierarchyMissing + {edge.source}); }
    if target !in known { next := next.(hierarchyMissing := next.hierarchyMissing + {target}); }
    var parent := if edge.kind.CHILD? then edge.source else target;
    var child := if edge.kind.CHILD? then target else edge.source;
    if parent == child { next := next.(issues := next.issues + [Issue(SELF_LINK, HIERARCHY, [parent])]); }
    next := next.(parents := Add(next.parents, child, parent));
    next := next.(children := Add(next.children, parent, child));
  }

  lemma LinksOfLonger(edges: seq<Edge>, e: Edge)
    ensures Links(edges + [e]) == Links(edges) + if e.IsHierarchy() then {(e.Parent(), e.Child())} else {}
  {
    assert forall x :: x in edges + [e] <==> x in edges || x == e;
  }

  lemma MissingOfLonger(known: set<Item>, edges: seq<Edge>, e: Edge)
    ensures Missing(known, edges + [e]) == Missing(known, edges) + (if e.source in known then {} else {e.source})
      + (if e.target.WorkItem? && e.target.item !in known then {e.target.item} else {})
    ensures HierarchyMissing(known, edges + [e]) == HierarchyMissing(known, edges)
      + (if e.IsHierarchy() then set x | x in {e.source, e.target.item} && x !in known else {})
  {
    assert forall x :: x in edges + [e] <==> x in edges || x == e;
  }

  lemma RelationsOfLonger(known: set<Item>, links: set<(Item, Item)>, parent: Item, child: Item)
    ensures ParentsOf(known, links + {(parent, child)}) == Add(ParentsOf(known, links), child, parent)
    ensures ChildrenOf(known, links + {(parent, child)}) == Add(ChildrenOf(known, links), parent, child)
  {
    var longer := links + {(parent, child)};
    forall k | k in known
      ensures ParentsOf(known, longer)[k] == Add(ParentsOf(known, links), child, parent)[k]
    {
      assert ParentsOf(known, links)[k] == set l | l in links && l.1 == k :: l.0;
      if k == child {
        assert (parent, child) in longer;
      }
    }
    forall k | k in known
      ensures ChildrenOf(known, longer)[k] == Add(ChildrenOf(known, links), parent, child)[k]
    {
      assert ChildrenOf(known, links)[k] == set l | l in links && l.0 == k :: l.1;
      if k == parent {
        assert (parent, child) in longer;
      }
    }
  }

  lemma ScanExtends(scan: EdgeScan, next: EdgeScan, known: set<Item>, edges: seq<Edge>, e: Edge)
    requires ScanOf(scan, known, edges)
    requires next.missing
      == scan.missing + (if e.source in known then {} else {e.source})
        + (if e.target.WorkItem? && e.target.item !in known then {e.target.item} else {})
    requires !e.IsHierarchy() ==> next == scan.(missing := next.missing)
    requires e.IsHierarchy() ==>
      && next.hierarchyMissing == scan.hierarchyMissing + (set x | x in {e.source, e.target.item} && x !in known)
      && next.parents == Add(scan.parents, e.Child(), e.Parent())
      && next.children == Add(scan.children, e.Parent(), e.Child())
      && next.issues == scan.issues + if e.Parent() == e.Child() then [Issue(SELF_LINK, HIERARCHY, [e.Parent()])]
           else []
    ensures ScanOf(next, known, edges + [e])
  {
    LinksOfLonger(edges, e);
    MissingOfLonger(known, edges, e);
    assert (edges + [e])[..|edges|] == edges;
    if e.IsHierarchy() {
      RelationsOfLonger(known, Links(edges), e.Parent(), e.Child());
    } else {
      assert Links(edges + [e]) == Links(edges);
    }
  }

  method ScanOneMore(scan: EdgeScan, known: set<Item>, ghost earlier: seq<Edge>, edge: Edge) returns (next: EdgeScan)
    requires ScanOf(scan, known, earlier)
    ensures ScanOf(next, known, earlier + [edge])
  {
    next := ScanEdge(scan, known, edge);
    ScanExtends(scan, next, known, earlier, edge);
  }

  lemma NothingScanned(known: set<Item>, scan: EdgeScan)
    requires scan.parents.Keys == known && scan.children.Keys == known && scan.missing == {}
    requires scan.hierarchyMissing == {} && scan.issues == []
    requires forall k :: k in known ==> scan.parents[k] == {} && scan.children[k] == {}
    ensures ScanOf(scan, known, [])
  {
    assert Links([]) == {};
    forall k | k in known
      ensures scan.parents[k] == ParentsOf(known, {})[k] && scan.children[k] == ChildrenOf(known, {})[k]
    {
    }
    assert scan.parents == ParentsOf(known, {});
    assert scan.children == ChildrenOf(known, {});
  }

  function Identities(edges: seq<Edge>): set<(Item, nat, Option<int>)> {
    set e | e in edges :: Identity(e)
  }

  lemma AcceptsOneMore(known: map<Item, Node>, hash: ContentHash, edges: seq<Edge>, e: Edge)
    ensures Identities(edges + [e]) == Identities(edges) + {Identity(e)}
    ensures AcceptsEdges(known, hash, edges + [e])
      <==> AcceptsEdges(known, hash, edges) && EdgeOk(known, hash, e) && Identity(e) !in Identities(edges)
  {
    var longer := edges + [e];
    assert forall x :: x in longer <==> x in edges || x == e;
    if AcceptsEdges(known, hash, longer) {
      forall i, j | 0 <= i < j < |edges|
        ensures EdgeOk(known, hash, edges[i]) && EdgeOk(known, hash, edges[j])
        ensures Identity(edges[i]) != Identity(edges[j])
      {
        assert longer[i] == edges[i] && longer[j] == edges[j];
      }
      forall i | 0 <= i < |edges|
        ensures EdgeOk(known, hash, edges[i]) && Identity(edges[i]) != Identity(e)
      {
        assert longer[i] == edges[i] && longer[|edges|] == e;
      }
    }
  }

  lemma AcceptedEdgesPrefix(known: map<Item, Node>, hash: ContentHash, edges: seq<Edge>, i: nat)
    requires i <= |edges| && !AcceptsEdges(known, hash, edges[..i])
    ensures !AcceptsEdges(known, hash, edges)
  {
  }

  method ScanEdges(known: map<Item, Node>, edges: seq<Edge>, hash: ContentHash) returns (r: Result<EdgeScan, Error>)
    ensures r.Success? <==> AcceptsEdges(known, hash, edges)
    ensures r.Success? ==> ScanOf(r.value, known.Keys, edges)
  {
    var empty: set<Item> := {};
    var scan := EdgeScan(map k | k in known.Keys :: empty, map k | k in known.Keys :: empty, {}, {}, []);
    var identities: set<(Item, nat, Option<int>)> := {};
    assert edges[..0] == [];
    NothingScanned(known.Keys, scan);
    for i := 0 to |edges|
      invariant AcceptsEdges(known, hash, edges[..i])
      invariant identities == Identities(edges[..i])
      invariant ScanOf(scan, known.Keys, edges[..i])
    {
      var edge := edges[i];
      assert edges[..i + 1] == edges[..i] + [edge];
      AcceptsOneMore(known, hash, edges[..i], edge);
      if !EdgeOk(known, hash, edge) || Identity(edge) in identities {
        AcceptedEdgesPrefix(known, hash, edges, i + 1);
        return Failure(InvalidRequest);
      }
      identities := identities + {Identity(edge)};
      scan := ScanOneMore(scan, known.Keys, edges[..i], edge);
    }
    assert edges[..|edges|] == edges;
    return Success(scan);
  }
}
