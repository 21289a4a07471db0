/** `buildKnowledgeGraph` as a whole, and what `validHierarchy` and `roots` mean: the hierarchy is
    valid exactly when its links form a forest over the known nodes, and then every node hangs from
    exactly one root, along exactly one path. */
module KnowledgeForest {
  import opened Wrappers
  import opened KnowledgeGraph
  import opened KnowledgeCycles

  function HierarchyOf(keys: seq<Item>, parents: Relation, children: Relation): seq<HierarchyNode>
    requires forall k :: k in keys ==> k in parents && k in children
  {
    seq(|keys|, i requires 0 <= i < |keys| =>
          HierarchyNode(keys[i], Sorted(parents[keys[i]]), Sorted(children[keys[i]])))
  }

  function RootsOf(keys: seq<Item>, parents: Relation): (roots: seq<Item>)
    requires forall k :: k in keys ==> k in parents
    ensures forall k :: k in roots <==> k in keys && parents[k] == {}
  {
    if keys == [] then []
    else
      var n := |keys| - 1;
      assert keys == keys[..n] + [keys[n]];
      RootsOf(keys[..n], parents) + if parents[keys[n]] == {} then [keys[n]] else []
  }

  ghost predicate CycleIssue(issues: seq<Issue>, children: Relation) {
    if HasCycle(children) then
      |issues| == 1 && issues[0].kind.CYCLE? && issues[0].domain.HIERARCHY? && ClosedPath(children, issues[0].nodeKeys)
    else issues == []
  }

  predicate Valid(issues: seq<Issue>) {
    forall i :: i in issues ==> !i.domain.HIERARCHY?
  }

  /** What the builder returns for accepted input. */
  ghost predicate GraphOf(g: Graph, nodes: seq<Node>, edges: seq<Edge>) {
    var known := Items(nodes);
    var parents, children := ParentsOf(known, Links(edges)), ChildrenOf(known, Links(edges));
    && g.nodes == nodes && g.edges == edges
    && g.hierarchy == HierarchyOf(Sorted(known), parents, children)
    && g.roots == RootsOf(Sorted(known), parents)
    && (exists cycle :: CycleIssue(cycle, children)
         && g.issues
            == SelfLinks(edges) + Orphans(Sorted(Missing(known, edges)), HierarchyMissing(known, edges))
              + MultipleParents(nodes, parents) + cycle)
    && g.validHierarchy == Valid(g.issues)
  }

  method ListMultipleParents(nodes: seq<Node>, parents: Relation) returns (issues: seq<Issue>)
    requires forall n :: n in nodes ==> n.item in parents
    ensures issues == MultipleParents(nodes, parents)
  {
    issues := [];
    for i := 0 to |nodes|
      invariant issues == MultipleParents(nodes[..i], parents)
    {
      var key := nodes[i].item;
      assert nodes[..i + 1][..i] == nodes[..i];
      if |parents[key]| > 1 {
        issues := issues + [Issue(MULTIPLE_PARENTS, HIERARCHY, [key] + Sorted(parents[key]))];
      }
    }
    assert nodes[..|nodes|] == nodes;
  }

  lemma Assembled(g: Graph, nodes: seq<Node>, edges: seq<Edge>, scan: EdgeScan, shared: seq<Issue>, cycle: seq<Issue>)
    requires ScanOf(scan, Items(nodes), edges) && CycleIssue(cycle, scan.children)
    requires forall n :: n in nodes ==> n.item in scan.parents
    requires shared == MultipleParents(nodes, scan.parents)
    requires g.nodes == nodes && g.edges == edges && g.validHierarchy == Valid(g.issues)
    requires g.issues == scan.issues + Orphans(Sorted(scan.missing), scan.hierarchyMissing) + shared + cycle
    requires var keys := Sorted(Items(nodes));
      g.hierarchy == HierarchyOf(keys, scan.parents, scan.children) && g.roots == RootsOf(keys, scan.parents)
    ensures GraphOf(g, nodes, edges)
  {
  }

  method BuildKnowledgeGraph(nodes: seq<Node>, edges: seq<Edge>, hash: ContentHash) returns (r: Result<Graph, Error>)
    ensures r.Success? <==> Accepts(nodes, edges, hash)
    ensures r.Success? ==> GraphOf(r.value, nodes, edges)
  {
    if |nodes| > MAX_NODES || |edges| > MAX_EDGES {
      return Failure(InvalidRequest);
    }
    var registered := RegisterNodes(nodes);
    if registered.Failure? {
      return Failure(InvalidRequest);
    }
    var known := registered.value;
    assert known.Keys == Items(nodes);
    var scanned := ScanEdges(known, edges, hash);
    if scanned.Failure? {
      return Failure(InvalidRequest);
    }
    var scan := scanned.value;
    var issues := scan.issues + Orphans(Sorted(scan.missing), scan.hierarchyMissing);
    var shared := ListMultipleParents(nodes, scan.parents);
    var cycle := FindCycle(known.Keys, scan.children);
    var last := if cycle.Some? then [Issue(CYCLE, HIERARCHY, cycle.value)] else [];
    assert CycleIssue(last, scan.children);
    issues := issues + shared + last;
    var keys := Sorted(known.Keys);
    var g :=
      Graph(nodes, edges, HierarchyOf(keys, scan.parents, scan.children), RootsOf(keys, scan.parents), issues,
            Valid(issues));
    Assembled(g, nodes, edges, scan, shared, last);
    return Success(g);
  }

  // ---- validHierarchy means forest -------------------------------------------------------

  ghost predicate Endpoints(known: set<Item>, links: set<(Item, Item)>) {
    forall l :: l in links ==> l.0 in known && l.1 in known
  }

  ghost predicate NoSelfLink(links: set<(Item, Item)>) {
    forall l :: l in links ==> l.0 != l.1
  }

  ghost predicate OneParent(links: set<(Item, Item)>) {
    forall l, m :: l in links && m in links && l.1 == m.1 ==> l.0 == m.0
  }

  ghost predicate Forest(known: set<Item>, links: set<(Item, Item)>) {
    Endpoints(known, links) && NoSelfLink(links) && OneParent(links) && !HasCycle(ChildrenOf(known, links))
  }

  lemma {:induction false} SelfLinksValid(edges: seq<Edge>)
    ensures Valid(SelfLinks(edges)) <==> NoSelfLink(Links(edges))
    decreases |edges|
  {
    if edges != [] {
      var n := |edges| - 1;
      var e, shorter := edges[n], edges[..n];
      SelfLinksValid(shorter);
      assert edges == shorter + [e];
      LinksOfLonger(shorter, e);
      var self := Issue(SELF_LINK, HIERARCHY, [e.source]);
      if e.IsHierarchy() && e.Parent() == e.Child() {
        assert (e.Parent(), e.Child()) in Links(edges);
        assert SelfLinks(edges)[|SelfLinks(shorter)|] in SelfLinks(edges);
      } else {
        assert SelfLinks(edges) == SelfLinks(shorter);
      }
      assert forall i :: i in SelfLinks(shorter) ==> i in SelfLinks(edges);
    } else {
      assert Links(edges) == {};
    }
  }

  lemma HierarchyMissingMeans(known: set<Item>, edges: seq<Edge>)
    ensures HierarchyMissing(known, edges) == {} <==> Endpoints(known, Links(edges))
  {
    if x :| x in HierarchyMissing(known, edges) {
      var e :| e in edges && e.IsHierarchy() && (e.source == x || e.target.item == x) && x !in known;
      assert (e.Parent(), e.Child()) in Links(edges);
    } else {
      forall l | l in Links(edges)
        ensures l.0 in known && l.1 in known
      {
        var e :| e in edges && e.IsHierarchy() && l == (e.Parent(), e.Child());
        assert e.source !in HierarchyMissing(known, edges) && e.target.item !in HierarchyMissing(known, edges);
      }
    }
  }

  lemma OrphansFlagged(listed: seq<Item>, hierarchyMissing: set<Item>)
    requires forall x :: x in hierarchyMissing ==> x in listed
    ensures Valid(Orphans(listed, hierarchyMissing)) <==> hierarchyMissing == {}
  {
    if x :| x in hierarchyMissing {
      var i :| 0 <= i < |listed| && listed[i] == x;
      assert Orphans(listed, hierarchyMissing)[i] in Orphans(listed, hierarchyMissing);
    }
  }

  lemma OrphansValid(known: set<Item>, edges: seq<Edge>)
    ensures Valid(Orphans(Sorted(Missing(known, edges)), HierarchyMissing(known, edges)))
      <==> Endpoints(known, Links(edges))
  {
    OrphansFlagged(Sorted(Missing(known, edges)), HierarchyMissing(known, edges));
    HierarchyMissingMeans(known, edges);
  }

  lemma {:induction false} MultipleParentsValid(nodes: seq<Node>, parents: Relation)
    requires forall n :: n in nodes ==> n.item in parents
    ensures Valid(MultipleParents(nodes, parents)) <==> forall n :: n in nodes ==> |parents[n.item]| <= 1
    decreases |nodes|
  {
    if nodes != [] {
      var k := |nodes| - 1;
      var shorter := nodes[..k];
      MultipleParentsValid(shorter, parents);
      assert nodes == shorter + [nodes[k]];
      var all, fewer := MultipleParents(nodes, parents), MultipleParents(shorter, parents);
      assert forall i :: i in fewer ==> i in all;
      if |parents[nodes[k].item]| > 1 {
        assert all[|fewer|] in all;
        assert nodes[k] in nodes;
      } else {
        assert all == fewer;
      }
    }
  }

  lemma AtMostOne(s: set<Item>)
    ensures |s| <= 1 <==> forall x, y :: x in s && y in s ==> x == y
  {
    if |s| > 1 {
      var x :| x in s;
      assert |s - {x}| > 0;
      var y :| y in s - {x};
      assert x in s && y in s && x != y;
    } else {
      if s != {} {
        var x :| x in s;
        assert |s - {x}| == 0;
        assert s == {x};
      }
    }
  }

  lemma OneParentEach(known: set<Item>, links: set<(Item, Item)>)
    requires Endpoints(known, links)
    ensures (forall k :: k in known ==> |ParentsOf(known, links)[k]| <= 1) <==> OneParent(links)
  {
    var parents := ParentsOf(known, links);
    forall k | k in known
      ensures |parents[k]| <= 1 <==> forall l, m :: l in links && m in links && l.1 == k && m.1 == k ==> l.0 == m.0
    {
      AtMostOne(parents[k]);
      if |parents[k]| <= 1 {
        forall l, m | l in links && m in links && l.1 == k && m.1 == k
          ensures l.0 == m.0
        {
          assert l.0 in parents[k] && m.0 in parents[k];
        }
      } else {
        var x, y :| x in parents[k] && y in parents[k] && x != y;
        assert (x, k) in links && (y, k) in links;
      }
    }
  }

  lemma MultipleParentsMean(nodes: seq<Node>, links: set<(Item, Item)>)
    requires Endpoints(Items(nodes), links)
    ensures Valid(MultipleParents(nodes, ParentsOf(Items(nodes), links))) <==> OneParent(links)
  {
    var known := Items(nodes);
    var parents := ParentsOf(known, links);
    MultipleParentsValid(nodes, parents);
    OneParentEach(known, links);
    assert (forall n :: n in nodes ==> |parents[n.item]| <= 1) <==> forall k :: k in known ==> |parents[k]| <= 1;
  }

  lemma ValidConcat(a: seq<Issue>, b: seq<Issue>)
    ensures Valid(a + b) <==> Valid(a) && Valid(b)
  {
    assert forall i :: i in a + b <==> i in a || i in b;
  }

  lemma CycleIssueValid(cycle: seq<Issue>, children: Relation)
    requires CycleIssue(cycle, children)
    ensures Valid(cycle) <==> !HasCycle(children)
  {
    if HasCycle(children) { assert cycle[0] in cycle; }
  }

  lemma AllPartsValid(g: Graph, nodes: seq<Node>, edges: seq<Edge>)
    requires GraphOf(g, nodes, edges)
    ensures var known := Items(nodes);
      g.validHierarchy <==>
        && Valid(SelfLinks(edges))
        && Valid(Orphans(Sorted(Missing(known, edges)), HierarchyMissing(known, edges)))
        && Valid(MultipleParents(nodes, ParentsOf(known, Links(edges))))
        && !HasCycle(ChildrenOf(known, Links(edges)))
  {
    var known := Items(nodes);
    var children := ChildrenOf(known, Links(edges));
    var selfLinks, shared := SelfLinks(edges), MultipleParents(nodes, ParentsOf(known, Links(edges)));
    var orphans := Orphans(Sorted(Missing(known, edges)), HierarchyMissing(known, edges));
    var cycle :| CycleIssue(cycle, children) && g.issues == selfLinks + orphans + shared + cycle;
    ValidConcat(selfLinks + orphans + shared, cycle);
    ValidConcat(selfLinks + orphans, shared);
    ValidConcat(selfLinks, orphans);
    CycleIssueValid(cycle, children);
  }

  /** `validHierarchy` holds exactly when the hierarchy links form a forest over the known nodes. */
  lemma ValidIffForest(g: Graph, nodes: seq<Node>, edges: seq<Edge>)
    requires GraphOf(g, nodes, edges)
    ensures g.validHierarchy <==> Forest(Items(nodes), Links(edges))
  {
    AllPartsValid(g, nodes, edges);
    SelfLinksValid(edges);
    OrphansValid(Items(nodes), edges);
    if Endpoints(Items(nodes), Links(edges)) {
      MultipleParentsMean(nodes, Links(edges));
    }
  }

  // ---- what each issue means -------------------------------------------------------------

  lemma {:induction false} SelfLinkListed(edges: seq<Edge>, k: Item)
    ensures Issue(SELF_LINK, HIERARCHY, [k]) in SelfLinks(edges) <==> (k, k) in Links(edges)
    decreases |edges|
  {
    if edges != [] {
      var n := |edges| - 1;
      var e, shorter := edges[n], edges[..n];
      SelfLinkListed(shorter, k);
      assert edges == shorter + [e];
      LinksOfLonger(shorter, e);
      if e.IsHierarchy() && e.Parent() == e.Child() {
        assert SelfLinks(edges) == SelfLinks(shorter) + [Issue(SELF_LINK, HIERARCHY, [e.Parent()])];
        assert Issue(SELF_LINK, HIERARCHY, [k]) == Issue(SELF_LINK, HIERARCHY, [e.Parent()])
          <==> [k][0] == [e.Parent()][0];
      } else {
        assert SelfLinks(edges) == SelfLinks(shorter);
      }
    }
  }

  lemma OrphanListed(listed: seq<Item>, hierarchyMissing: set<Item>, domain: Domain, k: Item)
    ensures Issue(ORPHAN, domain, [k]) in Orphans(listed, hierarchyMissing)
      <==> k in listed && domain == (if k in hierarchyMissing then HIERARCHY else RELATION)
  {
    var issues, wanted := Orphans(listed, hierarchyMissing), Issue(ORPHAN, domain, [k]);
    if wanted in issues {
      var i :| 0 <= i < |issues| && issues[i] == wanted;
      assert [listed[i]][0] == [k][0];
    }
    if k in listed && domain == (if k in hierarchyMissing then HIERARCHY else RELATION) {
      var i :| 0 <= i < |listed| && listed[i] == k;
      assert issues[i] == wanted;
    }
  }

  function SharedIssue(parents: Relation, k: Item): Issue
    requires k in parents
  {
    Issue(MULTIPLE_PARENTS, HIERARCHY, [k] + Sorted(parents[k]))
  }

  lemma SharedApart(parents: Relation, k: Item, key: Item)
    requires k in parents && key in parents
    ensures SharedIssue(parents, k) == SharedIssue(parents, key) <==> k == key
  {
    assert SharedIssue(parents, k).nodeKeys[0] == k && SharedIssue(parents, key).nodeKeys[0] == key;
  }

  lemma {:induction false} SharedListed(nodes: seq<Node>, parents: Relation, k: Item)
    requires k in parents && forall n :: n in nodes ==> n.item in parents
    ensures SharedIssue(parents, k) in MultipleParents(nodes, parents)
      <==> (exists n :: n in nodes && n.item == k) && |parents[k]| > 1
    decreases |nodes|
  {
    if nodes != [] {
      var last, shorter := nodes[|nodes| - 1], nodes[..|nodes| - 1];
      SharedListed(shorter, parents, k);
      assert nodes == shorter + [last];
      SharedApart(parents, k, last.item);
      assert MultipleParents(nodes, parents)
        == MultipleParents(shorter, parents)
          + (if |parents[last.item]| > 1 then [SharedIssue(parents, last.item)] else []);
    }
  }

  predicate AllOfKind(issues: seq<Issue>, kind: Kind) {
    forall i :: i in issues ==> i.kind == kind
  }

  lemma {:induction false} KindsApart(nodes: seq<Node>, parents: Relation, edges: seq<Edge>)
    requires forall n :: n in nodes ==> n.item in parents
    ensures AllOfKind(SelfLinks(edges), SELF_LINK) && AllOfKind(MultipleParents(nodes, parents), MULTIPLE_PARENTS)
    decreases |nodes| + |edges|
  {
    if nodes != [] {
      assert nodes == nodes[..|nodes| - 1] + [nodes[|nodes| - 1]];
      KindsApart(nodes[..|nodes| - 1], parents, edges);
    }
    if edges != [] {
      KindsApart(nodes, parents, edges[..|edges| - 1]);
    }
  }

  lemma ByKind(selfLinks: seq<Issue>, orphans: seq<Issue>, shared: seq<Issue>, cycle: seq<Issue>, i: Issue)
    requires AllOfKind(selfLinks, SELF_LINK) && AllOfKind(orphans, ORPHAN) && AllOfKind(shared, MULTIPLE_PARENTS)
    requires AllOfKind(cycle, CYCLE)
    ensures i in selfLinks + orphans + shared + cycle <==> match i.kind
      case SELF_LINK => i in selfLinks
      case ORPHAN => i in orphans
      case MULTIPLE_PARENTS => i in shared
      case CYCLE => i in cycle
  {
    assert i in selfLinks + orphans + shared + cycle <==> i in selfLinks || i in orphans || i in shared || i in cycle;
  }

  /** The issue list, in its four parts. */
  ghost predicate Parts(issues: seq<Issue>, selfLinks: seq<Issue>, orphans: seq<Issue>, shared: seq<Issue>,
                        children: Relation) {
    && AllOfKind(selfLinks, SELF_LINK) && AllOfKind(orphans, ORPHAN) && AllOfKind(shared, MULTIPLE_PARENTS)
    && exists cycle :: CycleIssue(cycle, children) && issues == selfLinks + orphans + shared + cycle
  }

  lemma PartsOf(g: Graph, nodes: seq<Node>, edges: seq<Edge>, parents: Relation)
    requires GraphOf(g, nodes, edges) && parents == ParentsOf(Items(nodes), Links(edges))
    ensures Parts(g.issues, SelfLinks(edges),
                  Orphans(Sorted(Missing(Items(nodes), edges)), HierarchyMissing(Items(nodes), edges)),
                  MultipleParents(nodes, parents), ChildrenOf(Items(nodes), Links(edges)))
  {
    KindsApart(nodes, parents, edges);
  }

  /** Where an issue of the list comes from. */
  lemma Listed(issues: seq<Issue>, selfLinks: seq<Issue>, orphans: seq<Issue>, shared: seq<Issue>, children: Relation,
               i: Issue)
    requires Parts(issues, selfLinks, orphans, shared, children)
    ensures i.kind == SELF_LINK ==> (i in issues <==> i in selfLinks)
    ensures i.kind == ORPHAN ==> (i in issues <==> i in orphans)
    ensures i.kind == MULTIPLE_PARENTS ==> (i in issues <==> i in shared)
    ensures i.kind == CYCLE && i in issues ==> HasCycle(children)
  {
    var cycle :| CycleIssue(cycle, children) && issues == selfLinks + orphans + shared + cycle;
    ByKind(selfLinks, orphans, shared, cycle, i);
  }

  lemma CycleListed(issues: seq<Issue>, selfLinks: seq<Issue>, orphans: seq<Issue>, shared: seq<Issue>,
                    children: Relation)
    requires Parts(issues, selfLinks, orphans, shared, children) && HasCycle(children)
    ensures exists i :: i in issues && i.kind == CYCLE && ClosedPath(children, i.nodeKeys)
  {
    var cycle :| CycleIssue(cycle, children) && issues == selfLinks + orphans + shared + cycle;
    assert cycle[0] in issues;
  }

  /** A key is listed as a self-link exactly when it is its own parent, and as an orphan exactly when an
      edge names it and no node does: of the hierarchy exactly when a hierarchy link names it. */
  lemma LinkIssuesMean(g: Graph, nodes: seq<Node>, edges: seq<Edge>, k: Item, domain: Domain)
    requires GraphOf(g, nodes, edges)
    ensures Issue(SELF_LINK, HIERARCHY, [k]) in g.issues <==> (k, k) in Links(edges)
    ensures Issue(ORPHAN, domain, [k]) in g.issues
      <==> && k in Missing(Items(nodes), edges)
           && domain == (if k in HierarchyMissing(Items(nodes), edges) then HIERARCHY else RELATION)
  {
    var known := Items(nodes);
    var parents, children := ParentsOf(known, Links(edges)), ChildrenOf(known, Links(edges));
    var orphans := Orphans(Sorted(Missing(known, edges)), HierarchyMissing(known, edges));
    PartsOf(g, nodes, edges, parents);
    Listed(g.issues, SelfLinks(edges), orphans, MultipleParents(nodes, parents), children,
           Issue(SELF_LINK, HIERARCHY, [k]));
    Listed(g.issues, SelfLinks(edges), orphans, MultipleParents(nodes, parents), children, Issue(ORPHAN, domain, [k]));
    SelfLinkListed(edges, k);
    OrphanListed(Sorted(Missing(known, edges)), HierarchyMissing(known, edges), domain, k);
  }

  lemma Described(nodes: seq<Node>, links: set<(Item, Item)>, parents: Relation, k: Item)
    requires parents == ParentsOf(Items(nodes), links) && k in parents
    ensures (forall n :: n in nodes ==> n.item in parents) && exists n :: n in nodes && n.item == k
  {
  }

  lemma SharedIn(issues: seq<Issue>, selfLinks: seq<Issue>, orphans: seq<Issue>, nodes: seq<Node>, parents: Relation,
                 children: Relation, k: Item)
    requires k in parents && (forall n :: n in nodes ==> n.item in parents) && (exists n :: n in nodes && n.item == k)
    requires Parts(issues, selfLinks, orphans, MultipleParents(nodes, parents), children)
    ensures SharedIssue(parents, k) in issues <==> |parents[k]| > 1
  {
    Listed(issues, selfLinks, orphans, MultipleParents(nodes, parents), children, SharedIssue(parents, k));
    SharedListed(nodes, parents, k);
  }

  /** A node is listed with all its parents, in order, exactly when it has more than one. */
  lemma SharedIssuesMean(g: Graph, nodes: seq<Node>, edges: seq<Edge>, parents: Relation, k: Item)
    requires GraphOf(g, nodes, edges) && parents == ParentsOf(Items(nodes), Links(edges)) && k in parents
    ensures SharedIssue(parents, k) in g.issues <==> |parents[k]| > 1
  {
    var known := Items(nodes);
    Described(nodes, Links(edges), parents, k);
    PartsOf(g, nodes, edges, parents);
    SharedIn(g.issues, SelfLinks(edges), Orphans(Sorted(Missing(known, edges)), HierarchyMissing(known, edges)), nodes,
             parents,
             ChildrenOf(known, Links(edges)), k);
  }

  /** A cycle is listed exactly when the child relation has one, and then as a closed path in it. */
  lemma CycleIssueMeans(g: Graph, nodes: seq<Node>, edges: seq<Edge>, children: Relation)
    requires GraphOf(g, nodes, edges) && children == ChildrenOf(Items(nodes), Links(edges))
    ensures (exists i :: i in g.issues && i.kind == CYCLE) <==> HasCycle(children)
    ensures HasCycle(children) ==> exists i :: i in g.issues && i.kind == CYCLE && ClosedPath(children, i.nodeKeys)
  {
    var known := Items(nodes);
    var parents := ParentsOf(known, Links(edges));
    var selfLinks, shared := SelfLinks(edges), MultipleParents(nodes, parents);
    var orphans := Orphans(Sorted(Missing(known, edges)), HierarchyMissing(known, edges));
    PartsOf(g, nodes, edges, parents);
    if HasCycle(children) {
      CycleListed(g.issues, selfLinks, orphans, shared, children);
    } else {
      forall i | i in g.issues ensures i.kind != CYCLE {
        Listed(g.issues, selfLinks, orphans, shared, children, i);
      }
    }
  }

  // ---- every node climbs to exactly one root ---------------------------------------------

  /** A path down the child relation from a root to `k`. */
  ghost predicate Descends(known: set<Item>, links: set<(Item, Item)>, q: seq<Item>, k: Item) {
    |q| > 0 && Walk(ChildrenOf(known, links), q) && q[|q| - 1] == k && q[0] in known
      && ParentsOf(known, links)[q[0]] == {}
  }

  ghost predicate Distinct(q: seq<Item>) {
    forall i, j :: 0 <= i < j < |q| ==> q[i] != q[j]
  }

  lemma {:induction false} DistinctFits(q: seq<Item>, known: set<Item>)
    requires Distinct(q) && forall i :: 0 <= i < |q| ==> q[i] in known
    ensures |q| <= |known|
    decreases |q|
  {
    if q != [] {
      var n := |q| - 1;
      DistinctFits(q[..n], known - {q[n]});
    }
  }

  lemma WalkPrepends(children: Relation, x: Item, q: seq<Item>)
    requires |q| > 0 && Walk(children, q) && Link(children, x, q[0])
    ensures Walk(children, [x] + q)
    ensures forall i :: 0 <= i < |q| && q[i] == x ==> ClosedPath(children, [x] + q[..i + 1])
  {
    var longer := [x] + q;
    forall i, j | 0 <= i && j == i + 1 < |longer|
      ensures Link(children, longer[i], longer[j])
    {
      if i > 0 { assert Link(children, q[i - 1], q[j - 1]); }
    }
    forall i | 0 <= i < |q| && q[i] == x
      ensures ClosedPath(children, [x] + q[..i + 1])
    {
      var p := [x] + q[..i + 1];
      assert p == longer[..i + 2];
    }
  }

  lemma {:induction false} ClimbToRoot(known: set<Item>, links: set<(Item, Item)>, q: seq<Item>,
                                       k: Item) returns (path: seq<Item>)
    requires Forest(known, links)
    requires |q| > 0 && Walk(ChildrenOf(known, links), q) && q[|q| - 1] == k && Distinct(q)
    requires forall i :: 0 <= i < |q| ==> q[i] in known
    ensures Descends(known, links, path, k)
    decreases |known| - |q|
  {
    var children, parents := ChildrenOf(known, links), ParentsOf(known, links);
    if parents[q[0]] == {} {
      path := q;
    } else {
      var x :| x in parents[q[0]];
      assert (x, q[0]) in links;
      assert Link(children, x, q[0]);
      WalkPrepends(children, x, q);
      forall i | 0 <= i < |q|
        ensures q[i] != x
      {
        if q[i] == x {
          assert HasCycle(children);
        }
      }
      assert Distinct([x] + q);
      DistinctFits([x] + q, known);
      path := ClimbToRoot(known, links, [x] + q, k);
    }
  }

  lemma {:induction false} DescentIsUnique(known: set<Item>, links: set<(Item, Item)>, p: seq<Item>, q: seq<Item>,
                                           k: Item)
    requires Forest(known, links) && Descends(known, links, p, k) && Descends(known, links, q, k)
    ensures p == q
    decreases |p|
  {
    var children, parents := ChildrenOf(known, links), ParentsOf(known, links);
    var n, m := |p| - 1, |q| - 1;
    if n > 0 {
      assert Link(children, p[n - 1], p[n]);
      assert (p[n - 1], k) in links && p[n - 1] in parents[k];
    }
    if m > 0 {
      assert Link(children, q[m - 1], q[m]);
      assert (q[m - 1], k) in links && q[m - 1] in parents[k];
    }
    if n > 0 && m > 0 {
      assert p[n - 1] == q[m - 1];
      assert Walk(children, p[..n]) && Walk(children, q[..m]);
      DescentIsUnique(known, links, p[..n], q[..m], p[n - 1]);
      assert p == p[..n] + [k] && q == q[..m] + [k];
    }
  }

  /** `roots` lists exactly the known nodes without a parent link. */
  lemma RootsAreParentless(g: Graph, nodes: seq<Node>, edges: seq<Edge>, r: Item)
    requires GraphOf(g, nodes, edges)
    ensures r in g.roots <==> r in Items(nodes) && forall l :: l in Links(edges) ==> l.1 != r
  {
    if r in Items(nodes) {
      var up := ParentsOf(Items(nodes), Links(edges))[r];
      assert r in g.roots <==> up == {};
      if l :| l in Links(edges) && l.1 == r { assert l.0 in up; }
    }
  }

  lemma NodeHasRoot(known: set<Item>, links: set<(Item, Item)>, roots: seq<Item>, k: Item)
    requires Forest(known, links) && k in known && roots == RootsOf(Sorted(known), ParentsOf(known, links))
    ensures exists q :: Descends(known, links, q, k) && q[0] in roots
  {
    var top := ClimbToRoot(known, links, [k], k);
    assert top[0] in Sorted(known);
  }

  /** In a valid hierarchy every known node hangs from exactly one entry of `roots`, by exactly one
      chain of parent links. */
  lemma EveryNodeHasOneRoot(g: Graph, nodes: seq<Node>, edges: seq<Edge>, k: Item)
    requires GraphOf(g, nodes, edges) && g.validHierarchy && k in Items(nodes)
    ensures exists q :: Descends(Items(nodes), Links(edges), q, k) && q[0] in g.roots
    ensures forall p, q :: Descends(Items(nodes), Links(edges), p, k) && Descends(Items(nodes), Links(edges), q, k) ==>
      p == q
  {
    var known, links := Items(nodes), Links(edges);
    ValidIffForest(g, nodes, edges);
    NodeHasRoot(known, links, g.roots, k);
    forall p, q | Descends(known, links, p, k) && Descends(known, links, q, k)
      ensures p == q
    {
      DescentIsUnique(known, links, p, q, k);
    }
  }
}
