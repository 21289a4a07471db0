/** The depth-first search of the graph builder: an explicit stack of frames, a map of colours and
    the index of every active key. It reports a cycle exactly when the child relation has one. */
module KnowledgeCycles {
  import opened Wrappers
  import opened KnowledgeGraph

  predicate Link(children: Relation, a: Item, b: Item) {
    a in children && b in children[a]
  }

  ghost predicate Walk(children: Relation, p: seq<Item>) {
    forall i, j :: 0 <= i && j == i + 1 < |p| ==> Link(children, p[i], p[j])
  }

  /** A walk of at least one step that comes back to where it started. */
  ghost predicate ClosedPath(children: Relation, p: seq<Item>) {
    |p| >= 2 && p[0] == p[|p| - 1] && Walk(children, p)
  }

  ghost predicate HasCycle(children: Relation) {
    exists p :: ClosedPath(children, p)
  }

  datatype Color = ACTIVE | DONE

  datatype Frame = Frame(key: Item, next: nat, targets: seq<Item>)

  function Keys(stack: seq<Frame>): seq<Item> {
    seq(|stack|, i requires 0 <= i < |stack| => stack[i].key)
  }

  // ---- the search invariant --------------------------------------------------------------

  ghost predicate FrameOk(children: Relation, f: Frame) {
    f.key in children && f.targets == Sorted(children[f.key]) && f.next <= |f.targets|
  }

  ghost predicate SlotOk(children: Relation, stack: seq<Frame>, active: map<Item, nat>, i: int) {
    0 <= i < |stack| ==> FrameOk(children, stack[i]) && stack[i].key in active && active[stack[i].key] == i
  }

  ghost predicate IndexOk(stack: seq<Frame>, active: map<Item, nat>, k: Item) {
    k in active ==> active[k] < |stack| && stack[active[k]].key == k
  }

  ghost predicate ColorOk(children: Relation, colors: map<Item, Color>, active: map<Item, nat>, k: Item) {
    && (k in colors ==> k in children && (colors[k].ACTIVE? <==> k in active))
    && (k in active ==> k in colors)
  }

  /** The stack holds exactly the active keys, each at the index the map records. */
  ghost predicate StackOk(children: Relation, colors: map<Item, Color>, stack: seq<Frame>, active: map<Item, nat>) {
    && (forall i :: SlotOk(children, stack, active, i))
    && (forall k :: IndexOk(stack, active, k))
    && (forall k :: ColorOk(children, colors, active, k))
  }

  /** The frame `above` was pushed from the target its predecessor `f` is at. */
  ghost predicate PushedFrom(f: Frame, above: Item) {
    0 < f.next <= |f.targets| && f.targets[f.next - 1] == above
  }

  ghost predicate StackLinked(stack: seq<Frame>) {
    forall i, j :: 0 <= i && j == i + 1 < |stack| ==> PushedFrom(stack[i], stack[j].key)
  }

  /** Finished keys are ranked in finishing order; without a reported cycle, children rank lower. */
  ghost predicate Ranked(children: Relation, colors: map<Item, Color>, rank: map<Item, nat>, cycle: Option<seq<Item>>) {
    && (forall k :: k in rank <==> k in colors && colors[k].DONE?)
    && (forall k :: k in rank ==> rank[k] < |rank|)
    && (cycle.None? ==> forall u, v :: u in rank && Link(children, u, v) && v in children ==>
          v in rank && rank[v] < rank[u])
  }

  /** The first `n` targets of a frame are finished (or are no known keys). */
  ghost predicate Behind(children: Relation, f: Frame, n: int, rank: map<Item, nat>) {
    forall j :: 0 <= j < n && j < |f.targets| && f.targets[j] in children ==> f.targets[j] in rank
  }

  /** Every frame has finished what it passed; the target a lower frame is at is searched above it. */
  ghost predicate Passed(children: Relation, stack: seq<Frame>, rank: map<Item, nat>) {
    forall i :: 0 <= i < |stack| ==>
      Behind(children, stack[i], stack[i].next - (if i + 1 < |stack| then 1 else 0), rank)
  }

  ghost predicate SearchInv(children: Relation, colors: map<Item, Color>, stack: seq<Frame>, active: map<Item, nat>,
                            rank: map<Item, nat>, cycle: Option<seq<Item>>) {
    && StackOk(children, colors, stack, active)
    && StackLinked(stack)
    && Ranked(children, colors, rank, cycle)
    && (cycle.None? ==> Passed(children, stack, rank))
    && (cycle.Some? ==> ClosedPath(children, cycle.value))
  }

  // ---- why the search is complete --------------------------------------------------------

  /** Along a walk that respects a ranking, the rank falls. */
  lemma {:induction false} RankFalls(children: Relation, rank: map<Item, nat>, p: seq<Item>)
    requires |p| >= 2 && Walk(children, p) && (forall i :: 0 <= i < |p| ==> p[i] in rank)
    requires forall u, v :: u in rank && Link(children, u, v) && v in rank ==> rank[v] < rank[u]
    ensures rank[p[|p| - 1]] < rank[p[0]]
    decreases |p|
  {
    var n := |p| - 1;
    assert Link(children, p[n - 1], p[n]);
    if n > 1 {
      RankFalls(children, rank, p[..n]);
    }
  }

  lemma RankedHasNoCycle(children: Relation, rank: map<Item, nat>)
    requires rank.Keys == children.Keys
    requires forall u, v :: u in rank && Link(children, u, v) && v in children ==> v in rank && rank[v] < rank[u]
    ensures !HasCycle(children)
  {
    forall p | ClosedPath(children, p)
      ensures false
    {
      forall i | 0 <= i < |p|
        ensures p[i] in rank
      {
        if i + 1 < |p| { assert Link(children, p[i], p[i + 1]); } else { assert Link(children, p[0], p[1]); }
      }
      RankFalls(children, rank, p);
    }
  }

  // ---- why a reported cycle is real ------------------------------------------------------

  /** The stack from the active target up to the top, closed by the target, is a closed path. */
  lemma StackSliceCloses(children: Relation, colors: map<Item, Color>, stack: seq<Frame>, active: map<Item, nat>,
                         target: Item)
    requires StackOk(children, colors, stack, active) && StackLinked(stack)
    requires stack != [] && Link(children, stack[|stack| - 1].key, target)
    requires target in active && active[target] < |stack|
    ensures ClosedPath(children, Keys(stack[active[target]..]) + [target])
  {
    var from := active[target];
    assert IndexOk(stack, active, target);
    var p := Keys(stack[from..]) + [target];
    forall i, j | 0 <= i && j == i + 1 < |p|
      ensures Link(children, p[i], p[j])
    {
      if j < |p| - 1 {
        var f := stack[from + i];
        assert SlotOk(children, stack, active, from + i);
        assert PushedFrom(f, stack[from + j].key);
      }
    }
  }

  // ---- the moves of the search -----------------------------------------------------------

  lemma PopStack(children: Relation, colors: map<Item, Color>, stack: seq<Frame>, active: map<Item, nat>)
    requires StackOk(children, colors, stack, active) && StackLinked(stack) && stack != []
    ensures var top := stack[|stack| - 1];
      StackOk(children, colors[top.key := DONE], stack[..|stack| - 1], active - {top.key})
        && StackLinked(stack[..|stack| - 1])
  {
    var n := |stack| - 1;
    var top, rest := stack[n], stack[..n];
    var colors', active' := colors[top.key := DONE], active - {top.key};
    assert SlotOk(children, stack, active, n);
    forall i
      ensures SlotOk(children, rest, active', i)
    {
      assert SlotOk(children, stack, active, i);
    }
    forall k
      ensures IndexOk(rest, active', k) && ColorOk(children, colors', active', k)
    {
      assert IndexOk(stack, active, k) && ColorOk(children, colors, active, k);
      assert ColorOk(children, colors, active, top.key);
    }
    forall i, j | 0 <= i && j == i + 1 < n
      ensures PushedFrom(rest[i], rest[j].key)
    {
      assert PushedFrom(stack[i], stack[j].key);
    }
  }

  lemma PopRank(children: Relation, colors: map<Item, Color>, top: Frame, rank: map<Item, nat>,
                cycle: Option<seq<Item>>)
    requires FrameOk(children, top) && top.next == |top.targets| && top.key !in rank
    requires Ranked(children, colors, rank, cycle)
    requires cycle.None? ==> Behind(children, top, top.next, rank)
    ensures Ranked(children, colors[top.key := DONE], rank[top.key := |rank|], cycle)
  {
    var rank' := rank[top.key := |rank|];
    assert |rank'| == |rank| + 1;
    if cycle.None? {
      forall u, v | u in rank' && Link(children, u, v) && v in children
        ensures v in rank' && rank'[v] < rank'[u]
      {
        if u == top.key {
          var j :| 0 <= j < |top.targets| && top.targets[j] == v;
        }
      }
    }
  }

  lemma PopPassed(children: Relation, stack: seq<Frame>, rank: map<Item, nat>, r: nat)
    requires stack != [] && StackLinked(stack) && Passed(children, stack, rank)
    ensures Passed(children, stack[..|stack| - 1], rank[stack[|stack| - 1].key := r])
  {
    var n := |stack| - 1;
    var rest, rank' := stack[..n], rank[stack[n].key := r];
    forall i | 0 <= i < n
      ensures Behind(children, rest[i], rest[i].next - (if i + 1 < n then 1 else 0), rank')
    {
      assert Behind(children, stack[i], stack[i].next - 1, rank);
      if i + 1 == n {
        assert PushedFrom(stack[i], stack[n].key);
      }
    }
  }

  lemma PopKeeps(children: Relation, colors: map<Item, Color>, stack: seq<Frame>, active: map<Item, nat>,
                 rank: map<Item, nat>, cycle: Option<seq<Item>>)
    requires SearchInv(children, colors, stack, active, rank, cycle)
    requires stack != [] && stack[|stack| - 1].next == |stack[|stack| - 1].targets|
    ensures var top := stack[|stack| - 1];
      SearchInv(children, colors[top.key := DONE], stack[..|stack| - 1], active - {top.key}, rank[top.key := |rank|],
                cycle)
  {
    var n := |stack| - 1;
    var top := stack[n];
    assert SlotOk(children, stack, active, n) && ColorOk(children, colors, active, top.key);
    PopStack(children, colors, stack, active);
    PopRank(children, colors, top, rank, cycle);
    if cycle.None? { PopPassed(children, stack, rank, |rank|); }
  }

  function Advanced(stack: seq<Frame>): seq<Frame>
    requires stack != []
  {
    stack[|stack| - 1 := stack[|stack| - 1].(next := stack[|stack| - 1].next + 1)]
  }

  lemma AdvanceStack(children: Relation, colors: map<Item, Color>, stack: seq<Frame>, active: map<Item, nat>)
    requires StackOk(children, colors, stack, active) && StackLinked(stack)
    requires stack != [] && stack[|stack| - 1].next < |stack[|stack| - 1].targets|
    ensures StackOk(children, colors, Advanced(stack), active) && StackLinked(Advanced(stack))
  {
    var stack' := Advanced(stack);
    forall i
      ensures SlotOk(children, stack', active, i)
    {
      assert SlotOk(children, stack, active, i);
    }
    forall k
      ensures IndexOk(stack', active, k)
    {
      assert IndexOk(stack, active, k);
    }
    forall i, j | 0 <= i && j == i + 1 < |stack|
      ensures PushedFrom(stack'[i], stack'[j].key)
    {
      assert PushedFrom(stack[i], stack[j].key);
    }
  }

  /** Moving a frame past a target that needs no visit. */
  lemma SkipKeeps(children: Relation, colors: map<Item, Color>, stack: seq<Frame>, active: map<Item, nat>,
                  rank: map<Item, nat>, cycle: Option<seq<Item>>)
    requires SearchInv(children, colors, stack, active, rank, cycle)
    requires stack != [] && stack[|stack| - 1].next < |stack[|stack| - 1].targets|
    requires var top := stack[|stack| - 1]; var target := top.targets[top.next];
      cycle.None? ==> target !in children || target in rank
    ensures SearchInv(children, colors, Advanced(stack), active, rank, cycle)
  {
    var n := |stack| - 1;
    var stack' := Advanced(stack);
    AdvanceStack(children, colors, stack, active);
    if cycle.None? {
      forall i | 0 <= i <= n
        ensures Behind(children, stack'[i], stack'[i].next - (if i + 1 < |stack'| then 1 else 0), rank)
      {
        assert Behind(children, stack[i], stack[i].next - (if i + 1 < |stack| then 1 else 0), rank);
      }
    }
  }

  lemma PushStack(children: Relation, colors: map<Item, Color>, stack: seq<Frame>, active: map<Item, nat>, f: Frame)
    requires StackOk(children, colors, stack, active) && StackLinked(stack) && stack != []
    requires FrameOk(children, f) && f.key !in colors && PushedFrom(stack[|stack| - 1], f.key)
    ensures StackOk(children, colors[f.key := ACTIVE], stack + [f], active[f.key := |stack|])
    ensures StackLinked(stack + [f])
  {
    var colors', stack', active' := colors[f.key := ACTIVE], stack + [f], active[f.key := |stack|];
    assert ColorOk(children, colors, active, f.key);
    forall i
      ensures SlotOk(children, stack', active', i)
    {
      assert SlotOk(children, stack, active, i);
    }
    forall k
      ensures IndexOk(stack', active', k) && ColorOk(children, colors', active', k)
    {
      assert IndexOk(stack, active, k) && ColorOk(children, colors, active, k);
    }
    forall i, j | 0 <= i && j == i + 1 < |stack'|
      ensures PushedFrom(stack'[i], stack'[j].key)
    {
      if j < |stack| { assert PushedFrom(stack[i], stack[j].key); }
    }
  }

  lemma PushKeeps(children: Relation, colors: map<Item, Color>, stack: seq<Frame>, active: map<Item, nat>,
                  rank: map<Item, nat>, cycle: Option<seq<Item>>)
    requires SearchInv(children, colors, stack, active, rank, cycle)
    requires stack != [] && stack[|stack| - 1].next < |stack[|stack| - 1].targets|
    requires var top := stack[|stack| - 1]; var target := top.targets[top.next]; target in children && target !in colors
    ensures var top := stack[|stack| - 1]; var target := top.targets[top.next];
      SearchInv(children, colors[target := ACTIVE], Advanced(stack) + [Frame(target, 0, Sorted(children[target]))],
                active[target := |stack|], rank, cycle)
  {
    var n := |stack| - 1;
    var target := stack[n].targets[stack[n].next];
    var f := Frame(target, 0, Sorted(children[target]));
    var stack' := Advanced(stack) + [f];
    AdvanceStack(children, colors, stack, active);
    PushStack(children, colors, Advanced(stack), active, f);
    if cycle.None? {
      forall i | 0 <= i < |stack'|
        ensures Behind(children, stack'[i], stack'[i].next - (if i + 1 < |stack'| then 1 else 0), rank)
      {
        if i <= n {
          assert Behind(children, stack[i], stack[i].next - (if i + 1 < |stack| then 1 else 0), rank);
        }
      }
    }
  }

  lemma StartStack(children: Relation, colors: map<Item, Color>, root: Item)
    requires StackOk(children, colors, [], map[])
    requires root in children && root !in colors
    ensures StackOk(children, colors[root := ACTIVE], [Frame(root, 0, Sorted(children[root]))], map[root := 0])
  {
    var stack := [Frame(root, 0, Sorted(children[root]))];
    var active: map<Item, nat> := map[root := 0];
    forall i
      ensures SlotOk(children, stack, active, i)
    {
      if i == 0 { assert FrameOk(children, stack[0]); }
    }
    var none: map<Item, nat> := map[];
    var colors' := colors[root := ACTIVE];
    forall k
      ensures ColorOk(children, colors', active, k)
    {
      assert ColorOk(children, colors, none, k);
    }
    assert forall k :: k in active ==> IndexOk(stack, active, k);
  }

  lemma StartKeeps(children: Relation, colors: map<Item, Color>, rank: map<Item, nat>, cycle: Option<seq<Item>>,
                   root: Item)
    requires SearchInv(children, colors, [], map[], rank, cycle)
    requires root in children && root !in colors
    ensures SearchInv(children, colors[root := ACTIVE], [Frame(root, 0, Sorted(children[root]))], map[root := 0], rank,
                      cycle)
  {
    StartStack(children, colors, root);
  }

  lemma EmptyStack(children: Relation, colors: map<Item, Color>, active: map<Item, nat>)
    requires StackOk(children, colors, [], active)
    ensures active == map[] && forall k :: k in colors ==> k in children && colors[k].DONE?
  {
    assert forall k :: k in active ==> IndexOk([], active, k);
    forall k | k in colors
      ensures k in children && colors[k].DONE?
    {
      assert ColorOk(children, colors, active, k);
    }
  }

  // ---- the search ------------------------------------------------------------------------

  lemma NothingSearched(children: Relation)
    ensures SearchInv(children, map[], [], map[], map[], None)
  {
  }

  /** When every node was visited and no cycle was found, the order in which they were finished shows
      that there is none. */
  lemma Conclude(children: Relation, colors: map<Item, Color>, rank: map<Item, nat>, roots: seq<Item>,
                 cycle: Option<seq<Item>>)
    requires SearchInv(children, colors, [], map[], rank, cycle)
    requires forall i :: 0 <= i < |roots| ==> roots[i] in colors
    requires forall k :: k in children ==> k in roots
    ensures cycle.Some? <==> HasCycle(children)
    ensures cycle.Some? ==> ClosedPath(children, cycle.value)
  {
    if cycle.None? {
      EmptyStack(children, colors, map[]);
      assert rank.Keys == children.Keys;
      RankedHasNoCycle(children, rank);
    }
  }

  /** Returns the key list of the first back edge found, if any. */
  method FindCycle(known: set<Item>, children: Relation) returns (cycle: Option<seq<Item>>)
    requires children.Keys == known
    ensures cycle.Some? <==> HasCycle(children)
    ensures cycle.Some? ==> ClosedPath(children, cycle.value)
  {
    var roots := Sorted(known);
    var colors;
    ghost var rank;
    colors, rank, cycle := SearchAll(children, roots);
    assert forall k :: k in children ==> k in roots;
    Conclude(children, colors, rank, roots, cycle);
  }

  /** The search from every root that was not visited yet. */
  method SearchAll(children: Relation, roots: seq<Item>) returns (colors: map<Item, Color>, ghost rank: map<Item, nat>,
                                                                  cycle: Option<seq<Item>>)
    requires forall i :: 0 <= i < |roots| ==> roots[i] in children
    ensures SearchInv(children, colors, [], map[], rank, cycle) == true
    ensures forall i :: 0 <= i < |roots| ==> roots[i] in colors
  {
    colors, rank, cycle := map[], map[], None;
    NothingSearched(children);
    for r := 0 to |roots|
      invariant SearchInv(children, colors, [], map[], rank, cycle) == true
      invariant forall i :: 0 <= i < r ==> roots[i] in colors
    {
      if roots[r] in colors { continue; }
      colors, rank, cycle := SearchFrom(children, roots[r], colors, rank, cycle);
    }
  }

  /** One tree of the search, from a root that has no colour yet. */
  method SearchFrom(children: Relation, root: Item, colors0: map<Item, Color>, ghost rank0: map<Item, nat>,
                    cycle0: Option<seq<Item>>)
    returns (colors: map<Item, Color>, ghost rank: map<Item, nat>, cycle: Option<seq<Item>>)
    requires root in children && root !in colors0
    requires SearchInv(children, colors0, [], map[], rank0, cycle0)
    ensures SearchInv(children, colors, [], map[], rank, cycle)
    ensures root in colors && colors0.Keys <= colors.Keys
  {
    StartKeeps(children, colors0, rank0, cycle0, root);
    var stack := [Frame(root, 0, Sorted(children[root]))];
    var active: map<Item, nat> := map[root := 0];
    colors, rank, cycle := colors0[root := ACTIVE], rank0, cycle0;
    while stack != []
      invariant SearchInv(children, colors, stack, active, rank, cycle)
      invariant root in colors && colors0.Keys <= colors.Keys
      decreases children.Keys - colors.Keys, |stack|, Remaining(stack)
    {
      colors, stack, active, rank, cycle := Turn(children, colors, stack, active, rank, cycle);
    }
    EmptyStack(children, colors, active);
  }

  function Remaining(stack: seq<Frame>): int {
    if stack == [] then 0 else |stack[|stack| - 1].targets| - stack[|stack| - 1].next
  }

  /** One turn of the search loop: the top frame is finished, or looks at its next target. */
  method Turn(children: Relation, colors: map<Item, Color>, stack: seq<Frame>, active: map<Item, nat>,
              ghost rank: map<Item, nat>, cycle: Option<seq<Item>>)
    returns (colors': map<Item, Color>, stack': seq<Frame>, active': map<Item, nat>, ghost rank': map<Item, nat>,
             cycle': Option<seq<Item>>)
    requires SearchInv(children, colors, stack, active, rank, cycle) && stack != []
    ensures SearchInv(children, colors', stack', active', rank', cycle')
    ensures colors.Keys <= colors'.Keys
    ensures || children.Keys - colors'.Keys < children.Keys - colors.Keys
            || (colors'.Keys == colors.Keys && |stack'| < |stack|)
            || (colors'.Keys == colors.Keys && |stack'| == |stack| && 0 <= Remaining(stack') < Remaining(stack))
  {
    var n := |stack| - 1;
    var frame := stack[n];
    assert SlotOk(children, stack, active, n);
    if frame.next == |frame.targets| {
      assert ColorOk(children, colors, active, frame.key);
      PopKeeps(children, colors, stack, active, rank, cycle);
      return colors[frame.key := DONE], stack[..n], active - {frame.key}, rank[frame.key := |rank|], cycle;
    }
    var target := frame.targets[frame.next];
    assert target in Sorted(children[frame.key]);
    assert ColorOk(children, colors, active, target) && IndexOk(stack, active, target);
    if target in children && target !in colors {
      PushKeeps(children, colors, stack, active, rank, cycle);
      return colors[target := ACTIVE], Advanced(stack) + [Frame(target, 0, Sorted(children[target]))],
        active[target := |stack|], rank, cycle;
    }
    cycle' := cycle;
    if target in colors && colors[target].ACTIVE? && cycle.None? {
      StackSliceCloses(children, colors, stack, active, target);
      cycle' := Some(Keys(stack[active[target]..]) + [target]);
    }
    SkipKeeps(children, colors, stack, active, rank, cycle');
    colors', stack', active', rank' := colors, Advanced(stack), active, rank;
  }
}
