/** Nodes, pods and slot counting (internal/k8s.go), and the pod time facts (internal/contract.go). */
module Cluster {
  import opened Base

  datatype Phase = NoPhase | PodPending | PodRunning | PodSucceeded | PodFailed | PodUnknown {
    predicate Terminal() { PodSucceeded? || PodFailed? }
  }

  datatype ContainerStatus = ContainerStatus(
    name: string, running: bool, runningStarted: Option<int>, terminated: bool, terminatedAt: Option<int>)

  /** `board` and `provider` are both the pod's labels and its nodeSelector; "" is an absent label. */
  datatype Pod = Pod(
    board: string, provider: string, entity: Option<Id>, phase: Phase, node: string, created: int,
    containers: seq<ContainerStatus>, initContainers: seq<ContainerStatus>,
    ready: Option<int>, deadlinePatched: bool)

  datatype Node = Node(name: string, board: string, provider: string, slots: Option<nat>)

  type Pods = map<string, Pod>

  function NewPod(sel: NodeSelector, entity: Id, now: int): Pod {
    Pod(sel.board, sel.provider, Some(entity), PodPending, "", now, [], [], None, false)
  }

  // ---- what a slot lookup counts ----

  /** The Kubernetes label selector sel.Key(). */
  predicate InPool(n: Node, sel: NodeSelector) {
    n.board == sel.board && (sel.provider == "" || n.provider == sel.provider)
  }

  function PoolNames(nodes: seq<Node>, sel: NodeSelector): set<string> {
    set n | n in nodes && InPool(n, sel) :: n.name
  }

  function Total(nodes: seq<Node>, sel: NodeSelector): nat {
    if nodes == [] then 0
    else
      var last := nodes[|nodes| - 1];
      Total(nodes[..|nodes| - 1], sel) + if InPool(last, sel) then Or(last.slots, 0) else 0
  }

  predicate Counts(p: Pod, nodes: seq<Node>, sel: NodeSelector) {
    && !p.phase.Terminal()
    && if p.node == "" then
         p.board == sel.board && (sel.provider == "" || p.provider == sel.provider || p.provider == "")
       else p.node in PoolNames(nodes, sel)
  }

  function ActivePods(pods: Pods, nodes: seq<Node>, sel: NodeSelector): set<string> {
    set n | n in pods && Counts(pods[n], nodes, sel)
  }

  function ActivePodsOf(pods: Pods, nodes: seq<Node>, sel: NodeSelector, entity: Id): set<string> {
    set n | n in pods && Counts(pods[n], nodes, sel) && pods[n].entity == Some(entity)
  }

  /** Active pods keyed by entity; only entities with at least one appear. */
  function Loads(pods: Pods, nodes: seq<Node>, sel: NodeSelector): map<Id, int> {
    map e | e in Owners(pods, ActivePods(pods, nodes, sel)) :: |ActivePodsOf(pods, nodes, sel, e)|
  }

  function Owners(pods: Pods, names: set<string>): set<Id> {
    set n | n in names && n in pods && pods[n].entity.Some? :: pods[n].entity.value
  }

  ghost predicate Bounded(pods: Pods, nodes: seq<Node>, sel: NodeSelector) {
    |ActivePods(pods, nodes, sel)| <= Total(nodes, sel)
  }

  // ---- the same, told pod by pod and node by node ----

  /** The pod runs, or is about to, on a node with the selector's board and, if set, provider. */
  ghost predicate Occupies(p: Pod, nodes: seq<Node>, sel: NodeSelector) {
    && p.phase != PodSucceeded && p.phase != PodFailed && p.node != ""
    && exists n :: n in nodes && n.name == p.node && n.board == sel.board
                   && (sel.provider == "" || n.provider == sel.provider)
  }

  /** The pod has no node yet and could be meant for the selector. */
  predicate Awaits(p: Pod, sel: NodeSelector) {
    && p.phase != PodSucceeded && p.phase != PodFailed && p.node == ""
    && p.board == sel.board && (sel.provider == "" || p.provider == "" || p.provider == sel.provider)
  }

  ghost function Occupants(pods: Pods, nodes: seq<Node>, sel: NodeSelector): set<string> {
    set n | n in pods && Occupies(pods[n], nodes, sel)
  }

  ghost function Waiting(pods: Pods, sel: NodeSelector): set<string> {
    set n | n in pods && Awaits(pods[n], sel)
  }

  /** Exactly what a slot lookup counts: the pods on the selector's nodes and those waiting for one. */
  lemma CountedPods(pods: Pods, nodes: seq<Node>, sel: NodeSelector)
    ensures forall n :: n in pods ==>
      (n in ActivePods(pods, nodes, sel) <==> Occupies(pods[n], nodes, sel) || Awaits(pods[n], sel))
    ensures |ActivePods(pods, nodes, sel)| == |Occupants(pods, nodes, sel)| + |Waiting(pods, sel)|
    ensures forall e :: (
      ActivePodsOf(pods, nodes, sel, e) == set n | n in ActivePods(pods, nodes, sel) && pods[n].entity == Some(e))
  {
    assert ActivePods(pods, nodes, sel) == Occupants(pods, nodes, sel) + Waiting(pods, sel);
  }

  /** Slots add up over nodes, and a node gives its slots to the selectors it satisfies. */
  lemma {:induction false} TotalAddsUp(a: seq<Node>, b: seq<Node>, sel: NodeSelector)
    ensures Total(a + b, sel) == Total(a, sel) + Total(b, sel)
    ensures forall n: Node :: (
      Total([n], sel) == if n.board == sel.board && (sel.provider == "" || n.provider == sel.provider) && n.slots.Some?
                         then n.slots.value else 0)
  {
    forall n: Node ensures Total([n], sel) == if InPool(n, sel) then Or(n.slots, 0) else 0 {
      assert [n][..0] == [];
    }
    if b == [] {
      assert a + b == a;
    } else {
      assert (a + b)[..|a + b| - 1] == a + b[..|b| - 1];
      TotalAddsUp(a, b[..|b| - 1], sel);
    }
  }

  // ---- all providers of a board together ----

  /** Each unfinished pod that has a node has one its own nodeSelector allows. */
  ghost predicate Seated(pods: Pods, nodes: seq<Node>) {
    forall n :: n in pods && pods[n].node != "" ==>
      exists m :: m in nodes && m.name == pods[n].node && m.board == pods[n].board
                  && (pods[n].provider == "" || m.provider == pods[n].provider)
  }

  ghost function PodsOfBoard(pods: Pods, board: string, providers: set<string>): set<string> {
    set n | n in pods && !pods[n].phase.Terminal() && pods[n].board == board && pods[n].provider in providers
  }

  function SlotsOfBoard(nodes: seq<Node>, board: string, providers: set<string>): nat {
    if nodes == [] then 0
    else
      var last := nodes[|nodes| - 1];
      SlotsOfBoard(nodes[..|nodes| - 1], board, providers) +
      if last.board == board && last.provider in providers then Or(last.slots, 0) else 0
  }

  lemma {:induction false} SplitProvider(nodes: seq<Node>, board: string, providers: set<string>, p: string)
    requires p in providers && p != ""
    ensures SlotsOfBoard(nodes, board, providers) ==
            SlotsOfBoard(nodes, board, providers - {p}) + Total(nodes, NodeSelector(board, p))
    ensures SlotsOfBoard(nodes, board, providers) <= Total(nodes, NodeSelector(board, ""))
  {
    if nodes != [] {
      SplitProvider(nodes[..|nodes| - 1], board, providers, p);
    }
  }

  /** A pod of a provider-bound selector counts against it whether or not it has a node. */
  lemma SeatedPodsCount(pods: Pods, nodes: seq<Node>, sel: NodeSelector)
    requires Seated(pods, nodes) && sel.ProviderBound()
    ensures PodsOfBoard(pods, sel.board, {sel.provider}) <= ActivePods(pods, nodes, sel)
  {
    CountedPods(pods, nodes, sel);
  }

  lemma {:induction false} ProvidersAddUp(pods: Pods, nodes: seq<Node>, board: string, providers: set<string>)
    requires Seated(pods, nodes) && board != "" && "" !in providers
    requires forall p :: p in providers ==> Bounded(pods, nodes, NodeSelector(board, p))
    ensures |PodsOfBoard(pods, board, providers)| <= SlotsOfBoard(nodes, board, providers)
    decreases |providers|
  {
    if p :| p in providers {
      var rest := providers - {p};
      ProvidersAddUp(pods, nodes, board, rest);
      SplitProvider(nodes, board, providers, p);
      SeatedPodsCount(pods, nodes, NodeSelector(board, p));
      var mine := PodsOfBoard(pods, board, {p});
      SubsetCount(mine, ActivePods(pods, nodes, NodeSelector(board, p)));
      assert PodsOfBoard(pods, board, providers) == PodsOfBoard(pods, board, rest) + mine;
    } else {
      assert PodsOfBoard(pods, board, providers) == {};
    }
  }

  lemma BoardPods(pods: Pods, nodes: seq<Node>, board: string, providers: set<string>)
    requires Seated(pods, nodes) && UniqueNames(nodes)
    requires forall n :: n in pods ==> pods[n].provider != "" && pods[n].provider in providers
    ensures ActivePods(pods, nodes, NodeSelector(board, "")) <= PodsOfBoard(pods, board, providers)
  {
    CountedPods(pods, nodes, NodeSelector(board, ""));
  }

  /** When every pod is provider-bound, bounding each provider's pool bounds the whole board. */
  lemma BoardIsBounded(pods: Pods, nodes: seq<Node>, board: string)
    requires Seated(pods, nodes) && UniqueNames(nodes) && board != ""
    requires forall n :: n in pods ==> pods[n].provider != ""
    requires forall sel: NodeSelector :: sel.ProviderBound() ==> Bounded(pods, nodes, sel)
    ensures Bounded(pods, nodes, NodeSelector(board, ""))
  {
    var sel := NodeSelector(board, "");
    var providers := set n | n in pods :: pods[n].provider;
    BoardPods(pods, nodes, board, providers);
    ProvidersAddUp(pods, nodes, board, providers);
    SubsetCount(ActivePods(pods, nodes, sel), PodsOfBoard(pods, board, providers));
    if p :| p in providers {
      SplitProvider(nodes, board, providers, p);
    } else {
      assert PodsOfBoard(pods, board, providers) == {};
    }
  }

  // ---- binding and creation ----

  /** The scheduler may place the pod there: the node satisfies the pod's own nodeSelector. */
  predicate Bindable(p: Pod, n: Node) {
    p.node == "" && n.name != "" && n.board == p.board && (p.provider == "" || n.provider == p.provider)
  }

  ghost predicate UniqueNames(nodes: seq<Node>) {
    forall i, j :: 0 <= i < j < |nodes| ==> nodes[i].name != nodes[j].name
  }

  /** Binding a pod never makes it count anywhere it did not count before. */
  lemma BindingNeverRaises(pods: Pods, nodes: seq<Node>, sel: NodeSelector, name: string, n: Node)
    requires UniqueNames(nodes) && n in nodes && name in pods && Bindable(pods[name], n)
    ensures var pods' := pods[name := pods[name].(node := n.name)];
      ActivePods(pods', nodes, sel) <= ActivePods(pods, nodes, sel)
  {
  }

  /** Two selectors never charge each other's unscheduled pods. */
  predicate Separate(a: NodeSelector, b: NodeSelector) {
    a.board == b.board && a != b ==> a.provider != "" && b.provider != ""
  }

  /** Exactly which selectors a newly created pod counts against. */
  lemma NewPodCountsAgainst(a: NodeSelector, b: NodeSelector, nodes: seq<Node>, entity: Id, now: int)
    ensures Counts(NewPod(a, entity, now), nodes, b) <==>
            a.board == b.board && (a.provider == b.provider || a.provider == "" || b.provider == "")
    ensures a != b ==> (Separate(a, b) <==> !Counts(NewPod(a, entity, now), nodes, b))
  {
  }

  lemma CreationCounts(pods: Pods, nodes: seq<Node>, name: string, a: NodeSelector, b: NodeSelector, entity: Id, now: int)
    requires name !in pods && Separate(a, b)
    ensures var pods' := pods[name := NewPod(a, entity, now)];
      |ActivePods(pods', nodes, b)| == |ActivePods(pods, nodes, b)| + if a == b then 1 else 0
  {
    var pods' := pods[name := NewPod(a, entity, now)];
    NewPodCountsAgainst(a, b, nodes, entity, now);
    if a == b {
      assert ActivePods(pods', nodes, b) == ActivePods(pods, nodes, b) + {name};
    } else {
      assert ActivePods(pods', nodes, b) == ActivePods(pods, nodes, b);
    }
  }

  // ---- the capacity bound holds exactly for separate selectors ----

  /** One pod was created for a selector whose lookup showed a free slot. */
  ghost predicate Placed(pods: Pods, pods': Pods, nodes: seq<Node>, sel: NodeSelector) {
    && sel.Valid() && |ActivePods(pods, nodes, sel)| < Total(nodes, sel)
    && exists name, entity, now :: name !in pods && pods' == pods[name := NewPod(sel, entity, now)]
  }

  ghost predicate PlacedForSome(pods: Pods, pods': Pods, nodes: seq<Node>, sels: set<NodeSelector>) {
    exists sel :: sel in sels && Placed(pods, pods', nodes, sel)
  }

  ghost predicate PlacementRun(run: seq<Pods>, nodes: seq<Node>, sels: set<NodeSelector>) {
    && run != []
    && forall i :: 0 <= i < |run| - 1 ==> PlacedForSome(run[i], run[i + 1], nodes, sels)
  }

  ghost predicate AllBounded(pods: Pods, nodes: seq<Node>, sels: set<NodeSelector>) {
    forall sel :: sel in sels ==> Bounded(pods, nodes, sel)
  }

  /** An empty board is refused before any lookup or creation, so only valid selectors matter. */
  ghost predicate AllSeparate(sels: set<NodeSelector>) {
    forall a, b :: a in sels && b in sels && a.Valid() && b.Valid() ==> Separate(a, b)
  }

  lemma {:induction false} SeparateRunsStayBounded(run: seq<Pods>, nodes: seq<Node>, sels: set<NodeSelector>)
    requires AllSeparate(sels) && PlacementRun(run, nodes, sels) && AllBounded(run[0], nodes, sels)
    ensures AllBounded(run[|run| - 1], nodes, sels)
  {
    if |run| > 1 {
      var before := run[..|run| - 1];
      forall i | 0 <= i < |before| - 1 ensures PlacedForSome(before[i], before[i + 1], nodes, sels) {
        assert before[i] == run[i] && before[i + 1] == run[i + 1];
      }
      SeparateRunsStayBounded(before, nodes, sels);
      var pods, pods' := run[|run| - 2], run[|run| - 1];
      assert PlacedForSome(pods, pods', nodes, sels) && before[|before| - 1] == pods;
      var a :| a in sels && Placed(pods, pods', nodes, a);
      var name, entity, now :| name !in pods && pods' == pods[name := NewPod(a, entity, now)];
      forall b | b in sels ensures Bounded(pods', nodes, b) {
        CreationCounts(pods, nodes, name, a, b, entity, now);
        assert Bounded(pods, nodes, b);
      }
    }
  }

  /** A board-only selector beside a provider one: two board pods fill a provider pool of one. */
  lemma MixedSelectorsOvercommit(a: NodeSelector, b: NodeSelector, sels: set<NodeSelector>)
    returns (nodes: seq<Node>, run: seq<Pods>)
    requires a in sels && b in sels && a.Valid() && a.board == b.board && a.provider == "" && b.provider != ""
    ensures PlacementRun(run, nodes, sels) && AllBounded(run[0], nodes, sels)
    ensures !Bounded(run[|run| - 1], nodes, b)
  {
    var elsewhere := b.provider + ".";
    var n1, n2 := Node("1", b.board, b.provider, Some(1)), Node("2", b.board, elsewhere, Some(1));
    nodes := [n1, n2];
    assert nodes[..1] == [n1] && [n1][..0] == [];
    assert Total([n1], b) == 1 && Total([n1], a) == 1 && Total(nodes, a) == 2 && Total(nodes, b) == 1;
    var p := NewPod(a, Id(0), 0);
    var zero: Pods, one: Pods, two: Pods := map[], map["x" := p], map["x" := p, "y" := p];
    run := [zero, one, two];
    assert ActivePods(zero, nodes, a) == {} && ActivePods(one, nodes, a) == {"x"};
    assert "x"[0] != "y"[0];
    assert "x" !in zero && one == zero["x" := p] && "y" !in one && two == one["y" := p];
    assert Placed(zero, one, nodes, a);
    assert Placed(one, two, nodes, a) by {
      assert "y" !in one && two == one["y" := NewPod(a, Id(0), 0)];
    }
    forall sel | sel in sels ensures Bounded(zero, nodes, sel) {
      assert ActivePods(zero, nodes, sel) == {};
    }
    assert ActivePods(two, nodes, b) == {"x", "y"};
  }

  lemma CapacityBoundIff(sels: set<NodeSelector>)
    ensures AllSeparate(sels) <==>
            forall nodes, run | PlacementRun(run, nodes, sels) && AllBounded(run[0], nodes, sels) ::
              AllBounded(run[|run| - 1], nodes, sels)
  {
    if AllSeparate(sels) {
      forall nodes, run | PlacementRun(run, nodes, sels) && AllBounded(run[0], nodes, sels)
        ensures AllBounded(run[|run| - 1], nodes, sels)
      {
        SeparateRunsStayBounded(run, nodes, sels);
      }
    } else {
      var a, b :| a in sels && b in sels && a.Valid() && b.Valid() && !Separate(a, b);
      var nodes, run;
      if a.provider == "" {
        nodes, run := MixedSelectorsOvercommit(a, b, sels);
      } else {
        nodes, run := MixedSelectorsOvercommit(b, a, sels);
      }
    }
  }

  // ---- pod time facts ----

  /** The latest container termination, if any container has terminated. */
  function Latest(cs: seq<ContainerStatus>): Option<int> {
    if cs == [] then None
    else
      var earlier, c := Latest(cs[..|cs| - 1]), cs[|cs| - 1];
      if c.terminated && c.terminatedAt.Some? && (earlier.None? || c.terminatedAt.value > earlier.value)
      then c.terminatedAt else earlier
  }

  lemma {:induction false} LatestIsMaximum(cs: seq<ContainerStatus>)
    ensures Latest(cs).None? <==> forall c :: c in cs ==> !c.terminated || c.terminatedAt.None?
    ensures Latest(cs).Some? ==>
              && (exists c :: c in cs && c.terminated && c.terminatedAt == Latest(cs))
              && (forall c :: c in cs && c.terminated && c.terminatedAt.Some? ==> c.terminatedAt.value <= Latest(cs).value)
  {
    if cs != [] {
      LatestIsMaximum(cs[..|cs| - 1]);
      assert cs == cs[..|cs| - 1] + [cs[|cs| - 1]];
    }
  }

  method FinishedAt(p: Pod) returns (latest: Option<int>)
    ensures latest == Latest(p.containers + p.initContainers)
  {
    latest := None;
    var all := p.containers + p.initContainers;
    for i := 0 to |all|
      invariant latest == Latest(all[..i])
    {
      var c := all[i];
      assert all[..i + 1][..i] == all[..i];
      if c.terminated && c.terminatedAt.Some? {
        if latest.None? || c.terminatedAt.value > latest.value {
          latest := c.terminatedAt;
        }
      }
    }
    assert all[..|all|] == all;
  }

  function FirstRunnerStart(cs: seq<ContainerStatus>): Option<int> {
    if cs == [] then None
    else if cs[0].name == "runner" && cs[0].running && cs[0].runningStarted.Some? then cs[0].runningStarted
    else FirstRunnerStart(cs[1..])
  }

  function RunnerStartedAt(p: Pod): Option<int> {
    Coalesce(FirstRunnerStart(p.containers), p.ready)
  }

  // ---- the client ----

  datatype Capacity = Capacity(total: int, active: int, available: int, activeByEntity: map<Id, int>)

  function At(m: map<Id, int>, e: Id): int { if e in m then m[e] else 0 }

  /** What the API server did with a create call. */
  datatype CreateAnswer = Created | Rejected | CreatedWithError

  function CreatePod(pods: Pods, name: string, sel: NodeSelector, entity: Id, now: int, a: CreateAnswer): Pods {
    if !sel.Valid() || name in pods || a.Rejected? then pods else pods[name := NewPod(sel, entity, now)]
  }

  class KubeClient {
    const nodes: seq<Node>
    var pods: Pods
    ghost var requested: seq<string> // every name ever passed to ProvisionRunner

    constructor (nodes: seq<Node>, pods: Pods)
      ensures this.nodes == nodes && this.pods == pods && requested == []
    {
      this.nodes, this.pods, requested := nodes, pods, [];
    }

    /** None is ErrEmptySelector. */
    method AvailableSlots(sel: NodeSelector) returns (cap: Option<Capacity>)
      ensures cap.None? <==> !sel.Valid()
      ensures cap.Some? ==>
                && cap.value.total == Total(nodes, sel)
                && cap.value.active == |ActivePods(pods, nodes, sel)|
                && cap.value.available == cap.value.total - cap.value.active
                && cap.value.activeByEntity == Loads(pods, nodes, sel)
                && cap.value.active == |Occupants(pods, nodes, sel)| + |Waiting(pods, sel)|
    {
      if !sel.Valid() {
        return None;
      }
      var total, inPool: set<string> := CountNodes(sel);
      var active, activeByEntity: map<Id, int> := 0, map[];
      var todo := pods.Keys;
      while todo != {}
        invariant todo <= pods.Keys
        invariant active == |Seen(sel, todo)|
        invariant activeByEntity.Keys == Owners(pods, Seen(sel, todo))
        invariant forall e :: At(activeByEntity, e) == |SeenOf(sel, todo, e)|
        decreases |todo|
      {
        var n :| n in todo;
        var p := pods[n];
        var rest := todo - {n};
        var counts := Charges(p, sel, inPool);
        SeenGrows(sel, todo, n);
        if counts {
          active := active + 1;
          if p.entity.Some? {
            activeByEntity := activeByEntity[p.entity.value := At(activeByEntity, p.entity.value) + 1];
          }
        }
        todo := rest;
      }
      AllSeen(sel, activeByEntity);
      CountedPods(pods, nodes, sel);
      cap := Some(Capacity(total, active, total - active, activeByEntity));
    }

    method Charges(p: Pod, sel: NodeSelector, inPool: set<string>) returns (counts: bool)
      requires inPool == PoolNames(nodes, sel)
      ensures counts == Counts(p, nodes, sel)
    {
      if p.phase.PodSucceeded? || p.phase.PodFailed? {
        return false;
      }
      if p.node == "" {
        return p.board == sel.board && (sel.provider == "" || p.provider == sel.provider || p.provider == "");
      }
      return p.node in inPool;
    }

    lemma AllSeen(sel: NodeSelector, byEntity: map<Id, int>)
      requires byEntity.Keys == Owners(pods, Seen(sel, {}))
      requires forall e :: At(byEntity, e) == |SeenOf(sel, {}, e)|
      ensures Seen(sel, {}) == ActivePods(pods, nodes, sel) && byEntity == Loads(pods, nodes, sel)
    {
      assert Seen(sel, {}) == ActivePods(pods, nodes, sel);
      forall e | e in byEntity ensures byEntity[e] == Loads(pods, nodes, sel)[e] {
        assert At(byEntity, e) == byEntity[e];
        assert SeenOf(sel, {}, e) == ActivePodsOf(pods, nodes, sel, e);
      }
    }

    method CountNodes(sel: NodeSelector) returns (total: int, inPool: set<string>)
      ensures total == Total(nodes, sel) && inPool == PoolNames(nodes, sel)
    {
      total, inPool := 0, {};
      for i := 0 to |nodes|
        invariant total == Total(nodes[..i], sel) && inPool == PoolNames(nodes[..i], sel)
      {
        var n := nodes[i];
        assert nodes[..i + 1][..i] == nodes[..i] && nodes[..i + 1] == nodes[..i] + [n];
        if InPool(n, sel) {
          inPool := inPool + {n.name};
          if n.slots.Some? {
            total := total + n.slots.value;
          }
        }
      }
      assert nodes[..|nodes|] == nodes;
    }

    ghost function Seen(sel: NodeSelector, todo: set<string>): set<string> reads this {
      set n | n in pods && n !in todo && Counts(pods[n], nodes, sel)
    }

    ghost function SeenOf(sel: NodeSelector, todo: set<string>, e: Id): set<string> reads this {
      set n | n in pods && n !in todo && Counts(pods[n], nodes, sel) && pods[n].entity == Some(e)
    }

    lemma SeenGrows(sel: NodeSelector, todo: set<string>, n: string)
      requires n in todo && todo <= pods.Keys
      ensures |Seen(sel, todo - {n})| == |Seen(sel, todo)| + if Counts(pods[n], nodes, sel) then 1 else 0
      ensures Owners(pods, Seen(sel, todo - {n})) == Owners(pods, Seen(sel, todo)) +
        if Counts(pods[n], nodes, sel) && pods[n].entity.Some? then {pods[n].entity.value} else {}
      ensures forall e :: |SeenOf(sel, todo - {n}, e)| ==
                          |SeenOf(sel, todo, e)| + if Counts(pods[n], nodes, sel) && pods[n].entity == Some(e) then 1 else 0
    {
      if Counts(pods[n], nodes, sel) {
        assert Seen(sel, todo - {n}) == Seen(sel, todo) + {n};
      } else {
        assert Seen(sel, todo - {n}) == Seen(sel, todo);
      }
      forall e ensures |SeenOf(sel, todo - {n}, e)| ==
                       |SeenOf(sel, todo, e)| + if Counts(pods[n], nodes, sel) && pods[n].entity == Some(e) then 1 else 0
      {
        if Counts(pods[n], nodes, sel) && pods[n].entity == Some(e) {
          assert SeenOf(sel, todo - {n}, e) == SeenOf(sel, todo, e) + {n};
        } else {
          assert SeenOf(sel, todo - {n}, e) == SeenOf(sel, todo, e);
        }
      }
    }

    method ProvisionRunner(name: string, sel: NodeSelector, entity: Id, now: int, answer: CreateAnswer) returns (ok: bool)
      modifies this
      ensures pods == CreatePod(old(pods), name, sel, entity, now, answer)
      ensures ok == (sel.Valid() && name !in old(pods) && answer.Created?)
      ensures requested == old(requested) + [name]
    {
      requested := requested + [name];
      if !sel.Valid() {
        return false;
      }
      ok := name !in pods && answer.Created?;
      if name !in pods && !answer.Rejected? {
        pods := pods[name := NewPod(sel, entity, now)];
      }
    }

    /** Patches activeDeadlineSeconds; an absent pod is a success. */
    method KillPod(name: string, refused: bool)
      modifies `pods
      ensures pods == if refused || name !in old(pods) then old(pods)
                      else old(pods)[name := old(pods)[name].(deadlinePatched := true)]
    {
      if !refused && name in pods {
        pods := pods[name := pods[name].(deadlinePatched := true)];
      }
    }

    /** DeletePod and ForceDeletePod remove the API object; an absent pod is a success. */
    method DeletePod(name: string, refused: bool)
      modifies `pods
      ensures pods == if refused then old(pods) else old(pods) - {name}
    {
      if !refused {
        pods := pods - {name};
      }
    }
  }
}
