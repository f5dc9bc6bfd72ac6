/** matchLabelsToK8s (ghfe/payload.go), its route table and the entity limits (constants.go). */
module Router {
  import opened Base
  import Labels

  datatype Route = Route(entities: seq<Id>, labels: seq<string>, selector: NodeSelector, image: string)

  datatype Placement = Placement(selector: NodeSelector, image: string)

  predicate Matches(r: Route, entity: Id, labels: seq<string>) {
    && (r.entities == [] || entity in r.entities)
    && |r.labels| == |labels|
    && forall l :: l in r.labels ==> l in labels
  }

  /** First matching route, if any. */
  function Match(routes: seq<Route>, entity: Id, labels: seq<string>): Option<Placement> {
    if routes == [] then None
    else if Matches(routes[0], entity, labels) then Some(Placement(routes[0].selector, routes[0].image))
    else Match(routes[1..], entity, labels)
  }

  predicate Distinct(s: seq<string>) {
    forall i, j :: 0 <= i < j < |s| ==> s[i] != s[j]
  }

  predicate WellFormed(routes: seq<Route>) {
    forall r :: r in routes ==> Distinct(r.labels) && r.selector.ProviderBound()
  }

  // ---- the label test is a permutation test ----

  lemma {:induction false} DistinctCountsOnce(s: seq<string>, x: string)
    requires Distinct(s)
    ensures multiset(s)[x] == if x in s then 1 else 0
  {
    if s != [] {
      assert s == s[..|s| - 1] + [s[|s| - 1]];
      DistinctCountsOnce(s[..|s| - 1], x);
    }
  }

  /** Pigeonhole: equal lengths and one-sided inclusion already force a permutation. */
  lemma MatchIsPermutation(r: Route, entity: Id, labels: seq<string>)
    requires Distinct(r.labels)
    ensures Matches(r, entity, labels) <==>
            (r.entities == [] || entity in r.entities) && multiset(r.labels) == multiset(labels)
  {
    var want, have := multiset(r.labels), multiset(labels);
    assert |want| == |r.labels| && |have| == |labels|;
    if Matches(r, entity, labels) {
      forall x ensures want[x] <= have[x] {
        DistinctCountsOnce(r.labels, x);
      }
      assert have == want + (have - want);
      assert |have - want| == 0;
    }
    if want == have {
      forall l | l in r.labels ensures l in labels {
        assert l in want;
      }
    }
  }

  /** Why duplicated labels in a route would break it: the test accepts a non-permutation. */
  lemma DuplicateLabelsMisroute(r: Route, entity: Id, a: string, b: string)
    requires a != b && r.entities == [] && r.labels == [a, a]
    ensures Matches(r, entity, [a, b]) && multiset(r.labels) != multiset([a, b])
  {
  }

  /** The pool key decides the placement: what lets GetPoolDemand ignore the selector. */
  lemma {:induction false} KeyDeterminesPlacement(routes: seq<Route>, entity: Id, a: seq<string>, b: seq<string>)
    requires WellFormed(routes) && Labels.Canonical(a) == Labels.Canonical(b)
    ensures Match(routes, entity, a) == Match(routes, entity, b)
  {
    if routes != [] {
      Labels.KeyIffPermutation(a, b);
      MatchIsPermutation(routes[0], entity, a);
      MatchIsPermutation(routes[0], entity, b);
      KeyDeterminesPlacement(routes[1..], entity, a, b);
    }
  }

  lemma {:induction false} PlacementIsProviderBound(routes: seq<Route>, entity: Id, labels: seq<string>)
    requires WellFormed(routes) && Match(routes, entity, labels).Some?
    ensures Match(routes, entity, labels).value.selector.ProviderBound()
    ensures exists r :: r in routes && Matches(r, entity, labels)
                        && Match(routes, entity, labels) == Some(Placement(r.selector, r.image))
  {
    if !Matches(routes[0], entity, labels) {
      PlacementIsProviderBound(routes[1..], entity, labels);
    }
  }

  // ---- the first matching route wins ----

  /** The route is for everybody or for this entity, and lists exactly these labels, in any order. */
  ghost predicate Serves(r: Route, entity: Id, labels: seq<string>) {
    (r.entities == [] || entity in r.entities) && multiset(r.labels) == multiset(labels)
  }

  lemma {:induction false} FirstMatchWins(routes: seq<Route>, entity: Id, labels: seq<string>, i: nat)
    requires WellFormed(routes) && i < |routes| && Serves(routes[i], entity, labels)
    requires forall k :: 0 <= k < i ==> !Serves(routes[k], entity, labels)
    ensures Match(routes, entity, labels) == Some(Placement(routes[i].selector, routes[i].image))
  {
    MatchIsPermutation(routes[0], entity, labels);
    if i > 0 {
      assert !Serves(routes[0], entity, labels);
      FirstMatchWins(routes[1..], entity, labels, i - 1);
    }
  }

  lemma {:induction false} UnroutableIff(routes: seq<Route>, entity: Id, labels: seq<string>)
    requires WellFormed(routes)
    ensures Match(routes, entity, labels).None? <==> forall r :: r in routes ==> !Serves(r, entity, labels)
  {
    if routes != [] {
      MatchIsPermutation(routes[0], entity, labels);
      UnroutableIff(routes[1..], entity, labels);
    }
  }

  /** Routes of named entities come first, and no two routes of one entity, nor two global
      ones, list the same labels. */
  ghost predicate OwnBeforeGlobal(routes: seq<Route>) {
    forall i, k :: 0 <= i < k < |routes| ==>
      && (routes[i].entities == [] ==> routes[k].entities == [])
      && (multiset(routes[i].labels) == multiset(routes[k].labels) ==> Apart(routes[i], routes[k]))
  }

  /** No entity has both as its own routes, and they are not both global. */
  ghost predicate Apart(a: Route, b: Route) {
    (a.entities != [] || b.entities != []) && forall e :: e in a.entities ==> e !in b.entities
  }

  /** An entity's own route beats the global one for the same labels; without one of its own
      the global one serves it. */
  lemma OwnRouteWins(routes: seq<Route>, entity: Id, labels: seq<string>, r: Route)
    requires WellFormed(routes) && OwnBeforeGlobal(routes)
    requires r in routes && Serves(r, entity, labels)
    requires r.entities != [] || forall o :: o in routes && o.entities != [] ==> !Serves(o, entity, labels)
    ensures Match(routes, entity, labels) == Some(Placement(r.selector, r.image))
  {
    var i :| 0 <= i < |routes| && routes[i] == r;
    forall k | 0 <= k < i ensures !Serves(routes[k], entity, labels) {
      assert routes[k] in routes;
    }
    FirstMatchWins(routes, entity, labels, i);
  }

  // ---- the table ----

  const RISEPROJECT_DEV := Id(152654596)
  const RISEPROJECT_STAGING := Id(277861810)
  const GGML := Id(134263123)
  const RUYIAI := Id(257673382)
  const CONDA_FORGE := Id(11897326)
  const NUMPY := Id(288276)
  const MENGZHUO := Id(885662)

  const U24 := "ubuntu-24.04-riscv"
  const U26 := "ubuntu-26.04-riscv"
  const RVV := "rvv"
  const RVA23 := "rva23"
  const XL := "xlarge"

  function Sel(board: string, provider: string): NodeSelector { NodeSelector(board, provider) }

  function LabelRoutes(image24: string, image26: string): seq<Route> {
    [ Route([GGML], [U24], Sel("spacemit-k1", "cloudv10x"), image24),
      Route([MENGZHUO], [U24], Sel("spacemit-k1", "mengzhuo"), image24),
      Route([RUYIAI], [U24, RVA23, XL], Sel("spacemit-v100", "iscas"), image24),
      Route([RUYIAI], [U24, RVA23], Sel("spacemit-k3", "iscas"), image24),
      Route([RUYIAI], [U24, RVV], Sel("spacemit-k1", "iscas"), image24),
      Route([NUMPY], [U24, RVV], Sel("spacemit-k1", "cloudv10x"), image24),
      Route([CONDA_FORGE], [U24, "ur"], Sel("ultrarisc-dp-1000", "openkylin"), image24),
      Route([RISEPROJECT_DEV], [U24, RVA23, XL], Sel("spacemit-v100", "iscas"), image24),
      Route([RISEPROJECT_DEV], [U24, RVA23], Sel("spacemit-k3", "iscas"), image24),
      Route([RISEPROJECT_DEV], [U24, RVV], Sel("spacemit-k1", "iscas"), image24),
      Route([], [U24], Sel("scaleway-em-rv1", "scaleway"), image24),
      Route([], [U24, RVA23], Sel("spacemit-k3", "rise"), image24),
      Route([], [U26], Sel("spacemit-k3", "rise"), image26) ]
  }

  lemma DistinctByLength(s: seq<string>)
    requires forall i, j :: 0 <= i < j < |s| ==> |s[i]| != |s[j]|
    ensures Distinct(s)
  {
  }

  /** Every route of the table pins one provider and lists its labels once. */
  lemma TableWellFormed(image24: string, image26: string)
    ensures WellFormed(LabelRoutes(image24, image26))
  {
    assert |U24| == 18 && |RVV| == 3 && |RVA23| == 5 && |XL| == 6 && |"ur"| == 2;
    var routes := LabelRoutes(image24, image26);
    forall i | 0 <= i < |routes| ensures Distinct(routes[i].labels) && routes[i].selector.ProviderBound() {
      DistinctByLength(routes[i].labels);
    }
  }

  lemma DifferentLabels(a: seq<string>, b: seq<string>, l: string)
    requires l in a && l !in b
    ensures multiset(a) != multiset(b)
  {
    assert l in multiset(a);
  }

  /** The label lists one entity, or everybody, is offered are pairwise different. */
  lemma OfferedLabelsDiffer()
    ensures multiset([U24, RVA23, XL]) != multiset([U24, RVA23])
    ensures multiset([U24, RVA23, XL]) != multiset([U24, RVV])
    ensures multiset([U24, RVA23]) != multiset([U24, RVV])
    ensures multiset([U24]) != multiset([U24, RVA23])
    ensures multiset([U24]) != multiset([U26])
    ensures multiset([U24, RVA23]) != multiset([U26])
  {
    assert |U24| == 18 && |RVV| == 3 && |RVA23| == 5 && |XL| == 6 && U24[8] != U26[8];
    DifferentLabels([U24, RVA23, XL], [U24, RVA23], XL);
    DifferentLabels([U24, RVA23, XL], [U24, RVV], XL);
    DifferentLabels([U24, RVA23], [U24, RVV], RVA23);
    DifferentLabels([U24, RVA23], [U24], RVA23);
    DifferentLabels([U24], [U26], U24);
    DifferentLabels([U24, RVA23], [U26], U24);
  }

  const OWNERS := [GGML, MENGZHUO, RUYIAI, RUYIAI, RUYIAI, NUMPY, CONDA_FORGE,
                   RISEPROJECT_DEV, RISEPROJECT_DEV, RISEPROJECT_DEV]

  lemma TableOwners(image24: string, image26: string)
    ensures var t := LabelRoutes(image24, image26);
      |t| == 13 && forall i :: 0 <= i < 13 ==> t[i].entities == if i < 10 then [OWNERS[i]] else []
  {
  }

  /** The routes of one entity, or of everybody, stand together. */
  predicate Together(i: nat, k: nat) { (2 <= i && k <= 4) || (7 <= i && k <= 9) || 10 <= i }

  lemma OfferedTogether(image24: string, image26: string, i: nat, k: nat)
    requires i < k < 13 && Together(i, k)
    ensures var t := LabelRoutes(image24, image26);
      multiset(t[i].labels) != multiset(t[k].labels)
  {
    OfferedLabelsDiffer();
  }

  lemma OwnersApart(i: nat, k: nat)
    requires i < k < 10 && !Together(i, k)
    ensures OWNERS[i] != OWNERS[k]
  {
    assert OWNERS[i].number != OWNERS[k].number;
  }

  /** The table orders and separates its routes as `OwnRouteWins` asks. */
  lemma TableOwnBeforeGlobal(image24: string, image26: string)
    ensures OwnBeforeGlobal(LabelRoutes(image24, image26))
  {
    var t := LabelRoutes(image24, image26);
    TableOwners(image24, image26);
    forall i, k | 0 <= i < k < |t| && multiset(t[i].labels) == multiset(t[k].labels) ensures Apart(t[i], t[k]) {
      if Together(i, k) {
        OfferedTogether(image24, image26, i, k);
      } else if k < 10 {
        OwnersApart(i, k);
      }
    }
  }

  /** In the shipped table an entity's own route beats the global one for the same labels. */
  lemma ShippedOwnRouteWins(image24: string, image26: string, entity: Id, labels: seq<string>, r: Route)
    requires r in LabelRoutes(image24, image26) && entity in r.entities && multiset(r.labels) == multiset(labels)
    ensures Match(LabelRoutes(image24, image26), entity, labels) == Some(Placement(r.selector, r.image))
  {
    TableWellFormed(image24, image26);
    TableOwnBeforeGlobal(image24, image26);
    OwnRouteWins(LabelRoutes(image24, image26), entity, labels, r);
  }

  lemma Rva23Routes(image24: string, image26: string)
    ensures var t := LabelRoutes(image24, image26);
      && |t| == 13 && t[3] == Route([RUYIAI], [U24, RVA23], NodeSelector("spacemit-k3", "iscas"), image24)
      && t[8] == Route([RISEPROJECT_DEV], [U24, RVA23], NodeSelector("spacemit-k3", "iscas"), image24)
      && t[11] == Route([], [U24, RVA23], NodeSelector("spacemit-k3", "rise"), image24)
  {
  }

  /** For instance, ubuntu-24.04-riscv with rva23, in any order: the two entities with boards of
      their own get iscas, everybody else gets rise. */
  lemma Rva23Placement(image24: string, image26: string, entity: Id, labels: seq<string>)
    requires multiset(labels) == multiset([U24, RVA23])
    ensures Match(LabelRoutes(image24, image26), entity, labels) ==
            var provider := if entity == RUYIAI || entity == RISEPROJECT_DEV then "iscas" else "rise";
            Some(Placement(NodeSelector("spacemit-k3", provider), image24))
  {
    var t := LabelRoutes(image24, image26);
    Rva23Routes(image24, image26);
    if entity == RUYIAI {
      ShippedOwnRouteWins(image24, image26, entity, labels, t[3]);
    } else if entity == RISEPROJECT_DEV {
      ShippedOwnRouteWins(image24, image26, entity, labels, t[8]);
    } else {
      TableWellFormed(image24, image26);
      OthersUseTheGlobalRoute(image24, image26, entity, labels);
      FirstMatchWins(t, entity, labels, 11);
    }
  }

  lemma OthersUseTheGlobalRoute(image24: string, image26: string, entity: Id, labels: seq<string>)
    requires multiset(labels) == multiset([U24, RVA23]) && entity != RUYIAI && entity != RISEPROJECT_DEV
    ensures var t := LabelRoutes(image24, image26);
      Serves(t[11], entity, labels) && forall k :: 0 <= k < 11 ==> !Serves(t[k], entity, labels)
  {
    var t := LabelRoutes(image24, image26);
    TableOwners(image24, image26);
    OfferedLabelsDiffer();
    forall k | 0 <= k < 11 && Serves(t[k], entity, labels) ensures false {
      assert multiset(t[k].labels) == multiset([U24, RVA23]);
      LengthOfLabels(t[k].labels, [U24, RVA23]);
    }
  }

  lemma LengthOfLabels(a: seq<string>, b: seq<string>)
    requires multiset(a) == multiset(b)
    ensures |a| == |b|
  {
    assert |multiset(a)| == |a| && |multiset(b)| == |b|;
  }

  /** EntityConfigs; `None` is a configured entity without a limit. */
  const ENTITY_CONFIGS: map<Id, Option<nat>> :=
    map[RISEPROJECT_DEV := Some(40), RISEPROJECT_STAGING := Some(20), CONDA_FORGE := Some(30)]

  const DEFAULT_MAX_WORKERS: nat := 20

  /** The worker limit tryProvision enforces for an entity, if it enforces one. */
  function WorkerLimit(configs: map<Id, Option<nat>>, entity: Id): Option<nat> {
    if entity in configs then configs[entity] else Some(DEFAULT_MAX_WORKERS)
  }
}
