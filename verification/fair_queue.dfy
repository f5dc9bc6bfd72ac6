/** The fair job queue of demand_match.go: FIFO inside an entity, least loaded entity first.
    The simple form scans every queued job; the queue only looks at list heads. */
module FairQueue {
  import opened Base
  import opened Jobs
  import opened Cluster

  /** Order by (active[entity], created_at, job_id). */
  predicate Before(active: map<Id, int>, l: Job, r: Job) {
    At(active, l.entity) < At(active, r.entity) || (At(active, l.entity) == At(active, r.entity) && Older(l, r))
  }

  /** Position of the least job of a non-empty queue. */
  function PopIndex(rest: seq<Job>, active: map<Id, int>): (i: nat)
    requires rest != []
    ensures i < |rest|
  {
    var last := |rest| - 1;
    if last == 0 then 0
    else
      var i := PopIndex(rest[..last], active);
      if Before(active, rest[last], rest[i]) then last else i
  }

  function Remove(rest: seq<Job>, i: nat): seq<Job>
    requires i < |rest|
  {
    rest[..i] + rest[i + 1..]
  }

  function OfEntity(jobs: seq<Job>, e: Id): seq<Job> {
    if jobs == [] then []
    else OfEntity(jobs[..|jobs| - 1], e) + if jobs[|jobs| - 1].entity == e then [jobs[|jobs| - 1]] else []
  }

  ghost predicate IsLeast(rest: seq<Job>, active: map<Id, int>, i: nat)
    requires i < |rest|
  {
    forall k :: 0 <= k < |rest| && k != i ==> Before(active, rest[i], rest[k])
  }

  lemma {:induction false} PopIndexIsLeast(rest: seq<Job>, active: map<Id, int>)
    requires rest != [] && InOrder(rest)
    ensures IsLeast(rest, active, PopIndex(rest, active))
  {
    var last := |rest| - 1;
    if last > 0 {
      PopIndexIsLeast(rest[..last], active);
      var i := PopIndex(rest[..last], active);
      assert Older(rest[i], rest[last]);
      forall k | 0 <= k < last && k != i ensures Before(active, rest[i], rest[k]) {
        assert rest[..last][k] == rest[k];
      }
    }
  }

  /** The order in which a map is scanned cannot matter: no second job is least. */
  lemma LeastIsUnique(rest: seq<Job>, active: map<Id, int>, i: nat, k: nat)
    requires InOrder(rest) && i < |rest| && k < |rest| && i != k
    requires IsLeast(rest, active, i)
    ensures !IsLeast(rest, active, k)
  {
    assert Before(active, rest[i], rest[k]);
  }

  function LoadOf(active: map<Id, int>, j: Job): int { if j.entity in active then active[j.entity] else 0 }

  /** What is popped: a job of the entity with the lowest load, among those the one created
      first, among those the one with the smallest id. */
  lemma PoppedFirst(rest: seq<Job>, active: map<Id, int>, j: Job)
    requires InOrder(rest) && j in rest && j != rest[PopIndex(rest, active)]
    ensures var p := rest[PopIndex(rest, active)];
      || LoadOf(active, p) < LoadOf(active, j)
      || (LoadOf(active, p) == LoadOf(active, j) && p.createdAt < j.createdAt)
      || (LoadOf(active, p) == LoadOf(active, j) && p.createdAt == j.createdAt && p.id.number < j.id.number)
  {
    PopIndexIsLeast(rest, active);
    var k :| 0 <= k < |rest| && rest[k] == j;
  }

  // ---- entity sublists ----

  lemma {:induction false} OfEntityConcat(a: seq<Job>, b: seq<Job>, e: Id)
    ensures OfEntity(a + b, e) == OfEntity(a, e) + OfEntity(b, e)
  {
    if b == [] {
      assert a + b == a;
    } else {
      assert (a + b)[..|a + b| - 1] == a + b[..|b| - 1];
      OfEntityConcat(a, b[..|b| - 1], e);
    }
  }

  lemma {:induction false} OfEntityMembers(jobs: seq<Job>, e: Id)
    ensures forall j :: j in OfEntity(jobs, e) <==> j in jobs && j.entity == e
  {
    if jobs != [] {
      OfEntityMembers(jobs[..|jobs| - 1], e);
      assert jobs == jobs[..|jobs| - 1] + [jobs[|jobs| - 1]];
    }
  }

  /** The head of an entity's sublist is that entity's oldest queued job. */
  lemma {:induction false} HeadIsOldest(rest: seq<Job>, e: Id)
    requires InOrder(rest) && OfEntity(rest, e) != []
    ensures var h := OfEntity(rest, e)[0];
      && h in rest && h.entity == e
      && forall j :: j in rest && j.entity == e && j != h ==> Older(h, j)
  {
    var n := |rest| - 1;
    var before := rest[..n];
    OfEntityMembers(rest, e);
    if OfEntity(before, e) != [] {
      HeadIsOldest(before, e);
      var h := OfEntity(before, e)[0];
      assert OfEntity(rest, e)[0] == h;
      var k :| 0 <= k < n && before[k] == h;
      assert Older(rest[k], rest[n]);
      assert forall j :: j in rest ==> j in before || j == rest[n];
    } else {
      OfEntityMembers(before, e);
      assert forall j :: j in rest ==> j in before || j == rest[n];
    }
  }

  lemma {:induction false} OfEntityNone(jobs: seq<Job>, e: Id)
    requires forall k :: 0 <= k < |jobs| ==> jobs[k].entity != e
    ensures OfEntity(jobs, e) == []
  {
    if jobs != [] {
      OfEntityNone(jobs[..|jobs| - 1], e);
    }
  }

  lemma OfEntitySplit(rest: seq<Job>, i: nat, e: Id)
    requires i < |rest|
    ensures OfEntity(rest, e) ==
            OfEntity(rest[..i], e) + (if rest[i].entity == e then [rest[i]] else []) + OfEntity(rest[i + 1..], e)
    ensures OfEntity(Remove(rest, i), e) == OfEntity(rest[..i], e) + OfEntity(rest[i + 1..], e)
  {
    var a, b := rest[..i], rest[i + 1..];
    assert rest == (a + [rest[i]]) + b && (a + [rest[i]])[..i] == a;
    OfEntityConcat(a + [rest[i]], b, e);
    OfEntityConcat(a, b, e);
  }

  /** Popping the least job takes the head off its own sublist and leaves the others alone. */
  lemma RemoveLeast(rest: seq<Job>, active: map<Id, int>, i: nat, e: Id)
    requires InOrder(rest) && i < |rest| && IsLeast(rest, active, i)
    ensures rest[i].entity == e ==> OfEntity(rest, e) == [rest[i]] + OfEntity(Remove(rest, i), e)
    ensures rest[i].entity != e ==> OfEntity(rest, e) == OfEntity(Remove(rest, i), e)
  {
    OfEntitySplit(rest, i, e);
    if rest[i].entity == e {
      forall k | 0 <= k < i ensures rest[k].entity != e {
        assert Older(rest[k], rest[i]) && Before(active, rest[i], rest[k]);
      }
      OfEntityNone(rest[..i], e);
    }
  }

  lemma RemoveMembers(rest: seq<Job>, i: nat)
    requires i < |rest| && forall k :: 0 <= k < |rest| && k != i ==> rest[k] != rest[i]
    ensures forall j :: j in Remove(rest, i) <==> j in rest && j != rest[i]
  {
  }

  lemma RemoveKeepsOrder(rest: seq<Job>, i: nat)
    requires InOrder(rest) && i < |rest|
    ensures InOrder(Remove(rest, i))
    ensures multiset(Remove(rest, i)) == multiset(rest) - multiset{rest[i]}
    ensures forall j :: j in Remove(rest, i) <==> j in rest && j != rest[i]
  {
    var r := Remove(rest, i);
    assert rest == rest[..i] + [rest[i]] + rest[i + 1..];
    forall k | 0 <= k < |rest| && k != i ensures rest[k] != rest[i] {
      assert Older(rest[if k < i then k else i], rest[if k < i then i else k]);
    }
    RemoveMembers(rest, i);
    forall k, l | 0 <= k < l < |r| ensures Older(r[k], r[l]) {
      assert r[k] == rest[if k < i then k else k + 1] && r[l] == rest[if l < i then l else l + 1];
    }
  }

  // ---- a whole drain ----

  /** The jobs in pop order, the load map being whatever it is at each pop. */
  function Drain(rest: seq<Job>, loads: nat -> map<Id, int>, k: nat): seq<Job>
    decreases |rest|
  {
    if rest == [] then []
    else
      var i := PopIndex(rest, loads(k));
      [rest[i]] + Drain(Remove(rest, i), loads, k + 1)
  }

  /** Draining loses nothing and duplicates nothing ... */
  lemma {:induction false} DrainIsPermutation(rest: seq<Job>, loads: nat -> map<Id, int>, k: nat)
    requires InOrder(rest)
    ensures multiset(Drain(rest, loads, k)) == multiset(rest)
    decreases |rest|
  {
    if rest != [] {
      var i := PopIndex(rest, loads(k));
      RemoveKeepsOrder(rest, i);
      DrainIsPermutation(Remove(rest, i), loads, k + 1);
      assert rest[i] in multiset(rest);
    }
  }

  lemma OfEntityPrepend(j: Job, jobs: seq<Job>, e: Id)
    ensures OfEntity([j] + jobs, e) == (if j.entity == e then [j] else []) + OfEntity(jobs, e)
  {
    OfEntityConcat([j], jobs, e);
    assert [j][..0] == [];
    assert OfEntity([j], e) == if j.entity == e then [j] else [];
  }

  /** ... and keeps every entity's FIFO order, whatever the loads do meanwhile. */
  lemma {:induction false} DrainKeepsFifo(rest: seq<Job>, loads: nat -> map<Id, int>, k: nat, e: Id)
    requires InOrder(rest)
    ensures OfEntity(Drain(rest, loads, k), e) == OfEntity(rest, e)
    decreases |rest|
  {
    if rest != [] {
      var i := PopIndex(rest, loads(k));
      PopIndexIsLeast(rest, loads(k));
      var rest' := Remove(rest, i);
      RemoveKeepsOrder(rest, i);
      RemoveLeast(rest, loads(k), i, e);
      DrainKeepsFifo(rest', loads, k + 1, e);
      assert Drain(rest, loads, k) == [rest[i]] + Drain(rest', loads, k + 1);
      OfEntityPrepend(rest[i], Drain(rest', loads, k + 1), e);
    }
  }

  // ---- the queue ----

  function SumLengths(byEntity: map<Id, seq<Job>>, es: set<Id>): nat
    requires es <= byEntity.Keys
    decreases |es|
  {
    if es == {} then 0 else var e := Pick(es); |byEntity[e]| + SumLengths(byEntity, es - {e})
  }

  /** Some member; sums over a set do not depend on which. */
  function Pick(es: set<Id>): (e: Id)
    requires es != {}
    ensures e in es
  {
    Smallest(es);
    var e :| e in es && forall f :: f in es ==> e.number <= f.number;
    e
  }

  lemma {:induction false} Smallest(es: set<Id>)
    requires es != {}
    ensures exists e :: e in es && forall f :: f in es ==> e.number <= f.number
    decreases |es|
  {
    var e :| e in es;
    if es != {e} {
      assert es - {e} != {};
      Smallest(es - {e});
      var f :| f in es - {e} && forall g :: g in es - {e} ==> f.number <= g.number;
      var least := if e.number <= f.number then e else f;
      assert least in es && forall g :: g in es ==> least.number <= g.number;
    } else {
      assert forall f :: f in es ==> f == e;
    }
  }

  function Without(jobs: seq<Job>, e: Id): seq<Job> {
    if jobs == [] then []
    else Without(jobs[..|jobs| - 1], e) + if jobs[|jobs| - 1].entity == e then [] else [jobs[|jobs| - 1]]
  }

  lemma {:induction false} SplitEntity(jobs: seq<Job>, e: Id, f: Id)
    ensures |jobs| == |OfEntity(jobs, e)| + |Without(jobs, e)|
    ensures e != f ==> OfEntity(Without(jobs, e), f) == OfEntity(jobs, f)
    ensures forall j :: j in Without(jobs, e) ==> j in jobs && j.entity != e
  {
    if jobs != [] {
      var before, last := jobs[..|jobs| - 1], jobs[|jobs| - 1];
      SplitEntity(before, e, f);
      OfEntityConcat(Without(before, e), [last], f);
      assert [last][..0] == [];
      assert Without(before, e) + [] == Without(before, e);
    }
  }

  lemma {:induction false} LengthsAddUp(rest: seq<Job>, byEntity: map<Id, seq<Job>>, es: set<Id>)
    requires es <= byEntity.Keys
    requires forall e :: e in es ==> byEntity[e] == OfEntity(rest, e)
    requires forall j :: j in rest ==> j.entity in es
    ensures |rest| == SumLengths(byEntity, es)
    decreases |es|
  {
    if rest != [] {
      assert rest[0] in rest;
    }
    if es != {} {
      var e := Pick(es);
      SplitEntity(rest, e, e);
      forall f | f in es - {e} ensures byEntity[f] == OfEntity(Without(rest, e), f) {
        SplitEntity(rest, e, f);
      }
      LengthsAddUp(Without(rest, e), byEntity, es - {e});
    }
  }

  /** The per-entity lists of a queue: none empty, none missing. */
  ghost predicate Lists(byEntity: map<Id, seq<Job>>, rest: seq<Job>) {
    && (forall e :: e in byEntity ==> byEntity[e] != [] && byEntity[e] == OfEntity(rest, e))
    && (forall j :: j in rest ==> j.entity in byEntity)
  }

  lemma ListsAppend(byEntity: map<Id, seq<Job>>, rest: seq<Job>, j: Job)
    requires Lists(byEntity, rest)
    ensures Lists(byEntity[j.entity := (if j.entity in byEntity then byEntity[j.entity] else []) + [j]], rest + [j])
  {
    assert (rest + [j])[..|rest|] == rest;
    if j.entity !in byEntity {
      forall k | 0 <= k < |rest| ensures rest[k].entity != j.entity {
        assert rest[k] in rest;
      }
      OfEntityNone(rest, j.entity);
    }
  }

  /** The lists once the head of entity `x` is gone. */
  function PopHead(byEntity: map<Id, seq<Job>>, x: Id): map<Id, seq<Job>>
    requires x in byEntity && byEntity[x] != []
  {
    if |byEntity[x]| == 1 then byEntity - {x} else byEntity[x := byEntity[x][1..]]
  }

  lemma PoppedLists(byEntity: map<Id, seq<Job>>, rest: seq<Job>, active: map<Id, int>, i: nat, e: Id)
    requires InOrder(rest) && i < |rest| && IsLeast(rest, active, i) && Lists(byEntity, rest)
    requires rest[i].entity in byEntity && e in PopHead(byEntity, rest[i].entity)
    ensures PopHead(byEntity, rest[i].entity)[e] != []
    ensures PopHead(byEntity, rest[i].entity)[e] == OfEntity(Remove(rest, i), e)
  {
    RemoveLeast(rest, active, i, e);
    if e == rest[i].entity {
      assert byEntity[e] == [rest[i]] + OfEntity(Remove(rest, i), e);
      assert byEntity[e][1..] == OfEntity(Remove(rest, i), e);
    }
  }

  lemma ListsAfterPop(byEntity: map<Id, seq<Job>>, rest: seq<Job>, active: map<Id, int>, i: nat)
    requires InOrder(rest) && i < |rest| && IsLeast(rest, active, i) && Lists(byEntity, rest)
    ensures rest[i] in rest && rest[i].entity in byEntity
    ensures Lists(PopHead(byEntity, rest[i].entity), Remove(rest, i))
  {
    assert rest[i] in rest;
    var x, rest' := rest[i].entity, Remove(rest, i);
    var byEntity' := PopHead(byEntity, x);
    forall e | e in byEntity' ensures byEntity'[e] != [] && byEntity'[e] == OfEntity(rest', e) {
      PoppedLists(byEntity, rest, active, i, e);
    }
    RemoveKeepsOrder(rest, i);
    RemoveLeast(rest, active, i, x);
    forall j | j in rest' ensures j.entity in byEntity' {
      assert j in rest;
      if j.entity == x {
        OfEntityMembers(rest', x);
        assert j in OfEntity(rest', x);
        assert |byEntity[x]| == 1 + |OfEntity(rest', x)|;
      }
    }
  }

  class FairJobQueue {
    var byEntity: map<Id, seq<Job>>
    var len: int
    ghost var rest: seq<Job>

    ghost predicate Valid() reads this {
      && InOrder(rest)
      && len == |rest|
      && Lists(byEntity, rest)
    }

    constructor (jobs: seq<Job>)
      requires InOrder(jobs)
      ensures Valid() && rest == jobs
    {
      byEntity, len, rest := map[], |jobs|, jobs;
      new;
      for i := 0 to |jobs|
        invariant Lists(byEntity, jobs[..i])
        invariant len == |jobs| && rest == jobs
      {
        var job := jobs[i];
        assert jobs[..i + 1] == jobs[..i] + [job];
        ListsAppend(byEntity, jobs[..i], job);
        byEntity := byEntity[job.entity := (if job.entity in byEntity then byEntity[job.entity] else []) + [job]];
      }
      assert jobs[..|jobs|] == jobs;
    }

    /** No list is empty and `len` is their summed length. */
    lemma LenIsSummedLengths()
      requires Valid()
      ensures len == SumLengths(byEntity, byEntity.Keys)
      ensures forall e :: e in byEntity ==> byEntity[e] != []
    {
      LengthsAddUp(rest, byEntity, byEntity.Keys);
    }

    /** The head-only scan, over the map in any order. */
    method ScanHeads(active: map<Id, int>) returns (selected: Job)
      requires Valid() && len > 0
      ensures selected.entity in byEntity && byEntity[selected.entity][0] == selected
      ensures forall e :: e in byEntity && byEntity[e][0] != selected ==> Before(active, selected, byEntity[e][0])
    {
      assert rest[0] in rest;
      var todo := byEntity.Keys;
      var first :| first in todo;
      selected := byEntity[first][0];
      HeadsComparable(first, first);
      todo := todo - {first};
      while todo != {}
        invariant todo <= byEntity.Keys
        invariant selected.entity in byEntity && byEntity[selected.entity][0] == selected
        invariant forall e :: e in byEntity && e !in todo && byEntity[e][0] != selected ==>
          Before(active, selected, byEntity[e][0])
        decreases |todo|
      {
        var e :| e in todo;
        var candidate := byEntity[e][0];
        HeadsComparable(e, selected.entity);
        if At(active, e) < At(active, selected.entity)
           || (At(active, e) == At(active, selected.entity) && Older(candidate, selected)) {
          selected := candidate;
        }
        todo := todo - {e};
      }
    }

    lemma HeadsComparable(e: Id, f: Id)
      requires Valid() && e in byEntity && f in byEntity
      ensures byEntity[e][0].entity == e && byEntity[f][0].entity == f
      ensures var a, b := byEntity[e][0], byEntity[f][0];
        a == b || Older(a, b) || Older(b, a)
    {
      HeadIsOldest(rest, e);
      HeadIsOldest(rest, f);
      var i :| 0 <= i < |rest| && rest[i] == byEntity[e][0];
      var k :| 0 <= k < |rest| && rest[k] == byEntity[f][0];
    }

    /** What the scan picked is the least of all queued jobs. */
    lemma ScannedIsLeast(active: map<Id, int>, selected: Job)
      requires Valid() && len > 0
      requires selected.entity in byEntity && byEntity[selected.entity][0] == selected
      requires forall e :: e in byEntity && byEntity[e][0] != selected ==> Before(active, selected, byEntity[e][0])
      ensures selected == rest[PopIndex(rest, active)]
    {
      HeadIsOldest(rest, selected.entity);
      PopIndexIsLeast(rest, active);
      var i := PopIndex(rest, active);
      var least := rest[i];
      assert least in rest;
      OfEntityMembers(rest, least.entity);
      HeadIsOldest(rest, least.entity);
      var k :| 0 <= k < |rest| && rest[k] == selected;
      if k != i {
        assert Before(active, least, selected) && Older(rest[if i < k then i else k], rest[if i < k then k else i]);
        var head := byEntity[least.entity][0];
        assert head == selected || Before(active, selected, head);
        assert head == least || Older(head, least);
      }
    }

    method Pop(active: map<Id, int>) returns (selected: Job)
      requires Valid() && len > 0
      modifies this
      ensures Valid()
      ensures var i := PopIndex(old(rest), active);
        selected == old(rest)[i] && rest == Remove(old(rest), i)
    {
      selected := ScanHeads(active);
      ScannedIsLeast(active, selected);
      ghost var i := PopIndex(rest, active);
      PopIndexIsLeast(rest, active);
      RemoveKeepsOrder(rest, i);
      ListsAfterPop(byEntity, rest, active, i);
      var jobs := byEntity[selected.entity];
      rest := Remove(rest, i);
      if |jobs| == 1 {
        byEntity := byEntity - {selected.entity};
      } else {
        byEntity := byEntity[selected.entity := jobs[1..]];
      }
      len := len - 1;
    }
  }
}
