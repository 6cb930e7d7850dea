/**
  The replay backlog (src/pipeline.rs, `resume`): each resume that released
  anything leaves one detached task behind, which re-issues the held dispatches
  one by one.
 */
module Replays {
  import opened Basics
  import opened Messages
  import Database

  type Held = (Uuid, HoldPoint)

  ghost function PointsOf(list: seq<Held>, u: Uuid): multiset<HoldPoint> {
    if list == [] then multiset{}
    else (if list[0].0 == u then multiset{list[0].1} else multiset{}) + PointsOf(list[1..], u)
  }

  /** The replays the detached resume tasks still owe a message. */
  ghost function Owed(tasks: seq<seq<Held>>, u: Uuid): multiset<HoldPoint> {
    if tasks == [] then multiset{}
    else Owed(tasks[..|tasks| - 1], u) + PointsOf(tasks[|tasks| - 1], u)
  }

  lemma OwedSnoc(tasks: seq<seq<Held>>, list: seq<Held>, u: Uuid)
    ensures Owed(tasks + [list], u) == Owed(tasks, u) + PointsOf(list, u)
  {
    assert (tasks + [list])[..|tasks|] == tasks;
  }

  /** Taking the head off one task takes exactly that replay off the debt. */
  lemma {:induction false} OwedPop(tasks: seq<seq<Held>>, i: nat, u: Uuid, p: HoldPoint)
    requires i < |tasks| && tasks[i] != []
    ensures Owed(tasks, u)[p] == Owed(tasks[i := tasks[i][1..]], u)[p] + if tasks[i][0] == (u, p) then 1 else 0
  {
    var n := |tasks| - 1;
    var tasks' := tasks[i := tasks[i][1..]];
    if i < n {
      OwedPop(tasks[..n], i, u, p);
      assert tasks'[..n] == tasks[..n][i := tasks[i][1..]];
    } else {
      assert tasks'[..n] == tasks[..n];
    }
  }

  lemma OwedHead(tasks: seq<seq<Held>>, i: nat, u: Uuid)
    requires i < |tasks| && tasks[i] != []
    ensures var (v, p) := tasks[i][0];
      if u != v then Owed(tasks[i := tasks[i][1..]], u) == Owed(tasks, u)
      else p in Owed(tasks, u) && Owed(tasks[i := tasks[i][1..]], u) == Owed(tasks, u) - multiset{p}
  {
    forall p { OwedPop(tasks, i, u, p); }
  }

  /** The held set, listed in uuid7 order. */
  ghost predicate ListsHeld(list: seq<Held>, held: map<Uuid, HoldPoint>) {
    && (forall i, j :: 0 <= i < j < |list| ==> list[i].0 < list[j].0)
    && (forall i :: 0 <= i < |list| ==> list[i].0 in held && list[i].1 == held[list[i].0])
    && (forall u {:trigger Lists(list, u)} :: u in held ==> Lists(list, u))
  }

  ghost predicate Lists(list: seq<Held>, u: Uuid) {
    exists i :: 0 <= i < |list| && list[i].0 == u
  }

  lemma {:induction false} PointsOfAbsent(list: seq<Held>, u: Uuid)
    requires forall i :: 0 <= i < |list| ==> list[i].0 != u
    ensures PointsOf(list, u) == multiset{}
  {
    if list != [] {
      PointsOfAbsent(list[1..], u);
    }
  }

  lemma {:induction false} PointsOfAt(list: seq<Held>, k: nat)
    requires k < |list| && forall i, j :: 0 <= i < j < |list| ==> list[i].0 < list[j].0
    ensures PointsOf(list, list[k].0) == multiset{list[k].1}
  {
    var u := list[k].0;
    if k == 0 {
      PointsOfAbsent(list[1..], u);
    } else {
      PointsOfAt(list[1..], k - 1);
    }
  }

  lemma PointsOfHeld(list: seq<Held>, held: map<Uuid, HoldPoint>, u: Uuid)
    requires ListsHeld(list, held)
    ensures PointsOf(list, u) == if u in held then multiset{held[u]} else multiset{}
  {
    if u in held {
      assert Lists(list, u);
      var k :| 0 <= k < |list| && list[k].0 == u;
      PointsOfAt(list, k);
    } else {
      PointsOfAbsent(list, u);
    }
  }

  function Spawned(tasks: seq<seq<Held>>, list: seq<Held>): seq<seq<Held>> {
    if list == [] then tasks else tasks + [list]
  }

  lemma SpawnedOwes(tasks: seq<seq<Held>>, list: seq<Held>, held: map<Uuid, HoldPoint>, u: Uuid)
    requires ListsHeld(list, held)
    ensures Owed(Spawned(tasks, list), u) == Owed(tasks, u) + if u in held then multiset{held[u]} else multiset{}
  {
    PointsOfHeld(list, held, u);
    OwedSnoc(tasks, list, u);
  }

  /** The debt to one message, out of a table of them. */
  ghost function Debt(owed: map<Uuid, multiset<HoldPoint>>, u: Uuid): multiset<HoldPoint> {
    if u in owed then owed[u] else multiset{}
  }

  class ReplayTasks {
    /** What each task still has to replay. */
    var tasks: seq<seq<Held>>
    /** The same debt, message by message. */
    ghost var owed: map<Uuid, multiset<HoldPoint>>

    ghost function Of(u: Uuid): multiset<HoldPoint>
      reads this
    {
      Debt(owed, u)
    }

    ghost predicate Valid()
      reads this
    {
      forall u {:trigger Owed(tasks, u)} :: Debt(owed, u) == Owed(tasks, u)
    }

    constructor ()
      ensures Valid() && tasks == [] && forall u :: Of(u) == multiset{}
    {
      tasks, owed := [], map[];
    }

    /** A task for the whole of a held set; none when nothing was held. */
    method Spawn(list: seq<Held>, ghost held: map<Uuid, HoldPoint>)
      requires Valid() && ListsHeld(list, held)
      modifies this
      ensures Valid() && tasks == Spawned(old(tasks), list)
      ensures forall u :: Of(u) == old(Of(u)) + if u in held then multiset{held[u]} else multiset{}
    {
      ghost var more := map u | u in owed.Keys + held.Keys :: Debt(owed, u) + if u in held then multiset{held[u]} else multiset{};
      forall u
        ensures Debt(more, u) == Owed(Spawned(tasks, list), u)
      {
        SpawnedOwes(tasks, list, held, u);
        assert Debt(owed, u) == Owed(tasks, u);
      }
      owed, tasks := more, Spawned(tasks, list);
    }

    /** The next replay of task `i`, taken off its list. */
    method Pop(i: nat) returns (next: Held)
      requires Valid() && i < |tasks| && tasks[i] != []
      modifies this
      ensures Valid() && next == old(tasks)[i][0] && tasks == old(tasks)[i := old(tasks)[i][1..]]
      ensures next.1 in old(Of(next.0))
      ensures forall u :: Of(u) == old(Of(u)) - if u == next.0 then multiset{next.1} else multiset{}
    {
      next := tasks[i][0];
      ghost var less := owed[next.0 := Debt(owed, next.0) - multiset{next.1}];
      forall u
        ensures Debt(less, u) == Owed(tasks[i := tasks[i][1..]], u)
        ensures u == next.0 ==> next.1 in Owed(tasks, u)
      {
        OwedHead(tasks, i, u);
        assert Debt(owed, u) == Owed(tasks, u);
      }
      assert Debt(owed, next.0) == Owed(tasks, next.0);
      owed, tasks := less, tasks[i := tasks[i][1..]];
    }
  }

  /** The held set in uuid7 order: the order a B-tree map hands it out in. */
  method InUuidOrder(held: map<Uuid, HoldPoint>) returns (list: seq<Held>)
    ensures ListsHeld(list, held) && |list| == |held|
  {
    var order := InOrder(held.Keys);
    Database.AscendingSize(order, held.Keys);
    list := [];
    for k := 0 to |order|
      invariant |list| == k
      invariant forall i :: 0 <= i < k ==> order[i] in held && list[i] == (order[i], held[order[i]])
    {
      assert order[k] in order;
      list := list + [(order[k], held[order[k]])];
    }
    forall u | u in held
      ensures Lists(list, u)
    {
      assert u in order;
      var i :| 0 <= i < |order| && order[i] == u;
      assert list[i].0 == u;
    }
  }
}
