/**
 * The chart data of the department analytics panel
 * (frontend/src/components/ui/DepartmentAnalytics.tsx): the task-status
 * distribution and the per-member workload. Both take the task and user
 * lists the dashboard fetched, in the order it received them.
 */
module DepartmentAnalytics {
  import opened JsStrings
  import opened Models
  import opened Counting

  /** The fields of a listed user that the panel reads. */
  datatype Member = Member(id: Id, name: string)

  // ---------------------------------------------------------------------
  // Filters
  // ---------------------------------------------------------------------

  /** `tasks.filter(t => t.status === status)`. */
  function WithStatus(tasks: seq<Task>, status: string): (r: seq<Task>)
    ensures |r| <= |tasks|
    ensures forall t :: t in r ==> t in tasks && t.status == status
    ensures forall t :: t in tasks && t.status == status ==> t in r
  {
    if tasks == [] then []
    else (if tasks[0].status == status then [tasks[0]] else []) + WithStatus(tasks[1..], status)
  }

  /** The filter keeps list order: filtering a concatenation concatenates the filtered parts. */
  lemma {:induction false} WithStatusAppend(a: seq<Task>, b: seq<Task>, status: string)
    ensures WithStatus(a + b, status) == WithStatus(a, status) + WithStatus(b, status)
    decreases |a|
  {
    if a == [] {
      assert a + b == b;
    } else {
      assert (a + b)[0] == a[0] && (a + b)[1..] == a[1..] + b;
      WithStatusAppend(a[1..], b, status);
    }
  }

  /** Each task with the status is kept as often as it occurs, and no other task is kept. */
  lemma {:induction false} WithStatusMultiplicity(tasks: seq<Task>, status: string, t: Task)
    ensures multiset(WithStatus(tasks, status))[t] == if t.status == status then multiset(tasks)[t] else 0
    decreases |tasks|
  {
    if tasks != [] {
      assert tasks == [tasks[0]] + tasks[1..];
      WithStatusMultiplicity(tasks[1..], status, t);
    }
  }

  /** The positions in `tasks` of the tasks with a given status. */
  function StatusIndices(tasks: seq<Task>, status: string): set<int> {
    set i | 0 <= i < |tasks| && tasks[i].status == status
  }

  lemma StatusIndicesSnoc(a: seq<Task>, t: Task, status: string)
    ensures StatusIndices(a + [t], status) == StatusIndices(a, status) + (if t.status == status then {|a|} else {})
  {
    forall i | 0 <= i < |a| ensures (a + [t])[i] == a[i] { }
  }

  /** A slice's value is the number of positions holding a task with that status. */
  lemma {:induction false} WithStatusCount(tasks: seq<Task>, status: string)
    ensures |WithStatus(tasks, status)| == |StatusIndices(tasks, status)|
    decreases |tasks|
  {
    if tasks != [] {
      var a, t := tasks[..|tasks| - 1], tasks[|tasks| - 1];
      assert tasks == a + [t];
      WithStatusCount(a, status);
      WithStatusAppend(a, [t], status);
      assert [t][1..] == [];
      StatusIndicesSnoc(a, t, status);
      CardAddLast(StatusIndices(a, status), if t.status == status then {|a|} else {}, |a|);
    }
  }

  /** `tasks.filter(t => t.assignedToId === id)`. */
  function AssignedTo(tasks: seq<Task>, id: Id): (r: seq<Task>)
    ensures |r| <= |tasks|
    ensures forall t :: t in r ==> t in tasks && t.assignedToId == id
    ensures forall t :: t in tasks && t.assignedToId == id ==> t in r
  {
    if tasks == [] then []
    else (if tasks[0].assignedToId == id then [tasks[0]] else []) + AssignedTo(tasks[1..], id)
  }

  /** Each task assigned to `id` is kept as often as it occurs, and no other task is kept. */
  lemma {:induction false} AssignedToMultiplicity(tasks: seq<Task>, id: Id, t: Task)
    ensures multiset(AssignedTo(tasks, id))[t] == if t.assignedToId == id then multiset(tasks)[t] else 0
    decreases |tasks|
  {
    if tasks != [] {
      assert tasks == [tasks[0]] + tasks[1..];
      AssignedToMultiplicity(tasks[1..], id, t);
    }
  }

  /** The filter keeps list order: filtering a concatenation concatenates the filtered parts. */
  lemma {:induction false} AssignedToAppend(a: seq<Task>, b: seq<Task>, id: Id)
    ensures AssignedTo(a + b, id) == AssignedTo(a, id) + AssignedTo(b, id)
    decreases |a|
  {
    if a == [] {
      assert a + b == b;
    } else {
      assert (a + b)[0] == a[0] && (a + b)[1..] == a[1..] + b;
      AssignedToAppend(a[1..], b, id);
    }
  }

  // ---------------------------------------------------------------------
  // statusData
  // ---------------------------------------------------------------------

  datatype Slice = Slice(name: string, value: nat)

  const ChartStatuses: seq<string> := ["Pending", "In Progress", "Completed"]

  /** Keeps the slices with a positive count, in order. */
  function DropEmpty(slices: seq<Slice>): (r: seq<Slice>)
    ensures |r| <= |slices|
    ensures forall i :: 0 <= i < |r| ==> r[i].value > 0
    ensures forall s :: s in r <==> s in slices && s.value > 0
  {
    if slices == [] then [] else KeepPositive(slices[0]) + DropEmpty(slices[1..])
  }

  function KeepPositive(s: Slice): seq<Slice> {
    if s.value > 0 then [s] else []
  }

  /** The kept slices keep their order: dropping from a concatenation concatenates what each part keeps. */
  lemma {:induction false} DropEmptyAppend(a: seq<Slice>, b: seq<Slice>)
    ensures DropEmpty(a + b) == DropEmpty(a) + DropEmpty(b)
    decreases |a|
  {
    if a == [] {
      assert a + b == b;
    } else {
      assert (a + b)[0] == a[0] && (a + b)[1..] == a[1..] + b;
      DropEmptyAppend(a[1..], b);
    }
  }

  /** A positive slice is kept as often as it occurs, and an empty one not at all. */
  lemma {:induction false} DropEmptyMultiplicity(slices: seq<Slice>, s: Slice)
    ensures multiset(DropEmpty(slices))[s] == if s.value > 0 then multiset(slices)[s] else 0
    decreases |slices|
  {
    if slices != [] {
      assert slices == [slices[0]] + slices[1..];
      DropEmptyMultiplicity(slices[1..], s);
    }
  }

  /** A chart status's place in the legend: Pending, then In Progress, then Completed. */
  function Rank(name: string): nat {
    if name == "Pending" then 0 else if name == "In Progress" then 1 else 2
  }

  /**
   * `statusData`: the three statuses in order with their counts, zero counts
   * dropped. Every slice carries its own status's count, and the slices
   * follow the legend order.
   */
  function StatusData(tasks: seq<Task>): (r: seq<Slice>)
    ensures |r| <= 3
    ensures forall i :: 0 <= i < |r| ==> r[i].value > 0 && r[i].name in ChartStatuses
    ensures forall s :: s in ChartStatuses ==>
      (Slice(s, |WithStatus(tasks, s)|) in r <==> |WithStatus(tasks, s)| > 0)
    ensures forall i :: 0 <= i < |r| ==> r[i].value == |WithStatus(tasks, r[i].name)|
    ensures forall i, j :: 0 <= i < j < |r| ==> Rank(r[i].name) < Rank(r[j].name)
  {
    var p := Slice("Pending", |WithStatus(tasks, "Pending")|);
    var ip := Slice("In Progress", |WithStatus(tasks, "In Progress")|);
    var c := Slice("Completed", |WithStatus(tasks, "Completed")|);
    DropEmptyOfThree(p, ip, c);
    KeptInOrder(p, ip, c, DropEmpty([p, ip, c]));
    assert forall s :: s in ChartStatuses ==> s == p.name || s == ip.name || s == c.name;
    DropEmpty([p, ip, c])
  }

  /** Of three slices ranked in legend order, the positive ones are kept and stay ranked. */
  lemma KeptInOrder(a: Slice, b: Slice, c: Slice, r: seq<Slice>)
    requires Rank(a.name) < Rank(b.name) < Rank(c.name)
    requires r == KeepPositive(a) + KeepPositive(b) + KeepPositive(c)
    ensures |r| <= 3
    ensures forall i :: 0 <= i < |r| ==> (r[i] == a || r[i] == b || r[i] == c) && r[i].value > 0
    ensures forall s :: s in r <==> (s == a || s == b || s == c) && s.value > 0
    ensures forall i, j :: 0 <= i < j < |r| ==> Rank(r[i].name) < Rank(r[j].name)
  {
    if a.value > 0 {
      if b.value > 0 {
        if c.value > 0 { assert r == [a, b, c]; } else { assert r == [a, b]; }
      } else {
        if c.value > 0 { assert r == [a, c]; } else { assert r == [a]; }
      }
    } else {
      if b.value > 0 {
        if c.value > 0 { assert r == [b, c]; } else { assert r == [b]; }
      } else {
        if c.value > 0 { assert r == [c]; } else { assert r == []; }
      }
    }
  }

  /** Dropping from three slices keeps each positive one, in place. */
  lemma DropEmptyOfThree(a: Slice, b: Slice, c: Slice)
    ensures DropEmpty([a, b, c]) == KeepPositive(a) + KeepPositive(b) + KeepPositive(c)
  {
    assert [c][1..] == [];
    assert DropEmpty([c]) == KeepPositive(c) + [];
    assert KeepPositive(c) + [] == KeepPositive(c);
    assert [b, c][1..] == [c];
    assert DropEmpty([b, c]) == KeepPositive(b) + KeepPositive(c);
    assert [a, b, c][1..] == [b, c];
  }

  /** Each status's slice carries the number of tasks with that status, and is drawn iff there is one. */
  lemma StatusDataCounts(tasks: seq<Task>, status: string)
    requires status in ChartStatuses
    ensures Slice(status, |StatusIndices(tasks, status)|) in StatusData(tasks) <==>
      exists i :: 0 <= i < |tasks| && tasks[i].status == status
  {
    WithStatusCount(tasks, status);
    if exists i :: 0 <= i < |tasks| && tasks[i].status == status {
      var i :| 0 <= i < |tasks| && tasks[i].status == status;
      assert i in StatusIndices(tasks, status);
    }
  }

  /** The three counts together never exceed the number of tasks (the statuses are distinct strings). */
  lemma {:induction false} StatusCountsBounded(tasks: seq<Task>)
    ensures |WithStatus(tasks, "Pending")| + |WithStatus(tasks, "In Progress")| + |WithStatus(tasks, "Completed")| <= |tasks|
    decreases |tasks|
  {
    if tasks != [] {
      StatusCountsBounded(tasks[1..]);
    }
  }

  // ---------------------------------------------------------------------
  // workloadData
  // ---------------------------------------------------------------------

  datatype Workload = Workload(name: string, total: nat, completed: nat, pending: int)

  /** Each member's entry, as in the `map` step: first name, total, completed, and the rest as pending. */
  function EntryOf(m: Member, tasks: seq<Task>): (r: Workload)
    ensures r.name == Split(m.name, ' ')[0]
    ensures r.total == |AssignedTo(tasks, m.id)|
    ensures r.completed == |WithStatus(AssignedTo(tasks, m.id), "Completed")|
    ensures 0 <= r.completed <= r.total && r.pending == r.total - r.completed
  {
    var mine := AssignedTo(tasks, m.id);
    var completed := |WithStatus(mine, "Completed")|;
    Workload(Split(m.name, ' ')[0], |mine|, completed, |mine| - completed)
  }

  function Entries(users: seq<Member>, tasks: seq<Task>): (r: seq<Workload>)
    ensures |r| == |users|
    ensures forall i :: 0 <= i < |users| ==> r[i] == EntryOf(users[i], tasks)
  {
    if users == [] then [] else [EntryOf(users[0], tasks)] + Entries(users[1..], tasks)
  }

  function KeepBusy(entries: seq<Workload>): seq<Workload> {
    if entries == [] then []
    else (if entries[0].total > 0 then [entries[0]] else []) + KeepBusy(entries[1..])
  }

  /** `workloadData`: map every user to an entry, then keep the entries with a positive total. */
  function WorkloadData(users: seq<Member>, tasks: seq<Task>): seq<Workload> {
    KeepBusy(Entries(users, tasks))
  }

  /** The members with at least one task assigned to them, in user order. */
  function Busy(users: seq<Member>, tasks: seq<Task>): (r: seq<Member>)
    ensures forall m :: m in r <==> m in users && |AssignedTo(tasks, m.id)| > 0
  {
    if users == [] then []
    else (if |AssignedTo(tasks, users[0].id)| > 0 then [users[0]] else []) + Busy(users[1..], tasks)
  }

  /** A busy member is kept once for each time it is listed, and no idle member is kept. */
  lemma {:induction false} BusyMultiplicity(users: seq<Member>, tasks: seq<Task>, m: Member)
    ensures multiset(Busy(users, tasks))[m] == if |AssignedTo(tasks, m.id)| > 0 then multiset(users)[m] else 0
    decreases |users|
  {
    if users != [] {
      assert users == [users[0]] + users[1..];
      BusyMultiplicity(users[1..], tasks, m);
    }
  }

  /** The busy members keep user order: a concatenation of user lists gives the concatenation of their busy members. */
  lemma {:induction false} BusyAppend(a: seq<Member>, b: seq<Member>, tasks: seq<Task>)
    ensures Busy(a + b, tasks) == Busy(a, tasks) + Busy(b, tasks)
    decreases |a|
  {
    if a == [] {
      assert a + b == b;
    } else {
      assert (a + b)[0] == a[0] && (a + b)[1..] == a[1..] + b;
      BusyAppend(a[1..], b, tasks);
    }
  }

  /** One entry per member with tasks, in user order, and each entry is that member's. */
  lemma {:induction false} WorkloadPerBusyMember(users: seq<Member>, tasks: seq<Task>)
    ensures |WorkloadData(users, tasks)| == |Busy(users, tasks)|
    ensures forall i :: 0 <= i < |Busy(users, tasks)| ==>
      WorkloadData(users, tasks)[i] == EntryOf(Busy(users, tasks)[i], tasks)
    decreases |users|
  {
    if users != [] {
      WorkloadPerBusyMember(users[1..], tasks);
      assert Entries(users, tasks)[1..] == Entries(users[1..], tasks);
    }
  }

  /** Every entry has completed <= total and pending = total - completed, and a positive total. */
  lemma {:induction false} WorkloadEntriesConsistent(users: seq<Member>, tasks: seq<Task>)
    ensures forall w :: w in WorkloadData(users, tasks) ==>
      && w.total > 0 && w.completed <= w.total && w.pending == w.total - w.completed
  {
    WorkloadPerBusyMember(users, tasks);
    forall w | w in WorkloadData(users, tasks)
      ensures w.total > 0 && w.completed <= w.total && w.pending == w.total - w.completed
    {
      var i :| 0 <= i < |WorkloadData(users, tasks)| && WorkloadData(users, tasks)[i] == w;
      var m := Busy(users, tasks)[i];
      assert m in Busy(users, tasks);
    }
  }

  /** The positions of the tasks assigned to `id`. */
  function AssignedIndices(tasks: seq<Task>, id: Id): set<int> {
    set i | 0 <= i < |tasks| && tasks[i].assignedToId == id
  }

  /** The positions of the tasks assigned to `id` that are not Completed. */
  function UnfinishedIndices(tasks: seq<Task>, id: Id): set<int> {
    set i | 0 <= i < |tasks| && tasks[i].assignedToId == id && tasks[i].status != "Completed"
  }

  lemma AssignedIndicesSnoc(a: seq<Task>, t: Task, id: Id)
    ensures AssignedIndices(a + [t], id) == AssignedIndices(a, id) + (if t.assignedToId == id then {|a|} else {})
    ensures UnfinishedIndices(a + [t], id) ==
      UnfinishedIndices(a, id) + (if t.assignedToId == id && t.status != "Completed" then {|a|} else {})
  {
    forall i | 0 <= i < |a| ensures (a + [t])[i] == a[i] { }
  }

  /**
   * An entry's total is the number of tasks assigned to the member, and its
   * pending count the number of those that are not Completed (Pending,
   * In Progress or any other status alike).
   */
  lemma {:induction false} PendingCountsUnfinished(m: Member, tasks: seq<Task>)
    ensures EntryOf(m, tasks).total == |AssignedIndices(tasks, m.id)|
    ensures EntryOf(m, tasks).pending == |UnfinishedIndices(tasks, m.id)|
    decreases |tasks|
  {
    if tasks != [] {
      var a, t := tasks[..|tasks| - 1], tasks[|tasks| - 1];
      assert tasks == a + [t];
      PendingCountsUnfinished(m, a);
      AssignedToAppend(a, [t], m.id);
      WithStatusAppend(AssignedTo(a, m.id), AssignedTo([t], m.id), "Completed");
      assert [t][1..] == [];
      AssignedIndicesSnoc(a, t, m.id);
      CardAddLast(AssignedIndices(a, m.id), if t.assignedToId == m.id then {|a|} else {}, |a|);
      CardAddLast(UnfinishedIndices(a, m.id),
                  if t.assignedToId == m.id && t.status != "Completed" then {|a|} else {}, |a|);
    }
  }

  /** An 'In Progress' task counts as pending for its assignee. */
  lemma InProgressCountsPending(m: Member, t: Task)
    requires t.assignedToId == m.id && t.status == "In Progress"
    ensures EntryOf(m, [t]).pending == 1
  {
    PendingCountsUnfinished(m, [t]);
    assert UnfinishedIndices([t], m.id) == {0};
  }

  /** An entry's name is the member's name up to its first space. */
  lemma EntryNameIsFirstWord(m: Member, tasks: seq<Task>)
    ensures EntryOf(m, tasks).name <= m.name
    ensures ' ' !in EntryOf(m, tasks).name
    ensures |EntryOf(m, tasks).name| < |m.name| ==> m.name[|EntryOf(m, tasks).name|] == ' '
  {
    SplitFirstPiece(m.name, ' ');
  }

  /** A task whose assignee is no listed member changes no entry, wherever it sits in the list. */
  lemma {:induction false} OrphanTaskIgnored(users: seq<Member>, before: seq<Task>, t: Task, after: seq<Task>)
    requires forall m :: m in users ==> m.id != t.assignedToId
    ensures WorkloadData(users, before + [t] + after) == WorkloadData(users, before + after)
  {
    forall m | m in users
      ensures EntryOf(m, before + [t] + after) == EntryOf(m, before + after)
    {
      OrphanNotAssigned(m.id, before, t, after);
    }
    EntriesAgree(users, before + [t] + after, before + after);
  }

  lemma {:induction false} OrphanNotAssigned(id: Id, before: seq<Task>, t: Task, after: seq<Task>)
    requires t.assignedToId != id
    ensures AssignedTo(before + [t] + after, id) == AssignedTo(before + after, id)
  {
    AssignedToAppend(before + [t], after, id);
    AssignedToAppend(before, [t], id);
    AssignedToAppend(before, after, id);
    assert [t][1..] == [];
    assert AssignedTo([t], id) == [];
  }

  lemma {:induction false} EntriesAgree(users: seq<Member>, tasks1: seq<Task>, tasks2: seq<Task>)
    requires forall m :: m in users ==> EntryOf(m, tasks1) == EntryOf(m, tasks2)
    ensures Entries(users, tasks1) == Entries(users, tasks2)
  {
    forall i | 0 <= i < |users|
      ensures Entries(users, tasks1)[i] == Entries(users, tasks2)[i]
    {
      assert users[i] in users;
    }
  }
}
