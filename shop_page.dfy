/**
 * The admin shop screen: search over shop tasks and equipment, the board
 * columns that split tasks by status, and the equipment status badge.
 */
module ShopPage {
  import opened Wrappers
  import opened Text
  import Seqs

  datatype TaskType = Maintenance | Repair | Inspection | Other

  datatype TaskStatus = Pending | InProgress | Completed | Cancelled

  datatype TaskEquipment = TaskEquipment(id: string, name: string, kind: string)

  datatype ShopTask = ShopTask(
    id: string, title: string, kind: TaskType, status: TaskStatus, priority: int,
    dueDate: Option<string>, equipment: Option<TaskEquipment>)

  datatype Equipment = Equipment(id: string, name: string, kind: string, status: string, nextServiceDate: Option<string>)

  // ----- search -----

  /** A task matches a non-empty query by title or by its equipment's name. */
  predicate TaskMatches(task: ShopTask, searchQuery: string) {
    var q := Lower(searchQuery);
    || searchQuery == ""
    || Includes(Lower(task.title), q)
    || (task.equipment.Some? && Includes(Lower(task.equipment.value.name), q))
  }

  /** Equipment matches a non-empty query by name. */
  predicate EquipmentMatches(eq: Equipment, searchQuery: string) {
    searchQuery == "" || Includes(Lower(eq.name), Lower(searchQuery))
  }

  function TaskMatcher(searchQuery: string): ShopTask -> bool {
    (task: ShopTask) => TaskMatches(task, searchQuery)
  }

  function EquipmentMatcher(searchQuery: string): Equipment -> bool {
    (eq: Equipment) => EquipmentMatches(eq, searchQuery)
  }

  /** `filteredTasks`: the matching tasks, or none while the list is loading. */
  function FilteredTasks(tasks: Option<seq<ShopTask>>, searchQuery: string): seq<ShopTask> {
    if tasks.None? then [] else Seqs.Filter(TaskMatcher(searchQuery), tasks.value)
  }

  /** `filteredEquipment`: the matching equipment, or none while the list is loading. */
  function FilteredEquipment(equipment: Option<seq<Equipment>>, searchQuery: string): seq<Equipment> {
    if equipment.None? then [] else Seqs.Filter(EquipmentMatcher(searchQuery), equipment.value)
  }

  /** Both lists keep, in order, exactly their matching items; an empty query keeps everything. */
  lemma FilteredSpec(tasks: Option<seq<ShopTask>>, equipment: Option<seq<Equipment>>, searchQuery: string)
    ensures tasks.None? ==> FilteredTasks(tasks, searchQuery) == []
    ensures equipment.None? ==> FilteredEquipment(equipment, searchQuery) == []
    ensures tasks.Some? ==> Seqs.IsSubsequence(FilteredTasks(tasks, searchQuery), tasks.value)
    ensures equipment.Some? ==> Seqs.IsSubsequence(FilteredEquipment(equipment, searchQuery), equipment.value)
    ensures tasks.Some? ==> forall t :: t in FilteredTasks(tasks, searchQuery) <==> t in tasks.value && TaskMatches(t, searchQuery)
    ensures equipment.Some? ==> forall e :: e in FilteredEquipment(equipment, searchQuery) <==>
              e in equipment.value && EquipmentMatches(e, searchQuery)
    ensures tasks.Some? && searchQuery == "" ==> FilteredTasks(tasks, searchQuery) == tasks.value
    ensures equipment.Some? && searchQuery == "" ==> FilteredEquipment(equipment, searchQuery) == equipment.value
  {
    if tasks.Some? {
      Seqs.FilterIsSubsequence(TaskMatcher(searchQuery), tasks.value);
      Seqs.FilterMembers(TaskMatcher(searchQuery), tasks.value);
      if searchQuery == "" {
        Seqs.FilterAll(TaskMatcher(searchQuery), tasks.value);
      }
    }
    if equipment.Some? {
      Seqs.FilterIsSubsequence(EquipmentMatcher(searchQuery), equipment.value);
      Seqs.FilterMembers(EquipmentMatcher(searchQuery), equipment.value);
      if searchQuery == "" {
        Seqs.FilterAll(EquipmentMatcher(searchQuery), equipment.value);
      }
    }
  }

  // ----- board columns -----

  function StatusIs(status: TaskStatus): ShopTask -> bool {
    (task: ShopTask) => task.status == status
  }

  /** The tasks of one board column: the filtered tasks with that status, in order. */
  function Column(filtered: seq<ShopTask>, status: TaskStatus): seq<ShopTask> {
    Seqs.Filter(StatusIs(status), filtered)
  }

  function NotCancelled(): ShopTask -> bool {
    (task: ShopTask) => task.status != Cancelled
  }

  function PendingOrInProgress(): ShopTask -> bool {
    (task: ShopTask) => task.status == Pending || task.status == InProgress
  }

  /**
   * The pending, in-progress and completed columns hold exactly the filtered
   * tasks of their status, so no task is in two columns, a cancelled task is
   * in none, and the three columns together count every task not cancelled.
   */
  lemma {:induction false} ColumnsSpec(filtered: seq<ShopTask>)
    ensures forall s: TaskStatus, t :: t in Column(filtered, s) <==> t in filtered && t.status == s
    ensures forall s1: TaskStatus, s2: TaskStatus, t :: s1 != s2 ==> !(t in Column(filtered, s1) && t in Column(filtered, s2))
    ensures forall t: ShopTask :: t.status == Cancelled ==>
              t !in Column(filtered, Pending) && t !in Column(filtered, InProgress) && t !in Column(filtered, Completed)
    ensures |Column(filtered, Pending)| + |Column(filtered, InProgress)| + |Column(filtered, Completed)|
            == |Seqs.Filter(NotCancelled(), filtered)|
    ensures forall s: TaskStatus :: Seqs.IsSubsequence(Column(filtered, s), filtered)
  {
    forall s: TaskStatus
      ensures (forall t :: t in Column(filtered, s) <==> t in filtered && t.status == s)
      ensures Seqs.IsSubsequence(Column(filtered, s), filtered)
    {
      Seqs.FilterMembers(StatusIs(s), filtered);
      Seqs.FilterIsSubsequence(StatusIs(s), filtered);
    }
    Seqs.LengthFilterSplit(PendingOrInProgress(), StatusIs(Pending), StatusIs(InProgress), filtered);
    Seqs.LengthFilterSplit(NotCancelled(), PendingOrInProgress(), StatusIs(Completed), filtered);
  }

  /** `completedTasks.slice(0, 5)`: the completed column shows its first five tasks. */
  function CompletedShown(filtered: seq<ShopTask>): (r: seq<ShopTask>)
    ensures |r| == if |Column(filtered, Completed)| < 5 then |Column(filtered, Completed)| else 5
    ensures r <= Column(filtered, Completed)
    ensures |Column(filtered, Completed)| <= 5 ==> r == Column(filtered, Completed)
    ensures forall i :: 0 <= i < |r| ==> r[i].status == Completed
  {
    Seqs.Take(Column(filtered, Completed), 5)
  }

  // ----- equipment badge -----

  datatype BadgeStyle = CompletedBadge | PendingBadge | NeutralBadge

  /** The badge text: "In Shop" for equipment in the shop, otherwise the raw status. */
  function BadgeLabel(eq: Equipment): (r: string)
    ensures eq.status == "in_shop" ==> r == "In Shop"
    ensures eq.status != "in_shop" ==> r == eq.status
  {
    if eq.status == "in_shop" then "In Shop" else eq.status
  }

  /** The badge colour: active equipment looks completed, equipment in the shop looks pending. */
  function BadgeStyleOf(eq: Equipment): (r: BadgeStyle)
    ensures r == CompletedBadge <==> eq.status == "active"
    ensures r == PendingBadge <==> eq.status == "in_shop"
  {
    if eq.status == "active" then CompletedBadge
    else if eq.status == "in_shop" then PendingBadge
    else NeutralBadge
  }
}
