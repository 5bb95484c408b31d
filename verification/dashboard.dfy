/** The recruiter board's handlers, taken out of the component state: each
    handler is a function from the board state to the next state together
    with the calls it makes to the lead service, in the order it makes them.
    The service is the in-memory list of LeadStore; running the calls on it
    shows that the optimistic board state and the list agree. */
module Dashboard {
  import opened Types
  import opened Seqs
  import opened Text
  import opened LeadStore
  import opened LeadOrder

  /** A call the board makes to the lead service. */
  datatype StoreCall = UpdateCall(id: string, patch: LeadPatch) | DeleteCall(id: string)

  /** The component state the handlers read and write: the loaded leads, the
      search text, the selected ids in the order they were selected, the lead
      open in the edit dialog, whether the dialog is shown, and the text of
      the task being typed. */
  datatype Board = Board(leads: seq<Lead>, filter: string, selected: seq<string>,
                         editing: Option<Lead>, editOpen: bool, taskText: string)

  /** A handler's outcome: the next state and the calls made, in order. */
  datatype Step = Step(board: Board, calls: seq<StoreCall>)

  /** The leads as the board lays them out in one column. */
  function BoardColumn(b: Board, s: LeadStatus): seq<Lead> {
    Column(Projection(b.leads, b.filter), s)
  }

  // ---------------------------------------------------------------------
  // Running calls against the in-memory list.

  /** The in-memory list after the calls, each applied in turn with the same
      clock reading. */
  function Apply(store: seq<Lead>, calls: seq<StoreCall>, now: Timestamp): (r: seq<Lead>)
    ensures |r| <= |store|
    ensures (forall c :: c in calls ==> c.UpdateCall?) ==> |r| == |store|
    ensures (forall c :: c in calls ==> c.DeleteCall?) ==> forall l :: l in r ==> l in store
    decreases |calls|
  {
    if calls == [] then store
    else
      var next := match calls[0]
        case UpdateCall(id, p) => Update(store, id, p, now).0
        case DeleteCall(id) => Delete(store, id).0;
      assert |next| <= |store| && (calls[0].UpdateCall? ==> |next| == |store|);
      assert calls[0].DeleteCall? ==> forall l :: l in next ==> l in store;
      assert forall c :: c in calls[1..] ==> c in calls;
      Apply(next, calls[1..], now)
  }

  /** Two lists of leads that differ at most in their `updatedAt` stamps. */
  predicate AgreeExceptStamps(a: seq<Lead>, b: seq<Lead>) {
    |a| == |b| && forall i :: 0 <= i < |a| ==> a[i].(updatedAt := b[i].updatedAt) == b[i]
  }

  // ---------------------------------------------------------------------
  // Moving one lead to another stage.

  /** A lead dropped on a column: the board moves it at once, asks the service
      to change its status, and replaces its leads with a fresh fetch when the
      service answers failure. */
  function StatusChange(b: Board, id: string, s: LeadStatus, answer: Response, fetched: seq<Lead>): (r: Step)
    ensures r.calls == [UpdateCall(id, StatusPatch(s))]
    ensures r.board.(leads := b.leads) == b
    ensures !answer.success ==> r.board.leads == fetched
    ensures answer.success ==> |r.board.leads| == |b.leads|
    ensures answer.success ==>
              forall i :: 0 <= i < |b.leads| ==>
                r.board.leads[i] == if b.leads[i].id == id then b.leads[i].(status := s) else b.leads[i]
  {
    var moved := MapWhere(b.leads, (l: Lead) => l.id == id, (l: Lead) => l.(status := s));
    var leads := if answer.success then moved else fetched;
    Step(b.(leads := leads), [UpdateCall(id, StatusPatch(s))])
  }

  /** Against the in-memory list, which always answers success, a move never
      reloads, and the board ends up holding the list the service holds,
      except that the service has refreshed the moved lead's stamp. */
  lemma StatusChangeAgainstStore(b: Board, id: string, s: LeadStatus, now: Timestamp)
    ensures var (store, answer) := Update(b.leads, id, StatusPatch(s), now);
            var r := StatusChange(b, id, s, answer, Fetch(store).data);
            answer.success && Apply(b.leads, r.calls, now) == store
            && AgreeExceptStamps(r.board.leads, store)
            && forall i :: 0 <= i < |store| && b.leads[i].id != id ==> r.board.leads[i] == store[i]
  {
    var (store, answer) := Update(b.leads, id, StatusPatch(s), now);
    var r := StatusChange(b, id, s, answer, Fetch(store).data);
    forall i | 0 <= i < |store| && b.leads[i].id == id
      ensures store[i] == b.leads[i].(status := s, updatedAt := now)
    {
      MergeStatus(b.leads[i], s, now);
    }
    assert Apply(b.leads, r.calls, now) == Apply(store, [], now);
  }

  // ---------------------------------------------------------------------
  // Batch actions on the selection.

  /** One status update per id, in the order of the ids. */
  function StatusCalls(ids: seq<string>, s: LeadStatus): (r: seq<StoreCall>)
    ensures |r| == |ids|
    ensures forall i :: 0 <= i < |ids| ==> r[i] == UpdateCall(ids[i], StatusPatch(s))
  {
    if ids == [] then [] else [UpdateCall(ids[0], StatusPatch(s))] + StatusCalls(ids[1..], s)
  }

  /** One delete per id, in the order of the ids. */
  function DeleteCalls(ids: seq<string>): (r: seq<StoreCall>)
    ensures |r| == |ids|
    ensures forall i :: 0 <= i < |ids| ==> r[i] == DeleteCall(ids[i])
  {
    if ids == [] then [] else [DeleteCall(ids[0])] + DeleteCalls(ids[1..])
  }

  /** Whether a lead's id is among `ids`. */
  function IdIn(ids: seq<string>): Lead -> bool {
    (l: Lead) => l.id in ids
  }

  /** Whether a lead's id is not among `ids`. */
  function IdNotIn(ids: seq<string>): Lead -> bool {
    (l: Lead) => l.id !in ids
  }

  /** The batch stage change: every selected lead takes the status at once,
      the others stay, the selection is cleared, and one update per selected
      id is sent. */
  function BatchStatus(b: Board, s: LeadStatus): (r: Step)
    ensures |r.board.leads| == |b.leads|
    ensures forall i :: 0 <= i < |b.leads| ==>
              r.board.leads[i] == if b.leads[i].id in b.selected then b.leads[i].(status := s) else b.leads[i]
    ensures r.board.selected == []
    ensures r.board.(leads := b.leads, selected := b.selected) == b
    ensures r.calls == StatusCalls(b.selected, s)
  {
    var leads := MapWhere(b.leads, IdIn(b.selected), (l: Lead) => l.(status := s));
    Step(b.(leads := leads, selected := []), StatusCalls(b.selected, s))
  }

  /** After a batch stage change, every selected lead that the search lets
      through shows, with its new status, in that status's column. */
  lemma BatchStatusShowsInColumn(b: Board, s: LeadStatus)
    ensures forall l :: l in b.leads && l.id in b.selected && (b.filter == "" || Matches(l, Lower(b.filter))) ==>
              l.(status := s) in BoardColumn(BatchStatus(b, s).board, s)
  {
    var r := BatchStatus(b, s).board;
    forall l | l in b.leads && l.id in b.selected && (b.filter == "" || Matches(l, Lower(b.filter)))
      ensures l.(status := s) in BoardColumn(r, s)
    {
      var i :| 0 <= i < |b.leads| && b.leads[i] == l;
      assert r.leads[i] == l.(status := s);
      var m := l.(status := s);
      assert m in FilterLeads(r.leads, r.filter);
      assert m in multiset(Projection(r.leads, r.filter));
    }
  }

  /** Running status updates for `ids` one after another sets the status and
      refreshes the stamp of exactly the leads whose id is among them. */
  lemma {:induction false} ApplyStatusCalls(store: seq<Lead>, ids: seq<string>, s: LeadStatus, now: Timestamp)
    decreases |ids|
    ensures |Apply(store, StatusCalls(ids, s), now)| == |store|
    ensures forall i :: 0 <= i < |store| ==>
              Apply(store, StatusCalls(ids, s), now)[i]
                == if store[i].id in ids then store[i].(status := s, updatedAt := now) else store[i]
  {
    if ids != [] {
      var calls := StatusCalls(ids, s);
      var next := Update(store, ids[0], StatusPatch(s), now).0;
      assert calls[1..] == StatusCalls(ids[1..], s);
      assert Apply(store, calls, now) == Apply(next, calls[1..], now);
      forall i | 0 <= i < |store| && store[i].id == ids[0]
        ensures next[i] == store[i].(status := s, updatedAt := now)
      {
        MergeStatus(store[i], s, now);
      }
      ApplyStatusCalls(next, ids[1..], s, now);
      assert forall x :: x in ids <==> x == ids[0] || x in ids[1..];
    }
  }

  /** Against the in-memory list the batch stage change leaves the list as
      the board shows it, up to the stamps the service refreshed. */
  lemma BatchStatusAgainstStore(b: Board, s: LeadStatus, now: Timestamp)
    ensures AgreeExceptStamps(BatchStatus(b, s).board.leads, Apply(b.leads, BatchStatus(b, s).calls, now))
  {
    ApplyStatusCalls(b.leads, b.selected, s, now);
  }

  /** The batch delete: when confirmed, every selected lead leaves the board
      at once and the rest keep their order, the selection is cleared, and
      one delete per selected id is sent; when not confirmed nothing happens. */
  function BatchDelete(b: Board, confirmed: bool): (r: Step)
    ensures !confirmed ==> r == Step(b, [])
    ensures confirmed ==> forall l :: l in r.board.leads <==> l in b.leads && l.id !in b.selected
    ensures confirmed ==> r.board.leads == Filter(b.leads, IdNotIn(b.selected))
    ensures confirmed ==> r.board.selected == [] && r.board.(leads := b.leads, selected := b.selected) == b
    ensures confirmed ==> r.calls == DeleteCalls(b.selected)
  {
    if !confirmed then Step(b, [])
    else Step(b.(leads := Filter(b.leads, IdNotIn(b.selected)), selected := []), DeleteCalls(b.selected))
  }

  /** Running deletes for `ids` one after another is one filter that drops
      every lead whose id is among them. */
  lemma {:induction false} ApplyDeleteCalls(store: seq<Lead>, ids: seq<string>, now: Timestamp)
    decreases |ids|
    ensures Apply(store, DeleteCalls(ids), now) == Filter(store, IdNotIn(ids))
  {
    if ids == [] {
      FilterKeepsAll(store, IdNotIn(ids));
    } else {
      var calls := DeleteCalls(ids);
      var next := Delete(store, ids[0]).0;
      assert calls[1..] == DeleteCalls(ids[1..]);
      assert Apply(store, calls, now) == Apply(next, calls[1..], now);
      ApplyDeleteCalls(next, ids[1..], now);
      assert forall x :: x in ids <==> x == ids[0] || x in ids[1..];
      FilterTwice(store, OtherId(ids[0]), IdNotIn(ids[1..]), IdNotIn(ids));
    }
  }

  /** Against the in-memory list a confirmed batch delete leaves exactly the
      list the board shows. */
  lemma BatchDeleteAgainstStore(b: Board, confirmed: bool, now: Timestamp)
    ensures Apply(b.leads, BatchDelete(b, confirmed).calls, now) == BatchDelete(b, confirmed).board.leads
  {
    if confirmed {
      ApplyDeleteCalls(b.leads, b.selected, now);
    }
  }

  /** Deleting a selection of ids nobody has changes nothing but the selection. */
  lemma BatchDeleteUnknownIds(b: Board)
    requires forall l :: l in b.leads ==> l.id !in b.selected
    ensures BatchDelete(b, true).board.leads == b.leads
  {
    FilterKeepsAll(b.leads, IdNotIn(b.selected));
  }

  // ---------------------------------------------------------------------
  // The edit dialog.

  /** Saving the edit dialog: the edited lead replaces every lead with its id
      on the board, the dialog closes and lets go of the lead, and the whole
      lead is sent to the service as the patch. Without a lead in the dialog
      nothing happens. */
  function EditSubmit(b: Board): (r: Step)
    ensures b.editing.None? ==> r == Step(b, [])
    ensures b.editing.Some? ==>
              var e := b.editing.value;
              && |r.board.leads| == |b.leads|
              && (forall i :: 0 <= i < |b.leads| ==>
                    r.board.leads[i] == if b.leads[i].id == e.id then e else b.leads[i])
              && r.board.editing == None && !r.board.editOpen
              && r.board.(leads := b.leads, editing := b.editing, editOpen := b.editOpen) == b
              && r.calls == [UpdateCall(e.id, FullPatch(e))]
  {
    match b.editing
    case None => Step(b, [])
    case Some(e) =>
      var leads := MapWhere(b.leads, (l: Lead) => l.id == e.id, (l: Lead) => e);
      Step(b.(leads := leads, editing := None, editOpen := false), [UpdateCall(e.id, FullPatch(e))])
  }

  /** Against the in-memory list a saved edit leaves the list as the board
      shows it, except that the service has stamped the edited lead. */
  lemma EditSubmitAgainstStore(b: Board, now: Timestamp)
    requires b.editing.Some?
    ensures var e := b.editing.value;
            var store := Apply(b.leads, EditSubmit(b).calls, now);
            |store| == |b.leads|
            && (forall i :: 0 <= i < |store| ==>
                  store[i] == if b.leads[i].id == e.id then e.(updatedAt := now) else b.leads[i])
            && AgreeExceptStamps(EditSubmit(b).board.leads, store)
  {
    var e := b.editing.value;
    var calls := EditSubmit(b).calls;
    var next := Update(b.leads, e.id, FullPatch(e), now).0;
    assert Apply(b.leads, calls, now) == Apply(next, [], now);
    forall i | 0 <= i < |next| && b.leads[i].id == e.id
      ensures next[i] == e.(updatedAt := now)
    {
      MergeFull(b.leads[i], e, now);
    }
  }

  // ---------------------------------------------------------------------
  // The task list of the lead in the edit dialog.

  /** Adding the typed task: unless no lead is open or the text is only white
      space, a new open task with the text as typed goes first in the lead's
      list and the text box is cleared. */
  function AddTask(b: Board, taskId: string, now: Timestamp): (r: Board)
    ensures b.editing.None? || Blank(b.taskText) ==> r == b
    ensures b.editing.Some? && !Blank(b.taskText) ==>
              && r.editing == Some(b.editing.value.(tasks := [Task(taskId, b.taskText, false, now)] + b.editing.value.tasks))
              && r.taskText == ""
              && r.(editing := b.editing, taskText := b.taskText) == b
  {
    TrimEmptyIffBlank(b.taskText);
    if b.editing.None? || Trim(b.taskText) == [] then b
    else
      var e := b.editing.value;
      b.(editing := Some(e.(tasks := [Task(taskId, b.taskText, false, now)] + e.tasks)), taskText := "")
  }

  /** Flips whether a task is done. */
  function Flip(t: Task): Task {
    t.(isCompleted := !t.isCompleted)
  }

  /** Ticking a task: every task with the id flips its done mark, the other
      tasks and the rest of the lead stay. Without a lead nothing happens. */
  function ToggleTask(b: Board, taskId: string): (r: Board)
    ensures b.editing.None? ==> r == b
    ensures b.editing.Some? ==>
              var ts := b.editing.value.tasks;
              && r.editing.Some?
              && r.(editing := b.editing) == b
              && r.editing.value.(tasks := ts) == b.editing.value
              && |r.editing.value.tasks| == |ts|
              && forall i :: 0 <= i < |ts| ==>
                   r.editing.value.tasks[i] == if ts[i].id == taskId then Flip(ts[i]) else ts[i]
  {
    match b.editing
    case None => b
    case Some(e) => b.(editing := Some(e.(tasks := MapWhere(e.tasks, (t: Task) => t.id == taskId, Flip))))
  }

  /** Ticking the same task twice restores the board. */
  lemma ToggleTwice(b: Board, taskId: string)
    ensures ToggleTask(ToggleTask(b, taskId), taskId) == b
  {
    if b.editing.Some? {
      MapWhereInvolution(b.editing.value.tasks, (t: Task) => t.id == taskId, Flip);
    }
  }

  /** Whether a task has another id than `taskId`. */
  function OtherTask(taskId: string): Task -> bool {
    (t: Task) => t.id != taskId
  }

  /** The task list without the tasks of the id: every other task stays, as
      often as it was there, in its order (TasksWithoutConcat). */
  function TasksWithout(ts: seq<Task>, taskId: string): (r: seq<Task>)
    ensures forall t :: t in r <==> t in ts && t.id != taskId
    ensures forall t :: multiset(r)[t] == if t.id != taskId then multiset(ts)[t] else 0
  {
    Filter(ts, OtherTask(taskId))
  }

  /** Removing from a concatenation is concatenating the removals. */
  lemma TasksWithoutConcat(a: seq<Task>, b: seq<Task>, taskId: string)
    ensures TasksWithout(a + b, taskId) == TasksWithout(a, taskId) + TasksWithout(b, taskId)
  {
    FilterConcat(a, b, OtherTask(taskId));
  }

  /** Removing a task: every task with the id leaves the lead's list, the
      others keep their order. Without a lead nothing happens. */
  function RemoveTask(b: Board, taskId: string): (r: Board)
    ensures b.editing.None? ==> r == b
    ensures b.editing.Some? ==>
              && r.editing.Some?
              && r.(editing := b.editing) == b
              && r.editing.value.(tasks := b.editing.value.tasks) == b.editing.value
              && r.editing.value.tasks == TasksWithout(b.editing.value.tasks, taskId)
  {
    match b.editing
    case None => b
    case Some(e) => b.(editing := Some(e.(tasks := TasksWithout(e.tasks, taskId))))
  }

  /** Removing a task just added under a fresh id gives back the lead as it
      was before the task was added. */
  lemma RemoveAfterAdd(b: Board, taskId: string, now: Timestamp)
    requires b.editing.Some? && !Blank(b.taskText)
    requires forall t :: t in b.editing.value.tasks ==> t.id != taskId
    ensures RemoveTask(AddTask(b, taskId, now), taskId).editing == b.editing
  {
    var e := b.editing.value;
    FilterKeepsAll(e.tasks, OtherTask(taskId));
  }

  // ---------------------------------------------------------------------
  // The board over the sample leads.

  /** What the board needs to know of the sample leads. */
  lemma SeedShape(now: Timestamp)
    ensures |Seed(now)| == 2
    ensures Seed(now)[0].priority == High && Seed(now)[1].priority == Medium
    ensures Seed(now)[0].fullName == "Alexandre Dubois"
    ensures Seed(now)[1].fullName == "Sarah Wagner" && Seed(now)[1].email == "s.wagner@example.de"
    ensures Seed(now)[1].postAppliedFor == "Promoter / Brand Ambassador"
  {
  }

  /** Two leads, a High one first, are already in board order. */
  lemma HighFirstInOrder(a: Lead, b: Lead)
    requires a.priority == High && b.priority != High
    ensures Projection([a, b], "") == [a, b]
  {
    var s := [a, b];
    assert Sorted(s);
    AnyStableSortAgrees(s, s);
  }

  /** The sample leads are already in board order. */
  lemma SeedInBoardOrder(now: Timestamp)
    ensures Projection(Seed(now), "") == Seed(now)
  {
    SeedShape(now);
    var s := Seed(now);
    assert s == [s[0], s[1]];
    HighFirstInOrder(s[0], s[1]);
  }

  /** Searching the sample leads for "dub" leaves only Alexandre Dubois. */
  lemma SeedSearchDub(now: Timestamp)
    ensures FilterLeads(Seed(now), "dub") == [Seed(now)[0]]
  {
    SeedShape(now);
    var s := Seed(now);
    assert s == [s[0], s[1]];
    SearchDub(s[0], s[1]);
  }
}
