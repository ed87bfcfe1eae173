/** The kanban page's local board (src/pages/Todo.tsx): three columns of tasks,
    moved between columns when their check mark is toggled. */
module TodoBoard {
  import opened Wrappers
  import opened Text

  datatype Task = Task(id: int, title: string, priority: string, dueDate: string, completed: bool)

  datatype Column = ThisWeek | InProgress | Completed

  datatype Board = Board(thisWeek: seq<Task>, inProgress: seq<Task>, completed: seq<Task>) {

    function Get(c: Column): seq<Task> {
      match c
      case ThisWeek => thisWeek
      case InProgress => inProgress
      case Completed => completed
    }

    function Set(c: Column, ts: seq<Task>): (b: Board)
      ensures b.Get(c) == ts
      ensures forall d :: d != c ==> b.Get(d) == Get(d)
    {
      match c
      case ThisWeek => this.(thisWeek := ts)
      case InProgress => this.(inProgress := ts)
      case Completed => this.(completed := ts)
    }
  }

  /** The page state: the board and the text of the "new task" input. */
  datatype Page = Page(board: Board, newTask: string)

  function Ids(ts: seq<Task>): (r: seq<int>)
    ensures |r| == |ts|
    ensures forall i :: 0 <= i < |ts| ==> r[i] == ts[i].id
  {
    seq(|ts|, i requires 0 <= i < |ts| => ts[i].id)
  }

  lemma {:induction false} IdsCons(t: Task, ts: seq<Task>)
    ensures Ids([t] + ts) == [t.id] + Ids(ts)
  {
  }

  /** Every task id on the board, counted with multiplicity. */
  function BoardIds(b: Board): multiset<int> {
    multiset(Ids(b.thisWeek)) + multiset(Ids(b.inProgress)) + multiset(Ids(b.completed))
  }

  /** No id appears twice anywhere on the board. */
  ghost predicate UniqueIds(b: Board) {
    forall id :: BoardIds(b)[id] <= 1
  }

  /** Tasks in the completed column are checked, tasks elsewhere are not. */
  predicate Consistent(b: Board) {
    && (forall t :: t in b.thisWeek ==> !t.completed)
    && (forall t :: t in b.inProgress ==> !t.completed)
    && (forall t :: t in b.completed ==> t.completed)
  }

  /** `Array.prototype.find` by id: the index of the first task with that id. */
  function FindIndex(ts: seq<Task>, id: int): (r: Option<nat>)
    ensures r.None? <==> forall i :: 0 <= i < |ts| ==> ts[i].id != id
    ensures r.Some? ==> r.value < |ts| && ts[r.value].id == id
    ensures r.Some? ==> forall i :: 0 <= i < r.value ==> ts[i].id != id
  {
    if |ts| == 0 then None
    else if ts[0].id == id then Some(0)
    else match FindIndex(ts[1..], id)
      case None => None
      case Some(k) => Some(k + 1)
  }

  /** `ts.filter(t => t.id !== id)`: every task without that id, in order. */
  function RemoveId(ts: seq<Task>, id: int): (r: seq<Task>)
    ensures (forall i :: 0 <= i < |ts| ==> ts[i].id != id) ==> r == ts
  {
    if |ts| == 0 then []
    else (if ts[0].id == id then [] else [ts[0]]) + RemoveId(ts[1..], id)
  }

  /** What the filter keeps is a task of the column without the id. */
  lemma {:induction false} RemoveIdSubset(ts: seq<Task>, id: int)
    ensures forall t :: t in RemoveId(ts, id) ==> t in ts && t.id != id
  {
    if |ts| > 0 {
      RemoveIdSubset(ts[1..], id);
    }
  }

  lemma {:induction false} RemoveIdAppend(a: seq<Task>, b: seq<Task>, id: int)
    ensures RemoveId(a + b, id) == RemoveId(a, id) + RemoveId(b, id)
  {
    if |a| == 0 {
      assert a + b == b;
    } else {
      assert (a + b)[1..] == a[1..] + b;
      RemoveIdAppend(a[1..], b, id);
    }
  }

  /** Filtering out an id held only at index `k` removes exactly that task. */
  lemma {:induction false} RemoveOnly(ts: seq<Task>, k: nat, id: int)
    requires k < |ts| && ts[k].id == id
    requires forall j :: 0 <= j < |ts| && j != k ==> ts[j].id != id
    ensures RemoveId(ts, id) == ts[..k] + ts[k + 1..]
  {
    var pre, post := ts[..k], ts[k + 1..];
    var tail := [ts[k]] + post;
    assert ts == pre + tail;
    RemoveIdAppend(pre, tail, id);
    assert forall i :: 0 <= i < |pre| ==> pre[i].id != id by {
      forall i | 0 <= i < |pre| ensures pre[i].id != id { assert pre[i] == ts[i]; }
    }
    assert RemoveId(pre, id) == pre;
    assert forall i :: 0 <= i < |post| ==> post[i].id != id by {
      forall i | 0 <= i < |post| ensures post[i].id != id { assert post[i] == ts[k + 1 + i]; }
    }
    assert RemoveId(post, id) == post;
    assert tail[0].id == id && tail[1..] == post;
    assert RemoveId(tail, id) == RemoveId(post, id);
  }

  /** Two indices holding the same id give that id a count of at least two. */
  lemma {:induction false} TwoOccurrences(ts: seq<Task>, j: nat, k: nat)
    requires j < k < |ts| && ts[j].id == ts[k].id
    ensures multiset(Ids(ts))[ts[k].id] >= 2
  {
    var s := Ids(ts);
    assert s == s[..j] + [s[j]] + s[j + 1..k] + [s[k]] + s[k + 1..];
  }

  /** With board-wide unique ids, an id is held by one index of a column at most. */
  lemma {:induction false} OnlyIndex(b: Board, c: Column, k: nat)
    requires UniqueIds(b) && k < |b.Get(c)|
    ensures forall j :: 0 <= j < |b.Get(c)| && j != k ==> b.Get(c)[j].id != b.Get(c)[k].id
  {
    var ts := b.Get(c);
    forall j | 0 <= j < |ts| && j != k
      ensures ts[j].id != ts[k].id
    {
      if ts[j].id == ts[k].id {
        if j < k { TwoOccurrences(ts, j, k); } else { TwoOccurrences(ts, k, j); }
        ColumnCount(b, c, ts[k].id);
        assert false;
      }
    }
  }

  lemma {:induction false} ColumnCount(b: Board, c: Column, x: int)
    ensures multiset(Ids(b.Get(c)))[x] <= BoardIds(b)[x]
  {
  }

  /** Ids of a column with index `k` cut out, plus that one id, are the column's ids. */
  lemma {:induction false} IdsSplice(ts: seq<Task>, k: nat)
    requires k < |ts|
    ensures multiset(Ids(ts[..k] + ts[k + 1..])) + multiset{ts[k].id} == multiset(Ids(ts))
  {
    assert Ids(ts) == Ids(ts[..k]) + [ts[k].id] + Ids(ts[k + 1..]);
    assert Ids(ts[..k] + ts[k + 1..]) == Ids(ts[..k]) + Ids(ts[k + 1..]);
  }

  /** The check-mark handler: flips the first task with `taskId` in `from`; a task that
      became checked leaves a non-completed column for the head of the completed
      column, a task that became unchecked leaves the completed column for the head
      of the this-week column, and otherwise it stays where it is, flipped. */
  function ToggleTask(b: Board, taskId: int, from: Column): (r: Board)
    ensures FindIndex(b.Get(from), taskId).None? ==> r == b
  {
    var col := b.Get(from);
    match FindIndex(col, taskId)
    case None => b
    case Some(k) =>
      var t := col[k].(completed := !col[k].completed);
      if t.completed && from != Completed then
        b.Set(from, RemoveId(col, taskId)).Set(Completed, [t] + b.completed)
      else if !t.completed && from == Completed then
        b.Set(Completed, RemoveId(col, taskId)).Set(ThisWeek, [t] + b.thisWeek)
      else
        b.Set(from, col[k := t])
  }

  /** Checking an unchecked task of the this-week or in-progress column removes it from
      that column and puts it, checked and otherwise unchanged, at the head of the
      completed column; the third column is untouched. */
  lemma {:induction false} ToggleCompletes(b: Board, from: Column, k: nat)
    requires UniqueIds(b) && from != Completed
    requires k < |b.Get(from)| && !b.Get(from)[k].completed
    ensures var t := b.Get(from)[k];
      var r := ToggleTask(b, t.id, from);
      && r.Get(from) == b.Get(from)[..k] + b.Get(from)[k + 1..]
      && r.completed == [t.(completed := true)] + b.completed
      && r.Get(if from == ThisWeek then InProgress else ThisWeek)
         == b.Get(if from == ThisWeek then InProgress else ThisWeek)
  {
    OnlyIndex(b, from, k);
    RemoveOnly(b.Get(from), k, b.Get(from)[k].id);
  }

  /** Unchecking a checked task of the completed column removes it from that column and
      puts it, unchecked and otherwise unchanged, at the head of the this-week column;
      the in-progress column is untouched. */
  lemma {:induction false} ToggleReopens(b: Board, k: nat)
    requires UniqueIds(b)
    requires k < |b.completed| && b.completed[k].completed
    ensures var t := b.completed[k];
      var r := ToggleTask(b, t.id, Completed);
      && r.completed == b.completed[..k] + b.completed[k + 1..]
      && r.thisWeek == [t.(completed := false)] + b.thisWeek
      && r.inProgress == b.inProgress
  {
    OnlyIndex(b, Completed, k);
    RemoveOnly(b.completed, k, b.completed[k].id);
  }

  /** No task is lost or duplicated by a toggle: the multiset of ids on the board is
      unchanged, so ids stay unique. */
  lemma {:induction false} ToggleKeepsIds(b: Board, taskId: int, from: Column)
    requires UniqueIds(b)
    ensures BoardIds(ToggleTask(b, taskId, from)) == BoardIds(b)
    ensures UniqueIds(ToggleTask(b, taskId, from))
  {
    ToggleSameIds(b, taskId, from);
  }

  lemma {:induction false} ToggleSameIds(b: Board, taskId: int, from: Column)
    requires UniqueIds(b)
    ensures BoardIds(ToggleTask(b, taskId, from)) == BoardIds(b)
  {
    var col := b.Get(from);
    match FindIndex(col, taskId)
    case None =>
    case Some(k) =>
      var t := col[k].(completed := !col[k].completed);
      if t.completed && from != Completed {
        OnlyIndex(b, from, k);
        RemoveOnly(col, k, taskId);
        MoveKeepsIds(b, from, Completed, k);
      } else if !t.completed && from == Completed {
        OnlyIndex(b, from, k);
        RemoveOnly(col, k, taskId);
        MoveKeepsIds(b, Completed, ThisWeek, k);
      } else {
        FlipKeepsIds(b, from, k);
      }
  }

  /** Flipping a task's check mark where it stands keeps the board's ids. */
  lemma {:induction false} FlipKeepsIds(b: Board, c: Column, k: nat)
    requires k < |b.Get(c)|
    ensures var col := b.Get(c);
      BoardIds(b.Set(c, col[k := col[k].(completed := !col[k].completed)])) == BoardIds(b)
  {
    var col := b.Get(c);
    var ts := col[k := col[k].(completed := !col[k].completed)];
    assert Ids(ts) == Ids(col);
    SetKeepsIds(b, c, ts);
  }

  /** Replacing a column by one with the same ids keeps the board's ids. */
  lemma {:induction false} SetKeepsIds(b: Board, c: Column, ts: seq<Task>)
    requires Ids(ts) == Ids(b.Get(c))
    ensures BoardIds(b.Set(c, ts)) == BoardIds(b)
  {
  }

  /** Cutting index `k` out of column `from` and putting a task with the same id at the
      head of another column `to` keeps the board's ids. */
  lemma {:induction false} MoveKeepsIds(b: Board, from: Column, to: Column, k: nat)
    requires from != to && k < |b.Get(from)|
    ensures forall t: Task :: t.id == b.Get(from)[k].id ==>
      BoardIds(b.Set(from, b.Get(from)[..k] + b.Get(from)[k + 1..]).Set(to, [t] + b.Get(to))) == BoardIds(b)
  {
    var col := b.Get(from);
    forall t: Task | t.id == col[k].id
      ensures BoardIds(b.Set(from, col[..k] + col[k + 1..]).Set(to, [t] + b.Get(to))) == BoardIds(b)
    {
      IdsSplice(col, k);
      assert Ids([t] + b.Get(to)) == [t.id] + Ids(b.Get(to));
      var b1 := b.Set(from, col[..k] + col[k + 1..]);
      var b2 := b1.Set(to, [t] + b.Get(to));
      assert multiset(Ids(b2.Get(from))) + multiset{t.id} == multiset(Ids(b.Get(from)));
      assert multiset(Ids(b2.Get(to))) == multiset{t.id} + multiset(Ids(b.Get(to)));
      ThreeColumns(b, b2, from, to);
    }
  }

  /** Board ids add up over the three columns, whichever two are singled out. */
  lemma {:induction false} ThreeColumns(b: Board, b2: Board, from: Column, to: Column)
    requires from != to
    requires forall c :: c != from && c != to ==> b2.Get(c) == b.Get(c)
    requires multiset(Ids(b2.Get(from))) + multiset(Ids(b2.Get(to)))
      == multiset(Ids(b.Get(from))) + multiset(Ids(b.Get(to)))
    ensures BoardIds(b2) == BoardIds(b)
  {
    var other := if ThisWeek != from && ThisWeek != to then ThisWeek
      else if InProgress != from && InProgress != to then InProgress
      else Completed;
    assert b2.Get(other) == b.Get(other);
    SplitIds(b, from, to, other);
    SplitIds(b2, from, to, other);
  }

  /** The board's ids are the ids of its three columns, in whatever order they are named. */
  lemma {:induction false} SplitIds(b: Board, c1: Column, c2: Column, c3: Column)
    requires c1 != c2 && c2 != c3 && c1 != c3
    ensures BoardIds(b) == multiset(Ids(b.Get(c1))) + multiset(Ids(b.Get(c2))) + multiset(Ids(b.Get(c3)))
  {
  }

  /** A toggle changes only the `completed` flag of the toggled task: every task on the
      new board is either a task of the old board or the toggled one with its flag
      flipped, keeping its id, title, priority and due date. */
  lemma {:induction false} ToggleFlipsOnlyCompleted(b: Board, taskId: int, from: Column, c: Column, i: nat)
    requires UniqueIds(b)
    requires i < |ToggleTask(b, taskId, from).Get(c)|
    ensures var t := ToggleTask(b, taskId, from).Get(c)[i];
      || t in b.thisWeek || t in b.inProgress || t in b.completed
      || exists k :: 0 <= k < |b.Get(from)| && b.Get(from)[k].id == taskId
           && t == b.Get(from)[k].(completed := !b.Get(from)[k].completed)
  {
    var col := b.Get(from);
    var r := ToggleTask(b, taskId, from);
    match FindIndex(col, taskId)
    case None =>
      assert r.Get(c)[i] in b.Get(c);
    case Some(k) =>
      var t := col[k].(completed := !col[k].completed);
      if (t.completed && from != Completed) || (!t.completed && from == Completed) {
        MovedFromBoard(b, taskId, from, k, c, i);
      } else {
        if c != from { assert r.Get(c)[i] in b.Get(c); }
        else if i != k { assert r.Get(c)[i] == col[i]; }
      }
  }

  /** The moving branches of the toggle: every task shown came from the board or is the
      flipped one. */
  lemma {:induction false} MovedFromBoard(b: Board, taskId: int, from: Column, k: nat, c: Column, i: nat)
    requires FindIndex(b.Get(from), taskId) == Some(k)
    requires var t := b.Get(from)[k];
      (!t.completed && from != Completed) || (t.completed && from == Completed)
    requires i < |ToggleTask(b, taskId, from).Get(c)|
    ensures var x := ToggleTask(b, taskId, from).Get(c)[i];
      x in b.Get(c) || x in b.Get(from) || x == b.Get(from)[k].(completed := !b.Get(from)[k].completed)
  {
    var col := b.Get(from);
    var r := ToggleTask(b, taskId, from);
    var dest := if from == Completed then ThisWeek else Completed;
    if c == from {
      RemoveIdSubset(col, taskId);
      assert r.Get(c) == RemoveId(col, taskId);
      assert r.Get(c)[i] in RemoveId(col, taskId);
    } else if c == dest {
      assert r.Get(c) == [col[k].(completed := !col[k].completed)] + b.Get(c);
      if i > 0 { assert r.Get(c)[i] == b.Get(c)[i - 1]; }
    } else {
      assert r.Get(c) == b.Get(c);
    }
  }

  /** On a board whose columns agree with the check marks, a toggle always moves the
      task (the in-place branch is never taken) and the board stays consistent. */
  lemma {:induction false} ToggleKeepsConsistent(b: Board, taskId: int, from: Column)
    requires Consistent(b)
    ensures Consistent(ToggleTask(b, taskId, from))
  {
    var col := b.Get(from);
    match FindIndex(col, taskId)
    case None =>
    case Some(k) =>
      assert col[k] in col;
      RemoveIdSubset(col, taskId);
  }

  /** Checking the head of the this-week column and then unchecking it from the head of
      the completed column restores the board. */
  lemma {:induction false} ToggleRoundTrip(b: Board)
    requires UniqueIds(b) && Consistent(b) && |b.thisWeek| > 0
    ensures var id := b.thisWeek[0].id;
      ToggleTask(ToggleTask(b, id, ThisWeek), id, Completed) == b
  {
    var t := b.thisWeek[0];
    var on := t.(completed := true);
    var b1 := ToggleTask(b, t.id, ThisWeek);
    CheckHead(b);
    ToggleKeepsIds(b, t.id, ThisWeek);
    assert b1.completed[0] == on;
    ToggleReopens(b1, 0);
    var b2 := ToggleTask(b1, t.id, Completed);
    assert b2.completed == b.completed by {
      assert b1.completed[1..] == b.completed;
    }
    assert on.(completed := false) == t;
    assert b2.thisWeek == b.thisWeek by {
      assert [t] + b.thisWeek[1..] == b.thisWeek;
    }
  }

  /** Checking the head of the this-week column of a consistent board. */
  lemma {:induction false} CheckHead(b: Board)
    requires UniqueIds(b) && Consistent(b) && |b.thisWeek| > 0
    ensures var t := b.thisWeek[0];
      ToggleTask(b, t.id, ThisWeek) == Board(b.thisWeek[1..], b.inProgress, [t.(completed := true)] + b.completed)
  {
    var t := b.thisWeek[0];
    assert t in b.thisWeek;
    ToggleCompletes(b, ThisWeek, 0);
  }

  /** The "add task" handler: ignored when the input is blank; otherwise a new unchecked
      task with the untrimmed input as title, medium priority and due "This Week" goes
      to the head of the this-week column, and the input is cleared. */
  function AddTask(p: Page, stamp: int): (r: Page)
    ensures IsBlank(p.newTask) ==> r == p
    ensures !IsBlank(p.newTask) ==>
      && r.board.thisWeek == [Task(stamp, p.newTask, "medium", "This Week", false)] + p.board.thisWeek
      && r.board.inProgress == p.board.inProgress
      && r.board.completed == p.board.completed
      && r.newTask == ""
  {
    if Trim(p.newTask) == [] then p
    else
      var task := Task(stamp, p.newTask, "medium", "This Week", false);
      Page(p.board.(thisWeek := [task] + p.board.thisWeek), "")
  }

  /** Adding a task adds exactly its id to the board. */
  lemma {:induction false} AddTaskIds(p: Page, stamp: int)
    requires !IsBlank(p.newTask)
    ensures BoardIds(AddTask(p, stamp).board) == BoardIds(p.board) + multiset{stamp}
  {
    var task := Task(stamp, p.newTask, "medium", "This Week", false);
    var b := AddTask(p, stamp).board;
    assert b.thisWeek == [task] + p.board.thisWeek;
    IdsCons(task, p.board.thisWeek);
    PrependIds(b, p.board, stamp);
  }

  /** A task added under a fresh stamp keeps ids unique, and it is unchecked in the
      this-week column, so the board stays consistent. */
  lemma {:induction false} AddTaskKeepsInvariants(p: Page, stamp: int)
    requires UniqueIds(p.board) && stamp !in BoardIds(p.board) && Consistent(p.board)
    ensures UniqueIds(AddTask(p, stamp).board)
    ensures Consistent(AddTask(p, stamp).board)
  {
    if !IsBlank(p.newTask) {
      AddTaskUnique(p, stamp);
      AddTaskConsistent(p, stamp);
    }
  }

  lemma {:induction false} AddTaskUnique(p: Page, stamp: int)
    requires !IsBlank(p.newTask)
    requires UniqueIds(p.board) && stamp !in BoardIds(p.board)
    ensures UniqueIds(AddTask(p, stamp).board)
  {
    AddTaskIds(p, stamp);
    FreshStaysUnique(BoardIds(p.board), stamp);
  }

  lemma {:induction false} AddTaskConsistent(p: Page, stamp: int)
    requires !IsBlank(p.newTask) && Consistent(p.board)
    ensures Consistent(AddTask(p, stamp).board)
  {
    var b := AddTask(p, stamp).board;
    var task := Task(stamp, p.newTask, "medium", "This Week", false);
    assert b.thisWeek == [task] + p.board.thisWeek;
    assert b.inProgress == p.board.inProgress && b.completed == p.board.completed;
    PrependUnchecked(task, p.board.thisWeek);
  }

  lemma PrependUnchecked(task: Task, ts: seq<Task>)
    requires !task.completed && forall t :: t in ts ==> !t.completed
    ensures forall t :: t in [task] + ts ==> !t.completed
  {
  }

  lemma FreshStaysUnique(m: multiset<int>, x: int)
    requires forall id :: m[id] <= 1
    requires x !in m
    ensures forall id :: (m + multiset{x})[id] <= 1
  {
  }

  lemma {:induction false} PrependIds(b: Board, old_: Board, stamp: int)
    requires Ids(b.thisWeek) == [stamp] + Ids(old_.thisWeek)
    requires b.inProgress == old_.inProgress && b.completed == old_.completed
    ensures BoardIds(b) == BoardIds(old_) + multiset{stamp}
  {
    assert multiset(Ids(b.thisWeek)) == multiset{stamp} + multiset(Ids(old_.thisWeek));
  }

  /** The tone of a priority label: high, medium and low map to the destructive, warning
      and success tones, anything else to the muted tone. */
  function PriorityColor(priority: string): (r: string)
    ensures r == "text-destructive" <==> priority == "high"
    ensures r == "text-warning" <==> priority == "medium"
    ensures r == "text-success" <==> priority == "low"
    ensures r == "text-muted-foreground" <==> priority !in {"high", "medium", "low"}
  {
    match priority
    case "high" => "text-destructive"
    case "medium" => "text-warning"
    case "low" => "text-success"
    case _ => "text-muted-foreground"
  }

  /** The card background of a priority label, in the same tones as `PriorityColor`. */
  function PriorityBg(priority: string): (r: string)
    ensures r == "bg-destructive/10 border-destructive/20" <==> priority == "high"
    ensures r == "bg-warning/10 border-warning/20" <==> priority == "medium"
    ensures r == "bg-success/10 border-success/20" <==> priority == "low"
    ensures r == "bg-muted/10 border-border" <==> priority !in {"high", "medium", "low"}
  {
    match priority
    case "high" => "bg-destructive/10 border-destructive/20"
    case "medium" => "bg-warning/10 border-warning/20"
    case "low" => "bg-success/10 border-success/20"
    case _ => "bg-muted/10 border-border"
  }

  /** Text colour and background classify priorities alike: two labels share a colour
      exactly when they share a background. */
  lemma {:induction false} PriorityStylesAgree(p: string, q: string)
    ensures PriorityColor(p) == PriorityColor(q) <==> PriorityBg(p) == PriorityBg(q)
  {
  }
}
