/** The persisted task board (src/hooks/useTodos.tsx): the signed-in user's rows of
    the `todos` table, split into three columns by status, and the writes the hook
    issues. The hosted table is an in-memory sequence of rows; each handler yields the
    write it would send (or none), and `Apply` performs that write on the table. */
module TodoStore {
  import opened Wrappers
  import opened Text

  const ThisWeek := "thisWeek"
  const InProgress := "inProgress"
  const Completed := "completed"

  datatype Row = Row(
    id: string, userId: string, title: string, description: Option<string>,
    priority: string, status: string, completed: bool, completedAt: Option<string>,
    createdAt: string)

  /** The three columns of the fetched board. */
  datatype Buckets = Buckets(thisWeek: seq<Row>, inProgress: seq<Row>, completed: seq<Row>)

  /** A `Partial<Todo>` update: each present field overwrites the row's; for
      `completedAt`, `Some(None)` writes null. */
  datatype Patch = Patch(
    title: Option<string>, priority: Option<string>, status: Option<string>,
    completed: Option<bool>, completedAt: Option<Option<string>>)

  /** One write against the `todos` table. Update and delete are filtered by both the
      row id and the owner's user id. */
  datatype Write =
    | Insert(userId: string, title: string, description: Option<string>, priority: string, status: string)
    | Update(id: string, userId: string, patch: Patch)
    | Delete(id: string, userId: string)

  /** `completed_at: todo.completed_at || undefined`: an empty timestamp reads as absent. */
  function Normalize(r: Row): (n: Row)
    ensures n.id == r.id && n.userId == r.userId && n.status == r.status
    ensures n.completed == r.completed && n.title == r.title && n.priority == r.priority
    ensures n.completedAt.Some? <==> r.completedAt.Some? && r.completedAt.value != ""
  {
    if r.completedAt == Some("") then r.(completedAt := None) else r
  }

  /** `data.filter(todo => todo.status === status).map(...)`. */
  function Bucket(rows: seq<Row>, status: string): (b: seq<Row>)
    ensures |b| <= |rows|
    ensures forall i :: 0 <= i < |b| ==> b[i].status == status
  {
    if |rows| == 0 then []
    else (if rows[0].status == status then [Normalize(rows[0])] else []) + Bucket(rows[1..], status)
  }

  /** `col` holds, normalised, exactly the rows of `rows` whose status is `status`. */
  ghost predicate Filed(col: seq<Row>, rows: seq<Row>, status: string) {
    && (forall r :: r in rows && r.status == status ==> Normalize(r) in col)
    && (forall x :: x in col ==> exists r :: r in rows && r.status == status && Normalize(r) == x)
  }

  /** The categorisation step of `fetchTodos`: each column holds exactly the rows of its
      status; a row with any other status lands in no column. */
  function Categorize(rows: seq<Row>): (b: Buckets)
    ensures Filed(b.thisWeek, rows, ThisWeek)
    ensures Filed(b.inProgress, rows, InProgress)
    ensures Filed(b.completed, rows, Completed)
    ensures forall r :: r in rows && r.status !in {ThisWeek, InProgress, Completed} ==>
      Normalize(r) !in b.thisWeek + b.inProgress + b.completed
  {
    BucketMembers(rows, ThisWeek);
    BucketMembers(rows, InProgress);
    BucketMembers(rows, Completed);
    Buckets(Bucket(rows, ThisWeek), Bucket(rows, InProgress), Bucket(rows, Completed))
  }

  /** The column a status key names; any other key names none (`todos[key]` is undefined).
      On a categorised board the column a key names holds the rows of that status. */
  function Column(b: Buckets, key: string): (c: Option<seq<Row>>)
    ensures c.Some? <==> key in {ThisWeek, InProgress, Completed}
    ensures forall rows :: b == Categorize(rows) && c.Some? ==> Filed(c.value, rows, key)
  {
    if key == ThisWeek then Some(b.thisWeek)
    else if key == InProgress then Some(b.inProgress)
    else if key == Completed then Some(b.completed)
    else None
  }

  /** The signed-in user's rows, in the table's order. */
  function OwnRows(table: seq<Row>, uid: string): (r: seq<Row>)
    ensures |r| <= |table|
    ensures forall i :: 0 <= i < |r| ==> r[i].userId == uid
  {
    if |table| == 0 then []
    else (if table[0].userId == uid then [table[0]] else []) + OwnRows(table[1..], uid)
  }

  /** `col` holds, normalised, exactly the rows of `table` owned by `uid` whose status is
      `status`. */
  ghost predicate FiledFor(col: seq<Row>, table: seq<Row>, uid: string, status: string) {
    && (forall r :: r in table && r.userId == uid && r.status == status ==> Normalize(r) in col)
    && (forall x :: x in col ==>
          exists r :: r in table && r.userId == uid && r.status == status && Normalize(r) == x)
  }

  /** `fetchTodos`: nothing without a user; otherwise the user's rows by status, no other
      user's row appearing on the board. */
  function FetchTodos(user: Option<string>, table: seq<Row>): (b: Option<Buckets>)
    ensures b.None? <==> user.None?
    ensures b.Some? ==> FiledFor(b.value.thisWeek, table, user.value, ThisWeek)
    ensures b.Some? ==> FiledFor(b.value.inProgress, table, user.value, InProgress)
    ensures b.Some? ==> FiledFor(b.value.completed, table, user.value, Completed)
  {
    match user
    case None => None
    case Some(uid) =>
      OwnRowsMembers(table, uid);
      Some(Categorize(OwnRows(table, uid)))
  }

  /** First row with the given id (`Array.prototype.find`). */
  function Find(rows: seq<Row>, id: string): (r: Option<Row>)
    ensures r.Some? ==> r.value in rows && r.value.id == id
    ensures r.None? <==> forall i :: 0 <= i < |rows| ==> rows[i].id != id
  {
    if |rows| == 0 then None
    else if rows[0].id == id then Some(rows[0])
    else Find(rows[1..], id)
  }

  /** `addTodo`: no write without a user or with a blank title; otherwise one insert of
      the trimmed title into the this-week column, priority defaulting to medium. */
  function AddTodo(user: Option<string>, title: string, description: Option<string>,
                   priority: Option<string>): (w: Option<Write>)
    ensures w.None? <==> user.None? || IsBlank(title)
    ensures w.Some? ==> (
      && w.value.Insert? && w.value.userId == user.value
      && w.value.title == Trim(title) && w.value.status == ThisWeek
      && w.value.description == description
      && w.value.priority == (if priority.Some? then priority.value else "medium"))
  {
    if user.None? || Trim(title) == [] then None
    else Some(Insert(user.value, Trim(title), description, priority.GetOr("medium"), ThisWeek))
  }

  /** `updateTodo`: no write without a user; otherwise an update of the row with that id
      owned by the user. */
  function UpdateTodo(user: Option<string>, todoId: string, patch: Patch): (w: Option<Write>)
    ensures w.None? <==> user.None?
    ensures w.Some? ==> w.value == Update(todoId, user.value, patch)
  {
    match user
    case None => None
    case Some(uid) => Some(Update(todoId, uid, patch))
  }

  /** The patch `toggleTodo` sends for a row whose flag was `wasCompleted`. */
  function TogglePatch(wasCompleted: bool, stamp: string): (p: Patch)
    ensures p.completed == Some(!wasCompleted)
    ensures p.status == Some(if !wasCompleted then Completed else ThisWeek)
    ensures p.completedAt == Some(if !wasCompleted then Some(stamp) else None)
    ensures p.title.None? && p.priority.None?
  {
    var done := !wasCompleted;
    Patch(None, None, Some(if done then Completed else ThisWeek), Some(done),
          Some(if done then Some(stamp) else None))
  }

  /** `toggleTodo`: looks the id up in the column named by `fromStatus` of the fetched
      board; no write if it is not there, otherwise the toggle patch for that row. */
  function ToggleTodo(user: Option<string>, board: Buckets, todoId: string, fromStatus: string,
                      stamp: string): (w: Option<Write>)
    ensures (Column(board, fromStatus).None? || Find(Column(board, fromStatus).value, todoId).None?)
      ==> w.None?
  {
    match Column(board, fromStatus)
    case None => None
    case Some(col) =>
      match Find(col, todoId)
      case None => None
      case Some(todo) => UpdateTodo(user, todoId, TogglePatch(todo.completed, stamp))
  }

  /** `moveTodo`: an update of the status alone. */
  function MoveTodo(user: Option<string>, todoId: string, toStatus: string): (w: Option<Write>)
    ensures w.None? <==> user.None?
    ensures w.Some? ==> (
      && w.value.Update? && w.value.id == todoId && w.value.userId == user.value
      && w.value.patch.status == Some(toStatus)
      && w.value.patch.completed.None? && w.value.patch.completedAt.None?)
  {
    UpdateTodo(user, todoId, Patch(None, None, Some(toStatus), None, None))
  }

  /** `deleteTodo`: no write without a user; otherwise a delete of the user's row. */
  function DeleteTodo(user: Option<string>, todoId: string): (w: Option<Write>)
    ensures w.None? <==> user.None?
    ensures w.Some? ==> w.value == Delete(todoId, user.value)
  {
    match user
    case None => None
    case Some(uid) => Some(Delete(todoId, uid))
  }

  function ApplyPatch(r: Row, p: Patch): Row {
    r.(title := p.title.GetOr(r.title),
       priority := p.priority.GetOr(r.priority),
       status := p.status.GetOr(r.status),
       completed := p.completed.GetOr(r.completed),
       completedAt := p.completedAt.GetOr(r.completedAt))
  }

  /** Whether a row is the one a filtered update or delete addresses. */
  predicate Matches(r: Row, id: string, uid: string) {
    r.id == id && r.userId == uid
  }

  function UpdateRows(table: seq<Row>, id: string, uid: string, p: Patch): (t: seq<Row>)
    ensures |t| == |table|
    ensures forall i :: 0 <= i < |table| && !Matches(table[i], id, uid) ==> t[i] == table[i]
    ensures forall i :: 0 <= i < |table| && Matches(table[i], id, uid) ==> t[i] == ApplyPatch(table[i], p)
  {
    if |table| == 0 then []
    else
      var head := if Matches(table[0], id, uid) then ApplyPatch(table[0], p) else table[0];
      [head] + UpdateRows(table[1..], id, uid, p)
  }

  function DeleteRows(table: seq<Row>, id: string, uid: string): (t: seq<Row>)
    ensures forall r :: r in t <==> r in table && !Matches(r, id, uid)
  {
    if |table| == 0 then []
    else (if Matches(table[0], id, uid) then [] else [table[0]]) + DeleteRows(table[1..], id, uid)
  }

  /** Performs a write on the table. An insert gets the id `newId` and creation stamp
      `stamp`, and starts unchecked with no completion time. */
  function Apply(table: seq<Row>, w: Write, newId: string, stamp: string): (t: seq<Row>)
    ensures w.Insert? ==> (
      && |t| == |table| + 1 && t[..|table|] == table
      && t[|table|] == Row(newId, w.userId, w.title, w.description, w.priority, w.status,
                           false, None, stamp))
    ensures w.Update? ==> |t| == |table| && forall i :: 0 <= i < |table| ==>
      t[i] == if Matches(table[i], w.id, w.userId) then ApplyPatch(table[i], w.patch) else table[i]
    ensures w.Delete? ==> forall r :: r in t <==> r in table && !Matches(r, w.id, w.userId)
  {
    match w
    case Insert(uid, title, desc, priority, status) =>
      table + [Row(newId, uid, title, desc, priority, status, false, None, stamp)]
    case Update(id, uid, p) => UpdateRows(table, id, uid, p)
    case Delete(id, uid) => DeleteRows(table, id, uid)
  }

  // ---------------------------------------------------------------------------
  // Fetching: the three columns are filters of the fetched rows

  /** The split is a filter applied piecewise, so each column keeps the fetched order. */
  lemma {:induction false} BucketAppend(a: seq<Row>, b: seq<Row>, status: string)
    ensures Bucket(a + b, status) == Bucket(a, status) + Bucket(b, status)
  {
    if |a| == 0 {
      assert a + b == b;
    } else {
      assert (a + b)[1..] == a[1..] + b;
      BucketAppend(a[1..], b, status);
    }
  }

  /** A single row lands in the column of its own status and in no other. */
  lemma BucketSingle(r: Row, status: string)
    ensures Bucket([r], status) == if r.status == status then [Normalize(r)] else []
  {
    assert [r][1..] == [];
  }

  /** Every row with the status is in the column, and every entry of the column is a
      fetched row with that status. */
  lemma {:induction false} BucketMembers(rows: seq<Row>, status: string)
    ensures forall r :: r in rows && r.status == status ==> Normalize(r) in Bucket(rows, status)
    ensures forall x :: x in Bucket(rows, status) ==>
      exists r :: r in rows && r.status == status && Normalize(r) == x
  {
    if |rows| > 0 {
      BucketMembers(rows[1..], status);
      assert rows == [rows[0]] + rows[1..];
    }
  }

  /** When every row carries one of the three statuses, the columns hold all of them. */
  lemma {:induction false} CategorizeCount(rows: seq<Row>)
    requires forall i :: 0 <= i < |rows| ==> rows[i].status in {ThisWeek, InProgress, Completed}
    ensures var b := Categorize(rows); |b.thisWeek| + |b.inProgress| + |b.completed| == |rows|
  {
    if |rows| > 0 {
      CategorizeCount(rows[1..]);
    }
  }

  lemma {:induction false} OwnRowsMembers(table: seq<Row>, uid: string)
    ensures forall r :: r in OwnRows(table, uid) <==> r in table && r.userId == uid
  {
    if |table| > 0 {
      OwnRowsMembers(table[1..], uid);
      assert table == [table[0]] + table[1..];
    }
  }

  // ---------------------------------------------------------------------------
  // Writes only reach the signed-in user's addressed row

  /** Ids are a primary key. */
  ghost predicate UniqueIds(table: seq<Row>) {
    forall i, j :: 0 <= i < |table| && 0 <= j < |table| && table[i].id == table[j].id ==> i == j
  }

  /** A move changes nothing but the status of the addressed row: completion flags and
      times of every row are kept, and rows of other users are untouched. */
  lemma MoveKeepsCompletion(user: Option<string>, table: seq<Row>, todoId: string, toStatus: string,
                            newId: string, stamp: string)
    requires user.Some?
    ensures var t := Apply(table, MoveTodo(user, todoId, toStatus).value, newId, stamp);
      && |t| == |table|
      && forall i :: 0 <= i < |t| ==>
        && t[i].completed == table[i].completed
        && t[i].completedAt == table[i].completedAt
        && t[i].status == (if Matches(table[i], todoId, user.value) then toStatus else table[i].status)
  {
  }

  /** A delete removes exactly the user's row with that id. */
  lemma DeleteOnlyOwned(user: Option<string>, table: seq<Row>, todoId: string, newId: string, stamp: string)
    requires user.Some?
    ensures var t := Apply(table, DeleteTodo(user, todoId).value, newId, stamp);
      forall r :: r in t <==> r in table && !(r.id == todoId && r.userId == user.value)
  {
  }

  /** What `toggleTodo` finds for a row of the user's board: the fetched copy of that
      very row, given that ids are unique. */
  lemma {:induction false} FoundIsRow(table: seq<Row>, uid: string, k: nat, status: string)
    requires UniqueIds(table) && k < |table| && table[k].userId == uid && table[k].status == status
    ensures var col := Bucket(OwnRows(table, uid), status);
      Find(col, table[k].id) == Some(Normalize(table[k]))
  {
    var own := OwnRows(table, uid);
    var col := Bucket(own, status);
    OwnRowsMembers(table, uid);
    BucketMembers(own, status);
    assert Normalize(table[k]) in col;
    var found := Find(col, table[k].id);
    assert found.Some?;
    var r :| r in own && r.status == status && Normalize(r) == found.value;
    var j :| 0 <= j < |table| && table[j] == r;
    assert j == k;
  }

  /** Toggling a row of the user's board writes the flipped flag, the matching status and
      completion time to that row alone; re-fetching then shows it in the completed
      column exactly when it became completed, and in the this-week column otherwise. */
  lemma {:induction false} ToggleThenFetch(table: seq<Row>, uid: string, k: nat, stamp: string,
                                           newId: string, created: string)
    requires UniqueIds(table) && k < |table| && table[k].userId == uid
    requires table[k].status in {ThisWeek, InProgress, Completed}
    ensures var board := FetchTodos(Some(uid), table).value;
      var w := ToggleTodo(Some(uid), board, table[k].id, table[k].status, stamp);
      && w.Some?
      && var t := Apply(table, w.value, newId, created);
      && |t| == |table|
      && (forall i :: 0 <= i < |t| && i != k ==> t[i] == table[i])
      && t[k] == ApplyPatch(table[k], TogglePatch(table[k].completed, stamp))
      && t[k].completed == !table[k].completed
      && (Normalize(t[k]) in FetchTodos(Some(uid), t).value.completed <==> t[k].completed)
      && (Normalize(t[k]) in FetchTodos(Some(uid), t).value.thisWeek <==> !t[k].completed)
  {
    var row := table[k];
    ToggleWrite(table, uid, k, stamp);
    var p := TogglePatch(row.completed, stamp);
    UpdateOnlyAt(table, k, uid, p);
    var t := UpdateRows(table, row.id, uid, p);
    RefetchShows(t, uid, k);
  }

  /** The write `toggleTodo` issues for a row of the user's fetched board. */
  lemma {:induction false} ToggleWrite(table: seq<Row>, uid: string, k: nat, stamp: string)
    requires UniqueIds(table) && k < |table| && table[k].userId == uid
    requires table[k].status in {ThisWeek, InProgress, Completed}
    ensures ToggleTodo(Some(uid), FetchTodos(Some(uid), table).value, table[k].id, table[k].status, stamp)
      == Some(Update(table[k].id, uid, TogglePatch(table[k].completed, stamp)))
  {
    var board := FetchTodos(Some(uid), table).value;
    FoundIsRow(table, uid, k, table[k].status);
    assert Column(board, table[k].status) == Some(Bucket(OwnRows(table, uid), table[k].status));
  }

  /** With unique ids, an update addressed to row `k` changes row `k` alone. */
  lemma {:induction false} UpdateOnlyAt(table: seq<Row>, k: nat, uid: string, p: Patch)
    requires UniqueIds(table) && k < |table| && table[k].userId == uid
    ensures var t := UpdateRows(table, table[k].id, uid, p);
      && (forall i :: 0 <= i < |t| && i != k ==> t[i] == table[i])
      && t[k] == ApplyPatch(table[k], p)
  {
    assert forall i :: 0 <= i < |table| && i != k ==> !Matches(table[i], table[k].id, uid);
  }

  /** A row of the user's shows up, after a fetch, in the column of its status. */
  lemma {:induction false} RefetchShows(t: seq<Row>, uid: string, k: nat)
    requires k < |t| && t[k].userId == uid
    requires t[k].status == (if t[k].completed then Completed else ThisWeek)
    ensures Normalize(t[k]) in FetchTodos(Some(uid), t).value.completed <==> t[k].completed
    ensures Normalize(t[k]) in FetchTodos(Some(uid), t).value.thisWeek <==> !t[k].completed
  {
    var own := OwnRows(t, uid);
    OwnRowsMembers(t, uid);
    assert t[k] in own;
    BucketMembers(own, Completed);
    BucketMembers(own, ThisWeek);
    if t[k].completed {
      assert Normalize(t[k]) !in Bucket(own, ThisWeek);
    } else {
      assert Normalize(t[k]) !in Bucket(own, Completed);
    }
  }

  /** Two toggles of an unchecked this-week row, re-fetching in between, restore the table. */
  lemma {:induction false} ToggleTwiceRestores(table: seq<Row>, uid: string, k: nat,
                                               stamp1: string, stamp2: string, newId: string, created: string)
    requires UniqueIds(table) && k < |table| && table[k].userId == uid
    requires table[k].status == ThisWeek && !table[k].completed && table[k].completedAt.None?
    ensures var w1 := ToggleTodo(Some(uid), FetchTodos(Some(uid), table).value, table[k].id, ThisWeek, stamp1);
      && w1.Some?
      && var t1 := Apply(table, w1.value, newId, created);
      && var w2 := ToggleTodo(Some(uid), FetchTodos(Some(uid), t1).value, table[k].id, Completed, stamp2);
      && w2.Some?
      && Apply(t1, w2.value, newId, created) == table
  {
    var id := table[k].id;
    var p1 := TogglePatch(false, stamp1);
    ToggleStep(table, uid, k, stamp1, newId, created);
    var t1 := UpdateRows(table, id, uid, p1);
    UpdateTwice(table, k, uid, stamp1, stamp2);
    ToggleStep(t1, uid, k, stamp2, newId, created);
  }

  /** A toggle of a row of the user's fetched board is the update of that row by the
      toggle patch. */
  lemma ToggleStep(table: seq<Row>, uid: string, k: nat, stamp: string, newId: string, created: string)
    requires UniqueIds(table) && k < |table| && table[k].userId == uid
    requires table[k].status in {ThisWeek, InProgress, Completed}
    ensures var p := TogglePatch(table[k].completed, stamp);
      var w := ToggleTodo(Some(uid), FetchTodos(Some(uid), table).value, table[k].id, table[k].status, stamp);
      && w == Some(Update(table[k].id, uid, p))
      && Apply(table, w.value, newId, created) == UpdateRows(table, table[k].id, uid, p)
  {
    ToggleWrite(table, uid, k, stamp);
  }

  /** Checking then unchecking an unchecked this-week row restores it, and the row in
      between is completed with unique ids kept. */
  lemma UpdateTwice(table: seq<Row>, k: nat, uid: string, stamp1: string, stamp2: string)
    requires UniqueIds(table) && k < |table| && table[k].userId == uid
    requires table[k].status == ThisWeek && !table[k].completed && table[k].completedAt.None?
    ensures var t1 := UpdateRows(table, table[k].id, uid, TogglePatch(false, stamp1));
      && UniqueIds(t1) && k < |t1| && t1[k].id == table[k].id && t1[k].userId == uid
      && t1[k].status == Completed && t1[k].completed
      && UpdateRows(t1, table[k].id, uid, TogglePatch(true, stamp2)) == table
  {
    var p1 := TogglePatch(false, stamp1);
    var p2 := TogglePatch(true, stamp2);
    var id := table[k].id;
    UpdateOnlyAt(table, k, uid, p1);
    var t1 := UpdateRows(table, id, uid, p1);
    assert UniqueIds(t1);
    UpdateOnlyAt(t1, k, uid, p2);
    var t2 := UpdateRows(t1, id, uid, p2);
    assert t2[k] == table[k];
    assert t2 == table;
  }
}
