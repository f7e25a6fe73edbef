/** The task store service: the route handlers for `/api/tasks`, over an
    abstract table. The PostgreSQL table is a map from id to row plus the
    next value of the id sequence; a data-access fault of the one query a
    handler issues is a boolean parameter. Each handler is a pure step
    (new table, HTTP response, gateway requests issued) and a method of
    `TaskStore` that performs it in place. */
module TaskServer {
  import opened Tasks
  import opened Gateway

  const DefaultStatus := "todo"

  /** The `tasks` table: its rows by id, and the next id the `SERIAL` sequence hands out. */
  datatype Table = Table(rows: map<int, Task>, nextId: int)

  /** Ids are positive, below the sequence's next value, and each row carries its own id. */
  ghost predicate TableValid(t: Table) {
    t.nextId >= 1 &&
    forall k :: k in t.rows ==> 1 <= k < t.nextId && t.rows[k].id == k
  }

  /** The JSON body of a response. */
  datatype Body =
    | TaskJson(task: Task)
    | TaskListJson(tasks: seq<Task>)
    | ErrorJson(error: string)
    | MessageJson(message: string)
    | ResultJson(value: Json)

  datatype HttpResponse = HttpResponse(status: int, body: Body)

  /** One invocation of the embedding process: its action and payload. */
  datatype GatewayRequest =
    | UpdateEmbedding(taskId: int, description: string)
    | SearchQuery(query: string)

  /** What one request does: the table afterwards, the response, and the
      gateway invocations it made, in order. */
  datatype Step = Step(table: Table, response: HttpResponse, calls: seq<GatewayRequest>)

  function Error(status: int, message: string): HttpResponse {
    HttpResponse(status, ErrorJson(message))
  }

  // ---------------------------------------------------------------------
  // GET /api/tasks: `SELECT * FROM tasks ORDER BY created_at DESC`

  /** Newest first: `created_at` never increases along the sequence. */
  predicate NewestFirst(s: seq<Task>) {
    forall i, j :: 0 <= i < j < |s| ==> s[i].createdAt >= s[j].createdAt
  }

  /** Each row is stored under its own id. */
  predicate Keyed(rows: map<int, Task>) {
    forall k :: k in rows ==> rows[k].id == k
  }

  /** `x` is a row of the table: the one stored under its id. */
  predicate Stored(rows: map<int, Task>, x: Task) {
    x.id in rows && rows[x.id] == x
  }

  /** The rows whose ids lie in [lo, hi), each exactly once. */
  function RowsIn(rows: map<int, Task>, lo: int, hi: int): (r: seq<Task>)
    requires Keyed(rows)
    ensures forall x :: multiset(r)[x] == if Stored(rows, x) && lo <= x.id < hi then 1 else 0
    decreases hi - lo
  {
    if lo >= hi then []
    else
      var rest := RowsIn(rows, lo + 1, hi);
      var here := if lo in rows then [rows[lo]] else [];
      here + rest
  }

  /** A permutation of rows no newer than `bound`, plus one more such row,
      holds only rows no newer than `bound`. */
  lemma BoundKeptByInsert(x: Task, s: seq<Task>, r: seq<Task>, bound: int)
    requires multiset(r) == multiset(s) + multiset{x}
    requires x.createdAt <= bound
    requires forall i :: 0 <= i < |s| ==> s[i].createdAt <= bound
    ensures forall j :: 0 <= j < |r| ==> r[j].createdAt <= bound
  {
    forall j | 0 <= j < |r| ensures r[j].createdAt <= bound {
      assert r[j] in multiset(r);
      if r[j] != x {
        assert r[j] in multiset(s);
        var i :| 0 <= i < |s| && s[i] == r[j];
      }
    }
  }

  /** Inserts a row before the first row that is not newer than it. */
  function InsertNewestFirst(x: Task, s: seq<Task>): (r: seq<Task>)
    requires NewestFirst(s)
    ensures NewestFirst(r)
    ensures multiset(r) == multiset(s) + multiset{x}
  {
    if s == [] || x.createdAt >= s[0].createdAt then [x] + s
    else
      var rest := InsertNewestFirst(x, s[1..]);
      assert s == [s[0]] + s[1..];
      BoundKeptByInsert(x, s[1..], rest, s[0].createdAt);
      [s[0]] + rest
  }

  /** `ORDER BY created_at DESC`: a newest-first permutation. Rows with equal
      `created_at` come in an order the database leaves open; this one is one of them. */
  function SortNewestFirst(s: seq<Task>): (r: seq<Task>)
    ensures NewestFirst(r)
    ensures multiset(r) == multiset(s)
  {
    if s == [] then []
    else
      assert s == [s[0]] + s[1..];
      InsertNewestFirst(s[0], SortNewestFirst(s[1..]))
  }

  /** The rows of the table as the query returns them. */
  function Listing(t: Table): seq<Task>
    requires TableValid(t)
  {
    SortNewestFirst(RowsIn(t.rows, 1, t.nextId))
  }

  /** The listing holds every row of the table exactly once, and nothing else,
      newest first. */
  lemma ListingExact(t: Table)
    requires TableValid(t)
    ensures NewestFirst(Listing(t))
    ensures forall x :: multiset(Listing(t))[x] == if Stored(t.rows, x) then 1 else 0
  {
  }

  // ---------------------------------------------------------------------
  // POST /api/tasks

  /** The row the INSERT creates: the next id, the status defaulted to
      `'todo'` only when the body leaves it out, and `created_at` now. */
  function NewRow(t: Table, body: TaskBody, now: int): Task
    requires body.title.Str?
  {
    var status := if body.status.Absent? then Some(DefaultStatus) else Column(body.status);
    Task(t.nextId, body.title.s, Column(body.description), status, now)
  }

  /** POST /api/tasks: validate the title, insert, then (only when there is a
      description) invoke `update_embedding` and wait for it to settle.
      The 201 does not depend on how that invocation settled. */
  function Create(t: Table, body: TaskBody, now: int, fault: bool): Step {
    if !Truthy(body.title) then Step(t, Error(400, "Title is required"), [])
    else if fault then Step(t, Error(500, "Failed to create task"), [])
    else
      var row := NewRow(t, body, now);
      var calls := if Truthy(body.description) then [UpdateEmbedding(row.id, body.description.s)] else [];
      Step(Table(t.rows[t.nextId := row], t.nextId + 1), HttpResponse(201, TaskJson(row)), calls)
  }

  /** A falsy title is refused with 400 before anything is inserted or invoked. */
  lemma CreateRequiresTitle(t: Table, body: TaskBody, now: int, fault: bool)
    requires !Truthy(body.title)
    ensures Create(t, body, now, fault) == Step(t, Error(400, "Title is required"), [])
  {
  }

  /** A create with a title inserts exactly one new row, under an id no
      existing row has, with the body's fields, `'todo'` when the status is
      left out, and answers 201 with that row. */
  lemma CreateInsertsOneRow(t: Table, body: TaskBody, now: int)
    requires TableValid(t) && Truthy(body.title)
    ensures var s := Create(t, body, now, false);
      var id := t.nextId;
      id !in t.rows &&
      s.table.rows.Keys == t.rows.Keys + {id} &&
      (forall k :: k in t.rows ==> s.table.rows[k] == t.rows[k]) &&
      s.table.rows[id].id == id &&
      s.table.rows[id].title == body.title.s &&
      s.table.rows[id].description == Column(body.description) &&
      s.table.rows[id].status == (if body.status.Absent? then Some(DefaultStatus) else Column(body.status)) &&
      s.table.rows[id].createdAt == now &&
      s.response == HttpResponse(201, TaskJson(s.table.rows[id])) &&
      s.table.nextId == id + 1
  {
  }

  /** A fault of the INSERT answers 500, changes nothing and invokes nothing. */
  lemma CreateFaultChangesNothing(t: Table, body: TaskBody, now: int)
    requires Truthy(body.title)
    ensures Create(t, body, now, true) == Step(t, Error(500, "Failed to create task"), [])
  {
  }

  /** `update_embedding` is invoked by a create at most once, exactly when the
      row was inserted and the description is truthy, and then with the new
      row's id and that description. */
  lemma CreateEmbedsIffDescription(t: Table, body: TaskBody, now: int, fault: bool)
    ensures var s := Create(t, body, now, fault);
      |s.calls| <= 1 &&
      (s.calls != [] <==> s.response.status == 201 && Truthy(body.description)) &&
      (s.calls != [] ==>
         s.response.body.TaskJson? && s.calls == [UpdateEmbedding(s.response.body.task.id, body.description.s)])
  {
  }

  /** For a successful create, the gateway trace gains exactly one
      `update_embedding` with (new id, description) iff the description is truthy. */
  lemma CreateEmbedsExactlyOnce(t: Table, body: TaskBody, now: int, d: string)
    requires Truthy(body.title)
    ensures var s := Create(t, body, now, false);
      multiset(s.calls)[UpdateEmbedding(t.nextId, d)] == if Truthy(body.description) && body.description.s == d then 1 else 0
  {
  }

  // ---------------------------------------------------------------------
  // PUT /api/tasks/:id

  /** PUT /api/tasks/:id: `UPDATE ... SET title, description, status WHERE id`.
      A missing id matches no row (404); a matching row with no title breaks
      the NOT NULL constraint on `title`, which the handler reports as 500.
      The embedding is never refreshed. */
  function Update(t: Table, id: int, body: TaskBody, fault: bool): Step {
    if fault then Step(t, Error(500, "Failed to update task"), [])
    else if id !in t.rows then Step(t, Error(404, "Task not found"), [])
    else if !body.title.Str? then Step(t, Error(500, "Failed to update task"), [])
    else
      var row := t.rows[id].(title := body.title.s, description := Column(body.description), status := Column(body.status));
      Step(Table(t.rows[id := row], t.nextId), HttpResponse(200, TaskJson(row)), [])
  }

  /** A fault of the UPDATE answers 500, changes nothing and invokes nothing. */
  lemma UpdateFaultChangesNothing(t: Table, id: int, body: TaskBody)
    ensures Update(t, id, body, true) == Step(t, Error(500, "Failed to update task"), [])
  {
  }

  /** An id with no row answers 404 and changes nothing. */
  lemma UpdateMissingIsNotFound(t: Table, id: int, body: TaskBody)
    requires id !in t.rows
    ensures Update(t, id, body, false) == Step(t, Error(404, "Task not found"), [])
  {
  }

  /** An update of an existing row overwrites its title, description and
      status only (an absent status becomes NULL, with no default), keeps its
      id and creation time and every other row, and answers 200 with it. */
  lemma UpdateOverwritesThreeFields(t: Table, id: int, body: TaskBody)
    requires TableValid(t) && id in t.rows && body.title.Str?
    ensures var s := Update(t, id, body, false);
      s.table.rows.Keys == t.rows.Keys &&
      s.table.nextId == t.nextId &&
      (forall k :: k in t.rows && k != id ==> s.table.rows[k] == t.rows[k]) &&
      s.table.rows[id].id == id &&
      s.table.rows[id].createdAt == t.rows[id].createdAt &&
      s.table.rows[id].title == body.title.s &&
      s.table.rows[id].description == Column(body.description) &&
      s.table.rows[id].status == Column(body.status) &&
      s.response == HttpResponse(200, TaskJson(s.table.rows[id]))
  {
  }

  /** Unlike create, the update handler does not insist on a non-empty title:
      an empty title is stored, a missing one fails with 500. */
  lemma UpdateTitleNotValidated(t: Table, id: int, body: TaskBody)
    requires id in t.rows
    ensures body.title == Str("") ==> Update(t, id, body, false).response.status == 200
    ensures !body.title.Str? ==> Update(t, id, body, false) == Step(t, Error(500, "Failed to update task"), [])
  {
  }

  /** No update invokes the gateway, whatever it does to the description. */
  lemma UpdateNeverEmbeds(t: Table, id: int, body: TaskBody, fault: bool)
    ensures Update(t, id, body, fault).calls == []
  {
  }

  // ---------------------------------------------------------------------
  // DELETE /api/tasks/:id

  /** DELETE /api/tasks/:id. */
  function Delete(t: Table, id: int, fault: bool): Step {
    if fault then Step(t, Error(500, "Failed to delete task"), [])
    else if id !in t.rows then Step(t, Error(404, "Task not found"), [])
    else Step(Table(t.rows - {id}, t.nextId), HttpResponse(200, MessageJson("Task deleted successfully")), [])
  }

  /** A fault of the DELETE answers 500, changes nothing and invokes nothing. */
  lemma DeleteFaultChangesNothing(t: Table, id: int)
    ensures Delete(t, id, true) == Step(t, Error(500, "Failed to delete task"), [])
  {
  }

  /** An id with no row answers 404 and changes nothing. */
  lemma DeleteMissingIsNotFound(t: Table, id: int)
    requires id !in t.rows
    ensures Delete(t, id, false) == Step(t, Error(404, "Task not found"), [])
  {
  }

  /** A delete removes that row and no other, and leaves the id sequence alone. */
  lemma DeleteRemovesOnlyThatRow(t: Table, id: int)
    requires id in t.rows
    ensures var s := Delete(t, id, false);
      s.table.rows.Keys == t.rows.Keys - {id} &&
      (forall k :: k in s.table.rows ==> s.table.rows[k] == t.rows[k]) &&
      s.table.nextId == t.nextId &&
      s.response.status == 200 && s.calls == []
  {
  }

  // ---------------------------------------------------------------------
  // POST /api/tasks/search

  /** POST /api/tasks/search: with a query, invoke `search` and pass what it
      resolves with through unchanged; a rejection answers 500. */
  function Search(t: Table, query: Field, result: GatewayResult): Step {
    if !Truthy(query) then Step(t, Error(400, "Search query is required"), [])
    else
      match result
      case Resolved(v) => Step(t, HttpResponse(200, ResultJson(v)), [SearchQuery(query.s)])
      case Rejected(_) => Step(t, Error(500, "Search failed"), [SearchQuery(query.s)])
  }

  /** Search never changes the table; without a query it invokes nothing and
      answers 400; with one it invokes `search` once with it, and answers the
      resolved value unmodified or 500. */
  lemma SearchPassesThrough(t: Table, query: Field, result: GatewayResult)
    ensures var s := Search(t, query, result);
      s.table == t &&
      (!Truthy(query) ==> s.calls == [] && s.response == Error(400, "Search query is required")) &&
      (Truthy(query) ==> s.calls == [SearchQuery(query.s)]) &&
      (Truthy(query) && result.Resolved? ==> s.response == HttpResponse(200, ResultJson(result.value))) &&
      (Truthy(query) && result.Rejected? ==> s.response == Error(500, "Search failed"))
  {
  }

  // ---------------------------------------------------------------------
  // The table invariant

  /** Every handler keeps the table valid. */
  lemma HandlersPreserveValid(t: Table, body: TaskBody, id: int, now: int, fault: bool, query: Field, result: GatewayResult)
    requires TableValid(t)
    ensures TableValid(Create(t, body, now, fault).table)
    ensures TableValid(Update(t, id, body, fault).table)
    ensures TableValid(Delete(t, id, fault).table)
    ensures TableValid(Search(t, query, result).table)
  {
  }

  // ---------------------------------------------------------------------
  // Sequences of requests

  /** One request to the handlers, with what its query and gateway call do. */
  datatype Request =
    | CreateRequest(body: TaskBody, now: int, fault: bool)
    | UpdateRequest(id: int, body: TaskBody, fault: bool)
    | DeleteRequest(id: int, fault: bool)
    | SearchRequest(query: Field, result: GatewayResult)

  /** The step one request takes. */
  function Handle(t: Table, req: Request): Step {
    match req
    case CreateRequest(body, now, fault) => Create(t, body, now, fault)
    case UpdateRequest(id, body, fault) => Update(t, id, body, fault)
    case DeleteRequest(id, fault) => Delete(t, id, fault)
    case SearchRequest(query, result) => Search(t, query, result)
  }

  /** The table after the requests, handled one after another. */
  function Serve(t: Table, reqs: seq<Request>): Table
    decreases |reqs|
  {
    if reqs == [] then t else Serve(Handle(t, reqs[0]).table, reqs[1..])
  }

  /** The sequence only moves forward: a create advances it by one, every
      other handler leaves it alone. */
  lemma NextIdNeverDecreases(t: Table, req: Request)
    ensures t.nextId <= Handle(t, req).table.nextId
    ensures !req.CreateRequest? ==> Handle(t, req).table.nextId == t.nextId
    ensures req.CreateRequest? ==> Handle(t, req).table.nextId == t.nextId + (if Handle(t, req).response.status == 201 then 1 else 0)
  {
  }

  /** Over any sequence of requests the next id never decreases. */
  lemma {:induction false} ServeNextIdNeverDecreases(t: Table, reqs: seq<Request>)
    ensures t.nextId <= Serve(t, reqs).nextId
    decreases |reqs|
  {
    if reqs != [] {
      NextIdNeverDecreases(t, reqs[0]);
      ServeNextIdNeverDecreases(Handle(t, reqs[0]).table, reqs[1..]);
    }
  }

  /** Any sequence of requests keeps the table valid. */
  lemma {:induction false} ServePreservesValid(t: Table, reqs: seq<Request>)
    requires TableValid(t)
    ensures TableValid(Serve(t, reqs))
    decreases |reqs|
  {
    if reqs != [] {
      assert TableValid(Handle(t, reqs[0]).table);
      ServePreservesValid(Handle(t, reqs[0]).table, reqs[1..]);
    }
  }

  /** An id below the sequence's next value with no row stays without one:
      creates use fresh ids, and updates and deletes only touch existing rows. */
  lemma {:induction false} FreeIdStaysFree(t: Table, id: int, reqs: seq<Request>)
    requires id !in t.rows && id < t.nextId
    ensures id !in Serve(t, reqs).rows && id < Serve(t, reqs).nextId
    decreases |reqs|
  {
    if reqs != [] {
      var next := Handle(t, reqs[0]).table;
      assert id !in next.rows && id < next.nextId;
      FreeIdStaysFree(next, id, reqs[1..]);
    }
  }

  /** After a delete, whatever requests follow, the deleted id has no row
      again, and the next create hands out a different id. */
  lemma DeletedIdNeverReused(t: Table, id: int, reqs: seq<Request>, body: TaskBody, now: int, fault: bool)
    requires TableValid(t) && id in t.rows
    ensures var later := Serve(Delete(t, id, false).table, reqs);
      id !in later.rows &&
      (Create(later, body, now, fault).response.body.TaskJson? ==> Create(later, body, now, fault).response.body.task.id != id)
  {
    FreeIdStaysFree(Delete(t, id, false).table, id, reqs);
  }

  /** The mutable store behind the handlers. */
  class TaskStore {
    var rows: map<int, Task>
    var nextId: int
    /** Every invocation of the embedding process, in order. */
    ghost var gatewayCalls: seq<GatewayRequest>

    function State(): Table
      reads this
    {
      Table(rows, nextId)
    }

    /** The table is valid, and every `update_embedding` so far was for an id
        the sequence had already handed out. */
    ghost predicate Valid()
      reads this
    {
      TableValid(State()) &&
      forall i :: 0 <= i < |gatewayCalls| && gatewayCalls[i].UpdateEmbedding? ==> gatewayCalls[i].taskId < nextId
    }

    /** An empty table whose sequence starts at 1. */
    constructor ()
      ensures Valid() && rows == map[] && nextId == 1 && gatewayCalls == []
    {
      rows := map[];
      nextId := 1;
      gatewayCalls := [];
    }

    /** GET /api/tasks. */
    method GetTasks(fault: bool) returns (resp: HttpResponse)
      requires Valid()
      ensures fault ==> resp == Error(500, "Failed to fetch tasks")
      ensures !fault ==> resp.status == 200 && resp.body.TaskListJson? &&
                         NewestFirst(resp.body.tasks) &&
                         forall x :: multiset(resp.body.tasks)[x] == if Stored(rows, x) then 1 else 0
    {
      if fault {
        return Error(500, "Failed to fetch tasks");
      }
      ListingExact(State());
      resp := HttpResponse(200, TaskListJson(Listing(State())));
    }

    /** POST /api/tasks. `run` is what the embedding process does when it is
        invoked; how it settles is only logged. */
    method CreateTask(body: TaskBody, now: int, fault: bool, run: ProcessRun, parse: Parser) returns (resp: HttpResponse)
      requires Valid()
      modifies this
      ensures Valid()
      ensures var s := Create(old(State()), body, now, fault);
        State() == s.table && resp == s.response && gatewayCalls == old(gatewayCalls) + s.calls
      ensures resp.status == 201 ==>
        forall d :: multiset(gatewayCalls)[UpdateEmbedding(old(nextId), d)] ==
          if Truthy(body.description) && body.description.s == d then 1 else 0
    {
      if !Truthy(body.title) {
        return Error(400, "Title is required");
      }
      if fault {
        return Error(500, "Failed to create task");
      }
      var status := if body.status.Absent? then Some(DefaultStatus) else Column(body.status);
      var newTask := Task(nextId, body.title.s, Column(body.description), status, now);
      rows := rows[nextId := newTask];
      nextId := nextId + 1;
      ghost var before := gatewayCalls;
      if Truthy(body.description) {
        gatewayCalls := gatewayCalls + [UpdateEmbedding(newTask.id, body.description.s)];
        var settled := CallPythonService(run, parse);
      }
      resp := HttpResponse(201, TaskJson(newTask));
      forall d ensures multiset(before)[UpdateEmbedding(newTask.id, d)] == 0 {
        assert UpdateEmbedding(newTask.id, d) !in before;
      }
    }

    /** PUT /api/tasks/:id. */
    method UpdateTask(id: int, body: TaskBody, fault: bool) returns (resp: HttpResponse)
      requires Valid()
      modifies this
      ensures Valid()
      ensures var s := Update(old(State()), id, body, fault);
        State() == s.table && resp == s.response && gatewayCalls == old(gatewayCalls)
    {
      if fault {
        return Error(500, "Failed to update task");
      }
      if id !in rows {
        return Error(404, "Task not found");
      }
      if !body.title.Str? {
        return Error(500, "Failed to update task");
      }
      var row := rows[id].(title := body.title.s, description := Column(body.description), status := Column(body.status));
      rows := rows[id := row];
      resp := HttpResponse(200, TaskJson(row));
    }

    /** DELETE /api/tasks/:id. */
    method DeleteTask(id: int, fault: bool) returns (resp: HttpResponse)
      requires Valid()
      modifies this
      ensures Valid()
      ensures var s := Delete(old(State()), id, fault);
        State() == s.table && resp == s.response && gatewayCalls == old(gatewayCalls)
    {
      if fault {
        return Error(500, "Failed to delete task");
      }
      if id !in rows {
        return Error(404, "Task not found");
      }
      rows := rows - {id};
      resp := HttpResponse(200, MessageJson("Task deleted successfully"));
    }

    /** POST /api/tasks/search. */
    method SearchTasks(query: Field, run: ProcessRun, parse: Parser) returns (resp: HttpResponse)
      requires Valid()
      modifies this`gatewayCalls
      ensures Valid()
      ensures var s := Search(State(), query, Settled(run, parse));
        State() == old(State()) && resp == s.response && gatewayCalls == old(gatewayCalls) + s.calls
    {
      if !Truthy(query) {
        return Error(400, "Search query is required");
      }
      gatewayCalls := gatewayCalls + [SearchQuery(query.s)];
      var result := CallPythonService(run, parse);
      match result {
        case Resolved(v) => resp := HttpResponse(200, ResultJson(v));
        case Rejected(_) => resp := Error(500, "Search failed");
      }
    }
  }
}
