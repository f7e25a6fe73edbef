/** The client cache manager (`TaskService`): a read-through, write-through
    mirror of the server's task list in two local-storage entries, the list
    and the time it was saved, with a five-minute freshness window.
    The clock and every network outcome are parameters; each operation is a
    pure step (cache afterwards, result, requests sent) and a method of the
    `TaskService` class that performs it on the stored entries. */
module TaskCache {
  import opened Tasks

  /** Five minutes, in milliseconds. */
  const CacheDuration := 5 * 60 * 1000

  /** The two stored entries: `tasks_cache` and `tasks_cache_timestamp`. */
  datatype Cache = Cache(tasks: Option<seq<Task>>, savedAt: Option<int>)

  /** One HTTP request sent to the server. */
  datatype Request =
    | GetTasks
    | PostTask(body: TaskBody)
    | PutTask(id: int, body: TaskBody)
    | DeleteTask(id: int)
    | PostSearch(query: string)

  /** What one operation does: the stored entries afterwards, what it returns
      or throws, and the requests it sent. */
  datatype Step<T> = Step(cache: Cache, result: Outcome<T>, requests: seq<Request>)

  /** `isCacheValid`: a timestamp is stored and less than five minutes have passed since it. */
  predicate CacheValid(c: Cache, now: int) {
    c.savedAt.Some? && now - c.savedAt.value < CacheDuration
  }

  /** `saveTasks`: both entries rewritten, stamped with the time of the call. */
  function Saved(tasks: seq<Task>, now: int): Cache {
    Cache(Some(tasks), Some(now))
  }

  /** `clearCache`: both entries removed. */
  function Cleared(): Cache {
    Cache(None, None)
  }

  /** Both entries are present or both are absent; every operation keeps this. */
  predicate Consistent(c: Cache) {
    c.tasks.Some? <==> c.savedAt.Some?
  }

  // ---------------------------------------------------------------------
  // The list transforms of the mutations

  /** `tasks.map(t => t.id === id ? task : t)`. */
  function ReplaceById(s: seq<Task>, id: int, task: Task): seq<Task> {
    if s == [] then []
    else [if s[0].id == id then task else s[0]] + ReplaceById(s[1..], id, task)
  }

  /** `tasks.filter(t => t.id !== id)`. */
  function RemoveById(s: seq<Task>, id: int): seq<Task> {
    if s == [] then []
    else (if s[0].id == id then [] else [s[0]]) + RemoveById(s[1..], id)
  }

  /** Replacing keeps the length and the order, puts `task` exactly where the
      id matched, and leaves every other element as it was. */
  lemma {:induction false} ReplaceByIdAt(s: seq<Task>, id: int, task: Task)
    ensures |ReplaceById(s, id, task)| == |s|
    ensures forall i :: 0 <= i < |s| ==> ReplaceById(s, id, task)[i] == if s[i].id == id then task else s[i]
  {
    if s != [] {
      ReplaceByIdAt(s[1..], id, task);
    }
  }

  /** Replacing an id no element has leaves the list as it was. */
  lemma ReplaceByIdNoMatch(s: seq<Task>, id: int, task: Task)
    requires forall i :: 0 <= i < |s| ==> s[i].id != id
    ensures ReplaceById(s, id, task) == s
  {
    ReplaceByIdAt(s, id, task);
  }

  /** Removing splits over concatenation: the kept elements stay in their order. */
  lemma {:induction false} RemoveByIdAppend(a: seq<Task>, b: seq<Task>, id: int)
    ensures RemoveById(a + b, id) == RemoveById(a, id) + RemoveById(b, id)
  {
    if a == [] {
      assert a + b == b;
    } else {
      assert (a + b)[1..] == a[1..] + b;
      RemoveByIdAppend(a[1..], b, id);
    }
  }

  /** Removing drops every element with the id and keeps every other one as
      many times as it occurred. */
  lemma {:induction false} RemoveByIdCount(s: seq<Task>, id: int)
    ensures forall x :: multiset(RemoveById(s, id))[x] == if x.id == id then 0 else multiset(s)[x]
  {
    if s != [] {
      RemoveByIdCount(s[1..], id);
      assert s == [s[0]] + s[1..];
    }
  }

  /** Removing an id no element has leaves the list as it was. */
  lemma {:induction false} RemoveByIdNoMatch(s: seq<Task>, id: int)
    requires forall i :: 0 <= i < |s| ==> s[i].id != id
    ensures RemoveById(s, id) == s
  {
    if s != [] {
      RemoveByIdNoMatch(s[1..], id);
      assert s == [s[0]] + s[1..];
    }
  }

  // ---------------------------------------------------------------------
  // The operations

  /** `loadTasks`: serve a fresh cached list; otherwise fetch and save what
      arrives, stamped when it arrives; when the fetch fails, fall back to any
      cached list, even an expired one, and rethrow only when there is none.
      `now` is the clock at the freshness test, `fetchedAt` at the save. */
  function Load(c: Cache, now: int, fetch: Outcome<seq<Task>>, fetchedAt: int): Step<seq<Task>> {
    if CacheValid(c, now) && c.tasks.Some? then Step(c, Ok(c.tasks.value), [])
    else
      match fetch
      case Ok(tasks) => Step(Saved(tasks, fetchedAt), Ok(tasks), [GetTasks])
      case Err(e) => Step(c, if c.tasks.Some? then Ok(c.tasks.value) else Err(e), [GetTasks])
  }

  /** `addTask`: after the server accepts the task, put it at the head of the
      cached list (an empty one when nothing is cached) and save. */
  function Add(c: Cache, body: TaskBody, now: int, response: Outcome<Task>): Step<Task> {
    match response
    case Ok(task) => Step(Saved([task] + GetOr(c.tasks, []), now), Ok(task), [PostTask(body)])
    case Err(e) => Step(c, Err(e), [PostTask(body)])
  }

  /** `updateTask`: after the server answers, replace the cached tasks with
      that id by the answer and save. */
  function Update(c: Cache, id: int, body: TaskBody, now: int, response: Outcome<Task>): Step<Task> {
    match response
    case Ok(task) => Step(Saved(ReplaceById(GetOr(c.tasks, []), id, task), now), Ok(task), [PutTask(id, body)])
    case Err(e) => Step(c, Err(e), [PutTask(id, body)])
  }

  /** `deleteTask`: after the server answers, drop the cached tasks with that
      id and save; the result is `true`. */
  function Delete(c: Cache, id: int, now: int, response: Outcome<()>): Step<bool> {
    match response
    case Ok(_) => Step(Saved(RemoveById(GetOr(c.tasks, []), id), now), Ok(true), [DeleteTask(id)])
    case Err(e) => Step(c, Err(e), [DeleteTask(id)])
  }

  /** `searchTasks`: a request whose answer is returned as it is. */
  function Search(c: Cache, query: string, response: Outcome<Json>): Step<Json> {
    Step(c, response, [PostSearch(query)])
  }

  // ---------------------------------------------------------------------
  // Freshness

  /** The cache is valid for less than five minutes after it is saved, and
      never without a timestamp. */
  lemma ValidityWindow(c: Cache, now: int)
    ensures c.savedAt.None? ==> !CacheValid(c, now)
    ensures c.savedAt.Some? ==> (CacheValid(c, now) <==> now < c.savedAt.value + 300000)
  {
  }

  /** Once expired, a cache stays expired as the clock moves on, until it is rewritten. */
  lemma ExpiryIsFinal(c: Cache, now: int, later: int)
    requires !CacheValid(c, now) && now <= later
    ensures !CacheValid(c, later)
  {
  }

  // ---------------------------------------------------------------------
  // loadTasks

  /** A valid cache with a list is served as it is, with no request and no change. */
  lemma LoadServesFreshCache(c: Cache, now: int, fetch: Outcome<seq<Task>>, fetchedAt: int)
    requires CacheValid(c, now) && c.tasks.Some?
    ensures Load(c, now, fetch, fetchedAt) == Step(c, Ok(c.tasks.value), [])
  {
  }

  /** Otherwise the list is fetched once; what arrives is stored exactly,
      stamped with the time it arrived, and returned. */
  lemma LoadStoresFetchedList(c: Cache, now: int, tasks: seq<Task>, fetchedAt: int)
    requires !(CacheValid(c, now) && c.tasks.Some?)
    ensures Load(c, now, Ok(tasks), fetchedAt) == Step(Saved(tasks, fetchedAt), Ok(tasks), [GetTasks])
  {
  }

  /** A failed fetch changes nothing; it returns any cached list, fresh or
      expired, and rethrows only when there is none. */
  lemma LoadFallsBackOnFailure(c: Cache, now: int, e: string, fetchedAt: int)
    requires !(CacheValid(c, now) && c.tasks.Some?)
    ensures var s := Load(c, now, Err(e), fetchedAt);
      s.cache == c && s.requests == [GetTasks] &&
      (c.tasks.Some? ==> s.result == Ok(c.tasks.value)) &&
      (c.tasks.None? ==> s.result == Err(e))
  {
  }

  /** Whatever `loadTasks` returns is what the cache holds afterwards; it
      throws only when the fetch failed and nothing was cached. */
  lemma LoadResultIsCached(c: Cache, now: int, fetch: Outcome<seq<Task>>, fetchedAt: int)
    ensures var s := Load(c, now, fetch, fetchedAt);
      (s.result.Ok? ==> s.cache.tasks == Some(s.result.value)) &&
      (s.result.Err? <==> fetch.Err? && c.tasks.None?) &&
      |s.requests| <= 1
  {
  }

  /** A second load while the cache is still valid sends no request and
      returns what the first returned. */
  lemma LoadTwiceWithinWindow(c: Cache, now1: int, fetch1: Outcome<seq<Task>>, at1: int,
                              now2: int, fetch2: Outcome<seq<Task>>, at2: int)
    requires Load(c, now1, fetch1, at1).result.Ok?
    requires CacheValid(Load(c, now1, fetch1, at1).cache, now2)
    ensures var s1 := Load(c, now1, fetch1, at1);
      Load(s1.cache, now2, fetch2, at2) == Step(s1.cache, s1.result, [])
  {
    LoadResultIsCached(c, now1, fetch1, at1);
  }

  /** Two loads within the window of a successful fetch send exactly one
      request between them; once the window has passed, a load fetches again. */
  lemma FetchedListExpires(c: Cache, now1: int, tasks: seq<Task>, at1: int,
                           now2: int, fetch2: Outcome<seq<Task>>, at2: int)
    requires !(CacheValid(c, now1) && c.tasks.Some?)
    ensures var s1 := Load(c, now1, Ok(tasks), at1);
      var s2 := Load(s1.cache, now2, fetch2, at2);
      |s1.requests| == 1 &&
      (now2 - at1 < CacheDuration ==> s2.requests == [] && s2.result == Ok(tasks)) &&
      (now2 - at1 >= CacheDuration ==> s2.requests == [GetTasks])
  {
  }

  /** After `clearCache`, a load always sends the request, and a failure is rethrown. */
  lemma ClearThenLoadFetches(now: int, fetch: Outcome<seq<Task>>, fetchedAt: int)
    ensures var s := Load(Cleared(), now, fetch, fetchedAt);
      s.requests == [GetTasks] && (fetch.Err? ==> s.result == Err(fetch.error))
  {
  }

  // ---------------------------------------------------------------------
  // The mutations

  /** A successful add puts the new task at the head of the cached list and
      re-stamps; a failed one changes nothing and rethrows. */
  lemma AddPrepends(c: Cache, body: TaskBody, now: int, response: Outcome<Task>)
    ensures var s := Add(c, body, now, response);
      s.requests == [PostTask(body)] &&
      (response.Ok? ==>
         s.result == Ok(response.value) && s.cache.savedAt == Some(now) &&
         s.cache.tasks.Some? && |s.cache.tasks.value| == |GetOr(c.tasks, [])| + 1 &&
         s.cache.tasks.value[0] == response.value && s.cache.tasks.value[1..] == GetOr(c.tasks, [])) &&
      (response.Err? ==> s.cache == c && s.result == Err(response.error))
  {
    if response.Ok? {
      assert ([response.value] + GetOr(c.tasks, []))[1..] == GetOr(c.tasks, []);
    }
  }

  /** An add with nothing cached leaves a valid cache holding the new task only. */
  lemma AddToEmptyCache(c: Cache, body: TaskBody, now: int, task: Task)
    requires c.tasks.None?
    ensures var s := Add(c, body, now, Ok(task));
      s.cache.tasks == Some([task]) && CacheValid(s.cache, now)
  {
    assert [task] + [] == [task];
  }

  /** A successful update replaces exactly the cached tasks with that id,
      keeps length, order and every other task, and re-stamps even when no
      task matched; a failed one changes nothing and rethrows. */
  lemma UpdateReplacesMatching(c: Cache, id: int, body: TaskBody, now: int, response: Outcome<Task>)
    ensures var s := Update(c, id, body, now, response);
      var before := GetOr(c.tasks, []);
      s.requests == [PutTask(id, body)] &&
      (response.Ok? ==>
         s.result == Ok(response.value) && s.cache.savedAt == Some(now) &&
         s.cache.tasks.Some? && |s.cache.tasks.value| == |before| &&
         forall i :: 0 <= i < |before| ==>
           s.cache.tasks.value[i] == if before[i].id == id then response.value else before[i]) &&
      (response.Err? ==> s.cache == c && s.result == Err(response.error))
  {
    if response.Ok? {
      ReplaceByIdAt(GetOr(c.tasks, []), id, response.value);
    }
  }

  /** A successful delete drops exactly the cached tasks with that id, keeps
      the others in order, and re-stamps; a failed one changes nothing and rethrows. */
  lemma DeleteRemovesMatching(c: Cache, id: int, now: int, response: Outcome<()>)
    ensures var s := Delete(c, id, now, response);
      var before := GetOr(c.tasks, []);
      s.requests == [DeleteTask(id)] &&
      (response.Ok? ==>
         s.result == Ok(true) && s.cache.savedAt == Some(now) &&
         s.cache.tasks == Some(RemoveById(before, id)) &&
         forall x :: multiset(s.cache.tasks.value)[x] == if x.id == id then 0 else multiset(before)[x]) &&
      (response.Err? ==> s.cache == c && s.result == Err(response.error))
  {
    if response.Ok? {
      RemoveByIdCount(GetOr(c.tasks, []), id);
    }
  }

  /** A mutation on an expired cache re-stamps the list it found: any load
      within five minutes after it serves that list, so edited, without
      asking the server. */
  lemma MutationRevalidatesStaleList(c: Cache, id: int, now: int, later: int)
    requires c.tasks.Some? && !CacheValid(c, now)
    requires now <= later < now + CacheDuration
    ensures var s := Delete(c, id, now, Ok(()));
      forall f: Outcome<seq<Task>>, at: int ::
        Load(s.cache, later, f, at) == Step(s.cache, Ok(RemoveById(c.tasks.value, id)), [])
  {
  }

  /** `searchTasks` neither reads nor writes the cache: the result is the
      server's answer, whatever is cached. */
  lemma SearchIgnoresCache(c1: Cache, c2: Cache, query: string, response: Outcome<Json>)
    ensures Search(c1, query, response).cache == c1
    ensures Search(c1, query, response).result == Search(c2, query, response).result == response
  {
  }

  /** Every operation keeps both entries present or both absent. */
  lemma OperationsKeepConsistent(c: Cache, now: int, at: int, id: int, body: TaskBody, query: string,
                                 fetch: Outcome<seq<Task>>, one: Outcome<Task>, gone: Outcome<()>, found: Outcome<Json>)
    requires Consistent(c)
    ensures Consistent(Cleared())
    ensures Consistent(Load(c, now, fetch, at).cache)
    ensures Consistent(Add(c, body, now, one).cache)
    ensures Consistent(Update(c, id, body, now, one).cache)
    ensures Consistent(Delete(c, id, now, gone).cache)
    ensures Consistent(Search(c, query, found).cache)
  {
  }

  /** The stored entries and the requests sent so far. */
  class TaskService {
    var cachedTasks: Option<seq<Task>>
    var cachedAt: Option<int>
    /** Every request sent to the server, in order. */
    ghost var requests: seq<Request>

    function State(): Cache
      reads this
    {
      Cache(cachedTasks, cachedAt)
    }

    /** A service over whatever the storage already holds. */
    constructor (stored: Cache)
      ensures State() == stored && requests == []
    {
      cachedTasks := stored.tasks;
      cachedAt := stored.savedAt;
      requests := [];
    }

    /** `isCacheValid`. */
    method IsCacheValid(now: int) returns (valid: bool)
      ensures cachedAt.None? ==> !valid
      ensures cachedAt.Some? ==> (valid <==> now < cachedAt.value + CacheDuration)
    {
      if cachedAt.None? {
        return false;
      }
      valid := now - cachedAt.value < CacheDuration;
    }

    /** `getCachedTasks`: the stored list, or nothing. */
    method GetCachedTasks() returns (cached: Option<seq<Task>>)
      ensures cached == State().tasks
    {
      cached := cachedTasks;
    }

    /** `saveTasks`. */
    method SaveTasks(tasks: seq<Task>, now: int)
      modifies this`cachedTasks, this`cachedAt
      ensures State() == Saved(tasks, now)
    {
      cachedTasks := Some(tasks);
      cachedAt := Some(now);
    }

    /** `clearCache`. */
    method ClearCache()
      modifies this`cachedTasks, this`cachedAt
      ensures State() == Cleared()
    {
      cachedTasks := None;
      cachedAt := None;
    }

    /** `loadTasks`. */
    method LoadTasks(now: int, fetch: Outcome<seq<Task>>, fetchedAt: int) returns (r: Outcome<seq<Task>>)
      modifies this
      ensures var s := Load(old(State()), now, fetch, fetchedAt);
        State() == s.cache && r == s.result && requests == old(requests) + s.requests
    {
      var valid := IsCacheValid(now);
      if valid {
        var cached := GetCachedTasks();
        if cached.Some? {
          return Ok(cached.value);
        }
      }
      requests := requests + [GetTasks];
      match fetch {
        case Ok(tasks) =>
          SaveTasks(tasks, fetchedAt);
          r := Ok(tasks);
        case Err(e) =>
          var cached := GetCachedTasks();
          if cached.Some? {
            r := Ok(cached.value);
          } else {
            r := Err(e);
          }
      }
    }

    /** `addTask`. */
    method AddTask(body: TaskBody, now: int, response: Outcome<Task>) returns (r: Outcome<Task>)
      modifies this
      ensures var s := Add(old(State()), body, now, response);
        State() == s.cache && r == s.result && requests == old(requests) + s.requests
    {
      requests := requests + [PostTask(body)];
      match response {
        case Ok(newTask) =>
          var cached := GetCachedTasks();
          SaveTasks([newTask] + GetOr(cached, []), now);
          r := Ok(newTask);
        case Err(e) =>
          r := Err(e);
      }
    }

    /** `updateTask`. */
    method UpdateTask(id: int, body: TaskBody, now: int, response: Outcome<Task>) returns (r: Outcome<Task>)
      modifies this
      ensures var s := Update(old(State()), id, body, now, response);
        State() == s.cache && r == s.result && requests == old(requests) + s.requests
    {
      requests := requests + [PutTask(id, body)];
      match response {
        case Ok(updatedTask) =>
          var cached := GetCachedTasks();
          SaveTasks(ReplaceById(GetOr(cached, []), id, updatedTask), now);
          r := Ok(updatedTask);
        case Err(e) =>
          r := Err(e);
      }
    }

    /** `deleteTask`. */
    method DeleteTask(id: int, now: int, response: Outcome<()>) returns (r: Outcome<bool>)
      modifies this
      ensures var s := Delete(old(State()), id, now, response);
        State() == s.cache && r == s.result && requests == old(requests) + s.requests
    {
      requests := requests + [Request.DeleteTask(id)];
      match response {
        case Ok(_) =>
          var cached := GetCachedTasks();
          SaveTasks(RemoveById(GetOr(cached, []), id), now);
          r := Ok(true);
        case Err(e) =>
          r := Err(e);
      }
    }

    /** `searchTasks`: only the request log changes. */
    method SearchTasks(query: string, response: Outcome<Json>) returns (r: Outcome<Json>)
      modifies this`requests
      ensures State() == old(State())
      ensures r == response && requests == old(requests) + [PostSearch(query)]
    {
      requests := requests + [PostSearch(query)];
      r := response;
    }
  }
}
