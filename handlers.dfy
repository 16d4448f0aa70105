/**
  The five request handlers of the task store service. The users
  collection is the `users` field of a TaskStore object, updated in place by
  the two upserting handlers. A storage failure cannot be seen from here,
  so each handler takes `dbFails`: when set and the handler reaches its one
  storage call, it answers StorageError and the collection is unchanged.
*/
module Handlers {
  import opened Wrappers
  import opened Api
  import opened Days
  import opened Collection

  class TaskStore {
    var users: Users

    /** The collection as the service finds it at start-up. */
    constructor (initial: Users)
      ensures users == initial
    {
      users := initial;
    }

    /** GET /api/users: every stored name with its tasks, in one map. */
    method GetAllUsers(dbFails: bool) returns (r: Response<Users>)
      ensures dbFails ==> r == StorageError
      ensures !dbFails ==> r.Ok? && r.value.Keys == users.Keys
      ensures !dbFails ==> forall n :: n in users ==> r.value[n] == users[n]
    {
      if dbFails {
        return StorageError;
      }
      var result: Users := map[];
      var pending := users.Keys;
      while pending != {}
        invariant pending <= users.Keys
        invariant result.Keys == users.Keys - pending
        invariant forall n :: n in result ==> result[n] == users[n]
        decreases |pending|
      {
        var n :| n in pending;
        result := result[n := users[n]];
        pending := pending - {n};
      }
      return Ok(result);
    }

    /** POST /api/users: replace (or keep) a user's tasks, upserting the user. */
    method UpdateUserTasks(body: Body<UpdateTasksRequest>, dbFails: bool) returns (r: Response<User>)
      modifies this
      ensures body.Unbindable? ==> r == BadRequest(MalformedBody)
      ensures body.Bound? && body.request.name == "" ==> r == BadRequest(MissingName)
      ensures body.Bound? && body.request.name != "" && dbFails ==> r == StorageError
      ensures r.Ok? <==> body.Bound? && body.request.name != "" && !dbFails
      ensures !r.Ok? ==> users == old(users)
      ensures r.Ok? ==> users == SetAllTasks(old(users), body.request.name, body.request.tasks)
      ensures r.Ok? ==> r.value == User(body.request.name, users[body.request.name])
    {
      if body.Unbindable? {
        return BadRequest(MalformedBody);
      }
      var req := body.request;
      if req.name == "" {
        return BadRequest(MissingName);
      }
      if dbFails {
        return StorageError;
      }
      users := SetAllTasks(users, req.name, req.tasks);
      return Ok(User(req.name, users[req.name]));
    }

    /** GET /api/users/{name}: the user's document, or 404. */
    method GetUserTasks(name: string, dbFails: bool) returns (r: Response<User>)
      ensures dbFails ==> r == StorageError
      ensures !dbFails && name !in users ==> r == NotFound
      ensures !dbFails && name in users ==> r == Ok(User(name, users[name]))
    {
      if dbFails {
        return StorageError;
      }
      if name !in users {
        return NotFound;
      }
      return Ok(User(name, users[name]));
    }

    /** GET /api/users/{name}/day/{day}: one day's list, empty when the key is missing. */
    method GetUserDayTasks(name: string, dayStr: string, dbFails: bool) returns (r: Response<DayTasks>)
      ensures ParseDay(dayStr).InvalidDay? ==> r == BadRequest(ParseDay(dayStr).reason)
      ensures ParseDay(dayStr).ValidDay? && dbFails ==> r == StorageError
      ensures ParseDay(dayStr).ValidDay? && !dbFails && name !in users ==> r == NotFound
      ensures ParseDay(dayStr).ValidDay? && !dbFails && name in users ==>
        r.Ok? && r.value.name == name && r.value.day == ParseDay(dayStr).day
      ensures ParseDay(dayStr).ValidDay? && !dbFails && name in users && dayStr in users[name] ==>
        r.Ok? && r.value.tasks == users[name][dayStr]
      ensures ParseDay(dayStr).ValidDay? && !dbFails && name in users && dayStr !in users[name] ==>
        r.Ok? && r.value.tasks == []
    {
      var check := ParseDay(dayStr);
      if check.InvalidDay? {
        return BadRequest(check.reason);
      }
      if dbFails {
        return StorageError;
      }
      if name !in users {
        return NotFound;
      }
      return Ok(DayTasks(name, check.day, DayOrEmpty(users[name], dayStr)));
    }

    /** POST /api/users/{name}/day/{day}: set one day key to the given list, upserting the user. */
    method UpdateUserDayTasks(name: string, dayStr: string, body: Body<UpdateDayTasksRequest>, dbFails: bool)
      returns (r: Response<DayTasks>)
      modifies this
      ensures ParseDay(dayStr).InvalidDay? ==> r == BadRequest(ParseDay(dayStr).reason)
      ensures ParseDay(dayStr).ValidDay? && body.Unbindable? ==> r == BadRequest(MalformedBody)
      ensures ParseDay(dayStr).ValidDay? && body.Bound? && body.request.tasks.None? ==>
        r == BadRequest(TasksNotArray)
      ensures ParseDay(dayStr).ValidDay? && body.Bound? && body.request.tasks.Some? && dbFails ==>
        r == StorageError
      ensures r.Ok? <==> ParseDay(dayStr).ValidDay? && body.Bound? && body.request.tasks.Some? && !dbFails
      ensures !r.Ok? ==> users == old(users)
      ensures r.Ok? ==> users == SetDay(old(users), name, dayStr, body.request.tasks.value)
      ensures r.Ok? ==> r.value == DayTasks(name, ParseDay(dayStr).day, users[name][dayStr])
    {
      var check := ParseDay(dayStr);
      if check.InvalidDay? {
        return BadRequest(check.reason);
      }
      if body.Unbindable? {
        return BadRequest(MalformedBody);
      }
      if body.request.tasks.None? {
        return BadRequest(TasksNotArray);
      }
      if dbFails {
        return StorageError;
      }
      users := SetDay(users, name, dayStr, body.request.tasks.value);
      return Ok(DayTasks(name, check.day, users[name][dayStr]));
    }
  }

  /**
    A day write followed by a day read of the same user. The read sees the
    written list when it names the same segment; any other segment, even
    one that parses to the same day, reads what was stored before.
  */
  method WriteThenReadDay(store: TaskStore, name: string, dayStr: string, tasks: seq<string>, readStr: string)
    returns (w: Response<DayTasks>, r: Response<DayTasks>)
    modifies store
    ensures w.Ok? <==> ParseDay(dayStr).ValidDay?
    ensures w.Ok? ==> w.value.tasks == tasks
    ensures w.Ok? && ParseDay(readStr).ValidDay? && readStr == dayStr ==>
      r == Ok(DayTasks(name, ParseDay(readStr).day, tasks))
    ensures w.Ok? && ParseDay(readStr).ValidDay? && readStr != dayStr ==>
      r == Ok(DayTasks(name, ParseDay(readStr).day, DayOrEmpty(TasksOf(old(store.users), name), readStr)))
  {
    w := store.UpdateUserDayTasks(name, dayStr, Bound(UpdateDayTasksRequest(Some(tasks))), false);
    r := store.GetUserDayTasks(name, readStr, false);
  }

  /**
    A full write followed by a read of the same user: the read returns
    exactly the written map, whatever days were stored before.
  */
  method WriteThenReadAll(store: TaskStore, name: string, tasks: DayMap)
    returns (w: Response<User>, r: Response<User>)
    modifies store
    ensures name == "" ==> w == BadRequest(MissingName) && r == old(if name in store.users then Ok(User(name, store.users[name])) else NotFound)
    ensures name != "" ==> w == Ok(User(name, tasks)) && r == Ok(User(name, tasks))
  {
    w := store.UpdateUserTasks(Bound(UpdateTasksRequest(name, Some(tasks))), false);
    r := store.GetUserTasks(name, false);
  }

  /** Example requests replayed on an empty collection. */
  method Scenarios() {
    var store := new TaskStore(map[]);
    var w := store.UpdateUserTasks(Bound(UpdateTasksRequest("", None)), false);
    assert w == BadRequest(MissingName);
    ParseDayAccepts("3");
    var d := store.UpdateUserDayTasks("Ann", "3", Bound(UpdateDayTasksRequest(Some(["brush teeth", "read"]))), false);
    assert d == Ok(DayTasks("Ann", 3, ["brush teeth", "read"]));
    var g := store.GetUserDayTasks("Ann", "3", false);
    assert g == Ok(DayTasks("Ann", 3, ["brush teeth", "read"]));
    ParseDayAccepts("03");
    g := store.GetUserDayTasks("Ann", "03", false);
    assert g == Ok(DayTasks("Ann", 3, []));
    ParseDayAccepts("9");
    g := store.GetUserDayTasks("Ann", "9", false);
    assert g == BadRequest(DayOutOfRange);
    var u := store.GetUserTasks("Ghost", false);
    assert u == NotFound;
  }
}
