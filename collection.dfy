/**
  The users collection as the handlers see it through MongoDB's
  FindOneAndUpdate with upsert: a `$set` on a user's whole `tasks` field or
  on one nested `tasks.<key>` field, creating the document when no document
  has that name. A document without a `tasks` field reads as an empty map.
*/
module Collection {
  import opened Wrappers
  import opened Api

  /** The tasks stored under a name; a missing document holds none. */
  function TasksOf(users: Users, name: string): DayMap {
    if name in users then users[name] else map[]
  }

  /** A day's list; a missing day key reads as the empty list. */
  function DayOrEmpty(tasks: DayMap, key: string): (r: seq<string>)
    ensures key in tasks ==> r == tasks[key]
    ensures key !in tasks ==> r == []
  {
    if key in tasks then tasks[key] else []
  }

  /** `{$set: {"tasks.<key>": tasks}}` on `{name}` with upsert. */
  function SetDay(users: Users, name: string, key: string, tasks: seq<string>): (r: Users)
    ensures r.Keys == users.Keys + {name}
    ensures r[name].Keys == TasksOf(users, name).Keys + {key}
    ensures r[name][key] == tasks
    ensures forall k :: k in TasksOf(users, name) && k != key ==> r[name][k] == TasksOf(users, name)[k]
    ensures forall n :: n in users && n != name ==> r[n] == users[n]
  {
    users[name := TasksOf(users, name)[key := tasks]]
  }

  /**
    `{$set: {tasks: m}}` on `{name}` with upsert when tasks is Some(m); an
    empty `$set` (which still upserts) when it is None.
  */
  function SetAllTasks(users: Users, name: string, tasks: Option<DayMap>): (r: Users)
    ensures r.Keys == users.Keys + {name}
    ensures tasks.Some? ==> r[name] == tasks.value
    ensures tasks.None? ==> r[name] == TasksOf(users, name)
    ensures forall n :: n in users && n != name ==> r[n] == users[n]
  {
    users[name := if tasks.Some? then tasks.value else TasksOf(users, name)]
  }

  /** Writes to two different day keys of one user can be applied in either order. */
  lemma DistinctDayWritesCommute(users: Users, name: string, k1: string, t1: seq<string>, k2: string, t2: seq<string>)
    requires k1 != k2
    ensures SetDay(SetDay(users, name, k1, t1), name, k2, t2) == SetDay(SetDay(users, name, k2, t2), name, k1, t1)
  {
    var m := TasksOf(users, name);
    assert m[k1 := t1][k2 := t2] == m[k2 := t2][k1 := t1];
  }

  /** A second write to the same day key overwrites the first. */
  lemma SameDayLastWriteWins(users: Users, name: string, key: string, t1: seq<string>, t2: seq<string>)
    ensures SetDay(SetDay(users, name, key, t1), name, key, t2) == SetDay(users, name, key, t2)
  {
    var m := TasksOf(users, name);
    assert m[key := t1][key := t2] == m[key := t2];
  }

  /** A full write of `tasks` discards every earlier per-day write: no merge. */
  lemma FullWriteDiscardsDayWrite(users: Users, name: string, key: string, t: seq<string>, m: DayMap)
    ensures SetAllTasks(SetDay(users, name, key, t), name, Some(m)) == SetAllTasks(users, name, Some(m))
  {
  }
}
