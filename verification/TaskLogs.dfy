/** The in-memory task log of services/task_log_service.py. */
module TaskLogs {
  import opened Wrappers
  import opened Strings
  import opened Sorting

  datatype TaskRunLog = TaskRunLog(
    id: int, taskId: Text, runAt: int, durationMs: nat, status: string, result: Option<string>, error: Option<string>)

  /** `(run_at, id)` in reverse. */
  predicate Later(a: TaskRunLog, b: TaskRunLog) {
    a.runAt > b.runAt || (a.runAt == b.runAt && a.id > b.id)
  }

  /** `logs[:limit]`; a negative limit counts from the end. */
  function TakeSlice<T>(s: seq<T>, limit: int): seq<T> {
    if limit >= |s| then s
    else if limit >= 0 then s[..limit]
    else if |s| + limit >= 0 then s[..|s| + limit]
    else []
  }

  function LogsOf(logs: map<Text, seq<TaskRunLog>>, taskId: Text): seq<TaskRunLog> {
    if taskId in logs then logs[taskId] else []
  }

  /** The service's two fields: the next id, and the entries of each task. */
  datatype Book = Book(nextId: int, logs: map<Text, seq<TaskRunLog>>)

  const EMPTY_BOOK := Book(1, map[])

  /** What a caller records. */
  datatype Entry = Entry(
    taskId: Text, runAt: int, durationMs: nat, status: string, result: Option<string>, error: Option<string>)

  function LogFor(id: int, e: Entry): TaskRunLog {
    TaskRunLog(id, e.taskId, e.runAt, e.durationMs, e.status, e.result, e.error)
  }

  function Record(book: Book, e: Entry): Book {
    Book(book.nextId + 1, book.logs[e.taskId := LogsOf(book.logs, e.taskId) + [LogFor(book.nextId, e)]])
  }

  /** Entries are filed under their own task, in the order of their ids, and the next id is new. */
  ghost predicate BookOk(book: Book) {
    && book.nextId >= 1
    && (forall t | t in book.logs :: Ascending(book.logs[t]))
    && (forall t, i | t in book.logs && 0 <= i < |book.logs[t]| ::
          book.logs[t][i].taskId == t && 1 <= book.logs[t][i].id < book.nextId)
  }

  /** Recording adds one entry with an id no entry of any task has, and touches no other task. */
  lemma RecordIsNew(book: Book, e: Entry)
    requires BookOk(book)
    ensures BookOk(Record(book, e))
    ensures forall t :: LogsOf(Record(book, e).logs, t)
                        == LogsOf(book.logs, t) + (if t == e.taskId then [LogFor(book.nextId, e)] else [])
    ensures forall t, i | 0 <= i < |LogsOf(book.logs, t)| :: LogsOf(book.logs, t)[i].id != book.nextId
  {
  }

  function Listed(logs: seq<TaskRunLog>, limit: int): seq<TaskRunLog> {
    TakeSlice(Sort(Later, logs), limit)
  }

  predicate Ascending(logs: seq<TaskRunLog>) {
    forall i, j :: 0 <= i < j < |logs| ==> logs[i].id < logs[j].id
  }

  /** Strictly newest first, from these logs, and whatever is left out is older than whatever is shown. */
  ghost predicate ShowsNewest(listed: seq<TaskRunLog>, logs: seq<TaskRunLog>) {
    && Sorted(Later, listed) && multiset(listed) <= multiset(logs)
    && (forall shown, hidden :: shown in listed && hidden in logs && hidden !in listed ==> Later(shown, hidden))
  }

  /** Main result: a listing shows the newest entries, each once, and as many as asked for. */
  lemma ListingIsNewest(logs: seq<TaskRunLog>, limit: int)
    requires Ascending(logs)
    ensures ShowsNewest(Listed(logs, limit), logs)
    ensures |Listed(logs, limit)| ==
              if limit >= |logs| then |logs| else if limit >= 0 then limit
              else if |logs| + limit >= 0 then |logs| + limit else 0
  {
    SortedLogs(logs);
    assert Listed(logs, limit) == Sort(Later, logs)[..|Listed(logs, limit)|];
    PrefixIsBest(Sort(Later, logs), logs, |Listed(logs, limit)|);
  }

  lemma PrefixIsBest(all: seq<TaskRunLog>, logs: seq<TaskRunLog>, n: nat)
    requires Sorted(Later, all) && n <= |all| && multiset(all) == multiset(logs)
    ensures ShowsNewest(all[..n], logs)
  {
    assert all == all[..n] + all[n..];
    assert forall k :: 0 <= k < n ==> all[k] == all[..n][k];
    forall shown, hidden | shown in all[..n] && hidden in logs && hidden !in all[..n] ensures Later(shown, hidden) {
      assert hidden in multiset(all);
      var i :| 0 <= i < n && all[i] == shown;
      var j :| 0 <= j < |all| && all[j] == hidden;
    }
  }

  lemma SortedLogs(logs: seq<TaskRunLog>)
    requires Ascending(logs)
    ensures Sorted(Later, Sort(Later, logs)) && multiset(Sort(Later, logs)) == multiset(logs)
    ensures |Sort(Later, logs)| == |logs|
  {
    SortSorts(Later, logs);
    assert |Sort(Later, logs)| == |multiset(Sort(Later, logs))| == |multiset(logs)|;
  }

  class TaskLogService {
    var nextId: int
    var logsByTaskId: map<Text, seq<TaskRunLog>>

    function Value(): Book
      reads this
    {
      Book(nextId, logsByTaskId)
    }

    ghost predicate Valid()
      reads this
    {
      BookOk(Value())
    }

    constructor ()
      ensures Valid() && Value() == EMPTY_BOOK
    {
      nextId, logsByTaskId := 1, map[];
    }

    method RecordLog(entry: Entry) returns (log: TaskRunLog)
      requires Valid()
      modifies this
      ensures Valid() && Value() == Record(old(Value()), entry) && log == LogFor(old(nextId), entry)
      ensures forall t, i | 0 <= i < |LogsOf(old(logsByTaskId), t)| :: LogsOf(old(logsByTaskId), t)[i].id != log.id
      ensures log == TaskRunLog(old(nextId), entry.taskId, entry.runAt, entry.durationMs, entry.status,
                                entry.result, entry.error)
      ensures forall t :: LogsOf(logsByTaskId, t) ==
                LogsOf(old(logsByTaskId), t) + (if t == entry.taskId then [log] else [])
    {
      RecordIsNew(Value(), entry);
      log := LogFor(nextId, entry);
      nextId := nextId + 1;
      if entry.taskId !in logsByTaskId {
        logsByTaskId := logsByTaskId[entry.taskId := []];
      }
      logsByTaskId := logsByTaskId[entry.taskId := logsByTaskId[entry.taskId] + [log]];
    }

    method ListLogs(taskId: Text, limit: int) returns (logs: seq<TaskRunLog>)
      requires Valid()
      ensures logs == Listed(LogsOf(logsByTaskId, taskId), limit)
      ensures ShowsNewest(logs, LogsOf(logsByTaskId, taskId))
      ensures forall i, j :: 0 <= i < j < |logs| ==>
                logs[i].runAt > logs[j].runAt || (logs[i].runAt == logs[j].runAt && logs[i].id > logs[j].id)
      ensures 0 <= limit <= |LogsOf(logsByTaskId, taskId)| ==> |logs| == limit
      ensures limit > |LogsOf(logsByTaskId, taskId)| ==> |logs| == |LogsOf(logsByTaskId, taskId)|
      ensures forall i :: 0 <= i < |logs| ==> logs[i].taskId == taskId
    {
      ListingIsNewest(LogsOf(logsByTaskId, taskId), limit);
      logs := Listed(LogsOf(logsByTaskId, taskId), limit);
      forall i | 0 <= i < |logs| ensures logs[i].taskId == taskId {
        assert logs[i] in multiset(logs);
        assert logs[i] in multiset(LogsOf(logsByTaskId, taskId));
      }
    }

    method Reset()
      modifies this
      ensures Valid() && Value() == EMPTY_BOOK
    {
      nextId, logsByTaskId := 1, map[];
    }
  }
}
