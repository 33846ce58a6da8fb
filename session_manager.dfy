/** The session manager: lists the sessions found in the session-state
    directory (skipping what cannot be read, sorting by a timestamp and
    limiting), looks one up by id, finds the most recent and tells whether a
    session directory exists. The filesystem is the `SessionStore` value the
    operations are given. */
module SessionManager {
  import opened Wrappers
  import opened Errors
  import opened SessionParser

  /** An entry of the session-state directory. */
  datatype DirEntry = DirEntry(name: string, isDirectory: bool)

  /** The session-state directory: whether it can be accessed, its entries,
      the message `readdir` rejects with when listing them fails (`None`
      when it succeeds), the file system's `readFile` and the YAML parser (for
      `workspace.yaml`), and `stat` of a session's directory (`None` when
      `stat` fails, else whether the path is a directory). Paths are relative
      to the session-state directory. */
  datatype SessionStore = SessionStore(
    present: bool,
    entries: seq<DirEntry>,
    readdirFailure: Option<string>,
    read: string -> Result<string, string>,
    yaml: string -> Result<WorkspaceYaml, string>,
    stat: string -> Option<bool>)

  datatype SortKey = CreatedAt | UpdatedAt
  datatype SortOrder = Asc | Desc

  /** `SessionListOptions`: every field optional. */
  datatype ListOptions = ListOptions(limit: Option<int>, sortBy: Option<SortKey>, sortOrder: Option<SortOrder>)

  /** The path of a session's `workspace.yaml`. */
  function WorkspacePath(sessionId: string): string {
    sessionId + "/workspace.yaml"
  }

  /** `parseWorkspaceFile` of a session's `workspace.yaml`. */
  function Workspace(store: SessionStore, sessionId: string): Result<SessionInfo, string> {
    ParseWorkspaceFile(store.read, store.yaml, WorkspacePath(sessionId))
  }

  // ---------------------------------------------------------------------
  // Loading

  /** What one entry contributes: its session when it is a directory whose
      workspace file parses, else nothing. */
  function LoadEntry(store: SessionStore, e: DirEntry): seq<SessionInfo> {
    if e.isDirectory && Workspace(store, e.name).Success? then [Workspace(store, e.name).value] else []
  }

  /** The sessions of the given entries, in entry order. */
  function Loaded(store: SessionStore, es: seq<DirEntry>): seq<SessionInfo> {
    if es == [] then [] else Loaded(store, es[..|es| - 1]) + LoadEntry(store, es[|es| - 1])
  }

  // ---------------------------------------------------------------------
  // Sorting: `Array.prototype.sort` with the timestamp comparator, which is
  // a stable sort

  function Key(s: SessionInfo, field: SortKey): int {
    if field == CreatedAt then s.createdAt else s.updatedAt
  }

  /** The comparator returns a negative number: `a` goes strictly before
      `b`. */
  predicate Before(a: SessionInfo, b: SessionInfo, field: SortKey, order: SortOrder) {
    if order == Desc then Key(b, field) - Key(a, field) < 0 else Key(a, field) - Key(b, field) < 0
  }

  /** `a` may precede `b`: newest first for `Desc`, oldest first for `Asc`. */
  predicate InOrder(a: SessionInfo, b: SessionInfo, field: SortKey, order: SortOrder) {
    if order == Desc then Key(a, field) >= Key(b, field) else Key(a, field) <= Key(b, field)
  }

  predicate Sorted(ss: seq<SessionInfo>, field: SortKey, order: SortOrder) {
    forall i, j :: 0 <= i < j < |ss| ==> InOrder(ss[i], ss[j], field, order)
  }

  /** Places `x` before the first element it must precede. */
  function Insert(x: SessionInfo, ss: seq<SessionInfo>, field: SortKey, order: SortOrder): seq<SessionInfo> {
    if ss == [] then [x]
    else if Before(x, ss[0], field, order) then [x] + ss
    else [ss[0]] + Insert(x, ss[1..], field, order)
  }

  /** The sorted sessions: each element in turn inserted after the ones
      already placed that it need not precede. */
  function SortSessions(ss: seq<SessionInfo>, field: SortKey, order: SortOrder): seq<SessionInfo> {
    if ss == [] then [] else Insert(ss[|ss| - 1], SortSessions(ss[..|ss| - 1], field, order), field, order)
  }

  /** The sessions of `ss` whose sort key is `k`, in order. */
  function WithKey(ss: seq<SessionInfo>, field: SortKey, k: int): seq<SessionInfo> {
    if ss == [] then [] else (if Key(ss[0], field) == k then [ss[0]] else []) + WithKey(ss[1..], field, k)
  }

  // ---------------------------------------------------------------------
  // Listing

  /** `sessions.slice(0, limit)` when `limit` is truthy and positive. */
  function Limit(ss: seq<SessionInfo>, limit: Option<int>): seq<SessionInfo> {
    if limit.Some? && limit.value > 0 && limit.value < |ss| then ss[..limit.value] else ss
  }

  function SortKeyOf(options: ListOptions): SortKey {
    options.sortBy.GetOr(UpdatedAt)
  }

  function SortOrderOf(options: ListOptions): SortOrder {
    options.sortOrder.GetOr(Desc)
  }

  /** What `listSessions(options)` resolves to when it resolves. */
  function Listing(store: SessionStore, options: ListOptions): seq<SessionInfo> {
    if !store.present then []
    else Limit(SortSessions(Loaded(store, store.entries), SortKeyOf(options), SortOrderOf(options)), options.limit)
  }

  /** `listSessions(options)`: a directory that cannot be accessed has no
      sessions, but a failing `readdir` of one that can is not caught and
      rejects with its error. */
  function ListOutcome(store: SessionStore, options: ListOptions): (r: Result<seq<SessionInfo>, CopilotError>)
    ensures r.Failure? <==> store.present && store.readdirFailure.Some?
    ensures r.Failure? ==> r.error == FileSystemError(store.readdirFailure.value)
    ensures r.Success? ==> r.value == Listing(store, options)
  {
    if store.present && store.readdirFailure.Some? then Failure(FileSystemError(store.readdirFailure.value))
    else Success(Listing(store, options))
  }

  /** `listSessions`. */
  method ListSessions(store: SessionStore, options: ListOptions) returns (r: Result<seq<SessionInfo>, CopilotError>)
    ensures r == ListOutcome(store, options)
  {
    var limit, sortBy, sortOrder := options.limit, SortKeyOf(options), SortOrderOf(options);
    if !store.present {
      return Success([]);
    }
    if store.readdirFailure.Some? {
      return Failure(FileSystemError(store.readdirFailure.value));
    }
    var entries := store.entries;
    var sessions := [];
    for i := 0 to |entries|
      invariant sessions == Loaded(store, entries[..i])
    {
      assert entries[..i + 1][..i] == entries[..i];
      var entry := entries[i];
      if !entry.isDirectory {
        continue;
      }
      var session := Workspace(store, entry.name);
      if session.Failure? {
        continue;
      }
      sessions := sessions + [session.value];
    }
    assert entries[..|entries|] == entries;
    sessions := SortSessions(sessions, sortBy, sortOrder);
    if limit.Some? && limit.value > 0 {
      if limit.value < |sessions| {
        sessions := sessions[..limit.value];
      }
      return Success(sessions);
    }
    return Success(sessions);
  }

  /** `getSession`: the session, or `SessionNotFoundError` with the id when its
      workspace file cannot be read or parsed. */
  function GetSession(store: SessionStore, sessionId: string): (r: Result<SessionInfo, CopilotError>)
    ensures r.Failure? <==> Workspace(store, sessionId).Failure?
    ensures r.Failure? ==> r.error == SessionNotFoundError(sessionId)
    ensures r.Success? ==> r.value == Workspace(store, sessionId).value
  {
    match Workspace(store, sessionId)
    case Success(info) => Success(info)
    case Failure(_) => Failure(SessionNotFoundError(sessionId))
  }

  /** The options `getMostRecentSession` lists with. */
  const MostRecentOptions := ListOptions(Some(1), Some(UpdatedAt), Some(Desc))

  /** `getMostRecentSession`: the first session listed newest-first, or
      None; a listing that rejects makes it reject. */
  method GetMostRecentSession(store: SessionStore) returns (r: Result<Option<SessionInfo>, CopilotError>)
    ensures r.Failure? <==> ListOutcome(store, MostRecentOptions).Failure?
    ensures r.Failure? ==> r.error == ListOutcome(store, MostRecentOptions).error
    ensures r.Success? ==> (r.value.None? <==> Listing(store, MostRecentOptions) == [])
    ensures r.Success? && r.value.Some? ==> r.value.value == Listing(store, MostRecentOptions)[0]
  {
    var sessions :- ListSessions(store, MostRecentOptions);
    if |sessions| > 0 {
      r := Success(Some(sessions[0]));
    } else {
      r := Success(None);
    }
  }

  /** `sessionExists`: the session path is a directory; false when `stat`
      fails. */
  function SessionExists(store: SessionStore, sessionId: string): (r: bool)
    ensures r <==> store.stat(sessionId) == Some(true)
  {
    match store.stat(sessionId)
    case None => false
    case Some(isDirectory) => isDirectory
  }
}
