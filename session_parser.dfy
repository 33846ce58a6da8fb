/** The mapping from a session's `workspace.yaml` record to the session
    information the client reports. Reading the file and the YAML parser
    are outside the model: they are the functions `read` and `yaml` given to
    the parsing functions, and dates arrive as millisecond timestamps. */
module SessionParser {
  import opened Wrappers

  /** The fields of `workspace.yaml`; `summary` and `summary_count` may be
      absent (or null). */
  datatype WorkspaceYaml = WorkspaceYaml(
    id: string,
    cwd: string,
    summary: Option<string>,
    summaryCount: Option<int>,
    createdAt: int,
    updatedAt: int)

  datatype SessionInfo = SessionInfo(
    id: string,
    cwd: string,
    summary: string,
    summaryCount: int,
    createdAt: int,
    updatedAt: int)

  /** The object literal built from a parsed record: `id`, `cwd` and the two
      dates copied, `summary` defaulting to the empty string and
      `summary_count` to 0. */
  function ToSessionInfo(data: WorkspaceYaml): (r: SessionInfo)
    ensures r.id == data.id && r.cwd == data.cwd
    ensures r.createdAt == data.createdAt && r.updatedAt == data.updatedAt
    ensures data.summary.None? ==> r.summary == ""
    ensures data.summary.Some? ==> r.summary == data.summary.value
    ensures data.summaryCount.None? ==> r.summaryCount == 0
    ensures data.summaryCount.Some? ==> r.summaryCount == data.summaryCount.value
  {
    SessionInfo(data.id, data.cwd, data.summary.GetOr(""), data.summaryCount.GetOr(0),
                data.createdAt, data.updatedAt)
  }

  /** A record that writes every field out. */
  function ToWorkspace(info: SessionInfo): WorkspaceYaml {
    WorkspaceYaml(info.id, info.cwd, Some(info.summary), Some(info.summaryCount), info.createdAt, info.updatedAt)
  }

  /** Writing every field out and mapping back gives the session unchanged. */
  lemma WorkspaceRoundTrip(info: SessionInfo)
    ensures ToSessionInfo(ToWorkspace(info)) == info
  {
  }

  /** Two records that differ only in whether the defaults are written out
      map to the same session. */
  lemma DefaultsAreImplicit(data: WorkspaceYaml)
    ensures ToSessionInfo(data.(summary := None)) == ToSessionInfo(data.(summary := Some("")))
    ensures ToSessionInfo(data.(summaryCount := None)) == ToSessionInfo(data.(summaryCount := Some(0)))
  {
  }

  /** `parseWorkspaceContent`: the YAML parse, then the mapping. A parse
      error propagates. */
  function ParseWorkspaceContent(yaml: string -> Result<WorkspaceYaml, string>, content: string): (r: Result<SessionInfo, string>)
    ensures r.Failure? <==> yaml(content).Failure?
    ensures r.Success? ==> r.value == ToSessionInfo(yaml(content).value)
  {
    var data :- yaml(content);
    Success(ToSessionInfo(data))
  }

  /** `parseWorkspaceFile`: reads the file, then parses what it read. A read
      error or a parse error propagates. */
  function ParseWorkspaceFile(read: string -> Result<string, string>, yaml: string -> Result<WorkspaceYaml, string>,
                              path: string): (r: Result<SessionInfo, string>)
    ensures read(path).Failure? ==> r == Failure(read(path).error)
  {
    var content :- read(path);
    var data :- yaml(content);
    Success(ToSessionInfo(data))
  }

  /** The file and the content parsers apply the same mapping to the same
      text. */
  lemma FileAgreesWithContent(read: string -> Result<string, string>, yaml: string -> Result<WorkspaceYaml, string>,
                              path: string)
    requires read(path).Success?
    ensures ParseWorkspaceFile(read, yaml, path) == ParseWorkspaceContent(yaml, read(path).value)
  {
  }
}
