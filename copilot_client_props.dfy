/** What a prompt promises, composed from the properties of the pieces it is
    built from. */
module CopilotClientProps {
  import opened Wrappers
  import opened Text
  import opened Errors
  import opened ConfigBuilder
  import opened OutputParser
  import opened SessionParser
  import opened SessionManager
  import opened SessionManagerProps
  import OutputParserProps
  import opened CopilotClient

  /** When the executor rejects (a timeout, or a CLI that cannot be
      spawned), the prompt rejects with that same error. */
  lemma ExecutorFailurePassesOn(error: CopilotError, store: SessionStore)
    ensures PromptOutcome(Failure(error), store) == Failure(error)
    ensures error.CopilotTimeoutError? ==> PromptOutcome(Failure(error), store).error.CopilotTimeoutError?
  {
  }

  /** A run that completes makes the prompt reject exactly when it exits
      non-zero with something on stderr, or when the session-state directory
      cannot be listed afterwards; a fatal run rejects with an execution
      error naming the exit code and ending in stderr. */
  lemma PromptRejectsFatalRuns(result: ExecuteResult, store: SessionStore)
    ensures PromptOutcome(Success(result), store).Failure? <==>
      (result.exitCode != 0 && result.stderr != "") || (store.present && store.readdirFailure.Some?)
    ensures result.exitCode != 0 && result.stderr != "" ==>
      && PromptOutcome(Success(result), store).error.CopilotExecutionError?
      && var m := PromptOutcome(Success(result), store).error.message;
         && |m| >= |result.stderr| && m[|m| - |result.stderr|..] == result.stderr
  {
    var m := ExecutionMessage(result);
    assert m == ("Copilot CLI exited with code " + IntToString(result.exitCode) + ": ") + result.stderr;
  }

  /** A run that is not fatal still rejects, with the file system's error,
      when `readdir` of the session-state directory fails after it. */
  lemma ListingFailureAfterRun(result: ExecuteResult, store: SessionStore)
    requires !(result.exitCode != 0 && result.stderr != "")
    requires store.present && store.readdirFailure.Some?
    ensures PromptOutcome(Success(result), store) == Failure(FileSystemError(store.readdirFailure.value))
  {
  }

  /** A non-zero exit with nothing on stderr is not fatal: the prompt
      resolves whenever the sessions can be listed, and reports the exit
      code. */
  lemma QuietFailureResolves(result: ExecuteResult, store: SessionStore)
    requires result.exitCode != 0 && result.stderr == ""
    ensures PromptOutcome(Success(result), store).Success? <==> ListOutcome(store, MostRecentOptions).Success?
    ensures PromptOutcome(Success(result), store).Success? ==>
      PromptOutcome(Success(result), store).value.exitCode == result.exitCode
  {
  }

  /** A resolved prompt reports what the output parser reads from stdout. */
  lemma PromptReportsParsedOutput(result: ExecuteResult, store: SessionStore)
    requires PromptOutcome(Success(result), store).Success?
    ensures var response := PromptOutcome(Success(result), store).value;
      var parsed := CliOutput(result.stdout);
      && response.output == parsed.response && response.usage == parsed.usage
      && response.duration == parsed.duration && response.codeChanges == parsed.codeChanges
  {
  }

  /** When stdout carries no statistics, the output is the trimmed stdout
      and every metric is zero. */
  lemma PlainAnswer(result: ExecuteResult, store: SessionStore)
    requires PromptOutcome(Success(result), store).Success?
    requires var lines := Split(result.stdout, '\n');
      forall k :: 0 <= k < |lines| ==> !HasSentinel(lines[k])
    ensures var response := PromptOutcome(Success(result), store).value;
      && response.output == Trim(result.stdout)
      && response.usage == Defaults.usage && response.duration == Defaults.duration
      && response.codeChanges == Defaults.codeChanges
  {
    OutputParserProps.NoStatsBlock(result.stdout);
  }

  /** The reported session id is `''` when no session loads, and otherwise
      the id of the first session, in directory order, among those updated
      last. */
  lemma ReportedSessionIsNewest(result: ExecuteResult, store: SessionStore)
    requires PromptOutcome(Success(result), store).Success?
    ensures var id := PromptOutcome(Success(result), store).value.sessionId;
      var loaded := Loaded(store, store.entries);
      && (!store.present || loaded == [] ==> id == "")
      && (store.present && loaded != [] ==> exists i :: IsFirstNewest(loaded, i, UpdatedAt) && id == loaded[i].id)
  {
    MostRecentIsNewest(store);
  }
}
