/**
 * One run of the code agent: the sandbox it works against, the three tool
 * handlers, the completion hook, the router with its iteration ceiling, and
 * the classification and the single result record written at the end.
 *
 * The language model is an arbitrary function from the iteration number to
 * the output messages of that iteration; the remote sandbox is an object
 * whose file system the tools change, with its other behaviour fixed by an
 * `Env` value that may make any operation fail.
 */
module CodeAgent {
  import opened Wrappers
  import opened AgentMessages
  import Text

  /** The network's `maxIter`. */
  const MaxIter: nat := 15
  /** The completion sentinel the hook looks for. */
  const SummaryTag: string := "<task_summary>"
  /** The name of the single agent the router hands back. */
  const AgentName: string := "code-agent"
  /** The content of the record written when the run is classified as an error. */
  const ErrorContent: string := "Something went wrong. Please try again."
  /** The title of every fragment. */
  const FragmentTitle: string := "Fragment"
  /** The role of every record written. */
  const AssistantRole: string := "ASSISTANT"
  /** The port whose host forms the sandbox URL. */
  const PreviewPort: int := 3000

  // ---------------------------------------------------------------------------
  // The sandbox
  // ---------------------------------------------------------------------------

  /** What a sandbox operation can throw. */
  datatype SandboxError =
    | ConnectFailed              // `Sandbox.connect(sandboxId)` rejected
    | WriteFailed(path: string)  // `sandbox.files.write(path, ...)` rejected
    | ReadFailed(path: string)   // `sandbox.files.read(path)` rejected

  /** One call of the `onStdout` / `onStderr` callback of `commands.run`. */
  datatype OutputEvent = OnStdout(data: string) | OnStderr(data: string)

  /** How `commands.run` settles: with its result's `stdout`, or by throwing. */
  datatype Exit = Completed(stdout: string) | Raised(error: string)

  /** The callbacks a command makes, in order, and how it settles. */
  datatype CommandRun = CommandRun(events: seq<OutputEvent>, exit: Exit)

  /**
   * The behaviour of the sandbox beyond its file system: whether it can be
   * reached at all, which paths cannot be written or read, what each command
   * does, the host serving a port, and the text `${e}` of a thrown error.
   */
  datatype Env = Env(
    reachable: bool,
    rejects: set<string>,
    shell: string -> CommandRun,
    host: int -> string,
    describe: SandboxError -> string)

  /** The remote sandbox: its file system changes as the tools write to it. */
  class Sandbox {
    const env: Env
    var fs: map<string, string>

    constructor (env: Env, fs: map<string, string>)
      ensures this.env == env && this.fs == fs
    {
      this.env := env;
      this.fs := fs;
    }

    /** `files.write(path, content)`: fails exactly for the rejected paths. */
    method Write(path: string, content: string) returns (ok: bool)
      modifies this`fs
      ensures ok <==> path !in env.rejects
      ensures fs == if ok then old(fs)[path := content] else old(fs)
    {
      ok := path !in env.rejects;
      if ok {
        fs := fs[path := content];
      }
    }

    /** `files.read(path)`: fails for a missing or a rejected path. */
    method Read(path: string) returns (content: Option<string>)
      ensures content.Some? <==> Readable(env, fs, path)
      ensures content.Some? ==> content.value == fs[path]
    {
      if path in fs && path !in env.rejects {
        content := Some(fs[path]);
      } else {
        content := None;
      }
    }
  }

  predicate Readable(env: Env, fs: map<string, string>, path: string)
  {
    path in fs && path !in env.rejects
  }

  /** What a tool hands back to the agent. `JsonOutput(es)` is `JSON.stringify(es)`. */
  datatype ToolOutput = TextOutput(text: string) | JsonOutput(entries: seq<FileEntry>) | NoOutput

  // ---------------------------------------------------------------------------
  // terminal
  // ---------------------------------------------------------------------------

  /** What the `onStdout` callback has appended to `buffers.stdout`. */
  function StdoutOf(events: seq<OutputEvent>): (stdout: string)
    ensures (forall k :: 0 <= k < |events| ==> !events[k].OnStdout?) ==> stdout == ""
  {
    if events == [] then ""
    else
      StdoutOf(events[..|events| - 1]) + (if events[|events| - 1].OnStdout? then events[|events| - 1].data else "")
  }

  /** What the `onStderr` callback has appended to `buffers.stderr`. */
  function StderrOf(events: seq<OutputEvent>): (stderr: string)
    ensures (forall k :: 0 <= k < |events| ==> !events[k].OnStderr?) ==> stderr == ""
  {
    if events == [] then ""
    else
      StderrOf(events[..|events| - 1]) + (if events[|events| - 1].OnStderr? then events[|events| - 1].data else "")
  }

  /** One more event appends its chunk to `buffers.stdout` when it is stdout. */
  lemma StdoutSnoc(s: seq<OutputEvent>, e: OutputEvent)
    ensures StdoutOf(s + [e]) == StdoutOf(s) + StdoutOf([e])
    ensures StdoutOf([e]) == if e.OnStdout? then e.data else ""
  {
    assert (s + [e])[..|s|] == s;
    assert [e][..0] == [];
  }

  /** One more event appends its chunk to `buffers.stderr` when it is stderr. */
  lemma StderrSnoc(s: seq<OutputEvent>, e: OutputEvent)
    ensures StderrOf(s + [e]) == StderrOf(s) + StderrOf([e])
    ensures StderrOf([e]) == if e.OnStderr? then e.data else ""
  {
    assert (s + [e])[..|s|] == s;
    assert [e][..0] == [];
  }

  /** `buffers.stdout` takes the chunks in order: splitting the events splits it. */
  lemma {:induction false} StdoutAppend(a: seq<OutputEvent>, b: seq<OutputEvent>)
    ensures StdoutOf(a + b) == StdoutOf(a) + StdoutOf(b)
  {
    if b == [] {
      assert a + b == a;
    } else {
      var front, e := b[..|b| - 1], b[|b| - 1];
      assert b == front + [e];
      assert a + b == (a + front) + [e];
      calc {
        StdoutOf(a + b);
        == { StdoutSnoc(a + front, e); }
        StdoutOf(a + front) + StdoutOf([e]);
        == { StdoutAppend(a, front); }
        StdoutOf(a) + (StdoutOf(front) + StdoutOf([e]));
        == { StdoutSnoc(front, e); }
        StdoutOf(a) + StdoutOf(b);
      }
    }
  }

  /** `buffers.stderr` takes the chunks in order: splitting the events splits it. */
  lemma {:induction false} StderrAppend(a: seq<OutputEvent>, b: seq<OutputEvent>)
    ensures StderrOf(a + b) == StderrOf(a) + StderrOf(b)
  {
    if b == [] {
      assert a + b == a;
    } else {
      var front, e := b[..|b| - 1], b[|b| - 1];
      assert b == front + [e];
      assert a + b == (a + front) + [e];
      calc {
        StderrOf(a + b);
        == { StderrSnoc(a + front, e); }
        StderrOf(a + front) + StderrOf([e]);
        == { StderrAppend(a, front); }
        StderrOf(a) + (StderrOf(front) + StderrOf([e]));
        == { StderrSnoc(front, e); }
        StderrOf(a) + StderrOf(b);
      }
    }
  }

  /** The message the terminal tool returns when the command throws. */
  function Diagnostic(error: string, stdout: string, stderr: string): (text: string)
    ensures "Command failed: " + error <= text
    ensures |stderr| <= |text| && text[|text| - |stderr|..] == stderr
  {
    "Command failed: " + error + " \nstdout: " + stdout + " \nstderr: " + stderr
  }

  /** What the `terminal` handler returns for `command`. */
  function TerminalReply(env: Env, command: string): (reply: string)
    ensures env.reachable && env.shell(command).exit.Completed? ==> reply == env.shell(command).exit.stdout
    ensures !(env.reachable && env.shell(command).exit.Completed?) ==> "Command failed: " <= reply
    ensures !env.reachable ==> reply == Diagnostic(env.describe(ConnectFailed), "", "")
  {
    if !env.reachable then Diagnostic(env.describe(ConnectFailed), "", "")
    else
      var run := env.shell(command);
      match run.exit
      case Completed(stdout) => stdout
      case Raised(error) => Diagnostic(error, StdoutOf(run.events), StderrOf(run.events))
  }

  /**
   * The `terminal` handler: it never throws; it returns the command's stdout,
   * or on failure the error with everything buffered so far.
   */
  method TerminalTool(sb: Sandbox, command: string) returns (reply: string)
    ensures reply == TerminalReply(sb.env, command)
  {
    var stdout, stderr := "", "";
    if !sb.env.reachable {
      return Diagnostic(sb.env.describe(ConnectFailed), stdout, stderr);
    }
    var run := sb.env.shell(command);
    var i := 0;
    while i < |run.events|
      invariant 0 <= i <= |run.events|
      invariant stdout == StdoutOf(run.events[..i])
      invariant stderr == StderrOf(run.events[..i])
    {
      assert run.events[..i + 1][..i] == run.events[..i];
      match run.events[i] {
        case OnStdout(data) => stdout := stdout + data;
        case OnStderr(data) => stderr := stderr + data;
      }
      i := i + 1;
    }
    assert run.events[..i] == run.events;
    match run.exit
    case Completed(out) => reply := out;
    case Raised(error) => reply := Diagnostic(error, stdout, stderr);
  }

  /** A failing command's reply names the failure and carries both buffers, in order. */
  lemma TerminalFailureReply(env: Env, command: string, before: seq<OutputEvent>, after: seq<OutputEvent>, error: string)
    requires env.reachable && env.shell(command) == CommandRun(before + after, Raised(error))
    ensures TerminalReply(env, command)
      == Diagnostic(error, StdoutOf(before) + StdoutOf(after), StderrOf(before) + StderrOf(after))
  {
    StdoutAppend(before, after);
    StderrAppend(before, after);
  }

  // ---------------------------------------------------------------------------
  // createOrUpdateFiles
  // ---------------------------------------------------------------------------

  /** The paths listed in a batch. */
  function Paths(batch: seq<FileEntry>): set<string>
  {
    set k | 0 <= k < |batch| :: batch[k].path
  }

  /** `m[path] = content` for each entry of the batch, in order. */
  function Merge(m: map<string, string>, batch: seq<FileEntry>): (r: map<string, string>)
    ensures m.Keys <= r.Keys
    ensures batch != [] ==> batch[|batch| - 1].path in r && r[batch[|batch| - 1].path] == batch[|batch| - 1].content
  {
    if batch == [] then m
    else
      var last := batch[|batch| - 1];
      Merge(m, batch[..|batch| - 1])[last.path := last.content]
  }

  /** Merging one more entry of the batch overwrites that entry's path. */
  lemma MergeStep(m: map<string, string>, batch: seq<FileEntry>, i: nat)
    requires i < |batch|
    ensures Merge(m, batch[..i + 1]) == Merge(m, batch[..i])[batch[i].path := batch[i].content]
  {
    assert batch[..i + 1][..i] == batch[..i];
  }

  /** Merging adds or overwrites keys and never removes one. */
  lemma {:induction false} MergeKeys(m: map<string, string>, batch: seq<FileEntry>)
    ensures Merge(m, batch).Keys == m.Keys + Paths(batch)
  {
    if batch != [] {
      var front := batch[..|batch| - 1];
      MergeKeys(m, front);
      assert Paths(batch) == Paths(front) + {batch[|batch| - 1].path} by {
        forall p | p in Paths(batch) ensures p in Paths(front) + {batch[|batch| - 1].path} {
          var k :| 0 <= k < |batch| && batch[k].path == p;
          if k < |batch| - 1 {
            assert front[k].path == p;
          }
        }
        forall p | p in Paths(front) ensures p in Paths(batch) {
          var k :| 0 <= k < |front| && front[k].path == p;
          assert batch[k].path == p;
        }
      }
    }
  }

  /** Last write wins: a path maps to the content of its last occurrence. */
  lemma {:induction false} MergeLastWins(m: map<string, string>, batch: seq<FileEntry>, j: nat)
    requires j < |batch|
    requires forall k :: j < k < |batch| ==> batch[k].path != batch[j].path
    ensures batch[j].path in Merge(m, batch)
    ensures Merge(m, batch)[batch[j].path] == batch[j].content
  {
    if j < |batch| - 1 {
      var front := batch[..|batch| - 1];
      assert forall k :: j < k < |front| ==> front[k].path != front[j].path;
      MergeLastWins(m, front, j);
    }
  }

  /** Paths the batch does not list keep their content. */
  lemma {:induction false} MergeKeepsOthers(m: map<string, string>, batch: seq<FileEntry>, p: string)
    requires p in m
    requires forall k :: 0 <= k < |batch| ==> batch[k].path != p
    ensures p in Merge(m, batch) && Merge(m, batch)[p] == m[p]
  {
    if batch != [] {
      MergeKeepsOthers(m, batch[..|batch| - 1], p);
    }
  }

  /** The index of the first entry whose write throws, or `|batch|` when none does. */
  function FirstRejected(batch: seq<FileEntry>, rejects: set<string>): (k: nat)
    ensures k <= |batch|
    ensures forall j :: 0 <= j < k ==> batch[j].path !in rejects
    ensures k < |batch| ==> batch[k].path in rejects
  {
    if batch == [] then 0
    else if batch[0].path in rejects then 0
    else 1 + FirstRejected(batch[1..], rejects)
  }

  /** The run's `files` field, the sandbox's files and what, if anything, was thrown. */
  datatype WriteOutcome = WriteOutcome(files: Option<map<string, string>>, fs: map<string, string>, thrown: Option<SandboxError>)

  /**
   * The effect of one `createOrUpdateFiles` call. While `files` exists the
   * handler writes into that very object (`files || {}` aliases it), so the
   * entries written before a failure stay; when it does not exist yet the new
   * object is only stored once every write has succeeded.
   */
  function WriteBatch(env: Env, files: Option<map<string, string>>, fs: map<string, string>, batch: seq<FileEntry>): (w: WriteOutcome)
    ensures w.thrown.None? <==> env.reachable && forall j :: 0 <= j < |batch| ==> batch[j].path !in env.rejects
    ensures files.Some? ==> w.files.Some?
    ensures w.thrown.None? ==> w.files.Some?
    ensures w.thrown.Some? && files.None? ==> w.files.None?
  {
    if !env.reachable then WriteOutcome(files, fs, Some(ConnectFailed))
    else
      var k := FirstRejected(batch, env.rejects);
      if k == |batch| then
        WriteOutcome(Some(Merge(files.GetOr(map[]), batch)), Merge(fs, batch), None)
      else
        WriteOutcome(
          if files.Some? then Some(Merge(files.value, batch[..k])) else None,
          Merge(fs, batch[..k]),
          Some(WriteFailed(batch[k].path)))
  }

  /**
   * After a successful call every listed path holds the content of its last
   * occurrence and the keys are exactly the old keys plus the listed paths.
   */
  lemma WriteSuccess(env: Env, files: Option<map<string, string>>, fs: map<string, string>, batch: seq<FileEntry>, j: nat)
    requires WriteBatch(env, files, fs, batch).thrown.None?
    requires j < |batch|
    requires forall k :: j < k < |batch| ==> batch[k].path != batch[j].path
    ensures var w := WriteBatch(env, files, fs, batch);
      && w.files.Some?
      && w.files.value.Keys == files.GetOr(map[]).Keys + Paths(batch)
      && batch[j].path in w.files.value && w.files.value[batch[j].path] == batch[j].content
      && batch[j].path in w.fs && w.fs[batch[j].path] == batch[j].content
    ensures var w := WriteBatch(env, files, fs, batch);
      forall p :: p in files.GetOr(map[]) && p !in Paths(batch) ==> w.files.value[p] == files.GetOr(map[])[p]
    ensures var w := WriteBatch(env, files, fs, batch);
      forall p :: p in fs && p !in Paths(batch) ==> p in w.fs && w.fs[p] == fs[p]
  {
    var m := files.GetOr(map[]);
    MergeKeys(m, batch);
    MergeLastWins(m, batch, j);
    MergeLastWins(fs, batch, j);
    forall p | p in m && p !in Paths(batch) ensures Merge(m, batch)[p] == m[p] {
      assert forall k :: 0 <= k < |batch| ==> batch[k].path in Paths(batch);
      MergeKeepsOthers(m, batch, p);
    }
    forall p | p in fs && p !in Paths(batch) ensures p in Merge(fs, batch) && Merge(fs, batch)[p] == fs[p] {
      assert forall k :: 0 <= k < |batch| ==> batch[k].path in Paths(batch);
      MergeKeepsOthers(fs, batch, p);
    }
  }

  /**
   * A failed call throws. When the sandbox cannot be reached nothing is
   * written. Otherwise the entries before the first rejected one are written
   * to the sandbox and, when `files` existed, into it as well; when `files`
   * did not exist it stays undefined.
   */
  lemma WriteFailure(env: Env, files: Option<map<string, string>>, fs: map<string, string>, batch: seq<FileEntry>)
    requires WriteBatch(env, files, fs, batch).thrown.Some?
    ensures !env.reachable ==> WriteBatch(env, files, fs, batch) == WriteOutcome(files, fs, Some(ConnectFailed))
    ensures env.reachable ==>
      var w := WriteBatch(env, files, fs, batch);
      var k := FirstRejected(batch, env.rejects);
      && k < |batch|
      && w.thrown == Some(WriteFailed(batch[k].path))
      && w.fs == Merge(fs, batch[..k])
      && (files.None? ==> w.files.None?)
      && (files.Some? ==> w.files.Some? && w.files.value.Keys == files.value.Keys + Paths(batch[..k]))
  {
    if env.reachable && files.Some? {
      MergeKeys(files.value, batch[..FirstRejected(batch, env.rejects)]);
    }
  }

  /**
   * The entries written before the failure hold their last written content
   * in the existing `files`, and every other key keeps its own.
   */
  lemma WriteFailureContents(env: Env, files: Option<map<string, string>>, fs: map<string, string>, batch: seq<FileEntry>, j: nat)
    requires env.reachable && files.Some?
    requires WriteBatch(env, files, fs, batch).thrown.Some?
    ensures var w := WriteBatch(env, files, fs, batch);
      var k := FirstRejected(batch, env.rejects);
      && w.files.Some?
      && (j < k && (forall i :: j < i < k ==> batch[i].path != batch[j].path) ==>
            batch[j].path in w.files.value && w.files.value[batch[j].path] == batch[j].content)
      && (forall p :: p in files.value && p !in Paths(batch[..k]) ==>
            p in w.files.value && w.files.value[p] == files.value[p])
  {
    var k := FirstRejected(batch, env.rejects);
    var done := batch[..k];
    assert WriteBatch(env, files, fs, batch).files == Some(Merge(files.value, done));
    if j < k && (forall i :: j < i < k ==> batch[i].path != batch[j].path) {
      assert forall i :: j < i < |done| ==> done[i].path != done[j].path;
      MergeLastWins(files.value, done, j);
    }
    forall p | p in files.value && p !in Paths(done)
      ensures p in Merge(files.value, done) && Merge(files.value, done)[p] == files.value[p]
    {
      assert forall i :: 0 <= i < |done| ==> done[i].path != p;
      MergeKeepsOthers(files.value, done, p);
    }
  }

  /** Whatever happens, keys already in `files` are never removed. */
  lemma {:induction false} WriteMonotone(env: Env, files: Option<map<string, string>>, fs: map<string, string>, batch: seq<FileEntry>)
    requires files.Some?
    ensures var w := WriteBatch(env, files, fs, batch);
      w.files.Some? && files.value.Keys <= w.files.value.Keys
  {
    MergeKeys(files.value, batch);
    MergeKeys(files.value, batch[..FirstRejected(batch, env.rejects)]);
  }

  class Run {
    /** `network.state.data.summary`; `None` is `undefined`. */
    var summary: Option<string>
    /** `network.state.data.files`; `None` is `undefined`. */
    var files: Option<map<string, string>>

    /** A network's state starts as `{}`: neither field is set. */
    constructor ()
      ensures summary == None && files == None
    {
      summary := None;
      files := None;
    }

    /** The `createOrUpdateFiles` handler; `thrown` is what it rethrows. */
    method CreateOrUpdateFiles(sb: Sandbox, batch: seq<FileEntry>) returns (thrown: Option<SandboxError>)
      modifies this`files, sb`fs
      ensures WriteOutcome(files, sb.fs, thrown) == WriteBatch(sb.env, old(files), old(sb.fs), batch)
    {
      var aliased := files.Some?;
      var updated := files.GetOr(map[]);
      if !sb.env.reachable {
        return Some(ConnectFailed);
      }
      var i := 0;
      while i < |batch|
        invariant 0 <= i <= |batch|
        invariant forall j :: 0 <= j < i ==> batch[j].path !in sb.env.rejects
        invariant updated == Merge(old(files).GetOr(map[]), batch[..i])
        invariant sb.fs == Merge(old(sb.fs), batch[..i])
        invariant files == if aliased then Some(updated) else old(files)
      {
        MergeStep(old(files).GetOr(map[]), batch, i);
        MergeStep(old(sb.fs), batch, i);
        var ok := sb.Write(batch[i].path, batch[i].content);
        if !ok {
          assert FirstRejected(batch, sb.env.rejects) == i;
          return Some(WriteFailed(batch[i].path));
        }
        updated := updated[batch[i].path := batch[i].content];
        if aliased {
          files := Some(updated);
        }
        i := i + 1;
      }
      assert batch[..i] == batch;
      assert FirstRejected(batch, sb.env.rejects) == |batch|;
      files := Some(updated);
      thrown := None;
    }

    /** The `onResponse` hook: records the summary and returns the result unchanged. */
    method OnResponse(output: seq<Message>) returns (result: seq<Message>)
      modifies this`summary
      ensures summary == Hook(old(summary), output)
      ensures result == output
    {
      var text := LastAssistantTextMessageContent(output);
      if text.Some? && text.value != "" {
        if Text.Contains(text.value, SummaryTag) {
          summary := text;
        }
      }
      result := output;
    }

    /** Runs one tool call against the sandbox and the run state. */
    method Dispatch(sb: Sandbox, call: ToolCall) returns (output: ToolOutput, thrown: Option<SandboxError>)
      modifies this`files, sb`fs
      ensures (State(summary, files, sb.fs), thrown) == ApplyCall(sb.env, old(State(summary, files, sb.fs)), call)
      ensures call.Terminal? ==> output == TextOutput(TerminalReply(sb.env, call.command))
      ensures call.ReadFiles? ==> output == ReadReply(sb.env, sb.fs, call.paths)
      ensures call.CreateOrUpdateFiles? ==> output == NoOutput
    {
      match call
      case Terminal(command) =>
        var reply := TerminalTool(sb, command);
        output, thrown := TextOutput(reply), None;
      case CreateOrUpdateFiles(batch) =>
        thrown := this.CreateOrUpdateFiles(sb, batch);
        output := NoOutput;
      case ReadFiles(paths) =>
        output := ReadFilesTool(sb, paths);
        thrown := None;
    }

    /** The tool calls of one turn, in order, until one throws. */
    method DispatchAll(sb: Sandbox, calls: seq<ToolCall>) returns (thrown: Option<SandboxError>)
      modifies this`files, sb`fs
      ensures (State(summary, files, sb.fs), thrown) == ApplyCalls(sb.env, old(State(summary, files, sb.fs)), calls)
    {
      var j := 0;
      while j < |calls|
        invariant 0 <= j <= |calls|
        invariant ApplyCalls(sb.env, old(State(summary, files, sb.fs)), calls)
               == ApplyCalls(sb.env, State(summary, files, sb.fs), calls[j..])
      {
        assert calls[j..] == [calls[j]] + calls[j + 1..];
        var reply;
        reply, thrown := Dispatch(sb, calls[j]);
        if thrown.Some? {
          return;
        }
        j := j + 1;
      }
      thrown := None;
    }

    /** One iteration after the router: the hook on the agent's output, then its tool calls. */
    method Turn(sb: Sandbox, output: seq<Message>) returns (thrown: Option<SandboxError>)
      modifies this, sb
      ensures (State(summary, files, sb.fs), thrown) == Step(sb.env, old(State(summary, files, sb.fs)), output)
    {
      var result := OnResponse(output);
      thrown := DispatchAll(sb, ToolCalls(result));
    }

    /**
     * `network.run(...)`: asks the router before every iteration, runs the
     * agent, the hook and then the tool calls of its output in order, and
     * gives up once `MaxIter` iterations have run. A tool that throws
     * rejects the whole run.
     */
    method Execute(sb: Sandbox, agent: nat -> seq<Message>) returns (stop: Stop)
      modifies this, sb
      ensures stop == RunFrom(sb.env, agent, old(State(summary, files, sb.fs)), 0)
      ensures stop.state == State(summary, files, sb.fs)
    {
      var iteration: nat := 0;
      while iteration < MaxIter && Route(summary).Some?
        invariant iteration <= MaxIter
        invariant RunFrom(sb.env, agent, State(summary, files, sb.fs), iteration)
               == RunFrom(sb.env, agent, old(State(summary, files, sb.fs)), 0)
        decreases MaxIter - iteration
      {
        ghost var before := State(summary, files, sb.fs);
        var thrown := Turn(sb, agent(iteration));
        if thrown.Some? {
          assert RunFrom(sb.env, agent, before, iteration) == Aborted(State(summary, files, sb.fs), iteration + 1, thrown.value);
          return Aborted(State(summary, files, sb.fs), iteration + 1, thrown.value);
        }
        assert RunFrom(sb.env, agent, before, iteration) == RunFrom(sb.env, agent, State(summary, files, sb.fs), iteration + 1);
        iteration := iteration + 1;
      }
      stop := Finished(State(summary, files, sb.fs), iteration);
    }
  }

  // ---------------------------------------------------------------------------
  // readFiles
  // ---------------------------------------------------------------------------

  /** The index of the first path that cannot be read, or `|paths|`. */
  function FirstUnreadable(env: Env, fs: map<string, string>, paths: seq<string>): (k: nat)
    ensures k <= |paths|
    ensures forall j :: 0 <= j < k ==> Readable(env, fs, paths[j])
    ensures k < |paths| ==> !Readable(env, fs, paths[k])
  {
    if paths == [] then 0
    else if !Readable(env, fs, paths[0]) then 0
    else 1 + FirstUnreadable(env, fs, paths[1..])
  }

  /** One `{ path, content }` per path, in request order. */
  function Listing(fs: map<string, string>, paths: seq<string>): (entries: seq<FileEntry>)
    requires forall j :: 0 <= j < |paths| ==> paths[j] in fs
    ensures |entries| == |paths|
    ensures forall j :: 0 <= j < |paths| ==> entries[j] == FileEntry(paths[j], fs[paths[j]])
  {
    if paths == [] then [] else [FileEntry(paths[0], fs[paths[0]])] + Listing(fs, paths[1..])
  }

  /** What the `readFiles` handler returns. */
  function ReadReply(env: Env, fs: map<string, string>, paths: seq<string>): (r: ToolOutput)
    ensures r.JsonOutput? <==> env.reachable && forall j :: 0 <= j < |paths| ==> Readable(env, fs, paths[j])
    ensures r.JsonOutput? ==>
      |r.entries| == |paths| && forall j :: 0 <= j < |paths| ==> r.entries[j] == FileEntry(paths[j], fs[paths[j]])
    ensures !r.JsonOutput? ==> r.TextOutput? && "Error: " <= r.text
  {
    if !env.reachable then TextOutput("Error: " + env.describe(ConnectFailed))
    else
      var k := FirstUnreadable(env, fs, paths);
      if k < |paths| then TextOutput("Error: " + env.describe(ReadFailed(paths[k])))
      else JsonOutput(Listing(fs, paths))
  }

  /** The `readFiles` handler: never throws; the listing, or an "Error: " text. */
  method ReadFilesTool(sb: Sandbox, paths: seq<string>) returns (output: ToolOutput)
    ensures output == ReadReply(sb.env, sb.fs, paths)
  {
    if !sb.env.reachable {
      return TextOutput("Error: " + sb.env.describe(ConnectFailed));
    }
    var contents: seq<FileEntry> := [];
    var i := 0;
    while i < |paths|
      invariant 0 <= i <= |paths|
      invariant |contents| == i
      invariant forall j :: 0 <= j < i ==> Readable(sb.env, sb.fs, paths[j])
      invariant forall j :: 0 <= j < i ==> contents[j] == FileEntry(paths[j], sb.fs[paths[j]])
    {
      var content := sb.Read(paths[i]);
      if content.None? {
        return TextOutput("Error: " + sb.env.describe(ReadFailed(paths[i])));
      }
      contents := contents + [FileEntry(paths[i], content.value)];
      i := i + 1;
    }
    output := JsonOutput(contents);
  }

  /** Writing a file and then reading it back gives the content written last. */
  lemma WriteThenRead(env: Env, files: Option<map<string, string>>, fs: map<string, string>, batch: seq<FileEntry>, j: nat)
    requires WriteBatch(env, files, fs, batch).thrown.None?
    requires j < |batch|
    requires forall k :: j < k < |batch| ==> batch[k].path != batch[j].path
    ensures ReadReply(env, WriteBatch(env, files, fs, batch).fs, [batch[j].path])
         == JsonOutput([batch[j]])
  {
    MergeLastWins(fs, batch, j);
    var fs' := WriteBatch(env, files, fs, batch).fs;
    assert Readable(env, fs', batch[j].path);
    assert Listing(fs', [batch[j].path]) == [batch[j]];
  }

  // ---------------------------------------------------------------------------
  // The hook, the router and the loop
  // ---------------------------------------------------------------------------

  /** JavaScript truthiness of an optional string. */
  predicate Truthy(s: Option<string>)
  {
    s.Some? && s.value != ""
  }

  /** The summary after the `onResponse` hook has seen `output`. */
  function Hook(summary: Option<string>, output: seq<Message>): (r: Option<string>)
    ensures r == summary
         || (r == LastAssistantTextMessageContent(output) && Truthy(r) && Text.Contains(r.value, SummaryTag))
    ensures Truthy(summary) ==> Truthy(r)
  {
    var text := LastAssistantTextMessageContent(output);
    if Truthy(text) && Text.Contains(text.value, SummaryTag) then text else summary
  }

  /**
   * The hook captures a sentinel-bearing last assistant text verbatim,
   * whether its content is a string or an array of parts.
   */
  lemma {:induction false} HookCaptures(summary: Option<string>, output: seq<Message>, i: nat)
    requires i < |output| && output[i].TextMessage? && output[i].role == Assistant
    requires forall k :: i < k < |output| ==> !IsAssistant(output[k])
    requires Text.Contains(Flatten(output[i].content), SummaryTag)
    ensures Hook(summary, output) == Some(Flatten(output[i].content))
  {
    LastAssistantIsHighest(output, i);
  }

  /** When the last assistant message does not carry the sentinel, the summary stays. */
  lemma {:induction false} HookKeeps(summary: Option<string>, output: seq<Message>, i: nat)
    requires i < |output| && IsAssistant(output[i])
    requires forall k :: i < k < |output| ==> !IsAssistant(output[k])
    requires output[i].TextMessage? ==> !Text.Contains(Flatten(output[i].content), SummaryTag)
    ensures Hook(summary, output) == summary
  {
    LastAssistantIsHighest(output, i);
  }

  /** The router: no agent (stop) exactly when the summary is truthy. */
  function Route(summary: Option<string>): (next: Option<string>)
    ensures next.None? <==> Truthy(summary)
    ensures next.Some? ==> next.value == AgentName
  {
    if Truthy(summary) then None else Some(AgentName)
  }

  /** The tool calls of an output, in emission order. */
  function ToolCalls(output: seq<Message>): (calls: seq<ToolCall>)
    ensures (forall k :: 0 <= k < |output| ==> !output[k].ToolCallMessage?) ==> calls == []
    ensures output != [] && output[0].ToolCallMessage? ==> output[0].tools <= calls
  {
    if output == [] then []
    else (if output[0].ToolCallMessage? then output[0].tools else []) + ToolCalls(output[1..])
  }

  /** One message contributes its own calls if it is a `tool_call` message, and none otherwise. */
  lemma ToolCallsOfOne(m: Message)
    ensures ToolCalls([m]) == if m.ToolCallMessage? then m.tools else []
  {
    assert [m][1..] == [];
  }

  /** The calls are taken message by message: splitting the output splits them, in emission order. */
  lemma {:induction false} ToolCallsAppend(a: seq<Message>, b: seq<Message>)
    ensures ToolCalls(a + b) == ToolCalls(a) + ToolCalls(b)
    decreases a
  {
    if a == [] {
      assert a + b == b;
    } else {
      assert (a + b)[1..] == a[1..] + b;
      ToolCallsAppend(a[1..], b);
    }
  }

  /** The run state together with the sandbox's files. */
  datatype State = State(summary: Option<string>, files: Option<map<string, string>>, fs: map<string, string>)

  /** How `network.run` ends: it returns, or a tool's error rejects it. */
  datatype Stop =
    | Finished(state: State, iterations: nat)
    | Aborted(state: State, iterations: nat, error: SandboxError)

  /** The effect of one tool call; only `createOrUpdateFiles` changes anything. */
  function ApplyCall(env: Env, st: State, call: ToolCall): (r: (State, Option<SandboxError>))
    ensures r.0.summary == st.summary
    ensures !call.CreateOrUpdateFiles? ==> r == (st, None)
  {
    match call
    case CreateOrUpdateFiles(batch) =>
      var w := WriteBatch(env, st.files, st.fs, batch);
      (st.(files := w.files, fs := w.fs), w.thrown)
    case _ => (st, None)
  }

  /** A `createOrUpdateFiles` call throws exactly when the sandbox is unreachable or a listed path is rejected. */
  lemma WriteCallThrows(env: Env, st: State, call: ToolCall)
    requires call.CreateOrUpdateFiles?
    ensures ApplyCall(env, st, call).1.None?
        <==> env.reachable && forall j :: 0 <= j < |call.files| ==> call.files[j].path !in env.rejects
  {
  }

  /** The calls of one turn in order, stopping at the first that throws. */
  function ApplyCalls(env: Env, st: State, calls: seq<ToolCall>): (r: (State, Option<SandboxError>))
    ensures r.0.summary == st.summary
    decreases calls
  {
    if calls == [] then (st, None)
    else
      var (st', thrown) := ApplyCall(env, st, calls[0]);
      if thrown.Some? then (st', thrown) else ApplyCalls(env, st', calls[1..])
  }

  /** One iteration after the router: the hook on the agent's output, then its tool calls. */
  function Step(env: Env, st: State, output: seq<Message>): (State, Option<SandboxError>)
  {
    ApplyCalls(env, st.(summary := Hook(st.summary, output)), ToolCalls(output))
  }

  /** The run from iteration `iteration` on, in state `st`. */
  function RunFrom(env: Env, agent: nat -> seq<Message>, st: State, iteration: nat): (r: Stop)
    ensures r.iterations >= iteration
    ensures r.Finished? ==> Truthy(r.state.summary) || r.iterations >= MaxIter
    ensures r.Aborted? ==> r.iterations > iteration
    decreases MaxIter - iteration
  {
    if iteration >= MaxIter || Route(st.summary).None? then Finished(st, iteration)
    else
      var next := Step(env, st, agent(iteration));
      if next.1.Some? then Aborted(next.0, iteration + 1, next.1.value)
      else RunFrom(env, agent, next.0, iteration + 1)
  }

  /** The summary after the hooks of iterations `from` to `to - 1`. */
  function SummaryAfter(summary: Option<string>, agent: nat -> seq<Message>, from: nat, to: nat): Option<string>
    decreases to - from
  {
    if from >= to then summary else SummaryAfter(Hook(summary, agent(from)), agent, from + 1, to)
  }

  /**
   * The ceiling holds whatever the agent says, and the loop stops at the
   * first iteration after which the summary is truthy: never earlier, and
   * when it runs to the ceiling the summary is still falsy only if no
   * iteration made it truthy.
   */
  lemma {:induction false} RunStopsAtSummary(env: Env, agent: nat -> seq<Message>, st: State, iteration: nat)
    requires iteration <= MaxIter
    ensures var r := RunFrom(env, agent, st, iteration);
      && iteration <= r.iterations <= MaxIter
      && (r.Finished? ==> r.state.summary == SummaryAfter(st.summary, agent, iteration, r.iterations))
      && (r.Finished? && r.iterations < MaxIter ==> Truthy(r.state.summary))
      && forall k :: iteration <= k < r.iterations ==> !Truthy(SummaryAfter(st.summary, agent, iteration, k))
    decreases MaxIter - iteration
  {
    if iteration < MaxIter && Route(st.summary).Some? {
      var after := Step(env, st, agent(iteration));
      var st' := after.0;
      if after.1.Some? {
        assert RunFrom(env, agent, st, iteration) == Aborted(st', iteration + 1, after.1.value);
      } else {
        RunStopsAtSummary(env, agent, st', iteration + 1);
        var r := RunFrom(env, agent, st', iteration + 1);
        assert RunFrom(env, agent, st, iteration) == r;
        forall k | iteration <= k < r.iterations
          ensures !Truthy(SummaryAfter(st.summary, agent, iteration, k))
        {
          if k > iteration {
            assert SummaryAfter(st.summary, agent, iteration, k) == SummaryAfter(st'.summary, agent, iteration + 1, k);
          }
        }
      }
    }
  }

  /** Keys already in `files` survive the whole run. */
  lemma {:induction false} RunKeepsFiles(env: Env, agent: nat -> seq<Message>, st: State, iteration: nat)
    requires st.files.Some?
    ensures var r := RunFrom(env, agent, st, iteration);
      r.state.files.Some? && st.files.value.Keys <= r.state.files.value.Keys
    decreases MaxIter - iteration
  {
    if iteration < MaxIter && Route(st.summary).Some? {
      var after := Step(env, st, agent(iteration));
      StepKeepsFiles(env, st, agent(iteration));
      if after.1.None? {
        RunKeepsFiles(env, agent, after.0, iteration + 1);
      }
    }
  }

  /** One iteration removes no key of an existing `files`. */
  lemma StepKeepsFiles(env: Env, st: State, output: seq<Message>)
    requires st.files.Some?
    ensures var after := Step(env, st, output);
      after.0.files.Some? && st.files.value.Keys <= after.0.files.value.Keys
  {
    CallsKeepFiles(env, st.(summary := Hook(st.summary, output)), ToolCalls(output));
  }

  lemma {:induction false} CallsKeepFiles(env: Env, st: State, calls: seq<ToolCall>)
    requires st.files.Some?
    ensures var r := ApplyCalls(env, st, calls);
      r.0.files.Some? && st.files.value.Keys <= r.0.files.value.Keys
    decreases calls
  {
    if calls != [] {
      if calls[0].CreateOrUpdateFiles? {
        WriteMonotone(env, st.files, st.fs, calls[0].files);
      }
      var (st', thrown) := ApplyCall(env, st, calls[0]);
      if thrown.None? {
        CallsKeepFiles(env, st', calls[1..]);
      }
    }
  }

  // ---------------------------------------------------------------------------
  // Classification and the result record
  // ---------------------------------------------------------------------------

  datatype MessageKind = RESULT | ERROR

  datatype Fragment = Fragment(sandboxUrl: string, title: string, files: map<string, string>)

  /** The one message record `save-result` creates. */
  datatype MessageRecord = MessageRecord(content: string, role: string, kind: MessageKind, fragment: Option<Fragment>)

  /** `isError`: no truthy summary, or no file keys (missing `files` counts as empty). */
  predicate IsError(summary: Option<string>, files: Option<map<string, string>>)
    ensures IsError(summary, files) <==>
      (summary == None || summary == Some("") || files == None || files == Some(map[]))
  {
    var m := files.GetOr(map[]);
    assert |m.Keys| == 0 ==> m == map[] by {
      if |m.Keys| == 0 {
        assert forall p :: p !in m;
      }
    }
    !Truthy(summary) || |m.Keys| == 0
  }

  /** The record `save-result` writes. */
  function SaveResult(summary: Option<string>, files: Option<map<string, string>>, sandboxUrl: string): (r: MessageRecord)
    ensures r.role == AssistantRole
    ensures r.kind == ERROR <==> IsError(summary, files)
    ensures r.kind == ERROR ==> r.content == ErrorContent && r.fragment == None
    ensures r.kind == RESULT ==>
      && summary == Some(r.content) && r.content != ""
      && files.Some? && |files.value| > 0
      && r.fragment == Some(Fragment(sandboxUrl, FragmentTitle, files.value))
  {
    if IsError(summary, files) then MessageRecord(ErrorContent, AssistantRole, ERROR, None)
    else MessageRecord(summary.value, AssistantRole, RESULT, Some(Fragment(sandboxUrl, FragmentTitle, files.value)))
  }

  /** The value the function returns. */
  datatype Envelope = Envelope(url: string, title: string, files: Option<map<string, string>>, summary: Option<string>)

  /** A run either writes its record and returns, or one of its steps throws. */
  datatype RunResult = Saved(record: MessageRecord, envelope: Envelope) | Threw(error: SandboxError)

  /** The steps after `run-network`: `get-sandbox-url` and `save-result`. */
  function Conclude(env: Env, stop: Stop): (r: RunResult)
    ensures r.Threw? <==> stop.Aborted? || !env.reachable
    ensures stop.Aborted? ==> r == Threw(stop.error)
    ensures r.Saved? ==>
      && r.envelope == Envelope("https://" + env.host(PreviewPort), FragmentTitle, stop.state.files, stop.state.summary)
      && r.record == SaveResult(stop.state.summary, stop.state.files, r.envelope.url)
  {
    match stop
    case Aborted(_, _, error) => Threw(error)
    case Finished(st, _) =>
      if !env.reachable then Threw(ConnectFailed)
      else
        var url := "https://" + env.host(PreviewPort);
        Saved(SaveResult(st.summary, st.files, url), Envelope(url, FragmentTitle, st.files, st.summary))
  }

  /** One run from a fresh network state against a sandbox holding `fs`. */
  function CodeAgentSpec(env: Env, agent: nat -> seq<Message>, fs: map<string, string>): (r: RunResult)
    ensures r.Saved? ==> r.envelope.title == FragmentTitle
    ensures r.Saved? && r.record.kind == RESULT ==>
      && r.envelope.summary == Some(r.record.content)
      && r.envelope.files.Some?
      && r.record.fragment == Some(Fragment(r.envelope.url, r.envelope.title, r.envelope.files.value))
    ensures r.Saved? && r.record.kind == ERROR ==> r.record.fragment == None
  {
    Conclude(env, RunFrom(env, agent, State(None, None, fs), 0))
  }

  /** The code-agent function, after the sandbox has been created. */
  method CodeAgentFunction(sb: Sandbox, agent: nat -> seq<Message>) returns (result: RunResult)
    modifies sb
    ensures result == CodeAgentSpec(sb.env, agent, old(sb.fs))
    ensures sb.fs == RunFrom(sb.env, agent, State(None, None, old(sb.fs)), 0).state.fs
  {
    var run := new Run();
    var stop := run.Execute(sb, agent);
    if stop.Aborted? {
      return Threw(stop.error);
    }
    if !sb.env.reachable {
      return Threw(ConnectFailed);
    }
    var url := "https://" + sb.env.host(PreviewPort);
    var record := SaveResult(run.summary, run.files, url);
    result := Saved(record, Envelope(url, FragmentTitle, run.files, run.summary));
  }

  /** A run that completes writes a RESULT record exactly when it is not an error. */
  lemma RecordOfFinishedRun(env: Env, agent: nat -> seq<Message>, fs: map<string, string>)
    requires env.reachable && RunFrom(env, agent, State(None, None, fs), 0).Finished?
    ensures var r := CodeAgentSpec(env, agent, fs);
      var st := RunFrom(env, agent, State(None, None, fs), 0).state;
      && r.Saved?
      && (r.record.kind == RESULT <==> Truthy(st.summary) && st.files.Some? && |st.files.value| > 0)
      && r.envelope == Envelope("https://" + env.host(PreviewPort), FragmentTitle, st.files, st.summary)
  {
  }

  // ---------------------------------------------------------------------------
  // Two whole runs
  // ---------------------------------------------------------------------------

  /** A final answer carrying the sentinel. */
  const DoneText: string := "<task_summary>done</task_summary>"

  /**
   * The agent writes `a.txt` in its first turn and answers with the
   * sentinel in its second: the run stops after two iterations with the
   * file recorded, and the record is a RESULT carrying the answer.
   */
  lemma ScenarioWriteThenFinish(env: Env, agent: nat -> seq<Message>, fs: map<string, string>)
    requires "a.txt" !in env.rejects && env.reachable
    requires agent(0) == [ToolCallMessage([CreateOrUpdateFiles([FileEntry("a.txt", "x")])])]
    requires agent(1) == [TextMessage(Assistant, Plain(DoneText))]
    ensures RunFrom(env, agent, State(None, None, fs), 0)
         == Finished(State(Some(DoneText), Some(map["a.txt" := "x"]), fs["a.txt" := "x"]), 2)
    ensures var r := CodeAgentSpec(env, agent, fs);
      && r.Saved? && r.record.kind == RESULT && r.record.content == DoneText
      && r.record.fragment == Some(Fragment("https://" + env.host(PreviewPort), FragmentTitle, map["a.txt" := "x"]))
  {
    var first := agent(0);
    assert LastAssistantTextMessageContent(first) == None;
    assert Hook(None, first) == None;
    var batch := [FileEntry("a.txt", "x")];
    assert ToolCalls(first) == [CreateOrUpdateFiles(batch)];
    assert FirstRejected(batch, env.rejects) == 1;
    assert Merge(map[], batch) == map["a.txt" := "x"];
    assert Merge(fs, batch) == fs["a.txt" := "x"];
    var st1 := State(None, Some(map["a.txt" := "x"]), fs["a.txt" := "x"]);
    assert ApplyCalls(env, State(None, None, fs), ToolCalls(first)) == (st1, None);
    var second := agent(1);
    assert Text.Contains(DoneText, SummaryTag) by {
      assert SummaryTag <= DoneText[0..];
    }
    assert Hook(None, second) == Some(DoneText);
    assert ToolCalls(second) == [];
  }

  /** The answer gives the hook no sentinel-bearing text. */
  predicate SentinelFree(output: seq<Message>)
  {
    var text := LastAssistantTextMessageContent(output);
    text.None? || !Text.Contains(text.value, SummaryTag)
  }

  /**
   * While no answer carries the sentinel, a falsy summary stays as it is:
   * the loop stops only at the ceiling or when a write throws, and it runs
   * to the ceiling with the state untouched when the agent calls no tool.
   */
  lemma RunsToCeiling(env: Env, agent: nat -> seq<Message>, st: State, iteration: nat)
    requires !Truthy(st.summary) && iteration <= MaxIter
    requires forall i :: iteration <= i < MaxIter ==> SentinelFree(agent(i))
    ensures var r := RunFrom(env, agent, st, iteration);
      && r.state.summary == st.summary
      && (r.Finished? ==> r.iterations == MaxIter)
      && ((forall i :: iteration <= i < MaxIter ==> ToolCalls(agent(i)) == []) ==> r == Finished(st, MaxIter))
  {
    SummaryStaysFalsy(env, agent, st, iteration);
    if forall i :: iteration <= i < MaxIter ==> ToolCalls(agent(i)) == [] {
      QuietRunUntouched(env, agent, st, iteration);
    }
  }

  /** Without the sentinel a falsy summary survives, so only the ceiling ends the loop. */
  lemma {:induction false} SummaryStaysFalsy(env: Env, agent: nat -> seq<Message>, st: State, iteration: nat)
    requires !Truthy(st.summary) && iteration <= MaxIter
    requires forall i :: iteration <= i < MaxIter ==> SentinelFree(agent(i))
    ensures var r := RunFrom(env, agent, st, iteration);
      r.state.summary == st.summary && (r.Finished? ==> r.iterations == MaxIter)
    decreases MaxIter - iteration
  {
    var r := RunFrom(env, agent, st, iteration);
    if iteration < MaxIter {
      var output := agent(iteration);
      SentinelFreeKeeps(st.summary, output);
      var after := Step(env, st, output);
      if after.1.Some? {
        assert r == Aborted(after.0, iteration + 1, after.1.value);
      } else {
        SummaryStaysFalsy(env, agent, after.0, iteration + 1);
        assert r == RunFrom(env, agent, after.0, iteration + 1);
      }
    } else {
      assert r == Finished(st, iteration);
    }
  }

  /** Without the sentinel and without tool calls, the run reaches the ceiling with the state untouched. */
  lemma {:induction false} QuietRunUntouched(env: Env, agent: nat -> seq<Message>, st: State, iteration: nat)
    requires !Truthy(st.summary) && iteration <= MaxIter
    requires forall i :: iteration <= i < MaxIter ==> SentinelFree(agent(i)) && ToolCalls(agent(i)) == []
    ensures RunFrom(env, agent, st, iteration) == Finished(st, MaxIter)
    decreases MaxIter - iteration
  {
    if iteration < MaxIter {
      var output := agent(iteration);
      SentinelFreeKeeps(st.summary, output);
      assert ToolCalls(output) == [];
      assert Step(env, st, output) == (st, None);
      QuietRunUntouched(env, agent, st, iteration + 1);
    }
  }

  /** A sentinel-free answer leaves the summary as it is. */
  lemma SentinelFreeKeeps(summary: Option<string>, output: seq<Message>)
    requires SentinelFree(output)
    ensures Hook(summary, output) == summary
  {
  }

  /**
   * An agent that never produces the sentinel is stopped by the ceiling
   * after fifteen iterations, unless a write throws first, and the record
   * is an ERROR without fragment. Without tool calls the run always gets
   * that far.
   */
  lemma ScenarioNoSentinel(env: Env, agent: nat -> seq<Message>, fs: map<string, string>)
    requires env.reachable
    requires forall i :: 0 <= i < MaxIter ==> SentinelFree(agent(i))
    ensures var stop := RunFrom(env, agent, State(None, None, fs), 0);
      stop.Finished? ==> stop.iterations == MaxIter && stop.state.summary == None
    ensures var r := CodeAgentSpec(env, agent, fs);
      && (r.Saved? ==> r.record == MessageRecord(ErrorContent, AssistantRole, ERROR, None))
      && (r.Threw? ==> RunFrom(env, agent, State(None, None, fs), 0).Aborted?)
    ensures (forall i :: 0 <= i < MaxIter ==> ToolCalls(agent(i)) == []) ==>
      && RunFrom(env, agent, State(None, None, fs), 0) == Finished(State(None, None, fs), MaxIter)
      && CodeAgentSpec(env, agent, fs).Saved?
  {
    RunsToCeiling(env, agent, State(None, None, fs), 0);
  }
}
