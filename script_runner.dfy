// ScriptRunner.main: parse the command line, check the script, configure
// the runner, load the base attributes, queue the input, run the processor
// once or once per queued file, and print the reports of the requested
// relationships. Every configuration error ends the program with its own
// exit code before anything is printed, in a fixed order of checks.

module ScriptRunnerMain {
  import opened Wrappers
  import opened FlowFiles
  import opened CommandOptions
  import opened ScriptEngines
  import opened Ingestion
  import opened Report

  /** What the command-line parser made of the arguments. */
  datatype CommandLine = UsageError | Populated(options: ParsedOptions)

  /** What the attribute-file path holds. */
  datatype AttributeFile =
    | AttributeFileMissing
    | AttributeFileUnreadable
    | AttributeFileLoaded(properties: map<string, string>)

  /** What the input-directory path holds. */
  datatype InputLocation =
    | InputMissing
    | InputNotDirectory
    | InputDirectory(visits: seq<Visit>)

  /** The world outside the program, as far as main consults it. */
  datatype Environment = Environment(
    scriptExists: bool,
    attributeFile: AttributeFile,
    input: InputLocation,
    stdinAvailable: int,      // what System.in.available() answers
    stdinData: seq<byte>,     // what is read from standard input then
    formatter: Formatter)

  /** How main ends: System.exit with a code, or by returning. */
  datatype Termination = Exited(code: int) | Finished

  /** The processor properties main sets. */
  const SCRIPT_ENGINE := "Script Engine"
  const SCRIPT_FILE := "Script File"
  const MODULES := "Module Directory"

  /** The exit code of the first configuration check that fails, in the
      order main performs them, or None when all pass. */
  function ExitCode(cli: CommandLine, env: Environment): (code: Option<int>)
    ensures code == Some(1) <==> cli.UsageError?
    ensures code == Some(2) <==> cli.Populated? && !env.scriptExists
    ensures code == Some(5) <==>
              cli.Populated? && env.scriptExists &&
              cli.options.attrFile != "" && !env.attributeFile.AttributeFileLoaded?
    ensures code == Some(3) <==>
              cli.Populated? && env.scriptExists &&
              (cli.options.attrFile == "" || env.attributeFile.AttributeFileLoaded?) &&
              cli.options.inputFileDir != "" && env.input.InputMissing?
    ensures code == Some(4) <==>
              cli.Populated? && env.scriptExists &&
              (cli.options.attrFile == "" || env.attributeFile.AttributeFileLoaded?) &&
              cli.options.inputFileDir != "" && env.input.InputNotDirectory?
    ensures code.None? || code.value in {1, 2, 3, 4, 5}
  {
    match cli
    case UsageError => Some(1)
    case Populated(p) =>
      if !env.scriptExists then Some(2)
      else if p.attrFile != "" && !env.attributeFile.AttributeFileLoaded? then Some(5)
      else if p.inputFileDir != "" && env.input.InputMissing? then Some(3)
      else if p.inputFileDir != "" && env.input.InputNotDirectory? then Some(4)
      else None
  }

  /** The processor properties for a script: its engine, its path, and the
      module paths when any are given. */
  function ConfiguredProperties(p: ParsedOptions): map<string, string>
  {
    var engineAndFile := map[][SCRIPT_ENGINE := EngineName(SelectEngine(p.scriptPath))][SCRIPT_FILE := p.scriptPath];
    if p.modulePaths != "" then engineAndFile[MODULES := p.modulePaths] else engineAndFile
  }

  /** The base attributes: the properties of the attribute file, if one is named. */
  function BaseAttributes(p: ParsedOptions, env: Environment): map<string, string>
  {
    if p.attrFile != "" && env.attributeFile.AttributeFileLoaded? then env.attributeFile.properties else map[]
  }

  /** What is queued: standard input without an input directory, the
      directory's regular files with one. */
  function Ingested(p: ParsedOptions, env: Environment, base: map<string, string>): seq<Payload>
  {
    if p.inputFileDir == "" then StdinPayloads(env.stdinAvailable, env.stdinData, base)
    else if env.input.InputDirectory? then Admitted(env.input.visits, base)
    else []
  }

  /** What main prints: the report of success, then that of failure, each
      only when its flag is on. */
  function Reports(transferred: map<Relationship, seq<FlowFile>>, flags: Flags, fmt: Formatter): seq<string>
  {
    (if flags.outputSuccess then RelationshipReport(Success, Some(Listed(transferred, Success)), flags, fmt) else []) +
    (if flags.outputFailure then RelationshipReport(Failure, Some(Listed(transferred, Failure)), flags, fmt) else [])
  }

  /** run(numFiles) for more than one counted file, run() otherwise. */
  function RunCount(numFiles: nat): (r: nat)
    ensures r >= 1 && r >= numFiles
    ensures r == 1 || r == numFiles
  {
    if numFiles > 1 then numFiles else 1
  }

  /** The runner gets the engine and the script path, and the module paths
      exactly when they are given. */
  lemma ConfiguredPropertiesKeys(p: ParsedOptions)
    ensures var r := ConfiguredProperties(p);
            r.Keys == {SCRIPT_ENGINE, SCRIPT_FILE} + (if p.modulePaths != "" then {MODULES} else {}) &&
            r[SCRIPT_ENGINE] == EngineName(SelectEngine(p.scriptPath)) && r[SCRIPT_FILE] == p.scriptPath &&
            (p.modulePaths != "" ==> r[MODULES] == p.modulePaths)
  {
  }

  /** Base attributes come only from a named attribute file that was loaded. */
  lemma BaseAttributesFromNamedFile(p: ParsedOptions, env: Environment)
    ensures p.attrFile == "" ==> BaseAttributes(p, env) == map[]
    ensures p.attrFile != "" && env.attributeFile.AttributeFileLoaded? ==>
              BaseAttributes(p, env) == env.attributeFile.properties
    ensures BaseAttributes(p, env) != map[] ==>
              env.attributeFile.AttributeFileLoaded? && BaseAttributes(p, env) == env.attributeFile.properties
  {
  }

  /** Standard input queues at most one flow file, with the base attributes;
      a directory at most one per regular file; a bad directory nothing. */
  lemma IngestedBounds(p: ParsedOptions, env: Environment, base: map<string, string>)
    ensures var r := Ingested(p, env, base);
            p.inputFileDir == "" ==> |r| <= 1 && forall q :: q in r ==> q.attributes == base
    ensures var r := Ingested(p, env, base);
            p.inputFileDir != "" ==>
              if env.input.InputDirectory? then |r| <= CountRegular(env.input.visits) else r == []
  {
    if p.inputFileDir != "" && env.input.InputDirectory? {
      AdmittedAtMostRegular(env.input.visits, base);
    }
  }

  /** main prints nothing exactly when both relationship flags are off, and
      otherwise ends with the summary of the last relationship it reports. */
  lemma ReportsEndWithSummary(transferred: map<Relationship, seq<FlowFile>>, flags: Flags, fmt: Formatter)
    ensures Reports(transferred, flags, fmt) == [] <==> !flags.outputSuccess && !flags.outputFailure
    ensures var r := Reports(transferred, flags, fmt);
            flags.outputFailure ==> |r| > 0 && r[|r| - 1] == Summary(Failure, |Listed(transferred, Failure)|)
    ensures var r := Reports(transferred, flags, fmt);
            flags.outputSuccess && !flags.outputFailure ==>
              |r| > 0 && r[|r| - 1] == Summary(Success, |Listed(transferred, Success)|)
  {
    ReportEmptyIffNull(Success, Some(Listed(transferred, Success)), flags, fmt);
    ReportEmptyIffNull(Failure, Some(Listed(transferred, Failure)), flags, fmt);
  }

  /** However many flow files were counted, the passes take all of them off
      the queue: one pass per counted file, or the single pass of run(). */
  lemma CountedFilesAllProcessed(items: seq<Payload>, script: Script)
    ensures var after := RunPasses(RunnerState(AsFlowFiles(items, 0), map[], 0), RunCount(|items|), script);
            after.queue == [] && after.passes == RunCount(|items|) && after.passes >= 1
  {
    var start := RunnerState(AsFlowFiles(items, 0), map[], 0);
    RunPassesDrains(start, RunCount(|items|), script);
    RunPassesConsumesInOrder(start, RunCount(|items|), script);
  }

  /** Standard-input mode counts no file, so main makes the single pass of
      run(), and that pass takes the one queued flow file, if any. */
  lemma StdinModeSinglePass(p: ParsedOptions, env: Environment, base: map<string, string>, script: Script)
    requires p.inputFileDir == ""
    ensures var after := RunPasses(RunnerState(AsFlowFiles(Ingested(p, env, base), 0), map[], 0), RunCount(0), script);
            after.queue == [] && after.passes == 1
  {
    var start := RunnerState(AsFlowFiles(Ingested(p, env, base), 0), map[], 0);
    RunPassesDrains(start, 1, script);
    RunPassesConsumesInOrder(start, 1, script);
  }

  /** With a script that sends everything to success, the success list ends
      up holding exactly the queued flow files, in order, and failure none,
      so the success summary counts them all. */
  lemma AllToSuccessReportsEveryFile(items: seq<Payload>)
    ensures var after := RunPasses(RunnerState(AsFlowFiles(items, 0), map[], 0), RunCount(|items|), AllToSuccess);
            Listed(after.transferred, Success) == AsFlowFiles(items, 0) &&
            Listed(after.transferred, Failure) == []
  {
    var queue := AsFlowFiles(items, 0);
    var start := RunnerState(queue, map[], 0);
    if |items| > 1 {
      AllToSuccessMovesPrefix(start, |items|);
      assert queue[..|items|] == queue;
    } else {
      AllToSuccessMovesPrefix(start, |items|);
      assert queue[..|items|] == queue;
      var full := RunPasses(start, |items|, AllToSuccess);
      if |items| == 0 {
        assert RunPasses(start, 1, AllToSuccess) == Pass(start, AllToSuccess);
      } else {
        assert RunPasses(start, 1, AllToSuccess) == full;
      }
    }
  }

  /** The state main works on: the static runner and counter of queued
      files, and main's local attribute map, which the tree walk's visitor
      captures and updates. */
  class ScriptRunner {
    var runner: Runner?
    var numFiles: nat
    var incomingAttributes: map<string, string>

    constructor ()
      ensures runner == null && numFiles == 0 && incomingAttributes == map[]
    {
      runner := null;
      numFiles := 0;
      incomingAttributes := map[];
    }

    /** parseCommandLine: no options on a usage error (main then exits with
        code 1), otherwise the populated options with their flags resolved. */
    method ParseCommandLine(cli: CommandLine) returns (options: Options?)
      ensures cli.UsageError? <==> options == null
      ensures options != null ==>
                fresh(options) && options.Current() == cli.options.(flags := Resolved(cli.options.flags))
    {
      if cli.UsageError? {
        return null;
      }
      options := new Options(cli.options);
      options.Resolve();
    }

    /** The visitor's visitFile: a regular file sets "filename" in the shared
        attribute map, is read, queued with a copy of that map and counted.
        Reading can throw, which ends the walk. */
    method VisitFile(name: string, regular: bool, bytes: Option<seq<byte>>) returns (thrown: bool)
      requires runner != null
      modifies this`numFiles, this`incomingAttributes, runner`queue, runner`nextId
      ensures thrown == (regular && bytes.None?)
      ensures incomingAttributes == if regular then old(incomingAttributes)[FILENAME := name] else old(incomingAttributes)
      ensures if regular && bytes.Some? then
                runner.queue == old(runner.queue) + [FlowFile(old(runner.nextId), bytes.value, incomingAttributes)] &&
                runner.nextId == old(runner.nextId) + 1 && numFiles == old(numFiles) + 1
              else
                runner.queue == old(runner.queue) && runner.nextId == old(runner.nextId) && numFiles == old(numFiles)
    {
      thrown := false;
      if regular {
        incomingAttributes := incomingAttributes[FILENAME := name];
        if bytes.None? {
          return true;
        }
        runner.Enqueue(bytes.value, incomingAttributes);
        numFiles := numFiles + 1;
      }
    }

    /** Files.walkFileTree with that visitor: visits in order until one
        throws. Returns whether the walk ended with an exception. */
    method WalkFileTree(visits: seq<Visit>) returns (thrown: bool)
      requires runner != null
      modifies this`numFiles, this`incomingAttributes, runner`queue, runner`nextId
      ensures var admitted := Admitted(visits, old(incomingAttributes));
              runner.queue == old(runner.queue) + AsFlowFiles(admitted, old(runner.nextId)) &&
              runner.nextId == old(runner.nextId) + |admitted| &&
              numFiles == old(numFiles) + |admitted|
      ensures thrown <==> exists i :: 0 <= i < |visits| && Aborts(visits[i])
    {
      ghost var base := incomingAttributes;
      ghost var queue0, id0, count0 := runner.queue, runner.nextId, numFiles;
      ghost var admitted: seq<Payload> := [];
      thrown := false;
      var i := 0;
      while i < |visits| && !thrown
        decreases |visits| - i
        invariant 0 <= i <= |visits|
        invariant runner == old(runner)
        invariant runner.queue == queue0 + AsFlowFiles(admitted, id0)
        invariant runner.nextId == id0 + |admitted| && numFiles == count0 + |admitted|
        invariant incomingAttributes == base ||
                  (FILENAME in incomingAttributes && incomingAttributes == base[FILENAME := incomingAttributes[FILENAME]])
        invariant !thrown ==> admitted + Admitted(visits[i..], base) == Admitted(visits, base)
        invariant !thrown ==> forall j :: 0 <= j < i ==> !Aborts(visits[j])
        invariant thrown ==> admitted == Admitted(visits, base)
        invariant thrown ==> exists j :: 0 <= j < i && Aborts(visits[j])
      {
        var visit := visits[i];
        assert visits[i..][0] == visit && visits[i..][1..] == visits[i + 1..];
        match visit {
          case VisitFailed(_) =>
            thrown := true;
          case VisitFile(name, regular, bytes) =>
            thrown := VisitFile(name, regular, bytes);
            if regular && bytes.Some? {
              assert incomingAttributes == base[FILENAME := name];
              assert AsFlowFiles(admitted + [Payload(bytes.value, base[FILENAME := name])], id0) ==
                     AsFlowFiles(admitted, id0) + [FlowFile(id0 + |admitted|, bytes.value, base[FILENAME := name])] by {
                AsFlowFilesAppend(admitted, [Payload(bytes.value, base[FILENAME := name])], id0);
              }
              admitted := admitted + [Payload(bytes.value, base[FILENAME := name])];
            }
        }
        i := i + 1;
      }
      if !thrown {
        assert visits[i..] == [];
      }
    }

    /** Creating the runner once the script is known to exist and setting
        its properties: the engine, the script path and, when given, the
        module paths. */
    method ConfigureRunner(p: ParsedOptions)
      modifies this`runner
      ensures runner != null && fresh(runner)
      ensures runner.State() == RunnerState([], map[], 0) && runner.nextId == 0
      ensures runner.properties == ConfiguredProperties(p)
    {
      var scriptEngineName := EngineName(SelectEngine(p.scriptPath));
      runner := new Runner();
      runner.SetProperty(SCRIPT_ENGINE, scriptEngineName);
      runner.SetProperty(SCRIPT_FILE, p.scriptPath);
      if p.modulePaths != "" {
        runner.SetProperty(MODULES, p.modulePaths);
      }
    }

    /** The base attributes: none without an attribute file; with one, its
        properties, or exit code 5 when it is missing or cannot be read. */
    method LoadAttributes(p: ParsedOptions, env: Environment) returns (code: Option<int>)
      modifies this`incomingAttributes
      ensures code == (if p.attrFile != "" && !env.attributeFile.AttributeFileLoaded? then Some(5) else None)
      ensures code.None? ==> incomingAttributes == BaseAttributes(p, env)
    {
      incomingAttributes := map[];
      code := None;
      if p.attrFile != "" {
        match env.attributeFile {
          case AttributeFileMissing =>
            code := Some(5);
          case AttributeFileUnreadable =>
            code := Some(5);
          case AttributeFileLoaded(properties) =>
            incomingAttributes := properties;
        }
      }
    }

    /** Queueing the input: standard input when no input directory is named,
        otherwise the directory's files, after checking that it exists (exit
        code 3) and is a directory (exit code 4). */
    method QueueInput(p: ParsedOptions, env: Environment) returns (code: Option<int>)
      requires runner != null
      modifies this`numFiles, this`incomingAttributes, runner`queue, runner`nextId
      ensures code == (if p.inputFileDir == "" then None
                       else if env.input.InputMissing? then Some(3)
                       else if env.input.InputNotDirectory? then Some(4)
                       else None)
      ensures code.Some? ==> runner.queue == old(runner.queue) && numFiles == old(numFiles)
      ensures code.None? ==>
                var items := Ingested(p, env, old(incomingAttributes));
                runner.queue == old(runner.queue) + AsFlowFiles(items, old(runner.nextId)) &&
                numFiles == old(numFiles) + (if p.inputFileDir == "" then 0 else |items|)
    {
      code := None;
      if p.inputFileDir == "" {
        if env.stdinAvailable > 0 {
          runner.Enqueue(env.stdinData, incomingAttributes);
        }
      } else {
        match env.input
        case InputMissing =>
          code := Some(3);
        case InputNotDirectory =>
          code := Some(4);
        case InputDirectory(visits) =>
          var _ := WalkFileTree(visits);
      }
    }

    /** run(numFiles) when more than one file was counted, run() otherwise. */
    method RunProcessor(script: Script)
      requires runner != null
      modifies runner`queue, runner`transferred, runner`passes
      ensures runner.State() == RunPasses(old(runner.State()), RunCount(numFiles), script)
    {
      if numFiles > 1 {
        runner.Run(numFiles, script);
      } else {
        runner.Run(1, script);
      }
    }

    /** The output of main: the success report, then the failure report,
        each only when its flag is on. */
    method PrintReports(flags: Flags, fmt: Formatter) returns (stdout: seq<string>)
      requires runner != null
      ensures stdout == Reports(runner.transferred, flags, fmt)
    {
      stdout := [];
      if flags.outputSuccess {
        var lines := OutputFlowFilesForRelationship(Success, Some(runner.FlowFilesForRelationship(Success)), flags, fmt);
        stdout := stdout + lines;
      }
      if flags.outputFailure {
        var lines := OutputFlowFilesForRelationship(Failure, Some(runner.FlowFilesForRelationship(Failure)), flags, fmt);
        stdout := stdout + lines;
      }
    }

    /** ScriptRunner.main: one invocation of the program. */
    method Execute(cli: CommandLine, env: Environment, script: Script) returns (termination: Termination, stdout: seq<string>)
      modifies this
      ensures termination == (match ExitCode(cli, env) case Some(c) => Exited(c) case None => Finished)
      ensures termination.Exited? ==> stdout == []
      ensures termination == Exited(1) || termination == Exited(2) ==> runner == old(runner) && numFiles == old(numFiles)
      ensures termination.Exited? && termination.code in {3, 4, 5} ==>
                runner != null && fresh(runner) && runner.queue == [] && runner.passes == 0 && numFiles == old(numFiles)
      ensures termination == Finished ==>
                var p := cli.options;
                var flags := Resolved(p.flags);
                var items := Ingested(p, env, BaseAttributes(p, env));
                runner != null && fresh(runner) &&
                runner.properties == ConfiguredProperties(p) &&
                numFiles == old(numFiles) + (if p.inputFileDir == "" then 0 else |items|) &&
                runner.State() == RunPasses(RunnerState(AsFlowFiles(items, 0), map[], 0), RunCount(numFiles), script) &&
                stdout == Reports(runner.transferred, flags, env.formatter)
    {
      var options := ParseCommandLine(cli);
      if options == null {
        return Exited(1), [];
      }
      if !env.scriptExists {
        return Exited(2), [];
      }
      var p := options.Current();
      termination, stdout := ExecuteWithScript(cli, p, env, script);
    }

    /** The rest of main once the options are parsed and the script exists:
        configure the runner, load the attributes, queue the input, run and
        print. */
    method ExecuteWithScript(cli: CommandLine, p: ParsedOptions, env: Environment, script: Script)
      returns (termination: Termination, stdout: seq<string>)
      requires cli.Populated? && env.scriptExists
      requires p == cli.options.(flags := Resolved(cli.options.flags))
      modifies this
      ensures termination == (match ExitCode(cli, env) case Some(c) => Exited(c) case None => Finished)
      ensures termination.Exited? ==> stdout == []
      ensures termination.Exited? ==>
                runner != null && fresh(runner) && runner.queue == [] && runner.passes == 0 && numFiles == old(numFiles)
      ensures termination == Finished ==>
                var items := Ingested(p, env, BaseAttributes(p, env));
                runner != null && fresh(runner) &&
                runner.properties == ConfiguredProperties(p) &&
                numFiles == old(numFiles) + (if p.inputFileDir == "" then 0 else |items|) &&
                runner.State() == RunPasses(RunnerState(AsFlowFiles(items, 0), map[], 0), RunCount(numFiles), script) &&
                stdout == Reports(runner.transferred, p.flags, env.formatter)
    {
      ConfigureRunner(p);
      var code := LoadAttributes(p, env);
      if code.Some? {
        return Exited(code.value), [];
      }
      code := QueueInput(p, env);
      if code.Some? {
        return Exited(code.value), [];
      }
      ghost var items := Ingested(p, env, BaseAttributes(p, env));
      ghost var start := RunnerState(AsFlowFiles(items, 0), map[], 0);
      assert runner.State() == start;
      assert runner.properties == ConfiguredProperties(p);
      assert numFiles == old(numFiles) + (if p.inputFileDir == "" then 0 else |items|);
      RunProcessor(script);
      stdout := PrintReports(p.flags, env.formatter);
      termination := Finished;
    }
  }
}
