/** The invocation boundary both scripts share: the argument vector handed to
    the external `node` process, the conversion `subprocess` applies to it, the
    outside world as parameters, and the common run / scan / load / normalise
    pipeline that ends in a success record or a uniform failure record. */
module Invocation {
  import opened Results
  import opened PyJson
  import Paths
  import Correlation

  /** What a command line asks of the external tool: the script it runs, the
      video, the output format, and whether enhancement is requested. */
  datatype Request = Request(entry: string, videoPath: string, format: string, enhance: bool)

  const EnhanceFlag := "--enhance"

  /** `['node', entry, 'transcribe', video, '--format', format]`, then `'--enhance'`
      when enhancement is requested. */
  function Argv(req: Request): (argv: seq<string>)
    ensures |argv| == 6 || |argv| == 7
    ensures |argv| == 7 <==> req.enhance
    ensures req.enhance ==> argv[6] == EnhanceFlag
  {
    ["node", req.entry, "transcribe", req.videoPath, "--format", req.format]
      + (if req.enhance then [EnhanceFlag] else [])
  }

  /** How a command line of this shape is read back into a request. */
  function ParseArgv(argv: seq<string>): Option<Request> {
    if && (|argv| == 6 || (|argv| == 7 && argv[6] == EnhanceFlag))
       && argv[0] == "node" && argv[2] == "transcribe" && argv[4] == "--format"
    then Some(Request(argv[1], argv[3], argv[5], |argv| == 7))
    else None
  }

  /** Every request is recovered from the command line built for it. */
  lemma ArgvRoundTrip(req: Request)
    ensures ParseArgv(Argv(req)) == Some(req)
  {
  }

  /** A command line that reads back as a request is exactly the one built for it. */
  lemma ParseArgvSound(argv: seq<string>)
    ensures ParseArgv(argv).Some? ==> Argv(ParseArgv(argv).value) == argv
  {
  }

  /** Position `i` holds the first argument that is not a string. */
  ghost predicate FirstNonString(argv: seq<Json>, i: int) {
    && 0 <= i < |argv|
    && !argv[i].JStr?
    && forall j :: 0 <= j < i ==> argv[j].JStr?
  }

  lemma FirstNonStringOfTail(argv: seq<Json>, f: Fault)
    requires |argv| > 0 && argv[0].JStr?
    requires exists i :: FirstNonString(argv[1..], i) && f == NotPathLike(TypeName(argv[1..][i]))
    ensures exists i :: FirstNonString(argv, i) && f == NotPathLike(TypeName(argv[i]))
  {
  }

  /** `subprocess.run` converts each argument in order and raises a TypeError
      on the first one that is not a string. */
  function ArgvStrings(argv: seq<Json>): (r: Result<seq<string>, Fault>)
    ensures r.Success? <==> forall i :: 0 <= i < |argv| ==> argv[i].JStr?
    ensures r.Success? ==> |r.value| == |argv| && forall i :: 0 <= i < |argv| ==> argv[i] == JStr(r.value[i])
    ensures r.Failure? ==> exists i :: FirstNonString(argv, i) && r.error == NotPathLike(TypeName(argv[i]))
    decreases |argv|
  {
    if |argv| == 0 then Success([])
    else if !argv[0].JStr? then
      assert FirstNonString(argv, 0);
      Failure(NotPathLike(TypeName(argv[0])))
    else
      match ArgvStrings(argv[1..])
      case Failure(f) =>
        FirstNonStringOfTail(argv, f);
        Failure(f)
      case Success(rest) =>
        Success([argv[0].s] + rest)
  }

  /** What `subprocess.run` reports once the process has exited. */
  datatype Completed = Completed(returncode: int, stderr: string)

  /** The outside world: running a command in a working directory, listing a
      directory with each entry's creation time, and opening and decoding a
      JSON file. Each yields `str(e)` of the exception it raises on failure. */
  datatype Env = Env(
    run: (seq<string>, string) -> Result<Completed, string>,
    listDir: string -> Result<seq<Correlation.Entry>, string>,
    load: string -> Result<Json, string>)

  /** The `error` of a failure record: a plain message or an exception's text. */
  datatype ErrorText = Text(text: string) | Exception(fault: Fault) {
    function Render(): string {
      match this
      case Text(t) => t
      case Exception(f) => Message(f)
    }
  }

  /** What the scripts return: the input-validation rejection (the CrewAI tool
      only), a success record, or a failure record. */
  datatype Reply<R> = InputRejected | Transcribed(record: R) | Failed(error: ErrorText)

  const OutputDirName := "output"
  const FallbackError := "Transcription failed"

  function OutputDir(agentPath: string): string {
    Paths.Join(agentPath, OutputDirName)
  }

  /** `result.stderr or 'Transcription failed'`: the error text of a run that
      produced no record, never empty. */
  function FailureText(stderr: string): (r: string)
    ensures r != ""
    ensures stderr != "" ==> r == stderr
    ensures stderr == "" ==> r == FallbackError
  {
    if stderr != "" then stderr else FallbackError
  }

  /** `doc` is the decoded content of the artifact the selection rule picks in
      the listing of `dir`. */
  ghost predicate Produced(env: Env, dir: string, doc: Json) {
    && env.listDir(dir).Success?
    && exists i :: Correlation.NewestListed(env.listDir(dir).value, i)
                   && env.load(Paths.Join(dir, env.listDir(dir).value[i].name)) == Success(doc)
  }

  /** Run `cmd` in `agentPath`; on exit status 0 locate and decode the newest
      artifact and normalise it; every other outcome, and every exception on the
      way, becomes a failure record. */
  function Invoke<R(==)>(cmd: seq<string>, agentPath: string, env: Env,
                         normalise: Json -> Result<R, Fault>): (r: Reply<R>)
    ensures !r.InputRejected?
    ensures env.run(cmd, agentPath).Failure? ==>
      r == Failed(Exception(Raised(env.run(cmd, agentPath).error)))
    ensures env.run(cmd, agentPath).Success? && env.run(cmd, agentPath).value.returncode != 0 ==>
      r == Failed(Text(FailureText(env.run(cmd, agentPath).value.stderr)))
    ensures env.run(cmd, agentPath).Success? && env.run(cmd, agentPath).value.returncode == 0
            && env.listDir(OutputDir(agentPath)).Success?
            && !Correlation.HasArtifact(env.listDir(OutputDir(agentPath)).value) ==>
      r == Failed(Text(FailureText(env.run(cmd, agentPath).value.stderr)))
    ensures r.Failed? && r.error.Text? ==>
      env.run(cmd, agentPath).Success? && r.error.text == FailureText(env.run(cmd, agentPath).value.stderr)
    ensures r.Transcribed? ==>
      && env.run(cmd, agentPath).Success? && env.run(cmd, agentPath).value.returncode == 0
      && exists doc :: Produced(env, OutputDir(agentPath), doc) && normalise(doc) == Success(r.record)
    ensures var run := env.run(cmd, agentPath);
            var dir := OutputDir(agentPath);
            run.Success? && run.value.returncode == 0 && env.listDir(dir).Failure? ==>
              r == Failed(Exception(Raised(env.listDir(dir).error)))
    ensures var run := env.run(cmd, agentPath);
            var dir := OutputDir(agentPath);
            run.Success? && run.value.returncode == 0 && env.listDir(dir).Success? ==>
              forall i :: Correlation.NewestListed(env.listDir(dir).value, i) ==>
                r == match env.load(Paths.Join(dir, env.listDir(dir).value[i].name))
                     case Failure(m) => Failed(Exception(Raised(m)))
                     case Success(doc) =>
                       match normalise(doc)
                       case Success(record) => Transcribed(record)
                       case Failure(f) => Failed(Exception(f))
  {
    match env.run(cmd, agentPath)
    case Failure(m) => Failed(Exception(Raised(m)))
    case Success(completed) =>
      var failure := Failed(Text(FailureText(completed.stderr)));
      if completed.returncode != 0 then failure
      else
        var dir := OutputDir(agentPath);
        match Correlation.Locate(env.listDir, env.load, dir)
        case Failure(f) => Failed(Exception(f))
        case Success(None) => failure
        case Success(Some(doc)) =>
          var entries := env.listDir(dir).value;
          Correlation.SelectLatestIsNewestListed(entries);
          assert Produced(env, dir, doc);
          match normalise(doc)
          case Success(record) => Transcribed(record)
          case Failure(f) => Failed(Exception(f))
  }
}
