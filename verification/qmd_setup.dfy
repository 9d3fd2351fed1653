/** The `QmdSetup` controller: one named qmd collection kept in sync with a
    context directory by running the external `qmd` executable.

    Nothing here runs a process. Every external call is an input: whether
    `qmd` is on PATH, what each `subprocess.run` produced, and how
    `json.loads` decodes a text. The controller's own logic, which calls it
    makes in which order and what it concludes from each, is modelled exactly. */
module QmdSetup {
  import opened Base
  import opened Json
  import opened Text

  /** Name used when no collection name (or an empty one) is given. */
  const DefaultCollection: string := "context"

  /** Glob handed to `qmd init`: every markdown file below the directory. */
  const Pattern: string := "**/*.md"

  /** What one `subprocess.run` call came back with: the process exited
      (any exit code, with its captured stdout), the timeout expired, or
      the call raised some other exception (executable missing, decoding
      error, ...). */
  datatype Outcome =
    | Exited(code: int, stdout: string)
    | TimedOut
    | Raised

  /** The external calls setup can make: the PATH lookup and the five qmd
      sub-commands. */
  datatype Call = Which | List | Init | Update | Embed | Status

  /** A constructed controller: the resolved directory and the collection. */
  datatype Config = Config(contextDir: string, collection: string)

  /** The ValueError raised by construction. */
  datatype ConfigError = ContextDirNotFound(path: string)

  /** Everything the controller learns from outside the process during one
      invocation. Each subprocess call is attempted at most once, so one
      outcome per call suffices. */
  datatype World = World(
    qmdOnPath: bool,                    // shutil.which('qmd') is not None
    list: Outcome,                      // qmd list
    init: Outcome,                      // qmd init --collection .. --source .. --pattern ..
    update: Outcome,                    // qmd update --collection ..
    embed: Outcome,                     // qmd embed --collection ..
    status: Outcome,                    // qmd status --collection .. --json
    decode: string -> Option<Json>      // json.loads; None where it raises
  )

  /** How `setup` ended: it returned a boolean, or an exception escaped. */
  datatype Completion = Returned(success: bool) | Crashed

  /** The calls one `setup` made, in order, and how it ended. */
  datatype Run = Run(trace: seq<Call>, completion: Completion)

  /** The longest sequence of calls: the create path followed to the end. */
  const CreatePath: seq<Call> := [Which, List, Init, Update, Embed, Status]

  /** The sequence of calls when an existing collection is refreshed. */
  const RefreshPath: seq<Call> := [Which, List, Update, Embed]

  /** The tool's notion of success: the process exited with status zero. */
  predicate ExitedZero(o: Outcome) {
    o.Exited? && o.code == 0
  }

  /** Python's `if status:` on what `get_status` returned. */
  predicate StatusTruthy(status: Option<Json>) {
    status.Some? && Truthy(status.value)
  }

  /** Printing a truthy status calls `status.get(...)`, which raises on any
      decoded value that is not a dict. */
  predicate ReportCrashes(status: Option<Json>) {
    StatusTruthy(status) && !HasGet(status.value)
  }

  // ---------------------------------------------------------------------
  // Construction

  /** `QmdSetup(context_dir, collection)`. `resolved` is what
      `Path(context_dir).resolve()` gives and `dirExists` whether that path
      exists; both come from the filesystem. */
  function New(contextDir: string, resolved: string, dirExists: bool,
               collection: Option<string>): (r: Result<Config, ConfigError>)
    ensures r.Success? <==> dirExists
    ensures r.Failure? ==> r.error == ContextDirNotFound(contextDir)
    ensures r.Success? ==> r.value.contextDir == resolved
    ensures r.Success? ==> |r.value.collection| > 0
    ensures r.Success? && collection.Some? && |collection.value| > 0
            ==> r.value.collection == collection.value
    ensures r.Success? && (collection.None? || collection.value == "")
            ==> r.value.collection == DefaultCollection
  {
    var name := if collection.Some? && collection.value != "" then collection.value
                else DefaultCollection;
    if dirExists then Success(Config(resolved, name))
    else Failure(ContextDirNotFound(contextDir))
  }

  // ---------------------------------------------------------------------
  // Commands and the per-step policy

  /** Command line and timeout in seconds of one subprocess call. */
  datatype Invocation = Invocation(argv: seq<string>, timeout: nat)

  /** The qmd sub-command each subprocess call names. */
  function Verb(c: Call): string
    requires c != Which
  {
    match c
    case List => "list"
    case Init => "init"
    case Update => "update"
    case Embed => "embed"
    case Status => "status"
  }

  /** The subprocess a call runs; the PATH lookup runs none. */
  function Command(c: Call, cfg: Config): (r: Option<Invocation>)
    ensures r.None? <==> c == Which
    ensures r.Some? ==> |r.value.argv| >= 2 && r.value.argv[0] == "qmd" && r.value.timeout > 0
    ensures r.Some? ==> r.value.argv[1] == Verb(c)
    ensures c == List ==> r.Some? && |r.value.argv| == 2
    ensures c == Update || c == Embed ==> r.Some? && |r.value.argv| == 4
    ensures c == Status ==> r.Some? && |r.value.argv| == 5 && r.value.argv[4] == "--json"
    ensures r.Some? && c != List
            ==> |r.value.argv| >= 4 && r.value.argv[2..4] == ["--collection", cfg.collection]
    ensures r.Some? ==> (|r.value.argv| >= 6 && r.value.argv[4] == "--source" <==> c == Init)
    ensures c == Init ==> r.Some? && |r.value.argv| == 8
                          && r.value.argv[5..] == [cfg.contextDir, "--pattern", Pattern]
  {
    match c
    case Which => None
    case List => Some(Invocation(["qmd", "list"], 10))
    case Init => Some(Invocation(["qmd", "init", "--collection", cfg.collection,
                                  "--source", cfg.contextDir, "--pattern", Pattern], 30))
    case Update => Some(Invocation(["qmd", "update", "--collection", cfg.collection], 60))
    case Embed => Some(Invocation(["qmd", "embed", "--collection", cfg.collection], 300))
    case Status => Some(Invocation(["qmd", "status", "--collection", cfg.collection, "--json"], 10))
  }

  /** Whether a failure of the step ends setup with failure. */
  predicate FatalOnFailure(c: Call) {
    c == Init || c == Embed
  }

  // ---------------------------------------------------------------------
  // The step wrappers

  /** `collection_exists`: the name occurs somewhere in `qmd list`'s stdout.
      The exit code is not looked at; a timeout or exception means "no". */
  function CollectionExists(cfg: Config, o: Outcome): (r: bool)
    ensures r <==> o.Exited? && IsSubstring(cfg.collection, o.stdout)
  {
    match o
    case Exited(_, stdout) => Contains(cfg.collection, stdout)
    case TimedOut => false
    case Raised => false
  }

  /** `create_collection`: only exit status zero counts as created. */
  function CreateCollection(o: Outcome): (r: bool)
    ensures r <==> ExitedZero(o)
  {
    match o
    case Exited(code, _) => code == 0
    case TimedOut => false
    case Raised => false
  }

  /** `update_collection`: a failed update only prints a warning, so every
      outcome reports success. */
  function UpdateCollection(o: Outcome): (r: bool)
    ensures r
  {
    match o
    // a non-zero exit only prints a warning
    case Exited(_, _) => true
    case TimedOut => true
    case Raised => true
  }

  /** `embed_documents`: only exit status zero counts as embedded. */
  function EmbedDocuments(o: Outcome): (r: bool)
    ensures r <==> ExitedZero(o)
  {
    match o
    case Exited(code, _) => code == 0
    case TimedOut => false
    case Raised => false
  }

  /** `get_status`: the decoded stdout when `qmd status` exited with zero
      and the stdout decodes; `None` otherwise. It never raises. */
  function GetStatus(o: Outcome, decode: string -> Option<Json>): (r: Option<Json>)
    ensures r.Some? <==> ExitedZero(o) && decode(o.stdout).Some?
    ensures r.Some? ==> r == decode(o.stdout)
  {
    match o
    case Exited(code, stdout) => if code == 0 then decode(stdout) else None
    case TimedOut => None
    case Raised => None
  }

  /** The boolean a wrapper returns for the step `c`. */
  function StepReturns(c: Call, cfg: Config, w: World): bool {
    match c
    case Which => w.qmdOnPath
    case List => CollectionExists(cfg, w.list)
    case Init => CreateCollection(w.init)
    case Update => UpdateCollection(w.update)
    case Embed => EmbedDocuments(w.embed)
    case Status => StatusTruthy(GetStatus(w.status, w.decode))
  }

  /** The three mutating wrappers agree with the per-step policy: a step
      reports success exactly when the tool exited with zero or the step is
      not fatal on failure. */
  lemma WrappersFollowPolicy(c: Call, cfg: Config, w: World)
    requires c == Init || c == Update || c == Embed
    ensures StepReturns(c, cfg, w)
            <==> ExitedZero(if c == Init then w.init else if c == Update then w.update else w.embed)
                 || !FatalOnFailure(c)
  {
  }

  // ---------------------------------------------------------------------
  // setup

  /** `setup(force)`, modelled as written. */
  function Setup(cfg: Config, w: World, force: bool): (run: Run)
    // calls are made in the fixed order, each at most once
    ensures |run.trace| > 0
    ensures run.trace <= CreatePath || run.trace == RefreshPath
    // the PATH lookup gates everything else
    ensures run.trace == [Which] <==> !w.qmdOnPath
    // creation happens exactly when forced or the collection looks absent
    ensures Init in run.trace <==> w.qmdOnPath && (force || !CollectionExists(cfg, w.list))
    // a failure is reported right at a hard failure: nothing runs after it
    ensures run.completion == Returned(false) ==>
              (run.trace == [Which] && !w.qmdOnPath)
              || (run.trace == CreatePath[..3] && !CreateCollection(w.init))
              || (run.trace == CreatePath[..5] && !EmbedDocuments(w.embed))
    // status is only fetched after creation and embedding succeeded
    ensures Status in run.trace ==> CreateCollection(w.init) && EmbedDocuments(w.embed)
    // the only escaping exception is the status report's `.get`
    ensures run.completion == Crashed
            <==> run.trace == CreatePath && ReportCrashes(GetStatus(w.status, w.decode))
  {
    if !w.qmdOnPath then
      Run([Which], Returned(false))
    else if CollectionExists(cfg, w.list) && !force then
      // update and embed run, but their results are discarded on this path
      Run(RefreshPath, Returned(true))
    else if !CreateCollection(w.init) then
      Run([Which, List, Init], Returned(false))
    else if !UpdateCollection(w.update) then
      Run([Which, List, Init, Update], Returned(false))
    else if !EmbedDocuments(w.embed) then
      Run([Which, List, Init, Update, Embed], Returned(false))
    else
      var status := GetStatus(w.status, w.decode);
      Run(CreatePath, if ReportCrashes(status) then Crashed else Returned(true))
  }

  /** Without `qmd` on PATH setup fails after the lookup alone. */
  lemma ToolMissingFailsAtOnce(cfg: Config, w: World, force: bool)
    requires !w.qmdOnPath
    ensures Setup(cfg, w, force) == Run([Which], Returned(false))
  {
  }

  /** An existing collection without `force` is refreshed: list, update,
      embed, never init, and setup succeeds whatever update and embed did. */
  lemma RefreshPathNeverCreates(cfg: Config, w: World, force: bool)
    requires w.qmdOnPath && CollectionExists(cfg, w.list) && !force
    ensures Setup(cfg, w, force).trace == [Which, List, Update, Embed]
    ensures Init !in Setup(cfg, w, force).trace
    ensures Setup(cfg, w, force).completion == Returned(true)
  {
  }

  /** On the refresh path the embed outcome is ignored. */
  lemma RefreshIgnoresEmbedOutcome(cfg: Config, w: World, o: Outcome)
    requires w.qmdOnPath && CollectionExists(cfg, w.list)
    ensures Setup(cfg, w.(embed := o), false) == Setup(cfg, w, false)
  {
  }

  /** With `force`, or with the collection absent, init directly follows the
      list check; if it fails, setup fails and nothing else runs. */
  lemma CreatePathStartsWithInit(cfg: Config, w: World, force: bool)
    requires w.qmdOnPath && (force || !CollectionExists(cfg, w.list))
    ensures Setup(cfg, w, force).trace[..3] == [Which, List, Init]
    ensures !CreateCollection(w.init) ==> Setup(cfg, w, force) == Run([Which, List, Init], Returned(false))
  {
  }

  /** The update outcome never changes anything setup does or returns. */
  lemma UpdateOutcomeIrrelevant(cfg: Config, w: World, force: bool, o: Outcome)
    ensures Setup(cfg, w.(update := o), force) == Setup(cfg, w, force)
  {
  }

  /** Whatever `qmd status` does and however its output decodes, setup makes
      the same calls, and it returns false exactly when it did before: status
      never makes setup return false. A truthy status that is not a dict can
      still make it crash; apart from that the result is unchanged. */
  lemma StatusOutcomeBestEffort(cfg: Config, w: World, force: bool, o: Outcome,
                                d: string -> Option<Json>)
    ensures Setup(cfg, w.(status := o, decode := d), force).trace == Setup(cfg, w, force).trace
    ensures Setup(cfg, w.(status := o, decode := d), force).completion == Returned(false)
            <==> Setup(cfg, w, force).completion == Returned(false)
    ensures !ReportCrashes(GetStatus(o, d)) && !ReportCrashes(GetStatus(w.status, w.decode))
            ==> Setup(cfg, w.(status := o, decode := d), force) == Setup(cfg, w, force)
  {
  }

  /** A constructed controller never finds its collection in an empty
      listing: the default name keeps the substring test from matching
      everything, as it would for the empty name. */
  lemma ConstructedNameNotInEmptyListing(contextDir: string, resolved: string,
                                         collection: Option<string>, code: int)
    ensures New(contextDir, resolved, true, collection).Success?
    ensures !CollectionExists(New(contextDir, resolved, true, collection).value, Exited(code, ""))
  {
  }

  /** The `if not self.update_collection(): return False` check is dead: no
      run ever stops at the update. */
  lemma NoRunEndsAtUpdate(cfg: Config, w: World, force: bool)
    ensures Setup(cfg, w, force).trace[|Setup(cfg, w, force).trace| - 1] != Update
  {
  }

  /** On the create path a failed embed fails setup before status is asked. */
  lemma CreatePathEmbedFailureIsFatal(cfg: Config, w: World, force: bool)
    requires w.qmdOnPath && (force || !CollectionExists(cfg, w.list))
    requires CreateCollection(w.init) && !EmbedDocuments(w.embed)
    ensures Setup(cfg, w, force) == Run([Which, List, Init, Update, Embed], Returned(false))
  {
  }

  /** On the create path, once init and embed succeed, status is asked exactly
      once, last, and setup returns true unless the status report raises. */
  lemma CreatePathSucceeds(cfg: Config, w: World, force: bool)
    requires w.qmdOnPath && (force || !CollectionExists(cfg, w.list))
    requires CreateCollection(w.init) && EmbedDocuments(w.embed)
    ensures Setup(cfg, w, force).trace == CreatePath
    ensures !ReportCrashes(GetStatus(w.status, w.decode))
            ==> Setup(cfg, w, force).completion == Returned(true)
  {
  }

  // ---------------------------------------------------------------------
  // The status report, and a variant guarded by a dict check

  /** As written, a status that decodes to a truthy non-dict (a non-empty
      list, `true`, a non-zero number, a non-empty string) makes the
      report's `status.get` raise after the collection was created and
      embedded. */
  lemma TruthyNonObjectStatusCrashesSetup(cfg: Config, w: World, force: bool, v: Json)
    requires w.qmdOnPath && (force || !CollectionExists(cfg, w.list))
    requires CreateCollection(w.init) && EmbedDocuments(w.embed)
    requires ExitedZero(w.status) && w.decode(w.status.stdout) == Some(v)
    requires || (v.JArray? && |v.items| > 0)
             || v == JBool(true)
             || (v.JNumber? && v.n != 0.0)
             || (v.JString? && |v.s| > 0)
    ensures Setup(cfg, w, force).completion == Crashed
  {
  }

  /** `setup` with the status report guarded by a dict check, so that status
      reporting is best-effort as intended. */
  function SetupGuarded(cfg: Config, w: World, force: bool): (run: Run)
    ensures run.completion != Crashed
    ensures run.trace == Setup(cfg, w, force).trace
    ensures Setup(cfg, w, force).completion != Crashed ==> run == Setup(cfg, w, force)
    ensures Status in run.trace ==> run.completion == Returned(true)
  {
    if !w.qmdOnPath then
      Run([Which], Returned(false))
    else if CollectionExists(cfg, w.list) && !force then
      Run(RefreshPath, Returned(true))
    else if !CreateCollection(w.init) then
      Run([Which, List, Init], Returned(false))
    else if !UpdateCollection(w.update) then
      Run([Which, List, Init, Update], Returned(false))
    else if !EmbedDocuments(w.embed) then
      Run([Which, List, Init, Update, Embed], Returned(false))
    else
      Run(CreatePath, Returned(true))
  }

  /** With the guard, init and embed succeeding is all setup needs on the
      create path, whatever `get_status` yields. */
  lemma GuardedCreatePathSucceeds(cfg: Config, w: World, force: bool)
    requires w.qmdOnPath && (force || !CollectionExists(cfg, w.list))
    requires CreateCollection(w.init) && EmbedDocuments(w.embed)
    ensures SetupGuarded(cfg, w, force) == Run(CreatePath, Returned(true))
  {
  }
}
