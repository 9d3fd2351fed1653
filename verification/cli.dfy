/** The command-line entry point `main`: construction, the `--status` branch
    and the mapping of every ending to a process exit code. */
module Cli {
  import opened Base
  import opened Json
  import opened QmdSetup

  /** Parsed command line. argparse defaults `--collection` to "context". */
  datatype Args = Args(contextDir: string, collection: string, force: bool, statusOnly: bool)

  /** The calls made and the process exit code. */
  datatype Exit = Exit(trace: seq<Call>, code: int)

  /** The `--status` branch: lookup, list check, then status; it never
      creates, updates or embeds. */
  function StatusOnly(cfg: Config, w: World): (e: Exit)
    ensures e.code == 0 || e.code == 1
    ensures e.code == 0
            <==> w.qmdOnPath && CollectionExists(cfg, w.list)
                 && StatusTruthy(GetStatus(w.status, w.decode))
    ensures |e.trace| > 0 && e.trace <= [Which, List, Status]
    ensures e.trace == [Which] <==> !w.qmdOnPath
    ensures Status in e.trace <==> w.qmdOnPath && CollectionExists(cfg, w.list)
  {
    if !w.qmdOnPath then Exit([Which], 1)
    else if !CollectionExists(cfg, w.list) then Exit([Which, List], 1)
    else if StatusTruthy(GetStatus(w.status, w.decode)) then Exit([Which, List, Status], 0)
    else Exit([Which, List, Status], 1)
  }

  /** `main()`. `resolved` and `dirExists` come from the filesystem, `w` from
      the external tool. A ValueError from construction and any other
      exception escaping setup both exit with 1. */
  function Main(args: Args, resolved: string, dirExists: bool, w: World): (e: Exit)
    ensures e.code == 0 || e.code == 1
    ensures !dirExists ==> e == Exit([], 1)
    ensures dirExists && !args.statusOnly ==>
              var cfg := New(args.contextDir, resolved, dirExists, Some(args.collection)).value;
              && e.trace == Setup(cfg, w, args.force).trace
              && (e.code == 0 <==> Setup(cfg, w, args.force).completion == Returned(true))
    ensures dirExists && args.statusOnly ==>
              e == StatusOnly(New(args.contextDir, resolved, dirExists, Some(args.collection)).value, w)
    ensures args.statusOnly ==> Init !in e.trace && Update !in e.trace && Embed !in e.trace
  {
    match New(args.contextDir, resolved, dirExists, Some(args.collection))
    case Failure(_) => Exit([], 1)
    case Success(cfg) =>
      if args.statusOnly then StatusOnly(cfg, w)
      else
        var run := Setup(cfg, w, args.force);
        Exit(run.trace, if run.completion == Returned(true) then 0 else 1)
  }

  /** A missing directory exits with 1 before any external call, in both modes. */
  lemma MissingDirExitsBeforeAnyCall(args: Args, resolved: string, w: World)
    ensures Main(args, resolved, false, w).trace == []
    ensures Main(args, resolved, false, w).code == 1
  {
  }

  /** In status mode an unavailable tool, a collection not listed, or a falsy
      status each exit with 1. */
  lemma StatusModeFailures(args: Args, resolved: string, w: World)
    requires args.statusOnly
    ensures !w.qmdOnPath ==> Main(args, resolved, true, w) == Exit([Which], 1)
    ensures (w.qmdOnPath
             && !CollectionExists(New(args.contextDir, resolved, true, Some(args.collection)).value,
                                  w.list))
            ==> Main(args, resolved, true, w) == Exit([Which, List], 1)
    ensures !StatusTruthy(GetStatus(w.status, w.decode)) ==> Main(args, resolved, true, w).code == 1
  {
  }

  /** Both modes gate on the PATH lookup: without qmd, main exits with 1
      after the lookup alone. */
  lemma ToolMissingExitsOne(args: Args, resolved: string, w: World)
    requires !w.qmdOnPath
    ensures Main(args, resolved, true, w) == Exit([Which], 1)
  {
  }

  /** Status mode and setup take the same decisions from the same answers:
      both stop after the lookup exactly when qmd is missing, and status
      mode asks for status exactly when setup without force would refresh. */
  lemma StatusModeAgreesWithSetup(cfg: Config, w: World, force: bool)
    ensures StatusOnly(cfg, w).trace == [Which] <==> Setup(cfg, w, force).trace == [Which]
    ensures Status in StatusOnly(cfg, w).trace <==> Setup(cfg, w, false).trace == RefreshPath
  {
  }

  /** A status report that raises inside setup still ends with exit code 1. */
  lemma CrashedSetupExitsOne(args: Args, resolved: string, w: World)
    requires !args.statusOnly
    requires Setup(New(args.contextDir, resolved, true, Some(args.collection)).value,
                   w, args.force).completion == Crashed
    ensures Main(args, resolved, true, w).code == 1
    ensures Main(args, resolved, true, w).trace == CreatePath
  {
  }
}
