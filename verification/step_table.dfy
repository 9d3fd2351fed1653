/** A table-driven reading of `setup`: after the PATH lookup and the list
    check, setup follows one of two fixed plans, and each planned step either
    proceeds, aborts setup with failure, or lets an exception escape. This is
    an independent definition; `SetupFollowsTable` shows that the nested
    conditionals of `QmdSetup.Setup` compute the same run. */
module StepTable {
  import opened QmdSetup

  /** A planned call, and whether setup acts on the wrapper's return value
      (`if not self.step(): return False`) or discards it. */
  datatype Step = Step(call: Call, checked: bool)

  /** What a step does to the rest of the plan. */
  datatype Verdict = Proceed | Abort | Crash

  /** Existing collection, no `force`: update and embed, results discarded. */
  const RefreshPlan: seq<Step> := [Step(Update, false), Step(Embed, false)]

  /** Otherwise: init, update and embed, each checked, then the status
      report, whose result only decides what is printed. */
  const CreatePlan: seq<Step> :=
    [Step(Init, true), Step(Update, true), Step(Embed, true), Step(Status, false)]

  /** The calls a plan would make if every step proceeded. */
  function Calls(plan: seq<Step>): (cs: seq<Call>)
    ensures |cs| == |plan|
    ensures forall i :: 0 <= i < |plan| ==> cs[i] == plan[i].call
  {
    if plan == [] then [] else [plan[0].call] + Calls(plan[1..])
  }

  /** The verdict of one step in the given world. */
  function VerdictOf(s: Step, cfg: Config, w: World): Verdict {
    if s.call == Status && ReportCrashes(GetStatus(w.status, w.decode)) then Crash
    else if s.checked && !StepReturns(s.call, cfg, w) then Abort
    else Proceed
  }

  /** Runs a plan: every step up to and including the first one that does
      not proceed. */
  function Drive(plan: seq<Step>, cfg: Config, w: World): (run: Run)
    ensures run.trace <= Calls(plan)
    ensures run.completion == Returned(true)
            <==> forall i :: 0 <= i < |plan| ==> VerdictOf(plan[i], cfg, w) == Proceed
    ensures run.completion == Returned(true) ==> run.trace == Calls(plan)
    ensures run.completion != Returned(true) ==>
              && 0 < |run.trace|
              && VerdictOf(plan[|run.trace| - 1], cfg, w)
                 == (if run.completion == Crashed then Crash else Abort)
              && forall i :: 0 <= i < |run.trace| - 1 ==> VerdictOf(plan[i], cfg, w) == Proceed
    decreases |plan|
  {
    if plan == [] then Run([], Returned(true))
    else
      match VerdictOf(plan[0], cfg, w)
      case Abort => Run([plan[0].call], Returned(false))
      case Crash => Run([plan[0].call], Crashed)
      case Proceed =>
        var rest := Drive(plan[1..], cfg, w);
        assert Calls(plan) == [plan[0].call] + Calls(plan[1..]);
        assert forall i :: 1 <= i < |plan| ==> plan[1..][i - 1] == plan[i];
        Run([plan[0].call] + rest.trace, rest.completion)
  }

  /** `setup` read off the table. */
  function SetupByTable(cfg: Config, w: World, force: bool): Run {
    if !w.qmdOnPath then Run([Which], Returned(false))
    else
      var plan := if CollectionExists(cfg, w.list) && !force then RefreshPlan else CreatePlan;
      var rest := Drive(plan, cfg, w);
      Run([Which, List] + rest.trace, rest.completion)
  }

  /** The refresh plan always runs to its end and succeeds. */
  lemma {:induction false} RefreshPlanAlwaysProceeds(cfg: Config, w: World)
    ensures Drive(RefreshPlan, cfg, w) == Run([Update, Embed], Returned(true))
  {
    assert RefreshPlan[1..] == [Step(Embed, false)];
    assert RefreshPlan[1..][1..] == [];
  }

  /** The create plan stops at a failed init or a failed embed, and
      otherwise runs to the status report. */
  lemma {:induction false} CreatePlanRun(cfg: Config, w: World)
    ensures Drive(CreatePlan, cfg, w)
            == if !CreateCollection(w.init) then Run([Init], Returned(false))
               else if !EmbedDocuments(w.embed) then Run([Init, Update, Embed], Returned(false))
               else Run([Init, Update, Embed, Status],
                        if ReportCrashes(GetStatus(w.status, w.decode)) then Crashed
                        else Returned(true))
  {
    var p1 := CreatePlan[1..];
    var p2 := p1[1..];
    var p3 := p2[1..];
    assert p1 == [Step(Update, true), Step(Embed, true), Step(Status, false)];
    assert p2 == [Step(Embed, true), Step(Status, false)];
    assert p3 == [Step(Status, false)];
    assert p3[1..] == [];
  }

  /** The conditionals of `setup` and the table agree on every input. */
  lemma {:induction false} SetupFollowsTable(cfg: Config, w: World, force: bool)
    ensures Setup(cfg, w, force) == SetupByTable(cfg, w, force)
  {
    if w.qmdOnPath {
      if CollectionExists(cfg, w.list) && !force {
        RefreshPlanAlwaysProceeds(cfg, w);
        assert [Which, List] + [Update, Embed] == RefreshPath;
      } else {
        CreatePlanRun(cfg, w);
        assert [Which, List] + [Init] == [Which, List, Init];
        assert [Which, List] + [Init, Update, Embed] == [Which, List, Init, Update, Embed];
        assert [Which, List] + [Init, Update, Embed, Status] == CreatePath;
      }
    }
  }
}
