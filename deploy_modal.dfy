/**
 * The deploy dialog (src/components/DeployModal.tsx): the configuration guard, the five-step
 * simulated deployment loop, the remapping of a running step to an error when the run is
 * interrupted, and which of the three panes the dialog shows. Where a run is interrupted is an
 * input; the waits between steps are not modelled.
 */
module DeployModal {
  import opened Wrappers
  import opened Types
  import opened Strings

  datatype StepStatus = Pending | Running | Completed | Errored

  datatype DeploymentStep = DeploymentStep(id: string, title: string, status: StepStatus, message: Option<string>)

  /** The first step's title, as the source file spells it: two replacement characters stand where a syllable was. */
  const ValidateTitle: string := "배포 구성 " + ['\U{FFFD}', '\U{FFFD}'] + "증"

  const StepCount: nat := 5
  const DeployFailureMessage: string := "배포 중 오류 발생"

  /** The step list a deployment starts from: five steps, all pending, without messages. */
  function InitialSteps(): (steps: seq<DeploymentStep>)
    ensures |steps| == StepCount
    ensures forall j :: 0 <= j < |steps| ==> steps[j].status == Pending && steps[j].message == None
    ensures [steps[0].id, steps[1].id, steps[2].id, steps[3].id, steps[4].id] == ["validate", "connect", "prepare", "install", "verify"]
  {
    [ DeploymentStep("validate", ValidateTitle, Pending, None),
      DeploymentStep("connect", "클러스터 연결", Pending, None),
      DeploymentStep("prepare", "네임스페이스 준비", Pending, None),
      DeploymentStep("install", "Helm 차트 설치", Pending, None),
      DeploymentStep("verify", "배포 상태 확인", Pending, None) ]
  }

  /** The first update of an iteration: the step runs, with a progress message naming it. */
  function MarkRunning(step: DeploymentStep): (r: DeploymentStep)
    ensures r.id == step.id && r.title == step.title
    ensures r.status == Running && r.message == Some(step.title + " 진행 중...")
  {
    step.(status := Running, message := Some(step.title + " 진행 중..."))
  }

  /** The second update of an iteration: the step is done, with a completion message naming it. */
  function MarkCompleted(step: DeploymentStep): (r: DeploymentStep)
    ensures r.id == step.id && r.title == step.title
    ensures r.status == Completed && r.message == Some(step.title + " 완료")
  {
    step.(status := Completed, message := Some(step.title + " 완료"))
  }

  /** The catch block's remap: every running step becomes an error with the failure message; every other step is kept. */
  function RemapErrors(steps: seq<DeploymentStep>): (r: seq<DeploymentStep>)
    ensures |r| == |steps|
    ensures forall j :: 0 <= j < |steps| ==> r[j].id == steps[j].id && r[j].title == steps[j].title
    ensures forall j :: 0 <= j < |steps| && steps[j].status == Running ==>
      r[j].status == Errored && r[j].message == Some(DeployFailureMessage)
    ensures forall j :: 0 <= j < |steps| && steps[j].status != Running ==> r[j] == steps[j]
    ensures forall j :: 0 <= j < |r| ==> r[j].status != Running
  {
    seq(|steps|, j requires 0 <= j < |steps| =>
      if steps[j].status == Running then steps[j].(status := Errored, message := Some(DeployFailureMessage)) else steps[j])
  }

  /** Where a run stops: before step `step` starts running, or after it started and before it completed. */
  datatype Interrupt = Interrupt(step: nat, afterRunning: bool)

  /** The steps after `done` iterations have completed and none has failed. */
  function Progress(done: nat): (steps: seq<DeploymentStep>)
    requires done <= StepCount
    ensures |steps| == StepCount
  {
    var initial := InitialSteps();
    seq(StepCount, j requires 0 <= j < StepCount => if j < done then MarkCompleted(initial[j]) else initial[j])
  }

  /** Whether a run with this interruption gets through every step. */
  predicate RunsToCompletion(interrupt: Option<Interrupt>) {
    interrupt.None? || interrupt.value.step >= StepCount
  }

  /**
   * The step list a run leaves behind: every step before the interruption completed, the
   * interrupted step an error if it had started running, and the rest pending.
   */
  function FinalSteps(interrupt: Option<Interrupt>): (steps: seq<DeploymentStep>)
    ensures |steps| == StepCount
  {
    if RunsToCompletion(interrupt) then Progress(StepCount)
    else
      var k := interrupt.value.step;
      var reached := Progress(k);
      if interrupt.value.afterRunning then reached[k := reached[k].(status := Errored, message := Some(DeployFailureMessage))]
      else reached
  }

  /** A run's final step list as statuses: completed up to the interruption, then at most one error, then pending. */
  lemma FinalStepsShape(interrupt: Option<Interrupt>, j: nat)
    requires j < StepCount
    ensures var s := FinalSteps(interrupt)[j].status;
      if RunsToCompletion(interrupt) || j < interrupt.value.step then s == Completed
      else if j == interrupt.value.step && interrupt.value.afterRunning then s == Errored
      else s == Pending
    ensures FinalSteps(interrupt)[j].status != Running
    ensures FinalSteps(interrupt)[j].id == InitialSteps()[j].id
  {
  }

  /** At most one step is ever in error, and only when the run was interrupted after that step started. */
  lemma AtMostOneError(interrupt: Option<Interrupt>, i: nat, j: nat)
    requires i < StepCount && j < StepCount
    requires FinalSteps(interrupt)[i].status == Errored && FinalSteps(interrupt)[j].status == Errored
    ensures i == j && !RunsToCompletion(interrupt) && interrupt.value.afterRunning && interrupt.value.step == i
  {
    FinalStepsShape(interrupt, i);
    FinalStepsShape(interrupt, j);
  }

  /** Which pane the dialog shows. */
  datatype Pane = Configure | InProgress | Finished

  function PaneFor(isDeploying: bool, deploymentComplete: bool): (p: Pane)
    ensures p == Configure <==> !isDeploying && !deploymentComplete
    ensures p == InProgress <==> isDeploying
  {
    if !isDeploying && !deploymentComplete then Configure
    else if isDeploying then InProgress
    else Finished
  }

  /** The Deploy button is enabled, and `handleDeploy` proceeds, exactly when a cluster and a name are given. */
  predicate DeployEnabled(selectedCluster: string, deploymentName: string) {
    selectedCluster != "" && deploymentName != ""
  }

  /** The dialog's state for one chart, as the component keeps it. */
  class Deployment {
    const chartName: string
    var deploymentName: string
    var namespace: string
    var selectedCluster: string
    var isDeploying: bool
    var steps: seq<DeploymentStep>
    var deploymentComplete: bool
    var deploymentId: Option<string>

    constructor (chart: HelmChart)
      ensures chartName == chart.name && deploymentName == "my-" + chart.name
      ensures namespace == "default" && selectedCluster == ""
      ensures !isDeploying && steps == [] && !deploymentComplete && deploymentId == None
    {
      chartName := chart.name;
      deploymentName := "my-" + chart.name;
      namespace := "default";
      selectedCluster := "";
      isDeploying := false;
      steps := [];
      deploymentComplete := false;
      deploymentId := None;
    }

    /**
     * `handleDeploy`, run until it settles. Without a cluster or a name nothing changes. Otherwise
     * the step loop leaves `FinalSteps(interrupt)`, completion is recorded only for a run that got
     * through every step, and the run is no longer in progress.
     */
    method HandleDeploy(interrupt: Option<Interrupt>, clock: nat) returns (started: bool)
      modifies this`isDeploying, this`steps, this`deploymentComplete, this`deploymentId
      ensures started == DeployEnabled(old(selectedCluster), old(deploymentName))
      ensures !started ==> (isDeploying == old(isDeploying) && steps == old(steps)
        && deploymentComplete == old(deploymentComplete) && deploymentId == old(deploymentId))
      ensures started ==> (!isDeploying && steps == FinalSteps(interrupt)
        && deploymentComplete == RunsToCompletion(interrupt)
        && deploymentId == Some("deploy-" + NatToString(clock)))
    {
      if selectedCluster == "" || deploymentName == "" {
        return false;
      }
      started := true;
      isDeploying := true;
      deploymentComplete := false;
      steps := InitialSteps();
      deploymentId := Some("deploy-" + NatToString(clock));
      var failed := false;
      var i: nat := 0;
      while i < |steps|
        invariant |steps| == StepCount && i <= StepCount
        invariant isDeploying && !deploymentComplete && deploymentId == Some("deploy-" + NatToString(clock))
        invariant !failed ==> steps == Progress(i)
        invariant !failed && interrupt.Some? ==> i <= interrupt.value.step
        invariant failed ==> steps == FinalSteps(interrupt) && !RunsToCompletion(interrupt) && i == StepCount
        decreases StepCount - i
      {
        if interrupt == Some(Interrupt(i, false)) {
          failed := true;
          steps := RemapErrors(steps);
          assert steps == Progress(i);
          i := StepCount;
        } else {
          steps := steps[i := MarkRunning(steps[i])];
          if interrupt == Some(Interrupt(i, true)) {
            failed := true;
            steps := RemapErrors(steps);
            assert steps == FinalSteps(interrupt);
            i := StepCount;
          } else {
            steps := steps[i := MarkCompleted(steps[i])];
            assert steps == Progress(i + 1);
            i := i + 1;
          }
        }
      }
      if !failed {
        deploymentComplete := true;
      }
      isDeploying := false;
    }
  }

  /** An interrupted run sends the dialog back to its configuration pane; a complete one to the finished pane. */
  lemma SettledPane(interrupt: Option<Interrupt>)
    ensures PaneFor(false, RunsToCompletion(interrupt)) == if RunsToCompletion(interrupt) then Finished else Configure
  {
  }
}
