/** The deployment lifecycle (backend/services/deployment_service.py):
    provisioning a deployment through Terraform, waiting for its VM,
    installing and deploying the application, destroying and restarting
    it, and the `deleted` transition the DELETE handler adds after a
    successful destroy (backend/api/deployment.py).

    Terraform, Proxmox, the SSH probe and the clock are oracles: each call
    the service makes to one of them is answered by a value passed in. */
module Deployments {
  import opened Wrappers
  import opened Text
  import Config
  import Validators
  import ScriptGenerator
  import opened Database

  // ---------------------------------------------------------------------
  // Oracles
  // ---------------------------------------------------------------------

  /** The answer of `TerraformService.apply` or `.destroy`: the returned
      `(success, output)` pair, or the message of an exception it raised. */
  datatype TerraformRun = Finished(ok: bool, output: string) | Raised(message: string)

  /** The map `get_outputs` returns; a key it lacks reads as `None`. */
  datatype TerraformOutputs = TerraformOutputs(vmId: Option<int>, ipAddress: Option<string>)

  /** How `create_workspace` ended: it returned, or it raised, either in
      `os.makedirs` (no directory is made) or afterwards, while writing the
      Terraform files or running `terraform init` in the new directory. */
  datatype WorkspaceOutcome =
    | Created
    | FailedBeforeDirectory(message: string)
    | FailedInDirectory(message: string)

  /** Everything Terraform answers during one `_deploy`: how
      `create_workspace` ended, then `apply`, then `get_outputs`. */
  datatype Provisioning = Provisioning(
    workspace: WorkspaceOutcome,
    apply: TerraformRun,
    outputs: TerraformOutputs)

  /** `create_workspace` got as far as `os.makedirs`. */
  predicate DirectoryMade(p: Provisioning) {
    !p.workspace.FailedBeforeDirectory?
  }

  /** One SSH probe: the code `connect_ex` returned, or an exception
      (swallowed by the loop). */
  datatype Probe = Connected(code: int) | SocketError

  /** The clock and the probes seen by `_wait_for_vm_ready`: reading 0 is
      the start time, reading k (k >= 1) the k-th test of the loop
      condition, and probe k the probe made in the k-th iteration. */
  datatype Readiness = Readiness(clock: nat -> int, probe: nat -> Probe)

  /** Time never goes back, and each iteration sleeps ten seconds between
      two readings of the loop condition, so k - j iterations take at
      least 10 * (k - j) seconds. */
  ghost predicate Advancing(clock: nat -> int) {
    && clock(0) <= clock(1)
    && forall j: nat, k: nat :: 1 <= j <= k ==> clock(j) + SleepSeconds * (k - j) <= clock(k)
  }

  /** What the service does, in order: the commits of the row (with the
      row as committed) and the calls to Terraform, the probe loop and
      Proxmox. */
  datatype Event =
    | Committed(record: Record)
    | CreateWorkspace
    | Apply
    | GetOutputs
    | WaitReady
    | TerraformDestroy(workspace: string)
    | RestartVm(node: Option<string>, vmId: Option<int>)

  // ---------------------------------------------------------------------
  // Constants and messages
  // ---------------------------------------------------------------------

  const ReadyTimeout: int := 300
  const SleepSeconds: int := 10

  const TimeoutMessage: string := "Timeout en attendant que la VM soit prête"
  const NotFoundMessage: string := "Déploiement introuvable"
  const DestroyedMessage: string := "Déploiement détruit"
  const RestartedMessage: string := "VM redémarrée"
  const RestartFailedMessage: string := "Échec du redémarrage"
  const DeletedMessage: string := "Déploiement supprimé"

  function ApplyFailedMessage(output: string): string {
    "Terraform apply a échoué: " + output
  }

  function DestroyFailedMessage(output: string): string {
    "Erreur Terraform: " + output
  }

  /** The default of `TERRAFORM_WORK_DIR`. */
  const DefaultWorkDir: string := "./terraform/workspaces"

  /** The separator `os.path.join` puts between the directory and the
      name: none after an empty directory or one that ends in a slash. */
  function Separator(workDir: string): string {
    if workDir == [] || workDir[|workDir| - 1] == '/' then "" else "/"
  }

  /** `os.path.join(workDir, f"deployment-{id}")`. */
  function WorkspaceDir(workDir: string, id: nat): (dir: string)
    ensures StartsWith(dir, workDir) && StartsWith(dir, workDir + Separator(workDir))
    ensures dir[|workDir + Separator(workDir)|..] == "deployment-" + NatToString(id)
  {
    var leaf := "deployment-" + NatToString(id);
    AfterPrefix(workDir + Separator(workDir), leaf);
    assert (workDir + Separator(workDir) + leaf)[..|workDir|] == workDir;
    workDir + Separator(workDir) + leaf
  }

  /** Two deployments never share a workspace directory. */
  lemma WorkspaceDirsDistinct(workDir: string, a: nat, b: nat)
    requires a != b
    ensures WorkspaceDir(workDir, a) != WorkspaceDir(workDir, b)
  {
    var n := |workDir + Separator(workDir)|;
    assert ("deployment-" + NatToString(a))[11..] == NatToString(a);
    assert ("deployment-" + NatToString(b))[11..] == NatToString(b);
    assert DecimalValue(WorkspaceDir(workDir, a)[n..][11..]) == a;
    assert DecimalValue(WorkspaceDir(workDir, b)[n..][11..]) == b;
  }

  /** With the default work directory, deployment 7 lives in
      `./terraform/workspaces/deployment-7`. */
  lemma DefaultWorkspaceOf7()
    ensures WorkspaceDir(DefaultWorkDir, 7) == DefaultWorkDir + "/deployment-7"
  {
    assert NatToString(7) == "7";
  }

  // ---------------------------------------------------------------------
  // _wait_for_vm_ready
  // ---------------------------------------------------------------------

  /** The answer of the probe loop from its k-th test of the loop
      condition on: true at the first probe that connects while less than
      `timeout` seconds have elapsed since `start`, false once they have. */
  function ReadyFrom(k: nat, start: int, timeout: int, r: Readiness): bool
    requires 1 <= k && Advancing(r.clock)
    decreases timeout - (r.clock(k) - start)
  {
    if r.clock(k) - start < timeout then
      r.probe(k) == Connected(0) || ReadyFrom(k + 1, start, timeout, r)
    else false
  }

  function Ready(timeout: int, r: Readiness): bool
    requires Advancing(r.clock)
  {
    ReadyFrom(1, r.clock(0), timeout, r)
  }

  /** `_wait_for_vm_ready(vm_id, ip_address, timeout)`: probe port 22
      (the probe oracle stands for `connect_ex((ip_address, 22))`), answer
      true on a zero code, otherwise sleep and test the elapsed time again.
      Without an address `connect_ex((None, 22))` raises at every probe and
      the loop swallows it, so the wait can only time out. */
  method WaitForVmReady(ip: Option<string>, r: Readiness, timeout: int) returns (ready: bool)
    requires Advancing(r.clock)
    ensures ready == (ip.Some? && Ready(timeout, r))
  {
    var start := r.clock(0);
    var k: nat := 1;
    while r.clock(k) - start < timeout
      invariant 1 <= k
      invariant ip.Some? ==> ReadyFrom(k, start, timeout, r) == Ready(timeout, r)
      decreases timeout - (r.clock(k) - start)
    {
      if ip.Some? && r.probe(k) == Connected(0) {
        return true;
      }
      k := k + 1;
    }
    return false;
  }

  /** From the k-th test on, the loop answers true exactly when some later
      probe connects before the timeout. */
  lemma {:induction false} ReadyFromMeansProbeSucceeds(k: nat, start: int, timeout: int, r: Readiness)
    requires 1 <= k && Advancing(r.clock)
    ensures ReadyFrom(k, start, timeout, r) <==>
            exists j: nat :: k <= j && r.clock(j) - start < timeout && r.probe(j) == Connected(0)
    decreases timeout - (r.clock(k) - start)
  {
    if r.clock(k) - start < timeout {
      ReadyFromMeansProbeSucceeds(k + 1, start, timeout, r);
      if exists j: nat :: k <= j && r.clock(j) - start < timeout && r.probe(j) == Connected(0) {
        var j: nat :| k <= j && r.clock(j) - start < timeout && r.probe(j) == Connected(0);
        if j > k {
          assert k + 1 <= j;
        }
      }
    } else {
      assert forall j: nat :: k <= j ==> r.clock(k) <= r.clock(j);
    }
  }

  /** `_wait_for_vm_ready` answers true if and only if some probe of
      port 22 connects while less than `timeout` seconds have elapsed; so
      it answers false only after the timeout has been reached. */
  lemma ReadyMeansProbeSucceeds(timeout: int, r: Readiness)
    requires Advancing(r.clock)
    ensures Ready(timeout, r) <==>
            exists j: nat :: 1 <= j && r.clock(j) - r.clock(0) < timeout && r.probe(j) == Connected(0)
  {
    ReadyFromMeansProbeSucceeds(1, r.clock(0), timeout, r);
  }

  /** With the clock already past the timeout at the first test, no probe
      is made and the answer is false; a first probe that connects in time
      gives true. */
  lemma ReadyAtFirstProbe(timeout: int, r: Readiness)
    requires Advancing(r.clock)
    ensures r.clock(1) - r.clock(0) >= timeout ==> !Ready(timeout, r)
    ensures r.clock(1) - r.clock(0) < timeout && r.probe(1) == Connected(0) ==> Ready(timeout, r)
  {
  }

  // ---------------------------------------------------------------------
  // _install_framework and _deploy_application
  // ---------------------------------------------------------------------

  function InstallLog(framework: string): string {
    "Framework " + framework + " installé"
  }

  function DeployLog(githubUrl: string): string {
    "Application déployée depuis " + githubUrl
  }

  /** `_install_framework`: the install script is generated and thrown
      away, so all that is seen of it is whether generating it raised; the
      framework is then reported as installed. */
  function InstallFramework(framework: string, kind: string): (r: Result<string, string>)
    ensures var script := ScriptGenerator.GenerateInstallScript(framework, kind);
            && (r.Failure? <==> script.Failure?)
            && (script.Failure? ==> r.error == script.error)
            && (script.Success? ==> r.value == InstallLog(framework))
  {
    if Config.IsFrameworkSupported(framework) then Success(InstallLog(framework))
    else Failure(Validators.UnsupportedFrameworkMessage(framework))
  }

  /** `_deploy_application`: the deploy script is generated and thrown
      away; the repository is then reported as deployed. */
  function DeployApplication(framework: string, githubUrl: string, kind: string): (r: Result<string, string>)
    ensures var script := ScriptGenerator.GenerateDeployScript(framework, githubUrl, kind);
            && (r.Failure? <==> script.Failure?)
            && (script.Failure? ==> r.error == script.error)
            && (script.Success? ==> r.value == DeployLog(githubUrl))
  {
    if Config.IsFrameworkSupported(framework) then Success(DeployLog(githubUrl))
    else Failure(Validators.UnsupportedFrameworkMessage(framework))
  }

  // ---------------------------------------------------------------------
  // _deploy as a function of the row and the oracles
  // ---------------------------------------------------------------------

  /** The row a run ends with, and what the run did, in order. */
  datatype Run = Run(record: Record, events: seq<Event>)

  /** The `except` branch: the row keeps every field assigned so far,
      takes status `failed` and the exception's text, and is committed. */
  function Fail(row: Record, message: string, events: seq<Event>): Run {
    var failed := row.(status := Failed, errorMessage := Some(message));
    Run(failed, events + [Committed(failed)])
  }

  /** The steps of a run in the order the service takes them; a run stops
      after a prefix of them and ends with one more commit. */
  function Steps(creating: Record): seq<Event> {
    [Committed(creating), CreateWorkspace, Apply, GetOutputs, WaitReady]
  }

  /** The steps of `_deploy` once the VM exists: a VM that is not ready
      in time fails the run, otherwise the framework is installed and the
      application deployed, and the run ends `running` with both logs. The
      events are the final commit alone. */
  function CompleteRun(provisioned: Record, ready: bool, now: int): (run: Run)
    ensures run.events == [Committed(run.record)]
    ensures run.record.status == Running || run.record.status == Failed
    ensures run.record == provisioned.(status := run.record.status,
                                       errorMessage := run.record.errorMessage,
                                       deploymentLog := run.record.deploymentLog,
                                       deployedAt := run.record.deployedAt)
    ensures run.record.status == Failed ==>
              && run.record.errorMessage.Some?
              && run.record.deploymentLog == provisioned.deploymentLog
              && run.record.deployedAt == provisioned.deployedAt
  {
    if !ready then Fail(provisioned, TimeoutMessage, [])
    else match InstallFramework(provisioned.framework, provisioned.kind)
      case Failure(e) => Fail(provisioned, e, [])
      case Success(installLog) =>
        match DeployApplication(provisioned.framework, provisioned.githubUrl, provisioned.kind)
        case Failure(e) => Fail(provisioned, e, [])
        case Success(deployLog) =>
          var running := provisioned.(deploymentLog := Some(installLog + "\n\n" + deployLog),
                                      status := Running,
                                      deployedAt := Some(now));
          Run(running, [Committed(running)])
  }

  /** The Terraform part of `_deploy`, from the `creating` row on: the
      workspace, apply (whose output is stored whatever it says) and the
      outputs. A failure ends the run with the final commit; a success
      leaves the row with the VM's columns filled in, not yet committed. */
  function ProvisionRun(creating: Record, node: Option<string>, p: Provisioning): (run: Run)
    ensures SameRequest(run.record, creating)
    ensures run.record.deploymentLog == creating.deploymentLog && run.record.deployedAt == creating.deployedAt
    ensures run.record.status == (if Provisioned(p) then creating.status else Failed)
    ensures !Provisioned(p) ==> run.record.errorMessage.Some?
  {
    if !p.workspace.Created? then Fail(creating, p.workspace.message, [CreateWorkspace])
    else match p.apply
      case Raised(message) => Fail(creating, message, [CreateWorkspace, Apply])
      case Finished(ok, output) =>
        var applied := creating.(terraformOutput := Some(output));
        if !ok then Fail(applied, ApplyFailedMessage(output), [CreateWorkspace, Apply])
        else Run(applied.(proxmoxId := p.outputs.vmId, ipAddress := p.outputs.ipAddress, proxmoxNode := node),
                 [CreateWorkspace, Apply, GetOutputs])
  }

  /** `_deploy` on an existing row, with `node` the value of
      `PROXMOX_NODE`, `ready` what the probes of port 22 answer when the VM
      has an address (they are made only once the VM exists, and a VM
      without an address is never ready) and `now` the instant of
      `datetime.utcnow()`. */
  function DeployRun(d: Record, node: Option<string>, p: Provisioning, ready: bool, now: int): (run: Run)
    ensures run.record.status == Running || run.record.status == Failed
    ensures |run.events| >= 3 && run.events[|run.events| - 1] == Committed(run.record)
  {
    var creating := d.(status := Creating);
    var provisioned := ProvisionRun(creating, node, p);
    if !Provisioned(p) then
      Run(provisioned.record, [Committed(creating)] + provisioned.events)
    else
      var completed := CompleteRun(provisioned.record, p.outputs.ipAddress.Some? && ready, now);
      Run(completed.record, [Committed(creating)] + provisioned.events + [WaitReady] + completed.events)
  }

  /** Provisioning got as far as reading the Terraform outputs. */
  predicate Provisioned(p: Provisioning) {
    p.workspace.Created? && p.apply.Finished? && p.apply.ok
  }

  /** How many of the steps a run takes: a failed workspace stops it
      after the workspace step, a failed apply after apply, and a run that
      reads the outputs goes on to wait for the VM. */
  function StepsTaken(p: Provisioning): (k: nat)
    ensures 2 <= k <= 5
  {
    if !p.workspace.Created? then 2 else if !Provisioned(p) then 3 else 5
  }

  /** A run takes the steps in their order and stops after some of
      them: the status `creating` is committed before anything else
      happens, the workspace is created right after it, and the run ends
      with the commit of its final row. */
  lemma StepsInOrder(d: Record, node: Option<string>, p: Provisioning, ready: bool, now: int)
    ensures var run := DeployRun(d, node, p, ready, now);
            run.events == Steps(d.(status := Creating))[..StepsTaken(p)] + [Committed(run.record)]
  {
    var creating := d.(status := Creating);
    var run := DeployRun(d, node, p, ready, now);
    if !p.workspace.Created? {
      assert run.events == [Committed(creating), CreateWorkspace, Committed(run.record)];
    } else if !Provisioned(p) {
      assert run.events == [Committed(creating), CreateWorkspace, Apply, Committed(run.record)];
    } else {
      assert run.events == Steps(creating) + [Committed(run.record)];
    }
  }

  /** A run ends `running` exactly when the workspace is created, apply
      succeeds, the VM has an address and answers there in time, and the
      framework is supported. */
  lemma RunningIffEveryStepSucceeds(d: Record, node: Option<string>, p: Provisioning, ready: bool, now: int)
    ensures DeployRun(d, node, p, ready, now).record.status == Running <==>
            Provisioned(p) && p.outputs.ipAddress.Some? && ready && Config.IsFrameworkSupported(d.framework)
  {
  }

  /** Apply's output is stored whether apply succeeded or not; a failed
      apply fails the run with a message that ends with that output. */
  lemma ApplyOutputRecorded(d: Record, node: Option<string>, p: Provisioning, ready: bool, now: int)
    requires p.workspace.Created? && p.apply.Finished?
    ensures var run := DeployRun(d, node, p, ready, now);
            && run.record.terraformOutput == Some(p.apply.output)
            && (!p.apply.ok ==> run.record.status == Failed &&
                                run.record.errorMessage == Some(ApplyFailedMessage(p.apply.output)) &&
                                EndsWith(run.record.errorMessage.value, p.apply.output))
  {
    if !p.apply.ok {
      assert EndsWith(p.apply.output, p.apply.output);
      EndsWithPrepend("Terraform apply a échoué: ", p.apply.output, p.apply.output);
    }
  }

  /** Past a successful apply, the Proxmox id and IP address are the
      outputs' (a missing key gives none) and the node is the configured
      one, whatever happens next. */
  lemma OutputsCopied(d: Record, node: Option<string>, p: Provisioning, ready: bool, now: int)
    requires Provisioned(p)
    ensures var run := DeployRun(d, node, p, ready, now);
            && run.record.proxmoxId == p.outputs.vmId
            && run.record.ipAddress == p.outputs.ipAddress
            && run.record.proxmoxNode == node
  {
  }

  /** A successful run has an IP address, stores both logs separated by
      a blank line and the deployment instant, and leaves the error message
      as it was. */
  lemma RunningRecord(d: Record, node: Option<string>, p: Provisioning, ready: bool, now: int)
    ensures var run := DeployRun(d, node, p, ready, now);
            run.record.status == Running ==>
              && run.record.ipAddress.Some?
              && run.record.deploymentLog == Some(InstallLog(d.framework) + "\n\n" + DeployLog(d.githubUrl))
              && run.record.deployedAt == Some(now)
              && run.record.errorMessage == d.errorMessage
  {
  }

  /** The columns `_deploy` never writes: the row's identity, the
      request it was created from, and its timestamps of creation and
      update. */
  predicate SameRequest(a: Record, b: Record) {
    && a.id == b.id && a.name == b.name && a.kind == b.kind
    && a.framework == b.framework && a.githubUrl == b.githubUrl
    && a.cpu == b.cpu && a.memory == b.memory && a.disk == b.disk
    && a.createdAt == b.createdAt && a.updatedAt == b.updatedAt
  }

  /** A run keeps the row's identity, request and timestamps. */
  lemma RunKeepsRequest(d: Record, node: Option<string>, p: Provisioning, ready: bool, now: int)
    ensures SameRequest(DeployRun(d, node, p, ready, now).record, d)
  {
  }

  /** A failed run sets the error message and never the deployment log
      or the deployment instant. */
  lemma FailedRecord(d: Record, node: Option<string>, p: Provisioning, ready: bool, now: int)
    ensures var run := DeployRun(d, node, p, ready, now);
            run.record.status == Failed ==>
              && run.record.errorMessage.Some?
              && run.record.deploymentLog == d.deploymentLog
              && run.record.deployedAt == d.deployedAt
  {
  }

  /** A VM that never answers in time, or that Terraform gave no
      address, fails the run with the timeout message, after the Proxmox
      fields have been recorded. */
  lemma TimeoutFails(d: Record, node: Option<string>, p: Provisioning, ready: bool, now: int)
    requires Provisioned(p) && (!ready || p.outputs.ipAddress.None?)
    ensures var run := DeployRun(d, node, p, ready, now);
            run.record.status == Failed && run.record.errorMessage == Some(TimeoutMessage)
  {
  }

  /** The framework is only checked by the script generators, after the
      VM exists: an unsupported framework fails the run with the
      generator's message and leaves the VM's id on the row. */
  lemma UnsupportedFrameworkFailsLate(d: Record, node: Option<string>, p: Provisioning, ready: bool, now: int)
    requires Provisioned(p) && p.outputs.ipAddress.Some? && ready
    requires !Config.IsFrameworkSupported(d.framework)
    ensures var run := DeployRun(d, node, p, ready, now);
            && run.record.status == Failed
            && run.record.errorMessage == Some(Validators.UnsupportedFrameworkMessage(d.framework))
            && run.record.proxmoxId == p.outputs.vmId
            && |run.events| == 6
  {
  }

  /** On a row without an error message, a run leaves one exactly when it
      fails. */
  lemma ErrorMessageIffFailed(d: Record, node: Option<string>, p: Provisioning, ready: bool, now: int)
    requires d.errorMessage.None?
    ensures var run := DeployRun(d, node, p, ready, now);
            run.record.errorMessage.Some? <==> run.record.status == Failed
  {
  }

  // ---------------------------------------------------------------------
  // destroy
  // ---------------------------------------------------------------------

  /** `destroy`'s `(success, message)` for a row that exists or not, a
      workspace directory that exists or not, and Terraform's answer
      (consulted only when the directory exists). */
  function DestroyReply(found: bool, workspaceExists: bool, tf: TerraformRun): (reply: (bool, string))
    ensures !found ==> reply == (false, NotFoundMessage)
    ensures found && !workspaceExists ==> reply == (true, DestroyedMessage)
    ensures found && workspaceExists ==>
              reply.0 == (tf.Finished? && tf.ok) &&
              (reply.0 ==> reply.1 == DestroyedMessage)
    ensures found && workspaceExists && tf.Finished? && !tf.ok ==>
              reply.1 == DestroyFailedMessage(tf.output)
    ensures found && workspaceExists && tf.Raised? ==> reply.1 == tf.message
  {
    if !found then (false, NotFoundMessage)
    else if workspaceExists then
      match tf
      case Raised(message) => (false, message)
      case Finished(ok, output) =>
        if !ok then (false, DestroyFailedMessage(output)) else (true, DestroyedMessage)
    else (true, DestroyedMessage)
  }

  // ---------------------------------------------------------------------
  // The service
  // ---------------------------------------------------------------------

  /** The deployments table, the workspace directories on disk, the
      configuration the service reads from the environment, and the
      service's history of commits and external calls. */
  class DeploymentService {
    var deployments: map<nat, Deployment>
    var workspaces: set<string>
    const workDir: string
    const node: Option<string>
    ghost var events: seq<Event>

    /** Each row is stored under its own id. */
    ghost predicate Valid()
      reads this`deployments
    {
      forall id :: id in deployments ==> deployments[id].id == id
    }

    constructor (workDir: string, node: Option<string>)
      ensures Valid() && deployments == map[] && workspaces == {} && events == []
      ensures this.workDir == workDir && this.node == node
    {
      deployments := map[];
      workspaces := {};
      this.workDir := workDir;
      this.node := node;
      events := [];
    }

    /** A row added and committed by the creation handler. */
    method Add(d: Deployment)
      requires Valid() && d.id !in deployments
      modifies this`deployments, this`events
      ensures Valid() && deployments == old(deployments)[d.id := d]
      ensures events == old(events) + [Committed(d.Snapshot())]
    {
      deployments := deployments[d.id := d];
      events := events + [Committed(d.Snapshot())];
    }

    /** `_deploy(deployment_id)`. An unknown id changes nothing. */
    method Deploy(id: nat, p: Provisioning, r: Readiness, now: int)
      requires Valid() && Advancing(r.clock)
      modifies if id in deployments then {deployments[id]} else {}
      modifies this`events, this`workspaces
      ensures id !in deployments ==> events == old(events) && workspaces == old(workspaces)
      ensures id in deployments ==>
                var run := DeployRun(old(deployments[id].Snapshot()), node, p, Ready(ReadyTimeout, r), now);
                && deployments[id].Snapshot() == run.record
                && events == old(events) + run.events
      ensures workspaces == if id in deployments && DirectoryMade(p) then old(workspaces) + {WorkspaceDir(workDir, id)}
                            else old(workspaces)
    {
      if id !in deployments {
        return;
      }
      RunDeployment(deployments[id], p, r, now);
    }

    /** The `try` block of `_deploy` on the row `d`. The run's commits and
        external calls join the history when the run ends. */
    method RunDeployment(d: Deployment, p: Provisioning, r: Readiness, now: int)
      requires Advancing(r.clock)
      modifies d, this`events, this`workspaces
      ensures var run := DeployRun(old(d.Snapshot()), node, p, Ready(ReadyTimeout, r), now);
              d.Snapshot() == run.record && events == old(events) + run.events
      ensures workspaces == if DirectoryMade(p) then old(workspaces) + {WorkspaceDir(workDir, d.id)} else old(workspaces)
    {
      d.MarkCreating();
      ghost var creating := d.Snapshot();
      var provisioned;
      ghost var steps;
      provisioned, steps := Provision(d, p);
      if !provisioned {
        events := events + ([Committed(creating)] + steps);
        return;
      }
      var ready := WaitForVmReady(d.ipAddress, r, ReadyTimeout);
      ghost var finish := CompleteDeployment(d, ready, now);
      events := events + ([Committed(creating)] + steps + [WaitReady] + finish);
    }

    /** The Terraform steps of `_deploy`: create the workspace, apply,
        store apply's output, then read the outputs into the row. Answers
        whether the run goes on, and the steps taken; on a failure the row
        is already failed and its commit is the last step. */
    method Provision(d: Deployment, p: Provisioning) returns (provisioned: bool, ghost steps: seq<Event>)
      modifies d, this`workspaces
      ensures provisioned == Provisioned(p)
      ensures var run := ProvisionRun(old(d.Snapshot()), node, p);
              d.Snapshot() == run.record && steps == run.events
      ensures workspaces == if DirectoryMade(p) then old(workspaces) + {WorkspaceDir(workDir, d.id)} else old(workspaces)
    {
      if DirectoryMade(p) {
        workspaces := workspaces + {WorkspaceDir(workDir, d.id)};
      }
      if !p.workspace.Created? {
        d.MarkFailed(p.workspace.message);
        return false, [CreateWorkspace] + [Committed(d.Snapshot())];
      }
      if p.apply.Raised? {
        d.MarkFailed(p.apply.message);
        return false, [CreateWorkspace, Apply] + [Committed(d.Snapshot())];
      }
      d.RecordTerraformOutput(p.apply.output);
      if !p.apply.ok {
        d.MarkFailed(ApplyFailedMessage(p.apply.output));
        return false, [CreateWorkspace, Apply] + [Committed(d.Snapshot())];
      }
      d.RecordVm(p.outputs.vmId, p.outputs.ipAddress, node);
      return true, [CreateWorkspace, Apply, GetOutputs];
    }

    /** The end of `_deploy` once the VM exists: fail on a VM that is not
        ready, otherwise install, deploy and mark the row `running`. Answers
        the commits made. */
    method CompleteDeployment(d: Deployment, ready: bool, now: int) returns (ghost commits: seq<Event>)
      modifies d
      ensures var run := CompleteRun(old(d.Snapshot()), ready, now);
              d.Snapshot() == run.record && commits == run.events
    {
      if !ready {
        d.MarkFailed(TimeoutMessage);
        return [] + [Committed(d.Snapshot())];
      }
      var install := InstallFramework(d.framework, d.kind);
      if install.Failure? {
        d.MarkFailed(install.error);
        return [] + [Committed(d.Snapshot())];
      }
      var deploy := DeployApplication(d.framework, d.githubUrl, d.kind);
      if deploy.Failure? {
        // both generators consult the same registry, so this cannot happen
        // once the install script was generated
        assert false;
      }
      d.MarkRunning(install.value + "\n\n" + deploy.value, now);
      return [Committed(d.Snapshot())];
    }

    /** `destroy(deployment_id)`: Terraform destroy runs only when the
        workspace directory exists; the row is never changed. */
    method Destroy(id: nat, tf: TerraformRun) returns (ok: bool, message: string)
      requires Valid()
      modifies this`events
      ensures (ok, message) == DestroyReply(id in deployments, WorkspaceDir(workDir, id) in workspaces, tf)
      ensures events == old(events) +
                        if id in deployments && WorkspaceDir(workDir, id) in workspaces
                        then [TerraformDestroy(WorkspaceDir(workDir, id))] else []
    {
      if id !in deployments {
        return false, NotFoundMessage;
      }
      var workspace := WorkspaceDir(workDir, id);
      if workspace in workspaces {
        events := events + [TerraformDestroy(workspace)];
        match tf {
          case Raised(m) =>
            return false, m;
          case Finished(success, output) =>
            if !success {
              return false, DestroyFailedMessage(output);
            }
        }
      }
      return true, DestroyedMessage;
    }

    /** `restart(deployment_id)`: reboot the VM through Proxmox
        (`restarted` is what `restart_vm` answered); only a successful
        reboot touches the row, and then only its update instant. */
    method Restart(id: nat, restarted: bool, now: int) returns (ok: bool, message: string)
      requires Valid()
      modifies if id in deployments then {deployments[id]} else {}
      modifies this`events
      ensures id !in deployments ==> !ok && message == NotFoundMessage && events == old(events)
      ensures id in deployments ==>
                && ok == restarted
                && message == (if restarted then RestartedMessage else RestartFailedMessage)
                && deployments[id].Snapshot() ==
                   (if restarted then old(deployments[id].Snapshot()).(updatedAt := Some(now))
                    else old(deployments[id].Snapshot()))
                && events == old(events) + [RestartVm(old(deployments[id].proxmoxNode), old(deployments[id].proxmoxId))] +
                             (if restarted then [Committed(deployments[id].Snapshot())] else [])
    {
      if id !in deployments {
        return false, NotFoundMessage;
      }
      var d := deployments[id];
      events := events + [RestartVm(d.proxmoxNode, d.proxmoxId)];
      if restarted {
        d.Touch(now);
        events := events + [Committed(d.Snapshot())];
        return true, RestartedMessage;
      }
      return false, RestartFailedMessage;
    }

    /** The DELETE handler: destroy, and after a successful destroy mark
        the row `deleted` with a fresh update instant. */
    method Delete(id: nat, tf: TerraformRun, now: int) returns (ok: bool, message: string)
      requires Valid()
      modifies if id in deployments then {deployments[id]} else {}
      modifies this`events
      ensures id !in deployments ==> !ok && message == NotFoundMessage && events == old(events)
      ensures id in deployments ==>
                var reply := DestroyReply(true, WorkspaceDir(workDir, id) in workspaces, tf);
                && ok == reply.0
                && message == (if ok then DeletedMessage else reply.1)
                && deployments[id].Snapshot() ==
                   (if ok then old(deployments[id].Snapshot()).(status := Deleted, updatedAt := Some(now))
                    else old(deployments[id].Snapshot()))
                && events == old(events) +
                             (if WorkspaceDir(workDir, id) in workspaces then [TerraformDestroy(WorkspaceDir(workDir, id))] else []) +
                             (if ok then [Committed(deployments[id].Snapshot())] else [])
    {
      if id !in deployments {
        return false, NotFoundMessage;
      }
      var d := deployments[id];
      var destroyed, reason := Destroy(id, tf);
      if !destroyed {
        return false, reason;
      }
      d.MarkDeleted(now);
      events := events + [Committed(d.Snapshot())];
      return true, DeletedMessage;
    }
  }
}
