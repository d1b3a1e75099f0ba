/** Capability policies and the routing decision (domain/capabilities.py, application/capability_router.py). */
module CapabilityRouter {
  import opened Prelude
  import opened WorkerJobs

  datatype ExecutionClass = NativeApi | Hybrid | BrowserAssisted | HumanAssisted | UnsupportedClass
  datatype Executor = Api | Worker
  datatype RouteTarget = LocalApi | WorkerJobTarget | WaitExecution | WaitIntervention | Unsupported
  datatype FallbackSafety = Never | BeforeFirstAttempt
  datatype ExecutionMode = ApiOnly | BrowserOnly | HybridMode | Manual
  datatype AccountStatus = Active | ReauthorizationRequired | Disabled

  datatype Policy = Policy(
    capability: string,
    version: int,
    class_: ExecutionClass,
    operation: OperationClass,
    preferred: Executor,
    fallback: Option<Executor>,
    fallbackSafety: FallbackSafety,
    workerCapability: Option<(string, int)>,
    blocked: Option<string>)
  {
    predicate Allows(e: Executor) { preferred == e || fallback == Some(e) }

    /** What the policy constructor checks. */
    predicate WellFormed() {
      && capability != "" && version >= 1
      && (workerCapability.Some? ==> workerCapability.value.1 >= 1)
      && (blocked.Some? ==> blocked.value != "")
      && fallback != Some(preferred)
      && (fallback.Some? <==> fallbackSafety.BeforeFirstAttempt?)
      && (Allows(Worker) ==> workerCapability.Some?)
    }
  }

  type Policies = map<string, Policy>

  predicate WellFormedPolicies(policies: Policies) {
    forall t <- policies :: policies[t].WellFormed()
  }

  /** The route of an already existing WorkerJob, as far as `decide` reads it. */
  datatype ExistingJob = ExistingJob(status: JobStatus, retrySafety: RetrySafety)

  datatype Evidence = Evidence(
    apiAvailable: bool,
    workerAssigned: bool,
    workerOnline: bool,
    workerAdvertises: bool,
    accountBusy: bool,
    accountStatus: AccountStatus,
    attempts: nat,
    previous: Option<Executor>,
    existing: Option<ExistingJob>)

  datatype Reason =
    | PolicyBlocked(code: string)
    | AccountExecutionAlreadyOwned | AccountNotReadyForExecution | AccountRequiresManualExecution
    | ActiveWorkerAssignmentRequired | ActiveWorkerCapabilityRequired | ApiExecutorUnavailable
    | ApiOnlyLocalApi | ApiUnavailableSafeWorkerFallback | BrowserOnlyAssignedWorker
    | CapabilityHasNoApiExecutor | CapabilityHasNoWorkerExecutor | ExecutorSwitchRequiresReconciliation
    | ExistingWorkerJob | HumanAssistanceRequired | NoSafeExecutorAvailable | PreferredApiAvailable
    | PreferredWorkerAvailable | UnsupportedCapability | WorkerExecutorUnavailable
    | WorkerJobRequiresIntervention | WorkerUnavailableSafeApiFallback | WorkerUnavailableWaiting
  {
    predicate NonEmpty() { PolicyBlocked? ==> code != "" }
  }

  datatype Decision = Decision(
    capability: string,
    version: int,
    class_: ExecutionClass,
    operation: OperationClass,
    mode: ExecutionMode,
    target: RouteTarget,
    executor: Option<Executor>,
    reason: Reason)
  {
    /** What the decision constructor checks. */
    predicate WellFormed() {
      && capability != "" && version >= 1 && reason.NonEmpty()
      && (target.LocalApi? ==> executor == Some(Api))
      && (target.WorkerJobTarget? ==> executor == Some(Worker))
      && (target.WaitExecution? || target.WaitIntervention? || target.Unsupported? ==> executor == None)
    }
  }

  predicate WorkerExecutionAllowed(policies: Policies, commandType: string, mode: ExecutionMode) {
    commandType in policies &&
    var p := policies[commandType];
    && !p.class_.UnsupportedClass? && !p.class_.HumanAssisted?
    && p.Allows(Worker) && p.blocked.None? && p.workerCapability.Some?
    && (mode.BrowserOnly? || mode.HybridMode?)
  }

  type Choice = (RouteTarget, Option<Executor>, Reason)

  /** The executor choice for an account and policy that passed every earlier gate. */
  function Choose(p: Policy, mode: ExecutionMode, e: Evidence): Choice {
    var workerSupported := p.Allows(Worker) && p.workerCapability.Some?;
    var workerReady := e.workerAssigned && e.workerOnline && e.workerAdvertises;
    if mode.ApiOnly? then
      if !p.Allows(Api) then (Unsupported, None, CapabilityHasNoApiExecutor)
      else if e.apiAvailable then (LocalApi, Some(Api), ApiOnlyLocalApi)
      else (WaitExecution, None, ApiExecutorUnavailable)
    else if mode.BrowserOnly? then
      if !workerSupported then (Unsupported, None, CapabilityHasNoWorkerExecutor)
      else if e.workerAssigned && e.workerAdvertises then
        (WorkerJobTarget, Some(Worker), BrowserOnlyAssignedWorker)
      else
        (WaitExecution, None,
         if e.workerAssigned then ActiveWorkerCapabilityRequired else ActiveWorkerAssignmentRequired)
    else if p.preferred.Api? then
      if e.apiAvailable then (LocalApi, Some(Api), PreferredApiAvailable)
      else if p.fallback == Some(Worker) && p.fallbackSafety.BeforeFirstAttempt? && e.attempts == 0
              && workerSupported && e.workerAssigned && e.workerAdvertises then
        (WorkerJobTarget, Some(Worker), ApiUnavailableSafeWorkerFallback)
      else (WaitExecution, None, NoSafeExecutorAvailable)
    else if workerReady then (WorkerJobTarget, Some(Worker), PreferredWorkerAvailable)
    else if p.fallback == Some(Api) && p.fallbackSafety.BeforeFirstAttempt? && e.attempts == 0 && e.apiAvailable then
      (LocalApi, Some(Api), WorkerUnavailableSafeApiFallback)
    else if workerSupported && e.workerAssigned then
      (WorkerJobTarget, Some(Worker), WorkerUnavailableWaiting)
    else (WaitExecution, None, WorkerExecutorUnavailable)
  }

  function Route(p: Policy, mode: ExecutionMode, e: Evidence): Choice {
    if e.existing.Some? then
      if e.existing.value.status.WaitingIntervention? || e.existing.value.retrySafety.ReconciliationRequired? then
        (WaitIntervention, None, WorkerJobRequiresIntervention)
      else (WaitExecution, None, ExistingWorkerJob)
    else if p.blocked.Some? then (Unsupported, None, PolicyBlocked(p.blocked.value))
    else if p.class_.UnsupportedClass? then (Unsupported, None, UnsupportedCapability)
    else if !e.accountStatus.Active? then (WaitIntervention, None, AccountNotReadyForExecution)
    else if mode.Manual? then (WaitIntervention, None, AccountRequiresManualExecution)
    else if !p.operation.Read? && e.accountBusy then (WaitExecution, None, AccountExecutionAlreadyOwned)
    else if p.class_.HumanAssisted? then (WaitIntervention, None, HumanAssistanceRequired)
    else
      var c := Choose(p, mode, e);
      if e.attempts > 0 && (c.0.LocalApi? || c.0.WorkerJobTarget?) && (e.previous.None? || c.1 != e.previous) then
        (WaitIntervention, None, ExecutorSwitchRequiresReconciliation)
      else c
  }

  function Decide(policies: Policies, commandType: string, mode: ExecutionMode, e: Evidence): Decision {
    if commandType !in policies then
      Decision(commandType, 1, UnsupportedClass, Read, mode, Unsupported, None, UnsupportedCapability)
    else
      var p := policies[commandType];
      var (target, executor, reason) := Route(p, mode, e);
      Decision(p.capability, p.version, p.class_, p.operation, mode, target, executor, reason)
  }

  /** The gates both executors share, read off the policy and the evidence alone. */
  predicate Routable(policies: Policies, commandType: string, mode: ExecutionMode, e: Evidence) {
    commandType in policies &&
    var p := policies[commandType];
    && e.existing.None? && p.blocked.None? && e.accountStatus.Active? && !mode.Manual?
    && !p.class_.UnsupportedClass? && !p.class_.HumanAssisted?
    && (p.operation.Read? || !e.accountBusy)
  }

  /** When it is the worker's turn: the mode forces it, the API may still fall back to it, or it is preferred. */
  predicate WorkersTurn(p: Policy, mode: ExecutionMode, e: Evidence) {
    || (mode.BrowserOnly? && e.workerAssigned && e.workerAdvertises)
    || (mode.HybridMode? && p.preferred.Api? && !e.apiAvailable && e.attempts == 0
        && e.workerAssigned && e.workerAdvertises)
    || (mode.HybridMode? && p.preferred.Worker? && e.workerAssigned
        && ((e.workerOnline && e.workerAdvertises) || !(p.fallback == Some(Api) && e.attempts == 0 && e.apiAvailable)))
  }

  predicate ApisTurn(p: Policy, mode: ExecutionMode, e: Evidence) {
    && e.apiAvailable
    && (|| (mode.ApiOnly? && p.Allows(Api))
        || (mode.HybridMode? && p.preferred.Api?)
        || (mode.HybridMode? && p.fallback == Some(Api) && e.attempts == 0
            && !(e.workerAssigned && e.workerOnline && e.workerAdvertises)))
  }

  /**
   * For every well-formed policy table and all evidence: the decision passes its own constructor, names an
   * executor exactly for an execution target, and never changes executor once an attempt was made.
   */
  lemma DecideIsSound(policies: Policies, commandType: string, mode: ExecutionMode, e: Evidence)
    requires WellFormedPolicies(policies) && commandType != ""
    ensures var d := Decide(policies, commandType, mode, e);
            && d.WellFormed()
            && (d.executor.Some? <==> d.target.LocalApi? || d.target.WorkerJobTarget?)
            && (e.attempts > 0 && d.executor.Some? ==> e.previous == d.executor)
  {
    if commandType in policies {
      assert policies[commandType].WellFormed();
    }
  }

  /**
   * A WorkerJob route is chosen exactly when the policy check repeated at claim time passes, the shared gates
   * pass, it is the worker's turn, and no other executor has tried; likewise for the local API.
   */
  lemma DecideExactly(policies: Policies, commandType: string, mode: ExecutionMode, e: Evidence)
    requires WellFormedPolicies(policies)
    ensures Decide(policies, commandType, mode, e).target.WorkerJobTarget?
            <==> && WorkerExecutionAllowed(policies, commandType, mode)
                 && Routable(policies, commandType, mode, e)
                 && WorkersTurn(policies[commandType], mode, e)
                 && (e.attempts == 0 || e.previous == Some(Worker))
    ensures Decide(policies, commandType, mode, e).target.LocalApi?
            <==> && Routable(policies, commandType, mode, e)
                 && ApisTurn(policies[commandType], mode, e)
                 && (e.attempts == 0 || e.previous == Some(Api))
  {
    if commandType in policies {
      var p := policies[commandType];
      assert p.WellFormed();
    }
  }

  /** The mode leaves no executor the policy allows. */
  predicate NoExecutor(p: Policy, mode: ExecutionMode) {
    (mode.ApiOnly? && !p.Allows(Api)) || (mode.BrowserOnly? && !p.Allows(Worker))
  }

  /** It is an executor's turn, but another one has tried before. */
  predicate Switches(p: Policy, mode: ExecutionMode, e: Evidence) {
    && e.attempts > 0
    && (|| (p.Allows(Worker) && WorkersTurn(p, mode, e) && e.previous != Some(Worker))
        || (ApisTurn(p, mode, e) && e.previous != Some(Api)))
  }

  predicate JobNeedsOperator(job: ExistingJob) { job.status.WaitingIntervention? || job.retrySafety.ReconciliationRequired? }

  /** A person must act first: on the existing job, on the account, on the work itself, or on an executor switch. */
  predicate PersonFirst(p: Policy, mode: ExecutionMode, e: Evidence) {
    match e.existing
    case Some(job) => JobNeedsOperator(job)
    case None =>
      && p.blocked.None? && !p.class_.UnsupportedClass?
      && (|| !e.accountStatus.Active? || mode.Manual?
          || ((p.operation.Read? || !e.accountBusy) && (p.class_.HumanAssisted? || Switches(p, mode, e))))
  }

  predicate NeverPossible(p: Policy, mode: ExecutionMode, e: Evidence) {
    && e.existing.None?
    && (|| p.blocked.Some? || p.class_.UnsupportedClass?
        || (&& e.accountStatus.Active? && (p.operation.Read? || !e.accountBusy) && !p.class_.HumanAssisted?
            && NoExecutor(p, mode)))
  }

  /** The work can only wait: for the existing job, for the account, or for an executor. */
  predicate OnlyWait(p: Policy, mode: ExecutionMode, e: Evidence) {
    match e.existing
    case Some(job) => !JobNeedsOperator(job)
    case None =>
      && p.blocked.None? && !p.class_.UnsupportedClass? && e.accountStatus.Active? && !mode.Manual?
      && (|| (!p.operation.Read? && e.accountBusy)
          || (&& !p.class_.HumanAssisted? && !NoExecutor(p, mode) && !ApisTurn(p, mode, e)
              && !(p.Allows(Worker) && WorkersTurn(p, mode, e))))
  }

  /** The other three targets, each exactly when; the decision carries the policy's own capability and class. */
  lemma DecideOtherwise(policies: Policies, commandType: string, mode: ExecutionMode, e: Evidence)
    requires WellFormedPolicies(policies)
    ensures var target := Decide(policies, commandType, mode, e).target;
            if commandType !in policies then target.Unsupported?
            else
              var p := policies[commandType];
              && (target.Unsupported? <==> NeverPossible(p, mode, e))
              && (target.WaitIntervention? <==> PersonFirst(p, mode, e))
              && (target.WaitExecution? <==> OnlyWait(p, mode, e))
    ensures var d := Decide(policies, commandType, mode, e);
            commandType in policies ==>
              var p := policies[commandType];
              d == Decision(p.capability, p.version, p.class_, p.operation, mode, d.target, d.executor, d.reason)
  {
    if commandType in policies {
      assert policies[commandType].WellFormed();
    }
  }
}
