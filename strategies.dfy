/**
 * The two priority ladders of EclipseModelUtils over the capabilities of the
 * Gradle version, the strategy each picks, and the request each strategy
 * sends over the connection.
 */
module Strategies {
  import opened Wrappers
  import opened GradleVersions
  import opened Workspace
  import opened ToolingApi

  /** Phase 1 of the tasks-then-runtime-info query. */
  datatype PhaseOne = SyncTasks | SyncTasksThenClosedProjectQuery

  datatype Strategy =
    /** The root project's model alone. */
    | SingleModelQuery
    /** A composite query over all included builds. */
    | CompositeQuery
    /** A composite query with the workspace snapshot attached. */
    | CompositeQueryWithRuntimeInfo
    /** Synchronization tasks at projects-loaded, then a composite query at build-finished. */
    | TasksThenCompositeQuery
    /** `phaseOne` at projects-loaded, then a composite query with the workspace snapshot at build-finished. */
    | TasksThenCompositeQueryWithRuntimeInfo(phaseOne: PhaseOne)

  predicate RunsTasks(s: Strategy)
  {
    s.TasksThenCompositeQuery? || s.TasksThenCompositeQueryWithRuntimeInfo?
  }

  predicate SendsRuntimeInfo(s: Strategy)
  {
    s.CompositeQueryWithRuntimeInfo? || s.TasksThenCompositeQueryWithRuntimeInfo?
  }

  /** The ladder of queryModels: reserved-projects support wins without looking at composite-build support. */
  function QueryModelsStrategy(v: GradleVersion): (s: Strategy)
    ensures s == CompositeQueryWithRuntimeInfo <==> v.supportsSendingReservedProjects
    ensures s == CompositeQuery <==> !v.supportsSendingReservedProjects && v.supportsCompositeBuilds
    ensures s == SingleModelQuery <==> !v.supportsSendingReservedProjects && !v.supportsCompositeBuilds
    ensures !RunsTasks(s)
  {
    if v.supportsSendingReservedProjects then CompositeQueryWithRuntimeInfo
    else if v.supportsCompositeBuilds then CompositeQuery
    else SingleModelQuery
  }

  /** Phase 1 of the runtime-info branch: the closed-project query joins the synchronization tasks when substitution is supported. */
  function RuntimeInfoPhaseOne(v: GradleVersion): (p: PhaseOne)
    ensures p == SyncTasksThenClosedProjectQuery <==> v.supportsClosedProjectDependencySubstitution
  {
    if v.supportsClosedProjectDependencySubstitution then SyncTasksThenClosedProjectQuery else SyncTasks
  }

  /** The ladder of runTasksAndQueryModels: reserved projects, then sync tasks, then composite builds, then the root model. */
  function RunTasksAndQueryModelsStrategy(v: GradleVersion): (s: Strategy)
    ensures s.TasksThenCompositeQueryWithRuntimeInfo? <==> v.supportsSendingReservedProjects
    ensures s.TasksThenCompositeQueryWithRuntimeInfo? ==>
      (s.phaseOne == SyncTasksThenClosedProjectQuery <==> v.supportsClosedProjectDependencySubstitution)
    ensures s == TasksThenCompositeQuery <==>
      !v.supportsSendingReservedProjects && v.supportsSyncTasksInEclipsePluginConfig
    ensures s == CompositeQuery <==>
      !v.supportsSendingReservedProjects && !v.supportsSyncTasksInEclipsePluginConfig && v.supportsCompositeBuilds
    ensures s == SingleModelQuery <==>
      !v.supportsSendingReservedProjects && !v.supportsSyncTasksInEclipsePluginConfig && !v.supportsCompositeBuilds
    ensures s != CompositeQueryWithRuntimeInfo
  {
    if v.supportsSendingReservedProjects then TasksThenCompositeQueryWithRuntimeInfo(RuntimeInfoPhaseOne(v))
    else if v.supportsSyncTasksInEclipsePluginConfig then TasksThenCompositeQuery
    else if v.supportsCompositeBuilds then CompositeQuery
    else SingleModelQuery
  }

  /** The strategy for a caller that does or does not want the synchronization tasks run. */
  function SelectStrategy(v: GradleVersion, runTasks: bool): (s: Strategy)
    ensures !runTasks ==> !RunsTasks(s)
    ensures runTasks ==> s != CompositeQueryWithRuntimeInfo
  {
    if runTasks then RunTasksAndQueryModelsStrategy(v) else QueryModelsStrategy(v)
  }

  // An independent reading of the ladders: each strategy has a rank and the
  // flag the source tests before using it, and the ladder picks the best one.

  /** The rank of a strategy: the more it asks of Gradle, the higher. */
  function Priority(s: Strategy): nat
  {
    match s
    case SingleModelQuery => 0
    case CompositeQuery => 1
    case CompositeQueryWithRuntimeInfo => 2
    case TasksThenCompositeQuery => 3
    case TasksThenCompositeQueryWithRuntimeInfo(_) => 4
  }

  /** The capability the source checks before it uses `s` with version `v`. */
  predicate Usable(s: Strategy, v: GradleVersion)
  {
    match s
    case SingleModelQuery => true
    case CompositeQuery => v.supportsCompositeBuilds
    case CompositeQueryWithRuntimeInfo => v.supportsSendingReservedProjects
    case TasksThenCompositeQuery => v.supportsSyncTasksInEclipsePluginConfig
    case TasksThenCompositeQueryWithRuntimeInfo(p) =>
      v.supportsSendingReservedProjects && (p == SyncTasksThenClosedProjectQuery <==> v.supportsClosedProjectDependencySubstitution)
  }

  /** The strategies each entry point may use: runTasksAndQueryModels has no plain runtime-info query, queryModels runs no tasks. */
  predicate Offered(s: Strategy, runTasks: bool)
  {
    if runTasks then s != CompositeQueryWithRuntimeInfo else !RunsTasks(s)
  }

  /** The selected strategy is offered, usable, and outranks every other offered, usable strategy. */
  lemma SelectionIsBest(v: GradleVersion, runTasks: bool, s: Strategy)
    requires Offered(s, runTasks) && Usable(s, v)
    ensures Offered(SelectStrategy(v, runTasks), runTasks) && Usable(SelectStrategy(v, runTasks), v)
    ensures s == SelectStrategy(v, runTasks) || Priority(s) < Priority(SelectStrategy(v, runTasks))
  {
  }

  /** The best offered, usable strategy is the one the ladder selects: the ladder is total and deterministic. */
  lemma BestIsSelection(v: GradleVersion, runTasks: bool, s: Strategy)
    requires Offered(s, runTasks) && Usable(s, v)
    requires forall t :: Offered(t, runTasks) && Usable(t, v) ==> Priority(t) <= Priority(s)
    ensures s == SelectStrategy(v, runTasks)
  {
    var sel := SelectStrategy(v, runTasks);
    SelectionIsBest(v, runTasks, s);
    assert Priority(sel) <= Priority(s);
  }

  /** The request a strategy sends, with the runtime configurer `cfg` attached where it sends runtime information. */
  function Compose(s: Strategy, cfg: EclipseRuntimeConfigurer): (r: Request)
    ensures r.FetchRootModel? <==> s == SingleModelQuery
    ensures r.RunAction? <==> s == CompositeQuery || s == CompositeQueryWithRuntimeInfo
    ensures r.RunPhased? <==> RunsTasks(s)
    ensures r.RunAction? ==> r.query == CompositeModelQuery(EclipseProjectModel, if SendsRuntimeInfo(s) then Some(cfg) else None)
    ensures r.RunPhased? ==> r.buildFinished == CompositeModelQuery(EclipseProjectModel, if SendsRuntimeInfo(s) then Some(cfg) else None)
    ensures r.RunPhased? && s == TasksThenCompositeQueryWithRuntimeInfo(SyncTasksThenClosedProjectQuery) ==>
      r.projectsLoaded == ActionSequence(RunSynchronizationTasks, CompositeModelQuery(RunClosedProjectBuildDependenciesModel, Some(cfg)))
    ensures r.RunPhased? && s != TasksThenCompositeQueryWithRuntimeInfo(SyncTasksThenClosedProjectQuery) ==>
      r.projectsLoaded == RunSynchronizationTasks
  {
    match s
    case SingleModelQuery => FetchRootModel
    case CompositeQuery => RunAction(CompositeModelQuery(EclipseProjectModel, None))
    case CompositeQueryWithRuntimeInfo => RunAction(CompositeModelQuery(EclipseProjectModel, Some(cfg)))
    case TasksThenCompositeQuery =>
      RunPhased(RunSynchronizationTasks, CompositeModelQuery(EclipseProjectModel, None))
    case TasksThenCompositeQueryWithRuntimeInfo(SyncTasks) =>
      RunPhased(RunSynchronizationTasks, CompositeModelQuery(EclipseProjectModel, Some(cfg)))
    case TasksThenCompositeQueryWithRuntimeInfo(SyncTasksThenClosedProjectQuery) =>
      RunPhased(ActionSequence(RunSynchronizationTasks, CompositeModelQuery(RunClosedProjectBuildDependenciesModel, Some(cfg))),
                CompositeModelQuery(EclipseProjectModel, Some(cfg)))
  }

  /** Which configurer, if any, a request carries in any of its actions. */
  function AttachedRuntime(a: Action): Option<EclipseRuntimeConfigurer>
  {
    match a
    case RunSynchronizationTasks => None
    case CompositeModelQuery(_, rt) => rt
    case ActionSequence(a1, a2) => if AttachedRuntime(a1).Some? then AttachedRuntime(a1) else AttachedRuntime(a2)
  }

  predicate CarriesRuntime(r: Request, cfg: EclipseRuntimeConfigurer)
  {
    match r
    case FetchRootModel => false
    case RunAction(a) => AttachedRuntime(a) == Some(cfg)
    case RunPhased(a1, a2) => AttachedRuntime(a1) == Some(cfg) || AttachedRuntime(a2) == Some(cfg)
  }

  /** The workspace snapshot travels with the request exactly for the runtime-info strategies. */
  lemma RuntimeInfoSentExactly(s: Strategy, cfg: EclipseRuntimeConfigurer)
    ensures CarriesRuntime(Compose(s, cfg), cfg) <==> SendsRuntimeInfo(s)
  {
  }

  /**
   * In the runtime-info phased branch, phase 1 is the sequence of the
   * synchronization tasks and the closed-project query exactly when
   * closed-project substitution is supported, else the tasks alone; phase 2 is
   * always the composite query with runtime information.
   */
  lemma RuntimeInfoPhases(v: GradleVersion, cfg: EclipseRuntimeConfigurer)
    requires v.supportsSendingReservedProjects
    ensures
      var r := Compose(RunTasksAndQueryModelsStrategy(v), cfg);
      r.RunPhased?
      && r.buildFinished == CompositeModelQuery(EclipseProjectModel, Some(cfg))
      && (r.projectsLoaded == ActionSequence(RunSynchronizationTasks, CompositeModelQuery(RunClosedProjectBuildDependenciesModel, Some(cfg)))
          <==> v.supportsClosedProjectDependencySubstitution)
      && (r.projectsLoaded == RunSynchronizationTasks <==> !v.supportsClosedProjectDependencySubstitution)
  {
  }
}
