/**
 * EclipseModelUtils: the entry points that ask a Gradle build for its Eclipse
 * project models, choosing the request by the capabilities of the build's
 * Gradle version. The workspace projects and the workspace root location are
 * parameters; every call reads them afresh.
 */
module EclipseModelUtils {
  import opened Wrappers
  import opened Failures
  import opened Workspace
  import opened GradleVersions
  import opened ToolingApi
  import opened Strategies

  // What the two entry points return and record, as functions of the remote build.

  /** What queryModels returns: the build environment's failure, or the response to the request its ladder picks. */
  function QueryModelsOutcome(remote: Remote, projects: seq<Project>, root: Path): Result<seq<EclipseProject>, Failure>
  {
    match remote.buildEnvironment
    case Err(f) => Err(f)
    case Ok(v) => Respond(remote, Compose(QueryModelsStrategy(v), BuildEclipseRuntimeConfigurer(projects, root)))
  }

  function QueryModelsTrace(remote: Remote, projects: seq<Project>, root: Path): seq<Event>
  {
    [FetchedModel(BuildEnvironmentModel)] +
    match remote.buildEnvironment
    case Err(_) => []
    case Ok(v) => Trace(remote, Compose(QueryModelsStrategy(v), BuildEclipseRuntimeConfigurer(projects, root)))
  }

  /**
   * What runTasksAndQueryModels returns: as queryModels, with its own ladder,
   * and with a failure reinterpreted only on the runtime-info branch.
   */
  function RunTasksAndQueryModelsOutcome(remote: Remote, projects: seq<Project>, root: Path): Result<seq<EclipseProject>, Failure>
  {
    match remote.buildEnvironment
    case Err(f) => Err(f)
    case Ok(v) =>
      var s := RunTasksAndQueryModelsStrategy(v);
      var raw := Respond(remote, Compose(s, BuildEclipseRuntimeConfigurer(projects, root)));
      if SendsRuntimeInfo(s) then ReinterpretResult(raw) else raw
  }

  function RunTasksAndQueryModelsTrace(remote: Remote, projects: seq<Project>, root: Path): seq<Event>
  {
    [FetchedModel(BuildEnvironmentModel)] +
    match remote.buildEnvironment
    case Err(_) => []
    case Ok(v) => Trace(remote, Compose(RunTasksAndQueryModelsStrategy(v), BuildEclipseRuntimeConfigurer(projects, root)))
  }

  // The entry points and their helpers.

  method QueryModels(connection: ProjectConnection, projects: seq<Project>, root: Path)
    returns (r: Result<seq<EclipseProject>, Failure>)
    modifies connection
    ensures r == QueryModelsOutcome(connection.remote, projects, root)
    ensures connection.log == old(connection.log) + QueryModelsTrace(connection.remote, projects, root)
  {
    var environment := connection.GetBuildEnvironment();
    if environment.Err? {
      return Err(environment.error);
    }
    var gradleVersion := environment.value;
    if gradleVersion.supportsSendingReservedProjects {
      r := QueryCompositeModelWithRuntimeInfo(connection, projects, root);
    } else if gradleVersion.supportsCompositeBuilds {
      r := QueryCompositeModel(connection);
    } else {
      var model := QueryModel(connection);
      r := match model
        case Ok(p) => Ok([p])
        case Err(f) => Err(f);
    }
  }

  method RunTasksAndQueryModels(connection: ProjectConnection, projects: seq<Project>, root: Path)
    returns (r: Result<seq<EclipseProject>, Failure>)
    modifies connection
    ensures r == RunTasksAndQueryModelsOutcome(connection.remote, projects, root)
    ensures connection.log == old(connection.log) + RunTasksAndQueryModelsTrace(connection.remote, projects, root)
  {
    var environment := connection.GetBuildEnvironment();
    if environment.Err? {
      return Err(environment.error);
    }
    var gradleVersion := environment.value;
    if gradleVersion.supportsSendingReservedProjects {
      r := RunTasksAndQueryCompositeModelWithRuntimeInfo(connection, gradleVersion, projects, root);
    } else if gradleVersion.supportsSyncTasksInEclipsePluginConfig {
      r := RunTasksAndQueryCompositeModel(connection);
    } else if gradleVersion.supportsCompositeBuilds {
      r := QueryCompositeModel(connection);
    } else {
      var model := QueryModel(connection);
      r := match model
        case Ok(p) => Ok([p])
        case Err(f) => Err(f);
    }
  }

  /**
   * Phase 1 is the synchronization tasks, followed by the closed-project query
   * when substitution is supported; phase 2 is the composite query with the
   * workspace snapshot. A failure of the phased build is reinterpreted.
   */
  method RunTasksAndQueryCompositeModelWithRuntimeInfo(connection: ProjectConnection, gradleVersion: GradleVersion,
                                                       projects: seq<Project>, root: Path)
    returns (r: Result<seq<EclipseProject>, Failure>)
    modifies connection
    ensures
      var req := Compose(TasksThenCompositeQueryWithRuntimeInfo(RuntimeInfoPhaseOne(gradleVersion)),
                         BuildEclipseRuntimeConfigurer(projects, root));
      r == ReinterpretResult(Respond(connection.remote, req))
      && connection.log == old(connection.log) + Trace(connection.remote, req)
  {
    var configurer := BuildEclipseRuntimeConfigurer(projects, root);
    var runSyncTasksAction := RunSynchronizationTasks;
    var query := CompositeModelQuery(EclipseProjectModel, Some(configurer));
    if gradleVersion.supportsClosedProjectDependencySubstitution {
      var runClosedProjectTasksAction := CompositeModelQuery(RunClosedProjectBuildDependenciesModel, Some(configurer));
      var projectsLoadedAction := ActionSequence(runSyncTasksAction, runClosedProjectTasksAction);
      r := RunPhasedModelQuery(connection, projectsLoadedAction, query);
    } else {
      r := RunPhasedModelQuery(connection, runSyncTasksAction, query);
    }
    if r.Err? {
      r := Err(Reinterpret(r.error));
    }
  }

  method RunTasksAndQueryCompositeModel(connection: ProjectConnection) returns (r: Result<seq<EclipseProject>, Failure>)
    modifies connection
    ensures r == Respond(connection.remote, RunPhased(RunSynchronizationTasks, CompositeModelQuery(EclipseProjectModel, None)))
    ensures connection.log == old(connection.log) + Trace(connection.remote, RunPhased(RunSynchronizationTasks, CompositeModelQuery(EclipseProjectModel, None)))
  {
    r := RunPhasedModelQuery(connection, RunSynchronizationTasks, CompositeModelQuery(EclipseProjectModel, None));
  }

  /**
   * One phased build: `projectsLoadedAction` at projects-loaded with a
   * throwaway handler, then `query` at build-finished; the result is the value
   * captured by the build-finished handler.
   */
  method RunPhasedModelQuery(connection: ProjectConnection, projectsLoadedAction: Action, query: Action)
    returns (r: Result<seq<EclipseProject>, Failure>)
    modifies connection
    ensures r == Respond(connection.remote, RunPhased(projectsLoadedAction, query))
    ensures connection.log == old(connection.log) + PhasedTrace(projectsLoadedAction, query, connection.remote.phasedResult(projectsLoadedAction, query))
  {
    var resultHandler := new ResultHandler<seq<EclipseProject>>();
    var discarded := new ResultHandler<()>();
    var failure := connection.RunPhased(projectsLoadedAction, discarded, query, resultHandler);
    if failure.Some? {
      return Err(failure.value);
    }
    var captured := resultHandler.GetValue();
    r := Ok(captured.value);
  }

  method QueryCompositeModelWithRuntimeInfo(connection: ProjectConnection, projects: seq<Project>, root: Path)
    returns (r: Result<seq<EclipseProject>, Failure>)
    modifies connection
    ensures r == connection.remote.actionResult(CompositeModelQuery(EclipseProjectModel, Some(BuildEclipseRuntimeConfigurer(projects, root))))
    ensures connection.log == old(connection.log) + [RanAction(CompositeModelQuery(EclipseProjectModel, Some(BuildEclipseRuntimeConfigurer(projects, root))))]
  {
    var query := CompositeModelQuery(EclipseProjectModel, Some(BuildEclipseRuntimeConfigurer(projects, root)));
    r := connection.Run(query);
  }

  method QueryCompositeModel(connection: ProjectConnection) returns (r: Result<seq<EclipseProject>, Failure>)
    modifies connection
    ensures r == connection.remote.actionResult(CompositeModelQuery(EclipseProjectModel, None))
    ensures connection.log == old(connection.log) + [RanAction(CompositeModelQuery(EclipseProjectModel, None))]
  {
    r := connection.Run(CompositeModelQuery(EclipseProjectModel, None));
  }

  method QueryModel(connection: ProjectConnection) returns (r: Result<EclipseProject, Failure>)
    modifies connection
    ensures r == connection.remote.rootProject
    ensures connection.log == old(connection.log) + [FetchedModel(EclipseProjectModel)]
  {
    r := connection.GetEclipseProject();
  }

  // Properties of the two entry points.

  /** queryModels never reinterprets: whatever failure the request yields is what the caller gets. */
  lemma QueryModelsPassesFailuresThrough(remote: Remote, projects: seq<Project>, root: Path, v: GradleVersion, f: Failure)
    requires remote.buildEnvironment == Ok(v)
    requires Respond(remote, Compose(QueryModelsStrategy(v), BuildEclipseRuntimeConfigurer(projects, root))) == Err(f)
    ensures QueryModelsOutcome(remote, projects, root) == Err(f)
  {
  }

  /**
   * A duplicate-root-element failure reaching runTasksAndQueryModels becomes an
   * unsupported-configuration error exactly on the reserved-projects branch,
   * and is passed on unchanged on every other branch.
   */
  lemma DuplicateNameReinterpretedOnlyWithRuntimeInfo(remote: Remote, projects: seq<Project>, root: Path, v: GradleVersion, f: Failure)
    requires remote.buildEnvironment == Ok(v)
    requires Respond(remote, Compose(RunTasksAndQueryModelsStrategy(v), BuildEclipseRuntimeConfigurer(projects, root))) == Err(f)
    requires IsDuplicateRootElement(f)
    ensures v.supportsSendingReservedProjects ==>
      RunTasksAndQueryModelsOutcome(remote, projects, root) == Err(UnsupportedConfiguration(DuplicateProjectMessage(Diagnose(f).projectName), f))
    ensures !v.supportsSendingReservedProjects ==> RunTasksAndQueryModelsOutcome(remote, projects, root) == Err(f)
  {
    var s := RunTasksAndQueryModelsStrategy(v);
    assert SendsRuntimeInfo(s) <==> v.supportsSendingReservedProjects;
  }

  /** A failure that is not a duplicate root element reaches the caller of runTasksAndQueryModels unchanged on every branch. */
  lemma RunTasksAndQueryModelsPassesOtherFailures(remote: Remote, projects: seq<Project>, root: Path, v: GradleVersion, f: Failure)
    requires remote.buildEnvironment == Ok(v)
    requires Respond(remote, Compose(RunTasksAndQueryModelsStrategy(v), BuildEclipseRuntimeConfigurer(projects, root))) == Err(f)
    requires !IsDuplicateRootElement(f)
    ensures RunTasksAndQueryModelsOutcome(remote, projects, root) == Err(f)
  {
  }

  /** Without composite-build support (and, for queryModels, without reserved-projects support) the result is the root model alone. */
  lemma QueryModelsRootOnly(remote: Remote, projects: seq<Project>, root: Path, v: GradleVersion, p: EclipseProject)
    requires remote.buildEnvironment == Ok(v) && remote.rootProject == Ok(p)
    requires !v.supportsSendingReservedProjects && !v.supportsCompositeBuilds
    ensures QueryModelsOutcome(remote, projects, root) == Ok([p])
    ensures QueryModelsTrace(remote, projects, root) == [FetchedModel(BuildEnvironmentModel), FetchedModel(EclipseProjectModel)]
  {
  }

  /** With none of reserved projects, sync tasks and composite builds, runTasksAndQueryModels also returns the root model alone. */
  lemma RunTasksAndQueryModelsRootOnly(remote: Remote, projects: seq<Project>, root: Path, v: GradleVersion, p: EclipseProject)
    requires remote.buildEnvironment == Ok(v) && remote.rootProject == Ok(p)
    requires !v.supportsSendingReservedProjects && !v.supportsSyncTasksInEclipsePluginConfig && !v.supportsCompositeBuilds
    ensures RunTasksAndQueryModelsOutcome(remote, projects, root) == Ok([p])
    ensures RunTasksAndQueryModelsTrace(remote, projects, root) == [FetchedModel(BuildEnvironmentModel), FetchedModel(EclipseProjectModel)]
  {
  }

  /**
   * Whenever runTasksAndQueryModels runs the synchronization tasks, its trace is
   * the build-environment fetch followed by the phases in order, phase 1 at
   * projects-loaded before phase 2 at build-finished, and a completed build
   * yields exactly phase 2's models.
   */
  lemma RunTasksPhaseOrder(remote: Remote, projects: seq<Project>, root: Path, v: GradleVersion)
    requires remote.buildEnvironment == Ok(v)
    requires v.supportsSendingReservedProjects || v.supportsSyncTasksInEclipsePluginConfig
    ensures
      var req := Compose(RunTasksAndQueryModelsStrategy(v), BuildEclipseRuntimeConfigurer(projects, root));
      var o := remote.phasedResult(req.projectsLoaded, req.buildFinished);
      req.RunPhased?
      && RunTasksAndQueryModelsTrace(remote, projects, root)
           <= [FetchedModel(BuildEnvironmentModel)] + PhaseEvents(req.projectsLoaded, req.buildFinished)
      && (o.Completed? ==>
            RunTasksAndQueryModelsOutcome(remote, projects, root) == Ok(o.models)
            && RunTasksAndQueryModelsTrace(remote, projects, root)
               == [FetchedModel(BuildEnvironmentModel)] + PhaseEvents(req.projectsLoaded, req.buildFinished))
  {
    var req := Compose(RunTasksAndQueryModelsStrategy(v), BuildEclipseRuntimeConfigurer(projects, root));
    var t := PhasedTrace(req.projectsLoaded, req.buildFinished, remote.phasedResult(req.projectsLoaded, req.buildFinished));
    assert RunTasksAndQueryModelsTrace(remote, projects, root) == [FetchedModel(BuildEnvironmentModel)] + t;
  }

  /**
   * A version with composite builds, reserved projects and synchronization
   * tasks but without closed-project substitution: phase 1 is the
   * synchronization tasks alone, phase 2 the composite query with the
   * workspace snapshot, and a completed build returns phase 2's models.
   */
  lemma TasksThenRuntimeInfoScenario(remote: Remote, projects: seq<Project>, root: Path, models: seq<EclipseProject>)
    requires remote.buildEnvironment == Ok(GradleVersion(true, true, true, false))
    requires
      var query := CompositeModelQuery(EclipseProjectModel, Some(BuildEclipseRuntimeConfigurer(projects, root)));
      remote.phasedResult(RunSynchronizationTasks, query) == Completed(models)
    ensures RunTasksAndQueryModelsOutcome(remote, projects, root) == Ok(models)
    ensures
      var query := CompositeModelQuery(EclipseProjectModel, Some(BuildEclipseRuntimeConfigurer(projects, root)));
      RunTasksAndQueryModelsTrace(remote, projects, root)
        == [FetchedModel(BuildEnvironmentModel), RanPhase(ProjectsLoaded, RunSynchronizationTasks), RanPhase(BuildFinished, query)]
  {
  }
}
