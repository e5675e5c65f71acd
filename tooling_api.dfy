/**
 * The part of the Gradle Tooling API the connector drives, as an abstract
 * connection: what the remote build answers is given up front (a `Remote`),
 * and the connection records, in order, every request it serves.
 */
module ToolingApi {
  import opened Wrappers
  import opened Failures
  import opened Workspace
  import opened GradleVersions

  /** The model returned for one Gradle project; its contents are opaque to the connector. */
  datatype EclipseProject = EclipseProject(name: string)

  /** The model types the connector asks for. */
  datatype ModelType = BuildEnvironmentModel | EclipseProjectModel | RunClosedProjectBuildDependenciesModel

  /** The build actions the connector composes. */
  datatype Action =
    /** TellGradleToRunSynchronizationTasks: schedule the synchronization tasks of the eclipse plugin configuration. */
    | RunSynchronizationTasks
    /** CompositeModelQuery: query a model for every project of every included build, optionally with runtime information. */
    | CompositeModelQuery(model: ModelType, runtime: Option<EclipseRuntimeConfigurer>)
    /** BuildActionSequence: run two actions one after the other. */
    | ActionSequence(first: Action, second: Action)

  /** One round trip over the connection. */
  datatype Request =
    /** connection.getModel(EclipseProject.class): the root project's model alone. */
    | FetchRootModel
    /** connection.action(query).run() */
    | RunAction(query: Action)
    /** connection.action().projectsLoaded(..).buildFinished(..).build().forTasks().run() */
    | RunPhased(projectsLoaded: Action, buildFinished: Action)

  datatype Phase = ProjectsLoaded | BuildFinished

  /** What the connection records about the requests it serves. */
  datatype Event =
    | FetchedModel(model: ModelType)
    | RanAction(action: Action)
    | RanPhase(phase: Phase, action: Action)

  /** How a phased build ends: with the models of the build-finished phase, or with a failure after `phasesRun` phases started. */
  datatype PhasedOutcome = Completed(models: seq<EclipseProject>) | Failed(failure: Failure, phasesRun: nat)

  /** The remote build's answers, one per kind of request. */
  datatype Remote = Remote(
    buildEnvironment: Result<GradleVersion, Failure>,
    rootProject: Result<EclipseProject, Failure>,
    actionResult: Action -> Result<seq<EclipseProject>, Failure>,
    phasedResult: (Action, Action) -> PhasedOutcome)

  /** The phase events of a phased build, phase 1 strictly before phase 2. */
  function PhaseEvents(projectsLoaded: Action, buildFinished: Action): seq<Event>
  {
    [RanPhase(ProjectsLoaded, projectsLoaded), RanPhase(BuildFinished, buildFinished)]
  }

  /** The events a phased build records: both phases when it completes, the phases that started when it fails. */
  function PhasedTrace(projectsLoaded: Action, buildFinished: Action, o: PhasedOutcome): (t: seq<Event>)
    ensures t <= PhaseEvents(projectsLoaded, buildFinished)
    ensures o.Completed? ==> t == PhaseEvents(projectsLoaded, buildFinished)
  {
    match o
    case Completed(_) => PhaseEvents(projectsLoaded, buildFinished)
    case Failed(_, n) => PhaseEvents(projectsLoaded, buildFinished)[..if n < 2 then n else 2]
  }

  /** The collection of project models a request yields, or its failure. */
  function Respond(remote: Remote, req: Request): Result<seq<EclipseProject>, Failure>
  {
    match req
    case FetchRootModel =>
      (match remote.rootProject
       case Ok(p) => Ok([p])
       case Err(f) => Err(f))
    case RunAction(a) => remote.actionResult(a)
    case RunPhased(a1, a2) =>
      (match remote.phasedResult(a1, a2)
       case Completed(ms) => Ok(ms)
       case Failed(f, _) => Err(f))
  }

  /** The events a request records on the connection. */
  function Trace(remote: Remote, req: Request): seq<Event>
  {
    match req
    case FetchRootModel => [FetchedModel(EclipseProjectModel)]
    case RunAction(a) => [RanAction(a)]
    case RunPhased(a1, a2) => PhasedTrace(a1, a2, remote.phasedResult(a1, a2))
  }

  /** SimpleIntermediateResultHandler: holds the value delivered to it, if any. */
  class ResultHandler<T> {
    var value: Option<T>

    constructor ()
      ensures value == None
    {
      value := None;
    }

    /** Called by the Tooling API when the phase the handler belongs to has completed. */
    method OnComplete(result: T)
      modifies this
      ensures value == Some(result)
    {
      value := Some(result);
    }

    method GetValue() returns (r: Option<T>)
      ensures r == value
    {
      r := value;
    }
  }

  /** ProjectConnection over a remote build whose answers are `remote`. */
  class ProjectConnection {
    const remote: Remote
    var log: seq<Event>

    constructor (remote: Remote)
      ensures this.remote == remote && log == []
    {
      this.remote := remote;
      log := [];
    }

    /** getModel(BuildEnvironment.class), read as the capabilities of the reported Gradle version. */
    method GetBuildEnvironment() returns (r: Result<GradleVersion, Failure>)
      modifies this
      ensures r == remote.buildEnvironment
      ensures log == old(log) + [FetchedModel(BuildEnvironmentModel)]
    {
      r := remote.buildEnvironment;
      log := log + [FetchedModel(BuildEnvironmentModel)];
    }

    /** getModel(EclipseProject.class) */
    method GetEclipseProject() returns (r: Result<EclipseProject, Failure>)
      modifies this
      ensures r == remote.rootProject
      ensures log == old(log) + [FetchedModel(EclipseProjectModel)]
    {
      r := remote.rootProject;
      log := log + [FetchedModel(EclipseProjectModel)];
    }

    /** action(query).run() */
    method Run(query: Action) returns (r: Result<seq<EclipseProject>, Failure>)
      modifies this
      ensures r == remote.actionResult(query)
      ensures log == old(log) + [RanAction(query)]
    {
      r := remote.actionResult(query);
      log := log + [RanAction(query)];
    }

    /**
     * action().projectsLoaded(projectsLoaded, phaseOneHandler).buildFinished(buildFinished, resultHandler).build().forTasks().run():
     * phase 1 runs when the projects are loaded and delivers to its own handler,
     * then phase 2 runs when the build has finished and delivers to resultHandler.
     * A failure is returned instead of thrown; no handler receives anything then.
     */
    method RunPhased(projectsLoaded: Action, phaseOneHandler: ResultHandler<()>,
                     buildFinished: Action, resultHandler: ResultHandler<seq<EclipseProject>>)
      returns (failure: Option<Failure>)
      modifies this, phaseOneHandler, resultHandler
      ensures log == old(log) + PhasedTrace(projectsLoaded, buildFinished, remote.phasedResult(projectsLoaded, buildFinished))
      ensures remote.phasedResult(projectsLoaded, buildFinished).Completed? ==>
        failure == None && phaseOneHandler.value == Some(())
        && resultHandler.value == Some(remote.phasedResult(projectsLoaded, buildFinished).models)
      ensures remote.phasedResult(projectsLoaded, buildFinished).Failed? ==>
        failure == Some(remote.phasedResult(projectsLoaded, buildFinished).failure)
        && phaseOneHandler.value == old(phaseOneHandler.value) && resultHandler.value == old(resultHandler.value)
    {
      match remote.phasedResult(projectsLoaded, buildFinished)
      case Completed(models) =>
        log := log + [RanPhase(ProjectsLoaded, projectsLoaded)];
        phaseOneHandler.OnComplete(());
        log := log + [RanPhase(BuildFinished, buildFinished)];
        resultHandler.OnComplete(models);
        failure := None;
      case Failed(f, n) =>
        log := log + PhasedTrace(projectsLoaded, buildFinished, Failed(f, n));
        failure := Some(f);
    }
  }
}
