# Buildship's Eclipse model query engine, in Dafny

This project models `EclipseModelUtils`, the part of Buildship that asks a Gradle build for its `EclipseProject` models through the Gradle Tooling API. It covers the following behaviour:

- **Strategy selection.** The connector reads the build environment, takes the capabilities of the reported Gradle version, and walks one of two priority ladders. `queryModels` picks between:
  - a composite query with workspace runtime information;
  - a plain composite query;
  - the root model alone.

  `runTasksAndQueryModels` picks between:
  - a phased build that runs the synchronization tasks and then queries with runtime information;
  - the same phased build without runtime information;
  - a plain composite query;
  - the root model alone.
- **Phased execution.** A phased build registers phase 1 at projects-loaded with a throwaway result handler. It registers the model query at build-finished with the handler whose captured value it returns.
- **Failure reinterpretation.** On the tasks-then-runtime-info branch, a `BuildActionFailureException` caused by an `IllegalArgumentException` whose message starts with `"Duplicate root element "` becomes an `UnsupportedConfigurationException`. Its message is "A project with the name X already exists." and its cause is the original failure. Every other failure passes through unchanged.
- **Workspace snapshot.** The runtime information is a snapshot of the Eclipse workspace: the root location, plus one entry per workspace project, in order, copying its name, location and open flag.

Modules:

- `Wrappers`: `Option` and `Result`.
- `GradleVersions`: the four capability answers of a Gradle version, as a record of booleans.
- `Failures`: the failures crossing the boundary; `Diagnose`, `Reinterpret` and their lemmas.
- `Workspace`: the workspace snapshot (`BuildEclipseRuntimeConfigurer`) and its lemmas.
- `ToolingApi`: the abstract connection.
  - A `Remote` value gives the build's answer to each kind of request.
  - `ProjectConnection` is a class whose `log` records, in order, the requests it serves.
  - `ResultHandler` is the intermediate result handler, a class whose `value` field the connection writes and the caller reads.
- `Strategies`: the two ladders as functions, the request each strategy composes, and an independent ranking of the strategies. Lemmas show that the ladders pick the best strategy under that ranking.
- `EclipseModelUtils`: the entry points and their helpers as methods on a `ProjectConnection`. Each is proved against a function giving its result and its trace. Lemmas relate those functions to the ladders and to the reinterpretation.

Two behaviours of the ladders are worth stating, and the model follows them:

- `queryModels` picks the runtime-info query on reserved-projects support alone, whatever composite-build support says.
- `runTasksAndQueryModels` always takes the phased runtime-info branch when reserved projects are supported, whatever sync-task support says.

The duplicate-name check inspects the failure's immediate cause, not the root of its cause chain. Phase 1 of the closed-project branch is a sequence of two actions, run one after the other.

## Model

| member | source | states |
|---|---|---|
| `Strategies.QueryModelsStrategy` | org.eclipse.buildship.core/src/main/java/org/eclipse/buildship/core/internal/workspace/EclipseModelUtils.java:46-52 | the composite+runtime-info query is chosen iff reserved projects are supported, whatever the composite flag; otherwise the composite query iff composite builds are supported; otherwise the root model; never a task-running strategy |
| `Strategies.RunTasksAndQueryModelsStrategy` | org.eclipse.buildship.core/src/main/java/org/eclipse/buildship/core/internal/workspace/EclipseModelUtils.java:58-66 | the phased runtime-info branch iff reserved projects are supported; else tasks-then-composite iff sync tasks are supported; else composite query iff composite builds; else the root model; never the plain runtime-info query |
| `Strategies.RuntimeInfoPhaseOne` | org.eclipse.buildship.core/src/main/java/org/eclipse/buildship/core/internal/workspace/EclipseModelUtils.java:81-88 | phase 1 includes the closed-project query iff closed-project dependency substitution is supported |
| `Strategies.SelectStrategy` | org.eclipse.buildship.core/src/main/java/org/eclipse/buildship/core/internal/workspace/EclipseModelUtils.java:43-66 | a caller that does not run tasks never gets a task-running strategy; one that does never gets the plain runtime-info query |
| `Strategies.SelectionIsBest` | org.eclipse.buildship.core/src/main/java/org/eclipse/buildship/core/internal/workspace/EclipseModelUtils.java:43-66 | the selected strategy is offered by its entry point, its gating capability holds, and it outranks every other such strategy |
| `Strategies.BestIsSelection` | org.eclipse.buildship.core/src/main/java/org/eclipse/buildship/core/internal/workspace/EclipseModelUtils.java:43-66 | conversely, a best-ranked offered and usable strategy is the selected one, so selection is total and deterministic |
| `Strategies.Compose` | org.eclipse.buildship.core/src/main/java/org/eclipse/buildship/core/internal/workspace/EclipseModelUtils.java:77-126 | root model only for the single query; one action for the composite queries; a phased build exactly for the task strategies, with the composite EclipseProject query as phase 2 (with runtime info iff the strategy sends it) and phase 1 the sequence (sync tasks, closed-project query) only for that phase-1 choice, else the sync tasks alone |
| `Strategies.RuntimeInfoSentExactly` | org.eclipse.buildship.core/src/main/java/org/eclipse/buildship/core/internal/workspace/EclipseModelUtils.java:77-117 | the workspace snapshot is attached to the request exactly for the runtime-info strategies |
| `Strategies.RuntimeInfoPhases` | org.eclipse.buildship.core/src/main/java/org/eclipse/buildship/core/internal/workspace/EclipseModelUtils.java:80-89 | with reserved-projects support, phase 1 is (sync tasks, closed-project query) iff substitution is supported and the sync tasks alone otherwise; phase 2 is always the composite query with runtime info |
| `Failures.Diagnose` | org.eclipse.buildship.core/src/main/java/org/eclipse/buildship/core/internal/workspace/EclipseModelUtils.java:93-95 | a duplicate name is found iff the failure is a build action failure caused by an IllegalArgumentException whose message starts with the marker; the marker followed by the name gives back the message; otherwise the failure itself is kept |
| `Failures.DuplicateProjectMessage` | org.eclipse.buildship.core/src/main/java/org/eclipse/buildship/core/internal/workspace/EclipseModelUtils.java:96 | the message is the fixed head, the project name, then the fixed tail, so the name sits at a known position |
| `Failures.Reinterpret` | org.eclipse.buildship.core/src/main/java/org/eclipse/buildship/core/internal/workspace/EclipseModelUtils.java:90-100 | a duplicate-root-element failure becomes an unsupported-configuration error that keeps the original as its cause and whose message is the duplicate-project message for the name after the marker; every other failure is returned unchanged |
| `Failures.ReinterpretResult` | org.eclipse.buildship.core/src/main/java/org/eclipse/buildship/core/internal/workspace/EclipseModelUtils.java:79-100 | the call succeeds iff the wrapped call did, with the same models; only a duplicate-root-element failure changes, into the duplicate-name error keeping the original as cause; every other failure is rethrown unchanged |
| `Failures.ReinterpretDuplicateName` | org.eclipse.buildship.core/src/main/java/org/eclipse/buildship/core/internal/workspace/EclipseModelUtils.java:93-97 | for the cause message "Duplicate root element " + name, the result is exactly the error "A project with the name name already exists." with the original failure as its cause |
| `Failures.DuplicateProjectMessageRoundTrip` | org.eclipse.buildship.core/src/main/java/org/eclipse/buildship/core/internal/workspace/EclipseModelUtils.java:95-96 | the project name can be read back from the formatted message |
| `Failures.DuplicateProjectMessageInjective` | org.eclipse.buildship.core/src/main/java/org/eclipse/buildship/core/internal/workspace/EclipseModelUtils.java:96 | different names give different messages: formatting loses no information |
| `Workspace.DescribeProjects` | org.eclipse.buildship.core/src/main/java/org/eclipse/buildship/core/internal/workspace/EclipseModelUtils.java:71-72 | one entry per workspace project, in order, each copying name, location and open flag |
| `Workspace.BuildEclipseRuntimeConfigurer` | org.eclipse.buildship.core/src/main/java/org/eclipse/buildship/core/internal/workspace/EclipseModelUtils.java:69-74 | the snapshot root is the workspace root location; the snapshot holds one entry per project, in order, with the project's name, location and open flag |
| `Workspace.DescribeProjectsAppend` | org.eclipse.buildship.core/src/main/java/org/eclipse/buildship/core/internal/workspace/EclipseModelUtils.java:71-72 | the snapshot of a concatenation is the concatenation of the snapshots (order is preserved) |
| `Workspace.DescribeProjectsInjective` | org.eclipse.buildship.core/src/main/java/org/eclipse/buildship/core/internal/workspace/EclipseModelUtils.java:71-72 | two project lists with the same snapshot are equal |
| `Workspace.DescribeProjectsMembership` | org.eclipse.buildship.core/src/main/java/org/eclipse/buildship/core/internal/workspace/EclipseModelUtils.java:71-72 | a project is in the workspace iff its description is in the snapshot: no entry added or dropped |
| `Workspace.TwoProjectSnapshot` | org.eclipse.buildship.core/src/main/java/org/eclipse/buildship/core/internal/workspace/EclipseModelUtils.java:69-74 | an open project "a" at /x and a closed project "b" at /y give exactly those two entries in that order |
| `ToolingApi.PhasedTrace` | org.eclipse.buildship.core/src/main/java/org/eclipse/buildship/core/internal/workspace/EclipseModelUtils.java:110 | the phases a phased build records are a prefix of (projects-loaded action, build-finished action), and both when it completes |
| `ToolingApi.ResultHandler.constructor` | org.eclipse.buildship.core/src/main/java/org/eclipse/buildship/core/internal/workspace/EclipseModelUtils.java:109 | a new handler holds no value |
| `ToolingApi.ResultHandler.OnComplete` | org.eclipse.buildship.core/src/main/java/org/eclipse/buildship/core/internal/workspace/EclipseModelUtils.java:110 | the handler holds the delivered value |
| `ToolingApi.ResultHandler.GetValue` | org.eclipse.buildship.core/src/main/java/org/eclipse/buildship/core/internal/workspace/EclipseModelUtils.java:111 | returns the value the handler holds |
| `ToolingApi.ProjectConnection.GetBuildEnvironment` | org.eclipse.buildship.core/src/main/java/org/eclipse/buildship/core/internal/workspace/EclipseModelUtils.java:44-45 | returns the remote's build environment (its version's capabilities) or failure and records the fetch |
| `ToolingApi.ProjectConnection.GetEclipseProject` | org.eclipse.buildship.core/src/main/java/org/eclipse/buildship/core/internal/workspace/EclipseModelUtils.java:125 | returns the root project's model or failure and records the fetch |
| `ToolingApi.ProjectConnection.Run` | org.eclipse.buildship.core/src/main/java/org/eclipse/buildship/core/internal/workspace/EclipseModelUtils.java:116 | returns the remote's answer to the action and records it |
| `ToolingApi.ProjectConnection.RunPhased` | org.eclipse.buildship.core/src/main/java/org/eclipse/buildship/core/internal/workspace/EclipseModelUtils.java:110 | records phase 1 before phase 2; on completion phase 1's handler gets the void value and the result handler gets the models; on failure the failure is returned and neither handler changes |
| `EclipseModelUtils.QueryModels` | org.eclipse.buildship.core/src/main/java/org/eclipse/buildship/core/internal/workspace/EclipseModelUtils.java:43-53 | the result and the recorded requests are the build environment fetch followed by the response to the request that QueryModelsStrategy picks, with no reinterpretation |
| `EclipseModelUtils.RunTasksAndQueryModels` | org.eclipse.buildship.core/src/main/java/org/eclipse/buildship/core/internal/workspace/EclipseModelUtils.java:55-67 | as QueryModels with RunTasksAndQueryModelsStrategy, with a failure reinterpreted only on the runtime-info branch |
| `EclipseModelUtils.RunTasksAndQueryCompositeModelWithRuntimeInfo` | org.eclipse.buildship.core/src/main/java/org/eclipse/buildship/core/internal/workspace/EclipseModelUtils.java:77-101 | sends the phased request composed for the version's phase-1 choice with the workspace snapshot, and returns its response with any failure reinterpreted |
| `EclipseModelUtils.RunTasksAndQueryCompositeModel` | org.eclipse.buildship.core/src/main/java/org/eclipse/buildship/core/internal/workspace/EclipseModelUtils.java:103-105 | the phased build of the sync tasks then the composite query without runtime info |
| `EclipseModelUtils.RunPhasedModelQuery` | org.eclipse.buildship.core/src/main/java/org/eclipse/buildship/core/internal/workspace/EclipseModelUtils.java:107-112 | returns the value phase 2's handler captured (or the build's failure), and records phase 1 before phase 2 |
| `EclipseModelUtils.QueryCompositeModelWithRuntimeInfo` | org.eclipse.buildship.core/src/main/java/org/eclipse/buildship/core/internal/workspace/EclipseModelUtils.java:114-117 | runs the composite query with the freshly built workspace snapshot, no reinterpretation |
| `EclipseModelUtils.QueryCompositeModel` | org.eclipse.buildship.core/src/main/java/org/eclipse/buildship/core/internal/workspace/EclipseModelUtils.java:119-122 | runs the composite query without runtime info |
| `EclipseModelUtils.QueryModel` | org.eclipse.buildship.core/src/main/java/org/eclipse/buildship/core/internal/workspace/EclipseModelUtils.java:124-126 | fetches the root project's model |
| `EclipseModelUtils.QueryModelsPassesFailuresThrough` | org.eclipse.buildship.core/src/main/java/org/eclipse/buildship/core/internal/workspace/EclipseModelUtils.java:43-126 | any failure on every queryModels branch (lines 43-53 and the helpers at 114-126), a duplicate root element included, reaches the caller unchanged |
| `EclipseModelUtils.DuplicateNameReinterpretedOnlyWithRuntimeInfo` | org.eclipse.buildship.core/src/main/java/org/eclipse/buildship/core/internal/workspace/EclipseModelUtils.java:58-99 | in runTasksAndQueryModels a duplicate-root-element failure becomes the duplicate-name error with reserved-projects support, and is returned unchanged without it |
| `EclipseModelUtils.RunTasksAndQueryModelsPassesOtherFailures` | org.eclipse.buildship.core/src/main/java/org/eclipse/buildship/core/internal/workspace/EclipseModelUtils.java:99 | every other failure reaches the caller of runTasksAndQueryModels unchanged on every branch |
| `EclipseModelUtils.QueryModelsRootOnly` | org.eclipse.buildship.core/src/main/java/org/eclipse/buildship/core/internal/workspace/EclipseModelUtils.java:50-52 | with neither flag, queryModels returns the one-element list of the root model after exactly two fetches |
| `EclipseModelUtils.RunTasksAndQueryModelsRootOnly` | org.eclipse.buildship.core/src/main/java/org/eclipse/buildship/core/internal/workspace/EclipseModelUtils.java:58-66 | with none of the three flags, runTasksAndQueryModels returns the one-element list of the root model after exactly two fetches, whatever the substitution flag |
| `EclipseModelUtils.RunTasksPhaseOrder` | org.eclipse.buildship.core/src/main/java/org/eclipse/buildship/core/internal/workspace/EclipseModelUtils.java:107-112 | on both task branches the trace is the environment fetch followed by a prefix of (phase 1, phase 2); a completed build records both and returns phase 2's models |
| `EclipseModelUtils.TasksThenRuntimeInfoScenario` | org.eclipse.buildship.core/src/main/java/org/eclipse/buildship/core/internal/workspace/EclipseModelUtils.java:77-112 | with reserved projects, sync tasks and composite builds but no substitution: phase 1 is the sync tasks alone, phase 2 the runtime-info composite query, and phase 2's models are returned |

## Left out

- Classifying a Gradle version string (`GradleVersion`) is not part of this model. The four capability answers are inputs, so nothing is said about monotonicity in the version.
- The Tooling API calls are remote I/O. They are modelled by a `Remote` value that fixes each answer. The model does not capture Gradle's own behaviour, such as which tasks run or which models a build yields.
- `ToolingApi.ProjectConnection.RunPhased`: when a phased build fails, the model assumes that neither handler receives a value. This is an assumption about the Tooling API, not something the source states. Nothing observable depends on it, because the caller drops the handlers on failure.
- `IdeFriendlyClassLoading` is class-loading indirection. The actions it loads (`TellGradleToRunSynchronizationTasks`, `CompositeModelQuery`, `BuildActionSequence`) are datatype tags.
- Only the `EclipseProject` instances of the generic `queryModel` and `queryCompositeModel` are modelled, since those are the only ones the entry points use.
- The Eclipse workspace (`CorePlugin.workspaceOperations()`, `ResourcesPlugin`, `IProject`) is foreign state. The project list and the root location are parameters, and every call builds its snapshot afresh.
- A `null` exception message, which makes `startsWith` throw a NullPointerException, is a Java artefact. Messages are strings. A project without a location is likewise not modelled.
- `forTasks()` is called with no task names. The model records no task list.
- Concurrency and cancellation are out of scope: one call owns its connection. A cancellation surfaces as an ordinary failure that is passed through.
- `SynchronizeGradleProjectJob` only forwards its constructor to its superclass, a job-scheduling class outside this model. It has no logic to model.
