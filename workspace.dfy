/**
 * The snapshot of the Eclipse workspace that is sent to Gradle as runtime
 * information: the root location and, for every workspace project, its name,
 * location and whether it is open.
 */
module Workspace {

  type Path = string

  /** A project as the Eclipse workspace reports it. */
  datatype Project = Project(name: string, location: Path, isOpen: bool)

  /** The Tooling API's description of one workspace project. */
  datatype EclipseWorkspaceProject = EclipseWorkspaceProject(name: string, location: Path, isOpen: bool)

  datatype EclipseWorkspace = EclipseWorkspace(location: Path, projects: seq<EclipseWorkspaceProject>)

  /** The parameter object that attaches a workspace snapshot to a model query. */
  datatype EclipseRuntimeConfigurer = EclipseRuntimeConfigurer(workspace: EclipseWorkspace)

  /** Whether `w` carries exactly the name, location and open flag of `p`. */
  predicate Describes(w: EclipseWorkspaceProject, p: Project)
  {
    w.name == p.name && w.location == p.location && w.isOpen == p.isOpen
  }

  /** The workspace projects mapped one by one, in order, to their Tooling API descriptions. */
  function DescribeProjects(ps: seq<Project>): (ws: seq<EclipseWorkspaceProject>)
    ensures |ws| == |ps|
    ensures forall i :: 0 <= i < |ps| ==> Describes(ws[i], ps[i])
  {
    if ps == [] then []
    else [EclipseWorkspaceProject(ps[0].name, ps[0].location, ps[0].isOpen)] + DescribeProjects(ps[1..])
  }

  /**
   * The runtime configurer built from the workspace projects and the workspace
   * root location: one entry per project, in the same order, each copying the
   * project's fields; the snapshot's location is the root location.
   */
  function BuildEclipseRuntimeConfigurer(projects: seq<Project>, rootLocation: Path): (c: EclipseRuntimeConfigurer)
    ensures c.workspace.location == rootLocation
    ensures |c.workspace.projects| == |projects|
    ensures forall i :: 0 <= i < |projects| ==> Describes(c.workspace.projects[i], projects[i])
  {
    EclipseRuntimeConfigurer(EclipseWorkspace(rootLocation, DescribeProjects(projects)))
  }

  /** Describing a concatenation describes each part, in order. */
  lemma {:induction false} DescribeProjectsAppend(a: seq<Project>, b: seq<Project>)
    ensures DescribeProjects(a + b) == DescribeProjects(a) + DescribeProjects(b)
  {
    if a == [] {
      assert a + b == b;
    } else {
      assert (a + b)[1..] == a[1..] + b;
      DescribeProjectsAppend(a[1..], b);
    }
  }

  /** The snapshot loses nothing: two project lists with the same snapshot are the same list. */
  lemma DescribeProjectsInjective(a: seq<Project>, b: seq<Project>)
    requires DescribeProjects(a) == DescribeProjects(b)
    ensures a == b
  {
    var ws := DescribeProjects(a);
    assert |a| == |b|;
    forall i | 0 <= i < |a| ensures a[i] == b[i] {
      assert Describes(ws[i], a[i]) && Describes(ws[i], b[i]);
    }
  }

  /** A project is in the workspace exactly when its description is in the snapshot: nothing added, nothing dropped. */
  lemma DescribeProjectsMembership(ps: seq<Project>, p: Project)
    ensures p in ps <==> EclipseWorkspaceProject(p.name, p.location, p.isOpen) in DescribeProjects(ps)
  {
    var ws := DescribeProjects(ps);
    var w := EclipseWorkspaceProject(p.name, p.location, p.isOpen);
    if p in ps {
      var i :| 0 <= i < |ps| && ps[i] == p;
      assert ws[i] == w;
    }
    if w in ws {
      var i :| 0 <= i < |ws| && ws[i] == w;
      assert Describes(ws[i], ps[i]);
      assert ps[i] == p;
    }
  }

  /** The example of two projects, one open and one closed. */
  lemma TwoProjectSnapshot()
    ensures
      var c := BuildEclipseRuntimeConfigurer([Project("a", "/x", true), Project("b", "/y", false)], "/ws");
      c.workspace == EclipseWorkspace("/ws", [EclipseWorkspaceProject("a", "/x", true), EclipseWorkspaceProject("b", "/y", false)])
  {
    var c := BuildEclipseRuntimeConfigurer([Project("a", "/x", true), Project("b", "/y", false)], "/ws");
    assert |c.workspace.projects| == 2;
  }
}
