/**
 * The failures that cross the Tooling API boundary, and the reinterpretation
 * of a remote duplicate-root-element failure as the configuration error the
 * connector raises itself for a duplicate project name.
 */
module Failures {
  import opened Wrappers

  /** The exception Gradle raised inside the build, carried as a failure's cause. */
  datatype Throwable =
    | IllegalArgumentException(message: string)   // an IllegalArgumentException or a subclass of it
    | OtherException(message: string)              // any exception of another class

  datatype Failure =
    /** BuildActionFailureException: a build action failed remotely; the cause may be absent. */
    | BuildActionFailure(cause: Option<Throwable>)
    /** Any other failure of the connection (task failure, cancellation, lost daemon, ...). */
    | ConnectionFailure(description: string)
    /** UnsupportedConfigurationException, keeping the failure it replaces as its cause. */
    | UnsupportedConfiguration(message: string, original: Failure)

  /** The marker Gradle puts in front of the duplicated name. */
  const DuplicateRootElementText: string := "Duplicate root element "

  const DuplicateNameHead: string := "A project with the name "
  const DuplicateNameTail: string := " already exists."

  /** What the connector recognises in a failure. */
  datatype Diagnosis = DuplicateName(projectName: string) | Opaque(original: Failure)

  /** True when `f` is a build action failure caused by an IllegalArgumentException whose message starts with the marker. */
  predicate IsDuplicateRootElement(f: Failure)
  {
    f.BuildActionFailure? && f.cause.Some? && f.cause.value.IllegalArgumentException?
    && DuplicateRootElementText <= f.cause.value.message
  }

  /** The failure's verdict: the duplicated project name, or the failure itself. */
  function Diagnose(f: Failure): (d: Diagnosis)
    ensures d.DuplicateName? <==> IsDuplicateRootElement(f)
    ensures d.DuplicateName? ==> DuplicateRootElementText + d.projectName == f.cause.value.message
    ensures d.Opaque? ==> d.original == f
  {
    match f
    case BuildActionFailure(Some(IllegalArgumentException(m))) =>
      if DuplicateRootElementText <= m then DuplicateName(m[|DuplicateRootElementText|..]) else Opaque(f)
    case _ => Opaque(f)
  }

  /** The message "A project with the name <name> already exists.", from which the name can be read back. */
  function DuplicateProjectMessage(name: string): (m: string)
    ensures |m| == |DuplicateNameHead| + |name| + |DuplicateNameTail|
    ensures m[..|DuplicateNameHead|] == DuplicateNameHead
    ensures m[|DuplicateNameHead|..|DuplicateNameHead| + |name|] == name
    ensures m[|DuplicateNameHead| + |name|..] == DuplicateNameTail
  {
    DuplicateNameHead + name + DuplicateNameTail
  }

  /**
   * The failure the connector reports in place of `f`: a duplicate root element
   * becomes an unsupported-configuration error naming the project and keeping
   * `f` as its cause; every other failure is passed on unchanged.
   */
  function Reinterpret(f: Failure): (r: Failure)
    ensures !IsDuplicateRootElement(f) ==> r == f
    ensures IsDuplicateRootElement(f) ==>
      r.UnsupportedConfiguration? && r.original == f
      && r.message == DuplicateProjectMessage(ProjectNameOf(r.message))
      && DuplicateRootElementText + ProjectNameOf(r.message) == f.cause.value.message
  {
    match Diagnose(f)
    case DuplicateName(name) =>
      DuplicateProjectMessageRoundTrip(name);
      UnsupportedConfiguration(DuplicateProjectMessage(name), f)
    case Opaque(_) => f
  }

  /** The project name inside a well-formed duplicate-project message (the inverse of DuplicateProjectMessage). */
  function ProjectNameOf(m: string): string
  {
    if |DuplicateNameHead| + |DuplicateNameTail| <= |m| then m[|DuplicateNameHead|..|m| - |DuplicateNameTail|] else m
  }

  /** Reading the name back out of the formatted message gives the name that was put in. */
  lemma DuplicateProjectMessageRoundTrip(name: string)
    ensures ProjectNameOf(DuplicateProjectMessage(name)) == name
  {
    var m := DuplicateProjectMessage(name);
    assert |m| - |DuplicateNameTail| == |DuplicateNameHead| + |name|;
  }

  /** Different project names give different messages, so no information is lost in formatting. */
  lemma DuplicateProjectMessageInjective(a: string, b: string)
    requires DuplicateProjectMessage(a) == DuplicateProjectMessage(b)
    ensures a == b
  {
    DuplicateProjectMessageRoundTrip(a);
    DuplicateProjectMessageRoundTrip(b);
  }

  /** The reinterpreted failure for the message marker + name names exactly that project and keeps the original. */
  lemma ReinterpretDuplicateName(name: string)
    ensures
      var f := BuildActionFailure(Some(IllegalArgumentException(DuplicateRootElementText + name)));
      Reinterpret(f) == UnsupportedConfiguration(DuplicateProjectMessage(name), f)
  {
    var m := DuplicateRootElementText + name;
    assert DuplicateRootElementText <= m;
    assert m[|DuplicateRootElementText|..] == name;
  }

  /** The outcome of a call whose failure, if any, is reinterpreted; a returned value is untouched. */
  function ReinterpretResult<T>(r: Result<T, Failure>): (s: Result<T, Failure>)
    ensures s.Ok? <==> r.Ok?
    ensures r.Ok? ==> s == r
    ensures r.Err? && !IsDuplicateRootElement(r.error) ==> s == r
    ensures r.Err? && IsDuplicateRootElement(r.error) ==>
      s == Err(UnsupportedConfiguration(DuplicateProjectMessage(Diagnose(r.error).projectName), r.error))
  {
    match r
    case Ok(_) => r
    case Err(f) => Err(Reinterpret(f))
  }
}
