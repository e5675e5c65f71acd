/** The capability questions the connector asks of the Gradle version a build reports. */
module GradleVersions {

  /**
   * The answers of GradleVersion for one version. How a version string is
   * classified is not part of this model: the four answers are inputs.
   */
  datatype GradleVersion = GradleVersion(
    supportsSendingReservedProjects: bool,
    supportsSyncTasksInEclipsePluginConfig: bool,
    supportsCompositeBuilds: bool,
    supportsClosedProjectDependencySubstitution: bool)
}
