/** The legacy "existing" Docker deployment platform,
    xrally_docker/platforms/existing.py.  Its `create` and `cleanup`
    behave as those of the environment platform. */
module LegacyPlatform {
  import opened Wrappers
  import Connection

  type DockerSpec = Connection.DockerSpec

  /** `create`: the normalised connection settings, and no extra data. */
  function Create(spec: DockerSpec, home: string): (r: (DockerSpec, map<string, string>))
    ensures r.0 == Connection.Normalise(spec, home)
    ensures r.1 == map[]
  {
    (Connection.Normalise(spec, home), map[])
  }

  /** `cleanup(task_uuid)`: the same placeholder report for any task. */
  function Cleanup(taskUuid: Option<string>): (report: Connection.CleanupReport)
    ensures report.message == "Coming soon!"
    ensures report.discovered == 0 && report.deleted == 0 && report.failed == 0
    ensures report.resources == map[] && report.errors == []
  {
    Connection.CleanupReport("Coming soon!", 0, 0, 0, map[], [])
  }
}
