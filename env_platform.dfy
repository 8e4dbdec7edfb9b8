/** The "existing" Docker environment platform,
    xrally_docker/env/platforms/existing.py: turning a spec into platform
    data, the placeholder cleanup report, and building a spec from the
    process environment the way the Docker command-line client reads it. */
module EnvPlatform {
  import opened Wrappers
  import Connection

  type DockerSpec = Connection.DockerSpec

  /** `create`: the normalised connection settings, and no extra data. */
  function Create(spec: DockerSpec, home: string): (r: (DockerSpec, map<string, string>))
    ensures r.0 == Connection.Normalise(spec, home)
    ensures r.1 == map[]
  {
    (Connection.Normalise(spec, home), map[])
  }

  /** `cleanup`: nothing is cleaned yet; the report says so for any task. */
  function Cleanup(taskUuid: Option<string>): (report: Connection.CleanupReport)
    ensures report.message == "Coming soon!"
    ensures report.discovered == 0 && report.deleted == 0 && report.failed == 0
    ensures report.resources == map[] && report.errors == []
  {
    Connection.CleanupReport("Coming soon!", 0, 0, 0, map[], [])
  }

  // ---------------------------------------------------------------------
  // create_spec_from_sys_environ

  /** A value of the spec dict: a string or the `tls_verify` flag. */
  datatype SpecValue = Text(s: string) | Flag(b: bool)

  /** `{"available": ..., "spec": ...}`. */
  datatype EnvSpec = EnvSpec(available: bool, spec: map<string, SpecValue>)

  /** The environment variable, when set to something non-empty. */
  function Variable(environ: map<string, string>, name: string): (v: Option<string>)
    ensures v.Some? <==> name in environ && environ[name] != ""
    ensures v.Some? ==> v.value == environ[name]
  {
    if name in environ && environ[name] != "" then Some(environ[name]) else None
  }

  /** `DOCKER_TLS_VERIFY`: unset or empty means no verification, any other
      value means verification. */
  function TlsVerifyFromEnviron(environ: map<string, string>): (verify: bool)
    ensures verify <==> "DOCKER_TLS_VERIFY" in environ && environ["DOCKER_TLS_VERIFY"] != ""
  {
    var value := if "DOCKER_TLS_VERIFY" in environ then Some(environ["DOCKER_TLS_VERIFY"]) else None;
    if value == Some("") then false else value.Some?
  }

  /** The spec `create_spec_from_sys_environ` builds. */
  function SpecFromEnviron(environ: map<string, string>, home: string): (r: EnvSpec)
    ensures r.available
    ensures r.spec.Keys <= {"host", "cert_path", "tls_verify"}
    ensures "tls_verify" in r.spec && r.spec["tls_verify"] == Flag(TlsVerifyFromEnviron(environ))
    ensures "host" in r.spec <==> Variable(environ, "DOCKER_HOST").Some?
    ensures "host" in r.spec ==> r.spec["host"] == Text(environ["DOCKER_HOST"])
    ensures "cert_path" in r.spec <==> Variable(environ, "DOCKER_CERT_PATH").Some? || TlsVerifyFromEnviron(environ)
    ensures Variable(environ, "DOCKER_CERT_PATH").Some? ==> r.spec["cert_path"] == Text(environ["DOCKER_CERT_PATH"])
    ensures Variable(environ, "DOCKER_CERT_PATH").None? && TlsVerifyFromEnviron(environ) ==>
              r.spec["cert_path"] == Text(Connection.DockerDir(home))
  {
    var host := Variable(environ, "DOCKER_HOST");
    var certPath := Variable(environ, "DOCKER_CERT_PATH");
    var verify := TlsVerifyFromEnviron(environ);
    var withHost: map<string, SpecValue> := if host.Some? then map["host" := Text(host.value)] else map[];
    var withCert := if certPath.Some? then withHost["cert_path" := Text(certPath.value)]
                    else if verify then withHost["cert_path" := Text(Connection.DockerDir(home))]
                    else withHost;
    EnvSpec(true, withCert["tls_verify" := Flag(verify)])
  }

  /** `create_spec_from_sys_environ`, inserting the keys one by one. */
  method CreateSpecFromSysEnviron(environ: map<string, string>, home: string) returns (r: EnvSpec)
    ensures r == SpecFromEnviron(environ, home)
  {
    var spec: map<string, SpecValue> := map[];
    var host := Variable(environ, "DOCKER_HOST");
    if host.Some? {
      spec := spec["host" := Text(host.value)];
    }
    var certPath := Variable(environ, "DOCKER_CERT_PATH");
    if certPath.Some? {
      spec := spec["cert_path" := Text(certPath.value)];
    }
    var tlsVerify: bool;
    if "DOCKER_TLS_VERIFY" in environ && environ["DOCKER_TLS_VERIFY"] == "" {
      tlsVerify := false;
    } else {
      tlsVerify := "DOCKER_TLS_VERIFY" in environ;
    }
    spec := spec["tls_verify" := Flag(tlsVerify)];
    var enableTls := certPath.Some? || tlsVerify;
    if !enableTls {
      return EnvSpec(true, spec);
    }
    if certPath.None? {
      spec := spec["cert_path" := Text(Connection.DockerDir(home))];
    }
    r := EnvSpec(true, spec);
  }

  /** The spec as the connection settings `create` reads. */
  function AsDockerSpec(spec: map<string, SpecValue>): DockerSpec
  {
    Connection.DockerSpec(
      if "host" in spec && spec["host"].Text? then Some(spec["host"].s) else None,
      if "tls_verify" in spec && spec["tls_verify"].Flag? then Some(spec["tls_verify"].b) else None,
      if "cert_path" in spec && spec["cert_path"].Text? then Some(spec["cert_path"].s) else None)
  }

  /** A spec read from the environment already carries the certificate
      default: `create` adds no certificate directory to it, and rewrites
      only the scheme of the host copied verbatim from `DOCKER_HOST`. */
  lemma EnvironSpecIsComplete(environ: map<string, string>, home: string)
    ensures var spec := AsDockerSpec(SpecFromEnviron(environ, home).spec);
      && spec.host == Variable(environ, "DOCKER_HOST")
      && (Connection.TlsEnabled(spec) <==> TlsVerifyFromEnviron(environ) || Variable(environ, "DOCKER_CERT_PATH").Some?)
      && Create(spec, home).0.certPath == spec.certPath
  {
  }

  /** The environments of the platform's unit tests: nothing set ... */
  lemma EmptyEnvironExample(home: string)
    ensures SpecFromEnviron(map[], home) == EnvSpec(true, map["tls_verify" := Flag(false)])
  {
    var r := SpecFromEnviron(map[], home);
    assert r.spec.Keys == {"tls_verify"};
  }

  /** ... a host and a certificate directory, without verification ... */
  lemma CertPathEnvironExample(home: string)
    ensures SpecFromEnviron(map["DOCKER_HOST" := "localhost", "DOCKER_CERT_PATH" := "/foo"], home)
         == EnvSpec(true, map["tls_verify" := Flag(false), "cert_path" := Text("/foo"), "host" := Text("localhost")])
  {
    var e := map["DOCKER_HOST" := "localhost", "DOCKER_CERT_PATH" := "/foo"];
    assert "DOCKER_TLS_VERIFY" !in e;
    assert Variable(e, "DOCKER_HOST") == Some("localhost");
    assert Variable(e, "DOCKER_CERT_PATH") == Some("/foo");
    var r := SpecFromEnviron(e, home);
    assert r.spec.Keys == {"tls_verify", "cert_path", "host"};
  }

  /** ... and a host with verification, which defaults the directory. */
  lemma TlsVerifyEnvironExample(home: string)
    ensures SpecFromEnviron(map["DOCKER_HOST" := "localhost", "DOCKER_TLS_VERIFY" := "1"], home)
         == EnvSpec(true, map["tls_verify" := Flag(true), "cert_path" := Text(Connection.DockerDir(home)),
                              "host" := Text("localhost")])
  {
    var e := map["DOCKER_HOST" := "localhost", "DOCKER_TLS_VERIFY" := "1"];
    assert "DOCKER_CERT_PATH" !in e;
    assert Variable(e, "DOCKER_HOST") == Some("localhost");
    assert Variable(e, "DOCKER_CERT_PATH") == None;
    assert TlsVerifyFromEnviron(e);
    var dir := Text(Connection.DockerDir(home));
    assert map["host" := Text("localhost")]["cert_path" := dir]["tls_verify" := Flag(true)]
        == map["tls_verify" := Flag(true), "cert_path" := dir, "host" := Text("localhost")];
  }
}
