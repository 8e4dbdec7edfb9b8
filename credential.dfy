/** The Docker deployment credential, xrally_docker/credential.py:
    `DockerCredential` (its constructor and `to_dict`) and the builder's
    `build_credentials`.  Unlike the platforms' `create`, the constructor
    rewrites the host without checking that there is one, so TLS with no
    host raises. */
module Credential {
  import opened Wrappers
  import Connection
  import Resources

  type DockerSpec = Connection.DockerSpec

  /** rally's `consts.EndpointPermission.ADMIN`. */
  const ADMIN := "admin"

  /** The dict `to_dict` returns. */
  datatype CredentialRecord = CredentialRecord(host: Option<string>, tlsVerify: Option<bool>,
                                               certPath: Option<string>, permission: Option<string>)

  /** Can the constructor run: with TLS on it calls `replace` on the host,
      which raises AttributeError on None. */
  predicate Constructible(spec: DockerSpec)
  {
    Connection.TlsEnabled(spec) ==> spec.host.Some?
  }

  /** What `DockerCredential(host, tls_verify, cert_path, permission)`
      stores, or the error it raises. */
  function NewCredential(spec: DockerSpec, permission: Option<string>, home: string): (r: Result<CredentialRecord, Resources.Error>)
    ensures r.Failure? <==> !Constructible(spec)
    ensures r.Failure? ==> r.error == Resources.Raise(Resources.AttributeError)
    ensures r.Success? ==>
      && r.value.permission == permission
      && r.value.tlsVerify == spec.tlsVerify
      && (Connection.TlsEnabled(spec) ==> r.value.host == Some(Connection.HttpsHost(spec.host.value)))
      && (!Connection.TlsEnabled(spec) ==> r.value.host == spec.host)
      && (Connection.Truthy(spec.certPath) || !Connection.TlsEnabled(spec) ==> r.value.certPath == spec.certPath)
      && (Connection.TlsEnabled(spec) && !Connection.Truthy(spec.certPath) ==>
            r.value.certPath == Some(Connection.DockerDir(home)))
  {
    if !Constructible(spec) then Failure(Resources.Raise(Resources.AttributeError))
    else
      var tls := Connection.TlsEnabled(spec);
      Success(CredentialRecord(
        if tls then Some(Connection.HttpsHost(spec.host.value)) else spec.host,
        spec.tlsVerify,
        if tls && !Connection.Truthy(spec.certPath) then Some(Connection.DockerDir(home)) else spec.certPath,
        permission))
  }

  /** Where there is a host, the credential stores the same settings the
      platforms' `create` produces. */
  lemma CredentialAgreesWithPlatform(spec: DockerSpec, permission: Option<string>, home: string)
    requires spec.host.Some?
    ensures NewCredential(spec, permission, home).Success?
    ensures var c := NewCredential(spec, permission, home).value;
            var data := Connection.Normalise(spec, home);
      c.host == data.host && c.tlsVerify == data.tlsVerify && c.certPath == data.certPath
  {
    if spec.host == Some("") {
      assert Connection.HttpsHost("") == "";
    }
  }

  class DockerCredential {
    var host: Option<string>
    var tlsVerify: Option<bool>
    var certPath: Option<string>
    var permission: Option<string>

    /** `__init__`: the fields are set, then the certificate directory is
        defaulted when TLS is on and none was given. */
    constructor (spec: DockerSpec, permission: Option<string>, home: string)
      requires Constructible(spec)
      ensures Success(ToDict()) == NewCredential(spec, permission, home)
    {
      var enableTls := Connection.TlsEnabled(spec);
      host := if enableTls then Some(Connection.HttpsHost(spec.host.value)) else spec.host;
      tlsVerify := spec.tlsVerify;
      certPath := spec.certPath;
      new;
      if enableTls && !Connection.Truthy(certPath) {
        certPath := Some(Connection.DockerDir(home));
      }
      this.permission := permission;
    }

    /** `to_dict`: the four stored fields. */
    function ToDict(): (d: CredentialRecord)
      reads this
      ensures d.host == host && d.tlsVerify == tlsVerify
      ensures d.certPath == certPath && d.permission == permission
    {
      CredentialRecord(host, tlsVerify, certPath, permission)
    }
  }

  /** `{"admin": ..., "users": []}`. */
  datatype Credentials = Credentials(admin: CredentialRecord, users: seq<CredentialRecord>)

  /** `build_credentials`: one admin credential from the configured
      settings and no users. */
  function BuildCredentials(config: DockerSpec, home: string): (r: Result<Credentials, Resources.Error>)
    ensures r.Failure? <==> !Constructible(config)
    ensures r.Failure? ==> r.error == Resources.Raise(Resources.AttributeError)
    ensures r.Success? ==>
      && r.value.users == []
      && r.value.admin.permission == Some(ADMIN)
      && Success(r.value.admin) == NewCredential(config, Some(ADMIN), home)
  {
    match NewCredential(config, Some(ADMIN), home)
    case Failure(e) => Failure(e)
    case Success(admin) => Success(Credentials(admin, []))
  }

  /** A TLS deployment over "tcp://" gets an https admin endpoint with the
      default certificate directory. */
  lemma TlsCredentialExample(home: string)
    ensures BuildCredentials(Connection.DockerSpec(Some("tcp://10.0.0.1:2376"), Some(true), None), home)
         == Success(Credentials(CredentialRecord(Some("https://10.0.0.1:2376"), Some(true),
                                                 Some(Connection.DockerDir(home)), Some(ADMIN)), []))
  {
    var spec := Connection.DockerSpec(Some("tcp://10.0.0.1:2376"), Some(true), None);
    Connection.TlsHostExample(home);
    CredentialAgreesWithPlatform(spec, Some(ADMIN), home);
  }

  /** Verification requested with no host: building the credentials raises. */
  lemma TlsWithoutHostFails(home: string)
    ensures BuildCredentials(Connection.DockerSpec(None, Some(true), None), home).Failure?
  {
  }
}
