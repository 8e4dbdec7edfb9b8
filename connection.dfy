/** Docker connection settings and their TLS normalisation, as done by
    `create` in xrally_docker/env/platforms/existing.py and
    xrally_docker/platforms/existing.py (and, with one difference, by
    `DockerCredential` in xrally_docker/credential.py).

    The home directory that `os.path.expanduser("~")` would read from the
    environment is a parameter. */
module Connection {
  import opened Wrappers
  import Text

  /** The settings a platform spec may carry (each key optional). */
  datatype DockerSpec = DockerSpec(host: Option<string>, tlsVerify: Option<bool>, certPath: Option<string>)

  /** Python truthiness of an optional string. */
  predicate Truthy(s: Option<string>)
  {
    s.Some? && s.value != ""
  }

  /** `cert_path or tls_verify`: TLS is on when a certificate directory
      is given or verification is requested. */
  predicate TlsEnabled(spec: DockerSpec)
  {
    Truthy(spec.certPath) || spec.tlsVerify == Some(true)
  }

  const TCP_SCHEME := "tcp://"
  const HTTPS_SCHEME := "https://"

  /** `host.replace("tcp://", "https://")`. */
  function HttpsHost(host: string): string
  {
    Text.ReplaceAll(host, TCP_SCHEME, HTTPS_SCHEME)
  }

  /** A "tcp://" address becomes the same address over "https://". */
  lemma HttpsHostRewritesScheme(address: string)
    requires !Text.Contains(address, TCP_SCHEME)
    ensures HttpsHost(TCP_SCHEME + address) == HTTPS_SCHEME + address
  {
    Text.ReplaceAllLeading(TCP_SCHEME, address, HTTPS_SCHEME);
    Text.ReplaceAllAbsent(address, TCP_SCHEME, HTTPS_SCHEME);
  }

  /** A host without "tcp://" is left as it is. */
  lemma HttpsHostKeepsOtherHosts(host: string)
    requires !Text.Contains(host, TCP_SCHEME)
    ensures HttpsHost(host) == host
  {
    Text.ReplaceAllAbsent(host, TCP_SCHEME, HTTPS_SCHEME);
  }

  /** `os.path.join(os.path.expanduser("~"), ".docker")`. */
  function DockerDir(home: string): (dir: string)
    ensures |dir| >= |home| + 7 && dir[..|home|] == home && dir[|dir| - 7..] == ".docker"
    ensures dir == home + ".docker" || dir == home + "/.docker"
  {
    Text.PathJoin(home, ".docker")
  }

  /** The platform data `create` builds from a spec: with TLS on, a
      non-empty host has "tcp://" rewritten to "https://" and a missing
      certificate directory defaults to `~/.docker`; `tls_verify` is
      passed through. */
  function Normalise(spec: DockerSpec, home: string): (data: DockerSpec)
    ensures data.tlsVerify == spec.tlsVerify
    ensures data.host.Some? <==> spec.host.Some?
    ensures Truthy(spec.host) && TlsEnabled(spec) ==> data.host == Some(HttpsHost(spec.host.value))
    ensures !TlsEnabled(spec) || !Truthy(spec.host) ==> data.host == spec.host
    ensures Truthy(spec.certPath) ==> data.certPath == spec.certPath
    ensures TlsEnabled(spec) ==> Truthy(data.certPath)
    ensures TlsEnabled(spec) && !Truthy(spec.certPath) ==> data.certPath == Some(DockerDir(home))
    ensures !TlsEnabled(spec) ==> data.certPath == spec.certPath
    ensures TlsEnabled(data) <==> TlsEnabled(spec)
  {
    var enableTls := TlsEnabled(spec);
    var host := if Truthy(spec.host) && enableTls then Some(HttpsHost(spec.host.value)) else spec.host;
    var certPath := if enableTls && !Truthy(spec.certPath) then Some(DockerDir(home)) else spec.certPath;
    DockerSpec(host, spec.tlsVerify, certPath)
  }

  /** Without TLS the spec comes back unchanged. */
  lemma PlainSpecUnchanged(spec: DockerSpec, home: string)
    requires !TlsEnabled(spec)
    ensures Normalise(spec, home) == spec
  {
  }

  /** Normalising twice is normalising once. */
  lemma NormaliseIdempotent(spec: DockerSpec, home: string)
    ensures Normalise(Normalise(spec, home), home) == Normalise(spec, home)
  {
    if Truthy(spec.host) && TlsEnabled(spec) {
      HttpsHostHasNoTcp(spec.host.value);
      HttpsHostKeepsOtherHosts(HttpsHost(spec.host.value));
    }
  }

  /** A rewritten host holds no "tcp://": every occurrence is replaced, and
      no new one can form, since "https://" starts with a letter that
      "tcp://" does not contain. */
  lemma {:induction false} HttpsHostHasNoTcp(host: string)
    ensures !Text.Contains(HttpsHost(host), TCP_SCHEME)
    decreases |host|
  {
    var out := HttpsHost(host);
    if |host| < 6 {
      forall i: nat | i <= |out| ensures !Text.OccursAt(out, TCP_SCHEME, i) { }
    } else if host[..6] == TCP_SCHEME {
      HttpsHostHasNoTcp(host[6..]);
      HttpsPrefixHasNoTcp(HttpsHost(host[6..]));
    } else {
      HttpsHostHasNoTcp(host[1..]);
      forall i: nat | i <= |out| ensures !Text.OccursAt(out, TCP_SCHEME, i) {
        if i == 0 {
          NoTcpAtStart(host);
        } else {
          NoTcpPastStart(host, i);
        }
      }
    }
  }

  /** A host that does not start with "tcp://" is not rewritten to one
      that does: the rewrite of the rest would have to start with "cp://",
      which holds no 'h'. */
  lemma NoTcpAtStart(host: string)
    requires |host| >= 6 && host[..6] != TCP_SCHEME
    ensures !Text.OccursAt(HttpsHost(host), TCP_SCHEME, 0)
  {
    var out, rest := HttpsHost(host), HttpsHost(host[1..]);
    assert out == [host[0]] + rest;
    if Text.OccursAt(out, TCP_SCHEME, 0) {
      assert rest[..5] == "cp://" by { assert out[1..6] == rest[..5]; }
      RewritePrefixWithoutH(host[1..], 5);
      assert false;
    }
  }

  /** Past its first letter, a host that does not start with "tcp://" is
      rewritten like the rest of it. */
  lemma NoTcpPastStart(host: string, i: nat)
    requires |host| >= 6 && host[..6] != TCP_SCHEME && 1 <= i
    requires !Text.Contains(HttpsHost(host[1..]), TCP_SCHEME)
    ensures !Text.OccursAt(HttpsHost(host), TCP_SCHEME, i)
  {
    var out, rest := HttpsHost(host), HttpsHost(host[1..]);
    assert out == [host[0]] + rest;
    if Text.OccursAt(out, TCP_SCHEME, i) {
      assert out[i..i + 6] == rest[i - 1..i - 1 + 6];
      assert Text.OccursAt(rest, TCP_SCHEME, i - 1);
    }
  }

  /** A prefix of a rewritten host that holds no 'h' was already a prefix
      of the host: nothing was rewritten inside it. */
  lemma {:induction false} RewritePrefixWithoutH(host: string, k: nat)
    requires k <= |HttpsHost(host)|
    requires forall j :: 0 <= j < k ==> HttpsHost(host)[j] != 'h'
    ensures k <= |host| && HttpsHost(host)[..k] == host[..k]
    decreases |host|
  {
    var out := HttpsHost(host);
    if |host| < 6 || k == 0 {
    } else {
      RewrittenSchemeStartsWithH(host);
      var rest := HttpsHost(host[1..]);
      assert out == [host[0]] + rest;
      forall j | 0 <= j < k - 1 ensures rest[j] != 'h' {
        assert rest[j] == out[j + 1];
      }
      RewritePrefixWithoutH(host[1..], k - 1);
      assert out[..k] == [host[0]] + rest[..k - 1];
      assert host[..k] == [host[0]] + host[1..][..k - 1];
    }
  }

  /** A host that starts with "tcp://" is rewritten to one that starts
      with 'h'. */
  lemma RewrittenSchemeStartsWithH(host: string)
    ensures |host| >= 6 && host[..6] == TCP_SCHEME ==>
      |HttpsHost(host)| > 0 && HttpsHost(host)[0] == 'h'
  {
    if |host| >= 6 && host[..6] == TCP_SCHEME {
      assert HttpsHost(host) == HTTPS_SCHEME + HttpsHost(host[6..]);
    }
  }

  /** "https://" followed by a tcp-free address holds no "tcp://". */
  lemma HttpsPrefixHasNoTcp(address: string)
    requires !Text.Contains(address, TCP_SCHEME)
    ensures !Text.Contains(HTTPS_SCHEME + address, TCP_SCHEME)
  {
    var s := HTTPS_SCHEME + address;
    forall i: nat | i <= |s| ensures !Text.OccursAt(s, TCP_SCHEME, i) {
      if i >= 8 {
        if Text.OccursAt(s, TCP_SCHEME, i) {
          assert s[i..i + 6] == address[i - 8..i - 2];
          assert Text.OccursAt(address, TCP_SCHEME, i - 8);
        }
      } else if i + 6 <= |s| {
        assert s[i..i + 6][0] == s[i] && s[i..i + 6][1] == s[i + 1];
        assert s[i] != 't' || s[i + 1] != 'c';
      }
    }
  }

  lemma WithoutTNoTcp(s: string)
    requires 't' !in s
    ensures !Text.Contains(s, TCP_SCHEME)
  {
    forall i: nat | i <= |s| ensures !Text.OccursAt(s, TCP_SCHEME, i) {
      if i + 6 <= |s| {
        assert s[i..i + 6][0] == s[i];
      }
    }
  }

  /** The connection-spec example "tcp://10.0.0.1:2376" with verification on. */
  lemma TlsHostExample(home: string)
    ensures Normalise(DockerSpec(Some("tcp://10.0.0.1:2376"), Some(true), None), home)
         == DockerSpec(Some("https://10.0.0.1:2376"), Some(true), Some(DockerDir(home)))
  {
    var address := "10.0.0.1:2376";
    assert "tcp://10.0.0.1:2376" == TCP_SCHEME + address;
    assert 't' !in address;
    WithoutTNoTcp(address);
    HttpsHostRewritesScheme(address);
    assert HTTPS_SCHEME + address == "https://10.0.0.1:2376";
    var spec := DockerSpec(Some("tcp://10.0.0.1:2376"), Some(true), None);
    assert TlsEnabled(spec) && Truthy(spec.host);
  }

  /** The report the platforms' `cleanup` returns. */
  datatype CleanupReport = CleanupReport(message: string, discovered: nat, deleted: nat, failed: nat,
                                         resources: map<string, string>, errors: seq<string>)
}
