/** Resource-kind descriptors of xrally_docker/common/cleanup/resources.py:
    the `configure` decorator, the `ResourceManager` wrapper with its
    `list`, `id`, `name`, `is_deleted` and `delete`, and the two kinds that
    ship, `Image` and `Network`.  Client operations are looked up by name
    (`list_images`, `get_network`, ...); the model computes those names and
    takes the client's answer to the call as a parameter. */
module Resources {
  import opened Wrappers
  import Seqs
  import Text

  /** Python exception classes the descriptors can raise or catch. */
  datatype ExcKind = KeyError | IndexError | TypeError | AttributeError | ApiFailure

  /** A raised exception with its optional `code` and `status_code`
      attributes. */
  datatype Error = Error(exc: ExcKind, code: Option<int>, statusCode: Option<int>)

  function Raise(exc: ExcKind): Error
  {
    Error(exc, None, None)
  }

  /** Values of the raw Docker objects' fields that the descriptors read. */
  datatype Value = Str(s: string) | Strs(items: seq<string>)

  /** A raw object as the Docker API returns it. */
  type RawObject = map<string, Value>

  /** The client, known by the names of the operations it exposes. */
  datatype Client = Client(operations: set<string>)

  /** How a kind reports its names: the raw "Name" field, or (Image) the
      text after the first ':' of each entry of "RepoTags". */
  datatype Naming = NameField | RepoTagSuffixes

  /** A configured resource-manager class, as a value. */
  datatype Kind = Kind(cls: string, name: string, order: int, timeout: nat,
                       maxAttempts: nat, interval: nat, threads: nat, naming: Naming)

  /** An instance of a resource-manager class: a raw object with the client
      it was listed from. */
  datatype Resource = Resource(kind: Kind, raw: RawObject, client: Client)

  const DEFAULT_ORDER := 0
  const DEFAULT_MAX_ATTEMPTS := 3
  const DEFAULT_INTERVAL := 1

  /** A resource-manager class whose six policy attributes the `configure`
      decorator sets in place. */
  class ManagerClass {
    const cls: string
    const naming: Naming
    var name: string
    var order: int
    var timeout: nat
    var maxAttempts: nat
    var interval: nat
    var threads: nat

    constructor (cls: string, naming: Naming)
      ensures this.cls == cls && this.naming == naming
    {
      this.cls := cls;
      this.naming := naming;
      name, order, timeout, maxAttempts, interval, threads := "", 0, 0, 0, 0, 0;
    }

    /** The class's current attributes as a value. */
    function Descriptor(): Kind
      reads this
    {
      Kind(cls, name, order, timeout, maxAttempts, interval, threads, naming)
    }
  }

  /** `configure(name, order, max_attempts, timeout, interval, threads)(cls)`:
      overwrites the six attributes and hands back the same class. */
  method Configure(c: ManagerClass, name: string, order: int, maxAttempts: nat,
                   timeout: nat, interval: nat, threads: nat) returns (r: ManagerClass)
    modifies c
    ensures r == c
    ensures c.Descriptor() == Kind(c.cls, name, order, timeout, maxAttempts, interval, threads, c.naming)
  {
    c.name := name;
    c.order := order;
    c.timeout := timeout;
    c.maxAttempts := maxAttempts;
    c.interval := interval;
    c.threads := threads;
    r := c;
  }

  /** `configure(name)` with its defaults; `timeout` and `threads` default to
      the deployment's configured values, passed in here. */
  method ConfigureWithDefaults(c: ManagerClass, name: string, confTimeout: nat, confThreads: nat)
    returns (r: ManagerClass)
    modifies c
    ensures r == c
    ensures c.Descriptor() == Kind(c.cls, name, DEFAULT_ORDER, confTimeout, DEFAULT_MAX_ATTEMPTS,
                                   DEFAULT_INTERVAL, confThreads, c.naming)
  {
    r := Configure(c, name, DEFAULT_ORDER, DEFAULT_MAX_ATTEMPTS, confTimeout, DEFAULT_INTERVAL, confThreads);
  }

  /** The two classes the module declares, in declaration order. */
  method DeclareBuiltinKinds(confTimeout: nat, confThreads: nat) returns (image: ManagerClass, network: ManagerClass)
    ensures fresh(image) && fresh(network)
    ensures image.Descriptor() == Kind("Image", "image", 0, confTimeout, 3, 1, confThreads, RepoTagSuffixes)
    ensures network.Descriptor() == Kind("Network", "network", 0, confTimeout, 3, 1, confThreads, NameField)
  {
    image := new ManagerClass("Image", RepoTagSuffixes);
    image := ConfigureWithDefaults(image, "image", confTimeout, confThreads);
    network := new ManagerClass("Network", NameField);
    network := ConfigureWithDefaults(network, "network", confTimeout, confThreads);
  }

  /** The kind name in the plural: a final "y" becomes "ies", anything
      else gains an "s". */
  function Plural(name: string): (p: string)
    ensures Text.EndsWithChar(p, 's')
    ensures |p| == |name| + (if Text.EndsWithChar(name, 'y') then 2 else 1)
    ensures |name| > 0 ==> p[..|name| - 1] == name[..|name| - 1]
  {
    if Text.EndsWithChar(name, 'y') then name[..|name| - 1] + "ies" else name + "s"
  }

  /** Reading a plural back as the kind name it came from. */
  function Singular(plural: string): string
  {
    if |plural| >= 3 && plural[|plural| - 3..] == "ies" then plural[..|plural| - 3] + "y"
    else if |plural| >= 1 then plural[..|plural| - 1]
    else plural
  }

  /** The plural always ends in "s" and keeps the name up to its last
      letter; it can be read back unless the name itself ends in "ie"
      (then "movie" and "movy" share the plural "movies"). */
  lemma PluralReadsBack(name: string)
    ensures var p := Plural(name);
      && Text.EndsWithChar(p, 's')
      && (|name| > 0 ==> p[..|name| - 1] == name[..|name| - 1])
      && (Singular(p) == name <==> !EndsWithIe(name))
  {
    if Text.EndsWithChar(name, 'y') {
      PluralOfY(name);
    } else if EndsWithIe(name) {
      PluralOfIe(name);
    } else {
      PluralOfOther(name);
    }
  }

  predicate EndsWithIe(name: string)
  {
    |name| >= 2 && name[|name| - 2] == 'i' && name[|name| - 1] == 'e'
  }

  lemma PluralOfY(name: string)
    requires Text.EndsWithChar(name, 'y')
    ensures Plural(name) == name[..|name| - 1] + "ies"
    ensures var p := Plural(name);
      && Text.EndsWithChar(p, 's') && p[..|name| - 1] == name[..|name| - 1]
      && Singular(p) == name && !EndsWithIe(name)
  {
    var p := Plural(name);
    assert p == name[..|name| - 1] + "ies";
    assert p[|p| - 3..] == "ies";
    assert p[..|p| - 3] == name[..|name| - 1];
    assert name[..|name| - 1] + "y" == name;
  }

  lemma PluralOfIe(name: string)
    requires EndsWithIe(name)
    ensures Plural(name) == name + "s"
    ensures var p := Plural(name);
      && Text.EndsWithChar(p, 's') && p[..|name| - 1] == name[..|name| - 1]
      && Singular(p) != name
  {
    var p := Plural(name);
    assert p == name + "s";
    assert p[|p| - 3..] == "ies";
    assert |Singular(p)| == |name| - 1;
  }

  lemma PluralOfOther(name: string)
    requires !Text.EndsWithChar(name, 'y') && !EndsWithIe(name)
    ensures var p := Plural(name);
      && Text.EndsWithChar(p, 's') && (|name| > 0 ==> p[..|name| - 1] == name[..|name| - 1])
      && Singular(p) == name
  {
    var p := Plural(name);
    assert p == name + "s";
    assert p[..|p| - 1] == name;
  }

  lemma PluralExamples()
    ensures Plural("foo") == "foos" && Plural("by") == "bies"
    ensures Plural("image") == "images" && Plural("network") == "networks"
  {
  }

  function ListOperation(k: Kind): string { "list_" + Plural(k.name) }
  function GetOperation(k: Kind): string { "get_" + k.name }
  function DeleteOperation(k: Kind): string { "delete_" + k.name }

  /** `cls.list(client)`: calls the client's list operation and wraps every
      object it returns, in order.  `response` is what that call returns or
      raises. */
  function List(k: Kind, client: Client, response: Result<seq<RawObject>, Error>): (r: Result<seq<Resource>, Error>)
    ensures ListOperation(k) !in client.operations ==> r == Failure(Raise(AttributeError))
    ensures ListOperation(k) in client.operations && response.Failure? ==> r == Failure(response.error)
    ensures ListOperation(k) in client.operations && response.Success? ==>
      && r.Success? && |r.value| == |response.value|
      && forall i :: 0 <= i < |r.value| ==> r.value[i] == Resource(k, response.value[i], client)
  {
    if ListOperation(k) !in client.operations then Failure(Raise(AttributeError))
    else match response
      case Failure(e) => Failure(e)
      case Success(objs) => Success(seq(|objs|, i requires 0 <= i < |objs| => Resource(k, objs[i], client)))
  }

  /** `id()`: the raw "Id" field. */
  function Id(r: Resource): (v: Result<Value, Error>)
    ensures v.Success? <==> "Id" in r.raw
    ensures v.Success? ==> v.value == r.raw["Id"]
    ensures v.Failure? ==> v.error.exc == KeyError
  {
    if "Id" in r.raw then Success(r.raw["Id"]) else Failure(Raise(KeyError))
  }

  /** The characters of a string iterated one at a time, each as a string. */
  function Chars(s: string): seq<string>
  {
    seq(|s|, i requires 0 <= i < |s| => [s[i]])
  }

  /** `[tag.split(":", 1)[1] for tag in tags]`; IndexError at the first tag
      without a ':'. */
  function TagSuffixes(tags: seq<string>): (r: Result<seq<string>, Error>)
    ensures r.Success? <==> forall i :: 0 <= i < |tags| ==> ':' in tags[i]
    ensures r.Success? ==>
      && |r.value| == |tags|
      && forall i :: 0 <= i < |tags| ==> Text.AfterFirst(tags[i], ':') == Some(r.value[i])
    ensures r.Failure? ==> r.error == Raise(IndexError)
  {
    if tags == [] then Success([])
    else match Text.AfterFirst(tags[0], ':')
      case None => Failure(Raise(IndexError))
      case Some(t) =>
        match TagSuffixes(tags[1..])
        case Failure(e) => Failure(e)
        case Success(rest) => 
          assert forall i :: 1 <= i < |tags| ==> tags[i] == tags[1..][i - 1];
          Success([t] + rest)
  }

  /** A tag split at its first ":" contributes the text after it. */
  lemma {:induction false} TagSuffixesCons(pre: string, post: string, rest: seq<string>)
    requires ':' !in pre
    requires TagSuffixes(rest).Success?
    ensures TagSuffixes([pre + [':'] + post] + rest) == Success([post] + TagSuffixes(rest).value)
  {
    Text.AfterFirstSplit(pre, post, ':');
    var tags := [pre + [':'] + post] + rest;
    assert tags[0] == pre + [':'] + post;
    assert tags[1..] == rest;
  }

  /** Each tag yields its text after the first ":". */
  lemma TagSuffixExamples()
    ensures TagSuffixes(["foo:bar", "xxx:yyy"]) == Success(["bar", "yyy"])
  {
    assert TagSuffixes([]) == Success([]);
    var second := "xxx" + [':'] + "yyy";
    assert second == "xxx:yyy";
    TagSuffixesCons("xxx", "yyy", []);
    assert [second] + [] == ["xxx:yyy"];
    assert ["yyy"] + [] == ["yyy"];
    assert TagSuffixes(["xxx:yyy"]) == Success(["yyy"]);
    var first := "foo" + [':'] + "bar";
    assert first == "foo:bar";
    TagSuffixesCons("foo", "bar", ["xxx:yyy"]);
    assert [first] + ["xxx:yyy"] == ["foo:bar", "xxx:yyy"];
    assert ["bar"] + ["yyy"] == ["bar", "yyy"];
  }

  /** Only the first ":" splits: "a:b:c" yields "b:c". */
  lemma TagSuffixSplitsOnce()
    ensures TagSuffixes(["a:b:c"]) == Success(["b:c"])
  {
    assert TagSuffixes([]) == Success([]);
    var tag := "a" + [':'] + "b:c";
    assert tag == "a:b:c";
    TagSuffixesCons("a", "b:c", []);
    assert [tag] + [] == ["a:b:c"];
    assert ["b:c"] + [] == ["b:c"];
  }

  /** A tag without ":" makes the names fail. */
  lemma TagWithoutColonFails()
    ensures TagSuffixes(["plain"]).Failure?
  {
    assert ':' !in "plain";
  }

  /** `name()`: the raw "Name" field (a name or a list of names); for
      images, one name per "RepoTags" entry. */
  function Names(r: Resource): (v: Result<Value, Error>)
    ensures r.kind.naming == NameField ==>
      (v.Success? <==> "Name" in r.raw) && (v.Success? ==> v.value == r.raw["Name"])
    ensures r.kind.naming == NameField && v.Failure? ==> v.error == Raise(KeyError)
    ensures r.kind.naming == RepoTagSuffixes ==>
      (v.Success? <==> "RepoTags" in r.raw && TagSuffixes(TagList(r.raw["RepoTags"])).Success?)
    ensures r.kind.naming == RepoTagSuffixes && "RepoTags" !in r.raw ==> v == Failure(Raise(KeyError))
    ensures r.kind.naming == RepoTagSuffixes && "RepoTags" in r.raw && v.Failure? ==> v.error == Raise(IndexError)
    ensures r.kind.naming == RepoTagSuffixes && v.Success? ==>
      && "RepoTags" in r.raw && v.value.Strs?
      && |v.value.items| == |TagList(r.raw["RepoTags"])|
      && forall i :: 0 <= i < |v.value.items| ==>
           Text.AfterFirst(TagList(r.raw["RepoTags"])[i], ':') == Some(v.value.items[i])
  {
    match r.kind.naming
    case NameField =>
      if "Name" in r.raw then Success(r.raw["Name"]) else Failure(Raise(KeyError))
    case RepoTagSuffixes =>
      if "RepoTags" !in r.raw then Failure(Raise(KeyError))
      else match TagSuffixes(TagList(r.raw["RepoTags"]))
        case Failure(e) => Failure(e)
        case Success(ns) => Success(Strs(ns))
  }

  /** What iterating over a field yields: a list's items, a string's
      characters. */
  function TagList(v: Value): seq<string>
  {
    match v
    case Strs(items) => items
    case Str(s) => Chars(s)
  }

  /** The value of the `code` attribute, else of `status_code`, else 400. */
  function ErrorCode(e: Error): int
  {
    match e.code
    case Some(c) => c
    case None => if e.statusCode.Some? then e.statusCode.value else 400
  }

  /** `is_deleted()`: looks up the get operation and calls it with the id,
      all inside one `try`.  True exactly when that raised an error whose
      code reads 404; a lookup failure, a missing id, a successful get or
      any other error reads as not deleted.  It never raises.
      `response` is None when the get call returns. */
  function IsDeleted(r: Resource, response: Option<Error>): (gone: bool)
    ensures gone <==> GetOperation(r.kind) in r.client.operations && "Id" in r.raw &&
                      response.Some? && ErrorCode(response.value) == 404
  {
    if GetOperation(r.kind) !in r.client.operations then ErrorCode(Raise(AttributeError)) == 404
    else match Id(r)
      case Failure(e) => ErrorCode(e) == 404
      case Success(_) =>
        match response
        case None => false
        case Some(e) => ErrorCode(e) == 404
  }

  lemma ErrorCodeExamples()
    ensures ErrorCode(Error(ApiFailure, None, Some(404))) == 404
    ensures ErrorCode(Error(ApiFailure, Some(500), Some(404))) == 500
    ensures ErrorCode(Raise(ApiFailure)) == 400
  {
  }

  /** `delete()`: looks up the delete operation, reads the id and calls the
      operation with it; the result is the error raised, if any.
      `response` is what the delete call itself raises. */
  function Delete(r: Resource, response: Option<Error>): (raised: Option<Error>)
    ensures DeleteOperation(r.kind) !in r.client.operations ==> raised == Some(Raise(AttributeError))
    ensures DeleteOperation(r.kind) in r.client.operations && "Id" !in r.raw ==> raised == Some(Raise(KeyError))
    ensures DeleteOperation(r.kind) in r.client.operations && "Id" in r.raw ==> raised == response
  {
    if DeleteOperation(r.kind) !in r.client.operations then Some(Raise(AttributeError))
    else match Id(r)
      case Failure(e) => Some(e)
      case Success(_) => response
  }

  /** The operations of the cleanup client that `cleanup` builds
      (xrally_docker/service.py): none of the per-kind get or delete
      operations, and no list operation for networks. */
  const SERVICE_OPERATIONS: set<string> := {"get_version", "pull_image", "list_images", "run_container"}

  /** With that client a network listing always fails and an image can be
      listed but never deleted or confirmed deleted. */
  lemma ServiceClientOperations(k: Kind, response: Result<seq<RawObject>, Error>, raw: RawObject, e: Option<Error>)
    requires k.name in {"image", "network"}
    ensures k.name == "network" ==> List(k, Client(SERVICE_OPERATIONS), response).Failure?
    ensures Delete(Resource(k, raw, Client(SERVICE_OPERATIONS)), e) == Some(Raise(AttributeError))
    ensures !IsDeleted(Resource(k, raw, Client(SERVICE_OPERATIONS)), e)
  {
    if k.name == "network" {
      assert ListOperation(k) == "list_networks";
      assert GetOperation(k) == "get_network";
      assert DeleteOperation(k) == "delete_network";
    } else {
      assert GetOperation(k) == "get_image";
      assert DeleteOperation(k) == "delete_image";
    }
  }
}
