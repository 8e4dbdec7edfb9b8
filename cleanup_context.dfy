/** The "cleanup" task context, xrally_docker/task/contexts/cleanup.py:
    the validator that checks the requested cleanup kinds exist, and the
    arguments the context passes to the cleanup engine. */
module CleanupContext {
  import opened Wrappers
  import Text
  import Resources
  import Resolver
  import Manager

  /** What a validator returns: nothing, or a failure with its message. */
  datatype Verdict = Passed | Failed(message: string)

  /** The requested names that no registered resource manager carries. */
  function MissingNames(registry: seq<Resources.Kind>, pluginCfg: seq<string>): (missing: set<string>)
    ensures forall n :: n in missing <==> n in pluginCfg && forall k :: k in registry ==> k.name != n
  {
    (set n | n in pluginCfg) - (set k | k in registry :: k.name)
  }

  /** `listing` runs through the set `s`, each member once: the order in
      which Python iterates the set of missing names. */
  ghost predicate Enumerates(listing: seq<string>, s: set<string>)
  {
    && (forall x :: x in listing <==> x in s)
    && forall i, j :: 0 <= i < j < |listing| ==> listing[i] != listing[j]
  }

  const FAILURE_PREFIX := "Couldn't find cleanup resource managers: "

  /** The failure message: the missing names joined by ", ". */
  function FailureMessage(listing: seq<string>): string
  {
    FAILURE_PREFIX + Text.Join(listing, ", ")
  }

  /** An enumeration joins to the empty string exactly when the set is
      empty or holds only the empty name. */
  lemma JoinedEnumerationEmpty(listing: seq<string>, s: set<string>)
    requires Enumerates(listing, s)
    ensures Text.Join(listing, ", ") == "" <==> s == {} || s == {""}
  {
    Text.JoinEmpty(listing, ", ");
    assert listing != [] ==> listing[0] in listing;
    if listing == [] {
      assert forall x :: x !in s;
    }
    if listing == [""] {
      assert s == {""};
    }
    if s == {""} {
      forall i | 0 <= i < |listing| ensures listing[i] == "" {
        assert listing[i] in listing;
      }
      assert "" in listing;
      assert listing == [""];
    }
  }

  /** `validate` as the source writes it: it joins the missing names and
      fails only when the joined string is non-empty. */
  function ValidateAsWritten(registry: seq<Resources.Kind>, pluginCfg: seq<string>, listing: seq<string>): (v: Verdict)
    requires Enumerates(listing, MissingNames(registry, pluginCfg))
    ensures v.Failed? ==> v.message == FailureMessage(listing)
    ensures v.Failed? <==> MissingNames(registry, pluginCfg) != {} && MissingNames(registry, pluginCfg) != {""}
  {
    JoinedEnumerationEmpty(listing, MissingNames(registry, pluginCfg));
    var joined := Text.Join(listing, ", ");
    if joined != "" then Failed(FAILURE_PREFIX + joined) else Passed
  }

  /** Counterexample: when no manager is named "", the request [""] names
      a missing manager, yet the validator as written lets it pass. */
  lemma ValidatorAcceptsEmptyName(registry: seq<Resources.Kind>)
    requires forall k :: k in registry ==> k.name != ""
    ensures MissingNames(registry, [""]) == {""}
    ensures ValidateAsWritten(registry, [""], [""]) == Passed
  {
    assert MissingNames(registry, [""]) == {""};
  }

  /** `validate` as intended: it fails exactly when some requested name is
      not the name of a registered resource manager. */
  function Validate(registry: seq<Resources.Kind>, pluginCfg: seq<string>, listing: seq<string>): (v: Verdict)
    requires Enumerates(listing, MissingNames(registry, pluginCfg))
    ensures v.Failed? <==> exists n :: n in pluginCfg && forall k :: k in registry ==> k.name != n
    ensures v.Failed? ==> v.message == FailureMessage(listing)
  {
    var missing := MissingNames(registry, pluginCfg);
    if missing != {} then
      assert exists n :: n in missing;
      Failed(FailureMessage(listing))
    else Passed
  }

  /** The two agree except when the only missing name is "". */
  lemma ValidateAgreesAsWritten(registry: seq<Resources.Kind>, pluginCfg: seq<string>, listing: seq<string>)
    requires Enumerates(listing, MissingNames(registry, pluginCfg))
    ensures ValidateAsWritten(registry, pluginCfg, listing) == Validate(registry, pluginCfg, listing)
            <==> MissingNames(registry, pluginCfg) != {""}
  {
    if MissingNames(registry, pluginCfg) != {} {
      var n :| n in MissingNames(registry, pluginCfg);
    }
  }

  /** Only the set of requested names matters: their order and
      repetitions do not change the verdict. */
  lemma ValidateIgnoresOrderAndDuplicates(registry: seq<Resources.Kind>, a: seq<string>, b: seq<string>,
                                          listing: seq<string>)
    requires forall n :: n in a <==> n in b
    requires Enumerates(listing, MissingNames(registry, a))
    ensures Enumerates(listing, MissingNames(registry, b))
    ensures Validate(registry, a, listing) == Validate(registry, b, listing)
  {
    assert MissingNames(registry, a) == MissingNames(registry, b);
  }

  // ---------------------------------------------------------------------
  // Cleanup.cleanup

  /** rally-docker's scenario base class, whose plugins the context cleans. */
  const BASE_DOCKER_SCENARIO := "BaseDockerScenario"

  /** `cleanup` as the source writes it: no names are passed. */
  function CleanupRequestAsWritten(config: seq<string>, ownerId: Option<string>): (call: Manager.CleanupCall)
    ensures call.names.None?
    ensures call.superclass == BASE_DOCKER_SCENARIO && call.ownerId == ownerId
  {
    Manager.CleanupCall(None, BASE_DOCKER_SCENARIO, ownerId)
  }

  /** Counterexample: whatever kinds the context is configured with, the
      engine resolves none of them and makes no pass. */
  lemma CleanupContextCleansNothing(config: seq<string>, ownerId: Option<string>, registry: seq<Resources.Kind>,
                                    subclasses: seq<string>, isMixin: string -> bool, docker: Resources.Client,
                                    listings: Resources.Kind -> Manager.Listing, matches: Manager.Matcher,
                                    behaviour: Resources.Resource -> Manager.Deletion.Behaviour, debug: bool)
    ensures var call := CleanupRequestAsWritten(config, ownerId);
      Manager.CleanupOf(registry, call.names, call.superclass, subclasses, isMixin, call.ownerId,
                        docker, listings, matches, behaviour, debug).passes == []
  {
    Manager.CleanupWithoutNames(registry, BASE_DOCKER_SCENARIO, subclasses, isMixin, ownerId,
                                docker, listings, matches, behaviour, debug);
  }

  /** `cleanup` as intended: the configured kinds are passed as names. */
  function CleanupRequest(config: seq<string>, ownerId: Option<string>): (call: Manager.CleanupCall)
    ensures call.names == Some(config)
    ensures call.superclass == BASE_DOCKER_SCENARIO && call.ownerId == ownerId
  {
    Manager.CleanupCall(Some(config), BASE_DOCKER_SCENARIO, ownerId)
  }

  /** With the configured kinds passed on, a configuration the validator
      accepts makes one pass per registered kind it names, in `order`. */
  lemma CleanupContextCleansConfiguredKinds(config: seq<string>, ownerId: Option<string>,
                                            registry: seq<Resources.Kind>, listing: seq<string>)
    requires Enumerates(listing, MissingNames(registry, config))
    requires Validate(registry, config, listing) == Passed
    ensures var managers := Resolver.Resolved(registry, CleanupRequest(config, ownerId).names);
      && (forall k :: k in managers <==> k in registry && k.name in config)
      && (forall n :: n in config ==> exists k :: k in managers && k.name == n)
      && Resolver.SortedByOrder(managers)
  {
    var names := CleanupRequest(config, ownerId).names;
    Resolver.ResolvedExactly(registry, names);
    var managers := Resolver.Resolved(registry, names);
    forall n | n in config ensures exists k :: k in managers && k.name == n {
      assert n !in MissingNames(registry, config);
      var k :| k in registry && k.name == n;
      assert k in managers;
    }
  }

  /** The context's message for the unknown kind "foo". */
  lemma ValidateExample(registry: seq<Resources.Kind>)
    requires forall k :: k in registry ==> k.name != "foo"
    ensures Validate(registry, ["foo"], ["foo"]) == Failed("Couldn't find cleanup resource managers: foo")
  {
    assert MissingNames(registry, ["foo"]) == {"foo"};
  }
}
