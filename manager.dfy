/** The producer/consumer steps and the orchestration of
    xrally_docker/common/cleanup/manager.py: `SeekAndDestroy` (its
    `_publisher`, `_consumer` and `exterminate`) and the generic `cleanup`.

    `exterminate` hands both steps to rally's thread broker; here the
    publisher runs first and the jobs are then consumed one by one, in the
    order they were queued.  The client's listing responses and each
    resource's `delete()`/`is_deleted()` behaviour are parameters, and so
    is rally's `name_matches_object` ownership test. */
module Manager {
  import opened Wrappers
  import opened Seqs
  import Resources
  import Deletion
  import Resolver

  type Level = Deletion.Level

  /** Answers from the client to the successive `list` calls. */
  type Listing = nat -> Result<seq<Resources.RawObject>, Resources.Error>

  /** rally's `name_matches_object(name, *resource_classes, task_id=owner_id,
      exact=False)`: does this name belong to an object of these classes
      created by this owner? */
  type Matcher = (string, seq<string>, Option<string>) -> bool

  /** rally's `RandomNameGeneratorMixin`, the default resource class. */
  const RANDOM_NAME_MIXIN := "RandomNameGeneratorMixin"

  /** Number of attempts the publisher makes at listing. */
  const LIST_ATTEMPTS := 3

  /** One cleaner: a resource kind, the client that reaches it, and the
      classes and owner whose resources it deletes. */
  datatype SeekAndDestroy = SeekAndDestroy(kind: Resources.Kind, client: Resources.Client,
                                           resourceClasses: seq<string>, ownerId: Option<string>)

  /** `SeekAndDestroy.__init__`: no classes, or an empty list of them,
      means the random-name mixin. */
  function NewSeekAndDestroy(kind: Resources.Kind, client: Resources.Client,
                             resourceClasses: Option<seq<string>>, ownerId: Option<string>): (c: SeekAndDestroy)
    ensures c.kind == kind && c.client == client && c.ownerId == ownerId
    ensures c.resourceClasses != []
    ensures resourceClasses.Some? && resourceClasses.value != [] ==> c.resourceClasses == resourceClasses.value
    ensures resourceClasses.None? || resourceClasses.value == [] ==> c.resourceClasses == [RANDOM_NAME_MIXIN]
  {
    var classes := if resourceClasses.Some? && resourceClasses.value != [] then resourceClasses.value
                   else [RANDOM_NAME_MIXIN];
    SeekAndDestroy(kind, client, classes, ownerId)
  }

  // ---------------------------------------------------------------------
  // _publisher

  /** Does the n-th call of the kind's `list` return? */
  predicate Lists(c: SeekAndDestroy, responses: Listing, n: nat)
  {
    Resources.List(c.kind, c.client, responses(n)).Success?
  }

  function ListingOk(c: SeekAndDestroy, responses: Listing): nat -> bool
  {
    (n: nat) => Lists(c, responses, n)
  }

  /** What the publisher queues, how many times it calls `list`, and what
      it logs. */
  datatype Published = Published(jobs: seq<Resources.Resource>, listCalls: nat, log: seq<Level>)

  /** `_publisher`: up to three `list` calls; the first that returns
      provides the jobs, and a listing that fails three times is logged
      once and swallowed. */
  function Publication(c: SeekAndDestroy, responses: Listing): (p: Published)
    ensures 1 <= p.listCalls <= LIST_ATTEMPTS
    ensures p.log != [] ==> p.log == [Deletion.Exception] && p.jobs == [] && p.listCalls == LIST_ATTEMPTS
  {
    match Deletion.FirstSuccess(ListingOk(c, responses), LIST_ATTEMPTS)
    case Some(n) => Published(Resources.List(c.kind, c.client, responses(n)).value, n + 1, [])
    case None => Published([], LIST_ATTEMPTS, [Deletion.Exception])
  }

  /** The publisher fails exactly when all three listings raise; otherwise
      its jobs are those of the first listing that returned, and the
      listings before it all raised. */
  lemma PublicationFacts(c: SeekAndDestroy, responses: Listing)
    ensures var p := Publication(c, responses);
      && (p.log == [] <==> exists n: nat :: n < LIST_ATTEMPTS && Lists(c, responses, n))
      && (p.log == [] ==>
            && Lists(c, responses, p.listCalls - 1)
            && (forall n: nat :: n < p.listCalls - 1 ==> !Lists(c, responses, n))
            && p.jobs == Resources.List(c.kind, c.client, responses(p.listCalls - 1)).value)
  {
    var ok := ListingOk(c, responses);
    match Deletion.FirstSuccess(ok, LIST_ATTEMPTS)
    case Some(n) =>
      assert ok(n);
      assert forall m: nat :: m < n ==> !ok(m);
    case None =>
      assert forall m: nat :: m < LIST_ATTEMPTS ==> !ok(m);
  }

  /** The deletion queue the publisher fills. */
  class JobQueue {
    var jobs: seq<Resources.Resource>

    constructor ()
      ensures jobs == []
    {
      jobs := [];
    }
  }

  /** `_publisher`, appending the listed resources to `queue` in place. */
  method Publish(c: SeekAndDestroy, responses: Listing, queue: JobQueue) returns (listCalls: nat, log: seq<Level>)
    modifies queue
    ensures queue.jobs == old(queue.jobs) + Publication(c, responses).jobs
    ensures listCalls == Publication(c, responses).listCalls
    ensures log == Publication(c, responses).log
  {
    var calls, raised := Deletion.Retry(ListingOk(c, responses), LIST_ATTEMPTS);
    listCalls := calls;
    if raised {
      log := [Deletion.Exception];
      return;
    }
    log := [];
    var items := Resources.List(c.kind, c.client, responses(calls - 1)).value;
    for i := 0 to |items|
      invariant queue.jobs == old(queue.jobs) + items[..i]
    {
      assert items[..i + 1] == items[..i] + [items[i]];
      queue.jobs := queue.jobs + [items[i]];
    }
    assert items[..|items|] == items;
  }

  // ---------------------------------------------------------------------
  // _consumer

  /** What consuming one job did. */
  datatype Consumed =
    | NameFailed(error: Resources.Error)                 // `name()` raised
    | Skipped                                            // no name matched
    | Destroyed(nameIndex: nat, trace: Deletion.Trace)   // deletion attempted

  /** A scalar name is treated as a one-element list of names. */
  function NameList(v: Resources.Value): (names: seq<string>)
    ensures v.Str? ==> names == [v.s]
    ensures v.Strs? ==> names == v.items
  {
    match v
    case Str(s) => [s]
    case Strs(items) => items
  }

  function Owned(c: SeekAndDestroy, names: seq<string>, matches: Matcher): nat -> bool
  {
    (i: nat) => i < |names| && matches(names[i], c.resourceClasses, c.ownerId)
  }

  /** `_consumer`: the resource is deleted, once, if one of its names
      matches, and the names after the first match are not looked at. */
  function Consumption(c: SeekAndDestroy, r: Resources.Resource, matches: Matcher,
                       b: Deletion.Behaviour, debug: bool): (res: Consumed)
    ensures res.NameFailed? <==> Resources.Names(r).Failure?
    ensures res.NameFailed? ==> res.error == Resources.Names(r).error
    ensures res.Skipped? <==>
      && Resources.Names(r).Success?
      && forall i :: 0 <= i < |NameList(Resources.Names(r).value)| ==>
           !matches(NameList(Resources.Names(r).value)[i], c.resourceClasses, c.ownerId)
    ensures res.Destroyed? ==>
      && Resources.Names(r).Success?
      && var names := NameList(Resources.Names(r).value);
      && res.nameIndex < |names|
      && matches(names[res.nameIndex], c.resourceClasses, c.ownerId)
      && (forall i :: 0 <= i < res.nameIndex ==> !matches(names[i], c.resourceClasses, c.ownerId))
      && res.trace == Deletion.Deletion(r, b, debug)
  {
    match Resources.Names(r)
    case Failure(e) => NameFailed(e)
    case Success(v) =>
      var names := NameList(v);
      var p := Owned(c, names, matches);
      match FirstWhere(p, 0, |names|)
      case None =>
        assert forall i: nat :: i < |names| ==> !p(i);
        assert forall i :: 0 <= i < |names| ==> !matches(names[i], c.resourceClasses, c.ownerId) by {
          forall i | 0 <= i < |names| ensures !matches(names[i], c.resourceClasses, c.ownerId) {
            assert !p(i);
          }
        }
        Skipped
      case Some(i) =>
        assert p(i);
        assert forall j :: 0 <= j < i ==> !matches(names[j], c.resourceClasses, c.ownerId) by {
          forall j | 0 <= j < i ensures !matches(names[j], c.resourceClasses, c.ownerId) {
            assert !p(j);
          }
        }
        Destroyed(i, Deletion.Deletion(r, b, debug))
  }

  /** `_consumer` as the source writes it: a scan over the names that
      stops at the first match. */
  method Consume(c: SeekAndDestroy, r: Resources.Resource, matches: Matcher,
                 b: Deletion.Behaviour, debug: bool) returns (res: Consumed)
    ensures res == Consumption(c, r, matches, b, debug)
  {
    var v := Resources.Names(r);
    if v.Failure? {
      return NameFailed(v.error);
    }
    var names := NameList(v.value);
    ghost var p := Owned(c, names, matches);
    res := Skipped;
    var i := 0;
    while i < |names|
      invariant i <= |names|
      invariant res == Skipped
      invariant FirstWhere(p, i, |names|) == FirstWhere(p, 0, |names|)
    {
      if matches(names[i], c.resourceClasses, c.ownerId) {
        assert p(i);
        var t := Deletion.DeleteSingleResource(r, b, debug);
        res := Destroyed(i, t);
        break;
      }
      i := i + 1;
    }
  }

  // ---------------------------------------------------------------------
  // exterminate

  /** Everything one cleaner's pass did: the listing, and one consumption
      per queued job, in queue order. */
  datatype Pass = Pass(cleaner: SeekAndDestroy, listCalls: nat, publishLog: seq<Level>, report: seq<Consumed>)

  /** The consumer run over the queued jobs, one consumption per job. */
  function Report(c: SeekAndDestroy, jobs: seq<Resources.Resource>, matches: Matcher,
                  behaviour: Resources.Resource -> Deletion.Behaviour, debug: bool): seq<Consumed>
  {
    seq(|jobs|, i requires 0 <= i < |jobs| => Consumption(c, jobs[i], matches, behaviour(jobs[i]), debug))
  }

  lemma ReportSnoc(c: SeekAndDestroy, jobs: seq<Resources.Resource>, i: nat, matches: Matcher,
                   behaviour: Resources.Resource -> Deletion.Behaviour, debug: bool)
    requires i < |jobs|
    ensures Report(c, jobs[..i + 1], matches, behaviour, debug)
         == Report(c, jobs[..i], matches, behaviour, debug) + [Consumption(c, jobs[i], matches, behaviour(jobs[i]), debug)]
  {
  }

  /** `exterminate`, run sequentially. */
  function Extermination(c: SeekAndDestroy, responses: Listing, matches: Matcher,
                         behaviour: Resources.Resource -> Deletion.Behaviour, debug: bool): Pass
  {
    var p := Publication(c, responses);
    Pass(c, p.listCalls, p.log, Report(c, p.jobs, matches, behaviour, debug))
  }

  /** A pass lists once (with its retries) and then consumes every queued
      job exactly once, in queue order. */
  lemma ExterminationConsumesEachJob(c: SeekAndDestroy, responses: Listing, matches: Matcher,
                                     behaviour: Resources.Resource -> Deletion.Behaviour, debug: bool)
    ensures var pass := Extermination(c, responses, matches, behaviour, debug);
            var p := Publication(c, responses);
      && pass.cleaner == c
      && pass.listCalls == p.listCalls && pass.publishLog == p.log
      && |pass.report| == |p.jobs|
      && forall i :: 0 <= i < |pass.report| ==>
           pass.report[i] == Consumption(c, p.jobs[i], matches, behaviour(p.jobs[i]), debug)
  {
  }

  method Exterminate(c: SeekAndDestroy, responses: Listing, matches: Matcher,
                     behaviour: Resources.Resource -> Deletion.Behaviour, debug: bool) returns (pass: Pass)
    ensures pass == Extermination(c, responses, matches, behaviour, debug)
  {
    var queue := new JobQueue();
    var listCalls, log := Publish(c, responses, queue);
    var jobs := queue.jobs;
    var report: seq<Consumed> := [];
    for i := 0 to |jobs|
      invariant report == Report(c, jobs[..i], matches, behaviour, debug)
    {
      var res := Consume(c, jobs[i], matches, behaviour(jobs[i]), debug);
      ReportSnoc(c, jobs, i, matches, behaviour, debug);
      report := report + [res];
    }
    assert jobs[..|jobs|] == jobs;
    pass := Pass(c, listCalls, log, report);
  }

  /** Number of `delete()` calls recorded in a report. */
  function DeleteCalls(report: seq<Consumed>): nat
  {
    if report == [] then 0
    else DeleteCalls(report[..|report| - 1])
         + (if report[|report| - 1].Destroyed? then report[|report| - 1].trace.deleteCalls else 0)
  }

  lemma {:induction false} NoDeletionNoCalls(report: seq<Consumed>)
    requires forall i :: 0 <= i < |report| ==> !report[i].Destroyed?
    ensures DeleteCalls(report) == 0
  {
    if report != [] {
      NoDeletionNoCalls(report[..|report| - 1]);
    }
  }

  /** Resources are only deleted for a name the owner test accepts: when
      the test accepts no name, a pass deletes nothing, so running it
      again finds the same resources untouched. */
  lemma NothingOwnedNothingDeleted(c: SeekAndDestroy, responses: Listing, matches: Matcher,
                                   behaviour: Resources.Resource -> Deletion.Behaviour, debug: bool)
    requires forall name :: !matches(name, c.resourceClasses, c.ownerId)
    ensures var pass := Extermination(c, responses, matches, behaviour, debug);
      && (forall i :: 0 <= i < |pass.report| ==> !pass.report[i].Destroyed?)
      && DeleteCalls(pass.report) == 0
  {
    var pass := Extermination(c, responses, matches, behaviour, debug);
    NoDeletionNoCalls(pass.report);
  }

  /** Every deletion in a pass was triggered by a name of that job that
      the owner test accepts. */
  lemma DeletionsAreOwned(c: SeekAndDestroy, responses: Listing, matches: Matcher,
                          behaviour: Resources.Resource -> Deletion.Behaviour, debug: bool, i: nat)
    requires i < |Extermination(c, responses, matches, behaviour, debug).report|
    requires Extermination(c, responses, matches, behaviour, debug).report[i].Destroyed?
    ensures var job := Publication(c, responses).jobs[i];
      && Resources.Names(job).Success?
      && exists name :: name in NameList(Resources.Names(job).value)
           && matches(name, c.resourceClasses, c.ownerId)
  {
    var job := Publication(c, responses).jobs[i];
    var res := Extermination(c, responses, matches, behaviour, debug).report[i];
    assert res == Consumption(c, job, matches, behaviour(job), debug);
    var names := NameList(Resources.Names(job).value);
    assert names[res.nameIndex] in names;
  }

  // ---------------------------------------------------------------------
  // cleanup

  /** The subclasses that are random-name mixins, in discovery order. */
  function MixinSubclasses(subclasses: seq<string>, isMixin: string -> bool): (r: seq<string>)
    ensures forall x :: x in r <==> x in subclasses && isMixin(x)
  {
    if subclasses == [] then []
    else MixinSubclasses(subclasses[..|subclasses| - 1], isMixin)
         + (if isMixin(subclasses[|subclasses| - 1]) then [subclasses[|subclasses| - 1]] else [])
  }

  /** The classes `cleanup` matches resource names against: the mixin
      subclasses of `superclass`, or, when there are none, `superclass`
      itself if it is a mixin. */
  function ResourceClasses(superclass: string, subclasses: seq<string>, isMixin: string -> bool): (classes: seq<string>)
    ensures forall x :: x in classes ==> isMixin(x)
    ensures forall x :: x in subclasses && isMixin(x) ==> x in classes
    ensures classes == [] <==> !isMixin(superclass) && forall x :: x in subclasses ==> !isMixin(x)
    ensures superclass in classes && superclass !in subclasses ==> classes == [superclass]
    ensures (exists x :: x in subclasses && isMixin(x)) ==> classes == MixinSubclasses(subclasses, isMixin)
    ensures (forall x :: x in subclasses ==> !isMixin(x)) && isMixin(superclass) ==> classes == [superclass]
  {
    var found := MixinSubclasses(subclasses, isMixin);
    assert found != [] ==> found[0] in found;
    if found == [] && isMixin(superclass) then [superclass] else found
  }

  /** The arguments a task context gives `cleanup` besides the client
      spec: the kind names, the plugin superclass and the owner id. */
  datatype CleanupCall = CleanupCall(names: Option<seq<string>>, superclass: string, ownerId: Option<string>)

  /** Log of the deletions recorded in a report. */
  function ReportLog(report: seq<Consumed>): seq<Level>
  {
    if report == [] then []
    else ReportLog(report[..|report| - 1])
         + (if report[|report| - 1].Destroyed? then report[|report| - 1].trace.log else [])
  }

  /** Everything one pass logs. */
  function PassLog(pass: Pass): seq<Level>
  {
    pass.publishLog + ReportLog(pass.report)
  }

  /** The passes' logs, each announced by one debug line. */
  function RunLog(passes: seq<Pass>): seq<Level>
  {
    if passes == [] then []
    else RunLog(passes[..|passes| - 1]) + [Deletion.Debug] + PassLog(passes[|passes| - 1])
  }

  /** What one `cleanup` call did: the kinds it resolved, the classes it
      matched names against, one pass per kind, and the log. */
  datatype CleanupRun = CleanupRun(managers: seq<Resources.Kind>, classes: seq<string>,
                                   passes: seq<Pass>, log: seq<Level>)

  /** One pass per kind, in order, with the same classes and owner. */
  function Passes(managers: seq<Resources.Kind>, classes: seq<string>, ownerId: Option<string>,
                  docker: Resources.Client, listings: Resources.Kind -> Listing, matches: Matcher,
                  behaviour: Resources.Resource -> Deletion.Behaviour, debug: bool): (passes: seq<Pass>)
  {
    seq(|managers|, i requires 0 <= i < |managers| =>
      PassOf(managers[i], classes, ownerId, docker, listings, matches, behaviour, debug))
  }

  /** The pass of one kind's cleaner. */
  function PassOf(manager: Resources.Kind, classes: seq<string>, ownerId: Option<string>,
                  docker: Resources.Client, listings: Resources.Kind -> Listing, matches: Matcher,
                  behaviour: Resources.Resource -> Deletion.Behaviour, debug: bool): Pass
  {
    Extermination(NewSeekAndDestroy(manager, docker, Some(classes), ownerId), listings(manager), matches, behaviour, debug)
  }

  /** `cleanup(spec, names, superclass, owner_id)`: `registry` lists the
      registered resource-manager classes, `subclasses` the plugins under
      `superclass`, and `listings` what the client answers each kind. */
  function CleanupOf(registry: seq<Resources.Kind>, names: Option<seq<string>>, superclass: string,
                     subclasses: seq<string>, isMixin: string -> bool, ownerId: Option<string>,
                     docker: Resources.Client, listings: Resources.Kind -> Listing, matches: Matcher,
                     behaviour: Resources.Resource -> Deletion.Behaviour, debug: bool): CleanupRun
  {
    var managers := Resolver.Resolved(registry, names);
    var classes := ResourceClasses(superclass, subclasses, isMixin);
    var passes := Passes(managers, classes, ownerId, docker, listings, matches, behaviour, debug);
    CleanupRun(managers, classes, passes,
               (if Resolver.Missing(registry, names) == {} then [] else [Deletion.Warning]) + RunLog(passes))
  }

  /** A `cleanup` run makes one pass per resolved kind, in resolution
      order, each with the same client, owner and resource classes, and
      logs one warning if requested kinds are missing. */
  lemma CleanupPassesInOrder(registry: seq<Resources.Kind>, names: Option<seq<string>>, superclass: string,
                             subclasses: seq<string>, isMixin: string -> bool, ownerId: Option<string>,
                             docker: Resources.Client, listings: Resources.Kind -> Listing, matches: Matcher,
                             behaviour: Resources.Resource -> Deletion.Behaviour, debug: bool)
    ensures var run := CleanupOf(registry, names, superclass, subclasses, isMixin, ownerId,
                                 docker, listings, matches, behaviour, debug);
      && run.managers == Resolver.Resolved(registry, names)
      && |run.passes| == |run.managers|
      && (forall i :: 0 <= i < |run.passes| ==>
            var c := run.passes[i].cleaner;
            && c.kind == run.managers[i]
            && c.client == docker
            && c.ownerId == ownerId
            && (run.classes != [] ==> c.resourceClasses == run.classes)
            && run.passes[i] == Extermination(c, listings(c.kind), matches, behaviour, debug))
      && (forall i, j :: 0 <= i < |run.passes| && 0 <= j < |run.passes| ==>
            run.passes[i].cleaner.resourceClasses == run.passes[j].cleaner.resourceClasses)
      && (run.log != [] && run.log[0] == Deletion.Warning <==> Resolver.Missing(registry, names) != {})
  {
    var run := CleanupOf(registry, names, superclass, subclasses, isMixin, ownerId,
                         docker, listings, matches, behaviour, debug);
    if Resolver.Missing(registry, names) == {} && run.log != [] {
      assert run.log == RunLog(run.passes);
      RunLogStartsWithDebug(run.passes);
    }
  }

  lemma RunLogStartsWithDebug(passes: seq<Pass>)
    requires passes != []
    ensures RunLog(passes) != [] && RunLog(passes)[0] == Deletion.Debug
  {
    if |passes| > 1 {
      RunLogStartsWithDebug(passes[..|passes| - 1]);
    }
  }

  lemma RunLogSnoc(passes: seq<Pass>, pass: Pass)
    ensures RunLog(passes + [pass]) == RunLog(passes) + [Deletion.Debug] + PassLog(pass)
  {
    assert (passes + [pass])[..|passes|] == passes;
  }

  lemma PassesSnoc(managers: seq<Resources.Kind>, i: nat, classes: seq<string>, ownerId: Option<string>,
                   docker: Resources.Client, listings: Resources.Kind -> Listing, matches: Matcher,
                   behaviour: Resources.Resource -> Deletion.Behaviour, debug: bool)
    requires i < |managers|
    ensures Passes(managers[..i + 1], classes, ownerId, docker, listings, matches, behaviour, debug)
         == Passes(managers[..i], classes, ownerId, docker, listings, matches, behaviour, debug)
            + [PassOf(managers[i], classes, ownerId, docker, listings, matches, behaviour, debug)]
  {
  }

  /** The loop of `cleanup`: one announced pass per kind, in order. */
  method RunPasses(managers: seq<Resources.Kind>, classes: seq<string>, ownerId: Option<string>,
                   docker: Resources.Client, listings: Resources.Kind -> Listing, matches: Matcher,
                   behaviour: Resources.Resource -> Deletion.Behaviour, debug: bool)
    returns (passes: seq<Pass>, log: seq<Level>)
    ensures passes == Passes(managers, classes, ownerId, docker, listings, matches, behaviour, debug)
    ensures log == RunLog(passes)
  {
    passes, log := [], [];
    for i := 0 to |managers|
      invariant passes == Passes(managers[..i], classes, ownerId, docker, listings, matches, behaviour, debug)
      invariant log == RunLog(passes)
    {
      log := log + [Deletion.Debug];
      var c := NewSeekAndDestroy(managers[i], docker, Some(classes), ownerId);
      var pass := Exterminate(c, listings(managers[i]), matches, behaviour, debug);
      PassesSnoc(managers, i, classes, ownerId, docker, listings, matches, behaviour, debug);
      RunLogSnoc(passes, pass);
      passes := passes + [pass];
      log := log + PassLog(pass);
    }
    assert managers[..|managers|] == managers;
  }

  /** `cleanup`: resolve the kinds, then run their passes. */
  method Cleanup(registry: seq<Resources.Kind>, names: Option<seq<string>>, superclass: string,
                 subclasses: seq<string>, isMixin: string -> bool, ownerId: Option<string>,
                 docker: Resources.Client, listings: Resources.Kind -> Listing, matches: Matcher,
                 behaviour: Resources.Resource -> Deletion.Behaviour, debug: bool) returns (run: CleanupRun)
    ensures run == CleanupOf(registry, names, superclass, subclasses, isMixin, ownerId,
                             docker, listings, matches, behaviour, debug)
  {
    var classes := ResourceClasses(superclass, subclasses, isMixin);
    var resolution := Resolver.FindResourceManagers(registry, names);
    var warned: seq<Level> := if resolution.warnings == 0 then [] else [Deletion.Warning];
    var passes, log := RunPasses(resolution.managers, classes, ownerId, docker, listings, matches, behaviour, debug);
    run := CleanupRun(resolution.managers, classes, passes, warned + log);
  }

  /** Without names `cleanup` resolves no kind: it makes no pass and logs
      nothing. */
  lemma CleanupWithoutNames(registry: seq<Resources.Kind>, superclass: string, subclasses: seq<string>,
                            isMixin: string -> bool, ownerId: Option<string>, docker: Resources.Client,
                            listings: Resources.Kind -> Listing, matches: Matcher,
                            behaviour: Resources.Resource -> Deletion.Behaviour, debug: bool)
    ensures var run := CleanupOf(registry, None, superclass, subclasses, isMixin, ownerId,
                                 docker, listings, matches, behaviour, debug);
      run.passes == [] && run.log == []
  {
    Resolver.NothingRequested(registry, None);
    assert Resolver.Resolved(registry, None) == [];
  }

  // ---------------------------------------------------------------------
  // Scenarios of the unit tests.

  const TestKind := Resources.Kind("Fake", "fake", 0, 10, 3, 1, 1, Resources.NameField)
  const TestClient := Resources.Client({"list_fakes"})

  /** The listing fails twice and then returns three objects: three
      `list` calls, and the three objects are queued in order. */
  lemma PublisherRetriesListing(o1: Resources.RawObject, o2: Resources.RawObject, o3: Resources.RawObject)
    ensures var c := NewSeekAndDestroy(TestKind, TestClient, None, None);
      var responses: Listing := (n: nat) =>
        if n < 2 then Failure(Resources.Raise(Resources.ApiFailure)) else Success([o1, o2, o3]);
      var p := Publication(c, responses);
      && p.listCalls == 3
      && p.log == []
      && p.jobs == [Resources.Resource(TestKind, o1, TestClient),
                    Resources.Resource(TestKind, o2, TestClient),
                    Resources.Resource(TestKind, o3, TestClient)]
  {
    var c := NewSeekAndDestroy(TestKind, TestClient, None, None);
    var responses: Listing := (n: nat) =>
      if n < 2 then Failure(Resources.Raise(Resources.ApiFailure)) else Success([o1, o2, o3]);
    assert Resources.ListOperation(TestKind) == "list_fakes" by {
      assert Resources.Plural("fake") == "fakes";
    }
    assert Lists(c, responses, 2);
    assert !Lists(c, responses, 0) && !Lists(c, responses, 1);
  }

  /** A resource named ["xxx", "yyy", "s_rally"] whose owner test accepts
      every name is deleted once, for its first name. */
  lemma ConsumerStopsAtFirstMatch(b: Deletion.Behaviour, debug: bool)
    ensures var c := NewSeekAndDestroy(TestKind, TestClient, None, None);
      var r := Resources.Resource(TestKind, map["Name" := Resources.Strs(["xxx", "yyy", "s_rally"])], TestClient);
      Consumption(c, r, (name: string, classes: seq<string>, owner: Option<string>) => true, b, debug)
        == Destroyed(0, Deletion.Deletion(r, b, debug))
  {
  }

  /** The same resource, when only "s_rally" is owned, is deleted for its
      third name. */
  lemma ConsumerFindsLaterMatch(b: Deletion.Behaviour, debug: bool)
    ensures var c := NewSeekAndDestroy(TestKind, TestClient, None, None);
      var r := Resources.Resource(TestKind, map["Name" := Resources.Strs(["xxx", "yyy", "s_rally"])], TestClient);
      Consumption(c, r, (name: string, classes: seq<string>, owner: Option<string>) => name == "s_rally", b, debug)
        == Destroyed(2, Deletion.Deletion(r, b, debug))
  {
    var names := ["xxx", "yyy", "s_rally"];
    assert names[0] != "s_rally" && names[1] != "s_rally";
  }

  /** Plugins A and B under the superclass, only A a mixin: names are
      matched against [A]; with no mixin at all, against the default. */
  lemma ResourceClassesExample()
    ensures ResourceClasses("Scenario", ["A", "B"], (x: string) => x == "A") == ["A"]
    ensures ResourceClasses("Mixin", ["A"], (x: string) => x == "Mixin") == ["Mixin"]
    ensures NewSeekAndDestroy(TestKind, TestClient, Some(ResourceClasses("Scenario", ["B"], (x: string) => false)), None)
              .resourceClasses == [RANDOM_NAME_MIXIN]
  {
    var isA := (x: string) => x == "A";
    assert ["A", "B"][..1] == ["A"];
    assert MixinSubclasses(["A"], isA) == ["A"];
    assert "B" != "A";
    assert ["A"][..0] == [];
    assert "A" != "Mixin";
  }
}
