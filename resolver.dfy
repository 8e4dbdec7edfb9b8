/** Resolution of requested kind names into resource-manager classes,
    `find_resource_managers` of xrally_docker/common/cleanup/manager.py:
    keep the registered classes whose name was requested, stable-sort them
    by `order`, and warn about requested names nobody registered.
    `registry` lists the registered classes in discovery order. */
module Resolver {
  import opened Wrappers
  import Resources

  type Kind = Resources.Kind

  /** `set(names or [])`. */
  function RequestedSet(names: Option<seq<string>>): (s: set<string>)
    ensures names.None? ==> s == {}
    ensures names.Some? ==> forall n :: n in s <==> n in names.value
  {
    match names
    case None => {}
    case Some(ns) => set n | n in ns
  }

  /** The registered kinds whose name is in `wanted`, in registry order. */
  function Select(registry: seq<Kind>, wanted: set<string>): (r: seq<Kind>)
    ensures |r| <= |registry|
    ensures forall k :: k in r <==> k in registry && k.name in wanted
    ensures wanted == {} ==> r == []
  {
    if registry == [] then []
    else Select(registry[..|registry| - 1], wanted)
         + (if registry[|registry| - 1].name in wanted then [registry[|registry| - 1]] else [])
  }

  // ---------------------------------------------------------------------
  // Python's list.sort(key=order): a stable sort.

  predicate SortedByOrder(s: seq<Kind>)
  {
    forall i, j :: 0 <= i < j < |s| ==> s[i].order <= s[j].order
  }

  /** Inserts `x` after every element whose order is not greater. */
  function Insert(s: seq<Kind>, x: Kind): seq<Kind>
  {
    if s == [] then [x]
    else if x.order < s[0].order then [x] + s
    else [s[0]] + Insert(s[1..], x)
  }

  /** Insertion sort, taking the elements in their original order. */
  function SortByOrder(s: seq<Kind>): seq<Kind>
  {
    if s == [] then [] else Insert(SortByOrder(s[..|s| - 1]), s[|s| - 1])
  }

  /** The elements with order `o`, in sequence order. */
  function WithOrder(s: seq<Kind>, o: int): seq<Kind>
  {
    if s == [] then [] else (if s[0].order == o then [s[0]] else []) + WithOrder(s[1..], o)
  }

  lemma {:induction false} WithOrderConcat(a: seq<Kind>, b: seq<Kind>, o: int)
    ensures WithOrder(a + b, o) == WithOrder(a, o) + WithOrder(b, o)
  {
    if a == [] {
      assert a + b == b;
    } else {
      assert (a + b)[1..] == a[1..] + b;
      WithOrderConcat(a[1..], b, o);
    }
  }

  lemma {:induction false} WithOrderAbsent(s: seq<Kind>, o: int)
    requires forall i :: 0 <= i < |s| ==> s[i].order != o
    ensures WithOrder(s, o) == []
  {
    if s != [] { WithOrderAbsent(s[1..], o); }
  }

  lemma {:induction false} InsertPermutes(s: seq<Kind>, x: Kind)
    ensures multiset(Insert(s, x)) == multiset(s) + multiset{x}
  {
    if s != [] && x.order >= s[0].order {
      InsertPermutes(s[1..], x);
      assert s == [s[0]] + s[1..];
    }
  }

  lemma {:induction false} InsertSorted(s: seq<Kind>, x: Kind)
    requires SortedByOrder(s)
    ensures SortedByOrder(Insert(s, x))
  {
    if s != [] && x.order >= s[0].order {
      InsertSorted(s[1..], x);
      InsertPermutes(s[1..], x);
      var t := Insert(s[1..], x);
      forall j | 0 <= j < |t| ensures s[0].order <= t[j].order {
        assert t[j] in multiset(s[1..]) + multiset{x};
        if t[j] != x {
          var i :| 0 <= i < |s[1..]| && s[1..][i] == t[j];
          assert s[i + 1] == t[j];
        }
      }
    }
  }

  lemma {:induction false} InsertKeepsOrderClasses(s: seq<Kind>, x: Kind, o: int)
    requires SortedByOrder(s)
    ensures WithOrder(Insert(s, x), o) == WithOrder(s, o) + WithOrder([x], o)
  {
    assert WithOrder([x], o) == (if x.order == o then [x] else []) + WithOrder([], o);
    if s == [] {
    } else if x.order < s[0].order {
      WithOrderConcat([x], s, o);
      if x.order == o { WithOrderAbsent(s, o); }
    } else {
      InsertKeepsOrderClasses(s[1..], x, o);
      WithOrderConcat([s[0]], Insert(s[1..], x), o);
      WithOrderConcat([s[0]], s[1..], o);
      assert s == [s[0]] + s[1..];
    }
  }

  /** The sort is a stable, sorted permutation: the result is ordered by
      `order`, holds the same elements, and the elements that share an
      `order` keep their original relative order. */
  lemma {:induction false} SortByOrderFacts(s: seq<Kind>)
    ensures SortedByOrder(SortByOrder(s))
    ensures multiset(SortByOrder(s)) == multiset(s)
    ensures forall o :: WithOrder(SortByOrder(s), o) == WithOrder(s, o)
  {
    if s != [] {
      var init, last := s[..|s| - 1], s[|s| - 1];
      SortByOrderFacts(init);
      InsertSorted(SortByOrder(init), last);
      InsertPermutes(SortByOrder(init), last);
      assert s == init + [last];
      forall o ensures WithOrder(SortByOrder(s), o) == WithOrder(s, o) {
        InsertKeepsOrderClasses(SortByOrder(init), last, o);
        WithOrderConcat(init, [last], o);
      }
    }
  }

  // ---------------------------------------------------------------------
  // find_resource_managers

  /** The managers `find_resource_managers(names)` returns. */
  function Resolved(registry: seq<Kind>, names: Option<seq<string>>): seq<Kind>
  {
    SortByOrder(Select(registry, RequestedSet(names)))
  }

  /** The requested names no registered class carries. */
  function Missing(registry: seq<Kind>, names: Option<seq<string>>): set<string>
  {
    set n | n in RequestedSet(names) && forall i :: 0 <= i < |registry| ==> registry[i].name != n
  }

  datatype Resolution = Resolution(managers: seq<Kind>, missing: set<string>, warnings: nat)

  method FindResourceManagers(registry: seq<Kind>, names: Option<seq<string>>) returns (r: Resolution)
    ensures r.managers == Resolved(registry, names)
    ensures r.missing == Missing(registry, names)
    ensures r.warnings == if r.missing == {} then 0 else 1
  {
    var wanted := RequestedSet(names);
    var selected: seq<Kind> := [];
    for i := 0 to |registry|
      invariant selected == Select(registry[..i], wanted)
    {
      assert registry[..i + 1][..i] == registry[..i];
      if registry[i].name in wanted {
        selected := selected + [registry[i]];
      }
    }
    assert registry[..|registry|] == registry;
    var managers := SortByOrder(selected);
    var found: set<string> := {};
    for i := 0 to |managers|
      invariant found == set k | k in managers[..i] :: k.name
    {
      assert managers[..i + 1] == managers[..i] + [managers[i]];
      found := found + {managers[i].name};
    }
    assert managers[..|managers|] == managers;
    var missing := wanted - found;
    MissingIsUnmatched(registry, names);
    r := Resolution(managers, missing, if missing == {} then 0 else 1);
  }

  /** Sorting neither adds nor drops a kind. */
  lemma SortedMembers(s: seq<Kind>)
    ensures forall k :: k in SortByOrder(s) <==> k in s
  {
    SortByOrderFacts(s);
    forall k ensures k in SortByOrder(s) <==> k in s {
      assert k in SortByOrder(s) <==> k in multiset(SortByOrder(s));
    }
  }

  /** The names `find_resource_managers` warns about are the requested
      names that no resolved manager carries. */
  lemma MissingIsUnmatched(registry: seq<Kind>, names: Option<seq<string>>)
    ensures RequestedSet(names) - (set k | k in Resolved(registry, names) :: k.name) == Missing(registry, names)
  {
    var wanted := RequestedSet(names);
    var m := Resolved(registry, names);
    var found := set k | k in m :: k.name;
    SortedMembers(Select(registry, wanted));
    forall i | 0 <= i < |registry| && registry[i].name in wanted
      ensures registry[i].name in found
    {
      assert registry[i] in m;
    }
    forall n | n in found ensures exists i :: 0 <= i < |registry| && registry[i].name == n {
      var k :| k in m && k.name == n;
      var i :| 0 <= i < |registry| && registry[i] == k;
    }
  }

  /** The resolved managers are exactly the registered classes whose name
      was requested (each as often as it is registered), ordered by
      `order`, with classes of equal order in registry order. */
  lemma ResolvedExactly(registry: seq<Kind>, names: Option<seq<string>>)
    ensures var m := Resolved(registry, names);
      && (forall k :: k in m <==> k in registry && k.name in RequestedSet(names))
      && multiset(m) == multiset(Select(registry, RequestedSet(names)))
      && SortedByOrder(m)
      && forall o :: WithOrder(m, o) == WithOrder(Select(registry, RequestedSet(names)), o)
  {
    var sel := Select(registry, RequestedSet(names));
    SortByOrderFacts(sel);
    SortedMembers(sel);
  }

  /** No names, or an empty list of names, resolves to no managers. */
  lemma NothingRequested(registry: seq<Kind>, names: Option<seq<string>>)
    requires names.None? || names == Some([])
    ensures Resolved(registry, names) == []
    ensures Missing(registry, names) == {}
  {
    assert RequestedSet(names) == {};
  }

  function Fake(name: string, order: int): Kind
  {
    Resources.Kind(name, name, order, 10, 3, 1, 1, Resources.NameField)
  }

  /** Asking for one of two registered kinds. */
  lemma ResolveOneOfTwo()
    ensures Resolved([Fake("fake", 1), Fake("other", 2)], Some(["fake"])) == [Fake("fake", 1)]
  {
    var reg := [Fake("fake", 1), Fake("other", 2)];
    assert reg[..1] == [Fake("fake", 1)];
    assert RequestedSet(Some(["fake"])) == {"fake"};
    assert Select(reg, {"fake"}) == [Fake("fake", 1)];
  }

  /** Asking for both kinds returns them ordered by `order`. */
  lemma ResolveBothInOrder()
    ensures Resolved([Fake("other", 2), Fake("fake", 1)], Some(["fake", "other"])) == [Fake("fake", 1), Fake("other", 2)]
  {
    var reg := [Fake("other", 2), Fake("fake", 1)];
    var wanted := {"fake", "other"};
    assert reg[..1] == [Fake("other", 2)];
    assert RequestedSet(Some(["fake", "other"])) == wanted;
    assert Select(reg[..1], wanted) == [Fake("other", 2)];
    assert Select(reg, wanted) == reg;
    assert SortByOrder(reg[..1]) == [Fake("other", 2)];
    assert Insert([Fake("other", 2)], Fake("fake", 1)) == [Fake("fake", 1), Fake("other", 2)];
  }

  /** A name nobody registered is reported missing and ignored. */
  lemma ResolveWithMissingName()
    ensures Resolved([Fake("fake", 1)], Some(["fake", "missing"])) == [Fake("fake", 1)]
    ensures Missing([Fake("fake", 1)], Some(["fake", "missing"])) == {"missing"}
  {
    var reg := [Fake("fake", 1)];
    assert RequestedSet(Some(["fake", "missing"])) == {"fake", "missing"};
    assert Select(reg, {"fake", "missing"}) == reg;
    assert "fake" != "missing";
  }
}
