/** A collection as the server runs it is a step of the runs that publication is proved over. */
module Collections {
  import opened Wrappers
  import opened ObjectGraph
  import opened HeadValidation
  import opened Publication
  import opened GarbageCollector

  /** More roots reach more. */
  lemma MoreRoots(store: Store, roots: set<Key>, more: set<Key>, key: Key)
    requires roots <= more && Reachable(store, roots, key)
    ensures Reachable(store, more, key)
  {
    var path :| IsPath(store, path) && path[0] in roots && path[|path| - 1] == key;
    assert path[0] in more;
  }

  /**
    Whatever a collection leaves on the disk, cut or not, when its roots are the published commits
    of all libraries: for each library it was a collection step from the objects before to those after.
   */
  lemma CollectionIsStep(scope: Scope, library: Library, before: Disk, after: Disk, roots: set<Key>, cutoff: int)
    requires CollectedFrom(before, after, roots, cutoff) && PublishedRoots(scope, library) <= roots
    ensures Next(scope, System(library, View(before), {}), Collect(View(after)), System(library, View(after), {}))
  {
    var store, left, own := View(before), View(after), PublishedRoots(scope, library);
    forall k | k in left
      ensures k in store && left[k] == store[k]
    {
      assert Stored(k) in after && Stored(k) in before;
    }
    forall k | k in store && Reachable(store, own, k)
      ensures k in left
    {
      MoreRoots(store, own, roots, k);
      assert Stored(k) in before && before[Stored(k)].regular;
      assert Stored(k) in after;
    }
  }

  /** So a run of the server goes on over it with the invariant kept. */
  lemma CollectionKeepsInvariant(scope: Scope, library: Library, before: Disk, after: Disk, roots: set<Key>, cutoff: int, chain: seq<Id>)
    requires CollectedFrom(before, after, roots, cutoff) && PublishedRoots(scope, library) <= roots
    requires Invariant(scope, System(library, View(before), {}), chain)
    ensures Invariant(scope, System(library, View(after), {}), chain)
  {
    var s, t := System(library, View(before), {}), System(library, View(after), {});
    CollectionIsStep(scope, library, before, after, roots, cutoff);
    var same := StepKeepsInvariant(scope, s, Collect(View(after)), t, chain);
    assert same == chain;
  }
}
