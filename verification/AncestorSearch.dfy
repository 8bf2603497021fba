/** Whether a remote commit descends from another: a search with a stack, a seen set and a shared budget. */
module AncestorSearch {
  import opened Wrappers
  import opened Bytes
  import opened PendingMerge

  type Remote = Id -> Option<Commit>

  /** A way from the first commit to the last, each next one a parent. */
  ghost predicate Way(remote: Remote, path: seq<Id>) {
    path != [] && forall k :: 0 <= k < |path| - 1 ==> Parents(remote, path[k], path[k + 1])
  }

  predicate Parents(remote: Remote, id: Id, parent: Id) {
    remote(id).Some? && parent in remote(id).value.parents
  }

  ghost predicate Descends(remote: Remote, id: Id, ancestor: Id) {
    exists path :: Way(remote, path) && path[0] == id && path[|path| - 1] == ancestor
  }

  lemma DescendsItself(remote: Remote, id: Id)
    ensures Descends(remote, id, id)
  {
    assert Way(remote, [id]);
  }

  lemma DescendsMore(remote: Remote, id: Id, middle: Id, parent: Id)
    requires Descends(remote, id, middle) && Parents(remote, middle, parent)
    ensures Descends(remote, id, parent)
  {
    var path :| Way(remote, path) && path[0] == id && path[|path| - 1] == middle;
    var longer := path + [parent];
    forall k | 0 <= k < |longer| - 1
      ensures Parents(remote, longer[k], longer[k + 1])
    {
      assert k < |path| - 1 ==> Parents(remote, path[k], path[k + 1]);
    }
    assert Way(remote, longer);
  }

  /** Every parent of a commit in the set is in the set. */
  ghost predicate Closed(remote: Remote, ids: set<Id>) {
    forall id, parent :: id in ids && Parents(remote, id, parent) ==> parent in ids
  }

  lemma {:induction false} ClosedHolds(remote: Remote, ids: set<Id>, path: seq<Id>)
    requires Closed(remote, ids) && Way(remote, path) && path[0] in ids
    ensures path[|path| - 1] in ids
    decreases |path|
  {
    if |path| > 1 {
      assert Parents(remote, path[0], path[1]);
      forall k | 0 <= k < |path[1..]| - 1
        ensures Parents(remote, path[1..][k], path[1..][k + 1])
      {
        assert Parents(remote, path[k + 1], path[k + 2]);
      }
      ClosedHolds(remote, ids, path[1..]);
    }
  }

  lemma NothingOutside(remote: Remote, ids: set<Id>, id: Id, ancestor: Id)
    requires Closed(remote, ids) && id in ids && ancestor !in ids
    ensures !Descends(remote, id, ancestor)
  {
    forall path | Way(remote, path) && path[0] == id
      ensures path[|path| - 1] != ancestor
    {
      ClosedHolds(remote, ids, path);
    }
  }

  datatype SearchError = OutOfBudget | NoCommit | OtherOwner

  /** The budget that all searches and replays of one synchronization share. */
  class ReplayBudget {
    const limit: nat
    var fetches: nat
    var walks: nat
    var walked: set<Id>
    var commits: map<Id, Commit>

    constructor (limit: nat)
      ensures this.limit == limit && Valid() && walked == {} && commits == map[]
    {
      this.limit := limit;
      fetches, walks, walked, commits := 0, 0, {}, map[];
    }

    /** A commit is counted as walked once, and at most `limit` are; no more than `limit` are fetched. */
    ghost predicate Valid()
      reads this
    {
      walks == |walked| <= limit && |commits| == fetches <= limit
    }

    /** Cached commits are what the remote would give. */
    ghost predicate Caches(remote: Remote)
      reads this
    {
      forall id :: id in commits ==> remote(id) == Some(commits[id])
    }

    method Fetch(remote: Remote, id: Id) returns (r: Result<Commit, SearchError>)
      requires Valid() && Caches(remote)
      modifies this`fetches, this`commits
      ensures Valid() && Caches(remote) && old(commits).Keys <= commits.Keys
      ensures r.Ok? ==> remote(id) == Some(r.value)
      ensures r.Err? ==> r.error != OtherOwner && (r.error == NoCommit ==> remote(id).None?)
    {
      if id in commits {
        return Ok(commits[id]);
      }
      if fetches >= limit {
        return Err(OutOfBudget);
      }
      var commit := remote(id);
      if commit.None? {
        return Err(NoCommit);
      }
      fetches := fetches + 1;
      commits := commits[id := commit.value];
      return Ok(commit.value);
    }

    /** Counts a commit the first time it is walked. */
    method Walk(id: Id) returns (ok: bool)
      requires Valid()
      modifies this`walks, this`walked
      ensures ok ==> Valid() && walked == old(walked) + {id}
      ensures !ok ==> id !in old(walked) && |old(walked)| == limit
    {
      if id !in walked {
        walked := walked + {id};
        walks := walks + 1;
        if walks > limit {
          return false;
        }
      } else {
        assert walked == walked + {id};
      }
      return true;
    }

    /** One commit of the search: counted, fetched, and of the right owner. */
    method Visit(remote: Remote, id: Id, owner: Bytes) returns (r: Result<Commit, SearchError>)
      requires Valid() && Caches(remote)
      modifies this
      ensures r.Ok? ==> Valid() && Caches(remote) && walked == old(walked) + {id} && remote(id) == Some(r.value) && r.value.author == owner
      ensures r == Err(NoCommit) ==> remote(id).None?
      ensures r == Err(OtherOwner) ==> remote(id).Some? && remote(id).value.author != owner
    {
      var ok := Walk(id);
      if !ok {
        return Err(OutOfBudget);
      }
      r := Fetch(remote, id);
      if r.Ok? && r.value.author != owner {
        return Err(OtherOwner);
      }
    }

    /**
      Whether `head` descends from `ancestor`, a commit counting as its own descendant. The answer
      is exact; the only other ends are a used-up budget, a commit that cannot be fetched, and one
      of another owner.
     */
    method DescendsFrom(remote: Remote, head: Id, ancestor: Id, owner: Bytes) returns (r: Result<bool, SearchError>)
      requires Valid() && Caches(remote)
      modifies this
      ensures r.Ok? ==> Valid() && Caches(remote) && (r.value <==> Descends(remote, head, ancestor))
      ensures r == Err(NoCommit) ==> exists id :: Descends(remote, head, id) && remote(id).None?
      ensures r == Err(OtherOwner) ==> exists id :: Descends(remote, head, id) && remote(id).Some? && remote(id).value.author != owner
    {
      var pending, seen: set<Id> := [head], {};
      DescendsItself(remote, head);
      while pending != []
        invariant Valid() && Caches(remote) && seen <= walked && ancestor !in seen && Frontier(remote, head, seen, pending)
        decreases limit - |seen|, |pending|
      {
        var id := pending[|pending| - 1];
        var rest := pending[..|pending| - 1];
        FrontierTop(remote, head, seen, pending);
        assert pending == rest + [id];
        pending := rest;
        if id == ancestor {
          return Ok(true);
        }
        if id !in seen {
          var commit := Visit(remote, id, owner);
          if commit.Err? {
            return Err(commit.error);
          }
          SmallerSet(seen + {id}, walked);
          FrontierMore(remote, head, seen, rest, id, commit.value);
          seen, pending := seen + {id}, rest + commit.value.parents;
        }
      }
      NothingOutside(remote, seen, head, ancestor);
      return Ok(false);
    }
  }

  /** What is still to be visited descends from the head, and covers every parent of what was visited. */
  ghost predicate Frontier(remote: Remote, head: Id, seen: set<Id>, pending: seq<Id>) {
    && (forall id :: id in pending ==> Descends(remote, head, id)) && (head in seen || head in pending)
    && (forall id, parent {:trigger Parents(remote, id, parent)} :: id in seen && Parents(remote, id, parent) ==> parent in seen || parent in pending)
  }

  lemma FrontierTop(remote: Remote, head: Id, seen: set<Id>, pending: seq<Id>)
    requires Frontier(remote, head, seen, pending) && pending != []
    ensures var id := pending[|pending| - 1];
            Descends(remote, head, id) && (id in seen ==> Frontier(remote, head, seen, pending[..|pending| - 1]))
  {
    var rest := pending[..|pending| - 1];
    assert pending == rest + [pending[|pending| - 1]];
  }

  lemma FrontierMore(remote: Remote, head: Id, seen: set<Id>, rest: seq<Id>, id: Id, commit: Commit)
    requires Frontier(remote, head, seen, rest + [id]) && remote(id) == Some(commit)
    ensures Frontier(remote, head, seen + {id}, rest + commit.parents)
  {
    forall parent | parent in commit.parents
      ensures Descends(remote, head, parent)
    {
      DescendsMore(remote, head, id, parent);
    }
    var after := rest + commit.parents;
    forall a, b | a in seen + {id} && Parents(remote, a, b)
      ensures b in seen + {id} || b in after
    {
      if a != id {
        assert b in seen || b in rest + [id];
      }
    }
  }

  lemma SmallerSet<T>(some: set<T>, all: set<T>)
    requires some <= all
    ensures |some| <= |all|
  {
    assert all == some + (all - some);
  }
}
