/** `MemoryLocker`: which merge request owns which project root of a repository. */
module Locker {
  import opened Options
  import opened Discovery

  type Owners = map<CleanPath, int>
  type Locks = map<string, Owners>

  function OwnersOf(l: Locks, repo: string): (m: Owners) {
    if repo in l then l[repo] else map[]
  }

  function OwnerOf(l: Locks, repo: string, root: CleanPath): (o: Option<int>) {
    var m := OwnersOf(l, repo);
    if root in m then Some(m[root]) else None
  }

  predicate Free(l: Locks, repo: string, root: CleanPath, mr: int) {
    OwnerOf(l, repo, root) == None || OwnerOf(l, repo, root) == Some(mr)
  }

  function Acquired(l: Locks, repo: string, root: CleanPath, mr: int): (r: Locks) {
    var m := OwnersOf(l, repo);
    l[repo := if Free(l, repo, root, mr) then m[root := mr] else m]
  }

  function Except(m: Owners, mr: int): (r: Owners) {
    map root | root in m && m[root] != mr :: m[root]
  }

  function ReleasedByMR(l: Locks, repo: string, mr: int): (r: Locks) {
    if repo !in l then l else l[repo := Except(l[repo], mr)]
  }

  /** Ownership after each operation, root by root. */
  lemma OwnerAfter(l: Locks, repo: string, root: CleanPath, mr: int, repo': string, root': CleanPath)
    ensures OwnerOf(Acquired(l, repo, root, mr), repo', root') ==
      if Free(l, repo, root, mr) && repo' == repo && root' == root then Some(mr) else OwnerOf(l, repo', root')
    ensures OwnerOf(ReleasedByMR(l, repo, mr), repo', root') ==
      if repo' == repo && OwnerOf(l, repo', root') == Some(mr) then None else OwnerOf(l, repo', root')
  {
  }

  class MemoryLocker {
    var locks: Locks

    constructor ()
      ensures locks == map[]
    {
      locks := map[];
    }

    method Acquire(repo: string, root: CleanPath, mr: int) returns (ok: bool, owner: int)
      modifies this
      ensures ok == Free(old(locks), repo, root, mr)
      ensures OwnerOf(locks, repo, root) == Some(owner)
      ensures locks == Acquired(old(locks), repo, root, mr)
    {
      if repo !in locks {
        locks := locks[repo := map[]];
      }
      if root !in locks[repo] || locks[repo][root] == mr {
        locks := locks[repo := locks[repo][root := mr]];
        return true, mr;
      }
      assert locks == Acquired(old(locks), repo, root, mr);
      return false, locks[repo][root];
    }

    method ReleaseByMR(repo: string, mr: int)
      modifies this
      ensures locks == ReleasedByMR(old(locks), repo, mr)
    {
      if repo !in locks {
        return;
      }
      ghost var owners := locks[repo];
      var todo := locks[repo].Keys;
      while todo != {}
        invariant repo in locks && repo in old(locks) && owners == old(locks)[repo]
        invariant locks == old(locks)[repo := locks[repo]]
        invariant locks[repo] == map r | r in owners && (r in todo || owners[r] != mr) :: owners[r]
        decreases |todo|
      {
        var root :| root in todo;
        if root in locks[repo] && locks[repo][root] == mr {
          locks := locks[repo := locks[repo] - {root}];
        }
        todo := todo - {root};
      }
      assert locks[repo] == Except(owners, mr);
    }

    function List(repo: string): (m: Owners)
      reads this
      ensures forall root :: OwnerOf(locks, repo, root) == if root in m then Some(m[root]) else None
    {
      OwnersOf(locks, repo)
    }
  }
}
