/** The in-memory comment store and status publisher. */
module Vcs {

  // ----- Comments -----

  datatype Comment = Comment(id: int, mr: int, body: string, superseded: bool, supersededBy: int)
  type Threads = map<int, seq<Comment>>

  function ThreadOf(comments: Threads, mr: int): (items: seq<Comment>) {
    if mr in comments then comments[mr] else []
  }

  /** Each comment but the last was superseded by the one after it; the last is
      the only one still standing. Ids grow and belong to this merge request. */
  ghost predicate Chained(items: seq<Comment>, mr: int, nextID: int) {
    && (forall i :: 0 <= i < |items| ==> items[i].mr == mr && 1 <= items[i].id < nextID)
    && (forall i :: 0 <= i < |items| - 1 ==>
          items[i].superseded && items[i].supersededBy == items[i + 1].id && items[i].id < items[i + 1].id)
    && (items != [] ==> !items[|items| - 1].superseded)
  }

  function Supersede(c: Comment, newer: int): (r: Comment) {
    if c.superseded then c else c.(superseded := true, supersededBy := newer)
  }

  function Posted(items: seq<Comment>, c: Comment): (r: seq<Comment>) {
    seq(|items|, i requires 0 <= i < |items| => Supersede(items[i], c.id)) + [c]
  }

  /** A post comes last and changes nothing of an earlier comment but that one which was
      standing is now superseded by it. */
  lemma PostedMeans(items: seq<Comment>, c: Comment, i: nat)
    ensures |Posted(items, c)| == |items| + 1 && Posted(items, c)[|items|] == c
    ensures i < |items| ==>
      var was, now := items[i], Posted(items, c)[i];
      && now.id == was.id && now.mr == was.mr && now.body == was.body && now.superseded
      && now.supersededBy == (if was.superseded then was.supersededBy else c.id)
  {
  }

  lemma PostedChained(items: seq<Comment>, mr: int, nextID: int, body: string)
    requires Chained(items, mr, nextID) && nextID >= 1
    ensures Chained(Posted(items, Comment(nextID, mr, body, false, 0)), mr, nextID + 1)
  {
  }

  /** A merge request has at most one comment that is not superseded, its newest. */
  lemma OneStanding(items: seq<Comment>, mr: int, nextID: int, i: nat)
    requires Chained(items, mr, nextID) && i < |items|
    ensures !items[i].superseded <==> i == |items| - 1
  {
  }

  ghost predicate AllChained(comments: Threads, nextID: int) {
    nextID >= 1 && forall mr :: mr in comments ==> Chained(comments[mr], mr, nextID)
  }

  lemma PostKeepsChains(comments: Threads, nextID: int, mr: int, body: string)
    requires AllChained(comments, nextID)
    ensures AllChained(comments[mr := Posted(ThreadOf(comments, mr), Comment(nextID, mr, body, false, 0))], nextID + 1)
  {
    PostedChained(ThreadOf(comments, mr), mr, nextID, body);
    forall m | m in comments ensures Chained(comments[m], m, nextID + 1) {
      LaterChained(comments[m], m, nextID);
    }
  }

  lemma LaterChained(items: seq<Comment>, mr: int, nextID: int)
    requires Chained(items, mr, nextID)
    ensures Chained(items, mr, nextID + 1)
  {
  }

  /** A post adds one comment to its own thread and none to any other. */
  lemma OneMore(comments: Threads, c: Comment, mr: int)
    ensures var after := comments[c.mr := Posted(ThreadOf(comments, c.mr), c)];
      |ThreadOf(after, mr)| == |ThreadOf(comments, mr)| + if mr == c.mr then 1 else 0
  {
  }

  class MemoryCommentStore {
    var nextID: int
    var comments: Threads

    ghost predicate Valid()
      reads this
    {
      AllChained(comments, nextID)
    }

    constructor ()
      ensures Valid() && comments == map[]
    {
      nextID, comments := 1, map[];
    }

    method PostOrSupersede(mr: int, body: string) returns (c: Comment)
      requires Valid()
      modifies this
      ensures Valid()
      ensures c == Comment(old(nextID), mr, body, false, 0) && nextID == old(nextID) + 1
      ensures comments == old(comments)[mr := Posted(ThreadOf(old(comments), mr), c)]
    {
      c := Comment(nextID, mr, body, false, 0);
      nextID := nextID + 1;
      ghost var before := ThreadOf(comments, mr);
      var items := SupersedeAll(ThreadOf(comments, mr), c.id);
      PostKeepsChains(comments, old(nextID), mr, body);
      assert items + [c] == Posted(before, c);
      comments := comments[mr := items + [c]];
    }

    /** The loop over the standing comments. */
    method SupersedeAll(thread: seq<Comment>, newer: int) returns (items: seq<Comment>)
      ensures |items| == |thread| && forall k :: 0 <= k < |items| ==> items[k] == Supersede(thread[k], newer)
    {
      items := thread;
      for i := 0 to |items|
        invariant |items| == |thread|
        invariant forall k :: 0 <= k < i ==> items[k] == Supersede(thread[k], newer)
        invariant forall k :: i <= k < |items| ==> items[k] == thread[k]
      {
        if !items[i].superseded {
          items := items[i := items[i].(superseded := true, supersededBy := newer)];
        }
      }
    }

    function List(mr: int): (items: seq<Comment>)
      reads this
    {
      ThreadOf(comments, mr)
    }
  }

  // ----- Status checks -----

  datatype CheckState = Pending | Success | Failed
  datatype StatusCheck = StatusCheck(mr: int, sha: string, context: string, state: CheckState, description: string)

  class MemoryStatusPublisher {
    var items: seq<StatusCheck>

    constructor ()
      ensures items == []
    {
      items := [];
    }

    method SetStatus(status: StatusCheck)
      modifies this
      ensures items == old(items) + [status]
    {
      items := items + [status];
    }

    method ListStatuses(mr: int, sha: string) returns (out: seq<StatusCheck>)
      ensures out == StatusesOf(items, mr, sha)
    {
      out := [];
      for i := 0 to |items|
        invariant out == StatusesOf(items[..i], mr, sha)
      {
        assert items[..i + 1][..i] == items[..i];
        if items[i].mr == mr && items[i].sha == sha {
          out := out + [items[i]];
        }
      }
      assert items[..|items|] == items;
    }
  }

  /** Exactly the checks of the merge request and commit are listed. */
  lemma {:induction false} StatusesMean(items: seq<StatusCheck>, mr: int, sha: string)
    ensures forall c :: c in StatusesOf(items, mr, sha) <==> c in items && c.mr == mr && c.sha == sha
    decreases |items|
  {
    if items != [] {
      var n := |items| - 1;
      StatusesMean(items[..n], mr, sha);
      assert items == items[..n] + [items[n]];
    }
  }

  function StatusesOf(items: seq<StatusCheck>, mr: int, sha: string): (r: seq<StatusCheck>) {
    if items == [] then []
    else
      var n := |items| - 1;
      StatusesOf(items[..n], mr, sha) + if items[n].mr == mr && items[n].sha == sha then [items[n]] else []
  }
}
