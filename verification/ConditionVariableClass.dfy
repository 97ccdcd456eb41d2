/** The condition variable as an object: the waiter list is changed in place, the workers on it are flagged. */
module ConditionVariableClass {
  import opened Common
  import opened CondVarWait
  import opened SchedulerQueues
  import opened SchedulerClass

  /** The flags of all workers of a program, by number. */
  ghost function Conds(all: seq<Worker>): (r: seq<bool>)
    reads all
    ensures |r| == |all|
  {
    seq(|all|, i requires 0 <= i < |all| reads all => all[i].cond)
  }

  ghost predicate Numbered(all: seq<Worker>) {
    forall i :: 0 <= i < |all| ==> all[i].id == i
  }

  /** Unlinking the worker is unlinking its number. */
  lemma RemoveById(all: seq<Worker>, ws: seq<Worker>, w: Worker)
    requires Numbered(all) && w in all && forall x <- ws :: x in all
    ensures Ids(RemoveNode(ws, w)) == RemoveNode(Ids(ws), w.id)
  {
    hide RemoveNode, Ids;
    var k := IndexOf(ws, w);
    forall j | 0 <= j < |ws| ensures ws[j] == w <==> Ids(ws)[j] == w.id {
      assert ws[j] in all;
    }
    SameIndex(Ids(ws), w.id, k);
    RemoveNodeAt(ws, w, k);
    RemoveNodeAt(Ids(ws), w.id, k);
    if k < |ws| { IdsErase(ws, k); }
  }

  lemma RemoveNodeAt<T>(s: seq<T>, x: T, k: nat)
    requires k == IndexOf(s, x)
    ensures RemoveNode(s, x) == if k < |s| then s[..k] + s[k + 1..] else s
  {
  }

  lemma SameIndex(s: seq<Wid>, x: Wid, k: nat)
    requires k <= |s| && (forall j :: 0 <= j < k ==> s[j] != x) && (k < |s| ==> s[k] == x)
    ensures IndexOf(s, x) == k
  {
  }

  class ConditionVariable {
    var waiters: seq<Worker>

    constructor ()
      ensures waiters == []
    {
      waiters := [];
    }

    method AddWaiter(w: Worker)
      modifies this
      ensures waiters == old(waiters) + [w] && Ids(waiters) == Ids(old(waiters)) + [w.id]
    {
      waiters := waiters + [w];
    }

    /** `IList::remove`: the list is searched for the node, which is unlinked where it is. */
    method RemoveWaiter(w: Worker)
      modifies this
      ensures waiters == RemoveNode(old(waiters), w)
    {
      var i := 0;
      while i < |waiters| && waiters[i] != w
        invariant 0 <= i <= |waiters| && waiters == old(waiters)
        invariant forall j :: 0 <= j < i ==> waiters[j] != w
      {
        i := i + 1;
      }
      IndexIs(waiters, w, i);
      if i < |waiters| {
        waiters := waiters[..i] + waiters[i + 1..];
      }
    }

    lemma IndexIs(s: seq<Worker>, w: Worker, i: nat)
      requires i <= |s| && (forall j :: 0 <= j < i ==> s[j] != w) && (i < |s| ==> s[i] == w)
      ensures IndexOf(s, w) == i
    {
    }

    /** The front of the list is flagged, its scheduler woken, and it stays in the list. */
    method NotifyOne(ghost all: seq<Worker>)
      requires Numbered(all) && forall w <- waiters :: w in all
      modifies waiters`cond, (set w <- waiters :: w.scheduler)`running
      ensures Conds(all) == FlagFront(Ids(waiters), old(Conds(all)))
      ensures waiters != [] ==> waiters[0].cond && waiters[0].scheduler.running
    {
      if waiters != [] {
        waiters[0].NotifyWaiter();
      }
    }

    /** Every worker on the list is flagged and its scheduler woken, in the order of the list. */
    method NotifyAll(ghost all: seq<Worker>)
      requires Numbered(all) && forall w <- waiters :: w in all
      modifies waiters`cond, (set w <- waiters :: w.scheduler)`running
      ensures Conds(all) == FlagAll(Ids(waiters), old(Conds(all)))
      ensures forall w <- waiters :: w.cond && w.scheduler.running
    {
      var i := 0;
      while i < |waiters|
        invariant 0 <= i <= |waiters|
        invariant forall j :: 0 <= j < |all| ==> all[j].cond == (old(all[j].cond) || all[j] in waiters[..i])
        invariant forall w <- waiters[..i] :: w.scheduler.running
      {
        assert waiters[..i + 1] == waiters[..i] + [waiters[i]];
        waiters[i].NotifyWaiter();
        i := i + 1;
      }
      assert waiters[..i] == waiters;
      SameMembers(all);
    }

    lemma SameMembers(all: seq<Worker>)
      requires Numbered(all) && forall w <- waiters :: w in all
      ensures forall j :: 0 <= j < |all| ==> (all[j] in waiters <==> j in Ids(waiters))
    {
      forall j | 0 <= j < |all| && j in Ids(waiters) ensures all[j] in waiters {
        var k :| 0 <= k < |waiters| && Ids(waiters)[k] == j;
        assert waiters[k] in waiters;
      }
      forall j | 0 <= j < |all| && all[j] in waiters ensures j in Ids(waiters) {
        var k :| 0 <= k < |waiters| && waiters[k] == all[j];
        assert Ids(waiters)[k] == j;
      }
    }
  }
}
