/** Vocabulary shared by every model: optional values and facts about duplicate-free sequences. */
module Common {

  datatype Option<+T> = None | Some(value: T)

  /** A task is shared by pointer; its identity is all the queues ever look at. */
  type Task = nat

  ghost predicate NoDup<T>(s: seq<T>) {
    forall i, j :: 0 <= i < j < |s| ==> s[i] != s[j]
  }

  /** Position of `x` in `s`, or `|s|`. */
  function IndexOf<T(==)>(s: seq<T>, x: T): (k: nat)
    ensures k <= |s|
    ensures k < |s| ==> s[k] == x
    ensures k < |s| <==> x in s
    ensures forall i :: 0 <= i < k ==> s[i] != x
  {
    if s == [] then 0 else if s[0] == x then 0 else 1 + IndexOf(s[1..], x)
  }

  /** An intrusive list's `remove(node)`: unlinks the node if it is linked, keeps the order of the rest. */
  function RemoveNode<T(==)>(s: seq<T>, x: T): (r: seq<T>)
  {
    var k := IndexOf(s, x);
    if k < |s| then s[..k] + s[k + 1..] else s
  }

  lemma RemoveNodeFacts<T>(s: seq<T>, x: T)
    requires NoDup(s)
    ensures NoDup(RemoveNode(s, x))
    ensures forall y :: y in RemoveNode(s, x) <==> y in s && y != x
    ensures x in s ==> |RemoveNode(s, x)| == |s| - 1
  {
    var k := IndexOf(s, x);
    var r := RemoveNode(s, x);
    if k < |s| {
      assert forall i :: 0 <= i < |r| ==> r[i] == if i < k then s[i] else s[i + 1];
      forall y | y in s && y != x ensures y in r {
        var i := IndexOf(s, y);
        assert r[if i < k then i else i - 1] == y;
      }
    }
  }

  lemma AppendFacts<T>(s: seq<T>, x: T)
    requires NoDup(s) && x !in s
    ensures NoDup(s + [x])
    ensures forall y :: y in s + [x] <==> y in s || y == x
  {
  }
}
