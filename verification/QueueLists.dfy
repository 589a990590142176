/** Lists of queue heads that are threaded through the queue heads themselves. */
module QueueLists {
  import opened Wrappers

  /** Entry `i` of a list, or its end. */
  function EntryAt(list: seq<nat>, i: nat): Option<nat>
  {
    if i < |list| then Some(list[i]) else None
  }

  /** A link that was never written leads nowhere. */
  function After<K>(next: map<K, Option<nat>>, k: K): Option<nat>
  {
    if k in next then next[k] else None
  }

  /** The links lead from `first` through the list and end behind it. */
  predicate Threads(first: Option<nat>, next: map<nat, Option<nat>>, list: seq<nat>)
  {
    first == EntryAt(list, 0) && forall i :: 0 <= i < |list| ==> After(next, list[i]) == EntryAt(list, i + 1)
  }

  /** A list with a pointer to its last entry.  Where the list is empty, `last` may name any queue head: it
      is not read before it is written.  The list ends because a queue head that is not on it leads
      nowhere. */
  ghost predicate ThreadsTo(first: Option<nat>, last: Option<nat>, next: map<nat, Option<nat>>, list: seq<nat>)
  {
    && Threads(first, next, list)
    && (list != [] ==> last == Some(list[|list| - 1]))
    && (forall q :: q !in list ==> After(next, q) == None)
  }

  predicate AllDistinct(list: seq<nat>)
  {
    forall i, j :: 0 <= i < j < |list| ==> list[i] != list[j]
  }

  /** An entry is added at the end. */
  lemma AppendsTo(first: Option<nat>, last: Option<nat>, next: map<nat, Option<nat>>, list: seq<nat>, q: nat)
    requires ThreadsTo(first, last, next, list) && q !in list && AllDistinct(list)
    ensures first.Some? <==> list != []
    ensures first.Some? ==> last.Some?
    ensures var next' := if first.Some? then next[last.value := Some(q)] else next;
      ThreadsTo(if first.Some? then first else Some(q), Some(q), next', list + [q])
  {
    var next' := if first.Some? then next[last.value := Some(q)] else next;
    assert list != [] ==> last.value in list;
    forall i | 0 <= i <= |list|
      ensures After(next', (list + [q])[i]) == EntryAt(list + [q], i + 1)
    {
      assert i < |list| ==> After(next, list[i]) == EntryAt(list, i + 1);
    }
  }

  /** The first entry is taken, and its link cleared. */
  lemma TakesFrom(first: Option<nat>, last: Option<nat>, next: map<nat, Option<nat>>, list: seq<nat>)
    requires ThreadsTo(first, last, next, list) && list != [] && AllDistinct(list)
    ensures first == Some(list[0])
    ensures ThreadsTo(After(next, list[0]), last, next[list[0] := None], list[1..])
  {
    var next' := next[list[0] := None];
    assert After(next, list[0]) == EntryAt(list, 1);
    forall i | 0 <= i < |list[1..]|
      ensures After(next', list[1..][i]) == EntryAt(list[1..], i + 1)
    {
      assert After(next, list[i + 1]) == EntryAt(list, i + 2);
    }
    assert list == [list[0]] + list[1..];
    forall q | q !in list[1..]
      ensures After(next', q) == None
    {
      assert q == list[0] || q !in list;
    }
  }
}
