/**
 * The ordering the builder applies to each bag before copying it out: descending
 * priority, with entries of equal priority kept in insertion order.
 *
 * `IsStableSortOf` is the declarative definition; `SortByPriority` is one function
 * meeting it (a stable insertion sort), and `StableSortUnique` shows that the
 * definition leaves no freedom, so any stable descending sort gives the same bag.
 */
module PrioritySort {
  import opened Registration

  /** Higher priorities come first. */
  predicate SortedDescending(s: seq<Registerable>)
  {
    forall i, j :: 0 <= i < j < |s| ==> s[i].priority >= s[j].priority
  }

  /** The entries of priority `p`, in their order in `s`. */
  function AtPriority(s: seq<Registerable>, p: int32): seq<Registerable>
  {
    if s == [] then []
    else AtPriority(s[..|s| - 1], p) + (if s[|s| - 1].priority == p then [s[|s| - 1]] else [])
  }

  /**
   * `r` is `s` ordered by descending priority, and within every priority `r`
   * keeps the entries of `s` in their original order (the sort is stable).
   */
  ghost predicate IsStableSortOf(r: seq<Registerable>, s: seq<Registerable>)
  {
    SortedDescending(r) && forall p :: AtPriority(r, p) == AtPriority(s, p)
  }

  lemma {:induction false} AtPriorityMembership(s: seq<Registerable>, p: int32, x: Registerable)
    ensures x in AtPriority(s, p) <==> x in s && x.priority == p
  {
    if s != [] {
      var init := s[..|s| - 1];
      assert s == init + [s[|s| - 1]];
      AtPriorityMembership(init, p, x);
    }
  }

  /** Appending an entry extends the run of its priority and no other. */
  lemma AtPrioritySnoc(s: seq<Registerable>, x: Registerable, p: int32)
    ensures AtPriority(s + [x], p) == AtPriority(s, p) + (if x.priority == p then [x] else [])
  {
    assert (s + [x])[..|s|] == s;
  }

  /**
   * Inserts `x` after every entry whose priority is at least its own, so that
   * `x` lands behind the entries of equal priority already present.
   */
  function Insert(x: Registerable, s: seq<Registerable>): (r: seq<Registerable>)
    requires SortedDescending(s)
    ensures SortedDescending(r)
    ensures multiset(r) == multiset(s) + multiset{x}
    ensures forall p :: AtPriority(r, p) == AtPriority(s, p) + (if x.priority == p then [x] else [])
  {
    if s == [] || s[|s| - 1].priority >= x.priority then
      assert (s + [x])[..|s|] == s;
      s + [x]
    else
      var init, last := s[..|s| - 1], s[|s| - 1];
      var r' := Insert(x, init);
      InsertBehind(x, s, r');
      r' + [last]
  }

  /** The recursive case of Insert: `x` outranks the last entry, so it goes before it. */
  lemma InsertBehind(x: Registerable, s: seq<Registerable>, r': seq<Registerable>)
    requires SortedDescending(s) && s != [] && s[|s| - 1].priority < x.priority
    requires SortedDescending(r')
    requires multiset(r') == multiset(s[..|s| - 1]) + multiset{x}
    requires forall p :: AtPriority(r', p) == AtPriority(s[..|s| - 1], p) + (if x.priority == p then [x] else [])
    ensures SortedDescending(r' + [s[|s| - 1]])
    ensures multiset(r' + [s[|s| - 1]]) == multiset(s) + multiset{x}
    ensures forall p :: AtPriority(r' + [s[|s| - 1]], p) == AtPriority(s, p) + (if x.priority == p then [x] else [])
  {
    var init, last := s[..|s| - 1], s[|s| - 1];
    OutranksLast(x, s, r');
    forall p ensures AtPriority(r' + [last], p) == AtPriority(s, p) + (if x.priority == p then [x] else []) {
      InsertBehindAt(x, s, r', p);
    }
    InsertBehindCount(x, s, r');
  }

  lemma InsertBehindCount(x: Registerable, s: seq<Registerable>, r': seq<Registerable>)
    requires s != [] && multiset(r') == multiset(s[..|s| - 1]) + multiset{x}
    ensures multiset(r' + [s[|s| - 1]]) == multiset(s) + multiset{x}
  {
    assert s == s[..|s| - 1] + [s[|s| - 1]];
  }

  lemma InsertBehindAt(x: Registerable, s: seq<Registerable>, r': seq<Registerable>, p: int32)
    requires s != [] && s[|s| - 1].priority < x.priority
    requires AtPriority(r', p) == AtPriority(s[..|s| - 1], p) + (if x.priority == p then [x] else [])
    ensures AtPriority(r' + [s[|s| - 1]], p) == AtPriority(s, p) + (if x.priority == p then [x] else [])
  {
    var init, last := s[..|s| - 1], s[|s| - 1];
    var r := r' + [last];
    assert r[..|r'|] == r';
    var before := AtPriority(init, p);
    assert AtPriority(r, p) == AtPriority(r', p) + (if last.priority == p then [last] else []);
    assert AtPriority(s, p) == before + (if last.priority == p then [last] else []);
    if p == x.priority {
      assert AtPriority(r, p) == before + [x];
    } else if p == last.priority {
      assert AtPriority(r, p) == before + [last];
    } else {
      assert AtPriority(r, p) == before;
    }
  }

  lemma OutranksLast(x: Registerable, s: seq<Registerable>, r': seq<Registerable>)
    requires SortedDescending(s) && s != [] && s[|s| - 1].priority < x.priority
    requires SortedDescending(r')
    requires multiset(r') == multiset(s[..|s| - 1]) + multiset{x}
    ensures SortedDescending(r' + [s[|s| - 1]])
  {
    var init, last := s[..|s| - 1], s[|s| - 1];
    forall k | 0 <= k < |r'| ensures r'[k].priority >= last.priority {
      assert r'[k] in multiset(r');
      if r'[k] != x {
        assert r'[k] in multiset(init);
        var i :| 0 <= i < |init| && init[i] == r'[k];
        assert s[i] == init[i];
      }
    }
  }

  /** The bag in descending priority, equal priorities in insertion order. */
  function SortByPriority(s: seq<Registerable>): (r: seq<Registerable>)
    ensures IsStableSortOf(r, s)
    ensures multiset(r) == multiset(s)
  {
    if s == [] then []
    else
      var init := s[..|s| - 1];
      assert s == init + [s[|s| - 1]];
      Insert(s[|s| - 1], SortByPriority(init))
  }

  /** Two stable descending sorts of the same bag are equal. */
  lemma {:induction false} StableSortUnique(r1: seq<Registerable>, r2: seq<Registerable>, s: seq<Registerable>)
    requires IsStableSortOf(r1, s) && IsStableSortOf(r2, s)
    ensures r1 == r2
  {
    SameRunsUnique(r1, r2);
  }

  lemma {:induction false} SameRunsUnique(r1: seq<Registerable>, r2: seq<Registerable>)
    requires SortedDescending(r1) && SortedDescending(r2)
    requires forall p :: AtPriority(r1, p) == AtPriority(r2, p)
    ensures r1 == r2
    decreases |r1|
  {
    if r1 == [] || r2 == [] {
      if r1 != [] {
        LastHasRun(r1);
        assert false;
      } else if r2 != [] {
        LastHasRun(r2);
        assert false;
      }
    } else {
      var init1, init2 := r1[..|r1| - 1], r2[..|r2| - 1];
      assert AtPriority(r1, r1[|r1| - 1].priority) == AtPriority(r2, r1[|r1| - 1].priority);
      assert AtPriority(r1, r2[|r2| - 1].priority) == AtPriority(r2, r2[|r2| - 1].priority);
      SameLast(r1, r2);
      forall p ensures AtPriority(init1, p) == AtPriority(init2, p) {
        SameRunsBefore(r1, r2, p);
      }
      assert SortedDescending(init1) && SortedDescending(init2);
      SameRunsUnique(init1, init2);
      assert r1 == init1 + [r1[|r1| - 1]] && r2 == init2 + [r2[|r2| - 1]];
    }
  }

  /** A nonempty bag has a nonempty run at the priority of its last entry. */
  lemma LastHasRun(r: seq<Registerable>)
    requires r != []
    ensures AtPriority(r, r[|r| - 1].priority) != []
  {
  }

  /** Two sorted bags with the same runs at the priorities of their last entries end alike. */
  lemma SameLast(r1: seq<Registerable>, r2: seq<Registerable>)
    requires SortedDescending(r1) && SortedDescending(r2) && r1 != [] && r2 != []
    requires AtPriority(r1, r1[|r1| - 1].priority) == AtPriority(r2, r1[|r1| - 1].priority)
    requires AtPriority(r1, r2[|r2| - 1].priority) == AtPriority(r2, r2[|r2| - 1].priority)
    ensures r1[|r1| - 1] == r2[|r2| - 1]
  {
    var a, b := r1[|r1| - 1], r2[|r2| - 1];
    AtPriorityMembership(r1, a.priority, a);
    AtPriorityMembership(r2, a.priority, a);
    AtLeastLast(r2, a);
    AtPriorityMembership(r2, b.priority, b);
    AtPriorityMembership(r1, b.priority, b);
    AtLeastLast(r1, b);
    assert a.priority == b.priority;
    var run := AtPriority(r1, a.priority);
    assert run == AtPriority(r1[..|r1| - 1], a.priority) + [a];
    assert run == AtPriority(r2[..|r2| - 1], b.priority) + [b];
    assert run[|run| - 1] == a;
  }

  /** In a sorted bag no entry ranks below the last. */
  lemma AtLeastLast(r: seq<Registerable>, x: Registerable)
    requires SortedDescending(r) && x in r
    ensures x.priority >= r[|r| - 1].priority
  {
    var i :| 0 <= i < |r| && r[i] == x;
    if i < |r| - 1 {
      assert r[i].priority >= r[|r| - 1].priority;
    }
  }

  /** Dropping the same last entry from both keeps their runs equal. */
  lemma SameRunsBefore(r1: seq<Registerable>, r2: seq<Registerable>, p: int32)
    requires r1 != [] && r2 != [] && r1[|r1| - 1] == r2[|r2| - 1]
    requires AtPriority(r1, p) == AtPriority(r2, p)
    ensures AtPriority(r1[..|r1| - 1], p) == AtPriority(r2[..|r2| - 1], p)
  {
    var tail := if r1[|r1| - 1].priority == p then [r1[|r1| - 1]] else [];
    var run1, run2 := AtPriority(r1[..|r1| - 1], p), AtPriority(r2[..|r2| - 1], p);
    assert AtPriority(r1, p) == run1 + tail;
    assert AtPriority(r2, p) == run2 + tail;
    assert run1 == (run1 + tail)[..|run1|];
    assert run2 == (run2 + tail)[..|run2|];
  }
}
