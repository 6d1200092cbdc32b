/** The intrusive singly linked list: a ring through a sentinel hook. */
module IntrusiveList {

  class Hook {
    const value: int
    var next: Hook?

    constructor (value: int)
      ensures this.value == value && next == null
    {
      this.value, next := value, null;
    }
  }

  function Filter(hooks: seq<Hook>, drop: int -> bool): seq<Hook> {
    if hooks == [] then []
    else if drop(hooks[0].value) then Filter(hooks[1..], drop)
    else [hooks[0]] + Filter(hooks[1..], drop)
  }

  function Reversed(hooks: seq<Hook>): (r: seq<Hook>)
    ensures |r| == |hooks|
  {
    if hooks == [] then [] else Reversed(hooks[1..]) + [hooks[0]]
  }

  lemma {:induction false} ReversedAt(hooks: seq<Hook>, i: nat)
    requires i < |hooks|
    ensures Reversed(hooks)[i] == hooks[|hooks| - 1 - i]
  {
    if i < |hooks| - 1 { ReversedAt(hooks[1..], i); }
  }

  lemma NotReversed(hooks: seq<Hook>, n: nat)
    requires n < |hooks| && NoRepeats(hooks)
    ensures hooks[n] !in Reversed(hooks[..n])
  {
    forall i | 0 <= i < n ensures Reversed(hooks[..n])[i] != hooks[n] {
      ReversedAt(hooks[..n], i);
    }
  }

  lemma {:induction false} FilterMembers(hooks: seq<Hook>, drop: int -> bool, h: Hook)
    ensures h in Filter(hooks, drop) <==> h in hooks && !drop(h.value)
  {
    if hooks != [] { FilterMembers(hooks[1..], drop, h); }
  }

  lemma {:induction false} ReversedSnoc(hooks: seq<Hook>, h: Hook)
    ensures Reversed(hooks + [h]) == [h] + Reversed(hooks)
  {
    if hooks == [] {
      assert hooks + [h] == [h];
    } else {
      assert (hooks + [h])[1..] == hooks[1..] + [h];
      ReversedSnoc(hooks[1..], h);
    }
  }

  lemma {:induction false} FilterSnoc(hooks: seq<Hook>, h: Hook, drop: int -> bool)
    ensures Filter(hooks + [h], drop) == Filter(hooks, drop) + (if drop(h.value) then [] else [h])
  {
    if hooks == [] {
      assert hooks + [h] == [h];
    } else {
      assert (hooks + [h])[1..] == hooks[1..] + [h];
      FilterSnoc(hooks[1..], h, drop);
    }
  }

  lemma FilterNone(drop: int -> bool)
    ensures Filter([], drop) == []
  {
  }

  lemma FilterNext(all: seq<Hook>, n: nat, drop: int -> bool)
    requires n < |all|
    ensures Filter(all[..n + 1], drop) == Filter(all[..n], drop) + (if drop(all[n].value) then [] else [all[n]])
  {
    assert all[..n + 1] == all[..n] + [all[n]];
    FilterSnoc(all[..n], all[n], drop);
  }

  ghost predicate NoRepeats(hooks: seq<Hook>) {
    forall i, j :: 0 <= i < j < |hooks| ==> hooks[i] != hooks[j]
  }

  lemma CutNoRepeats(hooks: seq<Hook>, i: nat)
    requires NoRepeats(hooks) && i < |hooks|
    ensures NoRepeats(hooks[..i] + hooks[i + 1..]) && hooks[i] !in hooks[..i] + hooks[i + 1..]
  {
  }

  function PutAt(hooks: seq<Hook>, i: nat, h: Hook): (r: seq<Hook>)
    requires i <= |hooks|
    ensures |r| == |hooks| + 1 && r[i] == h
    ensures forall j :: 0 <= j < i ==> r[j] == hooks[j]
    ensures forall j :: i < j < |r| ==> r[j] == hooks[j - 1]
  {
    hooks[..i] + [h] + hooks[i..]
  }

  lemma PutNoRepeats(hooks: seq<Hook>, i: nat, h: Hook)
    requires NoRepeats(hooks) && i <= |hooks| && h !in hooks
    ensures NoRepeats(PutAt(hooks, i, h))
  {
    hide PutAt;
  }

  /** Slist; `ring` starts with the sentinel mFirst. */
  class Slist {
    const first: Hook
    ghost var ring: seq<Hook>

    ghost function Succ(i: nat): Hook
      reads this
    {
      if i + 1 < |ring| then ring[i + 1] else first
    }

    /** Each hook leads to the next, and the last back to the sentinel. */
    ghost predicate Closed()
      reads this, ring
    {
      forall i :: 0 <= i < |ring| ==> ring[i].next == Succ(i)
    }

    ghost predicate Valid()
      reads this, ring
    {
      |ring| > 0 && ring[0] == first && NoRepeats(ring) && Closed()
    }

    ghost function Elements(): seq<Hook>
      requires |ring| > 0
      reads this
    {
      ring[1..]
    }

    constructor ()
      ensures Valid() && Elements() == [] && fresh(first)
    {
      var h := new Hook(0);
      first := h;
      ring := [h];
      new;
      h.next := h;
    }

    lemma NextOf(k: nat)
      requires Valid() && k < |ring|
      ensures ring[k].next == Succ(k) && (ring[k] == first <==> k == 0)
    {
    }

    method HookAfter(h: Hook, after: Hook, ghost i: nat)
      requires Valid() && h !in ring && i < |ring| && after == ring[i]
      modifies this, h, after
      ensures Valid() && ring == PutAt(old(ring), i + 1, h)
    {
      hide PutAt;
      ghost var was := ring;
      PutNoRepeats(ring, i + 1, h);
      assert after.next == Succ(i);
      assert forall j :: 0 <= j < |was| && j != i ==> was[j] != after;
      hide NoRepeats;
      h.next := after.next;
      after.next := h;
      ring := PutAt(ring, i + 1, h);
      forall j | 0 <= j < |ring| ensures ring[j].next == Succ(j) {
        if j < i {
          assert ring[j] == was[j] && ring[j + 1] == was[j + 1] && was[j].next == old(was[j].next) == was[j + 1];
        } else if j == i {
          assert ring[j] == after && ring[j + 1] == h;
        } else if j == i + 1 {
          assert ring[j] == h;
        } else {
          assert ring[j] == was[j - 1] && was[j - 1].next == old(was[j - 1].next) == old(Succ(j - 1));
        }
      }
    }

    method UnhookNext(before: Hook, ghost i: nat)
      requires Valid() && i + 1 < |ring| && before == ring[i]
      modifies this, before, before.next
      ensures Valid() && ring == old(ring)[..i + 1] + old(ring)[i + 2..]
      ensures old(ring)[i + 1].next == null
      ensures before.next == (if i + 2 < |old(ring)| then old(ring)[i + 2] else first)
    {
      ghost var was := ring;
      CutNoRepeats(ring, i + 1);
      assert before.next == Succ(i) && ring[i + 1].next == Succ(i + 1);
      assert forall j :: 0 <= j < |was| && j != i ==> was[j] != before;
      assert forall j :: 0 <= j < |was| && j != i + 1 ==> was[j] != was[i + 1];
      hide NoRepeats;
      var gone := before.next;
      before.next := gone.next;
      gone.next := null;
      ring := ring[..i + 1] + ring[i + 2..];
      forall j | 0 <= j < |ring| ensures ring[j].next == Succ(j) {
        if j < i {
          assert ring[j] == was[j] && old(was[j].next == Succ(j));
        } else if j > i {
          assert ring[j] == was[j + 1] && old(was[j + 1].next == Succ(j + 1));
        }
      }
    }

    method PushFront(h: Hook)
      requires Valid() && h !in ring
      modifies this, h, first
      ensures Valid() && Elements() == [h] + old(Elements())
    {
      HookAfter(h, first, 0);
    }

    /** erase: walks to the predecessor; returns the position behind the erased one. */
    method Erase(where: Hook, ghost w: nat) returns (after: Hook)
      requires Valid() && 0 < w < |ring| && ring[w] == where
      modifies this, ring
      ensures Valid() && ring == old(ring)[..w] + old(ring)[w + 1..]
      ensures where.next == null
      ensures after == (if w + 1 < |old(ring)| then old(ring)[w + 1] else first)
      ensures forall h :: h in old(ring) && h !in ring ==> h == where
    {
      ghost var was := ring;
      if where == first.next {
        UnhookNext(first, 0);
        after := first.next;
        assert ring == was[..1] + was[2..];
      } else {
        var iter := first.next;
        ghost var k := 1;
        while iter.next != where
          invariant Valid() && ring == was && 1 <= k < w && iter == ring[k]
          decreases w - k
        {
          assert iter.next == Succ(k);
          iter := iter.next;
          k := k + 1;
        }
        UnhookNext(iter, k);
        after := iter.next;
      }
    }

    /** Where insert puts an element: before `where`, or last if there is no such position. */
    ghost function Position(where: Hook): (p: nat)
      requires Valid()
      reads this, ring
      ensures 1 <= p <= |ring|
      ensures where in ring[1..] ==> p < |ring| && ring[p] == where
      ensures where !in ring[1..] ==> p == |ring|
    {
      if where in ring[1..] then
        var j :| 0 <= j < |ring[1..]| && ring[1..][j] == where;
        j + 1
      else |ring|
    }

    /** insert. On an empty list the only positions are begin and end, the sentinel. */
    method Insert(where: Hook, h: Hook)
      requires Valid() && h !in ring && (Elements() == [] ==> where == first)
      modifies this, ring, h
      ensures Valid()
      ensures ring == PutAt(old(ring), old(Position(where)), h)
    {
      ghost var p := Position(where);
      assert first.next == Succ(0);
      if where == first.next {
        PushFront(h);
        assert p == 1;
      } else {
        var iter := first.next;
        ghost var k := 1;
        while iter.next != where && iter.next != first
          invariant Valid() && ring == old(ring) && 1 <= k < p && iter == ring[k]
          decreases p - k
        {
          assert iter.next == Succ(k);
          iter := iter.next;
          k := k + 1;
        }
        assert iter.next == Succ(k);
        HookAfter(h, iter, k);
      }
    }

    /** remove_if: refines filter, and the links of what it drops are null. */
    method RemoveIf(drop: int -> bool)
      requires Valid()
      modifies this, ring
      ensures Valid() && Elements() == Filter(old(Elements()), drop)
      ensures forall h :: h in old(ring) && h !in ring ==> h.next == null
    {
      hide NoRepeats, Closed, Filter;
      ghost var all := Elements();
      NextOf(0);
      var iter := first.next;
      ghost var k, n := 1, 0;
      FilterNone(drop);
      assert all[..0] == [];
      while iter != first
        invariant Valid() && 1 <= k <= |ring| && n <= |all|
        invariant ring[1..k] == Filter(all[..n], drop) && ring[k..] == all[n..]
        invariant iter == (if k < |ring| then ring[k] else first)
        invariant forall i :: 0 <= i < |ring| ==> ring[i] in old(ring)
        invariant forall h :: h in old(ring) && h !in ring ==> h.next == null
        decreases |all| - n
      {
        NextOf(k);
        assert ring[k] == ring[k..][0] == all[n] && ring[k..][1..] == all[n + 1..];
        FilterNext(all, n, drop);
        ghost var was := ring;
        if drop(iter.value) {
          assert forall h :: h in ring ==> h in old(ring);
          iter := Erase(iter, k);
          assert ring[1..k] == was[1..k] && ring[k..] == was[k + 1..];
        } else {
          assert ring[1..k + 1] == ring[1..k] + [ring[k]];
          iter := iter.next;
          k := k + 1;
        }
        n := n + 1;
      }
      if k < |ring| { NextOf(k); }
      assert all[..|all|] == all;
    }

    /** size, by walking round the ring. */
    method Size() returns (n: nat)
      requires Valid()
      ensures n == |Elements()|
    {
      n := 0;
      assert first.next == Succ(0);
      var iter := first.next;
      while iter != first
        invariant n < |ring| && iter == (if n + 1 < |ring| then ring[n + 1] else first)
        decreases |ring| - n
      {
        assert iter == ring[n + 1] && iter.next == Succ(n + 1);
        iter := iter.next;
        n := n + 1;
      }
    }

    /** reverse: empties the list and pushes every element of the old chain in front. */
    method Reverse()
      requires Valid()
      modifies this, ring
      ensures Valid() && Elements() == Reversed(old(Elements()))
    {
      hide Reversed;
      if first.next != first {
        ghost var all := Elements();
        AllLinked(all);
        var data := first.next;
        first.next := first;
        ring := [first];
        PushAll(data, all);
      }
    }

    ghost function Follower(all: seq<Hook>, i: nat): Hook {
      if i + 1 < |all| then all[i + 1] else first
    }

    /** The elements of a chain that ends at the sentinel, and is not in the ring. */
    ghost predicate Chain(all: seq<Hook>, n: nat)
      reads all
    {
      && (forall i :: n <= i < |all| ==> all[i].next == Follower(all, i))
      && NoRepeats(all) && first !in all
    }

    lemma AllLinked(all: seq<Hook>)
      requires Valid() && all == Elements()
      ensures Chain(all, 0) && first.next == (if all == [] then first else all[0])
    {
      NextOf(0);
      forall i | 0 <= i < |all| ensures all[i].next == Follower(all, i) {
        NextOf(i + 1);
      }
    }

    method PushOne(data: Hook, ghost all: seq<Hook>, ghost n: nat)
      requires Valid() && Chain(all, n) && n < |all| && data == all[n] && data !in ring
      modifies this, first, data
      ensures Valid() && Elements() == [data] + old(Elements()) && Chain(all, n + 1)
    {
      PushFront(data);
    }

    lemma ChainHead(all: seq<Hook>, n: nat)
      requires Chain(all, n) && n < |all|
      ensures all[n].next == Follower(all, n) && NoRepeats(all) && first != all[n]
    {
    }

    /** The loop of reverse. */
    method PushAll(start: Hook, ghost all: seq<Hook>)
      requires Valid() && ring == [first] && Chain(all, 0) && start == (if all == [] then first else all[0])
      modifies this, first, all
      ensures Valid() && Elements() == Reversed(all)
    {
      hide Reversed, NoRepeats, Closed, Chain;
      var data := start;
      ghost var n := 0;
      ReversedNone();
      assert all[..0] == [];
      while data != first
        invariant Valid() && n <= |all| && Elements() == Reversed(all[..n]) && Chain(all, n)
        invariant data == (if n < |all| then all[n] else first)
        decreases |all| - n
      {
        ChainHead(all, n);
        var next := data.next;
        NotReversed(all, n);
        assert all[..n + 1] == all[..n] + [all[n]];
        ReversedSnoc(all[..n], all[n]);
        assert ring == [first] + Elements();
        PushOne(data, all, n);
        data := next;
        n := n + 1;
      }
      if n < |all| { ChainHead(all, n); }
      assert all[..|all|] == all;
    }
  }

  lemma ReversedNone()
    ensures Reversed([]) == []
  {
  }
}
