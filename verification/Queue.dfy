// The decision queue: solver/queue.go. The solver inserts the same variable several times
// (cleanupBindings, rebuildOrderHeap), so what is kept is the multiset of entries and the fact
// that a non-negative index always points at an entry of its variable.
module Queue {

  function Left(i: int): int { i * 2 + 1 }
  function Right(i: int): int { (i + 1) * 2 }
  function Parent(i: int): int { (i - 1) / 2 }

  // indices[n] is -1 or the position of an entry for n.
  ghost predicate Indexed(content: seq<int>, indices: seq<int>)
  {
    (forall i :: 0 <= i < |content| ==> 0 <= content[i] < |indices|)
    && forall n :: 0 <= n < |indices| && indices[n] != -1 ==>
         0 <= indices[n] < |content| && content[indices[n]] == n
  }

  // As Indexed, while position `hole` is being moved out of the way for x.
  ghost predicate IndexedAround(content: seq<int>, indices: seq<int>, hole: int, x: int)
  {
    0 <= hole < |content| && 0 <= x < |indices|
    && (forall i :: 0 <= i < |content| ==> 0 <= content[i] < |indices|)
    && forall n :: 0 <= n < |indices| && n != x && indices[n] != -1 ==>
         0 <= indices[n] < |content| && content[indices[n]] == n && indices[n] != hole
  }

  // The entries with x in the hole.
  ghost function With(content: seq<int>, hole: int, x: int): multiset<int>
    requires 0 <= hole < |content|
  {
    multiset(content[hole := x])
  }

  lemma Open(content: seq<int>, indices: seq<int>, i: int)
    requires Indexed(content, indices) && 0 <= i < |content|
    ensures IndexedAround(content, indices, i, content[i])
    ensures content[i := content[i]] == content && With(content, i, content[i]) == multiset(content)
  {
  }

  // Moving the entry at `from` into the hole makes `from` the hole.
  lemma Shift(content: seq<int>, indices: seq<int>, hole: int, from: int, x: int)
    requires IndexedAround(content, indices, hole, x) && 0 <= from < |content| && content[from] != x && from != hole
    ensures IndexedAround(content[hole := content[from]], indices[content[from] := hole], from, x)
    ensures With(content[hole := content[from]], from, x) == With(content, hole, x)
  {
    var w := content[from];
    assert content[hole := w][from := x] == content[hole := x][hole := content[hole := x][from]][from := content[hole := x][hole]];
  }

  lemma Close(content: seq<int>, indices: seq<int>, hole: int, x: int)
    requires IndexedAround(content, indices, hole, x)
    ensures Indexed(content[hole := x], indices[x := hole]) && multiset(content[hole := x]) == With(content, hole, x)
  {
  }

  // ----- the order -----

  ghost function Key(act: seq<real>, c: seq<int>, k: int): real
  {
    if 0 <= k < |c| && 0 <= c[k] < |act| then act[c[k]] else 0.0
  }

  ghost predicate Below(act: seq<real>, c: seq<int>, k: int) { Key(act, c, k) <= Key(act, c, Parent(k)) }

  // From position lo on, no entry is more active than the one above it.
  ghost predicate Ordered(act: seq<real>, c: seq<int>, lo: int)
  {
    forall k :: 0 < k < |c| && lo <= Parent(k) ==> Below(act, c, k)
  }

  // Ordered, except that the entry at i may be more active than the one above it.
  ghost predicate Rising(act: seq<real>, c: seq<int>, i: int)
  {
    (forall k :: 0 < k < |c| && k != i ==> Below(act, c, k))
    && (i > 0 ==> forall k :: 0 < k < |c| && Parent(k) == i ==> Key(act, c, k) <= Key(act, c, Parent(i)))
  }

  // Ordered from lo on, except that the entries below i may be more active than the one at i.
  ghost predicate Sinking(act: seq<real>, c: seq<int>, lo: int, i: int)
  {
    (forall k :: 0 < k < |c| && lo <= Parent(k) != i ==> Below(act, c, k))
    && (i > 0 && lo <= Parent(i) ==> forall k :: 0 < k < |c| && Parent(k) == i ==> Key(act, c, k) <= Key(act, c, Parent(i)))
  }

  function Exchanged(c: seq<int>, i: int, j: int): seq<int>
    requires 0 <= i < |c| && 0 <= j < |c|
  {
    c[i := c[j]][j := c[i]]
  }

  lemma KeyExchanged(act: seq<real>, c: seq<int>, i: int, j: int)
    requires 0 <= i < |c| && 0 <= j < |c|
    ensures forall k :: Key(act, Exchanged(c, i, j), k) == Key(act, c, if k == i then j else if k == j then i else k)
  {
  }

  lemma RiseStep(act: seq<real>, c: seq<int>, i: int)
    requires 0 < i < |c| && Rising(act, c, i) && Key(act, c, i) > Key(act, c, Parent(i))
    ensures Rising(act, Exchanged(c, i, Parent(i)), Parent(i))
  {
    var p := Parent(i);
    var d := Exchanged(c, i, p);
    KeyExchanged(act, c, i, p);
    hide Key;
    forall k | 0 < k < |d| && k != p ensures Below(act, d, k) {
      assert k != i ==> Below(act, c, k);
    }
    if p > 0 {
      forall k | 0 < k < |d| && Parent(k) == p ensures Key(act, d, k) <= Key(act, d, Parent(p)) {
        assert Below(act, c, p) && (k != i ==> Below(act, c, k));
      }
    }
  }

  lemma RiseDone(act: seq<real>, c: seq<int>, i: int)
    requires Rising(act, c, i) && (i > 0 ==> Below(act, c, i))
    ensures Ordered(act, c, 0)
  {
    hide Below;
  }

  lemma SinkStep(act: seq<real>, c: seq<int>, lo: int, i: int, child: int)
    requires 0 <= lo <= i < child < |c| && Parent(child) == i && Sinking(act, c, lo, i)
    requires Key(act, c, child) > Key(act, c, i)
    requires forall k :: 0 < k < |c| && Parent(k) == i ==> Key(act, c, k) <= Key(act, c, child)
    ensures Sinking(act, Exchanged(c, i, child), lo, child)
  {
    var d := Exchanged(c, i, child);
    KeyExchanged(act, c, i, child);
    hide Key;
    forall k | 0 < k < |d| && lo <= Parent(k) != child ensures Below(act, d, k) {
      assert Parent(k) != i ==> Below(act, c, k);
    }
    forall k | 0 < k < |d| && Parent(k) == child ensures Key(act, d, k) <= Key(act, d, i) {
      assert Below(act, c, k);
    }
  }

  lemma SinkDone(act: seq<real>, c: seq<int>, lo: int, i: int)
    requires Sinking(act, c, lo, i) && forall k :: 0 < k < |c| && Parent(k) == i ==> Key(act, c, k) <= Key(act, c, i)
    ensures Ordered(act, c, lo)
  {
    forall k | 0 < k < |c| && lo <= Parent(k) ensures Below(act, c, k) {
    }
  }

  ghost predicate Ranged(act: seq<real>, c: seq<int>) { forall k :: 0 <= k < |c| ==> 0 <= c[k] < |act| }

  // The two moves, written as the methods do them: the hole takes the other entry, and x its place.
  lemma RiseMove(act: seq<real>, c: seq<int>, i: int, x: int)
    requires Ranged(act, c) && 0 < i < |c| && 0 <= x < |act| && Rising(act, c[i := x], i) && act[x] > act[c[Parent(i)]]
    ensures Rising(act, c[i := c[Parent(i)]][Parent(i) := x], Parent(i))
  {
    RiseStep(act, c[i := x], i);
    assert c[i := c[Parent(i)]][Parent(i) := x] == Exchanged(c[i := x], i, Parent(i));
  }

  lemma SinkMove(act: seq<real>, c: seq<int>, lo: int, i: int, child: int, x: int)
    requires Ranged(act, c) && 0 <= lo <= i < child < |c| && 0 <= x < |act| && Sinking(act, c[i := x], lo, i)
    requires child == Left(i) || child == Right(i)
    requires act[c[child]] > act[x] && act[c[child]] >= act[c[Left(i)]]
    requires Right(i) < |c| ==> act[c[child]] >= act[c[Right(i)]]
    ensures Sinking(act, c[i := c[child]][child := x], lo, child)
  {
    SinkStep(act, c[i := x], lo, i, child);
    assert c[i := c[child]][child := x] == Exchanged(c[i := x], i, child);
  }

  lemma SinkStop(act: seq<real>, c: seq<int>, lo: int, i: int, x: int)
    requires Ranged(act, c) && 0 <= i < |c| && 0 <= x < |act| && Sinking(act, c[i := x], lo, i)
    requires Left(i) < |c| ==> act[c[Left(i)]] <= act[x]
    requires Right(i) < |c| ==> act[c[Right(i)]] <= act[x]
    ensures Ordered(act, c[i := x], lo)
  {
    SinkDone(act, c[i := x], lo, i);
  }

  // The entry at the front of an ordered queue is the most active one.
  lemma {:induction false} FrontGreatest(act: seq<real>, c: seq<int>, k: int)
    requires Ordered(act, c, 0) && 0 <= k < |c|
    ensures Key(act, c, k) <= Key(act, c, 0)
    decreases k
  {
    if k > 0 {
      assert Below(act, c, k);
      FrontGreatest(act, c, Parent(k));
    }
  }

  lemma MostActive(act: seq<real>, c: seq<int>)
    requires Ordered(act, c, 0) && |c| > 0 && forall k :: 0 <= k < |c| ==> 0 <= c[k] < |act|
    ensures forall v :: v in multiset(c) ==> 0 <= v < |act| && act[v] <= act[c[0]]
  {
    forall v | v in multiset(c) ensures 0 <= v < |act| && act[v] <= act[c[0]] {
      var k :| 0 <= k < |c| && c[k] == v;
      FrontGreatest(act, c, k);
    }
  }

  lemma AppendRises(act: seq<real>, c: seq<int>, n: int)
    requires Ordered(act, c, 0)
    ensures Rising(act, c + [n], |c|)
  {
    forall k | 0 < k < |c + [n]| && k != |c| ensures Below(act, c + [n], k) {
      assert Below(act, c, k);
    }
  }

  // The last entry takes the place of the first.
  lemma HeadSinks(act: seq<real>, c: seq<int>)
    requires Ordered(act, c, 0) && |c| > 0
    ensures Sinking(act, c[0 := c[|c| - 1]][..|c| - 1], 0, 0)
  {
    var d := c[0 := c[|c| - 1]][..|c| - 1];
    forall k | 0 < k < |d| && 0 <= Parent(k) != 0 ensures Below(act, d, k) {
      assert Below(act, c, k) && 0 < Parent(k) < |d|;
    }
  }

  // Raising the activity of a variable with a single entry, at i, only disturbs the order at i.
  lemma BumpRises(act: seq<real>, c: seq<int>, i: int, n: int, bumped: real)
    requires Ordered(act, c, 0) && 0 <= n < |act| && act[n] <= bumped
    requires 0 <= i < |c| && c[i] == n && forall k :: 0 <= k < |c| && k != i ==> c[k] != n
    ensures Rising(act[n := bumped], c, i)
  {
    var act' := act[n := bumped];
    assert forall k :: k != i ==> Key(act', c, k) == Key(act, c, k);
    assert Key(act', c, i) >= Key(act, c, i);
    hide Key;
    forall k | 0 < k < |c| && k != i ensures Below(act', c, k) {
      assert Below(act, c, k);
    }
    if i > 0 {
      forall k | 0 < k < |c| && Parent(k) == i ensures Key(act', c, k) <= Key(act', c, Parent(i)) {
        assert Below(act, c, k) && Below(act, c, i);
      }
    }
  }

  // Overwriting the first entry by the last keeps the index sound, even if both are the same variable.
  lemma DropHead(content: seq<int>, indices: seq<int>)
    requires Indexed(content, indices) && |content| > 0
    ensures var n := |content|; var x, last := content[0], content[n - 1];
            && 0 <= x < |indices| && 0 <= last < |indices|
            && Indexed(content[0 := last][..n - 1], indices[last := 0][x := -1])
  {
  }

  lemma DropHeadEntries(content: seq<int>)
    requires |content| > 0
    ensures multiset(content[0 := content[|content| - 1]][..|content| - 1]) == multiset(content) - multiset{content[0]}
  {
    var n := |content|;
    if n > 1 {
      assert content == [content[0]] + content[1..n - 1] + [content[n - 1]];
      assert content[0 := content[n - 1]][..n - 1] == [content[n - 1]] + content[1..n - 1];
    }
  }

  // What is left of an ordered queue is ordered but for the front, and the front was the most active.
  lemma DropHeadOrder(act: seq<real>, c: seq<int>)
    requires |c| > 0 && Ranged(act, c)
    ensures var d := c[0 := c[|c| - 1]][..|c| - 1];
            Ordered(act, c, 0) ==> Sinking(act, d, 0, 0) && (|d| <= 1 ==> Ordered(act, d, 0))
    ensures Ordered(act, c, 0) ==> forall v :: v in multiset(c) ==> 0 <= v < |act| && act[v] <= act[c[0]]
  {
    if Ordered(act, c, 0) {
      HeadSinks(act, c);
      MostActive(act, c);
    }
  }

  class Queue {
    var activity: seq<real>  // the solver's slice, shared
    var content: seq<int>
    var indices: seq<int>

    ghost predicate Valid()
      reads this
    {
      |indices| <= |activity| && Indexed(content, indices)
    }

    // The variables that are waiting, with their multiplicity.
    ghost function Entries(): multiset<int>
      reads this
    {
      multiset(content)
    }

    ghost predicate IsHeap()
      reads this
    {
      Ordered(activity, content, 0)
    }

    constructor (activity: seq<real>)
      ensures Valid() && this.activity == activity && |indices| == |activity|
      ensures IsHeap() && forall v :: 0 <= v < |activity| ==> v in Entries()
    {
      this.activity, content, indices := activity, [], [];
      new;
      for i := 0 to |activity|
        invariant Valid() && IsHeap() && this.activity == activity && |indices| == i
        invariant forall v :: 0 <= v < i ==> v in Entries()
      {
        Insert(i);
      }
    }

    predicate Lt(i: int, j: int)
      requires 0 <= i < |activity| && 0 <= j < |activity|
      reads this`activity
    {
      activity[i] > activity[j]
    }

    method PercolateUp(i0: int)
      requires Valid() && 0 <= i0 < |content|
      modifies this`content, this`indices
      ensures Valid() && |indices| == |old(indices)| && Entries() == old(Entries())
      ensures old(Rising(activity, content, i0)) ==> IsHeap()
    {
      var i := i0;
      var x := content[i];
      var p := Parent(i);
      ghost var rising := Rising(activity, content, i);
      Open(content, indices, i);
      hide Indexed, IndexedAround, Rising, Ordered, With;
      while i != 0 && Lt(x, content[p])
        invariant 0 <= i < |content| && p == Parent(i) && 0 <= x < |indices| == |old(indices)|
        invariant |content| == |old(content)| && forall k :: 0 <= k < |content| ==> 0 <= content[k] < |indices|
        invariant IndexedAround(content, indices, i, x)
        invariant With(content, i, x) == old(Entries()) && (rising ==> Rising(activity, content[i := x], i))
        decreases i
      {
        if rising {
          RiseMove(activity, content, i, x);
        }
        Shift(content, indices, i, p, x);
        content, indices := content[i := content[p]], indices[content[p] := i];
        i := p;
        p := Parent(p);
      }
      Close(content, indices, i, x);
      content := content[i := x];
      indices := indices[x := i];
      if rising {
        RiseDone(activity, content, i);
      }
    }

    // The more active of the two entries below i.
    function Child(i: int): (c: int)
      requires Ranged(activity, content) && 0 <= i && Left(i) < |content|
      reads this`activity, this`content
      ensures c == Left(i) || c == Right(i)
      ensures i < c < |content| && activity[content[c]] >= activity[content[Left(i)]]
      ensures Right(i) < |content| ==> activity[content[c]] >= activity[content[Right(i)]]
    {
      if Right(i) < |content| && Lt(content[Right(i)], content[Left(i)]) then Right(i) else Left(i)
    }

    method PercolateDown(i0: int, ghost lo: int)
      requires Valid() && 0 <= lo <= i0 < |content|
      modifies this`content, this`indices
      ensures Valid() && |indices| == |old(indices)| && |content| == |old(content)| && Entries() == old(Entries())
      ensures old(Sinking(activity, content, lo, i0)) ==> Ordered(activity, content, lo)
    {
      var i := i0;
      var x := content[i];
      ghost var sinking := Sinking(activity, content, lo, i);
      Open(content, indices, i);
      hide Indexed, IndexedAround, Sinking, Ordered, With, Key;
      while Left(i) < |content|
        invariant 0 <= i < |content| && 0 <= x < |indices| == |old(indices)|
        invariant |content| == |old(content)| && forall k :: 0 <= k < |content| ==> 0 <= content[k] < |indices|
        invariant IndexedAround(content, indices, i, x)
        invariant With(content, i, x) == old(Entries())
        invariant lo <= i && (sinking ==> Sinking(activity, content[i := x], lo, i))
        decreases |content| - i
      {
        var child := Child(i);
        if !Lt(content[child], x) {
          break;
        }
        if sinking {
          SinkMove(activity, content, lo, i, child, x);
        }
        Shift(content, indices, i, child, x);
        content, indices := content[i := content[child]], indices[content[child] := i];
        i := child;
      }
      if sinking {
        SinkStop(activity, content, lo, i, x);
      }
      Close(content, indices, i, x);
      content := content[i := x];
      indices := indices[x := i];
    }

    predicate Empty()
      reads this
    {
      |content| == 0
    }

    predicate Contains(n: int)
      requires 0 <= n
      reads this
    {
      n < |indices| && indices[n] >= 0
    }

    // A variable the queue claims to contain really has an entry.
    lemma ContainsEntry(n: int)
      requires Valid() && 0 <= n && Contains(n)
      ensures n in Entries()
    {
    }

    method Decrease(n: int)
      requires Valid() && 0 <= n && Contains(n)
      modifies this`content, this`indices
      ensures Valid() && |indices| == |old(indices)| && Entries() == old(Entries())
      ensures old(Rising(activity, content, indices[n])) ==> IsHeap()
    {
      PercolateUp(indices[n]);
    }

    // Adds an entry, even if there is one already.
    method Insert(n: int)
      requires Valid() && 0 <= n < |activity|
      modifies this`content, this`indices
      ensures Valid() && Entries() == old(Entries()) + multiset{n}
      ensures |indices| == if n < |old(indices)| then |old(indices)| else n + 1
      ensures old(IsHeap()) ==> IsHeap()
    {
      ghost var before := content;
      if |indices| <= n {
        indices := indices + seq(n + 1 - |indices|, _ => -1);
      }
      indices := indices[n := |content|];
      content := content + [n];
      if Ordered(activity, before, 0) {
        AppendRises(activity, before, n);
      }
      PercolateUp(indices[n]);
    }

    // In an ordered queue this is a most active variable.
    method RemoveMin() returns (x: int)
      requires Valid() && !Empty()
      modifies this`content, this`indices
      ensures Valid() && |indices| == |old(indices)|
      ensures x == old(content)[0] && 0 <= x < |indices|
      ensures Entries() == old(Entries()) - multiset{x}
      ensures old(IsHeap()) ==> IsHeap() && forall v :: v in old(Entries()) ==> activity[v] <= activity[x]
    {
      DropHead(content, indices);
      DropHeadEntries(content);
      DropHeadOrder(activity, content);
      hide Indexed, Ordered, Sinking;
      x := content[0];
      var last := content[|content| - 1];
      content := content[0 := last];
      indices := indices[last := 0];
      indices := indices[x := -1];
      content := content[..|content| - 1];
      if |content| > 1 {
        PercolateDown(0, 0);
      }
    }

    // Replaces the content; the same variable may be listed several times.
    method Build(ns: seq<int>)
      requires Valid() && forall k :: 0 <= k < |ns| ==> 0 <= ns[k] < |indices|
      modifies this`content, this`indices
      ensures Valid() && IsHeap() && |indices| == |old(indices)| && Entries() == multiset(ns)
    {
      for i := 0 to |content|
        invariant content == old(content) && |indices| == |old(indices)| && Indexed(content, indices)
        invariant forall k :: 0 <= k < i ==> indices[content[k]] == -1
      {
        indices := indices[content[i] := -1];
      }
      content := [];
      for i := 0 to |ns|
        invariant content == ns[..i] && |indices| == |old(indices)| && Indexed(content, indices)
      {
        assert ns[..i + 1] == ns[..i] + [ns[i]];
        indices := indices[ns[i] := i];
        content := content + [ns[i]];
      }
      assert ns[..|ns|] == ns;
      var i := |content| / 2 - 1;
      ghost var n := |content|;
      while i >= 0
        invariant -1 <= i <= n / 2 - 1 && |content| == n && Ordered(activity, content, i + 1)
        invariant Valid() && |indices| == |old(indices)| && Entries() == multiset(ns)
      {
        PercolateDown(i, i);
        i := i - 1;
      }
    }
  }
}
