/** What a successful walk says about the store. */
module CircleTheorems {
  import opened Circle

  /** `c` lists the nodes of a cycle of the store in order, each once. */
  ghost predicate IsCycle(store: Store, c: seq<nat>) {
    && |c| >= 1
    && (forall i, j :: 0 <= i < j < |c| ==> c[i] != c[j])
    && (forall i :: 0 <= i < |c| ==> c[i] in store)
    && (forall i :: 0 <= i < |c| - 1 ==> store[c[i]] == c[i + 1])
    && store[c[|c| - 1]] == c[0]
  }

  function Elements(c: seq<nat>): (s: set<nat>)
    ensures forall x :: x in s <==> x in c
  {
    if c == [] then {} else {c[0]} + Elements(c[1..])
  }

  /** The whole store is one cycle of n nodes. */
  ghost predicate SingleCycle(store: Store, n: nat) {
    exists c :: |c| == n && IsCycle(store, c) && Elements(c) == store.Keys
  }

  ghost predicate KeysWithin(store: Store, n: nat) {
    forall key :: key in store ==> 1 <= key <= n
  }

  // ---- Counting ---------------------------------------------------------------

  lemma {:induction false} DistinctSize(c: seq<nat>)
    requires forall i, j :: 0 <= i < j < |c| ==> c[i] != c[j]
    ensures |Elements(c)| == |c|
  {
    if c != [] {
      var rest := c[1..];
      assert forall i :: 0 <= i < |rest| ==> rest[i] == c[i + 1];
      assert c[0] !in rest;
      DistinctSize(rest);
    }
  }

  function UpTo(n: nat): (s: set<nat>)
    ensures forall x :: x in s <==> 1 <= x <= n
    ensures |s| == n
  {
    if n == 0 then {} else UpTo(n - 1) + {n}
  }

  lemma SubsetSize(a: set<nat>, b: set<nat>)
    requires a <= b
    ensures |a| <= |b|
    ensures |a| == |b| ==> a == b
  {
    var rest := b - a;
    assert b == a + rest && a !! rest;
    assert |b| == |a| + |rest|;
  }

  // ---- Walking ------------------------------------------------------------------

  /** From equal positions equal numbers of steps lead to equal positions. */
  lemma {:induction false} FollowFrom(store: Store, start: nat, i: nat, k: nat)
    requires Follow(store, start, i).At?
    ensures Follow(store, start, i + k) == Follow(store, Follow(store, start, i).id, k)
  {
    if k > 0 {
      FollowFrom(store, start, i, k - 1);
      assert Follow(store, start, i + k) == match Follow(store, start, i + (k - 1))
                                            case Lost => Lost
                                            case At(id) => if id in store then At(store[id]) else Lost;
    }
  }

  /** The nodes visited before the walk closes are all different. */
  lemma NoEarlyRepeat(store: Store, start: nat, n: nat, i: nat, j: nat)
    requires ReturnsAfter(store, start, n) && i < j < n
    ensures Follow(store, start, i).At? && Follow(store, start, j).At?
    ensures Follow(store, start, i) != Follow(store, start, j)
  {
    assert i == 0 ==> Follow(store, start, i) == At(start);
    FollowFrom(store, start, i, n - j);
    FollowFrom(store, start, j, n - j);
    assert Follow(store, start, j + (n - j)) == At(start);
    assert Follow(store, start, i + (n - j)) != At(start);
  }

  lemma WalkMakesCycle(store: Store, start: nat, n: nat) returns (c: seq<nat>)
    requires ReturnsAfter(store, start, n)
    ensures |c| == n && IsCycle(store, c) && c[0] == start
  {
    assert Follow(store, start, 0) == At(start);
    c := seq(n, i requires 0 <= i < n => Follow(store, start, i).id);
    forall i, j | 0 <= i < j < n
      ensures c[i] != c[j]
    {
      NoEarlyRepeat(store, start, n, i, j);
    }
    forall i | 0 <= i < n
      ensures c[i] in store && store[c[i]] == if i == n - 1 then start else c[i + 1]
    {
      assert Follow(store, start, i) == At(c[i]);
      assert Follow(store, start, i + 1).At?;
    }
  }

  lemma {:induction false} FollowCycle(store: Store, c: seq<nat>, s: nat, k: nat)
    requires IsCycle(store, c) && s < |c| && k <= |c|
    ensures Follow(store, c[s], k) == At(if s + k < |c| then c[s + k] else if s + k < 2 * |c| then c[s + k - |c|] else c[s])
  {
    if k > 0 {
      FollowCycle(store, c, s, k - 1);
    }
  }

  lemma CycleReturns(store: Store, c: seq<nat>, s: nat)
    requires IsCycle(store, c) && s < |c|
    ensures ReturnsAfter(store, c[s], |c|)
  {
    FollowCycle(store, c, s, |c|);
    forall k | 1 <= k < |c|
      ensures Follow(store, c[s], k).At? && Follow(store, c[s], k) != At(c[s])
    {
      FollowCycle(store, c, s, k);
    }
  }

  /** Over a store with keys in 1..n, a walk with total n succeeds, from whatever start in 1..n,
      exactly when the store is one single n-cycle. */
  lemma WalkExact(store: Store, start: nat, n: nat)
    requires KeysWithin(store, n) && 1 <= start <= n
    ensures ReturnsAfter(store, start, n) <==> SingleCycle(store, n)
  {
    assert store.Keys <= UpTo(n);
    if ReturnsAfter(store, start, n) {
      var c := WalkMakesCycle(store, start, n);
      DistinctSize(c);
      assert Elements(c) <= store.Keys;
      SubsetSize(Elements(c), UpTo(n));
    }
    if SingleCycle(store, n) {
      var c :| |c| == n && IsCycle(store, c) && Elements(c) == store.Keys;
      DistinctSize(c);
      SubsetSize(Elements(c), UpTo(n));
      assert start in c;
      var s :| 0 <= s < |c| && c[s] == start;
      CycleReturns(store, c, s);
    }
  }

  // ---- The written circle ---------------------------------------------------------

  function Numbers(n: nat): (c: seq<nat>)
    ensures |c| == n && forall i :: 0 <= i < n ==> c[i] == i + 1
  {
    seq(n, i requires 0 <= i => i + 1)
  }

  lemma CircleIsCycle(n: nat, store: Store)
    requires n >= 1 && Holds(n, n, store)
    ensures IsCycle(store, Numbers(n))
  {
    forall i | 0 <= i < n
      ensures Numbers(n)[i] in store && store[Numbers(n)[i]] == if i == n - 1 then 1 else Numbers(n)[i] + 1
    {
      assert 1 <= Numbers(n)[i] <= n;
    }
  }

  /** A walk over a stored n-circle succeeds from every start in 1..n, and only with total n. */
  lemma CircleWalk(n: nat, store: Store, start: nat, total: nat)
    requires n >= 1 && Holds(n, n, store) && 1 <= start <= n
    ensures ReturnsAfter(store, start, total) <==> total == n
  {
    CircleIsCycle(n, store);
    assert Numbers(n)[start - 1] == start;
    CycleReturns(store, Numbers(n), start - 1);
    assert 1 <= total < n ==> Follow(store, start, total) != At(start);
    assert Follow(store, start, n) == At(start);
  }

  /** In a cycle no value occurs twice, and every value is again a key. */
  lemma CycleInjective(store: Store, c: seq<nat>, x: nat, y: nat)
    requires IsCycle(store, c) && x in c && y in c
    ensures store[x] in c && (store[x] == store[y] ==> x == y)
  {
    var i :| 0 <= i < |c| && c[i] == x;
    var j :| 0 <= j < |c| && c[j] == y;
    assert store[x] == if i == |c| - 1 then c[0] else c[i + 1];
    assert store[y] == if j == |c| - 1 then c[0] else c[j + 1];
  }

  /** Changing any one row of a written circle is noticed from every start. */
  lemma ChangedRowFails(n: nat, store: Store, key: nat, value: nat, start: nat)
    requires n >= 1 && Holds(n, n, store) && KeysWithin(store, n)
    requires 1 <= key <= n && value != store[key] && 1 <= start <= n
    ensures !ReturnsAfter(store[key := value], start, n)
  {
    var changed := store[key := value];
    WalkExact(changed, start, n);
    if SingleCycle(changed, n) {
      var c :| |c| == n && IsCycle(changed, c) && Elements(c) == changed.Keys;
      assert key in c;
      CycleInjective(changed, c, key, key);
      assert value in changed && 1 <= value <= n;
      var other := if value == 1 then n else value - 1;
      assert 1 <= other <= n && Next(n, other) == value;
      assert other in store && store[other] == value;
      assert other != key && other in c;
      CycleInjective(changed, c, key, other);
    }
  }

  /** So is the loss of any row. */
  lemma MissingRowFails(n: nat, store: Store, key: nat, start: nat)
    requires n >= 1 && KeysWithin(store, n) && 1 <= key <= n && key !in store && 1 <= start <= n
    ensures !ReturnsAfter(store, start, n)
  {
    WalkExact(store, start, n);
    if SingleCycle(store, n) {
      var c :| |c| == n && IsCycle(store, c) && Elements(c) == store.Keys;
      DistinctSize(c);
      assert store.Keys <= UpTo(n);
      SubsetSize(store.Keys, UpTo(n));
    }
  }

  // ---- The index ------------------------------------------------------------------------

  /** The index answers exactly the values the store holds, with their keys; so the store is injective. */
  ghost predicate IsIndexOf(index: Store, store: Store) {
    && (forall key :: key in store ==> store[key] in index && index[store[key]] == key)
    && (forall value :: value in index ==> index[value] in store && store[index[value]] == value)
  }

  lemma {:induction false} FollowBack(store: Store, index: Store, start: nat, n: nat, k: nat)
    requires IsIndexOf(index, store) && ReturnsAfter(store, start, n) && k <= n
    ensures Follow(index, start, k) == Follow(store, start, n - k)
    decreases k
  {
    assert Follow(store, start, 0) == At(start);
    if k > 0 {
      FollowBack(store, index, start, n, k - 1);
      assert Follow(store, start, n - k).At?;
      var y := Follow(store, start, n - k).id;
      assert Follow(store, start, n - k + 1) == if y in store then At(store[y]) else Lost;
      assert Follow(store, start, n - k + 1).At?;
    }
  }

  lemma BackwardReturns(store: Store, index: Store, start: nat, n: nat)
    requires IsIndexOf(index, store) && ReturnsAfter(store, start, n)
    ensures ReturnsAfter(index, start, n)
  {
    FollowBack(store, index, start, n, n);
    forall k | 1 <= k < n
      ensures Follow(index, start, k).At? && Follow(index, start, k) != At(start)
    {
      FollowBack(store, index, start, n, k);
    }
  }

  /** Walking backward through an exact index succeeds exactly when walking forward does. */
  lemma IndexAgrees(store: Store, index: Store, start: nat, n: nat)
    requires IsIndexOf(index, store)
    ensures ReturnsAfter(store, start, n) <==> ReturnsAfter(index, start, n)
  {
    if ReturnsAfter(store, start, n) {
      BackwardReturns(store, index, start, n);
    }
    if ReturnsAfter(index, start, n) {
      BackwardReturns(index, store, start, n);
    }
  }

  // ---- Writing, then checking --------------------------------------------------------------

  /** A write that reports OK is followed by a successful walk from every start, over any store and after
      any failures; and it does report OK when every request is accepted and one attempt is allowed. */
  method WriteThenWalk(writer: WriteCircleAction, start: nat) returns (written: ResultCode, walked: ResultCode)
    requires writer.totalRows >= 1 && 1 <= start <= writer.totalRows
    modifies writer.client
    ensures written == OK ==> walked == OK
    ensures writer.tries >= 2 && AnswersAll(writer.totalRows, old(writer.client.replies)) ==> written == OK
  {
    ghost var batches;
    written, batches := writer.DoRun();
    var walker := new Walker(writer.client.store, start, writer.totalRows, _ => true);
    if written == OK {
      CircleWalk(writer.totalRows, writer.client.store, start, writer.totalRows);
    }
    walked := walker.DoRun();
  }
}
