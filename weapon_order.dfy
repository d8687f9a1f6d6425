/** The weapon priority list of the player settings dialog as values: weapons
    sorted by auto-switch priority when the dialog opens, moved up or down one
    place at a time, and given priorities N, N - 1, ..., 1 by rank on OK. */
module WeaponOrder {
  import opened Base

  /** A weapon class, by identity. */
  type WeaponId = nat

  /** Auto-switch priority of each weapon class. */
  type Priorities = map<WeaponId, real>

  ghost predicate Distinct(list: seq<WeaponId>) {
    forall i, j :: 0 <= i < j < |list| ==> list[i] != list[j]
  }

  /** The array's Find: the first index holding `w`, or -1 when there is none. */
  function Find(list: seq<WeaponId>, w: WeaponId): (r: int)
    ensures -1 <= r < |list|
    ensures 0 <= r ==> list[r] == w && forall j :: 0 <= j < r ==> list[j] != w
    ensures r == -1 ==> w !in list
    decreases |list|
  {
    if |list| == 0 then -1
    else if list[0] == w then 0
    else
      var k := Find(list[1..], w);
      if k < 0 then -1 else k + 1
  }

  function Swap(list: seq<WeaponId>, i: nat, j: nat): seq<WeaponId>
    requires i < |list| && j < |list|
  {
    list[i := list[j]][j := list[i]]
  }

  /** The "up" button: the selected weapon trades places with the one above
      it, unless it is already at the top (or not in the list at all). */
  function PriorityUp(list: seq<WeaponId>, selected: Option<WeaponId>): seq<WeaponId> {
    if selected.None? then list
    else
      var index := Find(list, selected.value);
      if index > 0 then Swap(list, index, index - 1) else list
  }

  /** The "down" button: the selected weapon trades places with the one below
      it, when it is in the list and not last. */
  function PriorityDown(list: seq<WeaponId>, selected: Option<WeaponId>): seq<WeaponId> {
    if selected.None? then list
    else
      var index := Find(list, selected.value);
      if index != -1 && index < |list| - 1 then Swap(list, index, index + 1) else list
  }

  // ---------------------------------------------------------------- swaps

  /** A swap moves two entries and keeps the list's length, its contents and
      its freedom from duplicates. */
  lemma SwapOutcome(list: seq<WeaponId>, i: nat, j: nat)
    requires i < |list| && j < |list|
    ensures var r := Swap(list, i, j);
      && |r| == |list| && multiset(r) == multiset(list)
      && r[i] == list[j] && r[j] == list[i]
      && (forall k :: 0 <= k < |list| && k != i && k != j ==> r[k] == list[k])
      && (Distinct(list) ==> Distinct(r))
  {
    SwapMultiset(list, i, j);
    if Distinct(list) {
      SwapDistinct(list, i, j);
    }
  }

  lemma SwapMultiset(list: seq<WeaponId>, i: nat, j: nat)
    requires i < |list| && j < |list|
    ensures multiset(Swap(list, i, j)) == multiset(list)
  {
    var l1 := list[i := list[j]];
    if i != j {
      assert multiset(l1) == multiset(list) - multiset{list[i]} + multiset{list[j]};
      assert multiset(l1[j := list[i]]) == multiset(l1) - multiset{list[j]} + multiset{list[i]};
    }
  }

  lemma SwapDistinct(list: seq<WeaponId>, i: nat, j: nat)
    requires i < |list| && j < |list| && Distinct(list)
    ensures Distinct(Swap(list, i, j))
  {
    var r := Swap(list, i, j);
    forall a, b | 0 <= a < b < |r|
      ensures r[a] != r[b]
    {
      var a' := if a == i then j else if a == j then i else a;
      var b' := if b == i then j else if b == j then i else b;
      assert r[a] == list[a'] && r[b] == list[b'] && a' != b';
    }
  }

  /** "Up" on a weapon below the top moves it one place up; anywhere else it
      changes nothing. Either way the list keeps its contents. */
  lemma PriorityUpOutcome(list: seq<WeaponId>, w: WeaponId)
    ensures var r := PriorityUp(list, Some(w)); var index := Find(list, w);
      && |r| == |list| && multiset(r) == multiset(list)
      && (index > 0 ==> r == Swap(list, index, index - 1) && r[index - 1] == w)
      && (index <= 0 ==> r == list)
  {
    var index := Find(list, w);
    if index > 0 {
      SwapOutcome(list, index, index - 1);
    }
  }

  /** "Down" on a weapon above the bottom moves it one place down; anywhere
      else it changes nothing. Either way the list keeps its contents. */
  lemma PriorityDownOutcome(list: seq<WeaponId>, w: WeaponId)
    ensures var r := PriorityDown(list, Some(w)); var index := Find(list, w);
      && |r| == |list| && multiset(r) == multiset(list)
      && (0 <= index < |list| - 1 ==> r == Swap(list, index, index + 1) && r[index + 1] == w)
      && (index == -1 || index == |list| - 1 ==> r == list)
  {
    var index := Find(list, w);
    if 0 <= index < |list| - 1 {
      SwapOutcome(list, index, index + 1);
    }
  }

  /** A duplicate-free list holds each weapon at most once ... */
  lemma {:induction false} DistinctCounts(list: seq<WeaponId>)
    requires Distinct(list)
    ensures forall w :: multiset(list)[w] <= 1
    decreases |list|
  {
    if |list| > 0 {
      DistinctCounts(list[1..]);
      assert list == [list[0]] + list[1..];
      forall k | 0 <= k < |list| - 1
        ensures list[1..][k] != list[0]
      {
        assert list[1..][k] == list[k + 1];
      }
      assert list[0] !in list[1..];
    }
  }

  /** ... so any rearrangement of it is duplicate-free too. */
  lemma PermutationDistinct(a: seq<WeaponId>, b: seq<WeaponId>)
    requires Distinct(a) && multiset(a) == multiset(b)
    ensures Distinct(b)
  {
    DistinctCounts(a);
    forall i, j | 0 <= i < j < |b|
      ensures b[i] != b[j]
    {
      var w := b[i];
      assert b == b[..j] + b[j..];
      assert b[..j][i] == w;
      assert multiset(b)[w] == multiset(b[..j])[w] + multiset(b[j..])[w];
      assert multiset(b[j..])[w] == 0;
      assert b[j..][0] == b[j];
    }
  }

  /** In a list without duplicates, Find is exact. */
  lemma FindDistinct(list: seq<WeaponId>, k: nat)
    requires Distinct(list) && k < |list|
    ensures Find(list, list[k]) == k
  {
  }

  /** "Down" undoes "up" on any weapon that "up" moved ... */
  lemma PriorityDownUndoesUp(list: seq<WeaponId>, w: WeaponId)
    requires Distinct(list) && Find(list, w) > 0
    ensures PriorityDown(PriorityUp(list, Some(w)), Some(w)) == list
  {
    var index := Find(list, w);
    var r := Swap(list, index, index - 1);
    SwapOutcome(list, index, index - 1);
    FindDistinct(r, index - 1);
    assert Swap(r, index - 1, index) == list;
  }

  /** ... and "up" undoes "down". */
  lemma PriorityUpUndoesDown(list: seq<WeaponId>, w: WeaponId)
    requires Distinct(list) && 0 <= Find(list, w) < |list| - 1
    ensures PriorityUp(PriorityDown(list, Some(w)), Some(w)) == list
  {
    var index := Find(list, w);
    var r := Swap(list, index, index + 1);
    SwapOutcome(list, index, index + 1);
    FindDistinct(r, index + 1);
    assert Swap(r, index + 1, index) == list;
  }

  // ---------------------------------------------------------------- ranks

  /** The priorities after the first k rounds of the OK loop: the weapon in
      row i gets N - i, the top row being the highest. */
  function Ranked(prio: Priorities, list: seq<WeaponId>, k: nat): Priorities
    requires k <= |list|
    decreases k
  {
    if k == 0 then prio else Ranked(prio, list, k - 1)[list[k - 1] := (|list| - (k - 1)) as real]
  }

  /** After k rounds the weapons of the first k rows have their rank, and no
      other weapon's priority has changed. */
  lemma {:induction false} RankedValues(prio: Priorities, list: seq<WeaponId>, k: nat)
    requires Distinct(list) && k <= |list|
    ensures var r := Ranked(prio, list, k);
      && (forall i :: 0 <= i < k ==> list[i] in r && r[list[i]] == (|list| - i) as real)
      && (forall w :: w in prio && w !in list[..k] ==> w in r && r[w] == prio[w])
    decreases k
  {
    if k > 0 {
      RankedValues(prio, list, k - 1);
      var r0 := Ranked(prio, list, k - 1);
      var r := Ranked(prio, list, k);
      assert r == r0[list[k - 1] := (|list| - (k - 1)) as real];
      forall i | 0 <= i < k - 1
        ensures list[i] in r && r[list[i]] == (|list| - i) as real
      {
        assert list[i] != list[k - 1];
      }
      assert list[..k] == list[..k - 1] + [list[k - 1]];
    }
  }

  /** The ranked weapons are added to the weapons that had a priority. */
  lemma {:induction false} RankedKeys(prio: Priorities, list: seq<WeaponId>, k: nat)
    requires k <= |list|
    ensures Ranked(prio, list, k).Keys == prio.Keys + (set i | 0 <= i < k :: list[i])
    decreases k
  {
    if k > 0 {
      RankedKeys(prio, list, k - 1);
      assert (set i | 0 <= i < k :: list[i]) == (set i | 0 <= i < k - 1 :: list[i]) + {list[k - 1]};
    }
  }

  /** With every row ranked, priorities fall strictly from the top row to the
      bottom, run from N down to 1, and no two rows share one. */
  lemma RanksDescend(prio: Priorities, list: seq<WeaponId>)
    requires Distinct(list)
    ensures var r := Ranked(prio, list, |list|);
      && (forall i :: 0 <= i < |list| ==> list[i] in r && 1.0 <= r[list[i]] <= |list| as real)
      && (forall i, j :: 0 <= i < j < |list| ==> r[list[i]] > r[list[j]])
  {
    RankedValues(prio, list, |list|);
  }

  // ---------------------------------------------------------------- sort

  /** Every weapon of the list has a priority. */
  ghost predicate Covers(prio: Priorities, list: seq<WeaponId>) {
    forall i :: 0 <= i < |list| ==> list[i] in prio
  }

  /** Highest priority first. */
  ghost predicate SortedDesc(list: seq<WeaponId>, prio: Priorities)
    requires Covers(prio, list)
  {
    forall i, j :: 0 <= i < j < |list| ==> prio[list[i]] >= prio[list[j]]
  }

  function Insert(w: WeaponId, sorted: seq<WeaponId>, prio: Priorities): (r: seq<WeaponId>)
    requires w in prio && Covers(prio, sorted)
    ensures multiset(r) == multiset(sorted) + multiset{w} && Covers(prio, r)
    decreases |sorted|
  {
    if |sorted| == 0 || prio[w] >= prio[sorted[0]] then [w] + sorted
    else
      assert sorted == [sorted[0]] + sorted[1..];
      [sorted[0]] + Insert(w, sorted[1..], prio)
  }

  /** The list ordered by descending priority (weapons of equal priority in
      some order: the sort the dialog uses promises none). */
  function SortDesc(list: seq<WeaponId>, prio: Priorities): (r: seq<WeaponId>)
    requires Covers(prio, list)
    ensures multiset(r) == multiset(list) && Covers(prio, r)
    decreases |list|
  {
    if |list| == 0 then []
    else
      assert list == [list[0]] + list[1..];
      Insert(list[0], SortDesc(list[1..], prio), prio)
  }

  lemma {:induction false} InsertSorted(w: WeaponId, sorted: seq<WeaponId>, prio: Priorities)
    requires w in prio && Covers(prio, sorted) && SortedDesc(sorted, prio)
    ensures SortedDesc(Insert(w, sorted, prio), prio)
    ensures |Insert(w, sorted, prio)| > 0
    ensures Insert(w, sorted, prio)[0] == w || (|sorted| > 0 && Insert(w, sorted, prio)[0] == sorted[0])
    decreases |sorted|
  {
    if |sorted| > 0 && prio[w] < prio[sorted[0]] {
      InsertSorted(w, sorted[1..], prio);
      var tail := Insert(w, sorted[1..], prio);
      assert prio[sorted[0]] >= prio[tail[0]];
      var r := [sorted[0]] + tail;
      assert Insert(w, sorted, prio) == r;
      forall i, j | 0 <= i < j < |r|
        ensures prio[r[i]] >= prio[r[j]]
      {
        assert r[j] == tail[j - 1];
        if i > 0 {
          assert r[i] == tail[i - 1];
        } else if j > 1 {
          assert prio[tail[0]] >= prio[tail[j - 1]];
        }
      }
    }
  }

  /** The dialog's initial order: a rearrangement of the weapons with the
      highest priority on top. */
  lemma {:induction false} SortDescSorted(list: seq<WeaponId>, prio: Priorities)
    requires Covers(prio, list)
    ensures SortedDesc(SortDesc(list, prio), prio)
    decreases |list|
  {
    if |list| > 0 {
      SortDescSorted(list[1..], prio);
      InsertSorted(list[0], SortDesc(list[1..], prio), prio);
    }
  }
}
