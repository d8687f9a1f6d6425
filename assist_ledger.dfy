/** The assist ledger of a carried object: for every player who has held the
    object since it was last at home, the time they held it in total.
    Entries are appended on a player's first pickup and added into in place. */
module AssistLedger {
  import opened Base

  datatype AssistEntry = AssistEntry(holder: PlayerId, totalHeldTime: real)

  type Ledger = seq<AssistEntry>

  /** No player has two entries. */
  ghost predicate Distinct(ledger: Ledger) {
    forall i, j :: 0 <= i < j < |ledger| ==> ledger[i].holder != ledger[j].holder
  }

  /** Index of the first entry held by `h`, or -1. A null holder has no entry,
      since every entry is created for a real player. */
  function FindAssist(ledger: Ledger, h: Option<PlayerId>): (r: int)
    ensures -1 <= r < |ledger|
    ensures 0 <= r ==> h == Some(ledger[r].holder)
    ensures 0 <= r ==> forall j :: 0 <= j < r ==> h != Some(ledger[j].holder)
    ensures r == -1 ==> forall j :: 0 <= j < |ledger| ==> h != Some(ledger[j].holder)
  {
    if |ledger| == 0 then -1
    else if h == Some(ledger[0].holder) then 0
    else
      var k := FindAssist(ledger[1..], h);
      if k < 0 then -1 else k + 1
  }

  /** Adds `d` into the total of entry `i`. */
  function AddHeldTime(ledger: Ledger, i: nat, d: real): (r: Ledger)
    requires i < |ledger|
  {
    ledger[i := ledger[i].(totalHeldTime := ledger[i].totalHeldTime + d)]
  }

  /** The ledger after `p` picks the object up: an entry worth 0 is added
      for a player seen for the first time. */
  function TrackAssist(ledger: Ledger, p: PlayerId): Ledger {
    if FindAssist(ledger, Some(p)) < 0 then ledger + [AssistEntry(p, 0.0)] else ledger
  }

  /** Held time credited to `h` by the ledger alone (0 when `h` has no entry). */
  function LedgerTime(ledger: Ledger, h: Option<PlayerId>): real {
    var i := FindAssist(ledger, h);
    if 0 <= i then ledger[i].totalHeldTime else 0.0
  }

  /** Sum of all entries' totals. */
  function Total(ledger: Ledger): real {
    if |ledger| == 0 then 0.0 else Total(ledger[..|ledger| - 1]) + ledger[|ledger| - 1].totalHeldTime
  }

  /** Number of entries held by `p`. */
  function Count(ledger: Ledger, p: PlayerId): nat {
    if |ledger| == 0 then 0
    else Count(ledger[..|ledger| - 1], p) + (if ledger[|ledger| - 1].holder == p then 1 else 0)
  }

  /** Adding held time to one entry raises the ledger's total by exactly that time. */
  lemma {:induction false} TotalAddHeldTime(ledger: Ledger, i: nat, d: real)
    requires i < |ledger|
    ensures Total(AddHeldTime(ledger, i, d)) == Total(ledger) + d
  {
    var n := |ledger|;
    var r := AddHeldTime(ledger, i, d);
    if i < n - 1 {
      assert r[..n - 1] == AddHeldTime(ledger[..n - 1], i, d);
      TotalAddHeldTime(ledger[..n - 1], i, d);
    } else {
      assert r[..n - 1] == ledger[..n - 1];
    }
  }

  /** Adding held time changes no holder, so every lookup finds the same index. */
  lemma {:induction false} FindAssistAddHeldTime(ledger: Ledger, i: nat, d: real, h: Option<PlayerId>)
    requires i < |ledger|
    ensures FindAssist(AddHeldTime(ledger, i, d), h) == FindAssist(ledger, h)
  {
    var r := AddHeldTime(ledger, i, d);
    if |ledger| > 0 && h != Some(ledger[0].holder) {
      if i == 0 {
        assert r[1..] == ledger[1..];
      } else {
        assert r[1..] == AddHeldTime(ledger[1..], i - 1, d);
        FindAssistAddHeldTime(ledger[1..], i - 1, d, h);
      }
    }
  }

  /** The entries' time is credited to its holder only: after adding `d` to the
      entry of `p`, `p`'s ledger time rises by `d` and every other player's is unchanged. */
  lemma LedgerTimeAddHeldTime(ledger: Ledger, p: Option<PlayerId>, d: real, h: Option<PlayerId>)
    requires 0 <= FindAssist(ledger, p)
    ensures LedgerTime(AddHeldTime(ledger, FindAssist(ledger, p), d), h)
         == LedgerTime(ledger, h) + (if h == p then d else 0.0)
  {
    FindAssistAddHeldTime(ledger, FindAssist(ledger, p), d, h);
  }

  /** A player appears at most once in a ledger without duplicates, and is
      found there exactly when it appears. */
  lemma {:induction false} CountDistinct(ledger: Ledger, p: PlayerId)
    requires Distinct(ledger)
    ensures Count(ledger, p) == (if 0 <= FindAssist(ledger, Some(p)) then 1 else 0)
  {
    var n := |ledger|;
    if n > 0 {
      var init := ledger[..n - 1];
      CountDistinct(init, p);
      var k := FindAssist(init, Some(p));
      if 0 <= k {
        assert init[k] == ledger[k];
        assert ledger[n - 1].holder != p;
        assert FindAssist(ledger, Some(p)) <= k;
      } else if ledger[n - 1].holder == p {
        assert forall j :: 0 <= j < n - 1 ==> ledger[j] == init[j];
        assert FindAssist(ledger, Some(p)) == n - 1;
      } else {
        assert forall j :: 0 <= j < n - 1 ==> ledger[j] == init[j];
      }
    }
  }

  /** An entry for a player the ledger does not know adds no duplicate. */
  lemma AppendKeepsDistinct(ledger: Ledger, p: PlayerId)
    requires Distinct(ledger) && FindAssist(ledger, Some(p)) < 0
    ensures Distinct(ledger + [AssistEntry(p, 0.0)])
  {
    var r := ledger + [AssistEntry(p, 0.0)];
    forall i, j | 0 <= i < j < |r|
      ensures r[i].holder != r[j].holder
    {
      assert r[i] == ledger[i];
      if j < |ledger| {
        assert r[j] == ledger[j];
      }
    }
  }

  /** A pickup by `p` keeps the ledger duplicate-free and leaves `p` with
      exactly one entry: a new one worth 0 when `p` was unknown, otherwise the
      ledger is unchanged. Earlier entries are never touched. */
  lemma TrackAssistOutcome(ledger: Ledger, p: PlayerId)
    requires Distinct(ledger)
    ensures var r := TrackAssist(ledger, p);
      && Distinct(r) && Count(r, p) == 1
      && |r| >= |ledger| && r[..|ledger|] == ledger
      && (FindAssist(ledger, Some(p)) < 0 ==> LedgerTime(r, Some(p)) == 0.0)
      && (0 <= FindAssist(ledger, Some(p)) ==> r == ledger)
  {
    var r := TrackAssist(ledger, p);
    if FindAssist(ledger, Some(p)) < 0 {
      AppendKeepsDistinct(ledger, p);
      FindAssistAppend(ledger, AssistEntry(p, 0.0), Some(p));
      assert r[..|ledger|] == ledger;
    }
    CountDistinct(r, p);
  }

  /** Appending an entry leaves every earlier lookup where it was; only a
      player the ledger did not know can be found at the new entry. */
  lemma {:induction false} FindAssistAppend(ledger: Ledger, e: AssistEntry, h: Option<PlayerId>)
    ensures FindAssist(ledger + [e], h)
         == if 0 <= FindAssist(ledger, h) then FindAssist(ledger, h)
            else if h == Some(e.holder) then |ledger| else -1
  {
    if |ledger| > 0 {
      assert (ledger + [e])[1..] == ledger[1..] + [e];
      FindAssistAppend(ledger[1..], e, h);
    }
  }
}
