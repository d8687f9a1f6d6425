/** The player settings dialog (SUWPlayerSettingsDialog) as an object with the
    fields its handlers update: the name box, the weapon priority list and its
    selection, the three emote choices, and the settings they are saved to. */
module PlayerSettings {
  import opened Base
  import opened NameFilter
  import opened WeaponOrder

  /** The dialog's fields as one value, so that a handler's contract can say
      which of them it changes and that the rest stay as they were. */
  datatype DialogState = DialogState(
    playerName: string,
    weaponList: seq<WeaponId>,
    selected: Option<WeaponId>,
    emote1Index: int,
    emote2Index: int,
    emote3Index: int,
    autoSwitchPriority: Priorities,
    profilePriorities: Priorities,
    savedEmotes: seq<int>)

  class SettingsDialog {
    /** The characters a player name may not contain. */
    const invalidNameChars: string
    /** Whether the player has profile settings to save priorities into. */
    const hasProfile: bool

    var playerName: string
    var weaponList: seq<WeaponId>
    var selected: Option<WeaponId>
    var emote1Index: int
    var emote2Index: int
    var emote3Index: int

    /** The weapon classes' own auto-switch priorities. */
    var autoSwitchPriority: Priorities
    /** The priorities kept in the player's profile. */
    var profilePriorities: Priorities
    /** The emote choices kept in the game's user settings. */
    var savedEmotes: seq<int>

    /** The list holds each weapon class once, every one of them has a
        priority, and there is a top row; the user settings keep three emotes. */
    ghost predicate Valid()
      reads this
    {
      && |weaponList| > 0
      && Distinct(weaponList)
      && Covers(autoSwitchPriority, weaponList)
      && |savedEmotes| == 3
    }

    function Snapshot(): DialogState
      reads this
    {
      DialogState(playerName, weaponList, selected, emote1Index, emote2Index, emote3Index,
                  autoSwitchPriority, profilePriorities, savedEmotes)
    }

    /** Opening the dialog: the weapons come sorted by descending priority and
        the top one is selected (the list is indexed at 0 unchecked, so the
        dialog needs at least one weapon; the asset registry yields each weapon
        class once); the emote choices come from the user settings. */
    constructor (invalidNameChars: string, hasProfile: bool, nickname: string, weapons: seq<WeaponId>,
                 priorities: Priorities, profile: Priorities, emotes: seq<int>)
      requires |weapons| > 0 && Distinct(weapons) && Covers(priorities, weapons) && |emotes| == 3
      ensures Valid()
      ensures this.invalidNameChars == invalidNameChars && this.hasProfile == hasProfile
      ensures weaponList == SortDesc(weapons, priorities)
      ensures multiset(weaponList) == multiset(weapons) && SortedDesc(weaponList, priorities)
      ensures Snapshot()
           == DialogState(nickname, weaponList, Some(weaponList[0]), emotes[0], emotes[1], emotes[2],
                          priorities, profile, emotes)
    {
      this.invalidNameChars := invalidNameChars;
      this.hasProfile := hasProfile;
      playerName := nickname;
      var sorted := SortDesc(weapons, priorities);
      assert |sorted| == |multiset(sorted)| == |weapons|;
      PermutationDistinct(weapons, sorted);
      SortDescSorted(weapons, priorities);
      weaponList := sorted;
      selected := Some(sorted[0]);
      emote1Index := emotes[0];
      emote2Index := emotes[1];
      emote3Index := emotes[2];
      autoSwitchPriority := priorities;
      profilePriorities := profile;
      savedEmotes := emotes;
    }

    /** The name box reports that its text is now `newText`: invalid
        characters are removed, and the box is written back (`rewritten`)
        only when that changed something. Nothing else changes. */
    method OnNameTextChanged(newText: string) returns (rewritten: bool)
      requires Valid()
      modifies this
      ensures Valid()
      ensures Snapshot() == old(Snapshot()).(playerName := Strip(newText, InvalidSet(invalidNameChars)))
      ensures rewritten <==> exists k :: 0 <= k < |newText| && newText[k] in InvalidSet(invalidNameChars)
    {
      var adjusted := StripInvalid(newText, invalidNameChars);
      StripChanges(newText, InvalidSet(invalidNameChars));
      rewritten := adjusted != newText;
      playerName := adjusted;
    }

    /** The player selects a row of the weapon list (or clears the selection).
        This stands for the list view's own selection, which the Up and Down
        handlers read; the dialog has no such function. */
    method Select(w: Option<WeaponId>)
      requires Valid()
      modifies this
      ensures Valid()
      ensures Snapshot() == old(Snapshot()).(selected := w)
    {
      selected := w;
    }

    /** "Up": only the list changes, to a rearrangement of itself. */
    method WeaponPriorityUp()
      requires Valid()
      modifies this
      ensures Valid()
      ensures Snapshot() == old(Snapshot()).(weaponList := PriorityUp(old(weaponList), selected))
      ensures multiset(weaponList) == multiset(old(weaponList))
    {
      if selected.Some? {
        PriorityUpOutcome(weaponList, selected.value);
        var index := Find(weaponList, selected.value);
        if index > 0 {
          SwapOutcome(weaponList, index, index - 1);
          weaponList := weaponList[index := weaponList[index - 1]][index - 1 := weaponList[index]];
        }
      }
    }

    /** "Down": only the list changes, to a rearrangement of itself. */
    method WeaponPriorityDown()
      requires Valid()
      modifies this
      ensures Valid()
      ensures Snapshot() == old(Snapshot()).(weaponList := PriorityDown(old(weaponList), selected))
      ensures multiset(weaponList) == multiset(old(weaponList))
    {
      if selected.Some? {
        PriorityDownOutcome(weaponList, selected.value);
        var index := Find(weaponList, selected.value);
        if index != -1 && index < |weaponList| - 1 {
          SwapOutcome(weaponList, index, index + 1);
          weaponList := weaponList[index := weaponList[index + 1]][index + 1 := weaponList[index]];
        }
      }
    }

    method OnEmote1Committed(newValue: int)
      requires Valid()
      modifies this
      ensures Valid()
      ensures Snapshot() == old(Snapshot()).(emote1Index := newValue)
    {
      emote1Index := newValue;
    }

    method OnEmote2Committed(newValue: int)
      requires Valid()
      modifies this
      ensures Valid()
      ensures Snapshot() == old(Snapshot()).(emote2Index := newValue)
    {
      emote2Index := newValue;
    }

    method OnEmote3Committed(newValue: int)
      requires Valid()
      modifies this
      ensures Valid()
      ensures Snapshot() == old(Snapshot()).(emote3Index := newValue)
    {
      emote3Index := newValue;
    }

    /** OK: the list as shown becomes the weapons' priorities, row i of N
        getting N - i, saved to the profile as well when there is one; the
        emote choices are saved to the user settings. The list, the name, the
        selection and the emote choices stay as they were. */
    method OKClick()
      requires Valid()
      modifies this
      ensures Valid()
      ensures Snapshot()
           == old(Snapshot()).(
                autoSwitchPriority := Ranked(old(autoSwitchPriority), weaponList, |weaponList|),
                profilePriorities :=
                  if hasProfile then Ranked(old(profilePriorities), weaponList, |weaponList|)
                  else old(profilePriorities),
                savedEmotes := [old(emote1Index), old(emote2Index), old(emote3Index)])
      ensures forall i :: 0 <= i < |weaponList| ==> 1.0 <= autoSwitchPriority[weaponList[i]] <= |weaponList| as real
      ensures forall i, j :: 0 <= i < j < |weaponList| ==> autoSwitchPriority[weaponList[i]] > autoSwitchPriority[weaponList[j]]
    {
      var n := |weaponList|;
      for i := 0 to n
        invariant weaponList == old(weaponList)
        invariant playerName == old(playerName) && selected == old(selected) && savedEmotes == old(savedEmotes)
        invariant emote1Index == old(emote1Index) && emote2Index == old(emote2Index) && emote3Index == old(emote3Index)
        invariant autoSwitchPriority == Ranked(old(autoSwitchPriority), weaponList, i)
        invariant profilePriorities
               == if hasProfile then Ranked(old(profilePriorities), weaponList, i) else old(profilePriorities)
      {
        var w := weaponList[i];
        autoSwitchPriority := autoSwitchPriority[w := (n - i) as real];
        if hasProfile {
          profilePriorities := profilePriorities[w := autoSwitchPriority[w]];
        }
      }
      savedEmotes := [emote1Index, emote2Index, emote3Index];
      RanksDescend(old(autoSwitchPriority), weaponList);
    }
  }
}
