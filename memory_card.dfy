/**
 * The card that shows one memory in a vault: the time lock, the type icon,
 * what the body and the button show, and the tag strip.
 */
module MemoryCard {
  import opened Wrappers
  import Rows
  import MemoryForm

  datatype Icon = AudioIcon | ImageIcon | TextIcon

  /** The icon `switch` on the type: 'audio', 'photo', and everything else (including 'text'). */
  function TypeIcon(memoryType: string): (i: Icon)
    ensures i == AudioIcon <==> memoryType == "audio"
    ensures i == ImageIcon <==> memoryType == "photo"
    ensures i == TextIcon <==> memoryType != "audio" && memoryType != "photo"
  {
    if memoryType == "audio" then AudioIcon
    else if memoryType == "photo" then ImageIcon
    else TextIcon
  }

  /** Locked while an unlock date is set and still in the future. */
  predicate IsLocked(m: Rows.Memory, now: int) {
    m.unlockDate.Some? && m.unlockDate.value > now
  }

  datatype Body = LockNotice(unlockDate: int) | StoryText(story: string)

  /** The tag strip: the first tags as chips and, when some are hidden, a "+n" badge. */
  datatype TagStrip = TagStrip(chips: seq<string>, more: Option<nat>)

  datatype Card = Card(
    title: string, icon: Icon, body: Body, buttonLabel: string, buttonDisabled: bool, tags: Option<TagStrip>)

  /** `tags.slice(0, 2)` and `+{tags.length - 2}` when there are more than two; nothing without tags. */
  function TagStripOf(tags: seq<string>): (r: Option<TagStrip>)
    ensures r.None? <==> tags == []
    ensures r.Some? ==> r.value.chips == tags[..if |tags| < 2 then |tags| else 2]
    ensures r.Some? ==> (r.value.more.Some? <==> |tags| > 2)
    ensures r.Some? ==> |r.value.chips| + r.value.more.GetOr(0) == |tags|
  {
    if tags == [] then None
    else if |tags| <= 2 then Some(TagStrip(tags, None))
    else Some(TagStrip(tags[..2], Some(|tags| - 2)))
  }

  function CardOf(m: Rows.Memory, now: int): Card {
    var locked := IsLocked(m, now);
    Card(m.title, TypeIcon(m.memoryType),
         if locked then LockNotice(m.unlockDate.value) else StoryText(m.story),
         if locked then "Locked" else "View Memory",
         locked,
         TagStripOf(m.tags))
  }

  /** What a click on the button hands to `onClick`: the memory's id, unless the button is disabled. */
  function Click(m: Rows.Memory, now: int): Option<string> {
    if CardOf(m, now).buttonDisabled then None else Some(m.id)
  }

  /** A locked card hides the story behind the lock notice, and its button reads 'Locked' and is disabled;
      an unlocked card shows the story and an enabled 'View Memory' button. */
  lemma LockedCardHidesStory(m: Rows.Memory, now: int)
    ensures var c := CardOf(m, now);
            (c.buttonDisabled <==> IsLocked(m, now))
            && (c.buttonLabel == "Locked" <==> IsLocked(m, now))
            && (c.body.StoryText? <==> !IsLocked(m, now))
            && (c.body.StoryText? ==> c.body.story == m.story)
            && (c.body.LockNotice? ==> m.unlockDate == Some(c.body.unlockDate))
  {
  }

  /** A click reports exactly the memory's own id, and only on an unlocked card. */
  lemma ClickPassesId(m: Rows.Memory, now: int)
    ensures Click(m, now).Some? <==> !IsLocked(m, now)
    ensures Click(m, now).Some? ==> Click(m, now).value == m.id
  {
  }

  /** An unlocked memory stays unlocked as time passes. */
  lemma UnlockIsPermanent(m: Rows.Memory, now: int, later: int)
    requires !IsLocked(m, now) && now <= later
    ensures !IsLocked(m, later)
  {
  }

  /** A memory saved with a date its form's calendar let one pick is locked when it is saved. */
  lemma PickedDateLocks(m: Rows.Memory, date: int, now: int)
    requires MemoryForm.CanPickUnlockDate(date, now)
    requires m.unlockDate == Some(date)
    ensures IsLocked(m, now)
  {
  }

  /** The chips and the badge together account for every tag, and the chips come first in the list. */
  lemma TagStripCountsAll(tags: seq<string>)
    requires tags != []
    ensures var s := TagStripOf(tags).value;
            s.chips + tags[|s.chips|..] == tags && |tags[|s.chips|..]| == s.more.GetOr(0)
  {
    var s := TagStripOf(tags).value;
    assert s.chips + tags[|s.chips|..] == tags;
  }
}
