/**
 * The spellbook view of one spellcasting entry, as the actor sheet builds it on every render:
 * `PrepareSpell` files one spell into its level bucket and makes sure every level the caster
 * must see has a bucket; `PrepareSlots` fills each bucket's positional `prepared` list from the
 * entry's persisted slot assignments.
 */
module Spellbook {
  import opened Wrappers
  import opened SpellcastingEntry

  /** A spell item's data, as far as the spellbook reads it. */
  datatype Spell = Spell(
    id: string,                 // _id
    name: string,
    level: nat,                 // Number(data.level.value)
    location: Option<string>)   // data.location.value: the id of the owning entry

  /** The text of the placeholder shown for a slot that holds no spell. */
  const EmptySlotName := "Empty Slot (drag spell here)"

  /** One resolved slot: the canonical empty placeholder, or a copy of the prepared spell. */
  datatype SlotView = EmptySlot | PreparedSpell(spell: Spell, expended: bool) {
    /** `name` of the placeholder / of the spell copy. */
    function Name(): string {
      if EmptySlot? then EmptySlotName else spell.name
    }
    /** `id`: `null` for the placeholder. */
    function Id(): Option<string> {
      if EmptySlot? then None else Some(spell.id)
    }
    /** `prepared`: false for the placeholder, true for a spell copy. */
    function IsPrepared(): bool {
      PreparedSpell?
    }
  }

  /** One level bucket of the spellbook view. */
  datatype Bucket = Bucket(
    isCantrip: bool,
    isFocus: bool,
    levelLabel: Option<string>,         // the source's `label`, a reserved word in Dafny
    spells: seq<Spell>,
    prepared: seq<SlotView>,
    uses: int,
    slots: int,
    displayPrepared: bool,
    unpreparedSpellsLabel: string)    // the i18n key; its translation is the host's

  const UnpreparedLabelArcanePrepared := "PF2E.UnpreparedSpellsLabelArcanePrepared"
  const UnpreparedLabel := "PF2E.UnpreparedSpellsLabel"

  /** The highest spell level the view has a bucket for. */
  const TopLevel := 10

  /* ---------------------------------------------------------------------- */
  /*  Level range                                                            */
  /* ---------------------------------------------------------------------- */

  /** The bucket a spell is filed under: its level, capped at 10. */
  function BucketIndex(level: nat): (i: nat)
    ensures i <= TopLevel
    ensures i == level || (level > TopLevel && i == TopLevel)
  {
    if level < 11 then level else 10
  }

  /** `Math.ceil(n / 2)` for an integer `n`. */
  function CeilHalf(n: int): (c: int)
    ensures n <= 2 * c < n + 2
  {
    (n + 1) / 2
  }

  /** Wands, scrolls, rituals and focus spells are not cast from level-based slots. */
  predicate IsNotLevelBased(tradition: string): (b: bool)
    ensures b <==> tradition in {"wand", "scroll", "ritual", "focus"}
  {
    tradition == "wand" || tradition == "scroll" || tradition == "ritual" || tradition == "focus"
  }

  /** Does some slot of this group hold the spell with id `id`? */
  predicate GroupHolds(group: SlotGroup, id: string) {
    exists s :: s in group.prepared && group.prepared[s].id == Some(id)
  }

  /** The levels of the entry whose slots hold the spell with id `id`. */
  ghost function HoldingLevels(slots: map<nat, SlotGroup>, id: string): set<nat> {
    set l | l in slots && GroupHolds(slots[l], id)
  }

  /** The greatest element of `s`, or 0 for the empty set. */
  ghost function MaxOr0(s: set<nat>): (m: nat)
    ensures forall x :: x in s ==> x <= m
    ensures s == {} ==> m == 0
    ensures s != {} ==> m in s
  {
    if s == {} then 0
    else
      var x :| x in s;
      var r := MaxOr0(s - {x});
      assert forall y :: y in s ==> y == x || y in s - {x};
      if x > r then x else r
  }

  /** The highest level whose slots hold the spell; 0 when none does. */
  method HighestSlotPrepared(slots: map<nat, SlotGroup>, id: string) returns (h: nat)
    ensures h == MaxOr0(HoldingLevels(slots, id))
  {
    h := 0;
    var todo := slots.Keys;
    while todo != {}
      invariant todo <= slots.Keys
      invariant h == 0 || h in HoldingLevels(slots, id)
      invariant forall l :: l in HoldingLevels(slots, id) && l !in todo ==> l <= h
      decreases todo
    {
      var l :| l in todo;
      if GroupHolds(slots[l], id) && l > h {
        h := l;
      }
      todo := todo - {l};
    }
  }

  /** The highest level that must be shown: at most 10, otherwise the largest of the three. */
  function MaxShownLevel(spellLevel: nat, highestSlot: nat, actorLevel: int): (top: nat)
    requires spellLevel <= TopLevel
    ensures spellLevel <= top <= TopLevel
    ensures highestSlot <= TopLevel ==> highestSlot <= top
    ensures CeilHalf(actorLevel) <= TopLevel ==> CeilHalf(actorLevel) <= top
    ensures top == spellLevel || top == TopLevel || top == highestSlot || top == CeilHalf(actorLevel)
    ensures top < TopLevel ==> highestSlot <= top && CeilHalf(actorLevel) <= top
    ensures top == TopLevel ==> spellLevel == TopLevel || highestSlot >= TopLevel || CeilHalf(actorLevel) >= TopLevel
  {
    var m := if spellLevel >= highestSlot then spellLevel else highestSlot;
    var m' := if m >= CeilHalf(actorLevel) then m else CeilHalf(actorLevel);
    if m' < TopLevel then m' else TopLevel
  }

  /** The levels 0..n. */
  function UpTo(n: nat): (r: set<nat>)
    ensures forall i: nat :: i in r <==> i <= n
  {
    if n == 0 then {0} else UpTo(n - 1) + {n}
  }

  /** The levels that get a bucket: 0..top, or only the spell's own level for a non-level tradition. */
  function ShownLevels(notLevelBased: bool, spellLevel: nat, top: nat): set<nat>
    requires spellLevel <= top
  {
    if notLevelBased then {spellLevel} else UpTo(top)
  }

  /** The spell's owning entry exists among the actor's entries. */
  predicate ResolvesEntry(spell: Spell, entries: map<string, EntryData>) {
    spell.location.Some? && spell.location.value != "" && spell.location.value in entries
  }

  /** The bucket created on first touch of level `i`. */
  function NewBucket(entry: EntryData, i: nat, labels: map<nat, string>): (b: Bucket)
    requires i in entry.slots
    ensures b.isCantrip <==> i == 0
    ensures b.isFocus <==> i == 11
    ensures b.spells == [] && b.prepared == []
    ensures i in labels ==> b.levelLabel == Some(labels[i])
    ensures i !in labels ==> b.levelLabel.None?
    ensures entry.slots[i].value.None? ==> b.uses == 0
    ensures entry.slots[i].value.Some? ==> b.uses == entry.slots[i].value.value
    ensures entry.slots[i].max.None? ==> b.slots == 0
    ensures entry.slots[i].max.Some? ==> b.slots == entry.slots[i].max.value
    ensures i !in entry.displayLevels ==> b.displayPrepared
    ensures i in entry.displayLevels ==> b.displayPrepared == entry.displayLevels[i]
    ensures b.unpreparedSpellsLabel == UnpreparedLabelArcanePrepared <==>
              entry.tradition == "arcane" && entry.preparation == "prepared"
    ensures b.unpreparedSpellsLabel in {UnpreparedLabelArcanePrepared, UnpreparedLabel}
  {
    Bucket(
      isCantrip := i == 0,
      isFocus := i == 11,
      levelLabel := if i in labels then Some(labels[i]) else None,
      spells := [],
      prepared := [],
      uses := entry.slots[i].value.GetOr(0),
      slots := entry.slots[i].max.GetOr(0),
      displayPrepared := if i in entry.displayLevels then entry.displayLevels[i] else true,
      unpreparedSpellsLabel :=
        if entry.tradition == "arcane" && entry.preparation == "prepared"
        then UnpreparedLabelArcanePrepared else UnpreparedLabel)
  }

  /** The slot groups needed to create the missing buckets are present (the source throws otherwise). */
  predicate CanExtend(book: map<nat, Bucket>, entry: EntryData, levels: set<nat>) {
    forall i :: i in levels && i !in book ==> i in entry.slots
  }

  /** `book` with a fresh bucket for every level of `levels` it lacks. */
  function Extend(book: map<nat, Bucket>, entry: EntryData, levels: set<nat>, labels: map<nat, string>): map<nat, Bucket>
    requires CanExtend(book, entry, levels)
  {
    map i | i in book.Keys + levels :: if i in book then book[i] else NewBucket(entry, i, labels)
  }

  /** Extending by one more level adds that level's bucket unless it is already there. */
  lemma ExtendOneMore(book: map<nat, Bucket>, entry: EntryData, done: set<nat>, i: nat, labels: map<nat, string>)
    requires CanExtend(book, entry, done) && (i in book || i in entry.slots)
    ensures CanExtend(book, entry, done + {i})
    ensures var e := Extend(book, entry, done, labels);
      Extend(book, entry, done + {i}, labels) == if i in e then e else e[i := NewBucket(entry, i, labels)]
  {
  }

  /** The levels `PrepareSpell` touches for this spell (empty when its entry is not found). */
  ghost function TouchedLevels(actorLevel: int, entries: map<string, EntryData>, spell: Spell): set<nat> {
    if !ResolvesEntry(spell, entries) then {}
    else
      var entry := entries[spell.location.value];
      var lvl := BucketIndex(spell.level);
      ShownLevels(IsNotLevelBased(entry.tradition), lvl,
        MaxShownLevel(lvl, MaxOr0(HoldingLevels(entry.slots, spell.id)), actorLevel))
  }

  /** The precondition of `PrepareSpell`: every bucket it creates has its slot group. */
  ghost predicate CanPrepare(book: map<nat, Bucket>, actorLevel: int, entries: map<string, EntryData>, spell: Spell) {
    ResolvesEntry(spell, entries) ==>
      CanExtend(book, entries[spell.location.value], TouchedLevels(actorLevel, entries, spell))
  }

  /** The spellbook after `PrepareSpell`: missing levels extended, the spell appended to its bucket. */
  ghost function BookWithSpell(book: map<nat, Bucket>, actorLevel: int, entries: map<string, EntryData>,
                               spell: Spell, labels: map<nat, string>): map<nat, Bucket>
    requires CanPrepare(book, actorLevel, entries, spell)
  {
    if !ResolvesEntry(spell, entries) then book
    else
      var entry := entries[spell.location.value];
      var lvl := BucketIndex(spell.level);
      var extended := Extend(book, entry, TouchedLevels(actorLevel, entries, spell), labels);
      assert lvl in extended;
      extended[lvl := extended[lvl].(spells := extended[lvl].spells + [spell])]
  }

  /* ---------------------------------------------------------------------- */
  /*  Slot resolution                                                        */
  /* ---------------------------------------------------------------------- */

  /** The persisted record of slot `i` at `level`, if any. */
  function PersistedSlot(slots: map<nat, SlotGroup>, level: nat, i: nat): Option<SlotRecord> {
    if level in slots && i in slots[level].prepared then Some(slots[level].prepared[i]) else None
  }

  /** A slot id counts only when it is a non-empty string. */
  predicate IdTruthy(id: Option<string>) {
    id.Some? && id.value != ""
  }

  /** What slot `i` at `level` shows, given the actor's spell items by id. */
  function ResolveSlot(entry: EntryData, level: nat, i: nat, items: map<string, Spell>): (v: SlotView)
    ensures var rec := PersistedSlot(entry.slots, level, i);
      && (v.EmptySlot? <==> rec.None? || !IdTruthy(rec.value.id) || rec.value.id.value !in items)
      && (v.PreparedSpell? ==> v.spell == items[rec.value.id.value] && v.expended == (rec.value.expended == Some(true)))
  {
    var rec := PersistedSlot(entry.slots, level, i);
    if rec.Some? && IdTruthy(rec.value.id) && rec.value.id.value in items
    then PreparedSpell(items[rec.value.id.value], rec.value.expended == Some(true))
    else EmptySlot
  }

  /** The first `n` resolved slots of `level`. */
  function ResolvedRow(entry: EntryData, level: nat, n: nat, items: map<string, Spell>): seq<SlotView> {
    seq(n, i requires 0 <= i => ResolveSlot(entry, level, i, items))
  }

  /** `row` written over the front of `p`: positions beyond the row keep what `p` had. */
  function Overlay(p: seq<SlotView>, row: seq<SlotView>): seq<SlotView> {
    seq(if |p| < |row| then |row| else |p|, j requires 0 <= j < (if |p| < |row| then |row| else |p|) =>
      if j < |row| then row[j] else p[j])
  }

  /** A bucket after slot resolution: only buckets with a positive slot count change. */
  function ResolveBucket(entry: EntryData, level: nat, b: Bucket, items: map<string, Spell>): Bucket {
    if b.slots > 0 then b.(prepared := Overlay(b.prepared, ResolvedRow(entry, level, b.slots, items)))
    else b
  }

  /** The spellbook after `PrepareSlots`. */
  function BookWithSlots(book: map<nat, Bucket>, entry: EntryData, items: map<string, Spell>): map<nat, Bucket> {
    map k | k in book :: ResolveBucket(entry, k, book[k], items)
  }

  /** Writing the next resolved slot at the end of the row extends the overlay by one position. */
  lemma OverlayStep(p: seq<SlotView>, row: seq<SlotView>, v: SlotView)
    requires |row| <= |p| || |row| == |Overlay(p, row)|
    ensures var o := Overlay(p, row);
      Overlay(p, row + [v]) == if |row| < |o| then o[|row| := v] else o + [v]
  {
  }

  /** Fills positions 0..slots-1 of bucket `spl`'s `prepared` list, one slot after the other. */
  method ResolveBucketSlots(entry: EntryData, key: nat, spl: Bucket, items: map<string, Spell>)
    returns (prepared: seq<SlotView>)
    ensures spl.slots > 0 ==> prepared == Overlay(spl.prepared, ResolvedRow(entry, key, spl.slots, items))
  {
    prepared := spl.prepared;
    var i: nat := 0;
    while i < spl.slots
      invariant i <= spl.slots || spl.slots <= 0
      invariant prepared == Overlay(spl.prepared, ResolvedRow(entry, key, i, items))
    {
      var view;
      var entrySlot := PersistedSlot(entry.slots, key, i);
      if entrySlot.Some? && entrySlot.value.id.Some? && entrySlot.value.id.value != "" {
        if entrySlot.value.id.value in items {
          var expended := entrySlot.value.expended == Some(true);
          view := PreparedSpell(items[entrySlot.value.id.value], expended);
        } else {
          // a dangling reference: shown as empty so that it can be overwritten
          view := EmptySlot;
        }
      } else {
        view := EmptySlot;
      }
      assert ResolvedRow(entry, key, i + 1, items) == ResolvedRow(entry, key, i, items) + [view];
      OverlayStep(spl.prepared, ResolvedRow(entry, key, i, items), view);
      if i < |prepared| {
        prepared := prepared[i := view];
      } else {
        prepared := prepared + [view];
      }
      i := i + 1;
    }
  }

  /* ---------------------------------------------------------------------- */
  /*  What PrepareSpell guarantees                                           */
  /* ---------------------------------------------------------------------- */

  /** The top level shown for a spell whose entry resolves. */
  ghost function ShownTop(actorLevel: int, entry: EntryData, spell: Spell): nat {
    MaxShownLevel(BucketIndex(spell.level), MaxOr0(HoldingLevels(entry.slots, spell.id)), actorLevel)
  }

  /** A spell without a location, or whose location is no entry of the actor, leaves the view as it was. */
  lemma PrepareUnresolvedUnchanged(book: map<nat, Bucket>, actorLevel: int, entries: map<string, EntryData>,
                                   spell: Spell, labels: map<nat, string>)
    requires !ResolvesEntry(spell, entries)
    ensures CanPrepare(book, actorLevel, entries, spell)
    ensures BookWithSpell(book, actorLevel, entries, spell, labels) == book
  {
  }

  /**
   * The shown range: at most level 10; at least the spell's level, ceil(characterLevel / 2) and the
   * highest level whose slots hold the spell (each capped at 10). A level-based entry gets a bucket for
   * every level 0..top, a wand, scroll, ritual or focus entry only for the spell's own level.
   */
  lemma PrepareShownLevels(book: map<nat, Bucket>, actorLevel: int, entries: map<string, EntryData>,
                           spell: Spell, labels: map<nat, string>)
    requires ResolvesEntry(spell, entries) && CanPrepare(book, actorLevel, entries, spell)
    ensures var entry := entries[spell.location.value];
      var top := ShownTop(actorLevel, entry, spell);
      var after := BookWithSpell(book, actorLevel, entries, spell, labels);
      && BucketIndex(spell.level) <= top <= TopLevel
      && (CeilHalf(actorLevel) <= TopLevel ==> CeilHalf(actorLevel) <= top)
      && (forall l :: l in HoldingLevels(entry.slots, spell.id) && l <= TopLevel ==> l <= top)
      && (!IsNotLevelBased(entry.tradition) ==>
            after.Keys == book.Keys + UpTo(top) && forall i: nat :: i <= top ==> i in after)
      && (IsNotLevelBased(entry.tradition) ==> after.Keys == book.Keys + {BucketIndex(spell.level)})
  {
  }

  /**
   * Buckets already in the view are never replaced: the spell's own bucket gets the spell appended
   * at the end of `spells`, every other bucket stays as it was.
   */
  lemma PrepareKeepsBuckets(book: map<nat, Bucket>, actorLevel: int, entries: map<string, EntryData>,
                            spell: Spell, labels: map<nat, string>)
    requires ResolvesEntry(spell, entries) && CanPrepare(book, actorLevel, entries, spell)
    ensures var after := BookWithSpell(book, actorLevel, entries, spell, labels);
      forall i :: i in book ==>
        && i in after
        && after[i] == if i == BucketIndex(spell.level) then book[i].(spells := book[i].spells + [spell]) else book[i]
  {
  }

  /**
   * A bucket created for level i is a cantrip bucket exactly when i is 0, never a focus bucket, takes
   * `uses`/`slots` from the slot group's parsed value/max (0 when missing), shows its prepared slots
   * unless `displayLevels` says otherwise, and holds the spell only when i is the spell's level.
   */
  lemma PrepareNewBuckets(book: map<nat, Bucket>, actorLevel: int, entries: map<string, EntryData>,
                          spell: Spell, labels: map<nat, string>)
    requires ResolvesEntry(spell, entries) && CanPrepare(book, actorLevel, entries, spell)
    ensures var entry := entries[spell.location.value];
      var after := BookWithSpell(book, actorLevel, entries, spell, labels);
      forall i :: i in after && i !in book ==>
        && i in entry.slots
        && after[i].isCantrip == (i == 0)
        && !after[i].isFocus
        && after[i].uses == entry.slots[i].value.GetOr(0)
        && after[i].slots == entry.slots[i].max.GetOr(0)
        && after[i].displayPrepared == (i !in entry.displayLevels || entry.displayLevels[i])
        && after[i].prepared == []
        && after[i].spells == if i == BucketIndex(spell.level) then [spell] else []
  {
    var entry := entries[spell.location.value];
    var top := ShownTop(actorLevel, entry, spell);
    assert top <= TopLevel;
  }

  /* ---------------------------------------------------------------------- */
  /*  What PrepareSlots guarantees                                           */
  /* ---------------------------------------------------------------------- */

  /**
   * A slot shows the empty placeholder exactly when its persisted record is missing, its id is
   * falsy, or the id names no item of the actor; otherwise a prepared copy of that item whose
   * `expended` is the truthiness of the persisted flag.
   */
  lemma ResolveSlotCases(entry: EntryData, level: nat, i: nat, items: map<string, Spell>)
    ensures var rec := PersistedSlot(entry.slots, level, i);
      var v := ResolveSlot(entry, level, i, items);
      && (v == EmptySlot <==> rec.None? || !IdTruthy(rec.value.id) || rec.value.id.value !in items)
      && (v != EmptySlot ==>
            && v.IsPrepared()
            && v.spell == items[rec.value.id.value]
            && v.expended == (rec.value.expended == Some(true)))
      && (v == EmptySlot ==> v.Name() == EmptySlotName && v.Id() == None && !v.IsPrepared())
  {
  }

  /**
   * Every bucket with a positive slot count gets positions 0..slots-1 of `prepared` resolved; the
   * positions beyond, buckets with no slots and every other field are untouched.
   */
  lemma SlotsResolvedPositions(book: map<nat, Bucket>, entry: EntryData, items: map<string, Spell>)
    ensures var after := BookWithSlots(book, entry, items);
      && after.Keys == book.Keys
      && forall k :: k in book ==>
        && after[k] == book[k].(prepared := after[k].prepared)
        && (book[k].slots <= 0 ==> after[k] == book[k])
        && (book[k].slots > 0 ==>
              && |after[k].prepared| == (if |book[k].prepared| < book[k].slots then book[k].slots else |book[k].prepared|)
              && (forall i :: 0 <= i < book[k].slots ==> after[k].prepared[i] == ResolveSlot(entry, k, i, items))
              && (forall i :: book[k].slots <= i < |book[k].prepared| ==> after[k].prepared[i] == book[k].prepared[i]))
  {
  }

  /**
   * Level 1 with two slots, slot 0 holding a known spell not yet cast and slot 1 empty, resolves to
   * the prepared spell followed by the placeholder.
   */
  lemma TwoSlotScenario(spell: Spell, entry: EntryData)
    requires entry.slots == map[1 := SlotGroup(Some(0), Some(2),
      map[0 := SlotRecord(Some(spell.id), None, None, Some(false)), 1 := SlotRecord(None, Some(EmptySlotName), Some(false), None)])]
    requires spell.id != ""
    ensures var book := map[1 := NewBucket(entry, 1, map[])];
      BookWithSlots(book, entry, map[spell.id := spell])[1].prepared == [PreparedSpell(spell, false), EmptySlot]
  {
    var items := map[spell.id := spell];
    assert ResolvedRow(entry, 1, 2, items) == [ResolveSlot(entry, 1, 0, items), ResolveSlot(entry, 1, 1, items)];
  }

  /* ---------------------------------------------------------------------- */
  /*  The view being built                                                   */
  /* ---------------------------------------------------------------------- */

  class SpellbookView {
    var levels: map<nat, Bucket>

    constructor ()
      ensures levels == map[]
    {
      levels := map[];
    }

    /**
     * Files `spell` into the view. The owning entry is looked up among `entries` (the actor's
     * spellcasting entries by id); `labels` are the level labels of the configuration.
     */
    method PrepareSpell(actorLevel: int, entries: map<string, EntryData>, spell: Spell, labels: map<nat, string>)
      requires CanPrepare(levels, actorLevel, entries, spell)
      modifies this
      ensures levels == BookWithSpell(old(levels), actorLevel, entries, spell, labels)
    {
      var spellLvl := BucketIndex(spell.level);
      if !(spell.location.Some? && spell.location.value != "" && spell.location.value in entries) {
        // the owning entry cannot be found: the spell is left out of the view
        return;
      }
      var entry := entries[spell.location.value];
      var notLevelBased := IsNotLevelBased(entry.tradition);
      var highest := HighestSlotPrepared(entry.slots, spell.id);
      var top := MaxShownLevel(spellLvl, highest, actorLevel);
      assert ShownLevels(notLevelBased, spellLvl, top) == TouchedLevels(actorLevel, entries, spell);
      ExtendLevels(entry, notLevelBased, spellLvl, top, labels);
      levels := levels[spellLvl := levels[spellLvl].(spells := levels[spellLvl].spells + [spell])];
    }

    /** Makes sure every level from `top` down to 0 that the tradition shows has a bucket. */
    method ExtendLevels(entry: EntryData, notLevelBased: bool, spellLvl: nat, top: nat, labels: map<nat, string>)
      requires spellLvl <= top
      requires CanExtend(levels, entry, ShownLevels(notLevelBased, spellLvl, top))
      modifies this
      ensures levels == Extend(old(levels), entry, ShownLevels(notLevelBased, spellLvl, top), labels)
      ensures spellLvl in levels
    {
      ghost var shown := ShownLevels(notLevelBased, spellLvl, top);
      ghost var book := levels;
      ghost var done: set<nat> := {};
      var i: int := top;
      while i >= 0
        invariant -1 <= i <= top
        invariant forall j: nat :: j in done <==> j in shown && i < j
        invariant CanExtend(book, entry, done)
        invariant levels == Extend(book, entry, done, labels)
        decreases i
      {
        if !notLevelBased || i == spellLvl {
          var lvl: nat := i;
          ExtendOneMore(book, entry, done, lvl, labels);
          if lvl !in levels {
            levels := levels[lvl := NewBucket(entry, lvl, labels)];
          }
          done := done + {lvl};
        }
        i := i - 1;
      }
      assert done == shown;
    }

    /** Resolves every bucket's slots against the entry's persisted assignments. */
    method PrepareSlots(entry: EntryData, items: map<string, Spell>)
      modifies this
      ensures levels == BookWithSlots(old(levels), entry, items)
    {
      ghost var book := levels;
      var todo := levels.Keys;
      while todo != {}
        invariant todo <= book.Keys && levels.Keys == book.Keys
        invariant forall k :: k in book ==>
          levels[k] == if k in todo then book[k] else ResolveBucket(entry, k, book[k], items)
        decreases todo
      {
        var key :| key in todo;
        var spl := levels[key];
        if spl.slots > 0 {
          var prepared := ResolveBucketSlots(entry, key, spl, items);
          levels := levels[key := spl.(prepared := prepared)];
        }
        todo := todo - {key};
      }
    }
  }
}
