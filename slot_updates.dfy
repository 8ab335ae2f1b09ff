/**
 * The three write intents of the slot bookkeeping: allocate a spell to a slot, clear a slot, and
 * toggle a slot's expended flag. Each builds one partial update addressed to the entry's `_id`
 * under the key `data.slots.slot{L}.prepared.{S}`; `Apply` is how the host merges such an update
 * into the entry's slots, field by field.
 */
module SlotUpdates {
  import opened Wrappers
  import opened SpellcastingEntry
  import opened SlotPaths
  import opened Spellbook

  /** The value written at the slot's key. */
  datatype SlotValue =
    | AssignSpell(id: string)        // { id: spell._id }
    | EmptyPlaceholder               // { name: 'Empty Slot (drag spell here)', id: null, prepared: false }
    | SetExpended(expended: bool)    // { expended: state }

  /** One `updateEmbeddedEntity('OwnedItem', { _id, [key]: value })` payload. */
  datatype SlotUpdate = SlotUpdate(entryId: string, key: string, value: SlotValue)

  /** Allocates `spell` to slot `spellSlot` of level `spellLevel`; the slot index is not checked against the level's max. */
  function AllocatePreparedSpellSlot(spellLevel: nat, spellSlot: nat, spell: Spell, entryId: string): (u: SlotUpdate)
    ensures u.entryId == entryId && u.value == AssignSpell(spell.id)
    ensures ParseSlotKey(u.key) == Some(SlotAddress(spellLevel, spellSlot))
  {
    SlotKeyRoundTrip(spellLevel, spellSlot);
    SlotUpdate(entryId, SlotKey(spellLevel, spellSlot), AssignSpell(spell.id))
  }

  /** Clears slot `spellSlot` of level `spellLevel` back to the empty placeholder. */
  function RemovePreparedSpellSlot(spellLevel: nat, spellSlot: nat, entryId: string): (u: SlotUpdate)
    ensures u.entryId == entryId && u.value == EmptyPlaceholder
    ensures ParseSlotKey(u.key) == Some(SlotAddress(spellLevel, spellSlot))
  {
    SlotKeyRoundTrip(spellLevel, spellSlot);
    SlotUpdate(entryId, SlotKey(spellLevel, spellSlot), EmptyPlaceholder)
  }

  /**
   * Toggles the expended flag. The current state arrives as the text of an HTML attribute: only
   * `"true"` counts as expended, so the slot is marked not expended exactly for that input.
   */
  function SetExpendedPreparedSpellSlot(spellLevel: nat, spellSlot: nat, entryId: string,
                                        expendedState: Option<string>): (u: SlotUpdate)
    ensures u.entryId == entryId && u.value.SetExpended?
    ensures !u.value.expended <==> expendedState == Some("true")
    ensures ParseSlotKey(u.key) == Some(SlotAddress(spellLevel, spellSlot))
  {
    SlotKeyRoundTrip(spellLevel, spellSlot);
    var state := if expendedState == Some("true") then false else true;
    SlotUpdate(entryId, SlotKey(spellLevel, spellSlot), SetExpended(state))
  }

  /* ---------------------------------------------------------------------- */
  /*  The host's merge of a partial update                                   */
  /* ---------------------------------------------------------------------- */

  /** Merges the written fields into a slot record; fields not written keep their value. */
  function Merge(rec: SlotRecord, v: SlotValue): (r: SlotRecord)
    ensures v.AssignSpell? ==>
      r.id == Some(v.id) && r.name == rec.name && r.prepared == rec.prepared && r.expended == rec.expended
    ensures v.EmptyPlaceholder? ==>
      r.id == None && r.name == Some(EmptySlotName) && r.prepared == Some(false) && r.expended == rec.expended
    ensures v.SetExpended? ==>
      r.expended == Some(v.expended) && r.id == rec.id && r.name == rec.name && r.prepared == rec.prepared
  {
    match v
    case AssignSpell(id) => rec.(id := Some(id))
    case EmptyPlaceholder => rec.(id := None, name := Some(EmptySlotName), prepared := Some(false))
    case SetExpended(b) => rec.(expended := Some(b))
  }

  /** Writes `v` at `addr`, creating the slot group and the record when they do not exist yet. */
  function WriteSlot(slots: map<nat, SlotGroup>, addr: SlotAddress, v: SlotValue): (r: map<nat, SlotGroup>)
    ensures r.Keys == slots.Keys + {addr.level}
    ensures PersistedSlot(r, addr.level, addr.slot)
            == Some(Merge(PersistedSlot(slots, addr.level, addr.slot).GetOr(UnwrittenSlot), v))
    ensures forall l :: l in slots && l != addr.level ==> r[l] == slots[l]
    ensures addr.level in slots ==> r[addr.level].value == slots[addr.level].value && r[addr.level].max == slots[addr.level].max
  {
    var group := if addr.level in slots then slots[addr.level] else SlotGroup(None, None, map[]);
    var rec := if addr.slot in group.prepared then group.prepared[addr.slot] else UnwrittenSlot;
    slots[addr.level := group.(prepared := group.prepared[addr.slot := Merge(rec, v)])]
  }

  /** Applies an update to the actor's spellcasting entries (by id); other paths are not modelled. */
  function Apply(entries: map<string, EntryData>, u: SlotUpdate): (r: map<string, EntryData>)
    ensures r.Keys == entries.Keys
    ensures ParseSlotKey(u.key).None? || u.entryId !in entries ==> r == entries
    ensures forall id :: id in entries && id != u.entryId ==> r[id] == entries[id]
    ensures ParseSlotKey(u.key).Some? && u.entryId in entries ==>
      r[u.entryId] == entries[u.entryId].(slots := WriteSlot(entries[u.entryId].slots, ParseSlotKey(u.key).value, u.value))
  {
    match ParseSlotKey(u.key)
    case Some(addr) =>
      if u.entryId in entries
      then entries[u.entryId := entries[u.entryId].(slots := WriteSlot(entries[u.entryId].slots, addr, u.value))]
      else entries
    case None => entries
  }

  /** What clearing an unwritten slot leaves behind. */
  const PlaceholderRecord := SlotRecord(None, Some(EmptySlotName), Some(false), None)

  /* ---------------------------------------------------------------------- */
  /*  Properties                                                             */
  /* ---------------------------------------------------------------------- */

  /** Allocate, clear and toggle address the same key of the same entry. */
  lemma SameSlotKey(spellLevel: nat, spellSlot: nat, spell: Spell, entryId: string, state: Option<string>)
    ensures var a := AllocatePreparedSpellSlot(spellLevel, spellSlot, spell, entryId);
      var c := RemovePreparedSpellSlot(spellLevel, spellSlot, entryId);
      var t := SetExpendedPreparedSpellSlot(spellLevel, spellSlot, entryId, state);
      a.key == c.key == t.key && a.entryId == c.entryId == t.entryId
  {
  }

  /** An update touches only its own slot of its own entry: every other slot record, every slot
      group's counts and every other field of every entry stay as they were. */
  lemma {:induction false} NothingElseChanges(entries: map<string, EntryData>, u: SlotUpdate, addr: SlotAddress)
    requires ParseSlotKey(u.key) == Some(addr)
    ensures var after := Apply(entries, u);
      && after.Keys == entries.Keys
      && forall id :: id in entries ==>
        && after[id] == entries[id].(slots := after[id].slots)
        && (forall l :: l in entries[id].slots ==>
              && l in after[id].slots
              && after[id].slots[l].value == entries[id].slots[l].value
              && after[id].slots[l].max == entries[id].slots[l].max)
        && (forall l: nat, s: nat :: (id, l, s) != (u.entryId, addr.level, addr.slot) ==>
              PersistedSlot(after[id].slots, l, s) == PersistedSlot(entries[id].slots, l, s))
  {
    var after := Apply(entries, u);
    forall id | id in entries
      ensures forall l: nat, s: nat :: (id, l, s) != (u.entryId, addr.level, addr.slot) ==>
        PersistedSlot(after[id].slots, l, s) == PersistedSlot(entries[id].slots, l, s)
    {
      if id == u.entryId {
        forall l: nat, s: nat | (l, s) != (addr.level, addr.slot)
          ensures PersistedSlot(after[id].slots, l, s) == PersistedSlot(entries[id].slots, l, s)
        {
          var slots := entries[id].slots;
          if l == addr.level && l !in slots {
            assert s != addr.slot;
          }
        }
      }
    }
  }

  /** A clear written over an allocation of the same slot gives what the clear alone gives. */
  lemma ClearAbsorbsAllocate(slots: map<nat, SlotGroup>, addr: SlotAddress, id: string)
    ensures WriteSlot(WriteSlot(slots, addr, AssignSpell(id)), addr, EmptyPlaceholder)
         == WriteSlot(slots, addr, EmptyPlaceholder)
  {
    var group := if addr.level in slots then slots[addr.level] else SlotGroup(None, None, map[]);
    var rec := if addr.slot in group.prepared then group.prepared[addr.slot] else UnwrittenSlot;
    var a := WriteSlot(slots, addr, AssignSpell(id));
    assert a[addr.level] == group.(prepared := group.prepared[addr.slot := Merge(rec, AssignSpell(id))]);
    assert Merge(Merge(rec, AssignSpell(id)), EmptyPlaceholder) == Merge(rec, EmptyPlaceholder);
    assert group.prepared[addr.slot := Merge(rec, AssignSpell(id))][addr.slot := Merge(rec, EmptyPlaceholder)]
        == group.prepared[addr.slot := Merge(rec, EmptyPlaceholder)];
  }

  /** Clearing after allocating leaves what clearing alone leaves: the allocation is forgotten. */
  lemma ClearAfterAllocate(entries: map<string, EntryData>, spellLevel: nat, spellSlot: nat, spell: Spell, entryId: string)
    ensures Apply(Apply(entries, AllocatePreparedSpellSlot(spellLevel, spellSlot, spell, entryId)),
                  RemovePreparedSpellSlot(spellLevel, spellSlot, entryId))
         == Apply(entries, RemovePreparedSpellSlot(spellLevel, spellSlot, entryId))
  {
    var addr := SlotAddress(spellLevel, spellSlot);
    if entryId in entries {
      ClearAbsorbsAllocate(entries[entryId].slots, addr, spell.id);
    }
  }

  /** On a slot that held the placeholder (or nothing), allocating then clearing restores it exactly. */
  lemma AllocateClearRoundTrip(entries: map<string, EntryData>, spellLevel: nat, spellSlot: nat, spell: Spell, entryId: string)
    requires entryId in entries
    requires PersistedSlot(entries[entryId].slots, spellLevel, spellSlot) == Some(PlaceholderRecord)
    ensures Apply(Apply(entries, AllocatePreparedSpellSlot(spellLevel, spellSlot, spell, entryId)),
                  RemovePreparedSpellSlot(spellLevel, spellSlot, entryId)) == entries
  {
    ClearAfterAllocate(entries, spellLevel, spellSlot, spell, entryId);
    var slots := entries[entryId].slots;
    var addr := SlotAddress(spellLevel, spellSlot);
    var group := slots[spellLevel];
    assert Merge(PlaceholderRecord, EmptyPlaceholder) == PlaceholderRecord;
    assert group.prepared[spellSlot := PlaceholderRecord] == group.prepared;
    assert group.(prepared := group.prepared) == group;
    assert slots[spellLevel := group] == slots;
    assert WriteSlot(slots, addr, EmptyPlaceholder) == slots;
    assert entries[entryId := entries[entryId].(slots := slots)] == entries;
  }

  /** After a clear the slot shows the empty placeholder, whatever it held before. */
  lemma ClearShowsPlaceholder(entries: map<string, EntryData>, spellLevel: nat, spellSlot: nat, entryId: string,
                              items: map<string, Spell>)
    requires entryId in entries
    ensures var after := Apply(entries, RemovePreparedSpellSlot(spellLevel, spellSlot, entryId));
      ResolveSlot(after[entryId], spellLevel, spellSlot, items) == EmptySlot
  {
  }

  /**
   * After an allocation the slot shows the allocated spell when the actor owns it; the expended flag
   * of the slot is kept from before (the allocation does not reset it).
   */
  lemma AllocateShowsSpell(entries: map<string, EntryData>, spellLevel: nat, spellSlot: nat, spell: Spell,
                           entryId: string, items: map<string, Spell>)
    requires entryId in entries && spell.id != "" && spell.id in items
    ensures var before := PersistedSlot(entries[entryId].slots, spellLevel, spellSlot);
      var after := Apply(entries, AllocatePreparedSpellSlot(spellLevel, spellSlot, spell, entryId));
      ResolveSlot(after[entryId], spellLevel, spellSlot, items)
        == PreparedSpell(items[spell.id], before.Some? && before.value.expended == Some(true))
  {
  }

  /**
   * After a toggle the slot shows the same thing as before except that a prepared spell's expended
   * flag is now false for input "true" and true for anything else.
   */
  lemma ToggleShowsState(entries: map<string, EntryData>, spellLevel: nat, spellSlot: nat, entryId: string,
                         state: Option<string>, items: map<string, Spell>)
    requires entryId in entries
    ensures var before := ResolveSlot(entries[entryId], spellLevel, spellSlot, items);
      var after := Apply(entries, SetExpendedPreparedSpellSlot(spellLevel, spellSlot, entryId, state));
      var now := ResolveSlot(after[entryId], spellLevel, spellSlot, items);
      && (before == EmptySlot ==> now == EmptySlot)
      && (before != EmptySlot ==> now == PreparedSpell(before.spell, state != Some("true")))
  {
  }

  /**
   * No write is checked against the level's slot count: a write at a slot index at or beyond the
   * `n` slots a bucket shows leaves the first `n` resolved slots as they were.
   */
  lemma OutOfRangeWriteNotShown(entries: map<string, EntryData>, u: SlotUpdate, addr: SlotAddress,
                                n: nat, items: map<string, Spell>)
    requires ParseSlotKey(u.key) == Some(addr) && u.entryId in entries && n <= addr.slot
    ensures var after := Apply(entries, u);
      ResolvedRow(after[u.entryId], addr.level, n, items) == ResolvedRow(entries[u.entryId], addr.level, n, items)
  {
    NothingElseChanges(entries, u, addr);
    var after := Apply(entries, u);
    forall i | 0 <= i < n
      ensures ResolveSlot(after[u.entryId], addr.level, i, items) == ResolveSlot(entries[u.entryId], addr.level, i, items)
    {
      assert PersistedSlot(after[u.entryId].slots, addr.level, i) == PersistedSlot(entries[u.entryId].slots, addr.level, i);
    }
  }
}
