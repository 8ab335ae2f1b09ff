/**
 * The persisted document of a spellcasting entry item, and the `SpellcastingEntry`
 * wrapper class whose `ability` getter defaults the casting ability.
 */
module SpellcastingEntry {
  import opened Wrappers

  /**
   * One persisted slot assignment (`data.slots.slot<L>.prepared[<S>]`). Every field may be
   * missing: the host merges partial writes into this record field by field.
   */
  datatype SlotRecord = SlotRecord(
    id: Option<string>,          // `null` and a missing id are both `None`
    name: Option<string>,
    prepared: Option<bool>,
    expended: Option<bool>)

  /** The record of a slot nobody has written yet. */
  const UnwrittenSlot := SlotRecord(None, None, None, None)

  /**
   * One level's slot group (`data.slots.slot<L>`). `value` and `max` are the already parsed
   * counts (`None` when missing or not a number); `prepared` is index addressed and may have holes.
   */
  datatype SlotGroup = SlotGroup(value: Option<int>, max: Option<int>, prepared: map<nat, SlotRecord>)

  /** The `data` of a spellcasting entry item, restricted to the fields the sheet reads. */
  datatype EntryData = EntryData(
    tradition: string,                 // data.tradition.value
    preparation: string,               // data.prepared.value
    ability: Option<string>,           // data.ability.value
    slots: map<nat, SlotGroup>,        // data.slots, keyed by the level N of key "slot<N>"
    displayLevels: map<nat, bool>,     // data.displayLevels (a missing object is the empty map)
    showUnpreparedSpells: bool)

  /** The casting ability used when an entry stores none. */
  const DefaultAbility := "int"

  /** The item's document: `data.data` is the entry data. */
  datatype EntryDocument = EntryDocument(data: EntryData)

  /** The wrapper class: it stores the document once and derives the casting ability from it. */
  class Entry {
    const data: EntryDocument

    constructor (data: EntryDocument)
      ensures this.data == data
    {
      this.data := data;
    }

    /**
     * The stored ability when it is a non-empty string, `"int"` otherwise; never empty.
     * A function, so reading it leaves the stored document as it was.
     */
    function Ability(): (a: string)
      ensures a != ""
      ensures data.data.ability.Some? && data.data.ability.value != "" ==> a == data.data.ability.value
      ensures data.data.ability.None? || data.data.ability.value == "" ==> a == DefaultAbility
    {
      if data.data.ability.Some? && data.data.ability.value != "" then data.data.ability.value
      else DefaultAbility
    }
  }
}
