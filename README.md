# Pathfinder 2e actor sheet: spellbook, slots, stat clicks and hazard sheet

This project models the data-side logic of the Pathfinder 2e actor sheets for the Foundry virtual
tabletop. It covers these parts:

- **Spellbook view.** `Spellbook.SpellbookView` is the spellbook dictionary the sheet builds on every
  render. `PrepareSpell` files a spell into its level bucket. On the way it creates every level bucket
  the caster must see, from the entry's tradition, the highest slot level already holding the spell and
  ceil(character level / 2). `PrepareSlots` fills each bucket's positional `prepared` list from the
  entry's persisted slot records. A missing or dangling slot becomes the canonical "Empty Slot"
  placeholder.
- **Slot write intents.** Allocate, clear and toggle-expended each build one update payload for the
  entry, keyed `data.slots.slot{L}.prepared.{S}` (`SlotUpdates`, `SlotPaths`). `SlotUpdates.Apply` is
  how the host merges such a payload into the entry: the written fields are merged into the existing
  slot record field by field. The lemmas about the payloads rely on this merge.
- **Stat level clicks.** `StatLevels` holds the step-and-clamp rules for stat levels, focus points,
  the focus-pool editor and the dying track.
- **Condition and action icons.** `SheetIcons` holds the dying and wounded grids, which are built
  glyph by glyph in nested loops, the fixed icon tables and the action image lookup.
- **Entry removal.** `EntryRemoval` is the cascade that collects the spells of a removed
  spellcasting entry.
- **Hazard sheet.** `HazardSheet` holds item decoration and grouping, the derived template data and
  the template choice.
- **Spellcasting entry item.** `SpellcastingEntry.Entry` is the item wrapper with its casting-ability
  default.

Host lookups are parameters:

- `getOwnedItem` becomes a map of entries or spell items by id.
- The configuration's level labels, trait labels and descriptions, and save labels become maps.
- The default token image is a string.
- Localised labels are kept as their i18n keys.

Numbers that the source parses from strings are already-parsed `Option<int>` values, with `None` for
missing or not-a-number (spell levels, clicked stat levels and the focus-pool input excepted, see
below). Spell levels are natural numbers. Slot groups are keyed by their level
number; the source keys them `slot<N>`.

Where the code and its description differ, the model follows the code:

- A slot allocation writes only `{id}`, so a slot's earlier `expended` flag survives a new allocation.
- The dying right click can produce a negative value. `StatLevels.OnClickDying` follows the code as
  written; `StatLevels.OnClickDyingCorrected` is the corrected entry point. See the findings below.
- `hasImmunities` is always true as written, and `HazardSheet.GetData` reports it so. The corrected
  flag is `HazardSheet.HasImmunities`. See the findings below.
- `getData` defaults the unscoped `flags.editHazard` object, while the template is chosen by the
  system-scoped `pf2e` flag that the edit checkbox writes. The model keeps the two apart.
- The `?? spellLvl` fallback of the highest-slot computation never fires, because the reduce starts
  at 0. The model has no such fallback.
- `isFocus` is never true for a created bucket: the loop never reaches level 11.
- The unreachable inner `else` of the slot resolver (base.ts:220-226) has no counterpart.

## Model

| member | source | states |
|---|---|---|
| SpellcastingEntry.Entry.constructor | src/module/item/spellcastingEntry.ts:4-6 | the wrapper stores the document it is given, unchanged |
| SpellcastingEntry.Entry.Ability | src/module/item/spellcastingEntry.ts:8-10 | the stored ability when it is a non-empty string, `"int"` when it is empty or missing; never the empty string; a function of the stored document, so reading it changes nothing |
| Spellbook.BucketIndex | src/module/actor/sheet/base.ts:117 | a spell is filed under its own level when that is at most 10, under 10 otherwise |
| Spellbook.CeilHalf | src/module/actor/sheet/base.ts:138 | `Math.ceil(n / 2)` on an integer: the least c with n <= 2c |
| Spellbook.HighestSlotPrepared | src/module/actor/sheet/base.ts:136-137 | the loop over the entry's slot groups returns the greatest level whose slots hold the spell's id, 0 when none does |
| Spellbook.IsNotLevelBased | src/module/actor/sheet/base.ts:131-134 | an entry is not level-based exactly when its tradition is `wand`, `scroll`, `ritual` or `focus` |
| Spellbook.MaxShownLevel | src/module/actor/sheet/base.ts:139 | the top level shown is at most 10 and at least the spell's level, the highest holding slot level and ceil(level/2), each where that is at most 10, and it is one of them; below 10 it bounds the slot level and ceil(level/2) outright, and it is 10 only when one of the three reaches 10 |
| Spellbook.NewBucket | src/module/actor/sheet/base.ts:143-153 | a fresh bucket is a cantrip bucket exactly at level 0 and a focus bucket exactly at level 11; it starts with no spells and no prepared slots; its label is the configured label of the level, none when the level has none; `uses`/`slots` are the slot group's parsed value/max or 0; `displayPrepared` follows `displayLevels`; the unprepared label is the arcane-prepared one exactly for arcane prepared entries |
| Spellbook.ResolveSlot | src/module/actor/sheet/base.ts:187-242 | a slot shows the empty placeholder exactly when its record is missing, its id is falsy or names no item; otherwise it is that item, prepared, expended exactly when the persisted flag is true |
| Spellbook.UpTo | src/module/actor/sheet/base.ts:141 | the levels the downward loop visits: exactly 0..top |
| Spellbook.ExtendOneMore | src/module/actor/sheet/base.ts:141-155 | one more loop round adds the level's fresh bucket when the level has none, and leaves an existing bucket in place |
| Spellbook.SpellbookView.PrepareSpell | src/module/actor/sheet/base.ts:116-170 | the new view is the old one extended by the shown levels, with the spell appended to its level's bucket, and unchanged when the spell's entry does not resolve |
| Spellbook.SpellbookView.ExtendLevels | src/module/actor/sheet/base.ts:141-155 | the downward loop gives every shown level that lacks a bucket a fresh one and keeps existing buckets; the spell's own level has a bucket afterwards |
| Spellbook.PrepareUnresolvedUnchanged | src/module/actor/sheet/base.ts:120-128 | a spell with no location, or whose location names no entry, leaves the view as it was |
| Spellbook.PrepareShownLevels | src/module/actor/sheet/base.ts:131-155 | after the call a level-based entry has a bucket for every level 0..min(10, max(spell level, highest holding slot level, ceil(level/2))); a wand, scroll, ritual or focus entry gets only the spell's own level |
| Spellbook.PrepareKeepsBuckets | src/module/actor/sheet/base.ts:143-169 | existing buckets are never replaced: the spell's bucket gets the spell appended at the end of `spells`, every other existing bucket is unchanged |
| Spellbook.PrepareNewBuckets | src/module/actor/sheet/base.ts:143-153 | a created bucket is a cantrip bucket exactly at level 0 and never a focus bucket; `uses`/`slots` come from the slot group's parsed value/max or are 0; `displayPrepared` is true unless `displayLevels` defines the level; it holds the spell only at the spell's level |
| Spellbook.OverlayStep | src/module/actor/sheet/base.ts:186-243 | writing slot i of the row after slots 0..i-1 extends the written prefix by one position and keeps the positions beyond |
| Spellbook.ResolveBucketSlots | src/module/actor/sheet/base.ts:185-243 | for a bucket with slots > 0, positions 0..slots-1 of `prepared` hold the resolved slots and later positions are kept |
| Spellbook.SpellbookView.PrepareSlots | src/module/actor/sheet/base.ts:181-246 | every bucket is replaced by its slot-resolved form and no bucket is added or removed |
| Spellbook.ResolveSlotCases | src/module/actor/sheet/base.ts:187-242 | a slot shows the empty placeholder exactly when its record is missing, its id is falsy or the id names no item; otherwise it shows a prepared copy of the item whose `expended` is the truthiness of the persisted flag |
| Spellbook.SlotsResolvedPositions | src/module/actor/sheet/base.ts:184-245 | buckets with slots > 0 get positions 0..slots-1 resolved; positions beyond, buckets with slots <= 0 and all other fields are untouched |
| Spellbook.TwoSlotScenario | src/module/actor/sheet/base.ts:184-245 | level 1 with two slots, slot 0 holding a known unexpended spell and slot 1 empty, shows that spell prepared and then the placeholder |
| SlotPaths.SlotKey | src/module/actor/sheet/base.ts:276 | a slot key starts with `data.slots.slot`, is longer than its fixed parts and ends with the slot index's decimal digits |
| SlotPaths.LeadingDigits | src/module/actor/sheet/base.ts:276 | the digit run that starts a key segment ends at the first non-digit |
| SlotPaths.SlotKeyRoundTrip | src/module/actor/sheet/base.ts:276-325 | the key `data.slots.slot{L}.prepared.{S}` reads back as exactly level L and slot S |
| SlotPaths.SlotKeyInjective | src/module/actor/sheet/base.ts:276-325 | two slot keys are equal if and only if they address the same level and slot |
| SlotUpdates.AllocatePreparedSpellSlot | src/module/actor/sheet/base.ts:276-281 | the payload targets the entry's `_id`, writes `{id}` of the spell and addresses the given level and slot |
| SlotUpdates.RemovePreparedSpellSlot | src/module/actor/sheet/base.ts:303-312 | the payload targets the entry's `_id`, writes the empty placeholder and addresses the given level and slot |
| SlotUpdates.SetExpendedPreparedSpellSlot | src/module/actor/sheet/base.ts:321-333 | the payload writes `expended: false` exactly when the incoming state is the string `"true"`, `expended: true` for every other input, at the given level and slot |
| SlotUpdates.Merge | src/module/actor/sheet/base.ts:276-332 | merging a written value into a slot record sets exactly the written fields and keeps the others |
| SlotUpdates.WriteSlot | src/module/actor/sheet/base.ts:276-332 | writing a slot adds its level if missing, merges the value into that slot's record (an empty record when there is none) and keeps other levels and the level's value and max |
| SlotUpdates.Apply | src/module/actor/sheet/base.ts:276-332 | applying a payload keeps the entry ids; it changes nothing when the key does not parse or the entry is missing, and otherwise only the addressed entry's slots, which become the written slot map |
| SlotUpdates.SameSlotKey | src/module/actor/sheet/base.ts:276-325 | allocate, clear and toggle address the same key on the same entry |
| SlotUpdates.NothingElseChanges | src/module/actor/sheet/base.ts:276-332 | applying a payload changes only its own slot record of its own entry; other entries, levels, slots and entry fields stay as they were |
| SlotUpdates.ClearAbsorbsAllocate | src/module/actor/sheet/base.ts:276-312 | on a slot map, a clear written over an allocation gives what the clear alone gives |
| SlotUpdates.ClearAfterAllocate | src/module/actor/sheet/base.ts:276-312 | on the entries, clearing after allocating gives what clearing alone gives |
| SlotUpdates.AllocateClearRoundTrip | src/module/actor/sheet/base.ts:276-312 | on a slot that held the placeholder, allocating then clearing restores the entries exactly |
| SlotUpdates.ClearShowsPlaceholder | src/module/actor/sheet/base.ts:303-312 | after a clear the slot resolves to the empty placeholder, whatever it held |
| SlotUpdates.AllocateShowsSpell | src/module/actor/sheet/base.ts:276-281 | after an allocation of an owned spell the slot resolves to that spell, prepared, with the slot's earlier expended flag |
| SlotUpdates.ToggleShowsState | src/module/actor/sheet/base.ts:321-333 | after a toggle the slot shows what it showed before, except that a prepared spell's expended flag becomes false for `"true"` and true otherwise |
| SlotUpdates.OutOfRangeWriteNotShown | src/module/actor/sheet/base.ts:276-312 | no write is checked against the level's slot count: a write at an index at or beyond the n shown slots leaves the first n resolved slots unchanged |
| StatLevels.Clamped | src/module/actor/sheet/base.ts:888 | `Math.clamped(x, lo, hi)` stays within [lo, hi], returns x inside the range and the nearer bound outside it |
| StatLevels.StatMax | src/module/actor/sheet/base.ts:879 | the field's maximum, 4 only when the field sets none (a stored 0 stays 0) |
| StatLevels.StatLevelStep | src/module/actor/sheet/base.ts:879-890 | a click steps the level up by one and a right click down by one, within [0, max], with max 4 when the field sets none |
| StatLevels.FocusPoolSize | src/module/actor/sheet/base.ts:904 | the pool is the stored pool when it is non-zero, and exactly 1 when it is missing or 0 |
| StatLevels.OnClickStatLevel | src/module/actor/sheet/base.ts:876-917 | the stepped level goes back into the form, to `data.proficient.value` of an item row, to `data.proficiency.value` of an entry, or to `data.focus.points` as the stepped level clamped to [0, focus pool] |
| StatLevels.FocusPoolChange | src/module/actor/sheet/base.ts:745-753 | the new pool is the input clamped to [0, 3]: 0 below 0 and 3 above 3; the points are the stored points clamped into the pool: 0 when missing or negative, the pool when above it |
| StatLevels.DyingClick | src/module/actor/sheet/base.ts:858-860 | a click steps dying up within [0, max] and jumps to max once the result plus doomed reaches max |
| StatLevels.DyingRightClickAsWritten | src/module/actor/sheet/base.ts:861-863 | the right click as written never exceeds max and never falls below -doomed; below the death threshold it is the plain step down within [0, max] |
| StatLevels.DyingRightClickGoesNegative | src/module/actor/sheet/base.ts:861-863 | the right click as written yields -2 for dying 2, doomed 3 and max 4 |
| StatLevels.DyingRightClick | src/module/actor/sheet/base.ts:861-863 | the corrected right click stays within [0, max], never raises the value, is the plain step down below the threshold and agrees with the written code whenever that is not negative |
| StatLevels.OnClickDying | src/module/actor/sheet/base.ts:845-869 | as written: a left click keeps the value within [0, max] and leaves it either at max or below max - doomed; a right click stays at most max and, when not negative, agrees with the corrected right click |
| StatLevels.NoDoomedPlainStep | src/module/actor/sheet/base.ts:851-864 | with doomed 0, which is also how a missing doomed value behaves, both clicks are the plain step clamped to [0, max] |
| StatLevels.OnClickDyingCorrected | src/module/actor/sheet/base.ts:845-869 | corrected: every dying click keeps the value within [0, max], and agrees with the code as written whenever that is not negative |
| SheetIcons.MaxDying | src/module/actor/sheet/base.ts:359 | the dying maximum is the stored one when non-zero, 4 when missing or 0; never 0 |
| SheetIcons.DyingCell | src/module/actor/sheet/base.ts:371-377 | a grid cell is a skull exactly when the column is within doomed of the maximum or the row is the maximum, otherwise a cross exactly when the column is at most the dying value, else an open circle |
| SheetIcons.WoundedCells | src/module/actor/sheet/base.ts:397-399 | a wounded row has max - 1 cells, cell j a used point exactly when j is below the wounded value, an unused point otherwise |
| SheetIcons.ProficiencyIcon | src/module/actor/sheet/base.ts:341-350 | there is a proficiency icon exactly for ranks 0..4 |
| SheetIcons.DoomedIcon | src/module/actor/sheet/base.ts:410-418 | there is a doomed icon exactly for values 0..3 |
| SheetIcons.HeroPointsIcon | src/module/actor/sheet/base.ts:426-434 | there is a hero-points icon exactly for values 0..3 |
| SheetIcons.DyingRowHtml | src/module/actor/sheet/base.ts:369-379 | one dying value's row is the HTML of its glyphs, with the last row wrapped in the red span |
| SheetIcons.DyingColumnsHtml | src/module/actor/sheet/base.ts:370-378 | the column loop appends one glyph per column, left to right: crosses, open circles or skulls as the grid prescribes |
| SheetIcons.DyingIcon | src/module/actor/sheet/base.ts:358-383 | the icon of a dying value in 0..max is its grid row and there is none outside that range; max defaults to 4 and doomed to 0 |
| SheetIcons.DyingCellsShape | src/module/actor/sheet/base.ts:370-378 | every row below the last is `dying` crosses, then open circles, then `doomed + 1` skulls, capped to the row width |
| SheetIcons.DeadRowAllSkulls | src/module/actor/sheet/base.ts:371 | the row of the maximum value is all skulls |
| SheetIcons.WoundedRowHtml | src/module/actor/sheet/base.ts:396-400 | the inner loop builds the HTML of the wounded row |
| SheetIcons.WoundedIcon | src/module/actor/sheet/base.ts:389-404 | the icon of a wounded value in 0..max-1 is its row and there is none outside that range |
| SheetIcons.WoundedCellsShape | src/module/actor/sheet/base.ts:397-399 | row `w` is `w` used points followed by unused points, max - 1 glyphs in all |
| SheetIcons.ConcatAppend | src/module/actor/sheet/base.ts:372-376 | building a string by `+=` over two lists of parts gives the two concatenations one after the other |
| SheetIcons.TablesAreRows | src/module/actor/sheet/base.ts:341-434 | the proficiency, doomed and hero-point tables are the grid rows of rank-many filled glyphs, padded with open circles to three |
| SheetIcons.ActionImg | src/module/actor/sheet/base.ts:442-453 | an action image exists exactly for the counts 0..3 and the names `free`, `reaction` and `passive` |
| EntryRemoval.SpellsToDelete | src/module/actor/sheet/base.ts:1427-1434 | the loop collects the ids of the spell items whose location is the removed entry, in item order |
| EntryRemoval.DependentSpellsExact | src/module/actor/sheet/base.ts:1428-1433 | an id is collected if and only if some spell item with that id has the entry as its location; never more ids than items |
| EntryRemoval.DependentSpellsAppend | src/module/actor/sheet/base.ts:1428-1433 | the selection over a concatenated item list is the two selections in order |
| HazardSheet.UpperChar | src/module/actor/sheet/hazard.ts:99 | an ASCII lower-case letter becomes its upper-case letter; any other character is kept |
| HazardSheet.Capitalized | src/module/actor/sheet/hazard.ts:99 | the key with its first character upper-cased and the rest unchanged |
| HazardSheet.TraitLabel | src/module/actor/sheet/hazard.ts:99 | a non-empty key never gets an empty label |
| HazardSheet.FormatTraits | src/module/actor/sheet/hazard.ts:95-104 | the loop yields exactly one trait per key, in order, each the configured label (or the capitalized key) and description (or `""`) |
| HazardSheet.TraitLabelChoice | src/module/actor/sheet/hazard.ts:98-101 | the trait `TraitFor` builds for one key: its label is the configured weapon-trait label when it is a non-empty string, otherwise the key with its first character upper-cased; the description defaults to `""` |
| HazardSheet.WeaponBucket | src/module/actor/sheet/hazard.ts:89 | a melee item's group is its weapon type when that is a non-empty string, `melee` otherwise; never empty |
| HazardSheet.ActionBucket | src/module/actor/sheet/hazard.ts:112 | an action item's group is its action type when non-empty, `action` otherwise; never empty |
| HazardSheet.PreparedItem | src/module/actor/sheet/hazard.ts:85-137 | decoration keeps an item's id, type, weapon and action type; a non-action item gets its image or the default token; an action item gets its action image; a melee item gets the parsed bonus or 0 and is agile exactly when its traits include `agile`; melee and action items get one trait per key (plus the action type's) and other items keep their traits |
| HazardSheet.ActionImageKey | src/module/actor/sheet/hazard.ts:112-118 | type `action` gives the parsed action count, or 1 when missing or 0; `reaction`, `free` and `passive` give their own name |
| HazardSheet.PreparedItemFacts | src/module/actor/sheet/hazard.ts:85-137 | a decorated melee item is agile exactly when its traits include `agile`, has the parsed bonus or 0 as its total and one trait per key; an action item takes the image of its action key and gets one trait per key plus, last, its action type's trait only when that is set; other items only get the default image |
| HazardSheet.PrepareOne | src/module/actor/sheet/hazard.ts:85-137 | the per-item body decorates the item as specified |
| HazardSheet.FormattedTraits | src/module/actor/sheet/hazard.ts:95-104 | one trait per key |
| HazardSheet.GroupMembership | src/module/actor/sheet/hazard.ts:107-140 | an item is in attack group k exactly when it is a melee item whose weapon type (default `melee`) is k, and in action group k exactly when it is an action item whose action type (default `action`) is k; items of other types are in no group |
| HazardSheet.GroupsPartition | src/module/actor/sheet/hazard.ts:84-141 | with known group keys, the attack groups together hold every melee item once and the action groups every action item once |
| HazardSheet.HazardActorData.PrepareItems | src/module/actor/sheet/hazard.ts:68-147 | every item is decorated in place, the two attack and four action groups carry their labels, and each group holds its items in input order |
| HazardSheet.PrepareAndGroup | src/module/actor/sheet/hazard.ts:84-142 | the item loop yields every item decorated, in order, and each of the labelled groups holding exactly its items in input order |
| HazardSheet.AddToGroups | src/module/actor/sheet/hazard.ts:107-140 | pushing an item extends exactly the group it belongs to |
| HazardSheet.GroupsSnoc | src/module/actor/sheet/hazard.ts:107-140 | appending an item extends exactly the group it belongs to |
| HazardSheet.StealthDC | src/module/actor/sheet/hazard.ts:46 | the stealth DC is 10 more than the stealth value, 10 when it is missing |
| HazardSheet.BrokenThreshold | src/module/actor/sheet/hazard.ts:57 | the broken threshold is half the maximum hit points rounded down: 2t <= max < 2t + 2 |
| HazardSheet.HasImmunitiesAsWritten | src/module/actor/sheet/hazard.ts:49 | as written, every hazard is reported as having immunities |
| HazardSheet.NoImmunitiesReported | src/module/actor/sheet/hazard.ts:49 | as written, a hazard with an empty immunity list is reported as having immunities |
| HazardSheet.HasImmunities | src/module/actor/sheet/hazard.ts:49 | corrected: a hazard has immunities exactly when its immunity list is not empty |
| HazardSheet.TemplatePath | src/module/actor/sheet/hazard.ts:21-25 | the editable template exactly when the system-scoped `editHazard` flag is set, the read-only template otherwise |
| HazardSheet.LabelledSaves | src/module/actor/sheet/hazard.ts:36-38 | labelling keeps every save and its value and names it by its configured label, or by none when the key is not configured |
| HazardSheet.LabelSaves | src/module/actor/sheet/hazard.ts:36-38 | the loop names every save by its configured label, or by none when the key is not configured |
| HazardSheet.TextOrFalse | src/module/actor/sheet/hazard.ts:47-55 | `text || false` keeps the text exactly when it is a non-empty string and is `false` otherwise |
| HazardSheet.GetData | src/module/actor/sheet/hazard.ts:32-60 | saves are labelled; the unscoped `editHazard` flag object is kept when present and defaults to value off when absent; `hasImmunities` is as written (always true); the stealth DC and broken threshold are derived as above; each text-presence field holds the text itself when non-empty and `false` otherwise; the will-save flag is set exactly when the will save is non-zero |

## Left out

- DOM and jQuery wiring, dialogs, template rendering and item summaries are left out. They are user-interface plumbing.
- The host persistence calls (`updateEmbeddedEntity`, `deleteOwnedItem`) and their asynchronous completion are left out. The model builds their payloads, and `SlotUpdates.Apply` models the merge for slot keys only.
- Drag and drop, area effects, chat data and the spell-school string enrichment are left out. They are host-owned or use floating point.
- Localisation is left out. Labels are kept as their i18n keys, and configuration tables are parameters.
- String-to-number coercion is left out. Inputs are already-parsed integers, and NaN is `None`, except for the three inputs below.
- StatLevels.OnClickStatLevel: the clicked level (`parseFloat` at base.ts:883) is an integer in the model. A non-numeric field value, which `Math.clamped` passes through as NaN, is not represented; the same holds for `StatLevels.OnClickDying` (base.ts:854).
- StatLevels.FocusPoolChange: the pool input (`Number` at base.ts:748) is an integer in the model. A non-numeric input, NaN in the source, is not represented.
- Spellbook.BucketIndex: a spell level that is not a number is filed under 10 at base.ts:117, because `NaN < 11` is false. Spell levels are natural numbers in the model, so this path is not represented.
- Spellbook.HighestSlotPrepared: a slot group without a `prepared` object makes `Object.values` throw at base.ts:136. Every modelled slot group has a (possibly empty) `prepared` map, so this throw is not represented.
- EntryRemoval.SpellsToDelete: a spell item without a `location` object makes base.ts:1430 throw. The model treats such an item as having no location and skips it.
- StatLevels.OnClickDying: takes doomed as an integer. A missing doomed value (base.ts:851) behaves as 0: the threshold tests at base.ts:860 and 863 compare NaN and never fire, leaving the plain clamped step, which is what `StatLevels.NoDoomedPlainStep` states for doomed 0.
- Spellbook.SpellbookView.PrepareSpell: requires every level it creates to have its slot group, because the source throws at base.ts:149-150 otherwise.
- Spellbook.SpellbookView.PrepareSpell: spell levels are natural numbers, because a negative level makes the source throw when it appends the spell.
- Spellbook.SpellbookView.PrepareSpell: the owning entry is looked up among the actor's entries. An owned item that is not an entry is not modelled.
- Spellbook.HighestSlotPrepared: slot groups are keyed by level number. A key that does not match `slot<N>` (the source throws) is not represented.
- HazardSheet.HazardActorData.PrepareItems: requires melee weapon types and action types to be known group keys, because the source throws when it pushes to an unknown group.
- HazardSheet.Capitalized: upper-cases ASCII letters only. The source's `toUpperCase` also maps other scripts.
- HazardSheet.GetData: a missing `will` save gives `false`, where the source throws. The pass-through fields `hazardTraits` and `actorTraits` and the host's own sheet data are not modelled.
- HazardSheet.GetData: `getData` assigns fields on the object it returns. The model builds that object as one record value.
- StatLevels.OnClickDying: the dying maximum comes from the actor data without a default, so a missing maximum (NaN in the source) is not represented.

## Findings

| source | as written | input that shows it | evidently intended | confidence | as-written member | corrected member |
|---|---|---|---|---|---|---|
| src/module/actor/sheet/base.ts:861-863 | a right click on the dying track subtracts doomed from the stepped-down value whenever that value plus doomed reaches max | dying 2, doomed 3, max 4 gives -2 | the dying value stays within [0, max] | medium, not executed | StatLevels.DyingRightClickGoesNegative | StatLevels.DyingRightClick |
| src/module/actor/sheet/hazard.ts:49 | `hasImmunities` compares the immunity array with a fresh `[]` by reference, so it is always true | an empty immunity list gives `hasImmunities` true | true only when the list is non-empty | high, not executed | HazardSheet.NoImmunitiesReported | HazardSheet.HasImmunities |
