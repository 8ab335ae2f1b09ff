/**
 * The step-and-clamp rules behind clicking a stat level (proficiency, conditions, focus points),
 * clicking the dying track, and editing the focus pool size.
 */
module StatLevels {
  import opened Wrappers

  /** A left click (`click`) steps up, a right click (`contextmenu`) steps down. */
  datatype ClickKind = Click | ContextMenu

  /** The host's `Math.clamped(x, lo, hi)`, that is `min(hi, max(x, lo))`. */
  function Clamped(x: int, lo: int, hi: int): (r: int)
    ensures lo <= hi ==> lo <= r <= hi
    ensures lo <= x <= hi ==> r == x
    ensures x < lo <= hi ==> r == lo
    ensures hi < x ==> r == hi
    ensures hi < lo ==> r == hi
  {
    var m := if x > lo then x else lo;
    if m < hi then m else hi
  }

  /** The maximum of a stat level: the field's `data-max`, 4 when it has none. */
  function StatMax(dataMax: Option<int>): (m: int)
    ensures dataMax.None? ==> m == 4
    ensures dataMax.Some? ==> m == dataMax.value
  {
    dataMax.GetOr(4)
  }

  /** The level after one click: one step in the click's direction, kept within [0, max]. */
  function StatLevelStep(level: int, dataMax: Option<int>, kind: ClickKind): (r: int)
    ensures StatMax(dataMax) >= 0 ==> 0 <= r <= StatMax(dataMax)
    ensures kind == Click && 0 <= level < StatMax(dataMax) ==> r == level + 1
    ensures kind == ContextMenu && 0 < level <= StatMax(dataMax) ==> r == level - 1
    ensures kind == Click && level >= StatMax(dataMax) >= 0 ==> r == StatMax(dataMax)
    ensures kind == ContextMenu && level <= 0 <= StatMax(dataMax) ==> r == 0
  {
    Clamped(if kind == Click then level + 1 else level - 1, 0, StatMax(dataMax))
  }

  /** The size of a focus pool: the stored pool, 1 when it is missing or 0. */
  function FocusPoolSize(pool: Option<int>): (n: int)
    ensures n != 0
    ensures pool.None? || pool.value == 0 ==> n == 1
    ensures pool.Some? && pool.value != 0 ==> n == pool.value
  {
    if pool.None? || pool.value == 0 then 1 else pool.value
  }

  /** The row a stat level belongs to, which decides where the new level is written. */
  datatype StatTarget =
    | SheetField                                               // a hidden input of the sheet's form
    | ItemRow(itemId: string)                                  // an item row: `data.proficient.value`
    | EntryRow(entryId: string, isFocusPoints: bool, focusPool: Option<int>)
                                                               // a spellcasting entry: proficiency or focus points

  /** Where the stepped level goes: back into the form, or into one field of an owned item. */
  datatype StatWrite =
    | FieldValue(level: int)
    | ItemWrite(itemId: string, key: string, level: int)

  /**
   * One click on a stat level. Focus points are in addition kept within the entry's focus pool;
   * every other target receives the stepped level unchanged.
   */
  function OnClickStatLevel(level: int, dataMax: Option<int>, kind: ClickKind, target: StatTarget): (w: StatWrite)
    ensures target.SheetField? <==> w.FieldValue?
    ensures !(target.EntryRow? && target.isFocusPoints) ==> w.level == StatLevelStep(level, dataMax, kind)
    ensures target.EntryRow? && target.isFocusPoints ==>
      w == ItemWrite(target.entryId, "data.focus.points", w.level) &&
      (FocusPoolSize(target.focusPool) >= 0 ==> 0 <= w.level <= FocusPoolSize(target.focusPool)) &&
      (StatMax(dataMax) >= 0 ==> w.level <= StatMax(dataMax)) &&
      w.level == Clamped(StatLevelStep(level, dataMax, kind), 0, FocusPoolSize(target.focusPool))
    ensures target.ItemRow? ==> w == ItemWrite(target.itemId, "data.proficient.value", w.level)
    ensures target.EntryRow? && !target.isFocusPoints ==> w == ItemWrite(target.entryId, "data.proficiency.value", w.level)
  {
    var newLevel := StatLevelStep(level, dataMax, kind);
    match target
    case SheetField => FieldValue(newLevel)
    case ItemRow(id) => ItemWrite(id, "data.proficient.value", newLevel)
    case EntryRow(id, isFocusPoints, pool) =>
      if isFocusPoints then ItemWrite(id, "data.focus.points", Clamped(newLevel, 0, FocusPoolSize(pool)))
      else ItemWrite(id, "data.proficiency.value", newLevel)
  }

  /** The focus pool write after editing the pool size: the pool kept within [0, 3], the points within the pool. */
  datatype FocusWrite = FocusWrite(points: int, pool: int)

  function FocusPoolChange(input: int, storedPoints: Option<int>): (w: FocusWrite)
    ensures 0 <= w.points <= w.pool <= 3
    ensures 0 <= input <= 3 ==> w.pool == input
    ensures input < 0 ==> w.pool == 0
    ensures input > 3 ==> w.pool == 3
    ensures storedPoints.None? ==> w.points == 0
    ensures storedPoints.Some? && 0 <= storedPoints.value <= w.pool ==> w.points == storedPoints.value
    ensures storedPoints.Some? && storedPoints.value > w.pool ==> w.points == w.pool
    ensures storedPoints.Some? && storedPoints.value < 0 ==> w.points == 0
  {
    var pool := Clamped(input, 0, 3);
    FocusWrite(Clamped(storedPoints.GetOr(0), 0, pool), pool)
  }

  /**
   * A left click on the dying track: one step up within [0, max]; once the new value plus the doomed
   * value reaches max, it jumps to max (the character dies).
   */
  function DyingClick(level: int, maxDying: int, doomed: int): (r: int)
    ensures maxDying >= 0 ==> 0 <= r <= maxDying
    ensures r == maxDying || r + doomed < maxDying
    ensures Clamped(level + 1, 0, maxDying) + doomed >= maxDying ==> r == maxDying
    ensures 0 <= level && doomed >= 0 && level + 1 + doomed < maxDying ==> r == level + 1
  {
    var newLevel := Clamped(level + 1, 0, maxDying);
    if newLevel + doomed >= maxDying then maxDying else newLevel
  }

  /**
   * A right click on the dying track as the source writes it: one step down within [0, max], then the
   * doomed value is subtracted when the result plus doomed still reaches max.
   */
  function DyingRightClickAsWritten(level: int, maxDying: int, doomed: int): (r: int)
    ensures maxDying >= 0 && doomed >= 0 ==> r <= maxDying
    ensures maxDying >= 0 && doomed >= 0 ==> r >= -doomed
    ensures Clamped(level - 1, 0, maxDying) + doomed < maxDying ==> r == Clamped(level - 1, 0, maxDying)
  {
    var newLevel := Clamped(level - 1, 0, maxDying);
    if newLevel + doomed >= maxDying then newLevel - doomed else newLevel
  }

  /** Dying 2 with doomed 3 and a maximum of 4: a right click yields dying -2. */
  lemma DyingRightClickGoesNegative()
    ensures DyingRightClickAsWritten(2, 4, 3) == -2
  {
  }

  /**
   * A right click on the dying track with the subtraction kept at 0: the value never leaves [0, max],
   * it never rises, and while it stays below the death threshold it is the plain step down.
   */
  function DyingRightClick(level: int, maxDying: int, doomed: int): (r: int)
    ensures maxDying >= 0 ==> 0 <= r <= maxDying
    ensures 0 <= level <= maxDying ==> r <= level
    ensures doomed >= 0 && Clamped(level - 1, 0, maxDying) + doomed < maxDying ==> r == Clamped(level - 1, 0, maxDying)
    ensures maxDying >= 0 && doomed >= 0 && DyingRightClickAsWritten(level, maxDying, doomed) >= 0 ==>
      r == DyingRightClickAsWritten(level, maxDying, doomed)
  {
    var newLevel := Clamped(level - 1, 0, maxDying);
    if newLevel + doomed >= maxDying then Clamped(newLevel - doomed, 0, maxDying) else newLevel
  }

  /**
   * A click on the dying track, as the source computes it: a left click stays within [0, max]; a
   * right click never exceeds max and, whenever it is not negative, is the corrected right click.
   */
  function OnClickDying(level: int, maxDying: int, doomed: int, kind: ClickKind): (r: int)
    ensures kind == Click && maxDying >= 0 ==> 0 <= r <= maxDying
    ensures kind == Click ==> r == maxDying || r + doomed < maxDying
    ensures kind == ContextMenu && maxDying >= 0 && doomed >= 0 ==>
      r <= maxDying && (r >= 0 ==> r == DyingRightClick(level, maxDying, doomed))
  {
    if kind == Click then DyingClick(level, maxDying, doomed) else DyingRightClickAsWritten(level, maxDying, doomed)
  }

  /**
   * With no doomed value both clicks are the plain clamped step: the threshold test then changes
   * nothing. This is also what a missing doomed value gives in the source, where the test compares
   * NaN and never fires.
   */
  lemma {:induction false} NoDoomedPlainStep(level: int, maxDying: int, kind: ClickKind)
    requires maxDying >= 0
    ensures OnClickDying(level, maxDying, 0, kind) == Clamped(if kind == Click then level + 1 else level - 1, 0, maxDying)
  {
    var step := Clamped(if kind == Click then level + 1 else level - 1, 0, maxDying);
    assert step <= maxDying;
  }

  /** The dying click with the corrected right click: both directions stay within [0, max]. */
  function OnClickDyingCorrected(level: int, maxDying: int, doomed: int, kind: ClickKind): (r: int)
    ensures maxDying >= 0 ==> 0 <= r <= maxDying
    ensures doomed >= 0 && maxDying >= 0 && OnClickDying(level, maxDying, doomed, kind) >= 0 ==>
      r == OnClickDying(level, maxDying, doomed, kind)
  {
    if kind == Click then DyingClick(level, maxDying, doomed) else DyingRightClick(level, maxDying, doomed)
  }
}
