/**
 * The icon strings of the actor sheet: the dying and wounded grids built row by row, the fixed
 * tables for proficiency, doomed and hero points, and the action images.
 */
module SheetIcons {
  import opened Wrappers

  /** The font glyphs the grids are made of. */
  datatype Glyph = OpenCircle | CrossedCircle | Skull | DotCircle | CheckCircle | HospitalSymbol

  const CircleHtml := "<i class=\"far fa-circle\"></i>"
  const CrossHtml := "<i class=\"fas fa-times-circle\"></i>"
  const SkullHtml := "<i class=\"fas fa-skull\"></i>"
  const DotHtml := "<i class=\"fas fa-dot-circle\"></i>"
  const CheckHtml := "<i class=\"fas fa-check-circle\"></i>"
  const HospitalHtml := "<i class=\"fas fa-hospital-symbol\"></i>"

  function GlyphHtml(g: Glyph): string {
    match g
    case OpenCircle => CircleHtml
    case CrossedCircle => CrossHtml
    case Skull => SkullHtml
    case DotCircle => DotHtml
    case CheckCircle => CheckHtml
    case HospitalSymbol => HospitalHtml
  }

  const RedOpen := "<span>"
  const RedClose := "</span>"

  /** The concatenation of `parts`, as built by repeated `+=`. */
  function Concat(parts: seq<string>): string {
    if parts == [] then "" else Concat(parts[..|parts| - 1]) + parts[|parts| - 1]
  }

  /** The HTML of each glyph of a row. */
  function HtmlParts(gs: seq<Glyph>): (parts: seq<string>)
    ensures |parts| == |gs| && forall j :: 0 <= j < |gs| ==> parts[j] == GlyphHtml(gs[j])
  {
    seq(|gs|, j requires 0 <= j < |gs| => GlyphHtml(gs[j]))
  }

  /** The HTML of a row of glyphs. */
  function Render(gs: seq<Glyph>): string {
    Concat(HtmlParts(gs))
  }

  /** `n` copies of one glyph. */
  function Repeat(g: Glyph, n: nat): (r: seq<Glyph>)
    ensures |r| == n && forall j :: 0 <= j < n ==> r[j] == g
  {
    seq(n, _ => g)
  }

  /* ---------------------------------------------------------------------- */
  /*  Dying                                                                  */
  /* ---------------------------------------------------------------------- */

  /** The dying maximum: the stored one, 4 when it is missing or 0. */
  function MaxDying(dyingMax: Option<int>): (m: int)
    ensures m != 0
    ensures dyingMax.None? || dyingMax.value == 0 ==> m == 4
    ensures dyingMax.Some? && dyingMax.value != 0 ==> m == dyingMax.value
  {
    if dyingMax.None? || dyingMax.value == 0 then 4 else dyingMax.value
  }

  /** The glyph in column `column` (1-based) of the row for dying value `dyingLevel`. */
  function DyingCell(dyingLevel: int, column: int, maxDying: int, doomed: int): (g: Glyph)
    ensures g in {Skull, OpenCircle, CrossedCircle}
    ensures g == Skull <==> column >= maxDying - doomed || dyingLevel == maxDying
    ensures g == CrossedCircle <==> g != Skull && column <= dyingLevel
  {
    if column >= maxDying - doomed || dyingLevel == maxDying then Skull
    else if dyingLevel < column then OpenCircle
    else CrossedCircle
  }

  /** The `maxDying` glyphs of the row for dying value `dyingLevel`. */
  function DyingCells(dyingLevel: int, maxDying: nat, doomed: int): seq<Glyph> {
    seq(maxDying, j requires 0 <= j => DyingCell(dyingLevel, j + 1, maxDying, doomed))
  }

  /** The HTML of that row; the last row (the character is dead) is wrapped in a red span. */
  function DyingRow(dyingLevel: int, maxDying: nat, doomed: int): string {
    (if dyingLevel == maxDying then RedOpen else "")
      + Render(DyingCells(dyingLevel, maxDying, doomed))
      + (if dyingLevel == maxDying then RedClose else "")
  }

  /** Builds the HTML of one dying row: the red span's opening, the columns, the red span's closing. */
  method DyingRowHtml(dyingLevel: int, maxDying: nat, doomed: int) returns (row: string)
    ensures row == DyingRow(dyingLevel, maxDying, doomed)
  {
    row := if dyingLevel == maxDying then RedOpen else "";
    var columns := DyingColumnsHtml(dyingLevel, maxDying, doomed);
    row := row + columns;
    row := row + (if dyingLevel == maxDying then RedClose else "");
  }

  /** The column loop of a dying row: one glyph per column, left to right. */
  method DyingColumnsHtml(dyingLevel: int, maxDying: nat, doomed: int) returns (html: string)
    ensures html == Render(DyingCells(dyingLevel, maxDying, doomed))
  {
    html := "";
    ghost var cells := DyingCells(dyingLevel, maxDying, doomed);
    ghost var parts := HtmlParts(cells);
    var column := 1;
    while column <= maxDying
      invariant 1 <= column <= maxDying + 1
      invariant html == Concat(parts[..column - 1])
    {
      var glyph;
      if column >= maxDying - doomed || dyingLevel == maxDying {
        glyph := Skull;
      } else if dyingLevel < column {
        glyph := OpenCircle;
      } else {
        glyph := CrossedCircle;
      }
      assert glyph == cells[column - 1];
      ConcatSnoc(parts, column - 1);
      html := html + GlyphHtml(glyph);
      column := column + 1;
    }
    assert parts[..maxDying] == parts;
  }

  /** The dying icon for `level`: the grid row of that value, or nothing outside 0..max. */
  method DyingIcon(level: int, dyingMax: Option<int>, doomedValue: Option<int>) returns (icon: Option<string>)
    ensures icon == if 0 <= level <= MaxDying(dyingMax)
                    then Some(DyingRow(level, MaxDying(dyingMax), doomedValue.GetOr(0))) else None
  {
    var maxDying := MaxDying(dyingMax);
    var doomed := doomedValue.GetOr(0);
    var icons: map<int, string> := map[];
    var dyingLevel := 0;
    while dyingLevel <= maxDying
      invariant 0 <= dyingLevel && (dyingLevel <= maxDying + 1 || dyingLevel == 0)
      invariant forall d :: d in icons <==> 0 <= d < dyingLevel
      invariant forall d :: 0 <= d < dyingLevel ==> icons[d] == DyingRow(d, maxDying, doomed)
      decreases maxDying - dyingLevel
    {
      var row := DyingRowHtml(dyingLevel, maxDying, doomed);
      icons := icons[dyingLevel := row];
      dyingLevel := dyingLevel + 1;
    }
    icon := if level in icons then Some(icons[level]) else None;
  }

  /**
   * Every row below the last is a fixed-width run of crosses, then open circles, then skulls: the
   * last `doomed + 1` columns (at most all of them) are skulls, and of the columns before them the
   * first `dyingLevel` are crossed.
   */
  lemma DyingCellsShape(dyingLevel: nat, maxDying: nat, doomed: int)
    requires dyingLevel < maxDying
    ensures var live: nat := if maxDying - doomed - 1 < 0 then 0
                             else if maxDying - doomed - 1 > maxDying then maxDying else maxDying - doomed - 1;
      var crossed: nat := if dyingLevel < live then dyingLevel else live;
      DyingCells(dyingLevel, maxDying, doomed)
        == Repeat(CrossedCircle, crossed) + Repeat(OpenCircle, live - crossed) + Repeat(Skull, maxDying - live)
  {
    var live: nat := if maxDying - doomed - 1 < 0 then 0
                     else if maxDying - doomed - 1 > maxDying then maxDying else maxDying - doomed - 1;
    var crossed: nat := if dyingLevel < live then dyingLevel else live;
    var cells := DyingCells(dyingLevel, maxDying, doomed);
    var shape := Repeat(CrossedCircle, crossed) + Repeat(OpenCircle, live - crossed) + Repeat(Skull, maxDying - live);
    assert |shape| == maxDying;
    forall j | 0 <= j < maxDying
      ensures cells[j] == shape[j]
    {
      if j < crossed {
        assert shape[j] == CrossedCircle;
      } else if j < live {
        assert shape[j] == OpenCircle;
      } else {
        assert shape[j] == Skull;
      }
    }
  }

  /** The last row is all skulls. */
  lemma DeadRowAllSkulls(maxDying: nat, doomed: int)
    ensures DyingCells(maxDying, maxDying, doomed) == Repeat(Skull, maxDying)
  {
  }

  /* ---------------------------------------------------------------------- */
  /*  Wounded                                                                */
  /* ---------------------------------------------------------------------- */

  /** The `maxDying - 1` glyphs for wounded value `wounded`. */
  function WoundedCells(wounded: int, maxDying: int): (cells: seq<Glyph>)
    requires maxDying >= 1
    ensures |cells| == maxDying - 1
    ensures forall j :: 0 <= j < |cells| ==> (cells[j] == DotCircle <==> j < wounded)
    ensures forall j :: 0 <= j < |cells| ==> cells[j] in {DotCircle, OpenCircle}
  {
    seq(maxDying - 1, j requires 0 <= j => if j + 1 <= wounded then DotCircle else OpenCircle)
  }

  /** Builds the HTML of one wounded row, column by column. */
  method WoundedRowHtml(wounded: int, maxDying: int) returns (iconHtml: string)
    requires maxDying >= 1
    ensures iconHtml == Render(WoundedCells(wounded, maxDying))
  {
    iconHtml := "";
    ghost var parts := HtmlParts(WoundedCells(wounded, maxDying));
    var iconColumn := 1;
    while iconColumn < maxDying
      invariant 1 <= iconColumn <= maxDying
      invariant iconHtml == Concat(parts[..iconColumn - 1])
    {
      ConcatSnoc(parts, iconColumn - 1);
      iconHtml := iconHtml + GlyphHtml(if iconColumn <= wounded then DotCircle else OpenCircle);
      iconColumn := iconColumn + 1;
    }
    assert parts[..maxDying - 1] == parts;
  }

  /** The wounded icon for `level`: its grid row, or nothing outside 0..max-1. */
  method WoundedIcon(level: int, dyingMax: Option<int>) returns (icon: Option<string>)
    ensures icon == if 0 <= level < MaxDying(dyingMax)
                    then Some(Render(WoundedCells(level, MaxDying(dyingMax)))) else None
  {
    var maxDying := MaxDying(dyingMax);
    var icons: map<int, string> := map[];
    var i := 0;
    while i < maxDying
      invariant 0 <= i && (i <= maxDying || i == 0)
      invariant forall d :: d in icons <==> 0 <= d < i
      invariant forall d :: 0 <= d < i ==> icons[d] == Render(WoundedCells(d, maxDying))
      decreases maxDying - i
    {
      var iconHtml := WoundedRowHtml(i, maxDying);
      icons := icons[i := iconHtml];
      i := i + 1;
    }
    icon := if level in icons then Some(icons[level]) else None;
  }

  /** Row `wounded` has `wounded` used points followed by the unused ones, `maxDying - 1` in all. */
  lemma WoundedCellsShape(wounded: nat, maxDying: int)
    requires wounded < maxDying
    ensures WoundedCells(wounded, maxDying) == Repeat(DotCircle, wounded) + Repeat(OpenCircle, maxDying - 1 - wounded)
  {
    var shape := Repeat(DotCircle, wounded) + Repeat(OpenCircle, maxDying - 1 - wounded);
    forall j | 0 <= j < maxDying - 1
      ensures WoundedCells(wounded, maxDying)[j] == shape[j]
    {
      if j < wounded {
        assert shape[j] == DotCircle;
      } else {
        assert shape[j] == OpenCircle;
      }
    }
  }

  /* ---------------------------------------------------------------------- */
  /*  Fixed tables                                                           */
  /* ---------------------------------------------------------------------- */

  /** The proficiency icon: one check per rank from untrained (0) to legendary (4). */
  function ProficiencyIcon(level: int): (icon: Option<string>)
    ensures icon.Some? <==> 0 <= level <= 4
  {
    if level == 0 then Some("")
    else if level == 1 then Some(CheckHtml)
    else if level == 2 then Some(CheckHtml + CheckHtml)
    else if level == 3 then Some(CheckHtml + CheckHtml + CheckHtml)
    else if level == 4 then Some(CheckHtml + CheckHtml + CheckHtml + CheckHtml)
    else None
  }

  /** The doomed icon: skulls for the doomed value, open circles up to three. */
  function DoomedIcon(level: int): (icon: Option<string>)
    ensures icon.Some? <==> 0 <= level <= 3
  {
    if level == 0 then Some(CircleHtml + CircleHtml + CircleHtml)
    else if level == 1 then Some(SkullHtml + CircleHtml + CircleHtml)
    else if level == 2 then Some(SkullHtml + SkullHtml + CircleHtml)
    else if level == 3 then Some(SkullHtml + SkullHtml + SkullHtml)
    else None
  }

  /** The hero points icon: a symbol per point, open circles up to three. */
  function HeroPointsIcon(level: int): (icon: Option<string>)
    ensures icon.Some? <==> 0 <= level <= 3
  {
    if level == 0 then Some(CircleHtml + CircleHtml + CircleHtml)
    else if level == 1 then Some(HospitalHtml + CircleHtml + CircleHtml)
    else if level == 2 then Some(HospitalHtml + HospitalHtml + CircleHtml)
    else if level == 3 then Some(HospitalHtml + HospitalHtml + HospitalHtml)
    else None
  }

  /** One more part appends its text. */
  lemma ConcatSnoc(parts: seq<string>, k: nat)
    requires k < |parts|
    ensures Concat(parts[..k + 1]) == Concat(parts[..k]) + parts[k]
  {
    assert parts[..k + 1][..k] == parts[..k];
  }

  /** Concatenation distributes over appending part lists. */
  lemma {:induction false} ConcatAppend(a: seq<string>, b: seq<string>)
    ensures Concat(a + b) == Concat(a) + Concat(b)
    decreases |b|
  {
    if b == [] {
      assert a + b == a;
    } else {
      var b' := b[..|b| - 1];
      assert (a + b)[..|a + b| - 1] == a + b';
      ConcatAppend(a, b');
    }
  }

  /** Rendering distributes over concatenation. */
  lemma RenderAppend(a: seq<Glyph>, b: seq<Glyph>)
    ensures Render(a + b) == Render(a) + Render(b)
  {
    assert HtmlParts(a + b) == HtmlParts(a) + HtmlParts(b);
    ConcatAppend(HtmlParts(a), HtmlParts(b));
  }

  /** A single glyph renders as its HTML. */
  lemma RenderOne(g: Glyph)
    ensures Render([g]) == GlyphHtml(g)
  {
    var parts := HtmlParts([g]);
    assert parts == [GlyphHtml(g)];
    assert parts[..0] == [];
    assert Concat(parts) == Concat([]) + GlyphHtml(g);
  }

  /** Rendering a glyph sequence of length up to four, glyph by glyph. */
  lemma RenderUpToFour(gs: seq<Glyph>)
    requires 1 <= |gs| <= 4
    ensures |gs| == 1 ==> Render(gs) == GlyphHtml(gs[0])
    ensures |gs| == 2 ==> Render(gs) == GlyphHtml(gs[0]) + GlyphHtml(gs[1])
    ensures |gs| == 3 ==> Render(gs) == GlyphHtml(gs[0]) + GlyphHtml(gs[1]) + GlyphHtml(gs[2])
    ensures |gs| == 4 ==> Render(gs) == GlyphHtml(gs[0]) + GlyphHtml(gs[1]) + GlyphHtml(gs[2]) + GlyphHtml(gs[3])
  {
    assert gs == [gs[0]] + gs[1..];
    RenderOne(gs[0]);
    RenderAppend([gs[0]], gs[1..]);
    if |gs| >= 2 {
      assert gs[1..] == [gs[1]] + gs[2..];
      RenderOne(gs[1]);
      RenderAppend([gs[1]], gs[2..]);
    }
    if |gs| >= 3 {
      assert gs[2..] == [gs[2]] + gs[3..];
      RenderOne(gs[2]);
      RenderAppend([gs[2]], gs[3..]);
    }
    if |gs| == 4 {
      assert gs[3..] == [gs[3]];
      RenderOne(gs[3]);
    }
  }

  /** Each table entry is the row of rank-many filled glyphs the grids are drawn with. */
  lemma TablesAreRows(level: nat)
    ensures level <= 4 ==> ProficiencyIcon(level) == Some(Render(Repeat(CheckCircle, level)))
    ensures level <= 3 ==> DoomedIcon(level) == Some(Render(Repeat(Skull, level) + Repeat(OpenCircle, 3 - level)))
    ensures level <= 3 ==> HeroPointsIcon(level) == Some(Render(Repeat(HospitalSymbol, level) + Repeat(OpenCircle, 3 - level)))
  {
    if 1 <= level <= 4 {
      RenderUpToFour(Repeat(CheckCircle, level));
    } else if level == 0 {
      assert Repeat(CheckCircle, 0) == [];
    }
    if level <= 3 {
      RenderUpToFour(Repeat(Skull, level) + Repeat(OpenCircle, 3 - level));
      RenderUpToFour(Repeat(HospitalSymbol, level) + Repeat(OpenCircle, 3 - level));
    }
  }

  /* ---------------------------------------------------------------------- */
  /*  Action images                                                          */
  /* ---------------------------------------------------------------------- */

  /** An action image is looked up by an action count or by the name of a non-counted action type. */
  datatype ActionKey = Count(n: int) | Named(name: string)

  function ActionImg(key: ActionKey): (img: Option<string>)
    ensures img.Some? <==> (key.Count? && 0 <= key.n <= 3) || (key.Named? && key.name in {"free", "reaction", "passive"})
  {
    match key
    case Count(n) =>
      if n == 0 then Some("icons/svg/mystery-man.svg")
      else if n == 1 then Some("systems/pf2e/icons/actions/OneAction.png")
      else if n == 2 then Some("systems/pf2e/icons/actions/TwoActions.png")
      else if n == 3 then Some("systems/pf2e/icons/actions/ThreeActions.png")
      else None
    case Named(name) =>
      if name == "free" then Some("systems/pf2e/icons/actions/FreeAction.png")
      else if name == "reaction" then Some("systems/pf2e/icons/actions/Reaction.png")
      else if name == "passive" then Some("systems/pf2e/icons/actions/Passive.png")
      else None
  }
}
