/**
 * The hazard sheet: sorting a hazard's items into attack and action groups (each item decorated
 * for the read-only view on the way), the fields `getData` derives, and the template choice.
 */
module HazardSheet {
  import opened Wrappers
  import opened SheetIcons

  /** The label and description shown for one trait; `name` is the source's `label`, a reserved word in Dafny. */
  datatype Trait = Trait(name: string, description: string)

  /** A hazard's owned item, as far as the sheet reads and decorates it. */
  datatype HazardItem = HazardItem(
    id: string,
    kind: string,                       // type
    img: Option<string>,
    weaponType: Option<string>,         // data.weaponType.value
    traitValues: Option<seq<string>>,   // data.traits.value
    bonusValue: Option<int>,            // data.bonus.value, parsed (None when not a number)
    bonusTotal: Option<int>,            // data.bonus.total, set for melee items
    isAgile: Option<bool>,              // data.isAgile, set for melee items
    actionType: string,                 // data.actionType.value ("" when empty or missing)
    actionsValue: Option<int>,          // data.actions.value, parsed
    traits: Option<seq<Trait>>)         // the formatted traits, set for melee and action items

  /** The configuration's trait labels and descriptions, by trait key. */
  datatype TraitTables = TraitTables(weaponTraits: map<string, string>, descriptions: map<string, string>)

  /* ---------------------------------------------------------------------- */
  /*  Trait labels                                                           */
  /* ---------------------------------------------------------------------- */

  /** Upper-cases an ASCII letter; other characters stay. */
  function UpperChar(c: char): (u: char)
    ensures 'a' <= c <= 'z' ==> 'A' <= u <= 'Z' && u as int == c as int - 32
    ensures !('a' <= c <= 'z') ==> u == c
  {
    if 'a' <= c <= 'z' then (c as int - 32) as char else c
  }

  /** `s` with its first character upper-cased. */
  function Capitalized(s: string): (r: string)
    ensures |r| == |s|
    ensures s != [] ==> r[0] == UpperChar(s[0]) && r[1..] == s[1..]
  {
    if s == [] then [] else [UpperChar(s[0])] + s[1..]
  }

  /** The configured weapon-trait label when it is a non-empty string, the capitalized key otherwise. */
  function TraitLabel(t: string, tables: TraitTables): (lbl: string)
    ensures t != "" ==> lbl != ""
  {
    if t in tables.weaponTraits && tables.weaponTraits[t] != "" then tables.weaponTraits[t] else Capitalized(t)
  }

  function TraitFor(t: string, tables: TraitTables): Trait {
    Trait(TraitLabel(t, tables), if t in tables.descriptions then tables.descriptions[t] else "")
  }

  /** One trait per key, in order. */
  function FormattedTraits(values: seq<string>, tables: TraitTables): (ts: seq<Trait>)
    ensures |ts| == |values|
  {
    seq(|values|, j requires 0 <= j < |values| => TraitFor(values[j], tables))
  }

  /** The loop that formats a trait list for the read-only view. */
  method FormatTraits(values: seq<string>, tables: TraitTables) returns (traits: seq<Trait>)
    ensures |traits| == |values|
    ensures forall j :: 0 <= j < |values| ==> traits[j] == TraitFor(values[j], tables)
  {
    traits := [];
    var j := 0;
    while j < |values|
      invariant 0 <= j <= |values|
      invariant |traits| == j
      invariant forall k :: 0 <= k < j ==> traits[k] == TraitFor(values[k], tables)
    {
      var name := if values[j] in tables.weaponTraits && tables.weaponTraits[values[j]] != ""
                   then tables.weaponTraits[values[j]] else Capitalized(values[j]);
      var description := if values[j] in tables.descriptions then tables.descriptions[values[j]] else "";
      traits := traits + [Trait(name, description)];
      j := j + 1;
    }
  }

  /**
   * Each trait key yields exactly one label: the configured label when there is a non-empty one,
   * otherwise the key with its first character upper-cased; the description defaults to "".
   */
  lemma TraitLabelChoice(t: string, tables: TraitTables)
    ensures var tr := TraitFor(t, tables);
      && (t in tables.weaponTraits && tables.weaponTraits[t] != "" ==> tr.name == tables.weaponTraits[t])
      && (!(t in tables.weaponTraits && tables.weaponTraits[t] != "") ==>
            |tr.name| == |t| && (t != "" ==> tr.name[0] == UpperChar(t[0]) && tr.name[1..] == t[1..]))
      && (t !in tables.descriptions ==> tr.description == "")
  {
  }

  /* ---------------------------------------------------------------------- */
  /*  One item                                                               */
  /* ---------------------------------------------------------------------- */

  /** The attack group of a melee item: its weapon type, `melee` when it has none. */
  function WeaponBucket(i: HazardItem): (bucket: string)
    ensures bucket != ""
    ensures i.weaponType.Some? && i.weaponType.value != "" ==> bucket == i.weaponType.value
    ensures i.weaponType.None? || i.weaponType.value == "" ==> bucket == "melee"
  {
    if i.weaponType.Some? && i.weaponType.value != "" then i.weaponType.value else "melee"
  }

  /** The action group of an action item: its action type, `action` when it has none. */
  function ActionBucket(i: HazardItem): (bucket: string)
    ensures bucket != ""
    ensures i.actionType != "" ==> bucket == i.actionType
    ensures i.actionType == "" ==> bucket == "action"
  {
    if i.actionType != "" then i.actionType else "action"
  }

  /** The image key of an action item: the action count (1 when missing or 0) or the action type's name. */
  function ActionImageKey(i: HazardItem): (key: ActionKey)
    ensures ActionBucket(i) == "action" ==> key == Count(if i.actionsValue.None? || i.actionsValue.value == 0 then 1 else i.actionsValue.value)
    ensures ActionBucket(i) in {"reaction", "free", "passive"} ==> key == Named(ActionBucket(i))
  {
    var actionType := ActionBucket(i);
    if actionType == "action" then Count(if i.actionsValue.None? || i.actionsValue.value == 0 then 1 else i.actionsValue.value)
    else if actionType == "reaction" then Named("reaction")
    else if actionType == "free" then Named("free")
    else if actionType == "passive" then Named("passive")
    else Count(0)
  }

  /** An item after the sheet has decorated it. */
  function PreparedItem(i: HazardItem, defaultToken: string, tables: TraitTables): (p: HazardItem)
    ensures p.id == i.id && p.kind == i.kind && p.weaponType == i.weaponType && p.actionType == i.actionType
    ensures p.traitValues == i.traitValues && p.bonusValue == i.bonusValue && p.actionsValue == i.actionsValue
    ensures i.kind != "action" ==> p.img == (if i.img.Some? && i.img.value != "" then i.img else Some(defaultToken))
    ensures i.kind == "action" ==> p.img == ActionImg(ActionImageKey(i))
    ensures i.kind == "melee" ==> p.bonusTotal == Some(i.bonusValue.GetOr(0))
    ensures i.kind == "melee" ==> (p.isAgile == Some(true) <==> i.traitValues.Some? && "agile" in i.traitValues.value)
    ensures i.kind != "melee" ==> p.bonusTotal == i.bonusTotal && p.isAgile == i.isAgile
    ensures i.kind == "melee" || i.kind == "action" ==>
      (p.traits.Some? &&
       |p.traits.value| == |i.traitValues.GetOr([])| + (if i.kind == "action" && i.actionType != "" then 1 else 0))
    ensures i.kind != "melee" && i.kind != "action" ==> p.traits == i.traits
  {
    var withImg := i.(img := if i.img.Some? && i.img.value != "" then i.img else Some(defaultToken));
    var values := i.traitValues.GetOr([]);
    if i.kind == "melee" then
      withImg.(bonusTotal := Some(i.bonusValue.GetOr(0)), isAgile := Some("agile" in values),
               traits := Some(FormattedTraits(values, tables)))
    else if i.kind == "action" then
      withImg.(img := ActionImg(ActionImageKey(i)),
               traits := Some(if i.actionType != "" then FormattedTraits(values, tables) + [TraitFor(i.actionType, tables)]
                             else FormattedTraits(values, tables)))
    else withImg
  }

  /**
   * What decorating an item does: a melee item is agile exactly when its traits include `agile`, its
   * bonus total is the parsed bonus or 0 and it gets one trait per key; an action item takes the image
   * of its action key and gets one trait per key plus, last, its action type's trait when that is set;
   * every item keeps its identity, type and the fields the grouping reads.
   */
  lemma PreparedItemFacts(i: HazardItem, defaultToken: string, tables: TraitTables)
    ensures var p := PreparedItem(i, defaultToken, tables);
      var values := i.traitValues.GetOr([]);
      && p.id == i.id && p.kind == i.kind && p.weaponType == i.weaponType && p.actionType == i.actionType
      && WeaponBucket(p) == WeaponBucket(i) && ActionBucket(p) == ActionBucket(i)
      && (i.kind != "action" ==> p.img == if i.img.Some? && i.img.value != "" then i.img else Some(defaultToken))
      && (i.kind == "melee" ==>
            && p.isAgile == Some("agile" in values)
            && p.bonusTotal == Some(i.bonusValue.GetOr(0))
            && p.traits.Some? && |p.traits.value| == |values|
            && forall j :: 0 <= j < |values| ==> p.traits.value[j] == TraitFor(values[j], tables))
      && (i.kind == "action" ==>
            && p.img == ActionImg(ActionImageKey(i))
            && p.traits.Some?
            && |p.traits.value| == |values| + (if i.actionType != "" then 1 else 0)
            && (forall j :: 0 <= j < |values| ==> p.traits.value[j] == TraitFor(values[j], tables))
            && (i.actionType != "" ==> p.traits.value[|values|] == TraitFor(i.actionType, tables)))
      && (i.kind != "melee" && i.kind != "action" ==> p == i.(img := p.img))
  {
  }

  /* ---------------------------------------------------------------------- */
  /*  Grouping                                                               */
  /* ---------------------------------------------------------------------- */

  datatype AttackGroup = AttackGroup(name: string, items: seq<HazardItem>, groupType: string)
  datatype ActionGroup = ActionGroup(name: string, actions: seq<HazardItem>)

  const AttackKeys := {"melee", "ranged"}
  const ActionKeys := {"action", "reaction", "free", "passive"}

  const EmptyAttacks := map["melee" := AttackGroup("NPC Melee Attack", [], "melee"),
                            "ranged" := AttackGroup("NPC Ranged Attack", [], "melee")]
  const EmptyActions := map["action" := ActionGroup("Actions", []), "reaction" := ActionGroup("Reactions", []),
                            "free" := ActionGroup("Free Actions", []), "passive" := ActionGroup("Passive Actions", [])]

  /** Every melee item names a known attack group and every action item a known action group (the source throws otherwise). */
  predicate GroupsKnown(items: seq<HazardItem>) {
    forall j :: 0 <= j < |items| ==>
      (items[j].kind == "melee" ==> WeaponBucket(items[j]) in AttackKeys) &&
      (items[j].kind == "action" ==> ActionBucket(items[j]) in ActionKeys)
  }

  /** The melee items of attack group `key`, in order. */
  function AttacksOf(items: seq<HazardItem>, key: string): seq<HazardItem> {
    if items == [] then []
    else
      var last := items[|items| - 1];
      AttacksOf(items[..|items| - 1], key) + if last.kind == "melee" && WeaponBucket(last) == key then [last] else []
  }

  /** The action items of action group `key`, in order. */
  function ActionsOf(items: seq<HazardItem>, key: string): seq<HazardItem> {
    if items == [] then []
    else
      var last := items[|items| - 1];
      ActionsOf(items[..|items| - 1], key) + if last.kind == "action" && ActionBucket(last) == key then [last] else []
  }

  /** The number of items of type `kind`. */
  function CountKind(items: seq<HazardItem>, kind: string): nat {
    if items == [] then 0
    else CountKind(items[..|items| - 1], kind) + if items[|items| - 1].kind == kind then 1 else 0
  }

  /** Every item after decoration, in order. */
  function PreparedItems(items: seq<HazardItem>, defaultToken: string, tables: TraitTables): (ps: seq<HazardItem>)
    ensures |ps| == |items|
  {
    seq(|items|, j requires 0 <= j < |items| => PreparedItem(items[j], defaultToken, tables))
  }

  /**
   * An item is in attack group `key` exactly when it is a melee item whose weapon type leads there,
   * and in action group `key` exactly when it is an action item whose action type leads there; items
   * of any other type are in no group.
   */
  lemma {:induction false} GroupMembership(items: seq<HazardItem>, key: string)
    ensures forall x :: x in AttacksOf(items, key) <==> x in items && x.kind == "melee" && WeaponBucket(x) == key
    ensures forall x :: x in ActionsOf(items, key) <==> x in items && x.kind == "action" && ActionBucket(x) == key
    decreases |items|
  {
    if items != [] {
      var init := items[..|items| - 1];
      GroupMembership(init, key);
      assert items == init + [items[|items| - 1]];
    }
  }

  /** No melee or action item is lost or counted twice: the groups' sizes add up to the number of such items. */
  lemma {:induction false} GroupsPartition(items: seq<HazardItem>)
    requires GroupsKnown(items)
    ensures |AttacksOf(items, "melee")| + |AttacksOf(items, "ranged")| == CountKind(items, "melee")
    ensures |ActionsOf(items, "action")| + |ActionsOf(items, "reaction")| + |ActionsOf(items, "free")|
            + |ActionsOf(items, "passive")| == CountKind(items, "action")
    decreases |items|
  {
    if items != [] {
      var init := items[..|items| - 1];
      assert GroupsKnown(init) by {
        forall j | 0 <= j < |init| ensures init[j] == items[j] { }
      }
      GroupsPartition(init);
    }
  }

  /** The hazard actor's data while the sheet prepares it. */
  class HazardActorData {
    var items: seq<HazardItem>
    var attacks: map<string, AttackGroup>
    var actions: map<string, ActionGroup>

    constructor (items: seq<HazardItem>)
      ensures this.items == items && attacks == map[] && actions == map[]
    {
      this.items := items;
      attacks := map[];
      actions := map[];
    }

    /**
     * Decorates every item in place and sorts melee and action items into their groups, in item
     * order. `defaultToken` is the host's default image, `tables` the configured trait texts.
     */
    method PrepareItems(defaultToken: string, tables: TraitTables)
      requires GroupsKnown(items)
      modifies this
      ensures items == PreparedItems(old(items), defaultToken, tables)
      ensures attacks.Keys == AttackKeys && actions.Keys == ActionKeys
      ensures forall k :: k in attacks ==> attacks[k] == EmptyAttacks[k].(items := AttacksOf(items, k))
      ensures forall k :: k in actions ==> actions[k] == EmptyActions[k].(actions := ActionsOf(items, k))
    {
      var prepared, attackGroups, actionGroups := PrepareAndGroup(items, defaultToken, tables);
      items, attacks, actions := prepared, attackGroups, actionGroups;
    }
  }

  /** The loop of `PrepareItems`: decorates each item and pushes it onto its group. */
  method PrepareAndGroup(items: seq<HazardItem>, defaultToken: string, tables: TraitTables)
    returns (done: seq<HazardItem>, attackGroups: map<string, AttackGroup>, actionGroups: map<string, ActionGroup>)
    requires GroupsKnown(items)
    ensures done == PreparedItems(items, defaultToken, tables)
    ensures attackGroups.Keys == AttackKeys && actionGroups.Keys == ActionKeys
    ensures forall k :: k in attackGroups ==> attackGroups[k] == EmptyAttacks[k].(items := AttacksOf(done, k))
    ensures forall k :: k in actionGroups ==> actionGroups[k] == EmptyActions[k].(actions := ActionsOf(done, k))
  {
    attackGroups, actionGroups := EmptyAttacks, EmptyActions;
    done := [];
    var j := 0;
    while j < |items|
      invariant 0 <= j <= |items|
      invariant done == PreparedItems(items[..j], defaultToken, tables)
      invariant attackGroups.Keys == AttackKeys && actionGroups.Keys == ActionKeys
      invariant forall k :: k in attackGroups ==> attackGroups[k] == EmptyAttacks[k].(items := AttacksOf(done, k))
      invariant forall k :: k in actionGroups ==> actionGroups[k] == EmptyActions[k].(actions := ActionsOf(done, k))
    {
      var i := PrepareOne(items[j], defaultToken, tables);
      attackGroups, actionGroups := AddToGroups(attackGroups, actionGroups, done, i);
      PreparedSnoc(items, j, defaultToken, tables);
      done := done + [i];
      j := j + 1;
    }
    assert items[..j] == items;
  }

  /** Pushes a decorated item onto the group it belongs to, if any. */
  method AddToGroups(attackGroups: map<string, AttackGroup>, actionGroups: map<string, ActionGroup>,
                     done: seq<HazardItem>, i: HazardItem)
    returns (attackGroups': map<string, AttackGroup>, actionGroups': map<string, ActionGroup>)
    requires attackGroups.Keys == AttackKeys && actionGroups.Keys == ActionKeys
    requires forall k :: k in attackGroups ==> attackGroups[k] == EmptyAttacks[k].(items := AttacksOf(done, k))
    requires forall k :: k in actionGroups ==> actionGroups[k] == EmptyActions[k].(actions := ActionsOf(done, k))
    requires i.kind == "melee" ==> WeaponBucket(i) in AttackKeys
    requires i.kind == "action" ==> ActionBucket(i) in ActionKeys
    ensures attackGroups'.Keys == AttackKeys && actionGroups'.Keys == ActionKeys
    ensures forall k :: k in attackGroups' ==> attackGroups'[k] == EmptyAttacks[k].(items := AttacksOf(done + [i], k))
    ensures forall k :: k in actionGroups' ==> actionGroups'[k] == EmptyActions[k].(actions := ActionsOf(done + [i], k))
  {
    GroupsSnoc(done, i);
    attackGroups', actionGroups' := attackGroups, actionGroups;
    if i.kind == "melee" {
      var weaponType := WeaponBucket(i);
      attackGroups' := attackGroups[weaponType := attackGroups[weaponType].(items := attackGroups[weaponType].items + [i])];
    } else if i.kind == "action" {
      var actionType := ActionBucket(i);
      actionGroups' := actionGroups[actionType := actionGroups[actionType].(actions := actionGroups[actionType].actions + [i])];
    }
  }

  /** Appending an item extends exactly the group it belongs to. */
  lemma GroupsSnoc(items: seq<HazardItem>, x: HazardItem)
    ensures forall k :: AttacksOf(items + [x], k) == AttacksOf(items, k) + if x.kind == "melee" && WeaponBucket(x) == k then [x] else []
    ensures forall k :: ActionsOf(items + [x], k) == ActionsOf(items, k) + if x.kind == "action" && ActionBucket(x) == k then [x] else []
  {
    assert (items + [x])[..|items|] == items;
  }

  lemma PreparedSnoc(items: seq<HazardItem>, j: nat, defaultToken: string, tables: TraitTables)
    requires j < |items|
    ensures PreparedItems(items[..j + 1], defaultToken, tables)
            == PreparedItems(items[..j], defaultToken, tables) + [PreparedItem(items[j], defaultToken, tables)]
  {
    var longer := PreparedItems(items[..j + 1], defaultToken, tables);
    var shorter := PreparedItems(items[..j], defaultToken, tables);
    forall k | 0 <= k < j
      ensures longer[k] == shorter[k]
    {
      assert items[..j + 1][k] == items[..j][k];
    }
  }

  /** The per-item body of the preparation loop. */
  method PrepareOne(i: HazardItem, defaultToken: string, tables: TraitTables) returns (p: HazardItem)
    ensures p == PreparedItem(i, defaultToken, tables)
    ensures p.kind == i.kind && WeaponBucket(p) == WeaponBucket(i) && ActionBucket(p) == ActionBucket(i)
  {
    p := i.(img := if i.img.Some? && i.img.value != "" then i.img else Some(defaultToken));
    var values := i.traitValues.GetOr([]);
    if i.kind == "melee" {
      var isAgile := "agile" in values;
      p := p.(bonusTotal := Some(i.bonusValue.GetOr(0)), isAgile := Some(isAgile));
      var traits := FormatTraits(values, tables);
      assert traits == FormattedTraits(values, tables);
      p := p.(traits := Some(traits));
    } else if i.kind == "action" {
      p := p.(img := ActionImg(ActionImageKey(i)));
      var traits := FormatTraits(values, tables);
      assert traits == FormattedTraits(values, tables);
      if i.actionType != "" {
        traits := traits + [TraitFor(i.actionType, tables)];
      }
      p := p.(traits := Some(traits));
    }
  }

  /* ---------------------------------------------------------------------- */
  /*  Sheet data                                                             */
  /* ---------------------------------------------------------------------- */

  /** The stealth DC: 10 more than the stealth modifier, which is 0 when missing. */
  function StealthDC(stealthValue: Option<int>): (dc: int)
    ensures stealthValue.None? ==> dc == 10
    ensures stealthValue.Some? ==> dc - stealthValue.value == 10
  {
    stealthValue.GetOr(0) + 10
  }

  /** The broken threshold: half the maximum hit points, rounded down. */
  function BrokenThreshold(hpMax: int): (t: int)
    ensures 2 * t <= hpMax < 2 * t + 2
  {
    hpMax / 2
  }

  /** A text field counts when it is a non-empty string. */
  predicate Truthy(s: Option<string>) {
    s.Some? && s.value != ""
  }

  /** `text || false`: the text itself when it is truthy, `false` (here `None`) otherwise. */
  function TextOrFalse(s: Option<string>): (t: Option<string>)
    ensures t.Some? <==> Truthy(s)
    ensures t.Some? ==> t == s
  {
    if Truthy(s) then s else None
  }

  /** `hasImmunities` as written compares the immunity list with a fresh empty array, which is never the same object. */
  function HasImmunitiesAsWritten(immunities: seq<string>): (b: bool)
    ensures b
  {
    true
  }

  /** A hazard with no immunities is still reported as having some. */
  lemma NoImmunitiesReported()
    ensures HasImmunitiesAsWritten([])
  {
  }

  /** `hasImmunities` as intended: the immunity list is not empty. */
  function HasImmunities(immunities: seq<string>): (b: bool)
    ensures b <==> |immunities| > 0
  {
    immunities != []
  }

  const TemplateDir := "systems/pf2e/templates/actors/"

  /**
   * The editable template when the system-scoped `editHazard` flag (`flags.pf2e.editHazard.value`,
   * the one the edit checkbox writes) is set, the read-only one otherwise.
   */
  function TemplatePath(editHazard: Option<bool>): (path: string)
    ensures path == TemplateDir + "hazard-sheet.html" <==> editHazard == Some(true)
    ensures editHazard != Some(true) ==> path == TemplateDir + "hazard-sheet-no-edit.html"
  {
    if editHazard == Some(true) then TemplateDir + "hazard-sheet.html" else TemplateDir + "hazard-sheet-no-edit.html"
  }

  /** A saving throw of the hazard; `name` is the source's `label` (a reserved word in Dafny), the name the sheet shows. */
  datatype Save = Save(value: int, name: Option<string>)

  /** The unscoped `editHazard` flag object; its `value` may be missing. */
  datatype EditFlag = EditFlag(value: Option<bool>)

  /** The hazard's document, restricted to what `getData` reads. */
  datatype HazardDocument = HazardDocument(
    saves: map<string, Save>,
    editHazard: Option<EditFlag>,     // flags.editHazard, unscoped (None: no flag object)
    stealthValue: Option<int>,
    stealthDetails: Option<string>,
    immunities: seq<string>,          // data.traits.di.value
    description: Option<string>,
    disable: Option<string>,
    routine: Option<string>,
    reset: Option<string>,
    hpDetails: Option<string>,
    hpMax: int)

  /** Every save, named by the configured label for its key (no label when the key is not configured). */
  function LabelledSaves(saves: map<string, Save>, saveLabels: map<string, string>): (r: map<string, Save>)
    ensures r.Keys == saves.Keys
    ensures forall s :: s in r ==> r[s].value == saves[s].value
    ensures forall s :: s in r ==> r[s].name == (if s in saveLabels then Some(saveLabels[s]) else None)
  {
    map s | s in saves :: saves[s].(name := if s in saveLabels then Some(saveLabels[s]) else None)
  }

  /** The loop that labels the saves, one key at a time. */
  method LabelSaves(saves: map<string, Save>, saveLabels: map<string, string>) returns (labelled: map<string, Save>)
    ensures labelled == LabelledSaves(saves, saveLabels)
  {
    labelled := saves;
    var todo := labelled.Keys;
    while todo != {}
      invariant todo <= saves.Keys && labelled.Keys == saves.Keys
      invariant forall s :: s in labelled ==>
        labelled[s] == if s in todo then saves[s]
                       else saves[s].(name := if s in saveLabels then Some(saveLabels[s]) else None)
      decreases todo
    {
      var s :| s in todo;
      labelled := labelled[s := labelled[s].(name := if s in saveLabels then Some(saveLabels[s]) else None)];
      todo := todo - {s};
    }
  }

  /** The data handed to the template, beyond what the host's sheet already provides. */
  datatype SheetData = SheetData(
    saves: map<string, Save>,
    editHazard: EditFlag,
    stealthDC: int,
    hasStealthDescription: Option<string>,   // text or false (None)
    hasImmunities: bool,
    hasDescription: Option<string>,
    hasDisable: Option<string>,
    hasRoutineDetails: Option<string>,
    hasResetDetails: Option<string>,
    hasHPDetails: Option<string>,
    hasWillSave: bool,
    brokenThreshold: int)

  /**
   * Builds the template data from the hazard's document. `saveLabels` are the configured save
   * names. The unscoped `editHazard` flag object defaults to one whose value is off (the template
   * itself is chosen by the system-scoped flag, see `TemplatePath`); `hasImmunities` is as written,
   * so always on; `hasWillSave` requires a `will` save with a
   * non-zero value.
   */
  method GetData(doc: HazardDocument, saveLabels: map<string, string>) returns (d: SheetData)
    ensures d.saves == LabelledSaves(doc.saves, saveLabels)
    ensures doc.editHazard.None? ==> d.editHazard == EditFlag(Some(false))
    ensures doc.editHazard.Some? ==> d.editHazard == doc.editHazard.value
    ensures d.stealthDC == StealthDC(doc.stealthValue)
    ensures d.hasStealthDescription == TextOrFalse(doc.stealthDetails)
    ensures d.hasImmunities == HasImmunitiesAsWritten(doc.immunities)
    ensures d.hasDescription == TextOrFalse(doc.description) && d.hasDisable == TextOrFalse(doc.disable)
    ensures d.hasRoutineDetails == TextOrFalse(doc.routine) && d.hasResetDetails == TextOrFalse(doc.reset)
    ensures d.hasHPDetails == TextOrFalse(doc.hpDetails)
    ensures d.hasWillSave == ("will" in doc.saves && doc.saves["will"].value != 0)
    ensures d.brokenThreshold == BrokenThreshold(doc.hpMax)
  {
    var saves := LabelSaves(doc.saves, saveLabels);
    var editHazard := if doc.editHazard.None? then EditFlag(Some(false)) else doc.editHazard.value;
    d := SheetData(
      saves := saves,
      editHazard := editHazard,
      stealthDC := StealthDC(doc.stealthValue),
      hasStealthDescription := TextOrFalse(doc.stealthDetails),
      hasImmunities := HasImmunitiesAsWritten(doc.immunities),
      hasDescription := TextOrFalse(doc.description),
      hasDisable := TextOrFalse(doc.disable),
      hasRoutineDetails := TextOrFalse(doc.routine),
      hasResetDetails := TextOrFalse(doc.reset),
      hasHPDetails := TextOrFalse(doc.hpDetails),
      hasWillSave := "will" in doc.saves && doc.saves["will"].value != 0,
      brokenThreshold := BrokenThreshold(doc.hpMax));
  }
}
