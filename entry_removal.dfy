/**
 * Removing a spellcasting entry removes its spells with it: the sheet collects, in item order, the
 * ids of the spell items whose location is the removed entry.
 */
module EntryRemoval {
  import opened Wrappers

  /** An owned item, as far as the cascade reads it. */
  datatype OwnedItem = OwnedItem(id: string, kind: string, location: Option<string>)

  /** Is this item a spell cast from entry `entryId`? */
  predicate CastFrom(item: OwnedItem, entryId: string) {
    item.kind == "spell" && item.location == Some(entryId)
  }

  /** The ids of the spells cast from `entryId`, in item order. */
  function DependentSpells(items: seq<OwnedItem>, entryId: string): seq<string> {
    if items == [] then []
    else
      var last := items[|items| - 1];
      DependentSpells(items[..|items| - 1], entryId) + (if CastFrom(last, entryId) then [last.id] else [])
  }

  /** The loop that collects the ids to delete before the entry itself is deleted. */
  method SpellsToDelete(items: seq<OwnedItem>, entryId: string) returns (itemsToDelete: seq<string>)
    ensures itemsToDelete == DependentSpells(items, entryId)
  {
    itemsToDelete := [];
    var j := 0;
    while j < |items|
      invariant 0 <= j <= |items|
      invariant itemsToDelete == DependentSpells(items[..j], entryId)
    {
      assert items[..j + 1][..j] == items[..j];
      if items[j].kind == "spell" {
        if items[j].location == Some(entryId) {
          itemsToDelete := itemsToDelete + [items[j].id];
        }
      }
      j := j + 1;
    }
    assert items[..|items|] == items;
  }

  /**
   * Exactly the spells cast from the entry are selected: an id is selected if and only if some spell
   * item with that id has the entry as its location; no more ids than items.
   */
  lemma {:induction false} DependentSpellsExact(items: seq<OwnedItem>, entryId: string)
    ensures |DependentSpells(items, entryId)| <= |items|
    ensures forall id :: id in DependentSpells(items, entryId) <==>
      exists j :: 0 <= j < |items| && CastFrom(items[j], entryId) && items[j].id == id
    decreases |items|
  {
    if items != [] {
      var init := items[..|items| - 1];
      DependentSpellsExact(init, entryId);
      forall id | (exists j :: 0 <= j < |items| && CastFrom(items[j], entryId) && items[j].id == id)
        ensures id in DependentSpells(items, entryId)
      {
        var j :| 0 <= j < |items| && CastFrom(items[j], entryId) && items[j].id == id;
        if j < |items| - 1 {
          assert init[j] == items[j];
        }
      }
      forall id | id in DependentSpells(items, entryId)
        ensures exists j :: 0 <= j < |items| && CastFrom(items[j], entryId) && items[j].id == id
      {
        if id in DependentSpells(init, entryId) {
          var j :| 0 <= j < |init| && CastFrom(init[j], entryId) && init[j].id == id;
          assert items[j] == init[j];
        } else {
          assert CastFrom(items[|items| - 1], entryId) && items[|items| - 1].id == id;
        }
      }
    }
  }

  /** Selecting from two item lists in turn gives the two selections one after the other: item order is kept. */
  lemma {:induction false} DependentSpellsAppend(a: seq<OwnedItem>, b: seq<OwnedItem>, entryId: string)
    ensures DependentSpells(a + b, entryId) == DependentSpells(a, entryId) + DependentSpells(b, entryId)
    decreases |b|
  {
    if b == [] {
      assert a + b == a;
    } else {
      assert (a + b)[..|a + b| - 1] == a + b[..|b| - 1];
      DependentSpellsAppend(a, b[..|b| - 1], entryId);
    }
  }
}
