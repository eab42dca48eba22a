/**
 * Model of controllers/items.js: the module-level list of items, mutated in place, and the
 * scans over it. `ItemStore` holds the list; the functions before it give the meaning of
 * each operation on a plain sequence, and the lemmas state what the operations keep.
 */
module ItemsController {
  import opened Wrappers

  datatype Item = Item(id: int, name: string, description: string)

  /** The request body handed to `addItem`; a client-supplied `id` overrides the allocated one. */
  datatype ItemData = ItemData(id: Option<int>, name: string, description: string)

  predicate HasId(s: seq<Item>, id: int) {
    exists k :: 0 <= k < |s| && s[k].id == id
  }

  predicate DistinctIds(s: seq<Item>) {
    forall i, j :: 0 <= i < j < |s| ==> s[i].id != s[j].id
  }

  function Max(a: int, b: int): int {
    if a < b then b else a
  }

  /** The largest id of a non-empty list. */
  function MaxId(s: seq<Item>): int
    requires |s| > 0
  {
    if |s| == 1 then s[0].id else Max(MaxId(s[..|s| - 1]), s[|s| - 1].id)
  }

  lemma {:induction false} MaxIdIsMax(s: seq<Item>)
    requires |s| > 0
    ensures forall k :: 0 <= k < |s| ==> s[k].id <= MaxId(s)
    ensures exists k :: 0 <= k < |s| && s[k].id == MaxId(s)
  {
    if |s| > 1 {
      var init := s[..|s| - 1];
      MaxIdIsMax(init);
      assert forall k :: 0 <= k < |init| ==> s[k] == init[k];
      var w :| 0 <= w < |init| && init[w].id == MaxId(init);
      var top := if MaxId(init) < s[|s| - 1].id then |s| - 1 else w;
      assert s[top].id == MaxId(s);
    } else {
      assert s[0].id == MaxId(s);
    }
  }

  /** `getLastId`: 0 for an empty list, otherwise the largest id, which bounds every id and is attained. */
  function LastId(s: seq<Item>): (last: int)
    ensures s == [] ==> last == 0
    ensures forall k :: 0 <= k < |s| ==> s[k].id <= last
    ensures s != [] ==> exists k :: 0 <= k < |s| && s[k].id == last
  {
    if |s| == 0 then 0 else MaxIdIsMax(s); MaxId(s)
  }

  /** `getNewId`: one more than the last id. */
  function NewId(s: seq<Item>): (id: int)
    ensures s == [] ==> id == 1
    ensures forall k :: 0 <= k < |s| ==> s[k].id < id
    ensures s != [] ==> exists k :: 0 <= k < |s| && s[k].id == id - 1
  {
    LastId(s) + 1
  }

  /** The position of the first item with `id`, or -1 when there is none. */
  function IndexOf(s: seq<Item>, id: int): (k: int)
    ensures -1 <= k < |s|
    ensures k == -1 <==> !HasId(s, id)
    ensures k >= 0 ==> s[k].id == id && forall j :: 0 <= j < k ==> s[j].id != id
  {
    if |s| == 0 then -1
    else if s[0].id == id then 0
    else
      var k := IndexOf(s[1..], id);
      assert forall j :: 1 <= j < |s| ==> s[j] == s[1..][j - 1];
      if k == -1 then -1 else k + 1
  }

  /** `find`: the first item with `id`. */
  function FirstWithId(s: seq<Item>, id: int): (r: Option<Item>)
    ensures r.None? <==> !HasId(s, id)
    ensures r.Some? ==> r.value.id == id && r.value == s[IndexOf(s, id)]
  {
    var k := IndexOf(s, id);
    if k == -1 then None else Some(s[k])
  }

  /** The item `addItem` builds: the allocated id unless the data carries its own. */
  function NewItem(s: seq<Item>, data: ItemData): (item: Item)
    ensures item.name == data.name && item.description == data.description
    ensures data.id.None? ==> item.id == NewId(s) && !HasId(s, item.id)
    ensures data.id.Some? ==> item.id == data.id.value
  {
    Item(if data.id.Some? then data.id.value else NewId(s), data.name, data.description)
  }

  /** The list after renaming and redescribing the item at position `k`. */
  function Renamed(s: seq<Item>, k: int, name: string, description: string): (t: seq<Item>)
    requires 0 <= k < |s|
    ensures |t| == |s|
    ensures t[k] == Item(s[k].id, name, description)
    ensures forall j :: 0 <= j < |s| && j != k ==> t[j] == s[j]
  {
    s[k := s[k].(name := name, description := description)]
  }

  /** The list after `splice(k, 1)`. */
  function Removed(s: seq<Item>, k: int): (t: seq<Item>)
    requires 0 <= k < |s|
    ensures |t| == |s| - 1
    ensures forall j :: 0 <= j < k ==> t[j] == s[j]
    ensures forall j :: k <= j < |t| ==> t[j] == s[j + 1]
  {
    s[..k] + s[k + 1..]
  }

  /** With no client-supplied id, the new item is found at the end of the list under its id. */
  lemma {:induction false} AddedItemFound(s: seq<Item>, data: ItemData)
    requires data.id.None?
    ensures IndexOf(s + [NewItem(s, data)], NewItem(s, data).id) == |s|
    ensures FirstWithId(s + [NewItem(s, data)], NewItem(s, data).id) == Some(NewItem(s, data))
  {
    var t := s + [NewItem(s, data)];
    assert t[|s|].id == NewItem(s, data).id;
    forall j | 0 <= j < |s| ensures t[j].id != NewItem(s, data).id {
      assert t[j] == s[j];
    }
  }

  /** Adding without a client id keeps ids distinct. */
  lemma AddKeepsDistinct(s: seq<Item>, data: ItemData)
    requires DistinctIds(s) && data.id.None?
    ensures DistinctIds(s + [NewItem(s, data)])
  {
    var t := s + [NewItem(s, data)];
    forall i, j | 0 <= i < j < |t| ensures t[i].id != t[j].id {
      assert t[i] == s[i];
      if j < |s| { assert t[j] == s[j]; }
    }
  }

  /** A client id already in the list is accepted as it is, so two items then share it. */
  lemma ClientIdCanDuplicate(s: seq<Item>, data: ItemData)
    requires data.id.Some? && HasId(s, data.id.value)
    ensures !DistinctIds(s + [NewItem(s, data)])
  {
    var t := s + [NewItem(s, data)];
    var k :| 0 <= k < |s| && s[k].id == data.id.value;
    assert t[k] == s[k] && t[|s|].id == data.id.value;
  }

  /** Renaming keeps every id in place, so distinct ids stay distinct and the renamed item is still found first. */
  lemma RenameKeepsIds(s: seq<Item>, id: int, name: string, description: string)
    requires IndexOf(s, id) >= 0
    ensures forall j :: 0 <= j < |s| ==> Renamed(s, IndexOf(s, id), name, description)[j].id == s[j].id
    ensures DistinctIds(s) ==> DistinctIds(Renamed(s, IndexOf(s, id), name, description))
    ensures IndexOf(Renamed(s, IndexOf(s, id), name, description), id) == IndexOf(s, id)
  {
    var k := IndexOf(s, id);
    var t := Renamed(s, k, name, description);
    assert t[k].id == id;
    assert forall j :: 0 <= j < k ==> t[j].id != id;
  }

  /** Removing an item keeps distinct ids distinct and removes nothing else. */
  lemma RemoveKeepsDistinct(s: seq<Item>, k: int)
    requires 0 <= k < |s| && DistinctIds(s)
    ensures DistinctIds(Removed(s, k))
  {
    var t := Removed(s, k);
    forall i, j | 0 <= i < j < |t| ensures t[i].id != t[j].id {
      var i' := if i < k then i else i + 1;
      var j' := if j < k then j else j + 1;
      assert t[i] == s[i'] && t[j] == s[j'] && i' < j';
    }
  }

  /** Removal takes out exactly one occurrence of the removed item. */
  lemma RemoveIsOneLess(s: seq<Item>, k: int)
    requires 0 <= k < |s|
    ensures multiset(Removed(s, k)) + multiset{s[k]} == multiset(s)
  {
    assert s == s[..k] + [s[k]] + s[k + 1..];
  }

  /** With distinct ids, deleting the first match leaves no item with that id. */
  lemma RemoveFirstMatchErasesId(s: seq<Item>, id: int)
    requires DistinctIds(s) && IndexOf(s, id) >= 0
    ensures !HasId(Removed(s, IndexOf(s, id)), id)
  {
    var k := IndexOf(s, id);
    var t := Removed(s, k);
    forall j | 0 <= j < |t| ensures t[j].id != id {
      if j >= k { assert t[j] == s[j + 1]; assert s[k].id != s[j + 1].id; }
    }
  }

  /** The in-memory list of items. */
  class ItemStore {
    var items: seq<Item>

    /** The initial contents come from the item model, which is not part of this model. */
    constructor (initial: seq<Item>)
      ensures items == initial
    {
      items := initial;
    }

    /** `getLastId`: scans the ids for their maximum, 0 on an empty list. */
    method GetLastId() returns (last: int)
      ensures last == LastId(items)
      ensures items == [] ==> last == 0
      ensures forall k :: 0 <= k < |items| ==> items[k].id <= last
      ensures items != [] ==> exists k :: 0 <= k < |items| && items[k].id == last
    {
      if |items| == 0 {
        return 0;
      }
      last := items[0].id;
      var i := 1;
      while i < |items|
        invariant 1 <= i <= |items|
        invariant last == MaxId(items[..i])
      {
        assert items[..i + 1][..i] == items[..i];
        last := Max(last, items[i].id);
        i := i + 1;
      }
      assert items[..i] == items;
      MaxIdIsMax(items);
    }

    /** `getNewId`: one more than the last id, so larger than every id in the list. */
    method GetNewId() returns (id: int)
      ensures id == NewId(items)
      ensures items == [] ==> id == 1
      ensures forall k :: 0 <= k < |items| ==> items[k].id < id
    {
      var last := GetLastId();
      id := last + 1;
    }

    /** `getAllItems`: the list itself. */
    method GetAllItems() returns (all: seq<Item>)
      ensures all == items
    {
      all := items;
    }

    /** `findItemPostionById`: the index of the first item with `id`, -1 if none. */
    method FindItemPositionById(id: int) returns (pos: int)
      ensures pos == IndexOf(items, id)
      ensures pos == -1 <==> !HasId(items, id)
      ensures pos >= 0 ==> pos < |items| && items[pos].id == id && forall j :: 0 <= j < pos ==> items[j].id != id
    {
      var i := 0;
      while i < |items|
        invariant 0 <= i <= |items|
        invariant forall j :: 0 <= j < i ==> items[j].id != id
      {
        if items[i].id == id {
          return i;
        }
        i := i + 1;
      }
      return -1;
    }

    /** `getItemById`: the first item with `id`, if any. */
    method GetItemById(id: int) returns (found: Option<Item>)
      ensures found == FirstWithId(items, id)
      ensures found.None? <==> !HasId(items, id)
      ensures found.Some? ==> found.value.id == id
    {
      var i := 0;
      while i < |items|
        invariant 0 <= i <= |items|
        invariant forall j :: 0 <= j < i ==> items[j].id != id
      {
        if items[i].id == id {
          return Some(items[i]);
        }
        i := i + 1;
      }
      return None;
    }

    /** `addItem`: appends one item and returns it; earlier items are untouched. */
    method AddItem(data: ItemData) returns (item: Item)
      modifies this
      ensures item == NewItem(old(items), data)
      ensures items == old(items) + [item]
      ensures data.id.None? ==> forall k :: 0 <= k < |old(items)| ==> old(items)[k].id < item.id
      ensures data.id.None? && DistinctIds(old(items)) ==> DistinctIds(items)
    {
      var id := GetNewId();
      item := Item(if data.id.Some? then data.id.value else id, data.name, data.description);
      if data.id.None? && DistinctIds(items) {
        AddKeepsDistinct(items, data);
      }
      items := items + [item];
    }

    /** `updateItem`: renames the first item with `id` in place and returns it, or returns nothing and changes nothing. */
    method UpdateItem(id: int, name: string, description: string) returns (updated: Option<Item>)
      modifies this
      ensures updated.None? <==> !HasId(old(items), id)
      ensures updated.None? ==> items == old(items)
      ensures updated.Some? ==> items == Renamed(old(items), IndexOf(old(items), id), name, description)
      ensures updated.Some? ==> updated.value == Item(id, name, description) && updated.value == items[IndexOf(old(items), id)]
      ensures DistinctIds(old(items)) ==> DistinctIds(items)
    {
      var k := FindItemPositionById(id);
      if k == -1 {
        return None;
      }
      RenameKeepsIds(items, id, name, description);
      items := Renamed(items, k, name, description);
      updated := Some(items[k]);
    }

    /** `deleteItem`: splices out the first item with `id` and reports whether there was one. */
    method DeleteItem(id: int) returns (deleted: bool)
      modifies this
      ensures deleted <==> HasId(old(items), id)
      ensures !deleted ==> items == old(items)
      ensures deleted ==> items == Removed(old(items), IndexOf(old(items), id))
      ensures deleted ==> |items| == |old(items)| - 1
      ensures DistinctIds(old(items)) ==> DistinctIds(items)
      ensures deleted && DistinctIds(old(items)) ==> !HasId(items, id)
    {
      var k := FindItemPositionById(id);
      if k == -1 {
        return false;
      }
      if DistinctIds(items) {
        RemoveKeepsDistinct(items, k);
        RemoveFirstMatchErasesId(items, id);
      }
      items := Removed(items, k);
      deleted := true;
    }
  }
}
