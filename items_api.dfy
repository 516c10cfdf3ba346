/**
 * The in-memory item store of the FastAPI example: a list of items that the
 * endpoints list, look up, append to, overwrite in place and pop from.
 */
module ItemsApi {
  import opened Results

  /** An item record; `price` is carried as data and never computed on. */
  datatype Item = Item(id: int, name: string, description: Option<string>, price: real, inStock: bool)

  /** The HTTP errors the endpoints raise, each naming the requested id. */
  datatype ApiError = NotFound(itemId: int) | AlreadyExists(itemId: int)

  function StatusCode(e: ApiError): int {
    match e
    case NotFound(_) => 404
    case AlreadyExists(_) => 400
  }

  /** The three items the store starts with. */
  function InitialItems(): seq<Item> {
    [ Item(1, "Laptop", Some("High-performance laptop"), 999.99, true),
      Item(2, "Mouse", Some("Wireless mouse"), 29.99, true),
      Item(3, "Keyboard", Some("Mechanical keyboard"), 89.99, false) ]
  }

  ghost predicate DistinctIds(s: seq<Item>) {
    forall i, j :: 0 <= i < j < |s| ==> s[i].id != s[j].id
  }

  /** The duplicate check of `create_item`: some item already carries `id`. */
  predicate HasId(s: seq<Item>, id: int) {
    exists k :: 0 <= k < |s| && s[k].id == id
  }

  /** Index of the first item whose id is `id`, as the `enumerate` loops find it. */
  function FindItem(s: seq<Item>, id: int): (r: Option<nat>)
    ensures r.Some? ==> r.value < |s| && s[r.value].id == id
    ensures r.Some? ==> forall j :: 0 <= j < r.value ==> s[j].id != id
    ensures r.None? <==> !HasId(s, id)
  {
    if s == [] then None
    else if s[0].id == id then Some(0)
    else
      match FindItem(s[1..], id)
      case Some(i) => Some(i + 1)
      case None => None
  }

  /** The comprehension of `list_items`: the items whose stock flag is `inStock`, in store order. */
  function Filter(s: seq<Item>, inStock: bool): (r: seq<Item>)
    ensures forall x :: x in r <==> x in s && x.inStock == inStock
    ensures |r| <= |s|
  {
    if s == [] then []
    else
      assert s == [s[0]] + s[1..];
      (if s[0].inStock == inStock then [s[0]] else []) + Filter(s[1..], inStock)
  }

  /** Filtering a concatenation filters each part and keeps them in order. */
  lemma {:induction false} FilterAppend(s: seq<Item>, t: seq<Item>, inStock: bool)
    ensures Filter(s + t, inStock) == Filter(s, inStock) + Filter(t, inStock)
  {
    if s == [] {
      assert s + t == t;
    } else {
      var head := if s[0].inStock == inStock then [s[0]] else [];
      assert (s + t)[0] == s[0] && (s + t)[1..] == s[1..] + t;
      FilterAppend(s[1..], t, inStock);
      calc {
        Filter(s + t, inStock);
        head + Filter(s[1..] + t, inStock);
        head + (Filter(s[1..], inStock) + Filter(t, inStock));
        (head + Filter(s[1..], inStock)) + Filter(t, inStock);
      }
    }
  }

  /** The filter keeps every copy of a matching item and no copy of any other. */
  lemma {:induction false} FilterCounts(s: seq<Item>, inStock: bool, x: Item)
    ensures multiset(Filter(s, inStock))[x] == if x.inStock == inStock then multiset(s)[x] else 0
  {
    if s != [] {
      assert s == [s[0]] + s[1..];
      FilterCounts(s[1..], inStock, x);
    }
  }

  lemma InitialIdsDistinct()
    ensures DistinctIds(InitialItems())
    ensures forall k :: 0 <= k < |InitialItems()| ==> InitialItems()[k].id == k + 1
  {
  }

  /** Overwriting the first item with id `id` by an item with the same id keeps ids distinct. */
  lemma UpdateKeepsIdsDistinct(s: seq<Item>, id: int, updated: Item)
    requires DistinctIds(s) && HasId(s, id) && updated.id == id
    ensures DistinctIds(s[FindItem(s, id).value := updated])
  {
  }

  /**
   * The update does not compare the new item's id with the path id: a new
   * item carrying the id of another stored item duplicates that id.
   */
  lemma UpdateCanDuplicateIds(s: seq<Item>, id: int, updated: Item)
    requires DistinctIds(s) && HasId(s, id) && updated.id != id && HasId(s, updated.id)
    ensures !DistinctIds(s[FindItem(s, id).value := updated])
  {
    var i := FindItem(s, id).value;
    var j := FindItem(s, updated.id).value;
    var t := s[i := updated];
    assert t[i].id == t[j].id && i != j;
    if i < j {
      assert !(t[i].id != t[j].id);
    } else {
      assert !(t[j].id != t[i].id);
    }
  }

  /** With distinct ids, once the first item with id `id` is removed, no item with that id is left. */
  lemma {:induction false} DeleteThenNotFound(s: seq<Item>, id: int)
    requires DistinctIds(s) && HasId(s, id)
    ensures FindItem(s[..FindItem(s, id).value] + s[FindItem(s, id).value + 1..], id) == None
    ensures DistinctIds(s[..FindItem(s, id).value] + s[FindItem(s, id).value + 1..])
  {
    var i := FindItem(s, id).value;
    var rest := s[..i] + s[i + 1..];
    forall k | 0 <= k < |rest|
      ensures rest[k].id != id
    {
      if k < i {
        assert rest[k] == s[k];
      } else {
        assert rest[k] == s[k + 1];
      }
    }
    forall a, b | 0 <= a < b < |rest|
      ensures rest[a].id != rest[b].id
    {
      var a' := if a < i then a else a + 1;
      var b' := if b < i then b else b + 1;
      assert rest[a] == s[a'] && rest[b] == s[b'];
    }
  }

  /** The module-level `items_db` list. */
  class ItemStore {
    var items: seq<Item>

    constructor ()
      ensures items == InitialItems()
      ensures DistinctIds(items)
    {
      items := InitialItems();
    }

    /**
     * `list_items`: without a filter the whole store, otherwise exactly the
     * items whose stock flag equals the filter, in store order (FilterAppend)
     * and each as often as in the store (FilterCounts).
     */
    function ListItems(inStock: Option<bool>): (r: seq<Item>)
      reads this
      ensures inStock.None? ==> r == items
      ensures inStock.Some? ==> forall x :: x in r <==> x in items && x.inStock == inStock.value
      ensures inStock.Some? ==> r == Filter(items, inStock.value)
    {
      match inStock
      case None => items
      case Some(b) => Filter(items, b)
    }

    /** `get_item`: the first item with id `itemId`, or 404. */
    method GetItem(itemId: int) returns (r: Result<Item, ApiError>)
      ensures r.Success? <==> HasId(items, itemId)
      ensures r.Success? ==> r.value.id == itemId && r.value == items[FindItem(items, itemId).value]
      ensures r.Failure? ==> r.error == NotFound(itemId) && StatusCode(r.error) == 404
    {
      var k := 0;
      while k < |items|
        invariant 0 <= k <= |items|
        invariant forall j :: 0 <= j < k ==> items[j].id != itemId
      {
        if items[k].id == itemId {
          return Success(items[k]);
        }
        k := k + 1;
      }
      return Failure(NotFound(itemId));
    }

    /** `create_item`: 400 when the id is taken, otherwise appends the item. */
    method CreateItem(item: Item) returns (r: Result<Item, ApiError>)
      modifies this
      ensures HasId(old(items), item.id) ==> r == Failure(AlreadyExists(item.id)) && items == old(items)
      ensures r.Failure? ==> StatusCode(r.error) == 400
      ensures !HasId(old(items), item.id) ==> r == Success(item) && items == old(items) + [item]
      ensures DistinctIds(old(items)) ==> DistinctIds(items)
    {
      if HasId(items, item.id) {
        return Failure(AlreadyExists(item.id));
      }
      items := items + [item];
      return Success(item);
    }

    /** `update_item`: overwrites the first item with id `itemId` in place, or 404. */
    method UpdateItem(itemId: int, updated: Item) returns (r: Result<Item, ApiError>)
      modifies this
      ensures HasId(old(items), itemId) ==>
        items == old(items)[FindItem(old(items), itemId).value := updated] && r == Success(updated)
      ensures !HasId(old(items), itemId) ==> items == old(items) && r == Failure(NotFound(itemId))
      ensures r.Failure? ==> StatusCode(r.error) == 404
      ensures |items| == |old(items)|
    {
      var k := 0;
      while k < |items|
        invariant 0 <= k <= |items|
        invariant items == old(items)
        invariant forall j :: 0 <= j < k ==> items[j].id != itemId
      {
        if items[k].id == itemId {
          assert FindItem(items, itemId) == Some(k);
          items := items[k := updated];
          return Success(updated);
        }
        k := k + 1;
      }
      return Failure(NotFound(itemId));
    }

    /** `delete_item`: pops the first item with id `itemId`, or 404. */
    method DeleteItem(itemId: int) returns (r: Result<(), ApiError>)
      modifies this
      ensures HasId(old(items), itemId) ==>
        && r.Success?
        && items == old(items)[..FindItem(old(items), itemId).value] + old(items)[FindItem(old(items), itemId).value + 1..]
      ensures !HasId(old(items), itemId) ==> items == old(items) && r == Failure(NotFound(itemId))
      ensures r.Failure? ==> StatusCode(r.error) == 404
      ensures HasId(old(items), itemId) ==> |items| == |old(items)| - 1
    {
      var k := 0;
      while k < |items|
        invariant 0 <= k <= |items|
        invariant items == old(items)
        invariant forall j :: 0 <= j < k ==> items[j].id != itemId
      {
        if items[k].id == itemId {
          assert FindItem(items, itemId) == Some(k);
          items := items[..k] + items[k + 1..];
          return Success(());
        }
        k := k + 1;
      }
      return Failure(NotFound(itemId));
    }
  }

  /** With distinct ids, a successful delete of `itemId` makes the next get of it a 404. */
  method DeleteThenGet(store: ItemStore, itemId: int) returns (deleted: Result<(), ApiError>, got: Result<Item, ApiError>)
    requires DistinctIds(store.items)
    modifies store
    ensures deleted.Success? ==> got == Failure(NotFound(itemId))
    ensures DistinctIds(store.items)
  {
    ghost var before := store.items;
    deleted := store.DeleteItem(itemId);
    if deleted.Success? {
      DeleteThenNotFound(before, itemId);
    }
    got := store.GetItem(itemId);
  }
}
