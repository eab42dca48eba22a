/**
 * Model of routes/items.js: the five item endpoints. Each handler asks the store, then
 * maps the store's answer to a status code and a `{result, message, data}` body. The
 * body schemas of POST and PUT reject a body without `name` or `description` with 400
 * before the handler runs.
 */
module ItemRoutes {
  import opened Wrappers
  import opened ItemsController

  /** The `data` array of a reply: whole items, or records holding only an id. */
  datatype Data = NoData | Items(items: seq<Item>) | Ids(ids: seq<int>)

  /** A handler's JSON body, or the framework's schema-validation error naming the first missing property. */
  datatype Body = Envelope(result: bool, message: string, data: Data) | ValidationError(missingProperty: string)

  datatype Response = Response(status: int, body: Body)

  /** A POST or PUT body as it arrives; any property may be missing. */
  datatype RequestBody = RequestBody(id: Option<int>, name: Option<string>, description: Option<string>)

  const NotFound := Response(404, Envelope(false, "Item not found.", NoData))

  /** The body schema: `name` and `description` are required, checked in that order. */
  function ValidateBody(b: RequestBody): (r: Result<ItemData, Response>)
    ensures r.Ok? <==> b.name.Some? && b.description.Some?
    ensures r.Ok? ==> r.value == ItemData(b.id, b.name.value, b.description.value)
    ensures r.Err? ==> r.error.status == 400
    ensures b.name.None? ==> r == Err(Response(400, ValidationError("name")))
    ensures b.name.Some? && b.description.None? ==> r == Err(Response(400, ValidationError("description")))
  {
    if b.name.None? then Err(Response(400, ValidationError("name")))
    else if b.description.None? then Err(Response(400, ValidationError("description")))
    else Ok(ItemData(b.id, b.name.value, b.description.value))
  }

  /**
   * GET /items/:id after the lookup and PUT /items/:id after the update: 404 when the store
   * answered nothing, otherwise 200 with that item alone and the endpoint's message.
   */
  function ItemReply(found: Option<Item>, message: string): (r: Response)
    ensures r.status == 404 <==> found.None?
    ensures found.None? ==> r == NotFound
    ensures found.Some? ==> r == Response(200, Envelope(true, message, Items([found.value])))
  {
    match found
    case None => NotFound
    case Some(item) => Response(200, Envelope(true, message, Items([item])))
  }

  /** DELETE /items/:id after the deletion: 404 on no match, otherwise the deleted id alone. */
  function DeleteReply(deleted: bool, id: int): (r: Response)
    ensures r.status == 404 <==> !deleted
    ensures !deleted ==> r == NotFound
    ensures deleted ==> r == Response(200, Envelope(true, "Item deleted successfully.", Ids([id])))
  {
    if deleted then Response(200, Envelope(true, "Item deleted successfully.", Ids([id]))) else NotFound
  }

  /** GET /items: 200 with every stored item, in order. */
  method GetItems(store: ItemStore) returns (r: Response)
    ensures r == Response(200, Envelope(true, "Items retrieved successfully.", Items(store.items)))
  {
    var all := store.GetAllItems();
    r := Response(200, Envelope(true, "Items retrieved successfully.", Items(all)));
  }

  /** GET /items/:id: the first item with that id, or 404; the list is not changed. */
  method GetItem(store: ItemStore, id: int) returns (r: Response)
    ensures r.status == 404 <==> !HasId(store.items, id)
    ensures r.status != 404 ==> r == Response(200, Envelope(true, "Item retrieved successfully.", Items([store.items[IndexOf(store.items, id)]])))
  {
    var found := store.GetItemById(id);
    r := ItemReply(found, "Item retrieved successfully.");
  }

  /** POST /items: 400 for an incomplete body, otherwise 201 with the item the store appended. */
  method PostItem(store: ItemStore, body: RequestBody) returns (r: Response)
    modifies store
    ensures ValidateBody(body).Err? ==> r == ValidateBody(body).error && store.items == old(store.items)
    ensures ValidateBody(body).Ok? ==>
              var item := NewItem(old(store.items), ValidateBody(body).value);
              store.items == old(store.items) + [item]
              && r == Response(201, Envelope(true, "Item created successfully.", Items([item])))
  {
    match ValidateBody(body)
    case Err(rejection) =>
      r := rejection;
    case Ok(data) =>
      var item := store.AddItem(data);
      r := Response(201, Envelope(true, "Item created successfully.", Items([item])));
  }

  /** PUT /items/:id: 400 for an incomplete body, 404 for an unknown id, otherwise 200 with the renamed item. */
  method PutItem(store: ItemStore, id: int, body: RequestBody) returns (r: Response)
    modifies store
    ensures ValidateBody(body).Err? ==> r == ValidateBody(body).error && store.items == old(store.items)
    ensures ValidateBody(body).Ok? && !HasId(old(store.items), id) ==> r == NotFound && store.items == old(store.items)
    ensures ValidateBody(body).Ok? && HasId(old(store.items), id) ==>
              store.items == Renamed(old(store.items), IndexOf(old(store.items), id), body.name.value, body.description.value)
              && r == Response(200, Envelope(true, "Item updated successfully.", Items([Item(id, body.name.value, body.description.value)])))
  {
    match ValidateBody(body)
    case Err(rejection) =>
      r := rejection;
    case Ok(data) =>
      var updated := store.UpdateItem(id, data.name, data.description);
      r := ItemReply(updated, "Item updated successfully.");
  }

  /** DELETE /items/:id: 404 for an unknown id, otherwise 200 with the id, the first match spliced out. */
  method DeleteItem(store: ItemStore, id: int) returns (r: Response)
    modifies store
    ensures !HasId(old(store.items), id) ==> r == NotFound && store.items == old(store.items)
    ensures HasId(old(store.items), id) ==>
              store.items == Removed(old(store.items), IndexOf(old(store.items), id))
              && r == Response(200, Envelope(true, "Item deleted successfully.", Ids([id])))
  {
    var deleted := store.DeleteItem(id);
    r := DeleteReply(deleted, id);
  }
}
