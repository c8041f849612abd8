/** The in-memory item list: a process-wide list of `Item`s that requests
    append to, page through and index into. The list is passed in and the
    updated list returned. */
module Items {
  import opened Wrappers
  import opened Errors
  import opened Decimal
  import opened Separators

  /** An item: optional text and a done flag. */
  datatype Item = Item(text: Option<string>, isDone: bool)

  /** `Item()`: no text, not done. */
  const DefaultItem := Item(None, false)

  datatype ItemFields = ItemFields(text: Option<Option<string>>, isDone: Option<bool>)

  /** Builds an `Item` from its fields; both have defaults, so this never fails. */
  function ValidateItem(f: ItemFields): (it: Item)
    ensures f.text.Some? ==> it.text == f.text.value
    ensures f.text.None? ==> it.text == None
    ensures f.isDone.Some? ==> it.isDone == f.isDone.value
    ensures f.isDone.None? ==> !it.isDone
  {
    Item(f.text.GetOr(None), f.isDone.GetOr(false))
  }

  function ItemToFields(it: Item): ItemFields {
    ItemFields(Some(it.text), Some(it.isDone))
  }

  lemma ItemRoundTrip(it: Item)
    ensures ValidateItem(ItemToFields(it)) == it
  {
  }

  /** `POST /items`: appends the item and answers with the whole list. */
  function CreateItem(items: seq<Item>, item: Item): (r: (seq<Item>, seq<Item>))
    ensures r.1 == r.0
    ensures |r.0| == |items| + 1
    ensures forall i :: 0 <= i < |items| ==> r.0[i] == items[i]
    ensures r.0[|items|] == item
  {
    var updated := items + [item];
    (updated, updated)
  }

  const DefaultLimit := 10

  /** Whether position `i` of a list of length `n` lies in the Python slice
      `[0:limit]`: a non-negative limit counts from the front, a negative
      one drops that many positions from the back. */
  predicate InSlice(i: nat, limit: int, n: nat) {
    i < n && (if limit >= 0 then i < limit else i < n + limit)
  }

  /** The end index Python computes for `[0:limit]` on a list of length `n`. */
  function SliceEnd(limit: int, n: nat): nat {
    if limit >= 0 then (if limit < n then limit else n)
    else if n + limit > 0 then n + limit else 0
  }

  /** `GET /items?limit=`: `items[0:limit]`; the list itself is untouched. */
  function ListItems(items: seq<Item>, limit: int): (r: seq<Item>)
    ensures |r| <= |items| && r == items[..|r|]
    ensures forall i: nat :: i < |items| ==> (i < |r| <==> InSlice(i, limit, |items|))
  {
    items[..SliceEnd(limit, |items|)]
  }

  /** The default page is the first ten items, or all of them when fewer. */
  lemma ListDefault(items: seq<Item>)
    ensures |items| <= DefaultLimit ==> ListItems(items, DefaultLimit) == items
    ensures |items| > DefaultLimit ==> ListItems(items, DefaultLimit) == items[..DefaultLimit]
  {
  }

  /** A negative limit at least as long as the list gives the empty page. */
  lemma ListNegativeEmpty(items: seq<Item>, limit: int)
    requires limit < 0 && |items| + limit <= 0
    ensures ListItems(items, limit) == []
  {
  }

  /** Appending does not change a page whose limit lies between 0 and the
      old length. */
  lemma ListAfterCreate(items: seq<Item>, item: Item, limit: int)
    requires 0 <= limit <= |items|
    ensures ListItems(CreateItem(items, item).0, limit) == ListItems(items, limit)
  {
    var updated := CreateItem(items, item).0;
    assert updated[..limit] == items[..limit];
  }

  const NotFoundStart := "Item "
  const NotFoundEnd := " not found"

  /** The 404 detail: "Item ", the id in decimal, then " not found". */
  function NotFoundDetail(id: int): string {
    NotFoundStart + IntToString(id) + NotFoundEnd
  }

  /** Reads the id back out of a not-found detail. */
  function ParseNotFound(detail: string): Option<int> {
    if StartsWith(detail, NotFoundStart) && EndsWith(detail, NotFoundEnd)
       && |NotFoundStart| <= |detail| - |NotFoundEnd|
    then ParseInt(detail[|NotFoundStart|..|detail| - |NotFoundEnd|])
    else None
  }

  lemma NotFoundRoundTrip(id: int)
    ensures ParseNotFound(NotFoundDetail(id)) == Some(id)
  {
    var digits := IntToString(id);
    var detail := NotFoundDetail(id);
    assert detail[..|NotFoundStart|] == NotFoundStart;
    assert detail[|detail| - |NotFoundEnd|..] == NotFoundEnd;
    assert detail[|NotFoundStart|..|detail| - |NotFoundEnd|] == digits;
  }

  /** `GET /items/{id}`: the item at `id` when it is a position of the list,
      otherwise 404 naming the id (negative ids included; no Python-style
      indexing from the end). */
  function GetItem(items: seq<Item>, id: int): (r: Result<Item, ErrorResponse>)
    ensures r.Ok? <==> 0 <= id < |items|
    ensures r.Ok? ==> r.value == items[id]
    ensures r.Err? ==> r.error == HttpException(404, NotFoundDetail(id))
    ensures r.Err? ==> r.error.Status() == 404 && ParseNotFound(r.error.detail) == Some(id)
  {
    if 0 <= id < |items| then Ok(items[id])
    else
      NotFoundRoundTrip(id);
      Err(HttpException(404, NotFoundDetail(id)))
  }

  /** A created item is found at the old length, and the earlier items are
      still found where they were. */
  lemma GetAfterCreate(items: seq<Item>, item: Item, id: int)
    ensures GetItem(CreateItem(items, item).0, |items|) == Ok(item)
    ensures 0 <= id < |items| ==> GetItem(CreateItem(items, item).0, id) == GetItem(items, id)
    ensures id < 0 || id > |items| ==> GetItem(CreateItem(items, item).0, id).Err?
  {
  }

  /** The plain `{"status": ...}` body the item service's health check returns. */
  datatype StatusBody = StatusBody(status: string)

  /** `GET /health` of the item service. */
  function Health(): (r: StatusBody)
    ensures r.status == "ok"
  {
    StatusBody("ok")
  }
}
