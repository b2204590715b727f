/**
 The in-memory item store behind the `/items` and `/item` routes of
 ai_native_ides/api.py.

 The module-level list of items becomes the field `items` of class `Store`;
 each route becomes a method of that class. Beside the class, the pure
 function `Step` says what one request does to the list and what it answers,
 and `Run` folds `Step` over a sequence of requests, so that properties of a
 whole history of requests (what GET /items shows, what GET /item returns by
 default) can be stated and proved.
 */
module Api {

  datatype Option<T> = None | Some(value: T)

  /** The request body of both POST routes: a name and an optional description. */
  datatype Item = Item(name: string, description: Option<string>)

  /** An HTTP exception: its status code and its detail message. */
  datatype HttpError = HttpError(status: int, detail: string)

  datatype Result<T> = Ok(value: T) | Err(error: HttpError)

  /** What GET /item raises when the store holds nothing. */
  const NotFound := HttpError(404, "No items found")

  /** The index GET /item uses when the caller gives none. */
  const DefaultIndex: int := -1

  /** Python's list subscript: a negative index counts from the end. */
  function Subscript(s: seq<Item>, k: int): Item
    requires -|s| <= k < |s|
  {
    if k < 0 then s[|s| + k] else s[k]
  }

  /**
   What GET /item is documented to return: the item at `index` when it is a
   valid position, the last item for every other index, and a not-found
   error when there is no item at all.
   */
  function Lookup(items: seq<Item>, index: int): (r: Result<Item>)
    ensures r.Ok? <==> items != []
    ensures r.Ok? ==> r.value in items
    ensures r.Err? ==> r.error == NotFound
  {
    if items == [] then Err(NotFound)
    else if 0 <= index < |items| then Ok(items[index])
    else Ok(items[|items| - 1])
  }

  // ---------------------------------------------------------------------------
  // Requests and their effect on the list

  /** The four routes, with what the caller sends to each. */
  datatype Request =
    | ListAll                 // GET /items
    | Create(item: Item)      // POST /items
    | Read(index: int)        // GET /item?index=...
    | CreateSingle(item: Item) // POST /item

  /** What a route answers: the whole list, one item, or an HTTP error. */
  datatype Response = Listed(items: seq<Item>) | Returned(item: Item) | Failed(error: HttpError)

  /** The list after one request, and the answer to it. */
  datatype Served = Served(store: seq<Item>, response: Response)

  /** The list after a sequence of requests, and the answers in order. */
  datatype Trace = Trace(store: seq<Item>, responses: seq<Response>)

  function Answer(r: Result<Item>): Response
  {
    match r
    case Ok(x) => Returned(x)
    case Err(e) => Failed(e)
  }

  function Step(items: seq<Item>, req: Request): Served
  {
    match req
    case ListAll => Served(items, Listed(items))
    case Create(x) => Served(items + [x], Returned(x))
    case Read(i) => Served(items, Answer(Lookup(items, i)))
    case CreateSingle(x) => Served(items + [x], Returned(x))
  }

  function Run(items: seq<Item>, reqs: seq<Request>): Trace
    decreases |reqs|
  {
    if reqs == [] then Trace(items, [])
    else
      var s := Step(items, reqs[0]);
      var t := Run(s.store, reqs[1..]);
      Trace(t.store, [s.response] + t.responses)
  }

  /** The items the POST requests of `reqs` carry, in the order they are sent. */
  function Created(reqs: seq<Request>): seq<Item>
    decreases |reqs|
  {
    if reqs == [] then []
    else
      match reqs[0]
      case Create(x) => [x] + Created(reqs[1..])
      case CreateSingle(x) => [x] + Created(reqs[1..])
      case _ => Created(reqs[1..])
  }

  // ---------------------------------------------------------------------------
  // The store

  class Store {
    /** The module-level list; every POST appends to it. */
    var items: seq<Item>

    /** The list starts out empty when the module is loaded. */
    constructor ()
      ensures items == []
    {
      items := [];
    }

    /** GET /items: the whole list, as it stands. */
    method GetItems() returns (r: seq<Item>)
      ensures r == items
      ensures Step(items, ListAll) == Served(items, Listed(r))
    {
      r := items;
    }

    /** POST /items: store the item at the end of the list and echo it back. */
    method CreateItem(item: Item) returns (r: Item)
      modifies this
      ensures items == old(items) + [item]
      ensures r == item
      ensures Step(old(items), Create(item)) == Served(items, Returned(r))
    {
      items := items + [item];
      r := item;
    }

    /**
     GET /item: fail when the list is empty; otherwise replace every index
     that is not a valid position by -1 and subscript the list with it.
     */
    method GetItem(index: int := DefaultIndex) returns (r: Result<Item>)
      ensures r == Lookup(items, index)
      ensures Step(items, Read(index)) == Served(items, Answer(r))
    {
      if items == [] {
        return Err(NotFound);
      }
      var i := index;
      if i < 0 || i >= |items| {
        i := -1;
      }
      r := Ok(Subscript(items, i));
    }

    /** POST /item: the same as POST /items. */
    method CreateSingleItem(item: Item) returns (r: Item)
      modifies this
      ensures items == old(items) + [item]
      ensures r == item
      ensures Step(old(items), CreateSingle(item)) == Served(items, Returned(r))
    {
      items := items + [item];
      r := item;
    }
  }

  // ---------------------------------------------------------------------------
  // Properties of single requests

  /** The two POST routes have the same effect and the same answer. */
  lemma CreateRoutesAgree(items: seq<Item>, x: Item)
    ensures Step(items, Create(x)) == Step(items, CreateSingle(x))
    ensures Step(items, Create(x)).store == items + [x]
  {
  }

  /**
   A negative index never counts from the end: on a list of two or more
   items whose last two differ, index -2 still answers the last item, not
   the one Python's subscript -2 would give.
   */
  lemma NegativeIndexYieldsLast(items: seq<Item>, index: int)
    requires items != [] && index < 0
    ensures Lookup(items, index) == Ok(items[|items| - 1])
    ensures |items| >= 2 && items[|items| - 2] != items[|items| - 1] ==>
              Lookup(items, -2) != Ok(Subscript(items, -2))
  {
  }

  // ---------------------------------------------------------------------------
  // Properties of histories of requests

  /**
   After any sequence of requests the list is the list it started as, followed
   by the items of the POST requests in the order they were sent; every
   request gets exactly one answer.
   */
  lemma {:induction false} RunStore(items: seq<Item>, reqs: seq<Request>)
    ensures Run(items, reqs).store == items + Created(reqs)
    ensures |Run(items, reqs).responses| == |reqs|
    decreases |reqs|
  {
    if reqs != [] {
      var s := Step(items, reqs[0]);
      RunStore(s.store, reqs[1..]);
      match reqs[0]
      case Create(x) =>
        assert s.store + Created(reqs[1..]) == items + ([x] + Created(reqs[1..]));
      case CreateSingle(x) =>
        assert s.store + Created(reqs[1..]) == items + ([x] + Created(reqs[1..]));
      case _ =>
    }
  }

  /** The answer to the i-th request is the answer `Step` gives on the list the first i requests left. */
  lemma {:induction false} RunResponseAt(items: seq<Item>, reqs: seq<Request>, i: nat)
    requires i < |reqs|
    ensures |Run(items, reqs).responses| == |reqs|
    ensures Run(items, reqs).responses[i] == Step(Run(items, reqs[..i]).store, reqs[i]).response
    decreases i
  {
    RunStore(items, reqs);
    var s := Step(items, reqs[0]);
    if i > 0 {
      RunResponseAt(s.store, reqs[1..], i - 1);
      assert reqs[..i][0] == reqs[0];
      assert reqs[..i][1..] == reqs[1..][..i - 1];
    }
  }

  /** Requests that only read never change the list. */
  lemma {:induction false} ReadsNeverMutate(items: seq<Item>, reqs: seq<Request>)
    requires forall k :: 0 <= k < |reqs| ==> reqs[k].ListAll? || reqs[k].Read?
    ensures Run(items, reqs).store == items
    decreases |reqs|
  {
    if reqs != [] {
      ReadsNeverMutate(Step(items, reqs[0]).store, reqs[1..]);
    }
  }

  /**
   Starting from the empty list of a freshly loaded module, GET /items answers
   exactly the items POSTed before it, in the order they were POSTed.
   */
  lemma ListAllSeesHistory(reqs: seq<Request>, i: nat)
    requires i < |reqs| && reqs[i] == ListAll
    ensures |Run([], reqs).responses| == |reqs|
    ensures Run([], reqs).responses[i] == Listed(Created(reqs[..i]))
  {
    RunResponseAt([], reqs, i);
    RunStore([], reqs[..i]);
  }

  /**
   After any sequence of requests that POSTed at least one item, GET /item
   with no index answers the most recently POSTed item; if nothing was ever
   POSTed to a freshly loaded module, it fails with the not-found error.
   */
  lemma DefaultReadReturnsLatest(items: seq<Item>, reqs: seq<Request>)
    ensures Created(reqs) != [] ==>
              Lookup(Run(items, reqs).store, DefaultIndex) == Ok(Created(reqs)[|Created(reqs)| - 1])
    ensures items == [] && Created(reqs) == [] ==>
              Lookup(Run(items, reqs).store, DefaultIndex) == Err(NotFound)
  {
    RunStore(items, reqs);
  }
}
