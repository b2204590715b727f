# Item store

A model of the in-memory item store served by `ai_native_ides/api.py`. The file
keeps a module-level list of items. Two POST routes (`/items` and `/item`) append
an item to that list and echo it back. `GET /items` returns the whole list.
`GET /item` returns one item by index, and it has its own index rule. An index
that is not a valid position (a negative one, or one past the end) is replaced
by `-1`, which selects the last item. If the list is empty the route raises a
404 "No items found".

`api.dfy` holds a single module, `Api`:

- `Item` is a value: a name and an optional description.
- `Store` is a class whose field `items: seq<Item>` is the module-level list. It
  has one method per route.
- `Lookup` is the documented behaviour of `GET /item`, written out case by case.
  `Store.GetItem` follows the code: it checks for the empty list, clamps its
  local index to `-1` and uses Python's subscript. It is proved equal to `Lookup`.
- `Step` gives the effect of one request on the list and the answer to it.
  `Run` folds `Step` over a sequence of requests. The lemmas about `Run` state
  what a whole history of requests guarantees.

## Model

| member | source | states |
|---|---|---|
| `Api.Store.constructor` | ai_native_ides/api.py:8 | the store starts out as the empty list |
| `Api.Store.GetItems` | ai_native_ides/api.py:14-16 | returns exactly the stored list, in order, and changes nothing; this is the `ListAll` step |
| `Api.Store.CreateItem` | ai_native_ides/api.py:18-21 | the new list is the old list with the given item appended at the end, nothing else changes, and the item is returned unchanged |
| `Api.Store.CreateSingleItem` | ai_native_ides/api.py:35-38 | the same effect and the same return value as `CreateItem` |
| `Api.Store.GetItem` | ai_native_ides/api.py:26-33 | the clamp-then-subscript code returns exactly `Lookup(items, index)` (index defaults to -1) and changes nothing |
| `Api.Lookup` | ai_native_ides/api.py:27-33 | succeeds if and only if the store is non-empty; a success is always a stored item; a failure is always 404 "No items found" |
| `Api.CreateRoutesAgree` | ai_native_ides/api.py:35-38 | the two POST routes give the same new list and the same answer, and the new list is the old one plus the item |
| `Api.NegativeIndexYieldsLast` | ai_native_ides/api.py:30-33 | every negative index on a non-empty store gives the last item; -2 does not give Python's second-to-last item |
| `Api.RunStore` | ai_native_ides/api.py:18-38 | after any sequence of requests, the list is the initial list followed by the POSTed items in sending order; each request gets one answer |
| `Api.RunResponseAt` | ai_native_ides/api.py:14-38 | the answer to the i-th request is what that request gives on the list left by the first i requests |
| `Api.ReadsNeverMutate` | ai_native_ides/api.py:14-33 | a sequence made only of `GET /items` and `GET /item` requests leaves the list unchanged, including failing reads |
| `Api.ListAllSeesHistory` | ai_native_ides/api.py:14-21 | from a freshly loaded module, `GET /items` answers exactly the items POSTed before it, in POST order |
| `Api.DefaultReadReturnsLatest` | ai_native_ides/api.py:26-33 | after any history that POSTed something, `GET /item` with no index gives the most recently POSTed item; with nothing ever POSTed to an empty store it gives the 404 error |

## Left out

- FastAPI routing, HTTP verbs and paths, JSON serialisation, and turning `HTTPException` into a response. The 404 is modelled as the error value `HttpError(404, "No items found")`.
- Pydantic request parsing, type coercion and the `.dict()` copy made before appending. The stored value is taken to be the item itself. The `description` default of `None` is modelled as `Option<string>`.
- Concurrent requests sharing the module-level list. The model serves requests strictly one after another.
- Aliasing: `get_items` returns the list object itself, so a caller in the same process could mutate the store through it. The model returns the list as a value.
- Python negative indexing in general. After the clamp, only index `-1` can reach the subscript. `Subscript` models Python's rule for the indices it can receive.
- The poll, option, vote, QR-code, authentication, database and AI-suggestion parts of the wider application. Their source is not part of this model.
