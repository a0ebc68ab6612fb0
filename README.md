# Todo record store over Redis, modelled in Dafny

This project models the record-management layer of a small Redis-backed
"todo" HTTP service. Todos are JSON documents stored under keys that carry
the prefix `todos:`, and a RediSearch index `todos-idx` is declared over their
`name` and `status` fields. The layer exists in three historical variants,
and each is its own module here:

- **ComponentStore**: the component store (`pkg/components/todos/store.go`).
  It normalises ids, generates an id when none is given, rejects empty names,
  has a not-found check, and reports every failure as a `TodoError` of kind
  `Invalid`, `NotFound` or `Unknown`.
  **ComponentRouter** holds its error-to-HTTP mapping (`handleError`).
- **LegacyStore**: the older store (`pkg/todos/store.go`). It has the same
  operations and wraps most errors with `fmt.Errorf`. `All` and `Del` return
  the client's error unchanged. It checks neither names nor empty ids. It has no not-found check.
- **Repository** and **Service**: the repository/service pair
  (`pkg/todos/repository.go`, `pkg/todos/service.go`). The repository works on
  ids exactly as given and returns the client's errors unchanged. The service
  normalises ids and resolves status labels, then delegates.

Shared modules:

- **Schema**: the prefix, the index name and the status table. It also holds
  `FormatId` and the search query. The source repeats these helpers:
  - `formatId` appears in `pkg/components/todos/store.go`, `pkg/todos/store.go`
    and `pkg/todos/service.go`. The copies differ only in the branch taken
    when the regular expression fails to compile: the first panics, the others
    return an error. That branch cannot be taken with the constant pattern, so
    one definition serves all three.
  - The query building appears in `pkg/components/todos/store.go`,
    `pkg/todos/store.go` and `pkg/todos/repository.go`.
  - `TodoStatusMap` has two copies, in `pkg/components/todos/store.go` and
    `pkg/todos/store.go`. The service uses the second one.

  The lemmas about these helpers cite the different copies.
  The name and the status are put into the query unescaped, so a value with
  a space or a field clause in it becomes extra query terms.
  `SearchQueryValuesUnescaped` shows two different inputs that build the same
  query.
- **Redis**: the server as the stores use it. The `Db<V>` class holds
  `docs: map<string, V>` (JSON.SET, JSON.GET and JSON.DEL at the root path)
  and `indexes: set<string>` (FT._LIST, FT.CREATE, FT.DROPINDEX).
  `FT.SEARCH "*"` returns every document whose key carries the index's prefix
  scope. Whether a round trip fails is a `Fault` parameter: `None` means
  success, `Some(text)` carries the client's error text. The caller supplies
  it, because no stored state predicts it.
- **Errors**: Go `error` values. An error is a client cause, an
  `fmt.Errorf("...: %w")` wrapper, or a `*TodoError`. `AsTodoError` models
  `errors.As`.
- **TodoRecords**: the `pkg/todos` record (a todo carries its own key),
  `parseTodoStr` and the document-building loop shared by the older store and
  the repository.
- **Scenarios**: the repository's test scenarios, replayed against the
  contracts.

Time is a `nat` clock reading passed in as `now`. The UUID of a generated id
is a parameter in canonical 36-character form. For searches other than
`"*"`, the server's answer is a `matcher: string -> SearchReply` parameter.
Matching semantics are not modelled, only the query that is sent.

The model follows the code as written, including these behaviours:

- The component `Create` reports a failed write as `Invalid` with the message
  "failed to update todo", not as `Unknown`.
- The component `Update` reports every failed read as `NotFound`, whatever
  the cause.
- The component `Update` message for an unknown label shows the zero status,
  so it reads "invalid status ", not the label.
- The older store and the repository do not reject empty names and have no
  not-found check. Reading a missing todo gives the zero todo with its id. An
  update of a missing todo writes a new document with an empty name.
- The service's unknown-label error is a plain error that names the label. It
  is not one of the three error kinds.

## Model

| member | source | states |
|---|---|---|
| `Schema.FormatId` | pkg/components/todos/store.go:114-129 | The result always starts with `todos:`. An id that already starts with it is returned unchanged. Any other id gets the prefix prepended. |
| `Schema.FormatIdIdempotent` | pkg/todos/store.go:79-91 | Normalising a normalised id changes nothing: `FormatId(FormatId(x)) == FormatId(x)`. |
| `Schema.FormatIdAliases` | pkg/todos/service.go:13-25 | A bare id and the same id with the prefix name the same key. Two different bare ids never share a key. |
| `Schema.StatusLookup` | pkg/components/todos/store.go:335 | Exactly the labels "todo", "in progress" and "complete" are known (table at pkg/components/todos/store.go:33-37). Each maps to the status spelled the same way. An unknown label yields the zero status "". |
| `Schema.SearchQuery` | pkg/todos/repository.go:103-113 | The query is empty exactly when neither name nor status is given. Otherwise it starts with `@`. |
| `Schema.SearchQueryShape` | pkg/components/todos/store.go:244-258 | The query holds `@name:<name>` when a name is given and then `@status:<status>` when a status is given, joined by one space. It is "" when neither is given. |
| `Schema.JoinedClausesStart` | pkg/todos/store.go:174-188 | A non-empty query starts with a field clause. It starts with `@name:` exactly when a name is given. |
| `Schema.SearchQueryValuesUnescaped` | pkg/components/todos/store.go:246-252 | The values go into the query unescaped. The name "x @status:done" with no status builds the same query as the name "x" with the status "done". |
| `Redis.Db.JsonSet` | pkg/components/todos/store.go:315 | A successful JSON.SET makes the key hold the value and changes nothing else. A failed one changes nothing. |
| `Redis.Db.JsonGet` | pkg/components/todos/store.go:215 | JSON.GET yields the stored value, or an empty payload when the key holds nothing or the read fails. |
| `Redis.Db.JsonDel` | pkg/components/todos/store.go:375 | A successful JSON.DEL removes exactly that key. Deleting an absent key is not an error. |
| `Redis.Db.FtCreate` | pkg/components/todos/store.go:144-161 | A successful FT.CREATE adds the index name. Documents are untouched. |
| `Redis.Db.FtDropIndex` | pkg/components/todos/store.go:180 | A successful FT.DROPINDEX removes the index name. Documents stay. |
| `Redis.Db.FtSearchAll` | pkg/components/todos/store.go:185 | `FT.SEARCH "*"` over an index scoped to a prefix lists every document under the prefix exactly once, with its stored value. The total equals the number listed. A failed search yields the zero reply. |
| `Redis.FirstFault` | pkg/components/todos/store.go:400-410 | The position of the first listed key whose delete fails, or the list length when none fails. No earlier key fails. |
| `Errors.TodoError.Error` | pkg/components/todos/store.go:96-103 | A TodoError's text is its client message when it has no cause, and the cause's text otherwise. |
| `Errors.AsTodoError` | pkg/components/todos/router.go:31-33 | `errors.As` finds a TodoError at the head of the chain and looks through `%w` wrappers. A bare cause has none. |
| `Errors.Error.Text` | pkg/components/todos/store.go:407 | The text of an `fmt.Errorf("context: %w", inner)` error starts with "context: " and ends with the whole text of the inner error. A bare cause reads as its own text. A TodoError reads as its `Error()`. |
| `Errors.Chain` | pkg/components/todos/router.go:31-33 | The errors `errors.As` visits: the error, then each wrapped error in turn, ending at the first one that is not a `%w` wrapper. |
| `Errors.AsTodoErrorOnChain` | pkg/components/todos/store.go:392-397 | `errors.As` finds a TodoError `t` exactly when `t` lies on the chain. It finds none exactly when no TodoError lies on the chain. However many wrappers surround it, they neither hide a TodoError nor invent one. |
| `ComponentRouter.HandleError` | pkg/components/todos/router.go:30-44 | A TodoError on the chain maps Unknown to 500, NotFound to 404 and Invalid to 400, with its client message. Any other error, a binding failure included, maps to the generic 500 "Internal Server Error". |
| `ComponentRouter.HandleErrorHidesCause` | pkg/components/todos/router.go:34-39 | The response depends only on the kind and the client message, never on the wrapped cause. |
| `ComponentRouter.UpdateReadFailureAnswersNotFound` | pkg/components/todos/store.go:345-353 | An Update whose read failed for an unexpected reason still answers 404 "todo not found". |
| `ComponentStore.CreateKey` | pkg/components/todos/store.go:291-303 | Every key Create writes lies under the prefix. A non-empty id is kept in its normal form. A bare id follows the prefix whole. |
| `ComponentStore.CreateKeyForEmptyId` | pkg/components/todos/store.go:291-293 | With an empty id, the key is `todos:` followed by the whole generated token, a non-empty string, 42 characters long. |
| `ComponentStore.TodoStore.HaveIndex` | pkg/components/todos/store.go:132-136 | Holds exactly when FT._LIST names the index `todos-idx`. |
| `ComponentStore.TodoStore.CreateIndexIfNotExists` | pkg/components/todos/store.go:138-172 | A no-op when the index exists. Otherwise it creates the index. A failed FT.CREATE is Unknown "failed to create index" and leaves the index absent. After success the index exists, so a second call is a no-op. |
| `ComponentStore.TodoStore.DropIndex` | pkg/components/todos/store.go:174-181 | Removes the index only when it is listed and the drop succeeds. Documents are untouched. |
| `ComponentStore.TodoStore.Documents` | pkg/components/todos/store.go:195-203 | One document per hit, in order, keeping the hit's key and value. |
| `ComponentStore.TodoStore.All` | pkg/components/todos/store.go:183-209 | Lists every todo under the prefix exactly once with its stored value, and total equals the number of documents. A failed search is Unknown "failed to get all todos". |
| `ComponentStore.TodoStore.One` | pkg/components/todos/store.go:211-236 | Returns the todo under the normalised id. An empty payload is NotFound "todo not found" with no cause. A failed read is Unknown "failed to get todo". |
| `ComponentStore.TodoStore.Search` | pkg/components/todos/store.go:238-282 | Sends `SearchQuery(name, status)` and returns one document per hit with the reply's total. A failed search is Unknown "failed search for todos". |
| `ComponentStore.TodoStore.Create` | pkg/components/todos/store.go:284-326 | An empty name is Invalid "todo must have a name" and writes nothing. Otherwise it writes exactly the key `CreateKey(id, token)` with status "todo" and created time equal to updated time, and returns that key. A failed write is Invalid "failed to update todo". The timestamp order of stored todos is kept. |
| `ComponentStore.TodoStore.Update` | pkg/components/todos/store.go:328-369 | An unknown label is Invalid "invalid status " before any read or write. A read that fails for any reason is NotFound and writes nothing. Otherwise only status and updated time change, name and created time are kept, and the todo is written back at the same key. A failed write is Unknown. |
| `ComponentStore.TodoStore.Del` | pkg/components/todos/store.go:371-386 | Removes exactly the normalised key. A failed delete is Unknown "failed to delete todo". |
| `ComponentStore.TodoStore.DelAll` | pkg/components/todos/store.go:388-413 | Deletes the listed todos in order and stops at the first failing delete with Unknown. Exactly the todos before that one are gone. When none fails, no key under the prefix remains. |
| `TodoRecords.ParseTodoStr` | pkg/todos/store.go:71-77 | An empty payload gives the zero todo that carries the given id, with an empty name and status. A stored payload is taken whole, including the key it carries. |
| `TodoRecords.ParseTodoStrKeepsKey` | pkg/todos/repository.go:27-33 | In a store where every todo carries its key, reading any key gives a todo carrying that key, whether or not a todo is stored there. |
| `TodoRecords.Documents` | pkg/todos/store.go:135-139 | One todo per hit, in order, parsed from the hit's stored value. |
| `TodoRecords.ListedIdsAreKeys` | pkg/todos/store.go:71-77 | In a store where every todo carries its key, the listed todos carry the keys they were listed under. |
| `LegacyStore.EmptyIdIsBarePrefix` | pkg/todos/store.go:210-225 | An empty id is not rejected. It normalises to the bare key `todos:`. |
| `LegacyStore.Store.HaveIndex` | pkg/todos/store.go:63-69 | Holds exactly when FT._LIST names the index `todos-idx`. |
| `LegacyStore.Store.CreateIndexIfNotExists` | pkg/todos/store.go:93-122 | A no-op when the index exists. Otherwise it creates the index. A failed FT.CREATE comes back wrapped as "failed to create index". |
| `LegacyStore.Store.DropIndex` | pkg/todos/store.go:124-130 | Removes the index only when it is listed and the drop succeeds. |
| `LegacyStore.Store.All` | pkg/todos/store.go:132-145 | Lists every todo under the prefix once, and total equals the number listed. A failed search returns the empty list together with the error. |
| `LegacyStore.Store.One` | pkg/todos/store.go:147-163 | Returns the todo under the normalised id. There is no not-found check: an empty payload gives the zero todo carrying that id. A failed read is wrapped as "failed JSON.GET for todo". |
| `LegacyStore.Store.Search` | pkg/todos/store.go:165-204 | Sends the same query as the component store and returns one todo per hit. A failed search returns no list. |
| `LegacyStore.Store.Create` | pkg/todos/store.go:206-232 | No name or id check. Writes exactly the key `FormatId(id)` with status "todo", created time equal to updated time, and the returned id equal to the key. |
| `LegacyStore.Store.Update` | pkg/todos/store.go:234-266 | An unknown label fails as "Invalid status " before any read. Otherwise only status and updated time change and the todo is written back at the same key. A missing todo is written as the zero todo. |
| `LegacyStore.Store.Del` | pkg/todos/store.go:268-278 | Removes exactly the normalised key and returns the client's error unchanged. |
| `LegacyStore.Store.DelAll` | pkg/todos/store.go:280-296 | Deletes the listed todos in order and stops at the first failure. Exactly the earlier ones are gone. When none fails, no key under the prefix remains. |
| `Repository.TodosRepository.HaveIndex` | pkg/todos/repository.go:19-25 | Holds exactly when FT._LIST names the index `todos-idx`. |
| `Repository.TodosRepository.CreateIndexIfNotExists` | pkg/todos/repository.go:35-60 | A no-op when the index exists. Otherwise it creates the index and returns FT.CREATE's error unchanged, so the operation is idempotent. |
| `Repository.TodosRepository.DropIndex` | pkg/todos/repository.go:62-68 | Removes the index only when it is listed and the drop succeeds. Documents are untouched. |
| `Repository.TodosRepository.All` | pkg/todos/repository.go:70-83 | Lists every todo under the prefix once, with its stored value, and total equals the number listed. When every stored JSON carries its own key, the listed todos carry the keys they were listed under. The id comes from the JSON, not from the listed key. |
| `Repository.TodosRepository.One` | pkg/todos/repository.go:85-95 | Reads at `id` exactly as given, with no normalisation. An empty payload gives the zero todo carrying `id`. |
| `Repository.TodosRepository.Search` | pkg/todos/repository.go:97-125 | Sends the name/status query. The error is not checked: the list built from the reply comes back alongside it. |
| `Repository.TodosRepository.Create` | pkg/todos/repository.go:127-145 | Writes a todo with status "todo" and created time equal to updated time at key `id` exactly, and returns it. |
| `Repository.TodosRepository.Update` | pkg/todos/repository.go:147-164 | Reads first. A failed read is returned with no write. Otherwise only status and updated time change before the write-back at the same key. |
| `Repository.TodosRepository.Del` | pkg/todos/repository.go:166-170 | Removes exactly key `id`. |
| `Repository.TodosRepository.DelAll` | pkg/todos/repository.go:172-188 | Deletes every listed todo in order and stops at the first failure. Exactly the earlier ones are gone. |
| `Service.TodosService.All` | pkg/todos/service.go:27-29 | The repository's list, unchanged. |
| `Service.TodosService.Search` | pkg/todos/service.go:31-33 | The repository's search with the same name and status. |
| `Service.TodosService.One` | pkg/todos/service.go:35-43 | Reads at `FormatId(id)`, never at the raw id. |
| `Service.TodosService.Create` | pkg/todos/service.go:45-53 | Writes at `FormatId(id)`, never at the raw id. |
| `Service.TodosService.Update` | pkg/todos/service.go:55-68 | An unknown label fails with "Invalid status " followed by the label, and the store is untouched. A known label is updated at `FormatId(id)` with the mapped status. |
| `Service.TodosService.Del` | pkg/todos/service.go:70-78 | Deletes at `FormatId(id)`, never at the raw id. |
| `Service.TodosService.DelAll` | pkg/todos/service.go:80-82 | The repository's delete-all, unchanged. It deletes the listed todos in order and stops at the first failure. Exactly the earlier ones are gone. When none fails, no key under the prefix remains. |
| `Scenarios.LegacyCrud` | pkg/todos/store_test.go:37-87 | Creating `todos:abc123` gives that id and status "todo". Reading it back gives the same todo. Completing it keeps the created time, which is not after the updated time. A read after the delete still succeeds, with the zero todo. |
| `Scenarios.LegacyListThree` | pkg/todos/store_test.go:89-122 | After three creates with distinct ids, All returns total == length == 3, and every name is one of those created. |
| `Scenarios.ServiceCrud` | pkg/todos/main_test.go:35-85 | Through the service, id `todos:abc123` is kept. The read returns the same id, name and status. The update gives "complete". |
| `Scenarios.ComponentCrud` | pkg/components/todos/store.go:284-386 | Creating "abc123" gives `todos:abc123`. A later update is strictly after the creation. A read after the delete is NotFound. |

## Left out

- The Redis client library. Its commands are replaced by the `Db` class. An
  FT._LIST that fails (the stores then see no index) is not modelled.
- What the client reports for JSON.GET of a missing key. The model returns an
  empty payload with no error, which is the case the stores' empty-payload
  handling covers. If the client reports an error instead, those reads take
  the failed-read branch, which the `Fault` parameter covers.
- Full-text matching of FT.SEARCH for queries other than `"*"`. The reply is
  the `matcher` parameter, and only the query string is modelled.
- The server's default result page. FT.SEARCH returns at most ten documents
  unless a LIMIT is given. With it, `All` would report a total larger than its
  documents and `DelAll` would clear only the first page.
- Searching when the index is absent. `FtSearchAll` answers from the
  documents whether or not the index is listed.
- JSON encoding and decoding. A stored value is the record itself, so
  malformed payloads, and the decode error `parseTodoStr` ignores, are not
  modelled.
- `regexp.Match` is a plain prefix test. Its error branch (a panic in the
  component store, a wrapped error in the older store and the service) cannot
  happen with the constant pattern, so the callers' `err != nil` checks after
  `formatId` are omitted.
- `time.Now` and `uuid.New` are parameters. Timestamps are `nat` clock
  readings, not `time.Time`.
- `NewStore` and `NewRepository` create the index at construction. The
  constructors here only set the server, and callers run
  `CreateIndexIfNotExists` themselves, as the scenarios do.
- `log.Println` in the older store's and the repository's Search.
- ComponentRouter.HandleError: Go's `TodoErrorType` is a string and could
  hold a value outside the three kinds, which would fall through to the
  generic 500. The Dafny type is closed, so that path does not exist here.
- Concurrency: the read-modify-write race in `Update`, and concurrent
  requests.
- The HTTP handlers, `pkg/todos/router.go`, server start-up, configuration and
  wiring.
- LegacyStore.Store.DelAll: what gets deleted is stated only for a store
  where every todo's JSON carries its own key, as every write of this module
  leaves it. The loop deletes by the id read from the JSON, so for a document
  written by other means it may delete a different key.
- Repository.TodosRepository.DelAll: what gets deleted is stated only for a
  store where every todo's JSON carries its own key, for the same reason:
  the loop deletes by the id read from the JSON.
- Service.TodosService.DelAll: carries the repository's contract, so it has
  the same condition that every todo's JSON carries its own key.
- `Total` is `int64` in the source. It is a count of stored documents, so its
  width is not modelled.
