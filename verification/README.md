# FreelaMatch persistence and validation core, in Dafny

FreelaMatch keeps a catalogue of freelancers: each has a name (`nome`), a service (`servico`), an optional e-mail, an hourly price (`preco_hora`) and a location (`localizacao`). A REST API stores them in a remote table service when credentials are configured. Otherwise it uses a transient in-process map. This project models that layer:

- `decimal.dfy` (module `Decimal`): the decimal rendering the in-memory store uses for ids, and the parse that undoes it. Together they show the rendering is injective.
- `schema.dfy` (module `Schema`): the record, the insert payload and the partial update payload, and the field rules of `shared/schema.ts`. The rules appear once as a predicate (`FieldsValid`) and once as the list of issue messages the validation library collects, in field order. JavaScript's `x || d` on optional values is written out (`StrOr`, `NumOr`).
- `storage.dfy` (module `Storage`): the in-memory store. The value `Store` and the functions `Create`, `Get`, `Update` and `Delete` are its specification. The class `MemStorage` holds the map and the counter as fields, and its methods change them in place. Each method is proved to move the object's state as the matching function says, and lemmas prove what the functions promise. These include the invariant, freshness of ids, that each operation touches only its own key, and that ids are never reused over any run of operations.
- `routes.dfy` (module `Routes`): configuration resolution and backend choice, `normalizeRecord`, the remote payloads, and the four handlers as methods over the store. The remote table is an oracle: a function from the request sent to the answer received (a decoded body, or an HTTP error status with its text).
- `strings.dfy` (module `Strings`): substring occurrence, as `includes` tests it, shared by the two modules below.
- `home.dfy` (module `Home`): the home page's case-insensitive search filter and its count label.

The update handler answers an unknown id on the in-memory backend with status 500 carrying the store's "Freelancer não encontrado" message. Delete answers 404 for the same case. The model keeps this difference as the code has it.

## Model

| member | source | states |
|---|---|---|
| `Decimal.NatToString` | server/storage.ts:31 | the id rendering is a non-empty string of decimal digits with no leading zero, one digit exactly below 10 |
| `Decimal.ParseNatToString` | server/storage.ts:31 | reading the rendered digits back gives the number |
| `Decimal.NatToStringInjective` | server/storage.ts:31-32 | two counter values with equal renderings are equal, so distinct counter values give distinct ids |
| `Schema.StrOr` | server/routes.ts:33-37 | `x \|\| d` yields `d` or the value itself; with `d == ""` it is exactly "the value, or "" when absent" |
| `Schema.NumOr` | server/storage.ts:39 | `x \|\| d` on a number yields `d` or the value; with `d == 0` it is "the value, or 0 when absent" |
| `Schema.FieldIssues` | shared/schema.ts:6-9 | no issues iff every field rule holds; "Nome é obrigatório" iff `nome` is ""; "Serviço é obrigatório" iff `servico` is ""; "E-mail inválido" iff `email` is neither "" nor an address; "Preço deve ser positivo" iff the price is negative; "Required" iff a required key is missing (insert only) |
| `Schema.RecordIssues` | shared/schema.ts:4-11 | the full record schema accepts exactly a body with an `id` whose other fields meet the insert rules; a missing `id` is the first issue |
| `Schema.ParseInsert` | shared/schema.ts:13 | succeeds iff the insert rules hold, keeping every field but `id`; on failure carries the non-empty issue list |
| `Schema.ParsePartial` | server/routes.ts:156 | succeeds iff every present field meets its rule, keeping the present fields as given; a validated `nome`/`servico` is never empty; on failure carries the issues |
| `Schema.InsertWithIdIsRecord` | shared/schema.ts:13 | a body the insert schema accepts, paired with any string id, is accepted by the record schema |
| `Schema.InsertAcceptedIsPartialAccepted` | server/routes.ts:156 | whatever the insert schema accepts, its partial variant accepts |
| `Schema.NoAtIsNotEmail` | shared/schema.ts:8 | a string without `@` is not an e-mail address |
| `Schema.ExampleEmptyName` | shared/schema.ts:6 | `{nome:"", servico:"Design"}` fails with exactly "Nome é obrigatório" |
| `Schema.ExampleBadEmail` | shared/schema.ts:8 | `{nome:"Ana", servico:"Design", email:"not-an-email"}` fails with exactly "E-mail inválido" |
| `Schema.ExampleMinimal` | shared/schema.ts:4-13 | `{nome:"Ana", servico:"Design"}` parses, the optional fields staying absent |
| `Storage.Empty` | server/storage.ts:15-18 | a new store satisfies the store invariant |
| `Storage.WithDefaults` | server/storage.ts:34-40 | the created record has the given id, the input's `nome`/`servico`, and each optional field's value or ""/0 when absent |
| `Storage.Merge` | server/storage.ts:52 | the merge keeps the id; each field present in the partial is overwritten, each absent one is kept |
| `Storage.Get` | server/storage.ts:26-28 | a record is returned iff the id is a key; under the invariant it carries that id |
| `Storage.Create` | server/storage.ts:30-44 | the new record takes the rendered counter as id and the defaulted input; exactly that key is added and the counter grows by one |
| `Storage.Update` | server/storage.ts:46-55 | fails, with "Freelancer não encontrado", iff the id is not a key; the key set and the counter never change |
| `Storage.Delete` | server/storage.ts:57-59 | reports true iff the id was a key; exactly that key is removed and the counter is kept |
| `Storage.CreateIdIsFresh` | server/storage.ts:31-32 | the id a create hands out differs from every id handed out before and is not a key |
| `Storage.CreateSpec` | server/storage.ts:30-44 | create keeps the invariant, stores the defaulted input under the fresh id, advances the counter by one, makes `get(id)` return the record, leaves every other key alone and grows the map by one |
| `Storage.UpdateSpec` | server/storage.ts:46-55 | update keeps the invariant, key set and counter; an unknown id fails with "Freelancer não encontrado" and changes nothing; a known id stores and returns the merge under the same id; other keys are untouched |
| `Storage.UpdateWithNothingIsIdentity` | server/storage.ts:52-54 | updating with the empty partial returns the record and leaves the store as it was |
| `Storage.MergeKeepsValid` | server/storage.ts:52 | merging a validated partial into a valid record gives a valid record, so `nome`/`servico` never become empty |
| `Storage.CreatedIsValid` | server/storage.ts:34-40 | a record created from a validated insert passes the full record schema |
| `Storage.DeleteSpec` | server/storage.ts:57-59 | delete keeps the invariant and counter, reports whether the id was a key, removes it, leaves other entries alone; a second delete reports false |
| `Storage.ApplyCounter` | server/storage.ts:30-59 | each operation advances the counter by one exactly when it creates |
| `Storage.ApplyKeepsInv` | server/storage.ts:30-59 | each operation keeps the invariant |
| `Storage.RunKeepsInv` | server/storage.ts:30-59 | the invariant holds after any run of creates, updates and deletes |
| `Storage.RunCounter` | server/storage.ts:31-32 | over any run the creates hand out consecutive counter values and the counter ends just past the last |
| `Storage.RunIds` | server/storage.ts:31-32 | over any run of creates, updates and deletes the invariant holds and the creates hand out consecutive counter values |
| `Storage.IdsNeverReused` | server/storage.ts:31-32 | over any run, every id handed out is new to the initial store and no two are equal, even after deletes |
| `Storage.MemStorage.constructor` | server/storage.ts:15-18 | the new store is empty, its counter is 1 and its invariant holds |
| `Storage.MemStorage.GetFreelancers` | server/storage.ts:20-24 | the listing holds every stored record exactly once and nothing else |
| `Storage.MemStorage.GetFreelancer` | server/storage.ts:26-28 | returns a record iff the id is a key, and that record carries the id |
| `Storage.MemStorage.CreateFreelancer` | server/storage.ts:30-44 | moves the state as `Create`: the old counter rendered is the new id, not previously a key, the counter grows by one and only that key is added |
| `Storage.MemStorage.UpdateFreelancer` | server/storage.ts:46-55 | moves the state as `Update`: unknown id fails with "Freelancer não encontrado" and leaves the object unchanged; otherwise only that key is overwritten with the merge |
| `Storage.MemStorage.DeleteFreelancer` | server/storage.ts:57-59 | moves the state as `Delete`: reports whether the id was a key and removes only that key |
| `Routes.Resolve` | server/routes.ts:8-10 | the token is `AIRTABLE_TOKEN` when non-empty, else `AIRTABLE_API_KEY` or ""; the base id is its variable or ""; the table is never empty and is "Freelancers" unless set |
| `Routes.RemoteSelection` | server/routes.ts:71 | the remote table is chosen iff one of the token variables and the base id are non-empty |
| `Routes.UseRemote` | server/routes.ts:71 | the truthiness of `AIRTABLE_TOKEN && AIRTABLE_BASE_ID` holds iff both resolved values are non-empty |
| `Routes.Normalize` | server/routes.ts:30-39 | the normalised record keeps the id and has every field: the remote value, or ""/0 when missing |
| `Routes.NormalizeAll` | server/routes.ts:78 | listing normalises every remote record, preserving length and order |
| `Routes.NormalizeAsRemote` | server/routes.ts:30-39 | a record written out with every field normalises back to itself |
| `Routes.NormalizeIdempotent` | server/routes.ts:30-39 | normalising an already normalised record changes nothing |
| `Routes.CreateFields` | server/routes.ts:111-117 | the create payload carries all five fields, with ""/0 for missing optional ones |
| `Routes.CreateShapesAgree` | server/routes.ts:110-120 | a remote record holding the create payload normalises to the record the in-memory store would create under the same id |
| `Routes.BuildUpdateFields` | server/routes.ts:160-165 | the update field bag has exactly the fields defined in the validated partial, with their values |
| `Routes.UpdateShapesAgree` | server/routes.ts:160-171 | if the remote table overwrites exactly the sent fields, the normalised answer equals the in-memory merge of the same partial |
| `Routes.Join` | server/routes.ts:139 | joining no issues gives ""; otherwise the result starts with the first issue and ends with the last |
| `Routes.JoinSnoc` | server/routes.ts:139 | `join` read left to right: joining one more issue appends ", " and that issue to the previous join |
| `Routes.JoinContains` | server/routes.ts:139 | every issue occurs in the joined text |
| `Routes.InvalidData` | server/routes.ts:136-140 | a 400 error whose message starts with "Dados inválidos: " and contains every issue after that prefix; with one issue it is exactly the prefix followed by that issue |
| `Routes.RemoteErrorMessage` | server/routes.ts:60 | the message is "Airtable API error: ", then the status in decimal, then a space and the response text |
| `Routes.HandleList` | server/routes.ts:69-100 | remote: 200 with the normalised page and its offset, or 500 with "Airtable API error: <status> <text>"; in memory: 200 with every stored record exactly once and no offset |
| `Routes.HandleCreate` | server/routes.ts:103-148 | an invalid body gives 400 "Dados inválidos: " + issues joined by ", " with no backend touched; remote: 201 with the normalised answer or 500; in memory: 201 with the record `Create` stores, and the store moves as `Create` |
| `Routes.HandleUpdate` | server/routes.ts:151-199 | an invalid body gives 400 with the joined issues and no change; remote: PATCH with exactly the defined fields, 200 with the normalised answer or 500; in memory: the store moves as `Update`, 200 with the merge, or 500 "Freelancer não encontrado" for an unknown id |
| `Routes.HandleDelete` | server/routes.ts:202-237 | remote: 200 `deleted: id` or 500 with the remote error; in memory: the store moves as `Delete`, 200 `deleted: id` for a known id, 404 "Freelancer não encontrado" otherwise |
| `Home.Loaded` | client/src/pages/home.tsx:26 | an answer carrying a list yields that list; no answer, or an answer without a list, yields the empty list |
| `Home.Matches` | client/src/pages/home.tsx:29-30 | the empty query matches every record (the test itself is the lower-cased `includes` on name or service) |
| `Home.Filter` | client/src/pages/home.tsx:28-31 | a record is kept iff it was in the list and the lower-cased query occurs in its lower-cased name or service; every matching occurrence is kept (each matching record appears as often as in the input, a non-matching one never); never longer than the input |
| `Home.FilterIsSubsequence` | client/src/pages/home.tsx:28 | the result is a subsequence of the input: same relative order, nothing new |
| `Home.FilterKeepsMatching` | client/src/pages/home.tsx:28-31 | a list whose records all match is returned whole |
| `Home.FilterIdempotent` | client/src/pages/home.tsx:28-31 | filtering the filtered list with the same query returns it unchanged |
| `Home.EmptyQueryKeepsAll` | client/src/pages/home.tsx:28-31 | the empty query keeps every record |
| `Home.MatchIgnoresCase` | client/src/pages/home.tsx:29-30 | the query matches the same records as its lower-cased form |
| `Home.CountLabel` | client/src/pages/home.tsx:96 | the label starts with the count and ends in "s" iff the count is not 1 |

## Left out

- HTTP and I/O: Express routing, `createServer`, `fetch`, JSON encoding, and the URL and headers built by `makeAirtableRequest` (server/routes.ts:41-64, 239-240) are not modelled. The remote service is an oracle answering each request with a decoded body or an HTTP error; only the error message's shape is kept.
- Network failures, malformed remote JSON and non-`Error` throws are not modelled. In the source these reach the 500 branch with the thrown message or "Erro interno do servidor". The oracle answers only with a body or an HTTP status.
- `Storage.MemStorage.GetFreelancers`: does not state the order of the listing. The source sorts with a comparator that parses ids through the JavaScript `Date` constructor, which is engine-specific and not a numeric order; the listing is proved to be a permutation of the stored records only.
- `Routes.HandleList`: on the in-memory backend it inherits the same missing order.
- Floating point: `preco_hora` is a `real`; NaN, infinities and `toFixed` formatting are not modelled.
- `Schema.IsEmail` is a stand-in for the validation library's e-mail pattern, written after the shape of that pattern over ASCII letters. Lower-casing in the search filter covers ASCII letters only; Unicode case mapping is not modelled.
- Request bodies whose fields have the wrong JSON type, and the validation library's messages for them, are not modelled; the body type admits only absent or well-typed fields. Unknown keys, which the schema drops, are not represented.
- The `Patch` behaviour of the remote table in `Routes.UpdateShapesAgree` is an assumption about that service, not something the source defines.
- Ids beyond 2^53, where the JavaScript counter loses precision, are not modelled; the counter is an unbounded natural.
- Asynchrony: promises are taken as synchronous calls. The module-level singleton store becomes an explicitly constructed `MemStorage` passed to each handler. The configuration is resolved once, as the source's module constants are. Error logging (`console.error`) is not modelled.
- The React components and the client's fetch wrappers (`client/src/components/*`, `client/src/lib/api.ts`) are not part of this model.
