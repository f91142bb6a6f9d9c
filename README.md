# go-hs-api in Dafny

This project models the core of `go-hs-api`, a Go client for the Hearthstone
card API. The model covers:

- the client's state: the OAuth access token, the four reference tables
  (rarities, card sets, card classes, card types), the locale and the
  endpoint URL;
- the four lookups by ID against those tables;
- the step that writes the `Authorization: Bearer …` header on each request;
- token acquisition, metadata loading in a fixed order, and client
  construction;
- the card pipeline: the mana-cost filter, the page parameters of a query,
  the per-card enrichment ("join") against the reference tables, and the
  aggregation of one page per class over several classes.

The network is not modelled. Each answer the client would get from it is an
input instead:

- the token exchange;
- the four metadata fetches;
- the card search, modelled as a `server` function from the headers and the
  query sent to the decoded page or an error.

Modules follow the Go files:

- `Rarities` (`rarity.go`), `CardSets` (`cardset.go`), `CardClasses`
  (`card_class.go`) and `CardTypes` (`card_type.go`) hold the record types.
  Each also holds its error message and the lookup as a pure function, `ById`.
- `HsApi` (`hs_api.go`) holds the `Request` and `HearthstoneApiClient`
  classes. The client's methods update its fields in place, as the Go
  receivers do. Its lookup methods scan the table with a loop and an early
  return.
- `Cards` (`card.go`) holds the `Card` record, the query construction, the
  enrichment loop and the two public card queries.
- Shared pieces:
  - `Outcomes`: a Go `error` as `Status`, a value-or-error `Result`, and the
    "concatenate unless something fails" fold `Collect`;
  - `Multimap`: `url.Values` and `http.Header` with `Get`, `Add` and `Del`;
  - `Text`: `strconv.FormatInt`, `strings.Join`, and a splitter and parser
    used to state what the mana filter means;
  - `Scan`: the first-match scan that every lookup uses.

In these places the model follows the code, which may surprise a reader:

- A lookup in a populated table that finds no record with the ID returns the
  zero record with no error. It is not a "not found" failure.
- The card-class and card-type lookups fail on an empty table with the
  rarity table's message, `fatal: Rarities not populated`, as the code
  literally does.
- The header step and the page step delete a key only while its first value
  is non-empty. A key whose first value is `""` keeps its old values, and
  the new value is appended after them. So the old value is not always
  replaced.
- Enrichment does not fail when a foreign key is missing from a populated
  table. The card then carries the zero record for that key.
- `NewClient` reports success whatever the token request and the metadata
  load returned.

## Model

| member | source | states |
|---|---|---|
| Scan.FirstMatchMeaning | rarity.go:45-50 | The scan yields the earliest element with the key, `zero` when no element has it, and whenever some element has the key, an element of the table with that key |
| Rarities.ByIdMeaning | rarity.go:39-51 | The rarity lookup yields the first rarity with the ID, the zero rarity when none has it, and a member of the table with that ID when one exists |
| CardSets.ByIdMeaning | cardset.go:36-47 | The same three facts for card sets |
| CardClasses.ByIdMeaning | card_class.go:37-49 | The same three facts for card classes |
| CardTypes.ByIdMeaning | card_type.go:36-48 | The same three facts for card types |
| HsApi.HearthstoneApiClient.GetRarityById | rarity.go:39-51 | An empty table returns the zero rarity and "fatal: Rarities not populated"; otherwise no error and the first match (or the zero rarity), found by a loop with an early return |
| HsApi.HearthstoneApiClient.GetSetById | cardset.go:36-47 | An empty table returns the zero set and "fatal: Card Sets not populated"; otherwise no error and the first match or the zero set |
| HsApi.HearthstoneApiClient.GetCardClassById | card_class.go:37-49 | An empty table returns the zero class and the (copied) rarity message; otherwise no error and the first match or the zero class |
| HsApi.HearthstoneApiClient.GetCardTypeById | card_type.go:36-48 | An empty table returns the zero type and the (copied) rarity message; otherwise no error and the first match or the zero type |
| HsApi.Request.constructor | card.go:50-51 | A new request has the given URL and no query parameters or headers |
| HsApi.HearthstoneApiClient.constructor | hs_api.go:138-142 | A new client has locale "en_US", the US endpoint URL, a zero token and four empty tables |
| HsApi.HearthstoneApiClient.DoRequest | hs_api.go:77-82 | The request carries the bearer header; it is the only Authorization value when the old first value was non-empty; every other header is unchanged |
| HsApi.HearthstoneApiClient.GetAccessToken | hs_api.go:44-73 | A transport error is returned as is; an empty decoded token fails with the "Access token not set" message followed by the body; otherwise the token is stored and there is no error; the token is untouched on failure |
| HsApi.HearthstoneApiClient.LoadMetadata | hs_api.go:104-131 | Tables load in the order rarities, sets, classes, types; the first failing fetch is the error, and that table and every later one keep their old contents; no error exactly when all four fetches succeed, and then the client is populated exactly when all four are non-empty |
| HsApi.NewClient | hs_api.go:137-150 | A fresh client with the defaults, the token only when the exchange succeeded with a non-empty token, the tables loaded up to the first failing fetch, and always no error |
| Multimap.Add | card.go:42-43 | Adding appends the value under the key and leaves every other key as it was |
| Multimap.Del | hs_api.go:80 | Deleting removes the key and keeps every other key's values |
| Multimap.DeleteWhileSet | card.go:37-39 | The loop "delete while the first value is non-empty" removes the key exactly when its first value is non-empty, and otherwise leaves the map unchanged |
| Multimap.ReplaceEffect | hs_api.go:79-82 | Clearing then adding a key: other keys unchanged; the new value is the only one unless the old first value was "" with values stored, which then stay in front of it |
| Text.FormatInt | card.go:60 | The decimal text of an integer is non-empty and holds no comma |
| Text.FormatIntRoundTrip | card.go:60 | Parsing the decimal text of any integer gives the integer back |
| Text.SplitJoin | card.go:63 | Joining comma-free, non-empty-list pieces with a comma and splitting on it gives the pieces back |
| Cards.ManaFilter | card.go:56-63 | The loop over manaMin..manaMax builds the comma-joined mana filter: "" for an empty range, one value without a comma for equal bounds, otherwise pieces that parse back to manaMin, manaMin+1, …, manaMax in order |
| Cards.ManaStringMeaning | card.go:56-63 | The mana filter lists exactly the values manaMin..manaMax in ascending order, is a single value for equal bounds and is empty for an empty range |
| Cards.RequestForPageKeeps | card.go:33-46 | After the page step the query has its old keys plus page and pageLimit, and every other key keeps its values |
| Cards.RequestForPageEffect | card.go:36-43 | page and pageLimit end with the new values; each is the only value when the old first value was non-empty or absent, and the old values survive in front of it otherwise |
| Cards.GetRequestForPage | card.go:33-46 | The page step rewrites the request's query in place to the cleared-and-re-added query and returns the same request |
| Cards.SetFilter | card.go:65-70 | The filter step adds class, locale, manaCost and rarity, in that order, to the request's query |
| Cards.FilterQueryFresh | card.go:65-69 | From an empty query, the filter step leaves exactly its four parameters with one value each |
| Cards.PageQueryContents | card.go:65-72 | The query of a card page carries exactly class, locale, manaCost, rarity, page and pageLimit, each with a single value |
| Cards.AggregateQueryPaging | card.go:120-123 | Each class in an aggregate is asked for page "1" with pageLimit "10" |
| Cards.CardsPageRequest | card.go:50-72 | A fresh request to the cards URL with no headers and exactly the page query |
| Cards.EnrichedJoin | card.go:89-113 | Enrichment is a join: decoded fields stay as they are; a key present in its table resolves to a record of that table with that ID; a missing key gives the zero record |
| Cards.EnrichAllUnpopulated | card.go:89-112 | With a table empty, a non-empty page fails with the message of the first empty table in the order rarity, set, class, type |
| Cards.EnrichAllPopulated | card.go:89-115 | With all tables populated, every card is enriched, in decoded order, and none is lost |
| Cards.PageOutcome | card.go:74-116 | A request or decoding error is returned as is; an empty page is "fatal: No cards found"; a non-empty page fails exactly when some table is empty, with the first empty table's message; otherwise every card comes back enriched in order |
| Cards.EnrichAt | card.go:90-112 | One loop iteration: the four lookups for card idx write into that card only, and a failing lookup yields the error of resolving the card |
| Cards.EnrichCards | card.go:85-115 | The empty-page check and the enrichment loop return what the page outcome says: the enriched cards and no error, or no cards and the first error |
| Cards.AuthHeaderFresh | hs_api.go:78-82 | The header step on a request without headers leaves exactly one header, `Authorization`, whose only value is the bearer header |
| Cards.GetCardsWithClassManaRaritySpec | card.go:49-116 | The page call returns the page outcome of the server's answer to the query of PageQueryContents together with the header of AuthHeaderFresh, the bearer header built from the client's access token |
| Cards.GetCardsWithClassesManaRaritySpec | card.go:118-130 | The aggregate call returns every class's page 1 of 10 cards, concatenated in class order, or no cards and the first failing class's error; an empty class list gives no cards and no error whatever the mana bounds |
| Cards.AllClassesSucceeds | card.go:122-129 | The aggregate succeeds exactly when every class's page does |
| Cards.AllClassesFirstFailure | card.go:122-127 | When every earlier class succeeds and class k fails, the aggregate fails with class k's error and discards the earlier cards |
| Cards.AllClassesAppend | card.go:122-129 | The aggregate over xs + ys is the aggregate over xs followed by the aggregate over ys; a failure in xs discards everything |
| Cards.AllClassesSingle | card.go:122-129 | A single class aggregates to its own page |
| Outcomes.CollectSucceeds | card.go:122-129 | A per-key fold that stops at the first error succeeds exactly when every key's step succeeds |
| Outcomes.CollectFirstFailure | card.go:122-127 | When every step before key k succeeds and key k's step fails, the fold fails with key k's message |
| Outcomes.CollectAppend | card.go:122-129 | Folding over xs + ys is folding over xs and then over ys |

## Left out

- HTTP transport (`http.Client.Do`, reading and closing response bodies, `GetBodyFromRequest`) is not modelled. The card search is a `server` function input, and the other answers are `Result` inputs.
- JSON decoding is not modelled. Its outcome is part of those inputs, and the page envelope's `Page` and `PageCount` fields are dropped because nothing reads them.
- The metadata fetchers `GetRarities`, `GetSets`, `GetCardClasses` and `GetCardTypes` (URL formatting, transport, decoding) are not modelled. Their outcomes are the four inputs of `LoadMetadata` and `NewClient`.
- The construction of the token request in `GetAccessToken` (form body, basic authentication, Accept and Content-Type headers) is transport and is not modelled. So is the printing of a decoding error: `decodeError` is accepted and has no effect, as in the source.
- A failure of `http.NewRequest` on the cards URL is folded into the server's error alternative. It has the same return shape, an empty card list with the error.
- Query strings are modelled in decoded form (`Request.query`). `url.Values.Encode`, `RawQuery` and the re-parsing by `URL.Query()` are not modelled.
- Header-key canonicalisation in `http.Header` is not modelled. The only header key used, `Authorization`, is already canonical.
- The `CrafingCost` and `DustValue` fields of `Rarity` are untyped passthrough data that no code reads, and are not modelled.
- `NewClient` returns the client struct by value in Go. The model returns the freshly allocated client object.
- Cards.ManaFilter: requires manaMax < MaxInt64, because for manaMax == MaxInt64 the 64-bit `i += 1` in the source wraps around and the loop never ends, which a terminating method cannot express.
- Cards.CardsPageRequest: inherits the manaMax < MaxInt64 requirement of ManaFilter.
- Cards.GetCardsWithClassManaRaritySpec: inherits the manaMax < MaxInt64 requirement of ManaFilter.
- Cards.GetCardsWithClassesManaRaritySpec: requires manaMax < MaxInt64 only when the class list is non-empty, because only then does it reach the mana loop of ManaFilter.
- HsApi.Request.constructor: the endpoint URL is taken to hold no query string. `http.NewRequest` would parse one into the query, and the model starts from an empty query.
