# ofx-be transfer core in Dafny

A model of the money-transfer back end's core:

- the exchange-rate cache, `ExchangeRateService`. It serves a non-zero cached
  "SELL-BUY" rate. Otherwise it fetches from the rate provider, replaces its
  whole rate table with the answer and stamps `lastUpdated`. A failed fetch is
  swallowed and the answer is 0. The one-hour `CACHE_TTL` is declared but never
  consulted.
- the quote engine, `createQuote` / `retrieveQuote`. It validates the request
  against the eight supported pairs, takes the 0.5 % markup off the wholesale
  rate, rounds the rates to five decimals and the converted amount to two, and
  stores the quote under a fresh id.
- the transfer workflow, `createTransfer` / `retrieveTransfer`. It validates the
  request, selects the quote, the payer and the first recipient with the given
  account number, bank code and bank name (as written, an empty result is not
  caught; see "## Findings"), and stores a transfer in status
  `Created` that is due 24 hours later. Reading a transfer joins it to its payer
  and recipient.
- the schema: the four tables, their primary keys, the references from
  transfers to quotes, payers and recipients, and the status enum with its
  default `Created`.

The model is split into modules:

- `Wrappers`: `Option` and `Response`. `Response` is a handler's outcome: a 2xx
  `Ok` body, a 400 or 404 error message, or an exception the handler does not
  catch.
- `Decimal`: `Number(x.toFixed(n))` on exact reals.
- `Schema`: the rows, keys, references and queries.
- `Db`: a `Store` class whose tables are fields updated in place by insert
  methods.
- `ExchangeRates`: the cache as a value plus the specification functions of
  `getRates`. The `ExchangeRateService` class holds the cache field and its
  methods are proved against those functions.
- `Transfers`: the four handlers. The two creating handlers are module-level
  methods that take the store (and, for quotes, the rate service) as parameters
  and change them; the two reading handlers are functions of the tables.

Things the handlers get from outside are parameters:

- the clock, `now` in milliseconds;
- the id generator, `freshId`;
- the rate provider's answer, `response`: `None` when the fetch or the JSON
  decoding threw.

## Model

| member | source | states |
|---|---|---|
| ExchangeRates.RateKey | src/services/exchange-rate-service.ts:67 | the key is the sell code, a '-', then the buy code (length, prefix, separator, suffix) |
| ExchangeRates.CachedRate | src/services/exchange-rate-service.ts:69-72 | `rates[key] \|\| 0`: non-zero exactly when the key is cached with a non-zero rate, and then that rate |
| ExchangeRates.FormatRates | src/services/exchange-rate-service.ts:105-114 | the formatted table has at most one entry, keyed by the response's own pair, holding its retail rate; it is empty exactly when both currencies are equal |
| ExchangeRates.ExchangeRateService.constructor | src/services/exchange-rate-service.ts:35-38 | a new service starts with no rates, last updated at the epoch |
| ExchangeRates.ExchangeRateService.GetRates | src/services/exchange-rate-service.ts:63-73 | the new cache and the returned rate are those of the cache-or-fetch specification; a non-zero answer leaves the pair cached |
| ExchangeRates.ExchangeRateService.FetchRates | src/services/exchange-rate-service.ts:82-97 | a successful fetch replaces the whole table with the formatted answer and sets lastUpdated to now; a failed one leaves the cache unchanged |
| ExchangeRates.CacheHit | src/services/exchange-rate-service.ts:69-72 | a non-zero cached rate is returned without touching the cache, whatever the provider would answer and however old the entry |
| ExchangeRates.MissWithAnswerReplacesTable | src/services/exchange-rate-service.ts:92-93 | after a miss and a successful fetch, every other cached pair is gone and lastUpdated is now |
| ExchangeRates.MissWithFailureKeepsCache | src/services/exchange-rate-service.ts:94-96 | a miss whose fetch fails leaves the cache as it was and yields 0 |
| ExchangeRates.MissResult | src/services/exchange-rate-service.ts:69-72 | a miss yields the provider's retail rate when it answered for exactly this pair with two different currencies, 0 otherwise |
| ExchangeRates.ResultIsCachedOrZero | src/services/exchange-rate-service.ts:72 | the answer is 0 exactly when the resulting cache holds no non-zero rate for the key, and otherwise is that rate |
| ExchangeRates.LastUpdatedOnlyOnFetch | src/services/exchange-rate-service.ts:93 | lastUpdated changes only on a miss followed by a successful fetch, and then becomes now |
| ExchangeRates.AgeIsIgnored | src/services/exchange-rate-service.ts:41 | the TTL is never consulted: two caches that differ only in lastUpdated give the same answer |
| ExchangeRates.RepeatedCalls | src/services/exchange-rate-service.ts:63-73 | after a non-zero answer, a second call for the pair is a hit with the same answer and no change; after a 0 answer, it misses again |
| ExchangeRates.AtMostOnePairAfterFetch | src/services/exchange-rate-service.ts:92 | the cache never holds more than one pair |
| Schema.WithDefaults | src/db/schema.ts:67-84 | the stored transfer row keeps the supplied columns, and its status is Created when the insert leaves status out |
| Schema.SelectByKey | src/handlers/transfers.ts:156-168 | a select by primary key (quotes by quoteId, payer by payerId) yields at most one row, yields one exactly when the id is stored, and that row is the stored one |
| Schema.SelectRecipients | src/handlers/transfers.ts:174-183 | the rows are exactly those with the given account number, bank code and bank name, and the first of them is the earliest such row in insertion order (see "## Left out") |
| Schema.RecipientById | src/handlers/transfers.ts:244-247 | the join on recipientId finds a row exactly when some row has that id, and the row it finds has it |
| Schema.RecipientByOwnId | src/db/schema.ts:47 | with unique recipient keys, looking up a stored recipient by its own id gives back that very row |
| Db.Store.constructor | src/db/schema.ts:14-84 | the four tables start empty, with unique keys and all references satisfied |
| Db.Store.InsertQuote | src/db/schema.ts:14-22 | stores the quote exactly when its id is new, and changes nothing else; keys stay unique and satisfied references stay satisfied |
| Db.Store.InsertPayer | src/db/schema.ts:31-35 | stores the payer exactly when its id is new, and changes nothing else; keys stay unique and satisfied references stay satisfied |
| Db.Store.InsertRecipient | src/db/schema.ts:46-52 | appends the recipient exactly when its id is new, and changes nothing else; keys stay unique and satisfied references stay satisfied |
| Db.Store.InsertTransfer | src/db/schema.ts:67-84 | stores the transfer with the column defaults applied exactly when its id is new, and changes nothing else; keys stay unique |
| Decimal.RoundTo | src/handlers/transfers.ts:66 | the result has at most the given number of decimals, lies within half a unit in the last place of x, takes the neighbour of larger magnitude on a tie, and keeps the sign of x |
| Decimal.TiesAwayFromZero | src/handlers/transfers.ts:75-76 | exact ties round away from zero: 2.5 to 3, -2.5 to -3, 0.125 to 0.13 |
| Transfers.SupportedKeyIsPair | src/handlers/transfers.ts:11-20 | a "SELL-BUY" key is in the supported list exactly when (SELL, BUY) is one of the eight supported currency pairs |
| Transfers.ValidateQuoteRequest | src/handlers/transfers.ts:36-50 | a request is accepted exactly when both currencies are non-empty, the amount is positive and the pair is supported; otherwise it gets the first failing check's 400 message, in the handler's order |
| Transfers.OfxRate | src/handlers/transfers.ts:62-63 | the customer rate is 99.5 % of the wholesale rate: strictly between 0 and the wholesale rate for a positive rate, and 0 only for 0 |
| Transfers.PriceQuote | src/handlers/transfers.ts:62-77 | the quote keeps the request's pair and amount; its rate and inverse rate have five decimals and lie within half a unit of the customer rate and its inverse; the converted amount has two decimals and lies within half a cent of amount times the unrounded customer rate |
| Transfers.ConvertedAmount | src/handlers/transfers.ts:66 | the converted amount has two decimals, lies within half a cent of amount times rate, and is non-negative for positive inputs |
| Transfers.CreateQuote | src/handlers/transfers.ts:33-89 | an invalid request gets its 400 and touches neither the cache nor the tables; a valid one updates the cache as getRates does; a 0 rate gets "Failed to get exchange rate" and stores nothing; otherwise the priced quote is stored under the fresh id and its view returned, and retrieving that id gives the same answer |
| Transfers.RetrieveQuote | src/handlers/transfers.ts:98-121 | 400 "QuoteId is required" for an empty id, 404 "Quote not found" for an unknown one, and otherwise the stored quote's four-field view |
| Transfers.OtherQuotesUnchanged | src/handlers/transfers.ts:68-79 | storing a quote changes what no other id retrieves |
| Transfers.WorkedExampleAudInr | tests/transfers.test.ts:40-56 | 1000 AUD to INR at 55.5 is quoted at 55.2225, inverse 0.01811, converted 55222.5 |
| Transfers.ConvertedAmountUsesUnroundedRate | src/handlers/transfers.ts:66-77 | the converted amount comes from the unrounded rate, so it can differ from amount times the stored rate (999999 units: 122839.59 against 122839.88) |
| Transfers.UnsupportedPairRefused | tests/transfers.test.ts:58-72 | AUD to JPY is refused with "Invalid currency pair" for any positive amount |
| Transfers.ValidateTransferRequest | src/handlers/transfers.ts:133-154 | a request is accepted exactly when the quote id, the payer's id, name and reason, and the recipient's name, account number, bank code and bank name are all given; otherwise it gets the first failing check's 400 message, in the handler's order |
| Transfers.ResolveTransfer | src/handlers/transfers.ts:156-187 | the corrected lookups (the guards as written never fire, see "## Findings"): resolution succeeds exactly when the quote and the payer exist and some recipient has the account; it then yields those rows and the earliest matching recipient, and otherwise the first failing lookup's 404 message |
| Transfers.TransferRow | src/handlers/transfers.ts:189-199 | the inserted row leaves status to its default, Created, and is due 24 hours after now |
| Transfers.TransferResponse | src/handlers/transfers.ts:202-220 | the body carries the transfer's id, status, quote and due date, with the payer's and recipient's details taken from their rows |
| Transfers.RetrieveTransfer | src/handlers/transfers.ts:232-276 | 404 "TransferId is required" for an empty id and "Transfer not found" for an unknown one; an answer is the stored transfer joined to its payer and a recipient with its recipientId, and there is one whenever both exist; when either row is missing, reading the null joined columns throws (an uncaught exception) |
| Transfers.CreateTransfer | src/handlers/transfers.ts:130-223 | with the corrected lookups (see "## Findings"): validation errors get their 400 and failed lookups their 404, storing nothing; otherwise one transfer row in status Created, due a day later, is stored under the fresh id and described in the answer; retrieving it gives the same answer; only the transfers table changes, and satisfied references stay satisfied |
| Transfers.RetrieveAfterCreate | src/handlers/transfers.ts:232-276 | reading back a just-created transfer gives exactly the body its creation answered with |
| Transfers.ResolveTransferAsWritten | src/handlers/transfers.ts:156-197 | the lookups as written: they succeed exactly when the payer exists and some recipient has the account, whether or not the quote exists, and throw otherwise |
| Transfers.AsWrittenBooksUnknownQuote | src/handlers/transfers.ts:161-163 | as written, a request naming an unknown quote gets no 404: it is booked and the stored transfer breaks the quote reference if foreign keys are not enforced, otherwise the insert throws; the corrected resolution answers "Quote not found" |
| Transfers.AsWrittenBooksUnknownQuoteExample | src/handlers/transfers.ts:161-163 | concretely, quote id "q-missing" with an empty quotes table passes the lookups as written (booked if foreign keys are not enforced) and is refused when corrected |
| Transfers.AsWrittenThrowsOnMissingParty | src/handlers/transfers.ts:196-197 | as written, an unknown payer or an unmatched recipient makes the handler throw an uncaught exception where the corrected resolution answers 404 |
| Transfers.AsWrittenAgreesWhenAllFound | src/handlers/transfers.ts:156-197 | when every row is found, both versions book the same quote, payer and recipient |
| Transfers.ResolutionIgnoresNames | src/handlers/transfers.ts:174-183 | the payer's name and reason and the recipient's name in the request play no part in resolution |
| Transfers.BookingScenario | tests/transfers.test.ts:112-276 | on fresh state, quoting 1000 AUD to INR at 55.5, registering a payer and a recipient and booking gives the quoted figures, a Created transfer due a day later with the request's details, and a read-back equal to the booking answer |

## Left out

- HTTP routing and JSON (de)serialisation. This includes the router's 36-character constraint on ids (src/router.ts:17). Request bodies are records of optional fields, and responses are `Response` values.
- Request values of other JSON types. Every present field is assumed to have the type the handlers expect: strings, and a number for `amount`. As written, a non-numeric string amount such as "abc" passes the check at src/handlers/transfers.ts:36, because `"abc" <= 0` compares NaN and is false; the model does not represent such a value.
- The `getInstance` singleton. The handler's service is an explicit parameter; one instance across requests is the same as passing the same object.
- The network call, the provider URL, `console.error`, and a provider body that lacks fields. The provider's answer is a parameter whose `None` stands for any exception in the fetch or the decoding.
- IEEE-754 doubles. Rates and amounts are exact reals. `Number(x.toFixed(n))` is idealised as rounding the exact value half away from zero. On exact binary ties `toFixed` also takes the larger magnitude, so the two agree there. The model can differ from V8 where the double is not the exact decimal (a decimal half such as 1.005 is stored just below it, so `toFixed(2)` gives 1.00 where the model gives 1.01) or where the double arithmetic is inexact (55.5 - 55.5 * 0.005 is slightly below 55.2225 as a double).
- Transfers.PriceQuote: that `ofxRate * inverseOfxRate` is close to 1 is not proved. The tolerance of that product depends on the rate itself (each rounding error is scaled by the other factor), so each factor's own half-unit rounding bound is stated instead.
- `Date.now()`, `new Date()`, `toISOString()` and `uuidv4()`. These are parameters (`now`, `freshId`). The stored ISO text is represented by the instant it denotes. Ids are not assumed unique: a clash is an insert failure, answered `InternalError`.
- Concurrency: two overlapping `getRates` calls and interleaved handler awaits. Each handler runs atomically against the state.
- Foreign-key enforcement. The database connection setup (src/index.ts) is not part of this model, so inserts do not check references. `Db.Store.Consistent` states them, and every operation that keeps them is proved to.
- Db.Store.InsertTransfer: does not promise to keep the references, because the insert itself does not check them. `Transfers.CreateTransfer` does promise it.
- Row order of the recipient select. The query at src/handlers/transfers.ts:174-183 has no ORDER BY, so SQL fixes no order; the model assumes insertion (rowid) order, and "first" in `Schema.SelectRecipients` and `Transfers.ResolveTransfer` means earliest inserted.
- What an uncaught exception in a handler becomes. The server setup is not part of this model; depending on the Express version and any error middleware it is a 500 answer or an unhandled rejection. `InternalError` stands for either.
- Status transitions after `Created`. No handler in the core changes a transfer's status.
- The seed and viewing scripts (scripts/seed.ts, view-data.ts) and the test harness's mocking.

## Findings

| source | as written | input that shows it | evidently intended | confidence | as-written member | corrected member |
|---|---|---|---|---|---|---|
| src/handlers/transfers.ts:161 | `if (!quoteData)` tests an array, which is always truthy, so an unknown quoteId gets no 404: it is inserted as given if foreign keys are not enforced, otherwise the insert throws | empty quotes table, an existing payer and recipient, quoteId "q-missing" | answer 404 "Quote not found" and store nothing | not executed | Transfers.AsWrittenBooksUnknownQuote | Transfers.ResolveTransfer |
| src/handlers/transfers.ts:170 | `if (!payerData)` / `if (!RecipientData)` never fire, so `payerData[0].payerId` / `RecipientData[0].recipientId` at lines 196-197 throw an uncaught exception on an empty result | payer id "p-missing", or an account number no recipient has | answer 404 "Payer not found" / "Receipt not found" | not executed | Transfers.AsWrittenThrowsOnMissingParty | Transfers.CreateTransfer |
