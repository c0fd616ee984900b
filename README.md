# Pokémon TCG stock tracker — a verified model of its decision logic

The system watches five retailers' catalogue pages. Pokémon Center, Target,
Walmart, Best Buy and GameStop are visited in that order. It reports the
trading-card products that are in stock at or below a retail-price ceiling.
A small HTTP API sits in front of the tracker. It starts a scraper run in the
background, serves the products of the last finished run, and reports its
status.

The model has six modules:

- `Wrappers`: `Option` and `Result`.
- `Text`: the parts of Python string behaviour the decisions rest on.
  - substring test `needle in hay`: `Contains`, with its positional meaning
    proved;
  - `lower()` on ASCII letters;
  - `strip()`, with Python's full whitespace set;
  - `replace(c, '')`.
- `Fetch`: the page fetch with three attempts and exponential back-off. The
  network is a function from (url, attempt number) to an outcome.
- `Listings`: the per-listing pipeline shared by the five `check_*`
  methods. A listing is kept only when all of these hold:
  - name, price and link are present;
  - the price text normalises and parses;
  - the retailer's stock test passes;
  - some threshold key occurs, case-insensitively, in the name with the price
    at or below its ceiling.

  The five methods differ only in the catalogue URL they fetch, their
  selectors, the URL prefix of product links, the store name and the stock
  test. Here they are one method over a `Retailer` value that carries the
  catalogue URL, the prefix and the store name, and whose `StockRule` picks
  the stock test.
- `Tracker`: the five retailers with their constants, `check_all_sites`, and
  the e-mail guard. The tracker object keeps the last list found and an
  outbox of notifications sent.
- `Api`: the server state and its operations.
  - state: last results, last update time, the scraping flag, and the
    background tasks scheduled;
  - operations: the API-key check, `get_status`, `scrape`, the Vercel
    `run_scraper` (fixed sample data) and `run_scraper_local`;
  - for the local run, the scraper's JSON output is an input to the model,
    and a lemma ties that run to the tracker's result.

Points of the code's behaviour that the model keeps:

- Retail-price matching is a case-insensitive substring test of each
  threshold key against the product name, in the mapping's order.
- The scraping flag is set by the background run, not by the `scrape`
  endpoint (`api/index.py:91`, `api/index.py:167`). Two `scrape` requests
  that arrive before the first run begins are therefore both accepted and
  both scheduled. `Api.RunStateScenario` walks through this case.
- When the local run cannot parse the scraper's output, the inner 500 error
  is caught by the outer handler and wrapped again. The detail the run
  raises is therefore `Error running scraper: 500: Failed to parse scraper
  output`, not the inner message.

## Model

| member | source | states |
|---|---|---|
| Text.Lower | api/pokemon_tcg_tracker.py:97 | `str.lower()` as used at lines 92, 97, 146-147, 201, 255 and 309 and at api/index.py:201: the result has the input's length and maps each character on its own, ASCII capitals to their small letters and every other character to itself |
| Text.LowerIdempotent | api/pokemon_tcg_tracker.py:97 | lower-casing an already lower-cased text changes nothing |
| Text.ContainsIff | api/pokemon_tcg_tracker.py:97 | Python's `needle in hay` holds exactly when the needle occurs at some position of the haystack (so the empty key is in every name) |
| Text.Strip | api/pokemon_tcg_tracker.py:86-87 | with whitespace as Python's `str.isspace()` has it (tab to carriage return, U+001C to U+001F, space, U+0085, U+00A0 and the Unicode space and separator characters): the stripped text is the contiguous middle of the input after its leading whitespace; it neither starts nor ends with whitespace, and everything after it is whitespace |
| Text.StripIdempotent | api/pokemon_tcg_tracker.py:86 | stripping an already stripped text changes nothing |
| Text.RemoveAllAppend | api/pokemon_tcg_tracker.py:87 | removing a character distributes over concatenation |
| Fetch.Fetched | api/pokemon_tcg_tracker.py:46-59 | the attempts from a given one onwards yield nothing exactly when each of them fails, and a body only when one of them delivered it |
| Fetch.FetchPage | api/pokemon_tcg_tracker.py:43-59 | returns the body of the first of at most three attempts that delivers, or nothing after three failures; before attempt k+1 it waits 2^k seconds, only after a failed attempt k, and never after the last attempt |
| Fetch.FetchedNoneIff | api/pokemon_tcg_tracker.py:43-59 | the fetch yields nothing exactly when all three attempts fail |
| Fetch.FetchedIsFirstDelivered | api/pokemon_tcg_tracker.py:47-50 | a fetched body is the body of some attempt below three, and every earlier attempt failed |
| Listings.MissingAvailability | api/pokemon_tcg_tracker.py:146-147 | the stock tests of lines 92, 146-147, 201, 255 and 309: a listing without an availability element counts as in stock exactly for the negative tests (Target's "sold out"/"out of stock", Walmart's "out of stock") and not for the positive ones ("in stock", "add to cart") |
| Listings.InStockPositions | api/pokemon_tcg_tracker.py:146-147 | the stock tests of lines 92, 146-147, 201, 255 and 309 in terms of positions: Pokémon Center and GameStop need "in stock" somewhere in the lower-cased availability text and Best Buy "add to cart"; Target accepts unless "sold out" or "out of stock" occurs there, Walmart unless "out of stock" does, and both accept a missing element |
| Listings.NormalisePrice | api/pokemon_tcg_tracker.py:87 | the normalised price text contains no `$` and no `,` |
| Listings.NormalisePriceAppend | api/pokemon_tcg_tracker.py:87 | removing `$` and `,` distributes over concatenation |
| Listings.NormalisePriceKeeps | api/pokemon_tcg_tracker.py:87 | text free of `$` and `,` passes through unchanged |
| Listings.NormalisePriceIdempotent | api/pokemon_tcg_tracker.py:87 | applying the `$`/`,` removal twice gives the same as once |
| Listings.IsRetailPrice | api/pokemon_tcg_tracker.py:95-99 | the early-exit loop over thresholds answers true exactly when some threshold key, lower-cased, occurs in the lower-cased name with the price at or below its ceiling |
| Listings.AtRetailPositions | api/pokemon_tcg_tracker.py:95-99 | the retail test holds iff there are a threshold index and a position in the lower-cased name where the lower-cased key occurs, with the price within that ceiling |
| Listings.AtRetailIgnoresCase | api/pokemon_tcg_tracker.py:97 | the retail test gives the same answer for a name and its lower-cased form |
| Listings.AtRetailLowerPrice | api/pokemon_tcg_tracker.py:97 | a listing at retail stays at retail at any lower price |
| Listings.ProcessListing | api/pokemon_tcg_tracker.py:78-107 | a record made from a listing carries the retailer's store name, a URL that starts with the retailer's origin, and a price at retail for its name |
| Listings.ProcessListingSpec | api/pokemon_tcg_tracker.py:78-107 | a listing yields a record iff name, price and link are present, the normalised price parses, the link has an href, the stock test passes and the price is at retail; the record then has the stripped name, the parsed price, the origin prefixed to the href, and the retailer's store name |
| Listings.FilteredAppend | api/pokemon_tcg_tracker.py:76-113 | the records of two listing runs are the records of each, in order |
| Listings.FilteredMembers | api/pokemon_tcg_tracker.py:76-113 | there are never more records than listings, and a record is reported iff some listing yields it |
| Listings.FilteredRecords | api/pokemon_tcg_tracker.py:101-107 | every record carries the retailer's store name and a URL under the retailer's origin, and is at retail price |
| Listings.EmptyThresholdsRejectAll | api/pokemon_tcg_tracker.py:95-99 | with no thresholds configured nothing is ever reported |
| Listings.ProcessOne | api/pokemon_tcg_tracker.py:78-111 | one pass of the product loop, with its `continue`s and the caught exceptions as skips, yields exactly what the listing pipeline defines for that listing |
| Listings.CheckListings | api/pokemon_tcg_tracker.py:76-111 | the per-listing loop appends exactly the records the listing pipeline defines, in listing order |
| Tracker.RetailerProfiles | api/pokemon_tcg_tracker.py:61-330 | a check on the retailer constants (catalogue URLs at lines 64, 118, 173, 227 and 281, link prefixes and store names in each method): the five store names are distinct and so are the five origins; that each catalogue URL lies under its origin holds by how the constants are written |
| Tracker.SiteResult | api/pokemon_tcg_tracker.py:61-113 | one retailer's check: every record it reports carries that retailer's store name and a URL under its origin, and is at retail price |
| Tracker.FailedSiteContributesNothing | api/pokemon_tcg_tracker.py:65-68 | a retailer contributes no records when all three requests fail, and also when the first request that is delivered carries an empty body |
| Tracker.AllSites | api/pokemon_tcg_tracker.py:374-383 | every record of the full check is a record of one of the five retailers' own checks |
| Tracker.AllSitesRecords | api/pokemon_tcg_tracker.py:374-383 | every record of a full check comes from one of the five retailers, carries its store name and a URL under its origin, and is at retail price |
| Tracker.NotificationSentIff | api/pokemon_tcg_tracker.py:332-346 | a notification goes out iff the item list is non-empty and sender, recipient and password are all set and non-empty (the separate empty-configuration test is implied by this) |
| Tracker.PokemonTcgTracker.constructor | api/pokemon_tcg_tracker.py:20-31 | a tracker keeps the configured thresholds and mail settings and starts with no in-stock items and nothing sent |
| Tracker.PokemonTcgTracker.CheckSite | api/pokemon_tcg_tracker.py:61-113 | fetching one retailer's page and processing its listings returns exactly that retailer's records |
| Tracker.PokemonTcgTracker.SendEmailNotification | api/pokemon_tcg_tracker.py:332-346 | appends the items to the outbox iff a notification is due, and otherwise changes nothing |
| Tracker.PokemonTcgTracker.CheckAllSites | api/pokemon_tcg_tracker.py:374-397 | returns the five retailers' records concatenated in retailer order, stores them as the current in-stock items, and notifies iff a notification is due for them |
| Api.CheckApiKey | api/index.py:64-69 | the request succeeds, giving back the key, iff the header is present, non-empty and equal to the configured key (a missing or empty header reaches the check as no value, so an empty configured key refuses every request); otherwise it fails with 403 "Invalid API key" |
| Api.KeepRetailers | api/index.py:193 | the retailer filter keeps no more elements than it is given, and only input elements whose store is selected |
| Api.KeepRetailersMembers | api/index.py:193 | the retailer filter of both runs (also line 135): an item survives it iff it is among the input items and its store is one of the selected retailers |
| Api.KeepRetailersAppend | api/index.py:193 | the retailer filter keeps input order: the filter of a concatenation is the concatenation of the filters |
| Api.KeepRetailersAllSelected | api/index.py:193 | when every item's store is selected the filter keeps everything |
| Api.InferredType | api/index.py:199-203 | the inferred type is either "other" or the key of a threshold that occurs, case-insensitively, in the name |
| Api.InferredTypeFirst | api/index.py:199-203 | the inferred product type is the key of the first threshold (in dictionary order) whose key, lower-cased, occurs in the lower-cased name |
| Api.InferredTypeOther | api/index.py:199-203 | the product type is "other" if no threshold key occurs in the name |
| Api.InferType | api/index.py:199-203 | the early-exit loop over threshold keys returns the inferred type |
| Api.BuildProducts | api/index.py:197-212 | builds one product per filtered item, in order, with name, price, url and store copied, the inferred type and the placeholder image |
| Api.LocalProductsSpec | api/index.py:190-212 | every product a local run publishes copies the name, price, URL and store of an item of the scraper output whose store is selected, with that item's inferred type and the placeholder image |
| Api.LocalProductsComplete | api/index.py:190-212 | conversely, every item of the scraper output whose store is selected is published, with its inferred type and the placeholder image |
| Api.SamplesUnderRetailers | api/index.py:96-132 | a check on the sample constants: each of the five samples carries one of the tracker's retailer store names, with a URL under that retailer's origin (which holds by how the constants are written) |
| Api.VercelPublishesAllSamples | api/index.py:96-148 | selecting all five stores publishes all five sample products, in order, each with its fixed type and the placeholder image |
| Api.ApiServer.constructor | api/index.py:56-58 | the server starts with no results, no update time and the flag down; its key is the `API_KEY` environment variable, or "your-default-api-key" when unset (line 34) |
| Api.ApiServer.GetStatus | api/index.py:77-84 | the status reports the number of products, the flag, the last update time, and exactly the set of stores of the last results (empty iff there are no results) |
| Api.ApiServer.Scrape | api/index.py:234-253 | a wrong key fails with 403 and a running scraper with 409, leaving the schedule unchanged; otherwise one task is scheduled, for the Vercel runner iff the VERCEL variable is "1" |
| Api.ApiServer.StartRun | api/index.py:167 | a background run raises the scraping flag when it begins |
| Api.ApiServer.RunScraper | api/index.py:87-160 | the Vercel run publishes the sample products of the selected stores, records the time, and lowers the flag |
| Api.ApiServer.RunScraperLocal | api/index.py:163-231 | the local run lowers the flag in every case; on parseable output it publishes that output's products and records the time; on unparseable output or a crash it fails with 500 and the wrapped detail, keeping the previous results and time |
| Api.LocalRunOfTracker | api/index.py:190-212 | the products of a local run fed by the tracker's full check all belong to a selected store and point under that retailer's origin |

## Left out

- HTTP itself is not modelled: request headers, the user agent, the 10-second timeout and the status check are reduced to "an attempt delivered a body or failed". The back-off sleep is modelled only as the list of waits.
- Exceptions other than request errors are not modelled for the fetch. Inside the listing loop, any failure skips the listing, and the model does the same.
- HTML parsing and the CSS selectors of each retailer are an abstract function from a page to its listings, with optional name, price, availability and link. Stripping of the element texts is modelled.
- `float()` is an abstract function from text to an optional number. Values such as `nan` and `inf`, which Python accepts, are whatever that function returns.
- Text.Lower: `str.lower()` is modelled for the ASCII letters only. Other letters, such as the `É` of a product name, are left as they are, so a threshold key that differs from the name only in the case of a non-ASCII letter does not match in the model.
- E-mail composition, the SMTP server and its defaults, login, delivery errors and logging: a notification is an entry in the tracker's outbox.
- Writing the results file `results_<timestamp>.json`, reading the configuration file, the `run` loop with its interval, the command line and printed output are not part of this model.
- The FastAPI and CORS plumbing are not part of this model, and neither are the `/api/products`, `/health` and `update_scraper` endpoints. `/api/products` only returns the stored results.
- Time is a natural-number parameter. Date formatting (`isoformat`) is left out.
- Concurrency is not modelled: the background tasks run when the model calls them, one at a time, so interleavings other than these are left out.
- Starting the local scraper subprocess, the temporary configuration file and its removal are left out. The subprocess's output is an input: parsed records, unparseable text, or a crash with its message.
- Api.ApiServer.RunScraperLocal: a crash is given with its message already formatted. Python's rendering of the exception (`str(e)`) is not modelled.
- Thresholds are modelled as an ordered list of (key, ceiling) pairs with numeric ceilings. A Python dict holds each key once (for a key repeated in the JSON text, the last value wins); threshold lists with a repeated key stand for no configuration, and the lemmas also cover them.
- Api.ApiServer.RunScraper: the failure path of the Vercel run (the 500 after an exception) is not modelled. Building the fixed sample list cannot fail except through resource exhaustion.
