/** The request-serving wrapper's state machine: the run flag, the published
    result list and its timestamp, the scrape trigger with its key check and
    conflict check, the two run functions, and the status derived from the
    state. Routing, CORS, validation and background scheduling are not
    modelled: a scheduled run is recorded in `scheduled` and is performed by
    calling `RunScraper` or `RunScraperLocal`. */
module Api {
  import opened Wrappers
  import opened Text
  import opened Listings
  import Fetch
  import Tracker

  datatype HttpError = HttpError(status: int, detail: string)

  /** A published product; `productType` is the source's `type` field. */
  datatype Product = Product(name: string, price: real, url: string, store: string,
                             productType: string, image: Option<string>)

  /** The body of a scrape request; `thresholds` keeps the mapping's order. */
  datatype ScraperConfig = ScraperConfig(retailers: seq<string>, thresholds: seq<Threshold>, checkInterval: int)

  /** Which run function a scrape request schedules. */
  datatype Runner = VercelRunner | LocalRunner

  datatype Task = Task(runner: Runner, config: ScraperConfig)

  datatype Status = Status(lastUpdate: Option<nat>, productsCount: nat, isScraping: bool, retailers: set<string>)

  /** An entry of the hard-coded sample list: a record and its fixed type. */
  datatype SampleProduct = SampleProduct(item: Item, productType: string)

  /** What the scraper subprocess gave back: a JSON list of records, output
      that is not JSON, or a failure before the output could be read. */
  datatype ScraperOutput = Parsed(items: seq<Item>) | Unparseable | Crashed(reason: string)

  const PLACEHOLDER_IMAGE := "/api/placeholder/400/320"
  const DEFAULT_API_KEY := "your-default-api-key"
  const OTHER_TYPE := "other"
  const INVALID_KEY := HttpError(403, "Invalid API key")
  const ALREADY_RUNNING := HttpError(409, "Scraper is already running")
  const SCRAPER_STARTED := "Scraper started"

  /** The value the `X-API-Key` header dependency hands on: the header's
      text, or `None` when the header is absent or empty. */
  function HeaderValue(header: Option<string>): Option<string> {
    if header.Some? && header.value != "" then header else None
  }

  /** `get_api_key`: the header's value against the configured key. A
      missing or empty header never matches, not even an empty key. */
  function CheckApiKey(header: Option<string>, apiKey: string): (r: Result<string, HttpError>)
    ensures r.Success? <==> header == Some(apiKey) && apiKey != ""
    ensures r.Success? ==> r.value == apiKey
    ensures r.Failure? ==> r.error == INVALID_KEY
  {
    if HeaderValue(header) == Some(apiKey) then Success(apiKey) else Failure(INVALID_KEY)
  }

  // ---------------------------------------------------------------------------
  // Retailer filter
  // ---------------------------------------------------------------------------

  function ItemStore(x: Item): string { x.store }

  function SampleStore(s: SampleProduct): string { s.item.store }

  function RetailerTest<T>(store: T -> string, retailers: seq<string>): T -> Option<T> {
    x => if store(x) in retailers then Some(x) else None
  }

  /** `[r for r in xs if r["store"] in retailers]`. */
  function KeepRetailers<T>(store: T -> string, retailers: seq<string>, xs: seq<T>): (kept: seq<T>)
    ensures |kept| <= |xs|
    ensures forall y :: y in kept ==> y in xs && store(y) in retailers
  {
    var kept := Collect(RetailerTest(store, retailers), xs);
    assert forall y :: y in kept ==> y in xs && store(y) in retailers by {
      forall y | y in kept
        ensures y in xs && store(y) in retailers
      {
        CollectMembers(RetailerTest(store, retailers), xs, y);
      }
    }
    kept
  }

  /** The filter keeps exactly the elements of a selected retailer ... */
  lemma KeepRetailersMembers<T>(store: T -> string, retailers: seq<string>, xs: seq<T>, x: T)
    ensures x in KeepRetailers(store, retailers, xs) <==> x in xs && store(x) in retailers
  {
    CollectMembers(RetailerTest(store, retailers), xs, x);
    if x in xs && store(x) in retailers {
      var i :| 0 <= i < |xs| && xs[i] == x;
      assert RetailerTest(store, retailers)(xs[i]) == Some(x);
    }
  }

  /** ... in their order: it works piece by piece ... */
  lemma KeepRetailersAppend<T>(store: T -> string, retailers: seq<string>, a: seq<T>, b: seq<T>)
    ensures KeepRetailers(store, retailers, a + b)
         == KeepRetailers(store, retailers, a) + KeepRetailers(store, retailers, b)
  {
    CollectAppend(RetailerTest(store, retailers), a, b);
  }

  /** ... and leaves a list of selected retailers' elements as it is. */
  lemma {:induction false} KeepRetailersAllSelected<T>(store: T -> string, retailers: seq<string>, xs: seq<T>)
    requires forall i :: 0 <= i < |xs| ==> store(xs[i]) in retailers
    ensures KeepRetailers(store, retailers, xs) == xs
    decreases |xs|
  {
    if xs != [] {
      KeepRetailersAllSelected(store, retailers, xs[..|xs| - 1]);
      assert xs[..|xs| - 1] + [xs[|xs| - 1]] == xs;
    }
  }

  // ---------------------------------------------------------------------------
  // Type inference and product conversion
  // ---------------------------------------------------------------------------

  predicate KeyInName(t: Threshold, name: string) {
    Contains(Lower(name), Lower(t.key))
  }

  /** The type `run_scraper_local` gives a record: the first threshold key,
      in the mapping's order, whose lower-cased text occurs in the
      lower-cased name; `"other"` when there is none. */
  function InferredType(name: string, thresholds: seq<Threshold>): (productType: string)
    ensures || productType == OTHER_TYPE
            || exists i :: 0 <= i < |thresholds| && productType == thresholds[i].key
                           && KeyInName(thresholds[i], name)
  {
    if thresholds == [] then OTHER_TYPE
    else if KeyInName(thresholds[0], name) then thresholds[0].key
    else InferredType(name, thresholds[1..])
  }

  /** No key occurs in the name: the type is "other". */
  lemma {:induction false} InferredTypeOther(name: string, thresholds: seq<Threshold>)
    requires forall i :: 0 <= i < |thresholds| ==> !KeyInName(thresholds[i], name)
    ensures InferredType(name, thresholds) == OTHER_TYPE
  {
    if thresholds != [] {
      assert !KeyInName(thresholds[0], name);
      InferredTypeOther(name, thresholds[1..]);
    }
  }

  /** Key `i` is the first that occurs in the name: the type is that key. */
  lemma {:induction false} InferredTypeFirst(name: string, thresholds: seq<Threshold>, i: nat)
    requires i < |thresholds| && KeyInName(thresholds[i], name)
    requires forall j :: 0 <= j < i ==> !KeyInName(thresholds[j], name)
    ensures InferredType(name, thresholds) == thresholds[i].key
  {
    if i > 0 {
      assert !KeyInName(thresholds[0], name);
      InferredTypeFirst(name, thresholds[1..], i - 1);
    }
  }

  /** The type-inference loop with its `break`. */
  method InferType(name: string, thresholds: seq<Threshold>) returns (productType: string)
    ensures productType == InferredType(name, thresholds)
  {
    productType := OTHER_TYPE;
    for i := 0 to |thresholds|
      invariant InferredType(name, thresholds) == InferredType(name, thresholds[i..])
    {
      if KeyInName(thresholds[i], name) {
        productType := thresholds[i].key;
        break;
      }
      assert thresholds[i..][1..] == thresholds[i + 1..];
    }
  }

  /** A record published by the local run. */
  function ToProduct(x: Item, thresholds: seq<Threshold>): Product {
    Product(x.name, x.price, x.url, x.store, InferredType(x.name, thresholds), Some(PLACEHOLDER_IMAGE))
  }

  /** The conversion loop of `run_scraper_local`. */
  method BuildProducts(items: seq<Item>, thresholds: seq<Threshold>) returns (products: seq<Product>)
    ensures |products| == |items|
    ensures forall i :: 0 <= i < |items| ==> products[i] == ToProduct(items[i], thresholds)
  {
    products := [];
    for i := 0 to |items|
      invariant |products| == i
      invariant forall j :: 0 <= j < i ==> products[j] == ToProduct(items[j], thresholds)
    {
      var productType := InferType(items[i].name, thresholds);
      products := products + [Product(items[i].name, items[i].price, items[i].url, items[i].store,
                                      productType, Some(PLACEHOLDER_IMAGE))];
    }
  }

  /** What a successful local run publishes. */
  function LocalProducts(config: ScraperConfig, items: seq<Item>): seq<Product> {
    var kept := KeepRetailers(ItemStore, config.retailers, items);
    seq(|kept|, i requires 0 <= i < |kept| => ToProduct(kept[i], config.thresholds))
  }

  /** Each product of a local run copies a scraped record of a selected
      retailer, adds the placeholder image and the inferred type. */
  lemma LocalProductsSpec(config: ScraperConfig, items: seq<Item>, p: Product)
    requires p in LocalProducts(config, items)
    ensures p.store in config.retailers
    ensures p.image == Some(PLACEHOLDER_IMAGE)
    ensures exists x :: x in items && p.name == x.name && p.price == x.price
                        && p.url == x.url && p.store == x.store
                        && p.productType == InferredType(x.name, config.thresholds)
  {
    var kept := KeepRetailers(ItemStore, config.retailers, items);
    var i :| 0 <= i < |kept| && LocalProducts(config, items)[i] == p;
    KeepRetailersMembers(ItemStore, config.retailers, items, kept[i]);
    assert kept[i] in items;
  }

  /** Conversely, every scraped record of a selected retailer is published,
      with its inferred type. */
  lemma LocalProductsComplete(config: ScraperConfig, items: seq<Item>, x: Item)
    requires x in items && x.store in config.retailers
    ensures ToProduct(x, config.thresholds) in LocalProducts(config, items)
  {
    var kept := KeepRetailers(ItemStore, config.retailers, items);
    KeepRetailersMembers(ItemStore, config.retailers, items, x);
    var i :| 0 <= i < |kept| && kept[i] == x;
    assert LocalProducts(config, items)[i] == ToProduct(x, config.thresholds);
  }

  /** The hard-coded list the Vercel run publishes. Its urls and store
      names are those of the tracker's retailers. */
  const SAMPLE_PRODUCTS := [
    SampleProduct(Item("Pokémon TCG: Scarlet & Violet - Twilight Masquerade Booster Box", 143.99,
                       Tracker.POKEMON_CENTER_ORIGIN + "/product/699-17070/", Tracker.POKEMON_CENTER.store),
                  "booster box"),
    SampleProduct(Item("Pokémon TCG: Scarlet & Violet - Twilight Masquerade Elite Trainer Box", 49.99,
                       Tracker.TARGET_ORIGIN + "/p/pokemon-tcg-scarlet-violet-elite-trainer-box/-/A-88392018",
                       Tracker.TARGET.store),
                  "elite trainer box"),
    SampleProduct(Item("Pokémon TCG: Paldean Fates Premium Collection - Miraidon ex", 39.99,
                       Tracker.BEST_BUY_ORIGIN + "/site/pokemon-tcg-paldean-fates-premium-collection/6566306.p",
                       Tracker.BEST_BUY.store),
                  "premium collection"),
    SampleProduct(Item("Pokémon TCG: Scarlet & Violet - Twilight Masquerade 3-Pack Blister", 12.99,
                       Tracker.WALMART_ORIGIN + "/ip/pokemon-tcg-blister-pack/645383971", Tracker.WALMART.store),
                  "blister pack"),
    SampleProduct(Item("Pokémon TCG: Crown Zenith Special Collection - Pikachu VMAX", 24.99,
                       Tracker.GAMESTOP_ORIGIN + "/pokemon-tcg-crown-zenith-special-collection/1992913.html",
                       Tracker.GAMESTOP.store),
                  "special collection")
  ]

  /** Each sample looks like a record the tracker could have found: it
      carries a retailer's store name and a url under that retailer's
      origin. */
  lemma SamplesUnderRetailers()
    ensures forall s :: s in SAMPLE_PRODUCTS ==>
              exists r :: r in Tracker.RETAILERS && s.item.store == r.store
                          && |r.origin| <= |s.item.url| && s.item.url[..|r.origin|] == r.origin
  {
    Tracker.PathUnder(Tracker.POKEMON_CENTER_ORIGIN, "/product/699-17070/");
    Tracker.PathUnder(Tracker.TARGET_ORIGIN, "/p/pokemon-tcg-scarlet-violet-elite-trainer-box/-/A-88392018");
    Tracker.PathUnder(Tracker.BEST_BUY_ORIGIN, "/site/pokemon-tcg-paldean-fates-premium-collection/6566306.p");
    Tracker.PathUnder(Tracker.WALMART_ORIGIN, "/ip/pokemon-tcg-blister-pack/645383971");
    Tracker.PathUnder(Tracker.GAMESTOP_ORIGIN, "/pokemon-tcg-crown-zenith-special-collection/1992913.html");
    assert Tracker.RETAILERS[0] in Tracker.RETAILERS && Tracker.RETAILERS[1] in Tracker.RETAILERS;
    assert Tracker.RETAILERS[2] in Tracker.RETAILERS && Tracker.RETAILERS[3] in Tracker.RETAILERS;
    assert Tracker.RETAILERS[4] in Tracker.RETAILERS;
  }

  function SampleToProduct(s: SampleProduct): Product {
    Product(s.item.name, s.item.price, s.item.url, s.item.store, s.productType, Some(PLACEHOLDER_IMAGE))
  }

  /** What the Vercel run publishes. */
  function VercelProducts(config: ScraperConfig): seq<Product> {
    var kept := KeepRetailers(SampleStore, config.retailers, SAMPLE_PRODUCTS);
    seq(|kept|, i requires 0 <= i < |kept| => SampleToProduct(kept[i]))
  }

  /** Selecting every sample store publishes all five samples, in order. */
  lemma VercelPublishesAllSamples(config: ScraperConfig)
    requires forall s :: s in SAMPLE_PRODUCTS ==> s.item.store in config.retailers
    ensures |VercelProducts(config)| == |SAMPLE_PRODUCTS|
    ensures forall i :: 0 <= i < |SAMPLE_PRODUCTS| ==> VercelProducts(config)[i] == SampleToProduct(SAMPLE_PRODUCTS[i])
  {
    forall i | 0 <= i < |SAMPLE_PRODUCTS| ensures SampleStore(SAMPLE_PRODUCTS[i]) in config.retailers {
      assert SAMPLE_PRODUCTS[i] in SAMPLE_PRODUCTS;
    }
    KeepRetailersAllSelected(SampleStore, config.retailers, SAMPLE_PRODUCTS);
  }

  /** The run state and published results of the API process. */
  class ApiServer {
    const apiKey: string
    var lastResults: seq<Product>
    var lastUpdateTime: Option<nat>
    var isScraping: bool
    var scheduled: seq<Task>

    /** `API_KEY` is the environment's value, or the default. */
    constructor(envApiKey: Option<string>)
      ensures apiKey == envApiKey.GetOr(DEFAULT_API_KEY)
      ensures lastResults == [] && lastUpdateTime == None && !isScraping && scheduled == []
    {
      apiKey := envApiKey.GetOr(DEFAULT_API_KEY);
      lastResults := [];
      lastUpdateTime := None;
      isScraping := false;
      scheduled := [];
    }

    /** `get_status`. */
    function GetStatus(): (s: Status)
      reads this
      ensures s.productsCount == |lastResults|
      ensures s.isScraping == isScraping
      ensures s.lastUpdate == lastUpdateTime
      ensures forall store :: store in s.retailers <==> exists p :: p in lastResults && p.store == store
      ensures s.retailers == {} <==> lastResults == []
    {
      var retailers := if lastResults != [] then set p | p in lastResults :: p.store else {};
      assert lastResults != [] ==> lastResults[0].store in retailers;
      Status(lastUpdateTime, |lastResults|, isScraping, retailers)
    }

    /** `scrape`: the key check runs first; a request while a run is in
        progress is refused with 409 and schedules nothing; otherwise one run
        is scheduled, chosen by the `VERCEL` environment variable. */
    method Scrape(header: Option<string>, config: ScraperConfig, vercelEnv: Option<string>)
      returns (r: Result<string, HttpError>)
      modifies this`scheduled
      ensures CheckApiKey(header, apiKey).Failure? ==> r == Failure(INVALID_KEY) && scheduled == old(scheduled)
      ensures CheckApiKey(header, apiKey).Success? && isScraping ==>
                r == Failure(ALREADY_RUNNING) && scheduled == old(scheduled)
      ensures CheckApiKey(header, apiKey).Success? && !isScraping ==>
                && r == Success(SCRAPER_STARTED)
                && scheduled == old(scheduled)
                               + [Task(if vercelEnv.GetOr("0") == "1" then VercelRunner else LocalRunner, config)]
    {
      var key := CheckApiKey(header, apiKey);
      if key.Failure? {
        return Failure(key.error);
      }
      if isScraping {
        return Failure(ALREADY_RUNNING);
      }
      var isVercel := vercelEnv.GetOr("0") == "1";
      if isVercel {
        scheduled := scheduled + [Task(VercelRunner, config)];
      } else {
        scheduled := scheduled + [Task(LocalRunner, config)];
      }
      r := Success(SCRAPER_STARTED);
    }

    /** The first statement of either run: mark the run as in progress. The
        published results stay as they were until the run replaces them. */
    method StartRun()
      modifies this`isScraping
      ensures isScraping
    {
      isScraping := true;
    }

    /** `run_scraper`: publish the selected retailers' samples. */
    method RunScraper(config: ScraperConfig, now: nat)
      modifies this`isScraping, this`lastResults, this`lastUpdateTime
      ensures !isScraping
      ensures lastResults == VercelProducts(config)
      ensures lastUpdateTime == Some(now)
    {
      StartRun();
      var filtered := KeepRetailers(SampleStore, config.retailers, SAMPLE_PRODUCTS);
      var products := [];
      for i := 0 to |filtered|
        invariant |products| == i
        invariant forall j :: 0 <= j < i ==> products[j] == SampleToProduct(filtered[j])
      {
        var item := filtered[i];
        products := products + [Product(item.item.name, item.item.price, item.item.url, item.item.store,
                                        item.productType, Some(PLACEHOLDER_IMAGE))];
      }
      lastResults := products;
      lastUpdateTime := Some(now);
      isScraping := false;
    }

    /** `run_scraper_local`: on output that parses, publish the selected
        retailers' records with inferred types; otherwise leave the
        published results alone and fail with 500. The flag is cleared on
        every path. */
    method RunScraperLocal(config: ScraperConfig, output: ScraperOutput, now: nat)
      returns (r: Result<(), HttpError>)
      modifies this`isScraping, this`lastResults, this`lastUpdateTime
      ensures !isScraping
      ensures output.Parsed? ==>
                && r == Success(())
                && lastResults == LocalProducts(config, output.items)
                && lastUpdateTime == Some(now)
      ensures output.Unparseable? ==>
                && r == Failure(HttpError(500, "Error running scraper: 500: Failed to parse scraper output"))
                && lastResults == old(lastResults) && lastUpdateTime == old(lastUpdateTime)
      ensures output.Crashed? ==>
                && r == Failure(HttpError(500, "Error running scraper: " + output.reason))
                && lastResults == old(lastResults) && lastUpdateTime == old(lastUpdateTime)
    {
      StartRun();
      match output {
        case Crashed(reason) =>
          r := Failure(HttpError(500, "Error running scraper: " + reason));
        case Unparseable =>
          r := Failure(HttpError(500, "Error running scraper: 500: Failed to parse scraper output"));
        case Parsed(results) =>
          var filtered := KeepRetailers(ItemStore, config.retailers, results);
          var products := BuildProducts(filtered, config.thresholds);
          lastResults := products;
          lastUpdateTime := Some(now);
          r := Success(());
      }
      isScraping := false;
    }
  }

  /** A local run fed with the tracker's own output publishes only products
      of selected retailers whose urls lie under that retailer's origin. */
  lemma LocalRunOfTracker(config: ScraperConfig, parseFloat: string -> Option<real>,
                          network: (string, nat) -> Fetch.Attempt, extract: (Retailer, string) -> seq<Listing>,
                          p: Product)
    requires p in LocalProducts(config, Tracker.AllSites(config.thresholds, parseFloat, network, extract))
    ensures p.store in config.retailers
    ensures exists r :: r in Tracker.RETAILERS && p.store == r.store
                        && |r.origin| <= |p.url| && p.url[..|r.origin|] == r.origin
  {
    var items := Tracker.AllSites(config.thresholds, parseFloat, network, extract);
    LocalProductsSpec(config, items, p);
    var x :| x in items && p.name == x.name && p.price == x.price && p.url == x.url && p.store == x.store
             && p.productType == InferredType(x.name, config.thresholds);
    Tracker.AllSitesRecords(config.thresholds, parseFloat, network, extract, x);
  }

  /** A client of the state machine. Two requests before a run begins are
      both accepted, since only the run itself sets the flag; a request
      during a run is refused while the served results stay those of the
      previous run; a failed run leaves them in place too. */
  method RunStateScenario(config: ScraperConfig, items: seq<Item>)
  {
    var server := new ApiServer(Some("k"));
    var first := server.Scrape(Some("k"), config, None);
    var second := server.Scrape(Some("k"), config, None);
    assert first == second == Success(SCRAPER_STARTED);
    assert |server.scheduled| == 2;
    var refused := server.Scrape(None, config, None);
    assert refused == Failure(INVALID_KEY);

    var _ := server.RunScraperLocal(config, Parsed(items), 1);
    var published := server.lastResults;
    server.StartRun();
    var during := server.Scrape(Some("k"), config, None);
    assert during == Failure(ALREADY_RUNNING);
    assert server.GetStatus().isScraping && server.lastResults == published;

    var failed := server.RunScraperLocal(config, Unparseable, 2);
    assert failed.Failure? && failed.error.status == 500;
    assert !server.GetStatus().isScraping && server.lastResults == published;
    assert server.GetStatus().lastUpdate == Some(1);
  }
}
