/** `PokemonTCGTracker`: the five retailer checks, their concatenation in
    `check_all_sites`, the stored result list and the notification guard. */
module Tracker {
  import opened Wrappers
  import opened Text
  import opened Fetch
  import opened Listings

  /** Each retailer's catalogue page is a path under the origin its product
      links are built on. */
  const POKEMON_CENTER_ORIGIN := "https://www.pokemoncenter.com"
  const TARGET_ORIGIN := "https://www.target.com"
  const WALMART_ORIGIN := "https://www.walmart.com"
  const BEST_BUY_ORIGIN := "https://www.bestbuy.com"
  const GAMESTOP_ORIGIN := "https://www.gamestop.com"

  const POKEMON_CENTER := Retailer("Pokemon Center", POKEMON_CENTER_ORIGIN + "/category/trading-cards",
                                   POKEMON_CENTER_ORIGIN, SaysInStock)
  const TARGET := Retailer("Target", TARGET_ORIGIN + "/c/pokemon-trading-cards-games/-/N-5tdv",
                           TARGET_ORIGIN, NotSoldOut)
  const WALMART := Retailer("Walmart", WALMART_ORIGIN + "/browse/toys/pokemon-trading-cards/4171_4191_1044400_5208903",
                            WALMART_ORIGIN, NotOutOfStock)
  const BEST_BUY := Retailer("Best Buy", BEST_BUY_ORIGIN + "/site/searchpage.jsp?st=pokemon+cards",
                             BEST_BUY_ORIGIN, SaysAddToCart)
  const GAMESTOP := Retailer("GameStop", GAMESTOP_ORIGIN + "/collectibles/trading-cards/pokemon-tcg",
                             GAMESTOP_ORIGIN, SaysInStock)

  /** The retailers in the order `check_all_sites` visits them. */
  const RETAILERS := [POKEMON_CENTER, TARGET, WALMART, BEST_BUY, GAMESTOP]

  /** The five profiles differ in store name and origin, and each
      catalogue page lies under its retailer's origin. */
  lemma RetailerProfiles()
    ensures forall i, j :: 0 <= i < j < |RETAILERS| ==> RETAILERS[i].store != RETAILERS[j].store
    ensures forall i, j :: 0 <= i < j < |RETAILERS| ==> RETAILERS[i].origin != RETAILERS[j].origin
    ensures forall r :: r in RETAILERS ==> |r.origin| <= |r.catalogUrl| && r.catalogUrl[..|r.origin|] == r.origin
  {
    PathUnder(POKEMON_CENTER_ORIGIN, "/category/trading-cards");
    PathUnder(TARGET_ORIGIN, "/c/pokemon-trading-cards-games/-/N-5tdv");
    PathUnder(WALMART_ORIGIN, "/browse/toys/pokemon-trading-cards/4171_4191_1044400_5208903");
    PathUnder(BEST_BUY_ORIGIN, "/site/searchpage.jsp?st=pokemon+cards");
    PathUnder(GAMESTOP_ORIGIN, "/collectibles/trading-cards/pokemon-tcg");
  }

  lemma PathUnder(origin: string, path: string)
    ensures (origin + path)[..|origin|] == origin
  {
  }

  /** One `check_*` method: fetch the catalogue page; a failed fetch or an
      empty body gives no records; otherwise the records of the listings the
      page's selectors extract. Every record carries the retailer's store
      name and a url under its origin, and is at retail price. */
  function SiteResult(r: Retailer, thresholds: seq<Threshold>, parseFloat: string -> Option<real>,
                      network: (string, nat) -> Attempt, extract: (Retailer, string) -> seq<Listing>): (items: seq<Item>)
    ensures forall x :: x in items ==>
              && x.store == r.store
              && |r.origin| <= |x.url| && x.url[..|r.origin|] == r.origin
              && AtRetail(thresholds, x.name, x.price)
  {
    var html := Fetched(network, r.catalogUrl, 0);
    if html.None? || html.value == "" then []
    else
      var found := Filtered(r, thresholds, parseFloat, extract(r, html.value));
      assert forall x :: x in found ==>
               && x.store == r.store
               && |r.origin| <= |x.url| && x.url[..|r.origin|] == r.origin
               && AtRetail(thresholds, x.name, x.price) by {
        forall x | x in found
          ensures && x.store == r.store
                  && |r.origin| <= |x.url| && x.url[..|r.origin|] == r.origin
                  && AtRetail(thresholds, x.name, x.price)
        {
          FilteredRecords(r, thresholds, parseFloat, extract(r, html.value), x);
        }
      }
      found
  }

  /** What `check_all_sites` collects: the five retailers' records, in
      order; every record is one of the retailers' own. */
  function AllSites(thresholds: seq<Threshold>, parseFloat: string -> Option<real>,
                    network: (string, nat) -> Attempt, extract: (Retailer, string) -> seq<Listing>): (items: seq<Item>)
    ensures forall x :: x in items ==>
              exists i :: 0 <= i < |RETAILERS| && x in SiteResult(RETAILERS[i], thresholds, parseFloat, network, extract)
  {
    var all := SiteResult(POKEMON_CENTER, thresholds, parseFloat, network, extract)
    + SiteResult(TARGET, thresholds, parseFloat, network, extract)
    + SiteResult(WALMART, thresholds, parseFloat, network, extract)
    + SiteResult(BEST_BUY, thresholds, parseFloat, network, extract)
    + SiteResult(GAMESTOP, thresholds, parseFloat, network, extract);
    assert forall x :: x in all ==>
             exists i :: 0 <= i < |RETAILERS| && x in SiteResult(RETAILERS[i], thresholds, parseFloat, network, extract) by {
      forall x | x in all
        ensures exists i :: 0 <= i < |RETAILERS| && x in SiteResult(RETAILERS[i], thresholds, parseFloat, network, extract)
      {
        if x in SiteResult(RETAILERS[0], thresholds, parseFloat, network, extract) {
        } else if x in SiteResult(RETAILERS[1], thresholds, parseFloat, network, extract) {
        } else if x in SiteResult(RETAILERS[2], thresholds, parseFloat, network, extract) {
        } else if x in SiteResult(RETAILERS[3], thresholds, parseFloat, network, extract) {
        } else {
          assert x in SiteResult(RETAILERS[4], thresholds, parseFloat, network, extract);
        }
      }
    }
    all
  }

  /** A retailer contributes nothing when its three requests all fail, or
      when the first request that is delivered carries an empty body. */
  lemma FailedSiteContributesNothing(r: Retailer, thresholds: seq<Threshold>, parseFloat: string -> Option<real>,
                                     network: (string, nat) -> Attempt, extract: (Retailer, string) -> seq<Listing>)
    requires || (forall k :: 0 <= k < MAX_RETRIES ==> network(r.catalogUrl, k).Failed?)
             || (exists k :: 0 <= k < MAX_RETRIES && network(r.catalogUrl, k) == Delivered("")
                             && forall j :: 0 <= j < k ==> network(r.catalogUrl, j).Failed?)
    ensures SiteResult(r, thresholds, parseFloat, network, extract) == []
  {
    if k :| 0 <= k < MAX_RETRIES && network(r.catalogUrl, k) == Delivered("")
            && forall j :: 0 <= j < k ==> network(r.catalogUrl, j).Failed? {
      FetchedFirst(network, r.catalogUrl, k);
    }
  }

  /** Every collected record comes from one of the five retailers, carries
      that retailer's store name and a url under its origin. */
  lemma AllSitesRecords(thresholds: seq<Threshold>, parseFloat: string -> Option<real>,
                        network: (string, nat) -> Attempt, extract: (Retailer, string) -> seq<Listing>, x: Item)
    requires x in AllSites(thresholds, parseFloat, network, extract)
    ensures exists r :: r in RETAILERS && x.store == r.store
                        && |r.origin| <= |x.url| && x.url[..|r.origin|] == r.origin
    ensures AtRetail(thresholds, x.name, x.price)
  {
    var i :| 0 <= i < |RETAILERS| && x in SiteResult(RETAILERS[i], thresholds, parseFloat, network, extract);
    assert RETAILERS[i] in RETAILERS;
  }

  /** The notification settings: `send_email_notification` reads `sender`,
      `recipient` and `password` and needs each to be present and non-empty. */
  predicate Filled(emailConfig: map<string, string>, key: string) {
    key in emailConfig && emailConfig[key] != ""
  }

  /** The guard of `send_email_notification`: an empty item list, an empty
      configuration, or a missing sender, recipient or password makes it
      return without sending. */
  predicate NotificationSent(emailConfig: map<string, string>, items: seq<Item>) {
    && items != []
    && emailConfig != map[]
    && Filled(emailConfig, "sender")
    && Filled(emailConfig, "recipient")
    && Filled(emailConfig, "password")
  }

  /** The empty-configuration test is subsumed by the three field tests. */
  lemma NotificationSentIff(emailConfig: map<string, string>, items: seq<Item>)
    ensures NotificationSent(emailConfig, items)
        <==> items != [] && Filled(emailConfig, "sender") && Filled(emailConfig, "recipient")
             && Filled(emailConfig, "password")
  {
    if Filled(emailConfig, "sender") {
      assert "sender" in emailConfig.Keys;
    }
  }

  /** A tracker built from a loaded configuration. The mail transport is an
      outbox: `outbox` lists the item lists handed to SMTP, one per message. */
  class PokemonTcgTracker {
    const thresholds: seq<Threshold>
    const emailConfig: map<string, string>
    var inStockItems: seq<Item>
    var outbox: seq<seq<Item>>

    constructor(thresholds: seq<Threshold>, emailConfig: map<string, string>)
      ensures this.thresholds == thresholds && this.emailConfig == emailConfig
      ensures inStockItems == [] && outbox == []
    {
      this.thresholds := thresholds;
      this.emailConfig := emailConfig;
      inStockItems := [];
      outbox := [];
    }

    /** One `check_*` method, parameterised by the retailer profile. */
    method CheckSite(r: Retailer, parseFloat: string -> Option<real>,
                     network: (string, nat) -> Attempt, extract: (Retailer, string) -> seq<Listing>)
      returns (inStock: seq<Item>)
      ensures inStock == SiteResult(r, thresholds, parseFloat, network, extract)
    {
      var html, _ := FetchPage(network, r.catalogUrl);
      if html.None? || html.value == "" {
        return [];
      }
      inStock := CheckListings(r, thresholds, parseFloat, extract(r, html.value));
    }

    /** `send_email_notification(items)`. */
    method SendEmailNotification(items: seq<Item>)
      modifies this`outbox
      ensures outbox == if NotificationSent(emailConfig, items) then old(outbox) + [items] else old(outbox)
    {
      if items == [] || emailConfig == map[] {
        return;
      }
      if !(Filled(emailConfig, "sender") && Filled(emailConfig, "recipient") && Filled(emailConfig, "password")) {
        return;
      }
      outbox := outbox + [items];
    }

    /** `check_all_sites()`: the five checks in order, the result stored in
        `in_stock_items`, a notification only when something was found. */
    method CheckAllSites(parseFloat: string -> Option<real>,
                         network: (string, nat) -> Attempt, extract: (Retailer, string) -> seq<Listing>)
      returns (allInStock: seq<Item>)
      modifies this`inStockItems, this`outbox
      ensures allInStock == AllSites(thresholds, parseFloat, network, extract)
      ensures inStockItems == allInStock
      ensures outbox == if NotificationSent(emailConfig, allInStock) then old(outbox) + [allInStock]
                        else old(outbox)
    {
      allInStock := [];
      var found := CheckSite(POKEMON_CENTER, parseFloat, network, extract);
      assert allInStock + found == found;
      allInStock := allInStock + found;
      found := CheckSite(TARGET, parseFloat, network, extract);
      allInStock := allInStock + found;
      found := CheckSite(WALMART, parseFloat, network, extract);
      allInStock := allInStock + found;
      found := CheckSite(BEST_BUY, parseFloat, network, extract);
      allInStock := allInStock + found;
      found := CheckSite(GAMESTOP, parseFloat, network, extract);
      allInStock := allInStock + found;
      inStockItems := allInStock;
      if allInStock != [] {
        SendEmailNotification(allInStock);
      }
    }
  }
}
