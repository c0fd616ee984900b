/** The per-listing decision pipeline shared by the five `check_*` methods of
    `PokemonTCGTracker`, taken after HTML extraction: the five methods differ
    only in the retailer's origin, store name and stock rule, which a
    `Retailer` profile carries. */
module Listings {
  import opened Wrappers
  import opened Text

  /** An `<a>` element found for the product link; its `href` attribute may
      be missing (reading it then raises `KeyError`). */
  datatype Anchor = Anchor(href: Option<string>)

  /** What the selectors found inside one product element: the text of the
      name, price and availability elements and the link element, each
      absent when `select_one` returned `None`. */
  datatype Listing = Listing(
    name: Option<string>,
    price: Option<string>,
    availability: Option<string>,
    link: Option<Anchor>)

  /** One entry of `retail_price_thresholds`, in the mapping's order. */
  datatype Threshold = Threshold(key: string, ceiling: real)

  /** An in-stock record `{name, price, url, store}`. */
  datatype Item = Item(name: string, price: real, url: string, store: string)

  /** How a retailer's availability text is read. */
  datatype StockRule =
    | SaysInStock        // Pokemon Center, GameStop: present and "in stock"
    | SaysAddToCart      // Best Buy: present and "add to cart"
    | NotSoldOut         // Target: unless present with "sold out" or "out of stock"
    | NotOutOfStock      // Walmart: unless present with "out of stock"

  /** A site profile: which page to fetch, how to build product links, the
      store name put on every record and the stock rule. */
  datatype Retailer = Retailer(store: string, catalogUrl: string, origin: string, rule: StockRule)

  /** The in-stock decision on the availability text, lower-cased. */
  predicate InStock(rule: StockRule, availability: Option<string>) {
    match rule
    case SaysInStock =>
      availability.Some? && Contains(Lower(availability.value), "in stock")
    case SaysAddToCart =>
      availability.Some? && Contains(Lower(availability.value), "add to cart")
    case NotSoldOut =>
      !(availability.Some? && (Contains(Lower(availability.value), "sold out")
                               || Contains(Lower(availability.value), "out of stock")))
    case NotOutOfStock =>
      !(availability.Some? && Contains(Lower(availability.value), "out of stock"))
  }

  /** Retailers whose page may omit the availability element treat the
      listing as in stock; the others reject it. */
  lemma MissingAvailability(rule: StockRule)
    ensures InStock(rule, None) <==> (rule == NotSoldOut || rule == NotOutOfStock)
  {
  }

  /** The four stock rules in terms of where the phrases occur in the
      lower-cased availability text. */
  lemma InStockPositions(availability: Option<string>)
    ensures InStock(SaysInStock, availability)
        <==> availability.Some? && exists k :: OccursAt(Lower(availability.value), "in stock", k)
    ensures InStock(SaysAddToCart, availability)
        <==> availability.Some? && exists k :: OccursAt(Lower(availability.value), "add to cart", k)
    ensures InStock(NotSoldOut, availability)
        <==> availability.None? || forall k :: !OccursAt(Lower(availability.value), "sold out", k)
                                             && !OccursAt(Lower(availability.value), "out of stock", k)
    ensures InStock(NotOutOfStock, availability)
        <==> availability.None? || forall k :: !OccursAt(Lower(availability.value), "out of stock", k)
  {
    if availability.Some? {
      var text := Lower(availability.value);
      ContainsIff(text, "in stock");
      ContainsIff(text, "add to cart");
      ContainsIff(text, "sold out");
      ContainsIff(text, "out of stock");
      if Contains(text, "in stock") {
        var k :| OccursAt(text, "in stock", k);
        assert exists j :: OccursAt(Lower(availability.value), "in stock", j);
      }
      if Contains(text, "add to cart") {
        var k :| OccursAt(text, "add to cart", k);
        assert exists j :: OccursAt(Lower(availability.value), "add to cart", j);
      }
    }
  }

  /** `price_text.replace('$', '').replace(',', '')`. */
  function NormalisePrice(text: string): (r: string)
    ensures '$' !in r && ',' !in r
  {
    RemoveAll(RemoveAll(text, '$'), ',')
  }

  /** Normalisation keeps every other character, in order: it works piece by
      piece and leaves a piece without `$` and `,` untouched. */
  lemma NormalisePriceAppend(a: string, b: string)
    ensures NormalisePrice(a + b) == NormalisePrice(a) + NormalisePrice(b)
  {
    RemoveAllAppend(a, b, '$');
    RemoveAllAppend(RemoveAll(a, '$'), RemoveAll(b, '$'), ',');
  }

  lemma NormalisePriceKeeps(s: string)
    requires '$' !in s && ',' !in s
    ensures NormalisePrice(s) == s
  {
    RemoveAllAbsent(s, '$');
    RemoveAllAbsent(s, ',');
  }

  lemma NormalisePriceIdempotent(s: string)
    ensures NormalisePrice(NormalisePrice(s)) == NormalisePrice(s)
  {
    NormalisePriceKeeps(NormalisePrice(s));
  }

  /** The body of the threshold loop: the key, lower-cased, occurs in the
      lower-cased name and the price is at most the key's ceiling. */
  predicate Matches(t: Threshold, name: string, price: real) {
    Contains(Lower(name), Lower(t.key)) && price <= t.ceiling
  }

  /** "Retail price": some threshold entry matches. */
  predicate AtRetail(thresholds: seq<Threshold>, name: string, price: real) {
    exists i :: 0 <= i < |thresholds| && Matches(thresholds[i], name, price)
  }

  /** The retail-price loop with its flag and `break`. */
  method IsRetailPrice(thresholds: seq<Threshold>, name: string, price: real)
    returns (isRetail: bool)
    ensures isRetail <==> AtRetail(thresholds, name, price)
    ensures isRetail <==> exists i, k :: 0 <= i < |thresholds|
                                      && OccursAt(Lower(name), Lower(thresholds[i].key), k)
                                      && price <= thresholds[i].ceiling
  {
    isRetail := false;
    for i := 0 to |thresholds|
      invariant forall j :: 0 <= j < i ==> !Matches(thresholds[j], name, price)
    {
      if Contains(Lower(name), Lower(thresholds[i].key)) && price <= thresholds[i].ceiling {
        isRetail := true;
        break;
      }
    }
    AtRetailPositions(thresholds, name, price);
  }

  /** One threshold entry matches exactly when its key occurs somewhere in
      the name, ignoring case, and the price is within its ceiling. */
  lemma MatchesPositions(t: Threshold, name: string, price: real)
    ensures Matches(t, name, price)
        <==> exists k :: OccursAt(Lower(name), Lower(t.key), k) && price <= t.ceiling
  {
    var hay, needle := Lower(name), Lower(t.key);
    ContainsIff(hay, needle);
    if Matches(t, name, price) {
      var k :| OccursAt(hay, needle, k);
      assert OccursAt(hay, needle, k) && price <= t.ceiling;
      assert exists j :: OccursAt(Lower(name), Lower(t.key), j) && price <= t.ceiling;
    } else if Contains(hay, needle) {
      assert !(price <= t.ceiling);
    } else {
      assert forall k :: !OccursAt(hay, needle, k);
    }
  }

  /** The retail test in terms of positions in the name. */
  lemma AtRetailPositions(thresholds: seq<Threshold>, name: string, price: real)
    ensures AtRetail(thresholds, name, price)
        <==> exists i, k :: 0 <= i < |thresholds|
                         && OccursAt(Lower(name), Lower(thresholds[i].key), k)
                         && price <= thresholds[i].ceiling
  {
    if AtRetail(thresholds, name, price) {
      var i :| 0 <= i < |thresholds| && Matches(thresholds[i], name, price);
      MatchesPositions(thresholds[i], name, price);
      var k :| OccursAt(Lower(name), Lower(thresholds[i].key), k) && price <= thresholds[i].ceiling;
      assert OccursAt(Lower(name), Lower(thresholds[i].key), k);
    }
    if i, k :| 0 <= i < |thresholds| && OccursAt(Lower(name), Lower(thresholds[i].key), k)
               && price <= thresholds[i].ceiling {
      MatchesPositions(thresholds[i], name, price);
      assert Matches(thresholds[i], name, price);
    }
  }

  /** The test ignores the case of the name. */
  lemma AtRetailIgnoresCase(thresholds: seq<Threshold>, name: string, price: real)
    ensures AtRetail(thresholds, Lower(name), price) == AtRetail(thresholds, name, price)
  {
    LowerIdempotent(name);
  }

  /** A listing at retail price stays so at any lower price. */
  lemma AtRetailLowerPrice(thresholds: seq<Threshold>, name: string, price: real, lower: real)
    requires lower <= price && AtRetail(thresholds, name, price)
    ensures AtRetail(thresholds, name, lower)
  {
    var i :| 0 <= i < |thresholds| && Matches(thresholds[i], name, price);
    assert Matches(thresholds[i], name, lower);
  }

  /** One iteration of the product loop: `None` where the source skips the
      listing (`continue` on a missing element, or an exception from
      `float()` or from the missing `href`, caught and logged) or does not
      append it. */
  function ProcessListing(r: Retailer, thresholds: seq<Threshold>,
                          parseFloat: string -> Option<real>, l: Listing): (o: Option<Item>)
    ensures o.Some? ==> o.value.store == r.store
    ensures o.Some? ==> |r.origin| <= |o.value.url| && o.value.url[..|r.origin|] == r.origin
    ensures o.Some? ==> AtRetail(thresholds, o.value.name, o.value.price)
  {
    if l.name.None? || l.price.None? || l.link.None? then None
    else
      var name := Strip(l.name.value);
      match parseFloat(NormalisePrice(Strip(l.price.value)))
      case None => None
      case Some(price) =>
        match l.link.value.href
        case None => None
        case Some(href) =>
          if InStock(r.rule, l.availability) && AtRetail(thresholds, name, price)
          then
            assert (r.origin + href)[..|r.origin|] == r.origin;
            Some(Item(name, price, r.origin + href, r.store))
          else None
  }

  /** Everything a record says about the listing it came from. */
  lemma ProcessListingSpec(r: Retailer, thresholds: seq<Threshold>,
                           parseFloat: string -> Option<real>, l: Listing)
    ensures ProcessListing(r, thresholds, parseFloat, l).Some?
        <==> && l.name.Some? && l.price.Some?
             && l.link.Some? && l.link.value.href.Some?
             && parseFloat(NormalisePrice(Strip(l.price.value))).Some?
             && InStock(r.rule, l.availability)
             && AtRetail(thresholds, Strip(l.name.value),
                         parseFloat(NormalisePrice(Strip(l.price.value))).value)
    ensures ProcessListing(r, thresholds, parseFloat, l).Some? ==>
              ProcessListing(r, thresholds, parseFloat, l).value
                == Item(Strip(l.name.value),
                        parseFloat(NormalisePrice(Strip(l.price.value))).value,
                        r.origin + l.link.value.href.value,
                        r.store)
  {
  }

  // ---------------------------------------------------------------------------
  // Order-preserving collection: the append loop, independent of what it keeps
  // ---------------------------------------------------------------------------

  /** What one element contributes: zero or one values. */
  function Emitted<U>(o: Option<U>): seq<U> {
    if o.Some? then [o.value] else []
  }

  /** Appending, in order, what `process` yields for each element. */
  function Collect<T, U>(process: T -> Option<U>, xs: seq<T>): (ys: seq<U>)
    ensures |ys| <= |xs|
  {
    if xs == [] then []
    else Collect(process, xs[..|xs| - 1]) + Emitted(process(xs[|xs| - 1]))
  }

  lemma {:induction false} CollectAppend<T, U>(process: T -> Option<U>, a: seq<T>, b: seq<T>)
    ensures Collect(process, a + b) == Collect(process, a) + Collect(process, b)
    decreases |b|
  {
    if b == [] {
      assert a + b == a;
    } else {
      var b' := b[..|b| - 1];
      assert (a + b)[..|a + b| - 1] == a + b';
      assert (a + b)[|a + b| - 1] == b[|b| - 1];
      CollectAppend(process, a, b');
    }
  }

  lemma {:induction false} CollectMembers<T, U>(process: T -> Option<U>, xs: seq<T>, y: U)
    ensures y in Collect(process, xs) <==> exists i :: 0 <= i < |xs| && process(xs[i]) == Some(y)
    decreases |xs|
  {
    if xs != [] {
      var n := |xs| - 1;
      var front := xs[..n];
      CollectMembers(process, front, y);
      if y in Collect(process, xs) {
        if y in Collect(process, front) {
          var i :| 0 <= i < n && process(front[i]) == Some(y);
          assert front[i] == xs[i];
        } else {
          assert process(xs[n]) == Some(y);
        }
      }
      if i :| 0 <= i < |xs| && process(xs[i]) == Some(y) {
        if i < n {
          assert front[i] == xs[i];
          assert y in Collect(process, front);
        } else {
          assert y in Emitted(process(xs[n]));
        }
      }
    }
  }

  lemma {:induction false} CollectNothing<T, U>(process: T -> Option<U>, xs: seq<T>)
    requires forall i :: 0 <= i < |xs| ==> process(xs[i]).None?
    ensures Collect(process, xs) == []
    decreases |xs|
  {
    if xs != [] {
      CollectNothing(process, xs[..|xs| - 1]);
    }
  }

  // ---------------------------------------------------------------------------
  // One retailer's records
  // ---------------------------------------------------------------------------

  /** The product loop's body as a value, for one retailer and configuration. */
  function Processor(r: Retailer, thresholds: seq<Threshold>,
                     parseFloat: string -> Option<real>): Listing -> Option<Item>
  {
    l => ProcessListing(r, thresholds, parseFloat, l)
  }

  /** The records of the listings, in order. */
  function Filtered(r: Retailer, thresholds: seq<Threshold>,
                    parseFloat: string -> Option<real>, listings: seq<Listing>): seq<Item>
  {
    Collect(Processor(r, thresholds, parseFloat), listings)
  }

  /** The records of two runs of listings are the records of each, in turn. */
  lemma FilteredAppend(r: Retailer, thresholds: seq<Threshold>,
                       parseFloat: string -> Option<real>, a: seq<Listing>, b: seq<Listing>)
    ensures Filtered(r, thresholds, parseFloat, a + b)
         == Filtered(r, thresholds, parseFloat, a) + Filtered(r, thresholds, parseFloat, b)
  {
    CollectAppend(Processor(r, thresholds, parseFloat), a, b);
  }

  /** A record appears exactly when some listing produces it, and there are
      no more records than listings. */
  lemma FilteredMembers(r: Retailer, thresholds: seq<Threshold>,
                        parseFloat: string -> Option<real>, listings: seq<Listing>, x: Item)
    ensures |Filtered(r, thresholds, parseFloat, listings)| <= |listings|
    ensures x in Filtered(r, thresholds, parseFloat, listings)
        <==> exists i :: 0 <= i < |listings| && ProcessListing(r, thresholds, parseFloat, listings[i]) == Some(x)
  {
    CollectMembers(Processor(r, thresholds, parseFloat), listings, x);
  }

  /** Every record carries the retailer's store name and a url that starts
      with the retailer's origin, and is at retail price. */
  lemma FilteredRecords(r: Retailer, thresholds: seq<Threshold>,
                        parseFloat: string -> Option<real>, listings: seq<Listing>, x: Item)
    requires x in Filtered(r, thresholds, parseFloat, listings)
    ensures x.store == r.store
    ensures |r.origin| <= |x.url| && x.url[..|r.origin|] == r.origin
    ensures AtRetail(thresholds, x.name, x.price)
  {
    FilteredMembers(r, thresholds, parseFloat, listings, x);
    var i :| 0 <= i < |listings| && ProcessListing(r, thresholds, parseFloat, listings[i]) == Some(x);
  }

  /** With no thresholds no listing is ever at retail price. */
  lemma EmptyThresholdsRejectAll(r: Retailer, parseFloat: string -> Option<real>, listings: seq<Listing>)
    ensures Filtered(r, [], parseFloat, listings) == []
  {
    forall i | 0 <= i < |listings|
      ensures Processor(r, [], parseFloat)(listings[i]).None?
    {
      var o := ProcessListing(r, [], parseFloat, listings[i]);
      if o.Some? {
        assert AtRetail([], o.value.name, o.value.price);
      }
    }
    CollectNothing(Processor(r, [], parseFloat), listings);
  }

  /** Taking one more listing appends what that listing yields. */
  lemma FilteredStep(r: Retailer, thresholds: seq<Threshold>,
                     parseFloat: string -> Option<real>, listings: seq<Listing>, i: nat)
    requires i < |listings|
    ensures Filtered(r, thresholds, parseFloat, listings[..i + 1])
         == Filtered(r, thresholds, parseFloat, listings[..i])
            + Emitted(ProcessListing(r, thresholds, parseFloat, listings[i]))
  {
    assert listings[..i + 1] == listings[..i] + [listings[i]];
    FilteredAppend(r, thresholds, parseFloat, listings[..i], [listings[i]]);
    assert [listings[i]][1..] == [];
  }

  /** The body of the product loop for one listing: skip it when an element
      is missing or its price or link cannot be read, otherwise report it
      when it is in stock at retail price. */
  method ProcessOne(r: Retailer, thresholds: seq<Threshold>,
                    parseFloat: string -> Option<real>, l: Listing)
    returns (o: Option<Item>)
    ensures o == ProcessListing(r, thresholds, parseFloat, l)
  {
    if l.name.None? || l.price.None? || l.link.None? {
      return None;
    }
    var name := Strip(l.name.value);
    var price := parseFloat(NormalisePrice(Strip(l.price.value)));
    if price.None? || l.link.value.href.None? {
      return None;
    }
    var productUrl := r.origin + l.link.value.href.value;
    var inStockStatus := InStock(r.rule, l.availability);
    var isRetail := IsRetailPrice(thresholds, name, price.value);
    if inStockStatus && isRetail {
      return Some(Item(name, price.value, productUrl, r.store));
    }
    return None;
  }

  /** The product loop of a `check_*` method over the extracted listings. */
  method CheckListings(r: Retailer, thresholds: seq<Threshold>,
                       parseFloat: string -> Option<real>, listings: seq<Listing>)
    returns (inStock: seq<Item>)
    ensures inStock == Filtered(r, thresholds, parseFloat, listings)
  {
    inStock := [];
    for i := 0 to |listings|
      invariant inStock == Filtered(r, thresholds, parseFloat, listings[..i])
    {
      FilteredStep(r, thresholds, parseFloat, listings, i);
      var o := ProcessOne(r, thresholds, parseFloat, listings[i]);
      if o.Some? {
        inStock := inStock + [o.value];
      }
    }
    assert listings[..|listings|] == listings;
  }
}
