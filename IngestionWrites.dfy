/** saleor/product/ingestion.py: what an ingestion writes for a product: a slug no other
    product has, the stock of each variant in the target warehouse, and the variant's
    price in each channel. The database is a value here: the set of slugs in use, a
    warehouse stock row that exists or not, and a map from channel to listing.
    `slugify` and the currency conversion (`convert_price` over the exchange rates) are
    parameters. */
module IngestionWrites {
  import opened Wrappers
  import opened Text
  import opened IngestionData

  // Slugs

  /** The `k`-th slug `create_product` tries: the base itself, then `base-1`, `base-2`, ... */
  function Attempt(base: string, k: nat): string {
    if k == 0 then base else base + "-" + NatToStr(k)
  }

  /** Different attempts give different slugs. */
  lemma AttemptInjective(base: string, j: nat, k: nat)
    requires Attempt(base, j) == Attempt(base, k)
    ensures j == k
  {
    if j != 0 && k != 0 {
      var sj, sk := NatToStr(j), NatToStr(k);
      assert Attempt(base, j)[|base| + 1..] == sj;
      assert Attempt(base, k)[|base| + 1..] == sk;
      NatToStrInjective(j, k);
    }
  }

  /** The slug loop of `create_product`: the first attempt not in use. */
  method UniqueSlug(base: string, taken: set<string>) returns (slug: string, ghost k: nat)
    ensures slug == Attempt(base, k) && slug !in taken
    ensures forall j :: 0 <= j < k ==> Attempt(base, j) in taken
    ensures k <= |taken|
  {
    slug := base;
    var counter := 1;
    ghost var tried: set<string> := {};
    while slug in taken
      invariant slug == Attempt(base, counter - 1)
      invariant forall j :: 0 <= j < counter - 1 ==> Attempt(base, j) in tried
      invariant tried <= taken && |tried| == counter - 1
      invariant forall s :: s in tried ==> exists j :: 0 <= j < counter - 1 && s == Attempt(base, j)
      decreases |taken| - |tried|
    {
      forall j | 0 <= j < counter - 1
        ensures Attempt(base, j) != slug
      {
        if Attempt(base, j) == slug {
          AttemptInjective(base, j, counter - 1);
        }
      }
      assert slug !in tried;
      tried := tried + {slug};
      SubsetSize(tried, taken);
      slug := base + "-" + NatToStr(counter);
      counter := counter + 1;
    }
    SubsetSize(tried, taken);
    k := counter - 1;
  }

  lemma SubsetSize<T>(a: set<T>, b: set<T>)
    requires a <= b
    ensures |a| <= |b|
  {
    assert b == a + (b - a);
  }

  // Stock

  /** `update_stock`: `get_or_create` creates the row with the sheet's quantity; an
      existing row is overwritten in "replace" mode and incremented otherwise. `existing` is
      the quantity of the row if there is one. */
  function UpdateStock(existing: Option<int>, quantity: int, mode: string): (q: int)
    ensures existing.None? ==> q == quantity
    ensures existing.Some? && mode == "replace" ==> q == quantity
    ensures existing.Some? && mode != "replace" ==> q - existing.value == quantity
  {
    if existing.None? then quantity
    else if mode == "replace" then quantity
    else existing.value + quantity
  }

  /** Replacing twice is replacing once. */
  lemma ReplaceIdempotent(existing: Option<int>, quantity: int)
    ensures UpdateStock(Some(UpdateStock(existing, quantity, "replace")), quantity, "replace")
      == UpdateStock(existing, quantity, "replace")
  {
  }

  /** Adding two sheets in turn adds their sum. */
  lemma AddTwice(existing: int, a: int, b: int, mode: string)
    requires mode != "replace"
    ensures UpdateStock(Some(UpdateStock(Some(existing), a, mode)), b, mode)
      == UpdateStock(Some(existing), a + b, mode)
  {
  }

  // Variant channel listings

  datatype Channel = Channel(slug: string, currencyCode: string)

  /** A `ProductVariantChannelListing`: its price and discounted price in the channel's
      currency, either possibly unset. */
  datatype Listing = Listing(price: Option<real>, discountedPrice: Option<real>)

  /** `convert_price(price, from, to, exchange_rates)`, the rates folded into the parameter. */
  type Converter = (real, string, string) -> real

  /** One channel of `update_variant_channel_listing_prices`: a new listing is created at
      the converted price (`create_variant_channel_listing`), an unpriced one is priced, and
      a priced one rises to the converted price if that is higher. */
  function UpdateListing(listings: map<string, Listing>, channel: Channel, price: real, currency: string,
                         convert: Converter): map<string, Listing>
  {
    var newPrice := convert(price, currency, channel.currencyCode);
    if channel.slug !in listings then listings[channel.slug := Listing(Some(newPrice), Some(newPrice))]
    else
      var prev := listings[channel.slug];
      if prev.price.None? then listings[channel.slug := prev.(price := Some(newPrice))]
      else listings[channel.slug := prev.(price := Some(MaxR(prev.price.value, newPrice)))]
  }

  /** `update_variant_channel_listing_prices`: the channels in turn. A row without a price
      raises `ValueError` at the first channel, before anything is written. */
  function UpdateListings(listings: map<string, Listing>, channels: seq<Channel>, price: Option<real>,
                          currency: string, convert: Converter): Result<map<string, Listing>, IngestError>
  {
    if channels == [] then Ok(listings)
    else if price.None? then Err(PriceRequired)
    else Ok(ApplyAll(listings, channels, price.value, currency, convert))
  }

  function ApplyAll(listings: map<string, Listing>, channels: seq<Channel>, price: real, currency: string,
                    convert: Converter): map<string, Listing>
  {
    if channels == [] then listings
    else UpdateListing(ApplyAll(listings, channels[..|channels| - 1], price, currency, convert),
                       channels[|channels| - 1], price, currency, convert)
  }

  /** A priced listing never gets cheaper, no listing disappears, discounted prices of
      existing listings are kept, and listings of channels not in the list stay as they
      were. */
  lemma {:induction false} ApplyAllKeeps(listings: map<string, Listing>, channels: seq<Channel>, price: real,
                                          currency: string, convert: Converter)
    ensures var r := ApplyAll(listings, channels, price, currency, convert);
      && listings.Keys <= r.Keys
      && (forall s :: s in listings && listings[s].price.Some? ==>
            r[s].price.Some? && r[s].price.value >= listings[s].price.value)
      && (forall s :: s in listings ==> r[s].discountedPrice == listings[s].discountedPrice)
      && (forall s :: s in listings && (forall c :: c in channels ==> c.slug != s) ==> r[s] == listings[s])
  {
    if channels != [] {
      var init := channels[..|channels| - 1];
      ApplyAllKeeps(listings, init, price, currency, convert);
      assert forall c :: c in init ==> c in channels;
    }
  }

  /** Every listed channel ends up priced at no less than the converted price, and a
      listing the update creates carries a discounted price. */
  lemma {:induction false} ApplyAllCovers(listings: map<string, Listing>, channels: seq<Channel>, price: real,
                                           currency: string, convert: Converter)
    ensures var r := ApplyAll(listings, channels, price, currency, convert);
      && (forall c :: c in channels ==>
            c.slug in r && r[c.slug].price.Some? && r[c.slug].price.value >= convert(price, currency, c.currencyCode))
      && (forall s :: s in r && s !in listings ==> r[s].discountedPrice.Some?)
  {
    if channels != [] {
      var init := channels[..|channels| - 1];
      ApplyAllCovers(listings, init, price, currency, convert);
      assert channels == init + [channels[|channels| - 1]];
    }
  }

  /** The update either fails on a missing price, changing nothing, or applies the
      properties above. */
  lemma UpdateListingsOutcome(listings: map<string, Listing>, channels: seq<Channel>, price: Option<real>,
                              currency: string, convert: Converter)
    ensures var r := UpdateListings(listings, channels, price, currency, convert);
      && (r.Err? <==> price.None? && channels != [])
      && (r.Ok? ==> forall s :: s in listings && listings[s].price.Some? ==>
            s in r.value && r.value[s].price.Some? && r.value[s].price.value >= listings[s].price.value)
      && (r.Ok? ==> forall c :: c in channels ==>
            c.slug in r.value && r.value[c.slug].price.Some?
            && r.value[c.slug].price.value >= convert(price.value, currency, c.currencyCode))
  {
    if channels != [] && price.Some? {
      ApplyAllKeeps(listings, channels, price.value, currency, convert);
      ApplyAllCovers(listings, channels, price.value, currency, convert);
    }
  }

  /** The loop of `update_variant_channel_listing_prices`. */
  method UpdateListingPrices(listings: map<string, Listing>, channels: seq<Channel>, price: Option<real>,
                             currency: string, convert: Converter)
    returns (r: Result<map<string, Listing>, IngestError>)
    ensures r == UpdateListings(listings, channels, price, currency, convert)
  {
    var current := listings;
    for i := 0 to |channels|
      invariant price.Some? ==> current == ApplyAll(listings, channels[..i], price.value, currency, convert)
      invariant price.None? ==> current == listings && i == 0
    {
      assert channels[..i + 1][..i] == channels[..i];
      var channel := channels[i];
      if price.None? {
        return Err(PriceRequired);
      }
      var newPrice := convert(price.value, currency, channel.currencyCode);
      if channel.slug !in current {
        current := current[channel.slug := Listing(Some(newPrice), Some(newPrice))];
      } else {
        var prev := current[channel.slug];
        if prev.price.None? {
          current := current[channel.slug := prev.(price := Some(newPrice))];
        } else {
          current := current[channel.slug := prev.(price := Some(MaxR(prev.price.value, newPrice)))];
        }
      }
    }
    assert channels[..|channels|] == channels;
    return Ok(current);
  }
}
