/**
 * The parts of app/services/goofish_service.py the core depends on: the
 * driver/login state and its guards, the accept and URL rule applied to
 * every scraped listing entry, the mock product generator used whenever a
 * search yields nothing, and the canned seller replies. Browser automation
 * is abstracted: what the page parser read is an input, and the outcome
 * of the login flow is an input.
 */
module Goofish {
  import opened Wrappers
  import opened Text
  import opened Schema

  const SiteOrigin: string := "https://www.goofish.com"

  /** How the browser login flow ended. */
  datatype LoginOutcome =
    | BrowserFailure   // starting the driver raised
    | Rejected         // the driver runs, but a page raised, no input box was found or no success marker appeared
    | Accepted         // already logged in, or a success marker appeared

  /** One listing entry as the page parser read it; `Unparseable` when reading it raised. */
  datatype RawItem = Parsed(title: string, price: real, sellerName: string, url: string) | Unparseable

  /** What the search page held: no listing under any selector, a listing, or an error while loading. */
  datatype ScrapedPage = NoListing | Listing(items: seq<RawItem>) | PageError

  /** The random draws for one mock product: the price jitter, the seller number, the city index, the item number. */
  datatype MockDraw = MockDraw(variation: real, sellerNumber: int, locationIndex: int, itemNumber: int)

  function Abs(x: real): real {
    if x < 0.0 then -x else x
  }

  function Min(a: real, b: real): real {
    if a <= b then a else b
  }

  function Max(a: real, b: real): real {
    if a >= b then a else b
  }

  /** The ranges of `random.uniform(-v, v)` with v = 0.3·max_price, `randint(1000, 9999)`, `choice` of 5 cities, `randint(100000, 999999)`. */
  predicate ValidDraw(d: MockDraw, maxPrice: real) {
    && Abs(d.variation) <= Abs(maxPrice * 0.3)
    && 1000 <= d.sellerNumber <= 9999
    && 0 <= d.locationIndex < 5
    && 100000 <= d.itemNumber <= 999999
  }

  predicate ValidDraws(draws: seq<MockDraw>, maxPrice: real) {
    |draws| == 5 && forall i :: 0 <= i < 5 ==> ValidDraw(draws[i], maxPrice)
  }

  const Cities: seq<string> := ["北京", "上海", "广州", "深圳", "杭州"]

  /** Whether a query asks for a phone: "iphone" in its lower-cased form, or 手机 ("phone") in it. */
  predicate IsPhoneQuery(query: string) {
    Contains(Lower(query), "iphone") || Contains(query, "手机")
  }

  function PhoneTitles(query: string): seq<string> {
    ["二手" + query + " 128G 成色9成新",
     query + " 256G 无拆无修",
     "95新" + query + " 全套配件",
     query + " 64G 学生价出售",
     "自用" + query + " 功能完好"]
  }

  function GenericTitles(query: string): seq<string> {
    ["二手" + query + " 9成新",
     query + " 低价出售",
     "95新" + query + " 急售",
     "自用" + query + " 便宜卖",
     query + " 学生价"]
  }

  function MockTitles(query: string): seq<string> {
    if IsPhoneQuery(query) then PhoneTitles(query) else GenericTitles(query)
  }

  /** The phone title set is used exactly for phone queries: the two sets never coincide. */
  lemma PhoneTitlesIff(query: string)
    ensures MockTitles(query) == PhoneTitles(query) <==> IsPhoneQuery(query)
    ensures MockTitles(query) == GenericTitles(query) <==> !IsPhoneQuery(query)
  {
    assert |PhoneTitles(query)[0]| != |GenericTitles(query)[0]|;
  }

  /** `max(100, min(0.6·max_price + variation, max_price))`. */
  function MockPrice(maxPrice: real, variation: real): (p: real)
    ensures p >= 100.0
    ensures maxPrice >= 100.0 ==> p <= maxPrice
  {
    Max(100.0, Min(maxPrice * 0.6 + variation, maxPrice))
  }

  /** `str(i)` for the single-digit indexes used in generated ids. */
  function DigitString(i: nat): string
    requires i < 10
  {
    [('0' as int + i) as char]
  }

  /** `_generate_mock_products(query, max_price)`: five products, one per title, with the given draws. */
  function GenerateMockProducts(query: string, maxPrice: real, draws: seq<MockDraw>): (ps: seq<ProductInfo>)
    requires ValidDraws(draws, maxPrice)
    ensures |ps| == 5
    ensures forall i :: 0 <= i < 5 ==>
      && ps[i].id == "mock_product_" + DigitString(i)
      && ps[i].sellerId == "mock_seller_" + DigitString(i)
      && ps[i].title == MockTitles(query)[i]
      && ps[i].description == ps[i].title
      && ps[i].images == []
      && ps[i].price >= 100.0
      && (maxPrice >= 100.0 ==> ps[i].price <= maxPrice)
  {
    var titles := MockTitles(query);
    seq(5, i requires 0 <= i < 5 =>
      NewProductInfo(
        "mock_product_" + DigitString(i),
        titles[i],
        MockPrice(maxPrice, draws[i].variation),
        "用户" + NatToString(draws[i].sellerNumber),
        "mock_seller_" + DigitString(i),
        Cities[draws[i].locationIndex],
        titles[i],
        SiteOrigin + "/item/" + NatToString(draws[i].itemNumber)))
  }

  /** The URL rule: a non-empty relative link gets the site origin in front; an empty one stays empty. */
  function CompleteUrl(url: string): (u: string)
    ensures url != [] ==> StartsWith(u, "http") && EndsWith(u, url)
    ensures url == [] ==> u == []
    ensures StartsWith(url, "http") ==> u == url
  {
    if url != [] && !StartsWith(url, "http") then SiteOrigin + url else url
  }

  /** The accept rule: a scraped entry becomes a product only with a non-empty title and 0 < price <= max_price. */
  predicate Acceptable(title: string, price: real, maxPrice: real) {
    title != [] && 0.0 < price <= maxPrice
  }

  /** The parse loop over listing entries numbered from `index`: accepted entries become `product_<i>` from `seller_<i>`. */
  function ParseListing(items: seq<RawItem>, maxPrice: real, index: nat): (ps: seq<ProductInfo>)
    requires index + |items| <= 10
    ensures |ps| <= |items|
    ensures forall k :: 0 <= k < |ps| ==> Acceptable(ps[k].title, ps[k].price, maxPrice)
    ensures forall k :: 0 <= k < |ps| ==> ps[k].description == ps[k].title && ps[k].location == "未知"
    ensures forall k :: 0 <= k < |ps| ==> ps[k].url == [] || StartsWith(ps[k].url, "http")
    decreases |items|
  {
    if items == [] then []
    else
      var rest := ParseListing(items[1..], maxPrice, index + 1);
      match items[0]
      case Unparseable => rest
      case Parsed(title, price, sellerName, url) =>
        if Acceptable(title, price, maxPrice) then
          [NewProductInfo("product_" + DigitString(index), title, price, sellerName,
                          "seller_" + DigitString(index), "未知", title, CompleteUrl(url))] + rest
        else rest
  }

  /** An accepted entry is never dropped: the listing keeps exactly the acceptable entries. */
  lemma {:induction false} ParseListingCount(items: seq<RawItem>, maxPrice: real, index: nat)
    requires index + |items| <= 10
    ensures |ParseListing(items, maxPrice, index)| == |AcceptedEntries(items, maxPrice)|
    decreases |items|
  {
    if items != [] {
      ParseListingCount(items[1..], maxPrice, index + 1);
    }
  }

  /** The entries of a listing that pass the accept rule. */
  function AcceptedEntries(items: seq<RawItem>, maxPrice: real): seq<RawItem> {
    if items == [] then []
    else
      (if items[0].Parsed? && Acceptable(items[0].title, items[0].price, maxPrice) then [items[0]] else [])
      + AcceptedEntries(items[1..], maxPrice)
  }

  /** The canned replies of the simulated `get_seller_response`, one picked at random per call. */
  const CannedReplies: seq<string> := [
    "您好，这个商品还在的，价格可以商量",
    "可以优惠一点，您出个价吧",
    "这个价格已经很便宜了，最多再便宜10块",
    "可以包邮，价格就这样吧",
    "您什么时候要？急的话可以便宜点"
  ]

  class GoofishService {
    var hasDriver: bool
    var isLoggedIn: bool

    /** A new service has no browser driver and is not logged in. */
    constructor ()
      ensures !hasDriver && !isLoggedIn
    {
      hasDriver := false;
      isLoggedIn := false;
    }

    /**
     * `login`: starts a driver when there is none. Only an accepted login
     * sets `is_logged_in`; a rejected one leaves the driver running and the
     * flag as it was; a failure to start the browser changes nothing.
     */
    method Login(outcome: LoginOutcome) returns (ok: bool)
      modifies this
      ensures ok == outcome.Accepted?
      ensures outcome.Accepted? ==> hasDriver && isLoggedIn
      ensures outcome.Rejected? ==> hasDriver && isLoggedIn == old(isLoggedIn)
      ensures outcome.BrowserFailure? ==> hasDriver == old(hasDriver) && isLoggedIn == old(isLoggedIn)
    {
      match outcome
      case BrowserFailure =>
        ok := false;
      case Rejected =>
        hasDriver := true;
        ok := false;
      case Accepted =>
        hasDriver := true;
        isLoggedIn := true;
        ok := true;
    }

    /** The guard of `send_message_to_seller`: without a driver or a login nothing is sent. */
    predicate SendMessageToSeller(sellerId: string, message: string)
      reads this
    {
      hasDriver && isLoggedIn
    }

    /**
     * `get_seller_response(seller_id)`: one of the canned replies, the one
     * the random draw `choice` picks; never empty.
     */
    static function GetSellerResponse(sellerId: string, choice: nat): (r: Option<string>)
      requires choice < |CannedReplies|
      ensures r.Some? && r.value in CannedReplies && r.value != []
    {
      Some(CannedReplies[choice])
    }

    /**
     * `search_products(query, max_price)`: an empty list without a driver;
     * otherwise the accepted entries among the first ten, or five mock
     * products when there are none or the page failed.
     */
    function SearchProducts(query: string, maxPrice: real, page: ScrapedPage, draws: seq<MockDraw>): (ps: seq<ProductInfo>)
      reads this
      requires ValidDraws(draws, maxPrice)
      ensures !hasDriver ==> ps == []
      ensures hasDriver ==> 0 < |ps| <= 10
      ensures forall k :: 0 <= k < |ps| ==> ps[k].price > 0.0
      ensures maxPrice >= 100.0 ==> forall k :: 0 <= k < |ps| ==> ps[k].price <= maxPrice
    {
      if !hasDriver then []
      else match page
        case NoListing => GenerateMockProducts(query, maxPrice, draws)
        case PageError => GenerateMockProducts(query, maxPrice, draws)
        case Listing(items) =>
          var found := ParseListing(items[..if |items| < 10 then |items| else 10], maxPrice, 0);
          if found == [] then GenerateMockProducts(query, maxPrice, draws) else found
    }

    /** `close`: quits the driver and forgets the login, so nothing can be sent afterwards. */
    method Close()
      modifies this
      ensures !hasDriver && !isLoggedIn
      ensures forall id, msg :: !SendMessageToSeller(id, msg)
    {
      hasDriver := false;
      isLoggedIn := false;
    }
  }
}
