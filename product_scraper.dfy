/**
 * The product scraper (src/scrapers/productScraper.js). It logs in once,
 * opens a product page, reads the stock element, the title and the price,
 * and shapes one result record per product. The browser is an oracle: a
 * login attempt finds the success indicator or not, and a page load either
 * throws with a message or shows the texts of the elements it found.
 */
module ProductScraper {
  import opened Text
  import opened Wrappers

  /** The phrases whose presence (in the lower-cased stock text) means out of stock. */
  const OutOfStockPhrases: seq<string> := ["out of stock", "unavailable", "sold out"]

  /** The in-stock test: the lower-cased stock text mentions none of the three out-of-stock phrases. */
  predicate IsInStockText(text: string)
  {
    var t := ToLower(text);
    !Contains(t, "out of stock") && !Contains(t, "unavailable") && !Contains(t, "sold out")
  }

  /** In stock exactly when no out-of-stock phrase occurs; any other text, however worded, counts as in stock. */
  lemma InStockIffNoPhrase(text: string)
    ensures IsInStockText(text) <==> !ContainsAny(ToLower(text), OutOfStockPhrases)
  {
    var t := ToLower(text);
    if ContainsAny(t, OutOfStockPhrases) {
      var w :| w in OutOfStockPhrases && Contains(t, w);
    }
    if Contains(t, "out of stock") { assert OutOfStockPhrases[0] == "out of stock"; }
    if Contains(t, "unavailable") { assert OutOfStockPhrases[1] == "unavailable"; }
    if Contains(t, "sold out") { assert OutOfStockPhrases[2] == "sold out"; }
  }

  /** Empty text and the Swedish "Slut" count as in stock; "SOLD OUT" does not, whatever its case. */
  lemma InStockExamples()
    ensures IsInStockText("")
    ensures IsInStockText("Slut")
    ensures !IsInStockText("SOLD OUT")
  {
    assert ToLower("SOLD OUT") == "sold out" by {
      forall i | 0 <= i < 8
        ensures ToLower("SOLD OUT")[i] == "sold out"[i]
      {
      }
    }
    ContainsAt("sold out", "sold out", 0);
  }

  /** The record `checkProductAvailability` returns; `checkedAt` is the instant its timestamp is written from. */
  datatype ProductResult = ProductResult(
    url: string, title: string, price: string, stockStatus: string,
    isInStock: bool, checkedAt: nat, error: Option<string>)

  /** What a loaded product page shows: the raw text of the stock, title and price elements that were found. */
  datatype PageView = PageView(stockText: Option<string>, title: Option<string>, price: Option<string>)

  /** Loading and reading a product page: it throws (navigation, the wait for the stock element), or it shows a view. */
  datatype PageLoad = LoadError(message: string) | Loaded(view: PageView)

  /** The result shaped from one page load. */
  function ShapeResult(url: string, load: PageLoad, now: nat): (r: ProductResult)
    ensures r.url == url && r.checkedAt == now
    ensures r.error.Some? <==> load.LoadError?
    ensures load.LoadError? ==>
              r.title == "Error" && r.price == "N/A" && r.stockStatus == "Error checking stock" && !r.isInStock
    ensures load.Loaded? && load.view.stockText.None? ==> r.stockStatus == "Stock info not found" && !r.isInStock
    ensures r.isInStock <==> load.Loaded? && load.view.stockText.Some? && IsInStockText(load.view.stockText.value)
  {
    match load
    case LoadError(message) =>
      ProductResult(url, "Error", "N/A", "Error checking stock", false, now, Some(message))
    case Loaded(view) =>
      var title := if view.title.Some? then Trim(view.title.value) else "Unknown Product";
      var price := if view.price.Some? then Trim(view.price.value) else "Price not found";
      var status := if view.stockText.Some? then Trim(view.stockText.value) else "Stock info not found";
      var inStock := view.stockText.Some? && IsInStockText(view.stockText.value);
      ProductResult(url, title, price, status, inStock, now, None)
  }

  /** What one product check meets: whether a login attempt finds the success indicator, the page load, and whether the pause after it throws. */
  datatype Visit = Visit(loginSucceeds: bool, load: PageLoad, waitError: Option<string>)

  /** The visit for the `i`-th product; past the end of the script every login fails and every page throws. */
  function VisitAt(visits: seq<Visit>, i: nat): Visit
  {
    if i < |visits| then visits[i] else Visit(false, LoadError("no page"), None)
  }

  /** One check: it throws when a login is needed and cannot happen or fails, else it shapes the page's result. */
  function CheckOutcome(loggedIn: bool, hasPage: bool, url: string, visit: Visit, now: nat): (r: Result<ProductResult>)
    ensures r.Err? <==> !loggedIn && !(hasPage && visit.loginSucceeds)
    ensures r.Ok? ==> r.value == ShapeResult(url, visit.load, now)
  {
    if !loggedIn && !hasPage then Err("Scraper not initialized")
    else if !loggedIn && !visit.loginSucceeds then Err("Login required but failed")
    else Ok(ShapeResult(url, visit.load, now))
  }

  /** A product to check, as `checkMultipleProducts` reads it. */
  datatype Target = Target(url: string, name: Option<string>)

  /** The entry recorded for a product whose check threw. */
  function ErrorEntry(p: Target, message: string, now: nat): (r: ProductResult)
    ensures r.url == p.url && !r.isInStock && r.error == Some(message)
  {
    ProductResult(p.url, OrText(p.name, "Unknown"), "N/A", "Error", false, now, Some(message))
  }

  /** The entries one product adds: its result, or an error entry when the check threw; a throwing pause adds an error entry after the result. */
  function Entries(p: Target, visit: Visit, loggedIn: bool, hasPage: bool, now: nat): (es: seq<ProductResult>)
    ensures 1 <= |es| <= 2 && es[0].url == p.url
    ensures |es| == 2 <==> CheckOutcome(loggedIn, hasPage, p.url, visit, now).Ok? && visit.waitError.Some?
  {
    match CheckOutcome(loggedIn, hasPage, p.url, visit, now)
    case Err(m) => [ErrorEntry(p, m, now)]
    case Ok(r) => [r] + (if visit.waitError.Some? then [ErrorEntry(p, visit.waitError.value, now)] else [])
  }

  /** Whether the scraper is logged in after the first `n` checks: a successful login, once a page exists, lasts. */
  function LoggedInAfter(visits: seq<Visit>, n: nat, loggedIn: bool, hasPage: bool): bool
  {
    if n == 0 then loggedIn
    else LoggedInAfter(visits, n - 1, loggedIn, hasPage) || (hasPage && VisitAt(visits, n - 1).loginSucceeds)
  }

  /** The entries of the first `n` products, checked in order. */
  function CheckAll(products: seq<Target>, visits: seq<Visit>, loggedIn: bool, hasPage: bool, now: nat, n: nat): seq<ProductResult>
    requires n <= |products|
  {
    if n == 0 then []
    else CheckAll(products, visits, loggedIn, hasPage, now, n - 1)
         + Entries(products[n - 1], VisitAt(visits, n - 1), LoggedInAfter(visits, n - 1, loggedIn, hasPage), hasPage, now)
  }

  /** When no pause throws, there is one entry per product, in input order, each carrying its product's url. */
  lemma {:induction false} OneEntryPerProduct(products: seq<Target>, visits: seq<Visit>, loggedIn: bool, hasPage: bool, now: nat, n: nat)
    requires n <= |products|
    requires forall k :: 0 <= k < n ==> VisitAt(visits, k).waitError.None?
    ensures var rs := CheckAll(products, visits, loggedIn, hasPage, now, n);
            |rs| == n && forall k :: 0 <= k < n ==> rs[k].url == products[k].url
  {
    if n > 0 {
      OneEntryPerProduct(products, visits, loggedIn, hasPage, now, n - 1);
      var prev := CheckAll(products, visits, loggedIn, hasPage, now, n - 1);
      var es := Entries(products[n - 1], VisitAt(visits, n - 1), LoggedInAfter(visits, n - 1, loggedIn, hasPage), hasPage, now);
      assert |es| == 1;
      var rs := prev + es;
      assert CheckAll(products, visits, loggedIn, hasPage, now, n) == rs;
      forall k | 0 <= k < n ensures rs[k].url == products[k].url {
        if k < n - 1 {
          assert rs[k] == prev[k];
        } else {
          assert rs[k] == es[0];
        }
      }
    }
  }

  /** Every product gets at least one entry, and in any case an entry for each product carries a product's url. */
  lemma {:induction false} EntriesCarryProductUrls(products: seq<Target>, visits: seq<Visit>, loggedIn: bool, hasPage: bool, now: nat, n: nat)
    requires n <= |products|
    ensures var rs := CheckAll(products, visits, loggedIn, hasPage, now, n);
            n <= |rs| <= 2 * n && forall k :: 0 <= k < |rs| ==> exists j :: 0 <= j < n && rs[k].url == products[j].url
  {
    if n > 0 {
      EntriesCarryProductUrls(products, visits, loggedIn, hasPage, now, n - 1);
      var prev := CheckAll(products, visits, loggedIn, hasPage, now, n - 1);
      var es := Entries(products[n - 1], VisitAt(visits, n - 1), LoggedInAfter(visits, n - 1, loggedIn, hasPage), hasPage, now);
      var rs := prev + es;
      forall k | 0 <= k < |rs|
        ensures exists j :: 0 <= j < n && rs[k].url == products[j].url
      {
        if k < |prev| {
          var j :| 0 <= j < n - 1 && prev[k].url == products[j].url;
          assert rs[k] == prev[k];
        } else {
          assert rs[k] == es[k - |prev|] && es[k - |prev|].url == products[n - 1].url;
        }
      }
    }
  }

  class Scraper {
    /** Whether the browser and its page exist (`initialize` succeeded and `close` has not run since). */
    var hasPage: bool
    var isLoggedIn: bool

    /** The scraper is logged in only while it has a page. */
    predicate Valid()
      reads this
    {
      isLoggedIn ==> hasPage
    }

    constructor ()
      ensures Valid()
      ensures !hasPage && !isLoggedIn
    {
      hasPage := false;
      isLoggedIn := false;
    }

    /** `initialize`: true iff the browser launched, which gives the scraper its page. */
    method Initialize(launched: bool) returns (ok: bool)
      requires Valid()
      modifies this`hasPage
      ensures Valid()
      ensures ok == launched && hasPage == (old(hasPage) || launched)
    {
      if launched {
        hasPage := true;
      }
      ok := launched;
    }

    /** `login`: throws without a page; otherwise true iff the success indicator appeared, which logs the scraper in. */
    method Login(indicatorFound: bool) returns (r: Result<bool>)
      requires Valid()
      modifies this`isLoggedIn
      ensures Valid()
      ensures !hasPage ==> r == Err("Scraper not initialized") && isLoggedIn == old(isLoggedIn)
      ensures hasPage ==> r == Ok(indicatorFound) && isLoggedIn == (old(isLoggedIn) || indicatorFound)
    {
      if !hasPage {
        return Err("Scraper not initialized");
      }
      if indicatorFound {
        isLoggedIn := true;
      }
      r := Ok(indicatorFound);
    }

    /** `checkProductAvailability`: a login first when not logged in (a failure throws), then the shaped page result. */
    method CheckProductAvailability(url: string, visit: Visit, now: nat) returns (r: Result<ProductResult>)
      requires Valid()
      modifies this`isLoggedIn
      ensures Valid()
      ensures r == CheckOutcome(old(isLoggedIn), hasPage, url, visit, now)
      ensures isLoggedIn == (old(isLoggedIn) || (hasPage && visit.loginSucceeds))
    {
      if !isLoggedIn {
        var login := Login(visit.loginSucceeds);
        if login.Err? {
          return Err(login.message);
        }
        if !login.value {
          return Err("Login required but failed");
        }
      }
      r := Ok(ShapeResult(url, visit.load, now));
    }

    /** The body of the loop over products: the check and the pause after it, a throw becoming an error entry. */
    method CheckOne(product: Target, visit: Visit, now: nat) returns (entries: seq<ProductResult>)
      requires Valid()
      modifies this`isLoggedIn
      ensures Valid()
      ensures entries == Entries(product, visit, old(isLoggedIn), hasPage, now)
      ensures isLoggedIn == (old(isLoggedIn) || (hasPage && visit.loginSucceeds))
    {
      var r := CheckProductAvailability(product.url, visit, now);
      match r {
        case Err(m) =>
          entries := [ErrorEntry(product, m, now)];
        case Ok(result) =>
          entries := [result];
          if visit.waitError.Some? {
            entries := entries + [ErrorEntry(product, visit.waitError.value, now)];
          }
      }
    }

    /** `checkMultipleProducts`: the products in order, a thrown check becoming an error entry for its product. */
    method CheckMultipleProducts(products: seq<Target>, visits: seq<Visit>, now: nat) returns (results: seq<ProductResult>)
      requires Valid()
      modifies this`isLoggedIn
      ensures Valid()
      ensures results == CheckAll(products, visits, old(isLoggedIn), hasPage, now, |products|)
      ensures isLoggedIn == LoggedInAfter(visits, |products|, old(isLoggedIn), hasPage)
    {
      ghost var start := isLoggedIn;
      results := [];
      var i := 0;
      while i < |products|
        invariant 0 <= i <= |products|
        invariant results == CheckAll(products, visits, start, hasPage, now, i)
        invariant isLoggedIn == LoggedInAfter(visits, i, start, hasPage)
        invariant Valid()
      {
        var entries := CheckOne(products[i], VisitAt(visits, i), now);
        results := results + entries;
        i := i + 1;
      }
    }

    /** `close`: with a browser, drops it and the login; without one, nothing happens. */
    method Close()
      requires Valid()
      modifies this`hasPage, this`isLoggedIn
      ensures Valid()
      ensures !hasPage && !isLoggedIn
    {
      if hasPage {
        hasPage := false;
        isLoggedIn := false;
      }
    }
  }
}
