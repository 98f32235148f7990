/**
 * Per page: choose between the fetched HTML and a browser session, and in the
 * latter case drive the load-more control until it is exhausted or a click
 * fails, then read the products from the page the browser ends up showing.
 *
 * The HTTP fetch is an input: `fetched` is the document `requests.get(url)`
 * returned, already parsed.
 */
module Pipeline {
  import opened Wrappers
  import opened Extract
  import opened Driver
  import opened Csv

  /** How the products of a page are retrieved. */
  datatype Strategy =
    | Static(doc: Document)   // the fetched document already holds every product
    | Dynamic(url: string)    // the page must be revealed in a browser first

  /** The fetched page has a load-more control exactly when a browser is needed. */
  function ChooseStrategy(url: string, fetched: Document): (s: Strategy)
    ensures s.Dynamic? <==> fetched.loadMoreControls > 0
    ensures s.Static? ==> s.doc == fetched
    ensures s.Dynamic? ==> s.url == url
  {
    if fetched.loadMoreControls > 0 then Dynamic(url) else Static(fetched)
  }

  /** `button_more.is_displayed() and button_more.is_enabled()`. */
  method ControlReady(browser: Browser) returns (ready: bool)
    requires browser.polls < |browser.script|
    ensures ready == Clickable(browser.script[browser.polls])
  {
    ready := browser.IsDisplayed();
    if ready {
      ready := browser.IsEnabled();
    }
  }

  /**
   * Open the page in a browser, click its load-more control while it is
   * displayed and enabled, stop with one printed line on an intercepted or
   * non-interactable click, then take the page source, quit the browser and
   * read the products.
   */
  method GetMoreInformationWithDriver(url: string, browser: Browser, console: Console)
      returns (r: Result<seq<Product>, ExtractionError>)
    requires browser.Idle() && Terminates(browser.script)
    modifies browser, console
    ensures var o := LoopOutcome(browser.script, url);
      && browser.clicks == o.clicks && browser.accepted == o.accepted
      && console.lines == old(console.lines) + o.log
      && r == GetProductsFromSoup(browser.pageAfter(o.accepted))
    ensures browser.url == url && !browser.launched && browser.quits == 1
  {
    browser.Launch();
    browser.Get(url);
    ghost var k := FirstHalt(browser.script);
    var more := ControlReady(browser);
    ghost var failed := false;
    while more
      invariant browser.launched && browser.url == url && browser.quits == 0
      invariant browser.polls <= k && browser.clicks == browser.polls && browser.accepted == browser.polls
      invariant more == Clickable(browser.script[browser.polls])
      invariant console.lines == old(console.lines)
      invariant !failed
      decreases k - browser.polls
    {
      ghost var n := browser.polls;
      var outcome := browser.Click();
      if outcome == Intercepted {
        console.Print("Element click intercepted on page " + url);
        OutcomeWhenClickFails(browser.script, url, n);
        failed := true;
        break;
      } else if outcome == NotInteractable {
        console.Print("Element not interactable on page " + url);
        OutcomeWhenClickFails(browser.script, url, n);
        failed := true;
        break;
      }
      more := ControlReady(browser);
    }
    if !failed {
      OutcomeWhenExhausted(browser.script, url, browser.polls);
    }
    var html := browser.PageSource();
    browser.Quit();
    r := GetProductsFromSoup(html);
  }

  /**
   * The products of one page: read from the fetched document when it has no
   * load-more control (the browser is never started), otherwise from the
   * page the browser session ends with.
   */
  method ProcessProducts(url: string, fetched: Document, browser: Browser, console: Console)
      returns (r: Result<seq<Product>, ExtractionError>)
    requires browser.Idle()
    requires fetched.loadMoreControls > 0 ==> Terminates(browser.script)
    modifies browser, console
    ensures fetched.loadMoreControls == 0 ==>
      r == GetProductsFromSoup(fetched) && unchanged(browser) && unchanged(console)
    ensures fetched.loadMoreControls > 0 ==>
      var o := LoopOutcome(browser.script, url);
      && browser.clicks == o.clicks
      && console.lines == old(console.lines) + o.log
      && r == GetProductsFromSoup(browser.pageAfter(o.accepted))
      && !browser.launched && browser.quits == 1
  {
    match ChooseStrategy(url, fetched)
    case Static(doc) =>
      r := GetProductsFromSoup(doc);
    case Dynamic(u) =>
      r := GetMoreInformationWithDriver(u, browser, console);
  }

  /**
   * The products of one page and the rows written for them. When extraction
   * raises, the exception escapes before the file is written, so nothing is.
   */
  method FetchAndSaveProduct(url: string, fetched: Document, browser: Browser, console: Console)
      returns (r: Result<seq<Product>, ExtractionError>, written: Option<seq<Row>>)
    requires browser.Idle()
    requires fetched.loadMoreControls > 0 ==> Terminates(browser.script)
    modifies browser, console
    ensures r.Success? <==> written.Some?
    ensures r.Success? ==> written.value == WriteProductsToFile(r.value)
    ensures fetched.loadMoreControls == 0 ==>
      r == GetProductsFromSoup(fetched) && unchanged(browser) && unchanged(console)
    ensures fetched.loadMoreControls > 0 ==>
      r == GetProductsFromSoup(browser.pageAfter(LoopOutcome(browser.script, url).accepted))
      && !browser.launched && browser.quits == 1
  {
    r := ProcessProducts(url, fetched, browser, console);
    if r.Success? {
      written := Some(WriteProductsToFile(r.value));
    } else {
      written := None;
    }
  }
}
