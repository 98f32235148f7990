# E-commerce listing scraper, modelled in Dafny

The scraper reads product listings from the pages of a test web shop and
writes one CSV file per page. For each page it fetches the HTML. If the page
has a "load more" control, it opens the page in a browser instead and clicks
the control until the control goes away or a click fails. It then turns every
product card (`.thumbnail`) into a `Product` and writes a header row plus one
row per product.

This project models the logic between the HTTP, HTML and browser libraries:

- `wrappers.dfy` (`Wrappers`): `Option` and `Result`.
- `text.dfy` (`Text`): the string conversions a card's texts go through.
  - `str.replace("\xa0", " ")` on the description.
  - `str.replace("$", "")` on the price.
  - `str.split()[0]` and `int(...)` on the review count.
  - `str(...)` on the integers the CSV writer emits.
  - The whitespace set of `str.split()` is Python's exact set.
  - `int` accepts an optional sign, ASCII digits, and single underscores between digits.
- `extract.dfy` (`Extract`): `Product`, a card as the values its CSS selectors pick out, and extraction.
  - `parse_single_product` is `ParseSingleProduct`.
  - `get_products_from_soup` is `ParseCards` / `GetProductsFromSoup`, a `MapUntilFailure` of `ParseSingleProduct` over the cards.
  - Every exception extraction can raise is an `ExtractionError`.
- `driver.dfy` (`Driver`): the click loop's environment and outcome.
  - The control's behaviour is a script of polls. Each poll says whether the control is displayed and enabled, and what a click would do then: accepted, intercepted or not interactable.
  - `LoopOutcome` is the loop's net effect.
  - A step-by-step state machine (`Polling`, `Clicking`, `Stopped(reason)`) is proved to agree with `LoopOutcome`.
  - The browser session and standard output are the classes `Browser` and `Console`, whose methods update their fields.
- `pipeline.dfy` (`Pipeline`):
  - `get_more_information_with_driver` is an imperative method with the source's `while` loop and `break`s, proved against `LoopOutcome`.
  - `process_products` chooses between the fetched page and the browser.
  - `fetch_and_save_product` extracts, then writes the rows.
- `csv.dfy` (`Csv`): the rows `write_products_to_file` writes, with a reader that proves nothing is lost.

Two behaviours of the code worth noting:

- The price loses every `$`, not only a leading one.
- Only the two click exceptions the loop catches end it early. Any other exception from `click()` escapes the function uncaught; it does not continue the loop.

## Model

| member | source | states |
|---|---|---|
| Text.ReplaceNbsp | app/parse.py:44 | the description keeps its length; each U+00A0 becomes a space and every other character stays in place; no U+00A0 remains |
| Text.ReplaceNbspKeepsClean | app/parse.py:44 | text without U+00A0 is left unchanged, so normalising twice is normalising once |
| Text.RemoveDollars | app/parse.py:45 | no `$` is left anywhere; every other character keeps its number of occurrences; the text gets no longer |
| Text.RemoveDollarsAppend | app/parse.py:45 | the deletion works piecewise over concatenation, so the kept characters keep their order |
| Text.RemoveDollarsKeepsClean | app/parse.py:45 | text without `$` is left unchanged |
| Text.DollarPrefixRemoved | app/parse.py:45 | a price written `$` before a dollar-free amount becomes exactly that amount |
| Text.Split | app/parse.py:47 | every word `str.split()` returns is non-empty and holds no whitespace |
| Text.SplitLosesOnlySpaces | app/parse.py:47 | the words, concatenated, are the text with all its whitespace removed |
| Text.SplitEmptyIffBlank | app/parse.py:47 | there are no words exactly when the text is all whitespace |
| Text.NoFirstWordIffBlank | app/parse.py:47 | `split()[0]` fails exactly when the review text is empty or all whitespace |
| Text.FirstWordPosition | app/parse.py:47 | the first word starts right after the leading whitespace and ends at whitespace or at the end of the text |
| Text.FirstWordIsToken | app/parse.py:47 | the first word is the longest whitespace-free prefix of the text once its leading whitespace is dropped |
| Text.FirstWord | app/parse.py:47 | `split()[0]`, None where it raises IndexError; no contract of its own, see NoFirstWordIffBlank, FirstWordPosition and FirstWordIsToken |
| Text.ParseInt | app/parse.py:47 | `int` on a token, None where it raises ValueError; no contract of its own, see ParseIntRoundTrip and ParseIntRejectsStray |
| Text.IntToString | app/parse.py:104 | `str` of an integer as the writer emits it; no contract of its own, see IntToStringIsWord and ParseIntRoundTrip |
| Text.NatToStringIsNumeral | app/parse.py:104 | the decimal digits written for a natural number form a numeral whose value is that number |
| Text.ParseIntRoundTrip | app/parse.py:47 | `int(str(n)) == n` for every integer n |
| Text.ParseIntRejectsStray | app/parse.py:47 | a token that holds a character other than a digit, a sign or `_` is refused by `int` |
| Text.IntToStringIsWord | app/parse.py:104 | the text written for an integer is a non-empty run without whitespace |
| Text.LeadingNumberIsRead | app/parse.py:47 | a review text that is a number, then whitespace and anything, yields that number (so "12 reviews" gives 12) |
| Extract.ReviewCount | app/parse.py:47 | `int(text.split()[0])`: the error of an empty text or of a first word that is not an integer; no contract of its own, see ParseSingleProductSpec and LeadingNumberIsRead |
| Extract.ParseSingleProduct | app/parse.py:41-48 | `parse_single_product`; no contract of its own, see ParseSingleProductSpec and ListingReads |
| Extract.ParseSingleProductSpec | app/parse.py:41-48 | a card yields a product exactly when every field is present and the review count's first word is an integer; the title is the anchor's `title`; the description is `ReplaceNbsp` of the card's description and the price is `RemoveDollars` of its price text; the rating equals the star count (0 for none); the review count is the first word's integer value; a missing anchor or title fails as such; an empty review text fails exactly when the fields before it are present |
| Extract.ListingReads | app/parse.py:41-48 | a card laid out for a product (title attribute, description, `$` and price, stars, "<n> reviews") yields exactly that product |
| Extract.MapUntilFailure | app/parse.py:54 | the list comprehension with a callee that may raise: it succeeds exactly when every call does, with one result per element in order; otherwise its error is that of the first failing element, every earlier call having succeeded |
| Extract.ParseCards | app/parse.py:51-54 | the page succeeds exactly when every card does, with one product per card in card order, the i-th from the i-th card; otherwise its error is that of the first failing card, all cards before it having succeeded |
| Extract.GetProductsFromSoup | app/parse.py:51-54 | the page's products are those of its cards; no contract of its own, see ParseCards and NoCardsNoProducts |
| Extract.ParseCardsCons | app/parse.py:54 | one more card in front puts its product in front |
| Extract.NoCardsNoProducts | app/parse.py:51-54 | a page without cards gives the empty list, not an error |
| Driver.Diagnostics | app/parse.py:75-78 | the line printed for each way the loop stops: none when exhausted, the intercept or not-interactable message naming the URL otherwise; no contract of its own, see AtMostOneDiagnostic |
| Driver.LoopOutcome | app/parse.py:71-79 | the loop's net effect; no contract of its own, see ClicksOnlyWhileClickable, ClicksStopAtFailure, ExhaustedIffNotClickable, AtMostOneDiagnostic and MachineAgreesWithOutcome |
| Driver.Step | app/parse.py:71-79 | one transition of the loop: a poll of the condition, or one click and its outcome; no contract of its own, see RunFrom |
| Driver.Run | app/parse.py:71-79 | the transitions repeated until the loop stops; no contract of its own, see RunFrom and MachineAgreesWithOutcome |
| Driver.FirstHalt | app/parse.py:71-79 | the poll where the loop ends exists, ends it, and no earlier poll would have |
| Driver.ClicksOnlyWhileClickable | app/parse.py:71-79 | on every run, whether it ends normally or on a failed click, every click made was made while the control was displayed and enabled |
| Driver.ClicksStopAtFailure | app/parse.py:71-79 | no more clicks are made than up to and including the first click that fails |
| Driver.ExhaustedIffNotClickable | app/parse.py:71-79 | the loop ends normally exactly when the control stops being displayed and enabled; then every click was accepted, otherwise exactly one more click (the failing one) was made |
| Driver.AtMostOneDiagnostic | app/parse.py:74-79 | at most one line is printed, exactly one when a click failed, and it ends with the page's URL |
| Driver.ThreeClicksThenHidden | app/parse.py:71-73 | a control that accepts three clicks and then disappears gets three clicks, ends normally and prints nothing |
| Driver.InterceptedOnSecondClick | app/parse.py:73-76 | a second click that is intercepted ends the loop after two clicks with the intercept message for the URL |
| Driver.OutcomeWhenExhausted | app/parse.py:71 | a control that is no longer clickable after n accepted clicks ends the loop normally with n clicks and nothing printed |
| Driver.OutcomeWhenClickFails | app/parse.py:72-79 | a click that fails after n accepted clicks ends the loop with n + 1 clicks and the message for its exception |
| Driver.RunFrom | app/parse.py:71-79 | the state machine run from any poll up to the halting one reaches the stop state `LoopOutcome` gives |
| Driver.MachineAgreesWithOutcome | app/parse.py:71-79 | the state machine started at the first poll ends with `LoopOutcome`'s reason, click count and printed lines |
| Driver.Browser.Launch | app/parse.py:58 | the session is started |
| Driver.Browser.Get | app/parse.py:59 | the session shows the given URL |
| Driver.Browser.IsDisplayed | app/parse.py:71 | the control's current visibility |
| Driver.Browser.IsEnabled | app/parse.py:71 | the control's current enabled state |
| Driver.Browser.Click | app/parse.py:73 | the click's outcome is the current poll's; one click is counted, and one accepted click when it succeeded |
| Driver.Browser.PageSource | app/parse.py:81 | the page as the accepted clicks have revealed it |
| Driver.Browser.Quit | app/parse.py:82 | the session is closed and one more quit is counted |
| Driver.Console.Print | app/parse.py:75 | the line is appended to the output |
| Pipeline.ControlReady | app/parse.py:71 | the loop condition is the control being displayed and enabled |
| Pipeline.GetMoreInformationWithDriver | app/parse.py:57-86 | clicks made, clicks accepted and lines printed are `LoopOutcome`'s; the products are read from the page those accepted clicks revealed; the session is closed exactly once on every exit of the loop |
| Pipeline.ChooseStrategy | app/parse.py:92-97 | the browser is used exactly when the fetched page has a load-more control; otherwise the fetched document itself is used |
| Pipeline.ProcessProducts | app/parse.py:89-97 | without a load-more control the products are those of the fetched document and the browser and output are untouched; with one they are those of the browser session, which is closed once |
| Pipeline.FetchAndSaveProduct | app/parse.py:107-111 | rows are written exactly when extraction succeeds, and they are the rows for the extracted products |
| Csv.AsTuple | app/parse.py:104 | `astuple`: one cell per header field, in declaration order |
| Csv.ProductRows | app/parse.py:104 | one row per product, in list order, the i-th row being the i-th product's fields |
| Csv.WriteProductsToFile | app/parse.py:100-104 | 1 + n rows: the header of field names in declaration order, then the products' fields in list order; every row has one cell per field |
| Csv.RowRoundTrip | app/parse.py:104 | every field of a product can be read back from its row |
| Csv.ProductRowsRoundTrip | app/parse.py:104 | the product rows read back as the product list, all of it and in order |
| Csv.FileRoundTrip | app/parse.py:100-104 | the written rows read back, header checked, as exactly the products written |
| Csv.StaticPageRows | app/parse.py:107-111 | a static page of cards laid out for given products extracts to those products, and the file written holds the header then one row per card with its title, description, price, star count and review count in column order |

## Left out

- HTTP fetching (`requests.get`, app/parse.py:90) is network I/O. The fetched page is an input `Document`.
- HTML parsing and CSS selector evaluation are a foreign library (app/parse.py:43-47, 52, 84, 91-92).
  - A card is given as what its selectors return: the anchor's attributes, the description, price and review-count texts (absent when the element is missing), and the number of star elements.
  - A page is its cards in document order plus the number of load-more controls.
- The cookie-consent click and both `WebDriverWait` waits are timing-dependent browser automation (app/parse.py:61-69). They are left out. Launching the browser (app/parse.py:58) is modelled only as the session's `launched` flag, with no launch options.
  - In the code, a wait that times out raises before `driver.quit()`, so the session is not released on that path. The model does not include that path.
- Exceptions from `click()`, `is_displayed()` or `is_enabled()` other than the two caught ones are left out. In the code they escape uncaught.
- `float(...)` on the price (app/parse.py:45) is floating point. `Product.price` is the cleaned price text, and the CSV price cell is that text rather than `str` of the float.
- Extract.ParseSingleProductSpec: a cleaned price that is not a valid float does not fail extraction in the model, whereas in the source `float` raises `ValueError`.
- Text.ParseInt: `int` also accepts non-ASCII Unicode digits and refuses numerals of more than 4300 digits. The model accepts ASCII digits only, of any length.
- Pipeline.GetMoreInformationWithDriver: requires the control to stop being clickable, or a click to fail, at some poll of the script. A control that stays clickable for ever makes the source loop for ever, and the model does not cover that case.
- CSV quoting, escaping, the delimiter and the file itself are library and file I/O (app/parse.py:101-102). A row is its list of cell texts.
- The URL constants (app/parse.py:16-26) and the fixed six calls of `get_all_products` (app/parse.py:114-120) are constants and plumbing.
- `print` is modelled only as lines appended to `Console.lines`.
