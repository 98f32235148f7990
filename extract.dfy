/**
 * Turning product cards into `Product` records: one card at a time, and a
 * whole page as the cards in document order.
 *
 * A card is given as what the CSS selectors pick out of it: the attributes of
 * its first `a` element, the text of its first `.description`, `.price` and
 * `.review-count` elements (each None when the card has no such element), and
 * the number of `span.ws-icon.ws-icon-star` elements in it.
 */
module Extract {
  import opened Wrappers
  import opened Text

  /** One scraped listing, its fields in declaration order. */
  datatype Product = Product(
    title: string,
    description: string,
    price: string,      // the price text with every '$' removed, as handed to float()
    rating: nat,
    numOfReviews: int)

  datatype Card = Card(
    anchor: Option<map<string, string>>,
    description: Option<string>,
    price: Option<string>,
    stars: nat,
    reviewCount: Option<string>)

  /** A fetched page: its product cards (`.thumbnail`) in document order and how many load-more controls it holds. */
  datatype Document = Document(cards: seq<Card>, loadMoreControls: nat)

  /** Why a card could not be turned into a product; each is an exception the extractor lets escape. */
  datatype ExtractionError =
    | NoAnchor                   // `select_one("a")` is None, so subscripting it fails
    | NoTitle                    // the anchor has no `title` attribute
    | NoDescription              // no `.description` element
    | NoPrice                    // no `.price` element
    | NoReviewCount              // no `.review-count` element
    | EmptyReviewCount           // the review text has no word, so `split()[0]` fails
    | BadReviewCount(word: string)  // the first word is not an integer literal

  /** A card has everything the extractor asks for, in the order it asks. */
  predicate Complete(card: Card) {
    card.anchor.Some? && "title" in card.anchor.value
    && card.description.Some? && card.price.Some? && card.reviewCount.Some?
    && FirstWord(card.reviewCount.value).Some?
    && ParseInt(FirstWord(card.reviewCount.value).value).Some?
  }

  /** `int(text.split()[0])` on the review-count text. */
  function ReviewCount(text: string): Result<int, ExtractionError> {
    match FirstWord(text)
    case None => Failure(EmptyReviewCount)
    case Some(word) =>
      match ParseInt(word)
      case None => Failure(BadReviewCount(word))
      case Some(n) => Success(n)
  }

  /**
   * The product a card describes. Fields are read in declaration order, so the
   * error reported is that of the first field that cannot be read.
   */
  function ParseSingleProduct(card: Card): Result<Product, ExtractionError> {
    if card.anchor.None? then Failure(NoAnchor)
    else if "title" !in card.anchor.value then Failure(NoTitle)
    else if card.description.None? then Failure(NoDescription)
    else if card.price.None? then Failure(NoPrice)
    else if card.reviewCount.None? then Failure(NoReviewCount)
    else
      match ReviewCount(card.reviewCount.value)
      case Failure(e) => Failure(e)
      case Success(n) =>
        Success(Product(
          card.anchor.value["title"],
          ReplaceNbsp(card.description.value),
          RemoveDollars(card.price.value),
          card.stars,
          n))
  }

  /**
   * A card reads as a product exactly when it is complete; the product's
   * title is the anchor's, its description and price are the card's texts
   * cleaned by `ReplaceNbsp` and `RemoveDollars`,
   * its rating is the star count, and its review count is the value of the
   * first word of the review text. A missing anchor or title is reported as
   * such, and an empty review text exactly when everything before it is there.
   */
  lemma ParseSingleProductSpec(card: Card)
    ensures var r := ParseSingleProduct(card);
      && (r.Success? <==> Complete(card))
      && (r.Success? ==>
        && r.value.title == card.anchor.value["title"]
        && r.value.description == ReplaceNbsp(card.description.value)
        && r.value.price == RemoveDollars(card.price.value)
        && r.value.rating == card.stars
        && ParseInt(FirstWord(card.reviewCount.value).value) == Some(r.value.numOfReviews))
      && (card.anchor.None? ==> r == Failure(NoAnchor))
      && (card.anchor.Some? && "title" !in card.anchor.value ==> r == Failure(NoTitle))
      && (r == Failure(EmptyReviewCount) <==>
        && card.anchor.Some? && "title" in card.anchor.value
        && card.description.Some? && card.price.Some? && card.reviewCount.Some?
        && FirstWord(card.reviewCount.value).None?)
  {
  }

  /**
   * `[f(x) for x in xs]` where `f` may raise: the results in order, or the
   * exception of the first element on which `f` raises.
   */
  function MapUntilFailure<A, T, E>(f: A -> Result<T, E>, xs: seq<A>): (r: Result<seq<T>, E>)
    ensures r.Success? <==> forall i :: 0 <= i < |xs| ==> f(xs[i]).Success?
    ensures r.Success? ==> |r.value| == |xs| && forall i :: 0 <= i < |xs| ==> f(xs[i]) == Success(r.value[i])
    ensures r.Failure? ==>
      exists k :: 0 <= k < |xs| && f(xs[k]) == Failure(r.error) && forall j :: 0 <= j < k ==> f(xs[j]).Success?
  {
    if xs == [] then Success([])
    else
      match f(xs[0])
      case Failure(e) => Failure(e)
      case Success(y) =>
        var tail := xs[1..];
        match MapUntilFailure(f, tail)
        case Failure(e) =>
          assert exists k :: (0 <= k < |xs| && f(xs[k]) == Failure(e) && forall j :: 0 <= j < k ==> f(xs[j]).Success?) by {
            var k :| 0 <= k < |tail| && f(tail[k]) == Failure(e) && forall j :: 0 <= j < k ==> f(tail[j]).Success?;
            assert xs[k + 1] == tail[k];
            forall j | 0 <= j < k + 1 ensures f(xs[j]).Success? {
              if j > 0 { assert xs[j] == tail[j - 1]; }
            }
          }
          Failure(e)
        case Success(ys) =>
          Success([y] + ys)
  }

  /**
   * The products of a list of cards, one per card and in card order; the
   * first card that cannot be read stops the whole list with its error.
   */
  function ParseCards(cards: seq<Card>): (r: Result<seq<Product>, ExtractionError>)
    ensures r.Success? <==> forall i :: 0 <= i < |cards| ==> ParseSingleProduct(cards[i]).Success?
    ensures r.Success? ==>
      |r.value| == |cards| && forall i :: 0 <= i < |cards| ==> ParseSingleProduct(cards[i]) == Success(r.value[i])
    ensures r.Failure? ==>
      exists k :: 0 <= k < |cards| && ParseSingleProduct(cards[k]) == Failure(r.error)
        && forall j :: 0 <= j < k ==> ParseSingleProduct(cards[j]).Success?
  {
    MapUntilFailure(ParseSingleProduct, cards)
  }

  /** All the products of a page. */
  function GetProductsFromSoup(doc: Document): Result<seq<Product>, ExtractionError> {
    ParseCards(doc.cards)
  }

  /** Reading one more card in front: its product goes in front. */
  lemma ParseCardsCons(card: Card, cards: seq<Card>, p: Product, ps: seq<Product>)
    requires ParseSingleProduct(card) == Success(p) && ParseCards(cards) == Success(ps)
    ensures ParseCards([card] + cards) == Success([p] + ps)
  {
    assert ([card] + cards)[0] == card && ([card] + cards)[1..] == cards;
  }

  /**
   * A card as the listing pages lay one out for product `p`: an anchor titled
   * with its title, its description, its price after a dollar sign, its
   * rating in stars, and its review count followed by " reviews".
   */
  predicate Listing(card: Card, p: Product) {
    card == Card(Some(map["title" := p.title]), Some(p.description), Some("$" + p.price), p.rating,
                 Some(IntToString(p.numOfReviews) + " reviews"))
    && Nbsp !in p.description && '$' !in p.price
  }

  /** Such a card reads back as exactly that product. */
  lemma ListingReads(card: Card, p: Product)
    requires Listing(card, p)
    ensures ParseSingleProduct(card) == Success(p)
  {
    LeadingNumberIsRead(p.numOfReviews, " reviews");
    DollarPrefixRemoved(p.price);
    ReplaceNbspKeepsClean(p.description);
  }

  /** A page without cards gives the empty list, not an error. */
  lemma NoCardsNoProducts(doc: Document)
    requires doc.cards == []
    ensures GetProductsFromSoup(doc) == Success([])
  {
  }
}
