/** What each scraper computes from the answer to its request, as functions; the
    imperative scrapers in module Scraper are proved to compute exactly these. */
module Extractors {
  import opened Wrappers
  import opened Sequences
  import opened Text
  import opened Document
  import opened Records

  /** How a scraper call ends: with a result dictionary, or with an `Exception` that
      escapes it. */
  datatype Outcome = Returned(data: Record) | Raised

  const NewsUrl := "https://httpbin.org/html"
  const QuotesUrl := "http://quotes.toscrape.com/"
  const BooksUrl := "http://books.toscrape.com/"
  const ApiUrl := "https://jsonplaceholder.typicode.com/posts"

  const NewsTitleFallback := "No title found"
  const QuotesTitleFallback := "Quotes to Scrape"
  const BooksTitleFallback := "Books to Scrape"
  const ApiTitle := "JSON API Data"
  const Unknown := "Unknown"

  const MaxLinks: nat := 10
  const MaxApiItems: nat := 10

  /** The stripped page title, or the scraper's fallback when the page has none. */
  function TitleOr(page: Page, fallback: string): (t: string)
    ensures page.title.None? ==> t == fallback
    ensures page.title.Some? ==> t == Strip(page.title.value)
  {
    match page.title
    case Some(text) => Strip(text)
    case None => fallback
  }

  // ---------------------------------------------------------------- news site

  predicate HasText(s: string) {
    Strip(s) != ""
  }

  /** The stripped texts of the paragraphs that are not whitespace only. */
  function Paragraphs(page: Page): seq<string> {
    FilterMap(page.paragraphs, HasText, Strip)
  }

  predicate HasHref(a: Anchor) {
    a.href.Some?
  }

  /** The link record of an anchor, its `href` resolved against `base`. */
  function AnchorLink(base: string, join: (string, string) -> string, a: Anchor): Link {
    Link(Strip(a.text), join(base, a.href.GetOr("")))
  }

  function LinkOf(base: string, join: (string, string) -> string): Anchor -> Link {
    (a: Anchor) => AnchorLink(base, join, a)
  }

  /** The links of every anchor that has an `href`, in document order. */
  function AllLinks(base: string, join: (string, string) -> string, anchors: seq<Anchor>): seq<Link> {
    FilterMap(anchors, HasHref, LinkOf(base, join))
  }

  /** One more anchor adds its link exactly when it has an `href`. */
  lemma AllLinksStep(base: string, join: (string, string) -> string, anchors: seq<Anchor>, i: nat)
    requires i < |anchors|
    ensures AllLinks(base, join, anchors[..i + 1]) ==
      AllLinks(base, join, anchors[..i]) + (if anchors[i].href.Some? then [AnchorLink(base, join, anchors[i])] else [])
  {
    FilterMapStep(anchors, i, HasHref, LinkOf(base, join));
  }

  function NewsPage(url: string, page: Page, join: (string, string) -> string): (r: Record)
    ensures r.NewsData? && r.url == url && WellFormed(r)
  {
    NewsData(url, TitleOr(page, NewsTitleFallback), StripEach(page.headings), Paragraphs(page),
             Take(AllLinks(url, join, page.anchors), MaxLinks))
  }

  /** `scrape_news_site` after its request. */
  function NewsSite(url: string, resp: Response<Page>, join: (string, string) -> string): (o: Outcome)
    ensures o.Raised? <==> resp.Unhandled?
    ensures resp.RequestError? ==> o == Returned(Empty)
    ensures resp.Ok? ==> o == Returned(NewsPage(url, resp.body, join))
  {
    match resp
    case Unhandled => Raised
    case RequestError => Returned(Empty)
    case Ok(page) => Returned(NewsPage(url, page, join))
  }

  /** The news record: title with its fallback; every heading stripped; exactly the
      paragraphs that are not whitespace only, stripped, in document order; and the
      first min(10, n) of the n links built from the anchors that carry an `href`. */
  lemma {:induction false} NewsPageShape(url: string, page: Page, join: (string, string) -> string)
    returns (paragraphIdx: seq<nat>, anchorIdx: seq<nat>)
    ensures var r := NewsPage(url, page, join);
      && (page.title.None? ==> r.title == NewsTitleFallback)
      && |r.headings| == |page.headings|
      && (forall i :: 0 <= i < |page.headings| ==> r.headings[i] == Strip(page.headings[i]))
      && Selects(page.paragraphs, HasText, Strip, paragraphIdx, r.paragraphs)
      && (forall i :: 0 <= i < |page.paragraphs| ==> (HasText(page.paragraphs[i]) <==> !AllSpace(page.paragraphs[i])))
      && (forall j :: 0 <= j < |r.paragraphs| ==> r.paragraphs[j] != "" && r.paragraphs[j] == Strip(r.paragraphs[j]))
      && Selects(page.anchors, HasHref, LinkOf(url, join), anchorIdx, AllLinks(url, join, page.anchors))
      && |r.links| == Min(MaxLinks, |AllLinks(url, join, page.anchors)|)
      && r.links == AllLinks(url, join, page.anchors)[..|r.links|]
  {
    var r := NewsPage(url, page, join);
    paragraphIdx := FilterMapSelects(page.paragraphs, HasText, Strip);
    anchorIdx := FilterMapSelects(page.anchors, HasHref, LinkOf(url, join));
    forall j | 0 <= j < |r.paragraphs|
      ensures r.paragraphs[j] != "" && r.paragraphs[j] == Strip(r.paragraphs[j])
    {
      StripIdempotent(page.paragraphs[paragraphIdx[j]]);
    }
    forall i | 0 <= i < |page.paragraphs|
      ensures HasText(page.paragraphs[i]) <==> !AllSpace(page.paragraphs[i])
    {
      StripEmptyIff(page.paragraphs[i]);
    }
  }

  function Min(a: nat, b: nat): nat {
    if a <= b then a else b
  }

  // -------------------------------------------------------------- quotes site

  /** A quote container is kept exactly when it has a text and an author element. */
  predicate IsCompleteQuote(d: QuoteDiv) {
    d.text.Some? && d.author.Some?
  }

  function QuoteOf(d: QuoteDiv): Quote {
    Quote(Strip(d.text.GetOr("")), Strip(d.author.GetOr("")),
          StripEach(d.tags))
  }

  function QuotesPage(url: string, page: Page): (r: Record)
    ensures r.QuotesData? && r.url == url && WellFormed(r)
    ensures page.title.None? ==> r.title == QuotesTitleFallback
  {
    var quotes := FilterMap(page.quoteDivs, IsCompleteQuote, QuoteOf);
    QuotesData(url, TitleOr(page, QuotesTitleFallback), quotes, |quotes|)
  }

  /** `scrape_quotes_site` after its request. */
  function QuotesSite(url: string, resp: Response<Page>): (o: Outcome)
    ensures o.Raised? <==> resp.Unhandled?
    ensures resp.RequestError? ==> o == Returned(Empty)
    ensures resp.Ok? ==> o == Returned(QuotesPage(url, resp.body))
  {
    match resp
    case Unhandled => Raised
    case RequestError => Returned(Empty)
    case Ok(page) => Returned(QuotesPage(url, page))
  }

  /** A quote is emitted for exactly the containers with both a text and an author, in
      container order, each with its stripped text, author and tags; `total_quotes` is
      the number emitted; the title falls back to "Quotes to Scrape". */
  lemma {:induction false} QuotesPageShape(url: string, page: Page) returns (idx: seq<nat>)
    ensures var r := QuotesPage(url, page);
      && Selects(page.quoteDivs, IsCompleteQuote, QuoteOf, idx, r.quotes)
      && r.totalQuotes == |r.quotes| == |idx|
      && (page.title.None? ==> r.title == QuotesTitleFallback)
      && forall j :: 0 <= j < |idx| ==>
           var d := page.quoteDivs[idx[j]];
           d.text.Some? && d.author.Some?
           && r.quotes[j].text == Strip(d.text.value) && r.quotes[j].author == Strip(d.author.value)
           && r.quotes[j].tags == StripEach(d.tags)
  {
    var quotes := FilterMap(page.quoteDivs, IsCompleteQuote, QuoteOf);
    idx := FilterMapSelects(page.quoteDivs, IsCompleteQuote, QuoteOf);
    forall j | 0 <= j < |idx|
      ensures var d := page.quoteDivs[idx[j]];
        d.text.Some? && d.author.Some?
        && quotes[j].text == Strip(d.text.value) && quotes[j].author == Strip(d.author.value)
        && quotes[j].tags == StripEach(d.tags)
    {
      var d := page.quoteDivs[idx[j]];
      assert IsCompleteQuote(d);
      assert quotes[j] == QuoteOf(d);
    }
  }

  // --------------------------------------------------------------- books site

  const StarWords: seq<string> := ["One", "Two", "Three", "Four", "Five"]

  /** The position of the first class token that is a star word, or `|classes|`. */
  function FirstStar(classes: seq<string>): (k: nat)
    ensures k <= |classes|
    ensures forall j :: 0 <= j < k ==> classes[j] !in StarWords
    ensures k < |classes| ==> classes[k] in StarWords
    decreases |classes|
  {
    if classes == [] || classes[0] in StarWords then 0 else 1 + FirstStar(classes[1..])
  }

  /** The rating named by a `star-rating` element's class tokens: the first token, in
      the element's own order, that is a star word; "Unknown" when none is. */
  function Rating(classes: seq<string>): (r: string)
    ensures r == Unknown <==> forall i :: 0 <= i < |classes| ==> classes[i] !in StarWords
    ensures r != Unknown ==> r in StarWords && r == classes[FirstStar(classes)]
  {
    var k := FirstStar(classes);
    if k < |classes| then classes[k] else Unknown
  }

  /** A product is kept exactly when it has a title link (an `<a>` inside its `<h3>`)
      and a price element. */
  predicate HasTitleAndPrice(p: ProductPod) {
    p.heading.Some? && p.heading.value.link.Some? && p.price.Some?
  }

  /** The `title` attribute of the title link, '' when the attribute or the link is missing. */
  function TitleAttr(p: ProductPod): string {
    if p.heading.Some? && p.heading.value.link.Some? then p.heading.value.link.value.titleAttr.GetOr("") else ""
  }

  /** The rating of a product: "Unknown" exactly when it has no rating element or no
      star word among that element's class tokens. */
  function ProductRating(p: ProductPod): (r: string)
    ensures r == Unknown <==>
      (p.ratingClasses.None? || forall i :: 0 <= i < |p.ratingClasses.value| ==> p.ratingClasses.value[i] !in StarWords)
    ensures r != Unknown ==> r in StarWords
  {
    if p.ratingClasses.Some? then Rating(p.ratingClasses.value) else Unknown
  }

  function BookOf(p: ProductPod): Book {
    Book(Strip(TitleAttr(p)), Strip(p.price.GetOr("")), ProductRating(p),
         if p.availability.Some? then Strip(p.availability.value) else Unknown)
  }

  function BooksPage(url: string, page: Page): (r: Record)
    ensures r.BooksData? && r.url == url && WellFormed(r)
    ensures page.title.None? ==> r.title == BooksTitleFallback
  {
    var books := FilterMap(page.productPods, HasTitleAndPrice, BookOf);
    BooksData(url, TitleOr(page, BooksTitleFallback), books, |books|)
  }

  /** `scrape_books_site` after its request. */
  function BooksSite(url: string, resp: Response<Page>): (o: Outcome)
    ensures o.Raised? <==> resp.Unhandled?
    ensures resp.RequestError? ==> o == Returned(Empty)
    ensures resp.Ok? ==> o == Returned(BooksPage(url, resp.body))
  {
    match resp
    case Unhandled => Raised
    case RequestError => Returned(Empty)
    case Ok(page) => Returned(BooksPage(url, page))
  }

  /** `b` is the book built from product `p`: `p` has a title link and a price, the
      title is the link's stripped `title` attribute ('' when missing), the price is
      the stripped price text, the rating is the product's, and the availability is
      the stripped availability text or "Unknown" when that element is absent. */
  predicate BuiltFrom(b: Book, p: ProductPod) {
    && p.heading.Some? && p.heading.value.link.Some? && p.price.Some?
    && b.title == Strip(p.heading.value.link.value.titleAttr.GetOr(""))
    && b.price == Strip(p.price.value)
    && b.rating == ProductRating(p)
    && b.availability == (if p.availability.Some? then Strip(p.availability.value) else Unknown)
  }

  /** A book is emitted for exactly the products with a title link and a price, in
      article order; `total_books` is the number emitted. */
  lemma {:induction false} BooksPageShape(url: string, page: Page) returns (idx: seq<nat>)
    ensures var r := BooksPage(url, page);
      && Selects(page.productPods, HasTitleAndPrice, BookOf, idx, r.books)
      && r.totalBooks == |r.books| == |idx|
  {
    idx := FilterMapSelects(page.productPods, HasTitleAndPrice, BookOf);
  }

  /** Each emitted book is built from the product at its position as `BuiltFrom` says. */
  lemma BooksPageFields(url: string, page: Page, idx: seq<nat>)
    requires Selects(page.productPods, HasTitleAndPrice, BookOf, idx, BooksPage(url, page).books)
    ensures forall j :: 0 <= j < |idx| ==> BuiltFrom(BooksPage(url, page).books[j], page.productPods[idx[j]])
  {
  }

  // ----------------------------------------------------------------- JSON API

  /** The API record: a list is cut to its first min(10, n) items and counted; any
      other value is kept whole and counts as one. */
  function ApiPage(url: string, data: Json): (r: Record)
    ensures r.ApiData? && r.url == url && r.title == ApiTitle && WellFormed(r)
    ensures data.JArray? ==>
      && r.apiData.JArray?
      && |r.apiData.items| == Min(MaxApiItems, |data.items|)
      && r.apiData.items == data.items[..|r.apiData.items|]
      && r.totalItems == |r.apiData.items|
    ensures !data.JArray? ==> r.apiData == data && r.totalItems == 1
  {
    match data
    case JArray(items) =>
      var kept := Take(items, MaxApiItems);
      ApiData(url, ApiTitle, JArray(kept), |kept|)
    case _ => ApiData(url, ApiTitle, data, 1)
  }

  /** `scrape_json_api`. */
  function JsonApiSite(url: string, resp: Response<Json>): (o: Outcome)
    ensures o.Raised? <==> resp.Unhandled?
    ensures resp.RequestError? ==> o == Returned(Empty)
    ensures resp.Ok? ==> o == Returned(ApiPage(url, resp.body))
  {
    match resp
    case Unhandled => Raised
    case RequestError => Returned(Empty)
    case Ok(data) => Returned(ApiPage(url, data))
  }

  // -------------------------------------------------------------- the batch

  /** What the scraper of `site` yields when called with its default URL. */
  function Run(site: Site, web: Web): (o: Outcome)
    ensures o.Returned? ==> WellFormed(o.data) && (!o.data.Empty? ==> SiteOf(o.data) == site)
  {
    match site
    case News => NewsSite(NewsUrl, web.getPage(NewsUrl), web.join)
    case Quotes => QuotesSite(QuotesUrl, web.getPage(QuotesUrl))
    case Books => BooksSite(BooksUrl, web.getPage(BooksUrl))
    case JsonApi => JsonApiSite(ApiUrl, web.getJson(ApiUrl))
  }

  /** The outcomes of the four scrapers, in `Order`. */
  function Outcomes(web: Web): (os: seq<Outcome>)
    ensures |os| == |Order|
  {
    seq(|Order|, i requires 0 <= i < |Order| => Run(Order[i], web))
  }

  /** A scraper's result is collected when it returned a non-empty dictionary. */
  predicate Collected(o: Outcome) {
    o.Returned? && !o.data.Empty?
  }

  function Payload(o: Outcome): Record {
    if o.Returned? then o.data else Empty
  }

  /** The list `run_all_scrapers` returns. */
  function Batch(web: Web): seq<Record> {
    FilterMap(Outcomes(web), Collected, Payload)
  }

  /** The batch holds, in the order news, quotes, books, JSON API, the result of every
      scraper that neither let an `Exception` escape nor returned `{}`, and nothing
      else: at most four non-empty, well-formed records whose sites strictly increase
      in rank. */
  lemma {:induction false} BatchShape(web: Web) returns (idx: seq<nat>)
    ensures var b := Batch(web);
      && Selects(Outcomes(web), Collected, Payload, idx, b)
      && |b| <= |Order|
      && (forall j :: 0 <= j < |b| ==>
            && !b[j].Empty? && WellFormed(b[j])
            && SiteOf(b[j]) == Order[idx[j]] && b[j] == Run(Order[idx[j]], web).data)
      && (forall j, k :: 0 <= j < k < |b| ==> Rank(SiteOf(b[j])) < Rank(SiteOf(b[k])))
  {
    var os := Outcomes(web);
    var b := Batch(web);
    idx := FilterMapSelects(os, Collected, Payload);
    forall j | 0 <= j < |b|
      ensures !b[j].Empty? && WellFormed(b[j]) && SiteOf(b[j]) == Order[idx[j]]
      ensures b[j] == Run(Order[idx[j]], web).data
      ensures Rank(SiteOf(b[j])) == idx[j]
    {
      var i := idx[j];
      assert Collected(os[i]);
      assert os[i] == Run(Order[i], web);
      assert Order[Rank(Order[i])] == Order[i];
    }
  }
}
