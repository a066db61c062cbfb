/** What the scrapers receive from the outside: parsed pages, decoded JSON, and the
    network session that yields them. HTML parsing itself is not modelled; a page holds
    the elements the scrapers look up, in document order, each element given by the raw
    text `get_text()` returns and its optional parts as `Option`s. Its anchors are every
    `<a>` of the page, with or without an `href`; the news scraper drops those without
    one, as `find_all('a', href=True)` does. */
module Document {
  import opened Wrappers

  /** An `<a>` element: its `href` attribute, when present, and its text. */
  datatype Anchor = Anchor(href: Option<string>, text: string)

  /** A `div.quote`: its `span.text` and `small.author` elements when present, and the
      texts of its `a.tag` elements. */
  datatype QuoteDiv = QuoteDiv(text: Option<string>, author: Option<string>, tags: seq<string>)

  /** The `<a>` inside an `<h3>` of a product: its `title` attribute, when present. */
  datatype TitleLink = TitleLink(titleAttr: Option<string>)

  /** The `<h3>` of a product, and the first `<a>` inside it when there is one. */
  datatype Heading3 = Heading3(link: Option<TitleLink>)

  /** An `article.product_pod`: its first `<h3>`, its `p.price_color` text, the class
      tokens of its `p.star-rating` in attribute order, and the text of its `<p>` whose
      class attribute is exactly `"instock availability"`, each when present. */
  datatype ProductPod = ProductPod(
    heading: Option<Heading3>,
    price: Option<string>,
    ratingClasses: Option<seq<string>>,
    availability: Option<string>)

  /** A parsed HTML page. */
  datatype Page = Page(
    title: Option<string>,      // the first <title>
    headings: seq<string>,      // every h1, h2 and h3
    paragraphs: seq<string>,    // every <p>
    anchors: seq<Anchor>,       // every <a>
    quoteDivs: seq<QuoteDiv>,   // every div.quote
    productPods: seq<ProductPod>) // every article.product_pod

  /** A decoded JSON document; numbers are restricted to integers. */
  datatype Json =
    | JNull
    | JBool(b: bool)
    | JNumber(n: int)
    | JString(s: string)
    | JArray(items: seq<Json>)
    | JObject(members: seq<(string, Json)>)

  /** The answer to one request: a body, an error the scraper catches itself (a
      `RequestException`, or a `JSONDecodeError` for the API), or an `Exception` that
      escapes the scraper and that `run_all_scrapers` catches. */
  datatype Response<T> = Ok(body: T) | RequestError | Unhandled

  /** The scraper's HTTP session and URL resolution: what a GET of each URL yields,
      and `urljoin(base, href)`. */
  datatype Web = Web(
    getPage: string -> Response<Page>,
    getJson: string -> Response<Json>,
    join: (string, string) -> string)
}
