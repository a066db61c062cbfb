/** The result dictionaries the scrapers return, and the summary the CSV export
    derives from them. */
module Records {
  import opened Document

  datatype Link = Link(text: string, url: string)
  datatype Quote = Quote(text: string, author: string, tags: seq<string>)
  datatype Book = Book(title: string, price: string, rating: string, availability: string)

  /** One scraper's result. `Empty` is the `{}` returned when the page could not be
      fetched; the other variants carry the keys of the dictionary of that `type`. */
  datatype Record =
    | Empty
    | NewsData(url: string, title: string, headings: seq<string>, paragraphs: seq<string>, links: seq<Link>)
    | QuotesData(url: string, title: string, quotes: seq<Quote>, totalQuotes: int)
    | BooksData(url: string, title: string, books: seq<Book>, totalBooks: int)
    | ApiData(url: string, title: string, apiData: Json, totalItems: int)

  /** The four scrapers, in the order the batch runs them. */
  datatype Site = News | Quotes | Books | JsonApi

  const Order: seq<Site> := [News, Quotes, Books, JsonApi]

  /** Position of a site in `Order`. */
  function Rank(s: Site): (n: nat)
    ensures n < |Order| && Order[n] == s
  {
    match s
    case News => 0
    case Quotes => 1
    case Books => 2
    case JsonApi => 3
  }

  /** The scraper that produces records of this shape. */
  function SiteOf(r: Record): Site
    requires !r.Empty?
  {
    match r
    case NewsData(_, _, _, _, _) => News
    case QuotesData(_, _, _, _) => Quotes
    case BooksData(_, _, _, _) => Books
    case ApiData(_, _, _, _) => JsonApi
  }

  /** The keys of the result dictionary. */
  function Keys(r: Record): set<string> {
    match r
    case Empty => {}
    case NewsData(_, _, _, _, _) => {"url", "title", "headings", "paragraphs", "links", "type"}
    case QuotesData(_, _, _, _) => {"url", "title", "quotes", "total_quotes", "type"}
    case BooksData(_, _, _, _) => {"url", "title", "books", "total_books", "type"}
    case ApiData(_, _, _, _) => {"url", "title", "api_data", "total_items", "type"}
  }

  /** `data.get('type', '')`. */
  function TypeTag(r: Record): string {
    match r
    case Empty => ""
    case NewsData(_, _, _, _, _) => "news_site"
    case QuotesData(_, _, _, _) => "quotes_site"
    case BooksData(_, _, _, _) => "books_site"
    case ApiData(_, _, _, _) => "json_api"
  }

  /** `data.get('url', '')`. */
  function UrlOf(r: Record): string {
    if r.Empty? then "" else r.url
  }

  /** `data.get('title', '')`. */
  function TitleOf(r: Record): string {
    if r.Empty? then "" else r.title
  }

  /** `data.get(key, 0)` for the integer-valued keys. */
  function GetInt(r: Record, key: string): int {
    match r
    case QuotesData(_, _, _, n) => if key == "total_quotes" then n else 0
    case BooksData(_, _, _, n) => if key == "total_books" then n else 0
    case ApiData(_, _, _, n) => if key == "total_items" then n else 0
    case _ => 0
  }

  /** `data.get('paragraphs', [])`. */
  function GetParagraphs(r: Record): seq<string> {
    if r.NewsData? then r.paragraphs else []
  }

  /** The size of the collection a record is about: its paragraphs, quotes, books, or
      its API items (a JSON value that is not a list is one item). */
  function Size(r: Record): nat {
    match r
    case Empty => 0
    case NewsData(_, _, _, paragraphs, _) => |paragraphs|
    case QuotesData(_, _, quotes, _) => |quotes|
    case BooksData(_, _, books, _) => |books|
    case ApiData(_, _, data, _) => if data.JArray? then |data.items| else 1
  }

  /** What every record a scraper returns satisfies: its count field equals the size
      of its collection, and truncated lists hold at most ten entries. */
  ghost predicate WellFormed(r: Record) {
    match r
    case Empty => true
    case NewsData(_, _, _, _, links) => |links| <= 10
    case QuotesData(_, _, quotes, n) => n == |quotes|
    case BooksData(_, _, books, n) => n == |books|
    case ApiData(_, _, data, n) => n == Size(r) && (data.JArray? ==> |data.items| <= 10)
  }

  /** The CSV "Items Count": the first of 'quotes', 'books', 'api_data', 'paragraphs'
      that is a key picks the count; no such key gives 0. For every record a scraper
      returns this is the size of its collection, so the CSV and the JSON agree. */
  function ItemsCount(r: Record): (c: int)
    ensures WellFormed(r) ==> c == Size(r)
    ensures r.Empty? ==> c == 0
  {
    if "quotes" in Keys(r) then GetInt(r, "total_quotes")
    else if "books" in Keys(r) then GetInt(r, "total_books")
    else if "api_data" in Keys(r) then GetInt(r, "total_items")
    else if "paragraphs" in Keys(r) then |GetParagraphs(r)|
    else 0
  }

  /** One CSV cell: text, or the integer the writer prints. */
  datatype Cell = Text(s: string) | Number(n: int)

  const CsvHeader: seq<Cell> := [Text("URL"), Text("Title"), Text("Type"), Text("Items Count")]

  /** The CSV row of one record. */
  function SummaryRow(r: Record): (row: seq<Cell>)
    ensures |row| == |CsvHeader|
  {
    [Text(UrlOf(r)), Text(TitleOf(r)), Text(TypeTag(r)), Number(ItemsCount(r))]
  }
}
