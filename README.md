# Multi-site web scraper: record building and aggregation

This project models the core of `web_scraper.py`, the `WebScraper` class that
scrapes four demo sites and summarises the results. Four parts are modelled:

- **Extractors.** Each of the four scrapers (`scrape_news_site`, `scrape_quotes_site`,
  `scrape_books_site`, `scrape_json_api`) turns the answer to its request into a result
  dictionary.
- **The batch.** `run_all_scrapers` runs the four scrapers in a fixed order. It keeps every
  non-empty result, skips a scraper from which an `Exception` escaped, and stores the list in
  `scraped_data`.
- **The CSV summary.** `save_to_csv` writes a header row and then one row per stored result.
  Each row's item count is chosen by key precedence.
- **`str.strip()`.** Every extracted text passes through it.

The model does no network access and no HTML parsing. A parsed page is a `Page` value. It
holds the elements the scrapers look up, in document order, with each element's optional
parts as `Option`s. `Page.anchors` holds every `<a>` of the page, with or without an `href`;
`AllLinks` drops those without one, as `find_all('a', href=True)` does. The session is a `Web`
value that says what a GET of each URL yields. It also supplies `urljoin` as an uninterpreted
function. A request ends in one of three ways:

- a body;
- a `RequestError`, which the scraper catches itself and answers with `{}`;
- an `Unhandled` exception, an `Exception` that escapes the scraper and that
  `run_all_scrapers` catches.

Files and modules:

- `Wrappers.dfy`: `Option`.
- `Sequences.dfy`:
  - `FilterMap` is the "append inside an if" loop and the filtered comprehension.
  - `Selects` says which input positions a result keeps, in order.
  - `Take` is Python's `xs[:n]`.
- `Text.dfy`: Python's `str.strip()` over the exact `str.isspace()` character set.
- `Document.dfy`: parsed pages, JSON values, responses, the session.
- `Records.dfy`: the result dictionaries (`Record`), their keys, the CSV item count and rows.
- `Extractors.dfy`: what each scraper and the batch compute, as functions, with the lemmas
  that state their properties.
- `Scraper.dfy`: the class `WebScraper`. Its loops are proved to compute those functions.

Facts about `web_scraper.py` that the model keeps as written:

- `save_to_csv` writes no file at all when nothing is stored (web_scraper.py:274-276).
- The CSV header is `URL, Title, Type, Items Count` (web_scraper.py:280).
- A news record has no count field (web_scraper.py:106-113). Its CSV count is the number of
  paragraphs (web_scraper.py:290-291).
- `run_all_scrapers` (web_scraper.py:239-264) only returns the collected results. It does not
  say why a scraper contributed nothing.
- `_get_page` makes a single attempt and catches every `requests.RequestException` alike,
  so timeouts and connection failures are not told apart (web_scraper.py:61-68).
- The scrapers run one after another, never in parallel (web_scraper.py:253-262).

## Model

| member | source | states |
|---|---|---|
| `Scraper.WebScraper.constructor` | web_scraper.py:33-45 | a new scraper holds the given session and no scraped data |
| `Extractors.NewsSite` | web_scraper.py:62-89 | an exception other than a request error propagates, a request error yields `{}`, a fetched page yields the news record |
| `Scraper.WebScraper.ScrapeNewsSite` | web_scraper.py:71-113 | `scrape_news_site` returns exactly the outcome `NewsSite` specifies for the page its URL yields |
| `Scraper.WebScraper.CollectLinks` | web_scraper.py:97-104 | the link loop builds, in document order, one link (stripped text, `urljoin(url, href)`) per anchor that has an `href` and none for the others |
| `Extractors.NewsPageShape` | web_scraper.py:87-113 | the title falls back to "No title found"; each heading is stripped; exactly the paragraphs that are not whitespace only are kept, stripped and in order, so none is empty; links are the first min(10, n) of the n href-anchor links |
| `Text.StripEmptyIff` | web_scraper.py:95 | a stripped text is empty exactly when the text is whitespace only, which is the paragraph filter |
| `Extractors.QuotesSite` | web_scraper.py:126-129 | a request error yields `{}`, an escaping exception is raised, a fetched page yields the quotes record |
| `Scraper.WebScraper.ExtractQuotes` | web_scraper.py:131-142 | the quote loop emits a quote for exactly the containers with both a text and an author element, in container order |
| `Extractors.QuotesPageShape` | web_scraper.py:131-153 | the kept containers are exactly those with text and author, in increasing position; each quote holds the stripped text, author and tags of its container; `total_quotes` equals the number of quotes; the title falls back to "Quotes to Scrape" |
| `Scraper.WebScraper.ScrapeQuotesSite` | web_scraper.py:115-153 | `scrape_quotes_site` returns exactly the outcome `QuotesSite` specifies |
| `Extractors.FirstStar` | web_scraper.py:183-186 | the position where the class-token search stops: every earlier token is not a star word, and the token there is one unless the list ran out |
| `Extractors.Rating` | web_scraper.py:180-186 | the rating is "Unknown" exactly when no class token is in {One, Two, Three, Four, Five}; otherwise it is the first such token in the element's own class order |
| `Scraper.WebScraper.FindRating` | web_scraper.py:180-186 | the loop with `break` returns the rating `Rating` specifies |
| `Extractors.ProductRating` | web_scraper.py:175-186 | a product's rating is "Unknown" exactly when it has no rating element or no star word among its classes, and otherwise is a star word |
| `Scraper.WebScraper.ExtractBooks` | web_scraper.py:171-193 | the book loop emits a book for exactly the products with a title link and a price, in article order |
| `Extractors.BooksPageShape` | web_scraper.py:171-204 | the kept products are exactly those with an `a` inside an `h3` and a price, in increasing position; `total_books` equals the number of books |
| `Extractors.BooksPageFields` | web_scraper.py:172-192 | each kept book holds the stripped `title` attribute ('' when missing), the stripped price, the product's rating, and the stripped availability or "Unknown" when that element is absent |
| `Extractors.BooksSite` | web_scraper.py:166-169 | a request error yields `{}`, an escaping exception is raised, a fetched page yields the books record |
| `Scraper.WebScraper.ScrapeBooksSite` | web_scraper.py:155-204 | `scrape_books_site` returns exactly the outcome `BooksSite` specifies |
| `Extractors.ApiPage` | web_scraper.py:224-234 | a JSON list becomes its first min(10, n) items and `total_items` is that length; any other value is kept whole with `total_items` 1; the title is always "JSON API Data" |
| `Extractors.JsonApiSite` | web_scraper.py:218-237 | a request or decode error yields `{}`, an escaping exception is raised, a decoded body yields the API record |
| `Scraper.WebScraper.ScrapeJsonApi` | web_scraper.py:206-237 | `scrape_json_api` returns exactly the outcome `JsonApiSite` specifies |
| `Extractors.Run` | web_scraper.py:246-251 | each scraper of the batch, called with its default URL, returns only well-formed records (count fields equal collection sizes, at most 10 links or API items) of its own site |
| `Scraper.WebScraper.RunScraper` | web_scraper.py:246-256 | calling an entry of the scraper list with its default URL yields what `Run` specifies |
| `Scraper.WebScraper.RunAllScrapers` | web_scraper.py:239-264 | returns the batch list and stores the same list in `scrapedData`; every stored record is non-empty and well-formed |
| `Extractors.BatchShape` | web_scraper.py:253-264 | the batch holds the result of exactly those scrapers that neither let an `Exception` escape nor returned `{}`, in the order news, quotes, books, JSON API; it has at most four records, each non-empty, well-formed and of the site at its position |
| `Records.ItemsCount` | web_scraper.py:283-291 | the count chosen by key precedence ('quotes', then 'books', then 'api_data', then 'paragraphs', else 0) equals the size of the record's collection for every well-formed record, and is 0 for `{}` |
| `Scraper.WebScraper.SaveToCsv` | web_scraper.py:272-298 | nothing is written when no data is stored; otherwise the header and then one row per stored record, in order, with URL, title, type and item count; for stored batch results each count is the size of the record's collection |

## Left out

- Rate limiting (`_rate_limit`, `delay_range`) is not modelled. It draws a random float delay and sleeps.
- The session's headers and the 10-second timeout are not modelled. `raise_for_status` and the
  HTTP exchange are not modelled either. A request's result is given by the `Web` value.
- HTML parsing and the matching semantics of `find`/`find_all` are not modelled. A page is
  given as the sequences of elements those calls return.
- `urljoin` is an uninterpreted function supplied with the session.
- JSON numbers are integers. Floating-point values are not modelled.
- `Unhandled` stands for an `Exception`. A `BaseException` outside it (`KeyboardInterrupt`,
  `SystemExit`, say one raised in the rate limiter's `time.sleep`, web_scraper.py:50) passes
  the `except Exception` of web_scraper.py:260, so `run_all_scrapers` ends without returning
  and without storing anything (web_scraper.py:263 is not reached). This is not modelled:
  `RunAllScrapers` always finishes the batch.
- The model cannot make extraction after a successful fetch raise. An exception that escapes a
  scraper is modelled as arising from its request.
- Logging, `save_to_json` (`json.dump` and the file write) and the byte-level CSV encoding are
  not modelled. The CSV export is the sequence of rows the writer receives.
- The unused `ScrapedData` dataclass, `main()` and its summary printing, and `example_usage.py`
  are not part of this model.
