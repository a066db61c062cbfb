/** The `WebScraper` object: its scrapers build their lists with loops, the batch
    collects results into `scrapedData`, and the CSV export derives one summary row
    per stored record. Each method is proved to compute the function of module
    Extractors or Records that specifies it. */
module Scraper {
  import opened Wrappers
  import opened Sequences
  import opened Text
  import opened Document
  import opened Records
  import opened Extractors

  class WebScraper {
    /** The HTTP session (and URL resolution) every request goes through. */
    const web: Web
    /** The results of the last batch run. */
    var scrapedData: seq<Record>

    /** Every stored record is a non-empty, well-formed scraper result. */
    ghost predicate Valid()
      reads this
    {
      forall r :: r in scrapedData ==> !r.Empty? && WellFormed(r)
    }

    constructor (web: Web)
      ensures this.web == web && scrapedData == [] && Valid()
    {
      this.web := web;
      scrapedData := [];
    }

    /** The link list of the news scraper, before truncation. */
    method CollectLinks(base: string, anchors: seq<Anchor>) returns (links: seq<Link>)
      ensures links == AllLinks(base, web.join, anchors)
    {
      var join := web.join;
      links := [];
      var i := 0;
      while i < |anchors|
        invariant 0 <= i <= |anchors|
        invariant links == AllLinks(base, join, anchors[..i])
      {
        var a := anchors[i];
        AllLinksStep(base, join, anchors, i);
        if a.href.Some? {
          links := links + [Link(Strip(a.text), join(base, a.href.value))];
        }
        i := i + 1;
      }
      assert anchors[..i] == anchors;
    }

    /** `scrape_news_site(url)`. */
    method ScrapeNewsSite(url: string) returns (out: Outcome)
      ensures out == NewsSite(url, web.getPage(url), web.join)
    {
      match web.getPage(url)
      case Unhandled =>
        out := Raised;
      case RequestError =>
        out := Returned(Empty);
      case Ok(page) =>
        var links := CollectLinks(url, page.anchors);
        out := Returned(NewsData(url, TitleOr(page, NewsTitleFallback), StripEach(page.headings),
                                 Paragraphs(page), Take(links, MaxLinks)));
    }

    /** The quote list of the quotes scraper. */
    static method ExtractQuotes(divs: seq<QuoteDiv>) returns (quotes: seq<Quote>)
      ensures quotes == FilterMap(divs, IsCompleteQuote, QuoteOf)
    {
      quotes := [];
      var i := 0;
      while i < |divs|
        invariant 0 <= i <= |divs|
        invariant quotes == FilterMap(divs[..i], IsCompleteQuote, QuoteOf)
      {
        var d := divs[i];
        FilterMapStep(divs, i, IsCompleteQuote, QuoteOf);
        if d.text.Some? && d.author.Some? {
          assert QuoteOf(d) == Quote(Strip(d.text.value), Strip(d.author.value), StripEach(d.tags));
          quotes := quotes + [Quote(Strip(d.text.value), Strip(d.author.value), StripEach(d.tags))];
        }
        i := i + 1;
      }
      assert divs[..i] == divs;
    }

    /** `scrape_quotes_site(url)`. */
    method ScrapeQuotesSite(url: string) returns (out: Outcome)
      ensures out == QuotesSite(url, web.getPage(url))
    {
      match web.getPage(url)
      case Unhandled =>
        out := Raised;
      case RequestError =>
        out := Returned(Empty);
      case Ok(page) =>
        var quotes := ExtractQuotes(page.quoteDivs);
        out := Returned(QuotesData(url, TitleOr(page, QuotesTitleFallback), quotes, |quotes|));
    }

    /** The search over a rating element's class tokens, stopping at the first star word. */
    static method FindRating(classes: seq<string>) returns (rating: string)
      ensures rating == Rating(classes)
    {
      rating := Unknown;
      var i := 0;
      while i < |classes|
        invariant 0 <= i <= |classes|
        invariant rating == Unknown
        invariant forall j :: 0 <= j < i ==> classes[j] !in StarWords
      {
        if classes[i] in StarWords {
          rating := classes[i];
          break;
        }
        i := i + 1;
      }
    }

    /** The book list of the books scraper. */
    static method ExtractBooks(pods: seq<ProductPod>) returns (books: seq<Book>)
      ensures books == FilterMap(pods, HasTitleAndPrice, BookOf)
    {
      books := [];
      var i := 0;
      while i < |pods|
        invariant 0 <= i <= |pods|
        invariant books == FilterMap(pods[..i], HasTitleAndPrice, BookOf)
      {
        var p := pods[i];
        FilterMapStep(pods, i, HasTitleAndPrice, BookOf);
        var titleLink := if p.heading.Some? then p.heading.value.link else None;
        if titleLink.Some? && p.price.Some? {
          var rating := Unknown;
          if p.ratingClasses.Some? {
            rating := FindRating(p.ratingClasses.value);
          }
          assert rating == ProductRating(p);
          var availability := if p.availability.Some? then Strip(p.availability.value) else Unknown;
          books := books + [Book(Strip(titleLink.value.titleAttr.GetOr("")), Strip(p.price.value),
                                 rating, availability)];
        }
        i := i + 1;
      }
      assert pods[..i] == pods;
    }

    /** `scrape_books_site(url)`. */
    method ScrapeBooksSite(url: string) returns (out: Outcome)
      ensures out == BooksSite(url, web.getPage(url))
    {
      match web.getPage(url)
      case Unhandled =>
        out := Raised;
      case RequestError =>
        out := Returned(Empty);
      case Ok(page) =>
        var books := ExtractBooks(page.productPods);
        out := Returned(BooksData(url, TitleOr(page, BooksTitleFallback), books, |books|));
    }

    /** `scrape_json_api(url)`. */
    method ScrapeJsonApi(url: string) returns (out: Outcome)
      ensures out == JsonApiSite(url, web.getJson(url))
    {
      match web.getJson(url)
      case Unhandled =>
        out := Raised;
      case RequestError =>
        out := Returned(Empty);
      case Ok(data) =>
        var kept := data;
        if data.JArray? {
          kept := JArray(Take(data.items, MaxApiItems));
        }
        out := Returned(ApiData(url, ApiTitle, kept, if kept.JArray? then |kept.items| else 1));
    }

    /** One entry of the batch's scraper list, called with its default URL. */
    method RunScraper(site: Site) returns (out: Outcome)
      ensures out == Run(site, web)
    {
      match site
      case News => out := ScrapeNewsSite(NewsUrl);
      case Quotes => out := ScrapeQuotesSite(QuotesUrl);
      case Books => out := ScrapeBooksSite(BooksUrl);
      case JsonApi => out := ScrapeJsonApi(ApiUrl);
    }

    /** `run_all_scrapers()`: runs the four scrapers in order, keeps each non-empty
        result, skips a scraper from which an `Exception` escaped, and stores the list
        in `scrapedData`. */
    method RunAllScrapers() returns (all: seq<Record>)
      modifies this
      ensures all == Batch(web) && scrapedData == all
      ensures Valid()
    {
      ghost var outcomes := Outcomes(web);
      all := [];
      var i := 0;
      while i < |Order|
        invariant 0 <= i <= |Order|
        invariant all == FilterMap(outcomes[..i], Collected, Payload)
      {
        var out := RunScraper(Order[i]);
        assert out == outcomes[i];
        FilterMapStep(outcomes, i, Collected, Payload);
        if out.Returned? && !out.data.Empty? {
          all := all + [out.data];
        }
        i := i + 1;
      }
      assert outcomes[..i] == outcomes;
      scrapedData := all;
      var _ := BatchShape(web);
    }

    /** The rows `save_to_csv` writes: nothing at all (`None`) when no data is stored;
        otherwise the header and then one row per stored record, in order. For stored
        batch results each row's count is the size of the record's collection. */
    method SaveToCsv() returns (written: Option<seq<seq<Cell>>>)
      ensures written.None? <==> scrapedData == []
      ensures written.Some? ==>
        && |written.value| == |scrapedData| + 1
        && written.value[0] == CsvHeader
        && forall i :: 0 <= i < |scrapedData| ==> written.value[i + 1] == SummaryRow(scrapedData[i])
      ensures written.Some? && Valid() ==>
        forall i :: 0 <= i < |scrapedData| ==> SummaryRow(scrapedData[i])[3] == Number(Size(scrapedData[i]))
    {
      if scrapedData == [] {
        return None;
      }
      var rows := [CsvHeader];
      var i := 0;
      while i < |scrapedData|
        invariant 0 <= i <= |scrapedData|
        invariant |rows| == i + 1 && rows[0] == CsvHeader
        invariant forall k :: 0 <= k < i ==> rows[k + 1] == SummaryRow(scrapedData[k])
      {
        var data := scrapedData[i];
        var itemsCount := 0;
        if "quotes" in Keys(data) {
          itemsCount := GetInt(data, "total_quotes");
        } else if "books" in Keys(data) {
          itemsCount := GetInt(data, "total_books");
        } else if "api_data" in Keys(data) {
          itemsCount := GetInt(data, "total_items");
        } else if "paragraphs" in Keys(data) {
          itemsCount := |GetParagraphs(data)|;
        }
        rows := rows + [[Text(UrlOf(data)), Text(TitleOf(data)), Text(TypeTag(data)), Number(itemsCount)]];
        i := i + 1;
      }
      written := Some(rows);
      assert Valid() ==> forall i :: 0 <= i < |scrapedData| ==> WellFormed(scrapedData[i]);
    }
  }
}
