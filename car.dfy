/** `CarParser` (app/car.py): builds a carspecs.us URL from a make and an
    optional year and model, fetches that page and extracts a table from it.
    The page is given as abstract data: its list items, its summary block and
    its detail blocks. The web is a function from URL to fetch result. */
module Car {
  import opened Wrappers
  import opened Strings
  import opened Tables
  import opened Listing

  /** The URL every parser starts from (app/car.py:25). */
  const Base: string := "https://www.carspecs.us/cars"

  // ---------------------------------------------------------------------------
  // Pages
  // ---------------------------------------------------------------------------

  /** The first `<span>` of the summary block: its text, and the node two
      siblings after it, if that node is a text node. */
  datatype Span = Span(text: string, secondSibling: Option<string>)

  /** `<div class="main-car-details">`: its first `<span>` if any, and its text. */
  datatype Summary = Summary(span: Option<Span>, text: string)

  /** One `<div class="pure-u-1 pure-u-md-1-2">` of the detail list: the text of
      the `<h4>` that follows it, and the text node after that heading. */
  datatype Detail = Detail(heading: string, sibling: string)

  /** A parsed page: its `<li>` items, the summary block if present, and the
      blocks of `<div class="car-details">` if that div is present. */
  datatype Document = Document(items: seq<Item>, summary: Option<Summary>, details: Option<seq<Detail>>)

  /** What `_brew_soup` gets: a parsed page, or a status that is not ok. */
  datatype Fetch = Page(doc: Document) | Refused(status: int)

  /** What an extractor produces: the table handed to `tabulate` (or `None`),
      and the message passed to `logger.error`, if one is logged. */
  datatype Extraction = Extraction(table: Option<Table>, logged: Option<string>)

  /** What `scrape()` does: return an extraction, or raise. `_brew_soup` raises
      `NameError` on a refused fetch, since its log line names the undefined
      global `URL` (app/car.py:166). */
  datatype Outcome = Done(extraction: Extraction) | Crashed

  /** The four extraction modes. */
  datatype Mode = FullDetail | YearList | ModelList | ModelYearList

  // ---------------------------------------------------------------------------
  // Dispatch and URL
  // ---------------------------------------------------------------------------

  /** Python truthiness of the optional year: `None` and `0` are false. */
  predicate YearGiven(year: Option<int>)
  {
    year.Some? && year.value != 0
  }

  /** Python truthiness of an optional string: `None` and `''` are false. */
  predicate Truthy(s: Option<string>)
  {
    s.Some? && s.value != ""
  }

  /** The branch `scrape()` takes (app/car.py:38-49): exactly one mode, chosen
      by the truth table of the model and the year. */
  function ModeOf(year: Option<int>, model: Option<string>): (m: Mode)
    ensures m == FullDetail <==> Truthy(model) && YearGiven(year)
    ensures m == YearList <==> Truthy(model) && !YearGiven(year)
    ensures m == ModelList <==> !Truthy(model) && YearGiven(year)
    ensures m == ModelYearList <==> !Truthy(model) && !YearGiven(year)
  {
    if Truthy(model) && YearGiven(year) then FullDetail
    else if Truthy(model) then YearList
    else if YearGiven(year) then ModelList
    else ModelYearList
  }

  /** `'/{year}/{make}/{model}'` (app/car.py:39). */
  function FullPath(year: int, make: string, model: string): string
  {
    "/" + Decimal(year) + "/" + make + "/" + model
  }

  /** `'/{make}/{model}'` (app/car.py:42). */
  function MakeModelPath(make: string, model: string): string
  {
    "/" + make + "/" + model
  }

  /** `'/{year}/{make}'` (app/car.py:45). */
  function YearMakePath(year: int, make: string): string
  {
    "/" + Decimal(year) + "/" + make
  }

  /** `'/{make}'` (app/car.py:48). */
  function MakePath(make: string): string
  {
    "/" + make
  }

  /** The path `scrape()` appends to the URL in each mode: a `/`-separated
      path that ends with the model when one is given, and with the make
      otherwise. */
  function UrlSuffix(make: string, year: Option<int>, model: Option<string>): (r: string)
    ensures r != [] && r[0] == '/'
    ensures Truthy(model) ==> EndsWith(r, model.value)
    ensures !Truthy(model) ==> EndsWith(r, make)
  {
    match ModeOf(year, model)
    case FullDetail =>
      EndsWithAppend("/" + Decimal(year.value) + "/" + make + "/", model.value);
      FullPath(year.value, make, model.value)
    case YearList =>
      EndsWithAppend("/" + make + "/", model.value);
      MakeModelPath(make, model.value)
    case ModelList =>
      EndsWithAppend("/" + Decimal(year.value) + "/", make);
      YearMakePath(year.value, make)
    case ModelYearList =>
      EndsWithAppend("/", make);
      MakePath(make)
  }

  // ---------------------------------------------------------------------------
  // List extractors
  // ---------------------------------------------------------------------------

  /** `'/%s/%s' % (make, model)` (app/car.py:61). */
  function YearFragment(make: string, model: string): string
  {
    "/" + make + "/" + model
  }

  /** `'/cars/%s/%s' % (year, make)` (app/car.py:82). */
  function ModelFragment(year: int, make: string): string
  {
    "/cars/" + Decimal(year) + "/" + make
  }

  /** `'/cars/%s' % make` (app/car.py:103,105). */
  function MakeFragment(make: string): string
  {
    "/cars/" + make
  }

  /** `_scrape_year`: always a table headed `year`, with one row per item whose
      link contains `/make/model`, in document order, holding that item's
      stripped anchor text; "No such <make> model: <model>" is logged exactly
      when no item matches. */
  function ScrapeYear(make: string, model: string, doc: Document): (r: Extraction)
    ensures r.table.Some? && r.table.value.headers == ["year"]
    ensures RowsOfMatches(r.table.value.rows, HrefHas(YearFragment(make, model)), doc.items)
    ensures r.logged.Some? <==> forall i :: 0 <= i < |doc.items| ==> !Contains(doc.items[i].href, YearFragment(make, model))
    ensures r.logged.Some? ==> r.logged.value == "No such " + make + " model: " + model
  {
    var c := HrefHas(YearFragment(make, model));
    ListColumn(c, doc.items);
    NoMatchIffEmpty(c, doc.items);
    var years := AnchorTexts(Select(c, doc.items));
    Extraction(
      Some(Table(["year"], ZipLongest([years]))),
      if |years| == 0 then Some("No such " + make + " model: " + model) else None)
  }

  /** `_scrape_model`: always a table headed `model`, with one row per item
      whose link contains `/cars/year/make`, in document order, holding that
      item's stripped anchor text; "No <make> made in year: <year>" is logged
      exactly when no item matches. */
  function ScrapeModel(year: int, make: string, doc: Document): (r: Extraction)
    ensures r.table.Some? && r.table.value.headers == ["model"]
    ensures RowsOfMatches(r.table.value.rows, HrefHas(ModelFragment(year, make)), doc.items)
    ensures r.logged.Some? <==> forall i :: 0 <= i < |doc.items| ==> !Contains(doc.items[i].href, ModelFragment(year, make))
    ensures r.logged.Some? ==> r.logged.value == "No " + make + " made in year: " + Decimal(year)
  {
    var c := HrefHas(ModelFragment(year, make));
    ListColumn(c, doc.items);
    NoMatchIffEmpty(c, doc.items);
    var models := AnchorTexts(Select(c, doc.items));
    Extraction(
      Some(Table(["model"], ZipLongest([models]))),
      if |models| == 0 then Some("No " + make + " made in year: " + Decimal(year)) else None)
  }

  /** The year candidates of `_scrape_model_year`: numeric anchor text, and an
      `href` outside the make's own pages. */
  function YearCandidate(make: string): Criterion
  {
    NumericTextHrefLacks(MakeFragment(make))
  }

  /** The model candidates of `_scrape_model_year`: an `href` inside the
      make's own pages. */
  function ModelCandidate(make: string): Criterion
  {
    HrefHas(MakeFragment(make))
  }

  /** The years column of `_scrape_model_year`. */
  function CandidateYears(make: string, doc: Document): seq<string>
  {
    AnchorTexts(Select(YearCandidate(make), doc.items))
  }

  /** The models column of `_scrape_model_year`. */
  function CandidateModels(make: string, doc: Document): seq<string>
  {
    AnchorTexts(Select(ModelCandidate(make), doc.items))
  }

  /** `_scrape_model_year`: always a table headed `year`, `model` with
      `max(|years|, |models|)` rows, row `k` pairing the `k`-th year with the
      `k`-th model by position alone, `None` past the end of the shorter list;
      "No such car make: <make>" is logged exactly when either list is empty. */
  function ScrapeModelYear(make: string, doc: Document): (r: Extraction)
    ensures r.table.Some? && r.table.value.headers == ["year", "model"]
    ensures |r.table.value.rows| == Max(|CandidateYears(make, doc)|, |CandidateModels(make, doc)|)
    ensures forall k :: 0 <= k < |r.table.value.rows| ==>
      r.table.value.rows[k] == [Cell(CandidateYears(make, doc), k), Cell(CandidateModels(make, doc), k)]
    ensures r.logged.Some? <==> CandidateYears(make, doc) == [] || CandidateModels(make, doc) == []
    ensures r.logged.Some? ==> r.logged.value == "No such car make: " + make
  {
    var years := CandidateYears(make, doc);
    var models := CandidateModels(make, doc);
    ZipTwo(years, models);
    Extraction(
      Some(Table(["year", "model"], ZipLongest([years, models]))),
      if |years| == 0 || |models| == 0 then Some("No such car make: " + make) else None)
  }

  /** No item is both a year candidate and a model candidate, so the two lists
      come from disjoint positions and together hold at most one entry per
      item; every year candidate's text is numeric and so is its own trimmed
      form. */
  lemma ModelYearFiltersDisjoint(make: string, doc: Document)
    ensures forall i :: 0 <= i < |doc.items| ==>
      !(i in MatchIndices(YearCandidate(make), doc.items) && i in MatchIndices(ModelCandidate(make), doc.items))
    ensures |CandidateYears(make, doc)| + |CandidateModels(make, doc)| <= |doc.items|
    ensures forall y :: y in CandidateYears(make, doc) ==> IsNumeric(y)
  {
    var ys := Select(YearCandidate(make), doc.items);
    SelectInOrder(YearCandidate(make), doc.items);
    SelectInOrder(ModelCandidate(make), doc.items);
    DisjointSelectBound(YearCandidate(make), ModelCandidate(make), doc.items);
    forall y | y in AnchorTexts(ys) ensures IsNumeric(y) {
      var k :| 0 <= k < |ys| && AnchorTexts(ys)[k] == y;
      var i := MatchIndices(YearCandidate(make), doc.items)[k];
      assert Accepts(YearCandidate(make), doc.items[i]);
      NumericStripsToItself(ys[k].text);
    }
  }

  // ---------------------------------------------------------------------------
  // Full detail extractor
  // ---------------------------------------------------------------------------

  /** One key/value pair of the full detail table. */
  datatype Field = Field(key: string, value: string)

  /** The pairs the summary block yields (app/car.py:127-143): at most two,
      the price first when the block has a span, every other one the
      mileage. */
  function SummaryFields(summary: Option<Summary>): (r: seq<Field>)
    ensures |r| <= 2
    ensures forall i :: 0 <= i < |r| ==>
      r[i].key == if i == 0 && summary.Some? && summary.value.span.Some? then "price" else "mileage"
  {
    match summary
    case None => []
    case Some(blob) =>
      match blob.span
      case Some(span) =>
        [Field("price", Strip(span.text, PythonWhitespace))]
        + (if Truthy(span.secondSibling) then [Field("mileage", Strip(span.secondSibling.value, PythonWhitespace))] else [])
      case None =>
        if blob.text != "" then [Field("mileage", Strip(blob.text, PythonWhitespace))] else []
  }

  /** The pairs the detail blocks yield (app/car.py:145-149): one per block,
      its key and its value both trimmed of space, `\r`, `\n` and tab. */
  function DetailFields(details: Option<seq<Detail>>): (r: seq<Field>)
    ensures |r| == if details.Some? then |details.value| else 0
    ensures forall i :: 0 <= i < |r| ==> Trimmed(r[i].key, DetailWhitespace) && Trimmed(r[i].value, DetailWhitespace)
  {
    match details
    case None => []
    case Some(ds) =>
      seq(|ds|, i requires 0 <= i < |ds| =>
        Field(Strip(ds[i].heading, DetailWhitespace), Strip(ds[i].sibling, DetailWhitespace)))
  }

  /** Every pair of the full detail page, summary first. */
  function FullFields(doc: Document): seq<Field>
  {
    SummaryFields(doc.summary) + DetailFields(doc.details)
  }

  /** The table rows of a list of pairs. */
  function FieldRows(fields: seq<Field>): seq<Row>
  {
    seq(|fields|, i requires 0 <= i < |fields| => [Some(fields[i].key), Some(fields[i].value)])
  }

  /** The keys of a list of pairs, in order. */
  function Keys(fields: seq<Field>): seq<string>
  {
    seq(|fields|, i requires 0 <= i < |fields| => fields[i].key)
  }

  /** The values of a list of pairs, in order. */
  function Values(fields: seq<Field>): seq<string>
  {
    seq(|fields|, i requires 0 <= i < |fields| => fields[i].value)
  }

  lemma KeysValuesAppend(a: seq<Field>, b: seq<Field>)
    ensures Keys(a + b) == Keys(a) + Keys(b) && Values(a + b) == Values(a) + Values(b)
  {
  }

  /** Zipping the parallel key and value lists of some pairs gives back one
      row per pair, with no `None` padding. */
  lemma ZipFields(fields: seq<Field>)
    ensures ZipLongest([Keys(fields), Values(fields)]) == FieldRows(fields)
  {
    ZipTwo(Keys(fields), Values(fields));
  }

  /** What `_scrape_full` returns, stated over pairs rather than over its
      parallel `keys`/`values` lists: a table headed `key`, `value` with one
      row per pair when there is any pair, and otherwise no table and the
      logged bad URL. */
  function FullExtraction(url: string, doc: Document): (r: Extraction)
    ensures r.table.Some? <==> FullFields(doc) != []
    ensures r.table.Some? ==>
      && r.table.value.headers == ["key", "value"]
      && |r.table.value.rows| == |FullFields(doc)|
      && r.logged.None?
    ensures r.table.None? ==> r.logged == Some("Bad URL: " + url)
  {
    var fields := FullFields(doc);
    if fields != [] then Extraction(Some(Table(["key", "value"], FieldRows(fields))), None)
    else Extraction(None, Some("Bad URL: " + url))
  }

  /** The summary's priority: a span always gives the price first; mileage
      then comes only from the span's second sibling, present exactly when
      that sibling is truthy, never from the block's plain text; plain-text
      mileage is used only when there is no span. */
  lemma SummaryPriority(summary: Summary)
    ensures summary.span.Some? ==>
      && SummaryFields(Some(summary))[0] == Field("price", Strip(summary.span.value.text, PythonWhitespace))
      && (Truthy(summary.span.value.secondSibling) <==> |SummaryFields(Some(summary))| == 2)
      && (Truthy(summary.span.value.secondSibling) ==>
            SummaryFields(Some(summary))[1] == Field("mileage", Strip(summary.span.value.secondSibling.value, PythonWhitespace)))
    ensures summary.span.None? ==>
      SummaryFields(Some(summary)) == if summary.text == "" then [] else [Field("mileage", Strip(summary.text, PythonWhitespace))]
  {
  }

  /** The rows of the full detail table in order: the summary's rows first
      (price, then mileage), then one row per detail block, pairing its
      heading with its sibling. */
  lemma FullRowsOrder(url: string, doc: Document)
    requires FullFields(doc) != []
    ensures var rows := FullExtraction(url, doc).table.value.rows;
      var summary := SummaryFields(doc.summary);
      var s := |summary|;
      && |rows| == s + |DetailFields(doc.details)|
      && (forall k :: 0 <= k < s ==> rows[k] == [Some(summary[k].key), Some(summary[k].value)])
      && (doc.details.Some? ==> forall i :: 0 <= i < |doc.details.value| ==>
            rows[s + i] == [Some(Strip(doc.details.value[i].heading, DetailWhitespace)),
                            Some(Strip(doc.details.value[i].sibling, DetailWhitespace))])
  {
    var fs := FullFields(doc);
    var summary := SummaryFields(doc.summary);
    var details := DetailFields(doc.details);
    var rows := FullExtraction(url, doc).table.value.rows;
    assert rows == FieldRows(fs);
    forall k | 0 <= k < |summary| ensures rows[k] == [Some(summary[k].key), Some(summary[k].value)] {
      assert fs[k] == summary[k];
    }
    forall i | 0 <= i < |details| ensures rows[|summary| + i] == [Some(details[i].key), Some(details[i].value)] {
      assert fs[|summary| + i] == details[i];
    }
  }

  /** The full detail extractor returns no table exactly when the page yields
      no pair: no summary text to use and no detail block; then it logs the
      bad URL. */
  lemma FullAbsentIffNothingFound(url: string, doc: Document)
    ensures FullExtraction(url, doc).table.None? <==>
      && (doc.summary.None? || (doc.summary.value.span.None? && doc.summary.value.text == ""))
      && (doc.details.None? || doc.details.value == [])
    ensures FullExtraction(url, doc).table.None? <==> FullExtraction(url, doc).logged == Some("Bad URL: " + url)
  {
    if doc.details.Some? && doc.details.value != [] {
      assert DetailFields(doc.details)[0] in FullFields(doc);
    }
  }

  // ---------------------------------------------------------------------------
  // Whole call
  // ---------------------------------------------------------------------------

  /** What one `scrape()` call yields once the URL has been extended to `url`:
      a crash exactly when the fetch is refused, and otherwise the mode's
      extraction, which lacks a table only in the full detail mode. */
  function Dispatch(make: string, year: Option<int>, model: Option<string>, url: string, fetch: Fetch): (r: Outcome)
    ensures r.Crashed? <==> fetch.Refused?
    ensures r.Done? && r.extraction.table.None? ==> ModeOf(year, model) == FullDetail
  {
    match fetch
    case Refused(_) => Crashed
    case Page(doc) =>
      Done(match ModeOf(year, model)
           case FullDetail => FullExtraction(url, doc)
           case YearList => ScrapeYear(make, model.value, doc)
           case ModelList => ScrapeModel(year.value, make, doc)
           case ModelYearList => ScrapeModelYear(make, doc))
  }

  /** The site part of `Base`, before its `/cars` path. */
  const Host: string := "https://www.carspecs.us"

  lemma BaseEndsInCars()
    ensures Base == Host + "/cars"
  {
  }

  /** A URL ending in `cars + path` has that as a suffix, whatever comes first. */
  lemma PathEndsUrl(host: string, cars: string, path: string)
    ensures EndsWith(host + cars + path, cars + path)
  {
    assert host + cars + path == host + (cars + path);
    EndsWithAppend(host, cars + path);
  }

  /** `'/cars/%s/%s' % (a, b)` is `/cars` followed by `'/%s/%s' % (a, b)`. */
  lemma CarsSlashRegroup2(a: string, b: string)
    ensures "/cars/" + a + "/" + b == "/cars" + ("/" + a + "/" + b)
  {
    assert "/cars/" == "/cars" + "/";
  }

  /** `'/cars/%s' % a` is `/cars` followed by `'/%s' % a`. */
  lemma CarsSlashRegroup1(a: string)
    ensures "/cars/" + a == "/cars" + ("/" + a)
  {
    assert "/cars/" == "/cars" + "/";
  }

  /** In the year-list mode the filter keeps links that extend the page's own
      path: the filter of app/car.py:61 is a suffix of the URL built at
      app/car.py:42. */
  lemma YearFragmentEndsUrl(make: string, year: Option<int>, model: Option<string>)
    requires ModeOf(year, model) == YearList
    ensures EndsWith(Base + UrlSuffix(make, year, model), YearFragment(make, model.value))
  {
    assert UrlSuffix(make, year, model) == YearFragment(make, model.value);
    EndsWithAppend(Base, YearFragment(make, model.value));
  }

  /** In the model-list mode, the filter of app/car.py:82 is a suffix of the
      URL built at app/car.py:45. */
  lemma ModelFragmentEndsUrl(make: string, year: Option<int>, model: Option<string>)
    requires ModeOf(year, model) == ModelList
    ensures EndsWith(Base + UrlSuffix(make, year, model), ModelFragment(year.value, make))
  {
    var path := YearMakePath(year.value, make);
    BaseEndsInCars();
    CarsSlashRegroup2(Decimal(year.value), make);
    assert ModelFragment(year.value, make) == "/cars" + path;
    PathEndsUrl(Host, "/cars", path);
  }

  /** In the model-and-year mode, the filter of app/car.py:103,105 is a suffix
      of the URL built at app/car.py:48. */
  lemma MakeFragmentEndsUrl(make: string, year: Option<int>, model: Option<string>)
    requires ModeOf(year, model) == ModelYearList
    ensures EndsWith(Base + UrlSuffix(make, year, model), MakeFragment(make))
  {
    var path := MakePath(make);
    BaseEndsInCars();
    CarsSlashRegroup1(make);
    assert MakeFragment(make) == "/cars" + path;
    PathEndsUrl(Host, "/cars", path);
  }

  /** Scraping a make, optional year and optional model (app/car.py:13-50). */
  class CarParser {
    var url: string
    var year: Option<int>
    var make: string
    var model: Option<string>

    constructor (make: string, year: Option<int>, model: Option<string>)
      ensures url == Base && this.make == make && this.year == year && this.model == model
    {
      url := Base;
      this.year := year;
      this.make := make;
      this.model := model;
    }

    /** `scrape()`: appends the mode's path to the URL (every call appends
        again), fetches that URL and runs the mode's extractor. */
    method Scrape(web: string -> Fetch) returns (out: Outcome)
      modifies this`url
      ensures url == old(url) + UrlSuffix(make, year, model)
      ensures out == Dispatch(make, year, model, url, web(url))
    {
      if Truthy(model) && YearGiven(year) {
        url := url + FullPath(year.value, make, model.value);
        match web(url) {
          case Refused(_) => out := Crashed;
          case Page(doc) =>
            var e := ScrapeFull(doc);
            out := Done(e);
        }
      } else if Truthy(model) {
        url := url + MakeModelPath(make, model.value);
        match web(url) {
          case Refused(_) => out := Crashed;
          case Page(doc) => out := Done(ScrapeYear(make, model.value, doc));
        }
      } else if YearGiven(year) {
        url := url + YearMakePath(year.value, make);
        match web(url) {
          case Refused(_) => out := Crashed;
          case Page(doc) => out := Done(ScrapeModel(year.value, make, doc));
        }
      } else {
        url := url + MakePath(make);
        match web(url) {
          case Refused(_) => out := Crashed;
          case Page(doc) => out := Done(ScrapeModelYear(make, doc));
        }
      }
    }

    /** `_scrape_full`: builds parallel `keys` and `values` lists step by step
        and tabulates them; the result is the table of the page's pairs, or
        `None` with a logged bad URL when there are none. */
    method ScrapeFull(doc: Document) returns (r: Extraction)
      ensures r == FullExtraction(url, doc)
    {
      var keys: seq<string> := [];
      var values: seq<string> := [];
      if doc.summary.Some? {
        var blob := doc.summary.value;
        if blob.span.Some? {
          var price := Strip(blob.span.value.text, PythonWhitespace);
          keys := keys + ["price"];
          values := values + [price];
          if Truthy(blob.span.value.secondSibling) {
            var mileage := Strip(blob.span.value.secondSibling.value, PythonWhitespace);
            keys := keys + ["mileage"];
            values := values + [mileage];
          }
        } else if blob.text != "" {
          var mileage := Strip(blob.text, PythonWhitespace);
          keys := keys + ["mileage"];
          values := values + [mileage];
        }
      }
      assert keys == Keys(SummaryFields(doc.summary)) && values == Values(SummaryFields(doc.summary));
      if doc.details.Some? {
        var blocks := doc.details.value;
        keys := keys + seq(|blocks|, i requires 0 <= i < |blocks| => Strip(blocks[i].heading, DetailWhitespace));
        values := values + seq(|blocks|, i requires 0 <= i < |blocks| => Strip(blocks[i].sibling, DetailWhitespace));
      }
      assert keys == Keys(SummaryFields(doc.summary)) + Keys(DetailFields(doc.details));
      assert values == Values(SummaryFields(doc.summary)) + Values(DetailFields(doc.details));
      KeysValuesAppend(SummaryFields(doc.summary), DetailFields(doc.details));
      if |values| > 0 {
        ZipFields(FullFields(doc));
        r := Extraction(Some(Table(["key", "value"], ZipLongest([keys, values]))), None);
      } else {
        r := Extraction(None, Some("Bad URL: " + url));
      }
    }
  }

  /** Calling `scrape()` twice on one parser appends the mode's path twice, and
      the second call fetches and extracts from that doubled URL. */
  method ScrapeTwice(make: string, year: Option<int>, model: Option<string>, web: string -> Fetch)
    returns (first: Outcome, second: Outcome, url: string)
    ensures url == Base + UrlSuffix(make, year, model) + UrlSuffix(make, year, model)
    ensures first == Dispatch(make, year, model, Base + UrlSuffix(make, year, model), web(Base + UrlSuffix(make, year, model)))
    ensures second == Dispatch(make, year, model, url, web(url))
  {
    var parser := new CarParser(make, year, model);
    first := parser.Scrape(web);
    second := parser.Scrape(web);
    url := parser.url;
  }
}
