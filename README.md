# CarSoup scraper core in Dafny

This project models `CarParser` from the CarSoup scraper (app/car.py). A parser
is built from a car make, an optional year and an optional model. `scrape()`
picks one of four extraction modes from which of the optional values are
truthy. It appends that mode's path to the URL `https://www.carspecs.us/cars`,
fetches the page and turns it into a table:

- the years listed for a make and model;
- the models listed for a make and year;
- years and models for a make, paired by position;
- the price, mileage and detail key/value pairs of one car.

The page is abstract data rather than HTML:

- its `<li>` items, each an anchor `href` and anchor text (`Listing.Item`);
- the summary block (`Car.Summary`), holding its first span's text, the text
  node two siblings after that span, and the block's full text (`blob.text`:
  all the text inside the block, nested elements included);
- the detail blocks (`Car.Detail`), each a heading text and the text after it.

The web is a parameter `web: string -> Fetch` mapping a URL to a parsed page or
to a status that is not ok. So the page a call reads is the page at the URL the
call has just built.

Modules:

- `Wrappers`: the `Option` type used for Python's `None`.
- `Strings`: Python's `in` on strings, `str.strip`, `str.isnumeric` and
  `str(int)`, with their properties.
- `Tables`: `itertools.zip_longest` over columns, and the table handed to
  `tabulate` (headers plus rows).
- `Listing`: the list-comprehension filters over `<li>` items.
- `Car`: the documents, the four extractors, the dispatcher and the class
  `CarParser`.

`CarParser` is a class because `scrape()` updates its `URL` field in place with
`+=`. A second `scrape()` on the same object appends the path again
(`Car.ScrapeTwice`). `_scrape_full` is a method that builds its parallel `keys`
and `values` lists step by step. It is proved equal to `Car.FullExtraction`,
which states the result over a list of key/value pairs. The three list
extractors are comprehensions in the source and are functions here.

Behaviour of the code that the model keeps:

- `_brew_soup`'s failure branch formats its message with the undefined global
  `URL` (app/car.py:166). It therefore raises `NameError` before logging
  anything, and the model returns `Crashed`.
- The URL lives on the instance and `scrape()` extends it with `+=`
  (app/car.py:39-48). A repeated `scrape()` therefore fetches
  `base + path + path`.
- Anchor texts are stripped only of space, newline and tab
  (app/car.py:62,83,106,107). Detail headings and values are also stripped of
  `\r` (app/car.py:148,149). The summary texts use the argument-less `strip()`
  (app/car.py:131,136,141).
- The year is an integer, as the command line passes it (app/car.py:173), so a
  year of `0` is falsy, exactly like a missing one.

## Model

| member | source | states |
|---|---|---|
| `Car.CarParser.constructor` | app/car.py:17-28 | a new parser holds the given make, year and model, and its URL is the base `https://www.carspecs.us/cars` |
| `Car.CarParser.Scrape` | app/car.py:30-50 | the URL becomes the old URL followed by the path of the mode the truth table selects; the result is that mode's extraction of the page fetched from the new URL, or a crash when the fetch is refused |
| `Car.ModeOf` | app/car.py:38-49 | exactly one mode runs: model and year truthy gives full detail, only model the year list, only year the model list, neither the model-and-year list |
| `Car.UrlSuffix` | app/car.py:39-48 | the appended path starts with `/` and ends with the model when a model is given, and with the make otherwise |
| `Car.Dispatch` | app/car.py:37-50 | one call crashes exactly when the fetch is refused; otherwise it returns the mode's extraction, and only the full detail mode can return no table |
| `Car.ScrapeTwice` | app/car.py:37-50 | two `scrape()` calls on one parser leave the URL as base + path + path; the second call extracts from the page at that doubled URL |
| `Car.YearFragmentEndsUrl` | app/car.py:61 | in year-list mode the `/make/model` filter is a suffix of the URL that was fetched |
| `Car.ModelFragmentEndsUrl` | app/car.py:82 | in model-list mode the `/cars/year/make` filter is a suffix of the URL that was fetched |
| `Car.MakeFragmentEndsUrl` | app/car.py:103-105 | in model-and-year mode the `/cars/make` filter is a suffix of the URL that was fetched |
| `Car.ScrapeYear` | app/car.py:52-70 | the year list is always a table headed `year`; it has one row per item whose `href` contains `/make/model`, in document order, each holding that item's anchor text stripped of space, newline and tab; `No such <make> model: <model>` is logged exactly when no item matches |
| `Car.ScrapeModel` | app/car.py:72-91 | the model list is always a table headed `model`; it has one row per item whose `href` contains `/cars/year/make`, in document order, each holding the item's stripped text; `No <make> made in year: <year>` is logged exactly when no item matches |
| `Car.ScrapeModelYear` | app/car.py:93-115 | the model-and-year table is always headed `year`, `model` and has max(#years, #models) rows; row k pairs the k-th year with the k-th model by position only, with `None` past the shorter list; `No such car make: <make>` is logged exactly when either list is empty |
| `Car.ModelYearFiltersDisjoint` | app/car.py:102-107 | no item is both a year candidate and a model candidate; together the two lists hold at most one entry per item; every year entry is numeric |
| `Car.SummaryFields` | app/car.py:127-143 | the summary block yields at most two pairs: the price first when the block has a span, and every other pair is the mileage |
| `Car.SummaryPriority` | app/car.py:127-143 | with a span, price comes first; the second pair, present exactly when the span's second sibling is truthy, is the mileage taken from that sibling; without a span, the block's full text is the mileage when non-empty |
| `Car.DetailFields` | app/car.py:145-149 | one pair per detail block, each key and value trimmed of space, `\r`, `\n` and tab at both ends |
| `Car.FullExtraction` | app/car.py:151-156 | a table headed `key`, `value` with one row per pair exactly when the page yields a pair, and nothing logged; otherwise no table and `Bad URL: <url>` logged |
| `Car.FullRowsOrder` | app/car.py:123-154 | the full table lists the summary rows first (price, then mileage), then one row per detail block pairing its stripped heading with its stripped sibling text, in block order |
| `Car.FullAbsentIffNothingFound` | app/car.py:151-156 | the full extraction has no table exactly when there is no span, no summary text and no detail block, and exactly then it logs `Bad URL: <url>` |
| `Car.ZipFields` | app/car.py:151-154 | zipping the parallel keys and values of some pairs gives one row per pair and no `None` padding |
| `Car.CarParser.ScrapeFull` | app/car.py:117-158 | building `keys` and `values` step by step and tabulating them equals the pair-based specification `FullExtraction`: the same rows, or no table and a logged bad URL |
| `Listing.SelectInOrder` | app/car.py:61 | a filter keeps exactly the items that pass, in document order: result k is the item at the k-th passing position, positions increase, and a position is listed iff its item passes |
| `Listing.ListColumn` | app/car.py:61-67 | a one-column list built from a filter has one row per passing item, in document order, holding its stripped anchor text |
| `Listing.NoMatchIffEmpty` | app/car.py:63-64 | a filter's result is empty exactly when no item passes |
| `Listing.DisjointSelectBound` | app/car.py:103-105 | two filters that never accept the same item select at most as many items together as the page has |
| `Tables.MaxLen` | app/car.py:112 | the longest column's length bounds every column and is reached by one of them |
| `Tables.ZipLongestAt` | app/car.py:112 | `zip_longest` gives as many rows as the longest column; row i, column j is the j-th column's i-th value, or `None` past its end |
| `Tables.NoEmptyRow` | app/car.py:112 | no row of `zip_longest` is made only of fill values |
| `Tables.ZipOne` | app/car.py:67 | `zip_longest` of one list gives one single-cell row per value, none padded |
| `Tables.ZipTwo` | app/car.py:112 | `zip_longest` of two lists gives max(\|xs\|, \|ys\|) rows, row i being `(xs[i], ys[i])` with `None` past the end of the shorter list |
| `Strings.ContainsIffOccurs` | app/car.py:61 | Python's substring test holds exactly when the fragment occurs at some index of the `href` |
| `Strings.Strip` | app/car.py:62 | the stripped string neither starts nor ends with a character of the strip set |
| `Strings.StripSlice` | app/car.py:62 | `strip` returns a contiguous slice of its input; everything cut off is in the strip set; a non-empty result starts and ends outside it |
| `Strings.StripIdempotent` | app/car.py:62 | stripping twice gives the same string as stripping once |
| `Strings.NumericStripsToItself` | app/car.py:103-106 | a year candidate's numeric text is unchanged by the strip that follows it |
| `Strings.NatToDecimal` | app/car.py:45 | the written form of a year is a non-empty string of digits, starting with `0` only for zero itself |
| `Strings.DecimalRoundTrip` | app/car.py:45 | reading back the digits written for a year gives that year |
| `Strings.DecimalInjective` | app/car.py:82 | distinct years give distinct path segments |

## Left out

- HTTP: `requests.head` and `requests.get` (app/car.py:78,99,161-163) are network I/O. They become the `web` parameter. The extra `head` calls at app/car.py:78,99 do not affect the result. `head.ok` becomes the choice between `Page` and `Refused`.
- HTML parsing with BeautifulSoup (`findAll`, `find`, `findNext`, `next_sibling`) is a foreign library. The page is given already reduced to items, a summary and detail blocks.
- Structural lookup failures raise in the source and are not modelled: an `<li>` without an anchor, an anchor without `href`, a span without a first sibling, a second sibling that is a tag rather than text, a detail block with no following `<h4>`, or an `<h4>` whose next sibling is `None` or a tag rather than text (app/car.py:149). `Car.Detail.sibling` assumes that sibling is text.
- A year given as a string, as the constructor's docstring allows (app/car.py:23), is not modelled: the year is `Option<int>`, the type the command line passes. For a string year, `'0'` is truthy and its text goes into the URL unchanged; the model covers only integer years, written with `str(int)`.
- The refused-fetch path is modelled only as `Crashed`: the `NameError` that `_brew_soup` raises (app/car.py:165-167), with nothing logged.
- `Strings.IsNumeric`: approximates `str.isnumeric` as "non-empty and all ASCII digits". Other Unicode numeric characters are not accepted.
- `Strings.PythonWhitespace`: the argument-less `str.strip()` removes all Unicode whitespace; the model removes only the ASCII and Latin-1 whitespace characters.
- `tabulate` rendering is a formatting library; the output is the header list plus the rows it would render.
- Logging configuration and output (app/car.py:10-11) are side channels; each extractor's result records the message it passes to `logger.error`.
- The argparse command line and `print` (app/car.py:169-179) are I/O plumbing.
