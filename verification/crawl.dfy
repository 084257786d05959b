/**
 * `parse_imdb` and `main`: the search pages are requested with a `start`
 * cursor; every film container of a page becomes a record (its detail page
 * is requested at the film's address); the cursor advances by a page only
 * when the page links to a next one, and the requests stop once the cursor
 * reaches 1000. `main` writes the header and then every record.
 *
 * The network is a parameter: the search responses are the sequence of
 * pages in the order they are returned, and a detail page is a function of
 * the address requested.
 */
module Crawl {
  import opened Wrappers
  import opened Text
  import opened Blocks
  import opened Records
  import Params

  /** The cursor value at which requests stop. */
  const StartLimit: int := 1000

  /** `NUM_FILMS_ON_ONE_PAGE`: how far the cursor moves on a next page. */
  const FilmsPerPage: int := 50

  /** One film container of a search page, as read: the genre span and the
      rating's `data-value` may be missing. */
  datatype Listing = Listing(
    index: string, name: string, genre: Option<string>, rating: Option<string>, link: string)

  /** One search response: its film containers and whether it has a
      next-page link. */
  datatype SearchPage = SearchPage(films: seq<Listing>, hasNext: bool)

  /** The ways reading a film fails in `parse_imdb` (each an exception that
      ends the crawl). */
  datatype FilmError =
    | NoGenre
    | NoRating
    | LinkWithoutSlash(link: string)
    | PartWithoutHeading(part: nat)

  /** The records of some film containers, and the failure that stopped them. */
  datatype Harvest = Harvest(films: seq<FilmInfo>, error: Option<FilmError>)

  /** What a crawl produced: records, the cursor of every search request made,
      and the failure that ended it, if any. */
  datatype Crawled = Crawled(films: seq<FilmInfo>, starts: seq<int>, error: Option<FilmError>)

  // ---------------------------------------------------------------------------
  // One film

  /** The record of one film container, reading the fields in the order of
      `parse_imdb`: genre, rating, link, then the detail page at the film's
      address. */
  function FilmRecord(l: Listing, detailPage: string -> seq<Part>): Result<FilmInfo, FilmError> {
    if l.genre.None? then Err(NoGenre)
    else if l.rating.None? then Err(NoRating)
    else match FilmUrl(l.link)
      case Err(_) => Err(LinkWithoutSlash(l.link))
      case Ok(url) =>
        match SelectBlocks(detailPage(url))
        case Err(e) => Err(PartWithoutHeading(e.part))
        case Ok(d) => Ok(FilmInfo(Strip(l.index), Strip(l.name), Strip(l.genre.value),
                                  Strip(l.rating.value), d.details, d.boxOffice, d.techSpecs))
  }

  /** Reading film containers against a fixed set of detail pages. */
  function Reader(detailPage: string -> seq<Part>): Listing -> Result<FilmInfo, FilmError> {
    l => FilmRecord(l, detailPage)
  }

  /** The body of the loop over film containers. */
  method ExtractFilm(l: Listing, detailPage: string -> seq<Part>) returns (r: Result<FilmInfo, FilmError>)
    ensures r == FilmRecord(l, detailPage)
  {
    var index := Strip(l.index);
    var name := Strip(l.name);
    if l.genre.None? {
      return Err(NoGenre);
    }
    var genre := Strip(l.genre.value);
    if l.rating.None? {
      return Err(NoRating);
    }
    var rating := Strip(l.rating.value);
    var pieces := SplitOn(l.link, '/');
    if |pieces| < 2 {
      return Err(LinkWithoutSlash(l.link));
    }
    var filmId := pieces[|pieces| - 2];
    var filmUrl := FilmInfoRoot + filmId;
    var blocks := ReadDetailParts(detailPage(filmUrl));
    if blocks.Err? {
      return Err(PartWithoutHeading(blocks.error.part));
    }
    r := Ok(FilmInfo(index, name, genre, rating,
                     blocks.value.details, blocks.value.boxOffice, blocks.value.techSpecs));
  }

  /** A film's record has its listing fields stripped, and its detail fields
      are those of the last part with each heading of the page at the film's
      address. */
  lemma FilmRecordFields(l: Listing, detailPage: string -> seq<Part>)
    requires FilmRecord(l, detailPage).Ok?
    ensures l.genre.Some? && l.rating.Some? && FilmUrl(l.link).Ok?
    ensures var f := FilmRecord(l, detailPage).value;
      && f.index == Strip(l.index) && f.name == Strip(l.name)
      && f.genre == Strip(l.genre.value) && f.rating == Strip(l.rating.value)
      && IsTrimmed(f.index) && IsTrimmed(f.name) && IsTrimmed(f.genre) && IsTrimmed(f.rating)
      && SelectBlocks(detailPage(FilmUrl(l.link).value))
         == Ok(DetailBlocks(f.details, f.boxOffice, f.techSpecs))
  {
  }

  /** Reading a film fails exactly when the genre or the rating is missing,
      the link has no slash, or the detail page has a part without a heading;
      the failure reported is the first of these in that order. */
  lemma FilmRecordFails(l: Listing, detailPage: string -> seq<Part>)
    ensures FilmRecord(l, detailPage).Err? <==>
      || l.genre.None? || l.rating.None? || Avoids(l.link, '/')
      || (FilmUrl(l.link).Ok? && SelectBlocks(detailPage(FilmUrl(l.link).value)).Err?)
    ensures l.genre.None? ==> FilmRecord(l, detailPage) == Err(NoGenre)
    ensures l.genre.Some? && l.rating.None? ==> FilmRecord(l, detailPage) == Err(NoRating)
    ensures l.genre.Some? && l.rating.Some? && Avoids(l.link, '/')
            ==> FilmRecord(l, detailPage) == Err(LinkWithoutSlash(l.link))
    ensures l.genre.Some? && l.rating.Some? && FilmUrl(l.link).Ok?
            && SelectBlocks(detailPage(FilmUrl(l.link).value)).Err?
            ==> FilmRecord(l, detailPage)
                == Err(PartWithoutHeading(SelectBlocks(detailPage(FilmUrl(l.link).value)).error.part))
  {
    FilmIdFails(l.link);
  }

  /** The line written for a film has exactly the seven columns, whenever the
      listing's own texts hold no tab: the detail fields never do. */
  lemma FilmRowColumns(l: Listing, detailPage: string -> seq<Part>)
    requires FilmRecord(l, detailPage).Ok?
    requires Avoids(l.index, Separator) && Avoids(l.name, Separator)
    requires l.genre.Some? ==> Avoids(l.genre.value, Separator)
    requires l.rating.Some? ==> Avoids(l.rating.value, Separator)
    ensures var f := FilmRecord(l, detailPage).value;
      SplitOn(Row(f)[..|Row(f)| - 1], Separator) == Values(f)
  {
    var f := FilmRecord(l, detailPage).value;
    FilmRecordFields(l, detailPage);
    DetailBlocksAvoid(detailPage(FilmUrl(l.link).value), Separator);
    assert f.index == Strip(l.index) && f.name == Strip(l.name);
    assert f.genre == Strip(l.genre.value) && f.rating == Strip(l.rating.value);
    StripAvoids(l.index, Separator);
    StripAvoids(l.name, Separator);
    StripAvoids(l.genre.value, Separator);
    StripAvoids(l.rating.value, Separator);
    ValuesAvoid(f, Separator);
    RowColumns(f);
  }

  // ---------------------------------------------------------------------------
  // One search page

  /** The records of a page's film containers up to the first failure. */
  function PageRecords(ls: seq<Listing>, read: Listing -> Result<FilmInfo, FilmError>): Harvest {
    if ls == [] then Harvest([], None)
    else match read(ls[0])
      case Err(e) => Harvest([], Some(e))
      case Ok(f) =>
        var rest := PageRecords(ls[1..], read);
        Harvest([f] + rest.films, rest.error)
  }

  /** The records of a page are those of its first film containers, in
      order, up to the first one that fails, which gives the failure. */
  lemma {:induction false} PageRecordsSpec(ls: seq<Listing>, read: Listing -> Result<FilmInfo, FilmError>)
    ensures var h := PageRecords(ls, read);
      && |h.films| <= |ls|
      && (h.error.None? ==> |h.films| == |ls|)
      && (forall k :: 0 <= k < |h.films| ==> read(ls[k]) == Ok(h.films[k]))
      && (h.error.Some? ==>
            |h.films| < |ls| && read(ls[|h.films|]) == Err(h.error.value))
  {
    if ls != [] && read(ls[0]).Ok? {
      PageRecordsSpec(ls[1..], read);
      var h := PageRecords(ls, read);
      var rest := PageRecords(ls[1..], read);
      forall k | 1 <= k < |h.films| ensures read(ls[k]) == Ok(h.films[k]) {
        assert h.films[k] == rest.films[k - 1] && ls[k] == ls[1..][k - 1];
      }
    }
  }

  function PrependFilms(fs: seq<FilmInfo>, h: Harvest): Harvest {
    Harvest(fs + h.films, h.error)
  }

  // ---------------------------------------------------------------------------
  // The cursor

  /** `params['start'] += NUM_FILMS_ON_ONE_PAGE` when there is a next page. */
  function NextStart(start: int, hasNext: bool): int {
    if hasNext then start + FilmsPerPage else start
  }

  /** The cursors of the search requests made while no film fails: one per
      response while the cursor is below the limit. */
  function Starts(pages: seq<SearchPage>, start: int): (r: seq<int>)
    ensures |r| <= |pages|
    ensures r != [] ==> r[0] == start
    ensures forall i :: 0 <= i < |r| ==> start <= r[i] < StartLimit
    decreases |pages|
  {
    if start >= StartLimit || pages == [] then []
    else [start] + Starts(pages[1..], NextStart(start, pages[0].hasNext))
  }

  /** Each request's cursor follows from the previous one by the next-page
      rule. */
  lemma {:induction false} StartsStep(pages: seq<SearchPage>, start: int, i: nat)
    requires i + 1 < |Starts(pages, start)|
    ensures Starts(pages, start)[i + 1] == NextStart(Starts(pages, start)[i], pages[i].hasNext)
    decreases |pages|
  {
    var next := NextStart(start, pages[0].hasNext);
    if i > 0 {
      StartsStep(pages[1..], next, i - 1);
    }
  }

  /** The requests stop before the responses run out only when the cursor
      reaches the limit. */
  lemma {:induction false} StartsStop(pages: seq<SearchPage>, start: int)
    ensures var r := Starts(pages, start);
      |r| < |pages| ==>
        (r == [] && start >= StartLimit)
        || (r != [] && NextStart(r[|r| - 1], pages[|r| - 1].hasNext) >= StartLimit)
    decreases |pages|
  {
    if start < StartLimit && pages != [] {
      var next := NextStart(start, pages[0].hasNext);
      var rest := Starts(pages[1..], next);
      StartsStop(pages[1..], next);
      if rest != [] {
        assert pages[1..][|rest| - 1] == pages[|rest|];
      }
    }
  }

  /** When every page links to a next one, the requests are made at
      1 + 50·m, …, 951 and then stop. */
  lemma {:induction false} StartsAllNextFrom(pages: seq<SearchPage>, m: nat, start: int)
    requires m <= 20 && |pages| >= 20 - m && start == 1 + 50 * m
    requires forall i :: 0 <= i < |pages| ==> pages[i].hasNext
    ensures |Starts(pages, start)| == 20 - m
    ensures forall i :: 0 <= i < 20 - m ==> Starts(pages, start)[i] == start + 50 * i
    decreases 20 - m
  {
    if m < 20 {
      var rest := Starts(pages[1..], start + 50);
      StartsAllNextFrom(pages[1..], m + 1, start + 50);
      assert Starts(pages, start) == [start] + rest;
    }
  }

  /** From the first cursor, twenty requests: 1, 51, …, 951. */
  lemma StartsAllNext(pages: seq<SearchPage>)
    requires |pages| >= 20
    requires forall i :: 0 <= i < |pages| ==> pages[i].hasNext
    ensures |Starts(pages, Params.FirstStart)| == 20
    ensures forall i :: 0 <= i < 20 ==> Starts(pages, Params.FirstStart)[i] == 1 + 50 * i
  {
    StartsAllNextFrom(pages, 0, 1);
  }

  /** Without next-page links the cursor never moves: the same request is
      made again for every response. */
  lemma {:induction false} StartsNoNext(pages: seq<SearchPage>, start: int)
    requires start < StartLimit
    requires forall i :: 0 <= i < |pages| ==> !pages[i].hasNext
    ensures Starts(pages, start) == seq(|pages|, i => start)
    decreases |pages|
  {
    if pages != [] {
      StartsNoNext(pages[1..], start);
      assert [start] + seq(|pages| - 1, i => start) == seq(|pages|, i => start);
    }
  }

  // ---------------------------------------------------------------------------
  // The crawl

  function PrependCrawled(fs: seq<FilmInfo>, ss: seq<int>, c: Crawled): Crawled {
    Crawled(fs + c.films, ss + c.starts, c.error)
  }

  /** What `parse_imdb` yields from cursor `start` over the given responses,
      until a film fails, the cursor reaches the limit, or the responses end. */
  function CrawlFrom(pages: seq<SearchPage>, start: int, read: Listing -> Result<FilmInfo, FilmError>): Crawled
    decreases |pages|
  {
    if start >= StartLimit || pages == [] then Crawled([], [], None)
    else
      var h := PageRecords(pages[0].films, read);
      if h.error.Some? then Crawled(h.films, [start], h.error)
      else PrependCrawled(h.films, [start],
                          CrawlFrom(pages[1..], NextStart(start, pages[0].hasNext), read))
  }

  /** The requests of a crawl are those of the cursor sequence, cut short
      after the page on which a film fails; every record comes from a film
      container of a requested page. */
  lemma {:induction false} CrawlStarts(pages: seq<SearchPage>, start: int, read: Listing -> Result<FilmInfo, FilmError>)
    ensures var c := CrawlFrom(pages, start, read);
      && |c.starts| <= |Starts(pages, start)|
      && c.starts == Starts(pages, start)[..|c.starts|]
      && (c.error.None? ==> c.starts == Starts(pages, start))
    decreases |pages|
  {
    if start < StartLimit && pages != [] {
      CrawlStarts(pages[1..], NextStart(start, pages[0].hasNext), read);
    }
  }

  /** Every film container of the page reads without failure. */
  predicate PageReads(page: SearchPage, read: Listing -> Result<FilmInfo, FilmError>) {
    forall k :: 0 <= k < |page.films| ==> read(page.films[k]).Ok?
  }

  /** A crawl over pages whose films all read correctly yields every film of
      every requested page. */
  lemma {:induction false} CrawlAllFilms(pages: seq<SearchPage>, start: int, read: Listing -> Result<FilmInfo, FilmError>)
    requires forall p :: 0 <= p < |pages| ==> PageReads(pages[p], read)
    ensures CrawlFrom(pages, start, read).error.None?
    ensures CrawlFrom(pages, start, read).films == AllRecords(pages[..|Starts(pages, start)|], read)
    ensures |CrawlFrom(pages, start, read).films|
            == FilmCount(pages[..|Starts(pages, start)|])
    decreases |pages|
  {
    var n := |Starts(pages, start)|;
    if start < StartLimit && pages != [] {
      var h := PageRecords(pages[0].films, read);
      assert PageReads(pages[0], read);
      PageRecordsSpec(pages[0].films, read);
      assert h.error.None?;
      var next := NextStart(start, pages[0].hasNext);
      assert forall p :: 0 <= p < |pages[1..]| ==> pages[1..][p] == pages[p + 1];
      CrawlAllFilms(pages[1..], next, read);
      assert pages[..n][1..] == pages[1..][..n - 1];
    } else {
      assert pages[..n] == [];
    }
  }

  /** The records of some pages, page after page. */
  function AllRecords(pages: seq<SearchPage>, read: Listing -> Result<FilmInfo, FilmError>): seq<FilmInfo> {
    if pages == [] then [] else PageRecords(pages[0].films, read).films + AllRecords(pages[1..], read)
  }

  /** The number of film containers on some pages. */
  function FilmCount(pages: seq<SearchPage>): nat {
    if pages == [] then 0 else |pages[0].films| + FilmCount(pages[1..])
  }

  /** One film container more: its record is prepended, or its failure ends
      the page. */
  lemma PageStep(ls: seq<Listing>, i: nat, read: Listing -> Result<FilmInfo, FilmError>)
    requires i < |ls|
    ensures PageRecords(ls[i..], read) ==
      match read(ls[i])
      case Err(e) => Harvest([], Some(e))
      case Ok(f) => PrependFilms([f], PageRecords(ls[i + 1..], read))
  {
    DropTail(ls, i);
  }

  /** One search response more, while the cursor is below the limit and its
      films all read: its records and its cursor are added, and the crawl goes
      on from the next cursor. */
  lemma CrawlAdvance(pages: seq<SearchPage>, p: nat, start: int, read: Listing -> Result<FilmInfo, FilmError>,
                     films: seq<FilmInfo>, starts: seq<int>)
    requires p < |pages| && start < StartLimit
    requires PageRecords(pages[p].films, read).error.None?
    ensures PrependCrawled(films, starts, CrawlFrom(pages[p..], start, read))
         == PrependCrawled(films + PageRecords(pages[p].films, read).films, starts + [start],
                           CrawlFrom(pages[p + 1..], NextStart(start, pages[p].hasNext), read))
  {
    DropTail(pages, p);
    var h := PageRecords(pages[p].films, read);
    var rest := CrawlFrom(pages[p + 1..], NextStart(start, pages[p].hasNext), read);
    assert CrawlFrom(pages[p..], start, read) == PrependCrawled(h.films, [start], rest);
    AppendAssoc(films, h.films, rest.films);
    AppendAssoc(starts, [start], rest.starts);
  }

  /** A response on which a film fails ends the crawl with that failure. */
  lemma CrawlStop(pages: seq<SearchPage>, p: nat, start: int, read: Listing -> Result<FilmInfo, FilmError>,
                  films: seq<FilmInfo>, starts: seq<int>)
    requires p < |pages| && start < StartLimit
    requires PageRecords(pages[p].films, read).error.Some?
    ensures var h := PageRecords(pages[p].films, read);
      PrependCrawled(films, starts, CrawlFrom(pages[p..], start, read))
      == Crawled(films + h.films, starts + [start], h.error)
  {
  }

  /** The loop over the film containers of one page: the records in order,
      until a film fails. */
  method ReadPage(listings: seq<Listing>, detailPage: string -> seq<Part>) returns (h: Harvest)
    ensures h == PageRecords(listings, Reader(detailPage))
  {
    var read := Reader(detailPage);
    var films: seq<FilmInfo> := [];
    var i := 0;
    while i < |listings|
      invariant 0 <= i <= |listings|
      invariant PageRecords(listings, read) == PrependFilms(films, PageRecords(listings[i..], read))
    {
      PageStep(listings, i, read);
      var r := ExtractFilm(listings[i], detailPage);
      assert read(listings[i]) == r;
      if r.Err? {
        return Harvest(films, Some(r.error));
      }
      AppendAssoc(films, [r.value], PageRecords(listings[i + 1..], read).films);
      films := films + [r.value];
      i := i + 1;
    }
    assert listings[i..] == [];
    h := Harvest(films, None);
  }

  /** `parse_imdb`: requests pages while the cursor is below the limit, turns
      each film container into a record, and moves the cursor when the page
      has a next link. A failing film ends the crawl. */
  method ParseImdb(start0: int, pages: seq<SearchPage>, detailPage: string -> seq<Part>)
    returns (films: seq<FilmInfo>, starts: seq<int>, error: Option<FilmError>)
    ensures Crawled(films, starts, error) == CrawlFrom(pages, start0, Reader(detailPage))
  {
    films, starts, error := [], [], None;
    var start := start0;
    var p := 0;
    while start < StartLimit && p < |pages|
      invariant 0 <= p <= |pages|
      invariant CrawlFrom(pages, start0, Reader(detailPage))
                == PrependCrawled(films, starts, CrawlFrom(pages[p..], start, Reader(detailPage)))
    {
      var page := pages[p];
      var h := ReadPage(page.films, detailPage);
      if h.error.Some? {
        CrawlStop(pages, p, start, Reader(detailPage), films, starts);
        films, starts, error := films + h.films, starts + [start], h.error;
        return;
      }
      CrawlAdvance(pages, p, start, Reader(detailPage), films, starts);
      var next := NextStart(start, page.hasNext);
      films, starts := films + h.films, starts + [start];
      if page.hasNext {
        start := start + FilmsPerPage;
      }
      assert start == next;
      assert CrawlFrom(pages, start0, Reader(detailPage))
             == PrependCrawled(films, starts, CrawlFrom(pages[p + 1..], start, Reader(detailPage)));
      p := p + 1;
    }
    assert films + [] == films && starts + [] == starts;
  }

  // ---------------------------------------------------------------------------
  // main

  /** What running the scraper produces: an argument error before anything is
      written, or the written text together with the failure that ended the
      crawl, if any. */
  datatype RunOutcome =
    | BadArguments(error: Params.ParamError)
    | Written(text: string, failure: Option<FilmError>)

  function RunResult(args: Params.Args, vocab: Params.Vocabulary, render: real -> string,
                     pages: seq<SearchPage>, detailPage: string -> seq<Part>): RunOutcome
  {
    match Params.BuildParams(args, vocab, render)
    case Err(e) => BadArguments(e)
    case Ok(_) =>
      var c := CrawlFrom(pages, Params.FirstStart, Reader(detailPage));
      Written(Table(c.films), c.error)
  }

  /** `main`: builds the query, then writes the header and every record the
      crawl yields, starting from the query's cursor. */
  method Run(args: Params.Args, vocab: Params.Vocabulary, render: real -> string,
             pages: seq<SearchPage>, detailPage: string -> seq<Part>)
    returns (outcome: RunOutcome)
    ensures outcome == RunResult(args, vocab, render, pages, detailPage)
    ensures outcome.Written? ==>
      |Header()| <= |outcome.text| && outcome.text[..|Header()|] == Header()
  {
    var query := Params.GetHtmlParams(args, vocab, render);
    if query.Err? {
      return BadArguments(query.error);
    }
    Params.BuildParamsQuery(args, vocab, render);
    var start := query.value[Params.StartKey].number;
    var films, starts, error := ParseImdb(start, pages, detailPage);
    var text := WriteTable(films);
    outcome := Written(text, error);
  }
}
