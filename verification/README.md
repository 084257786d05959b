# IMDb search scraper — a Dafny model of `parse_imdb.py`

This project models the scraper in `parsing/parse_imdb.py`. The scraper
does four things:

- It checks command-line filters against the vocabulary of the IMDb search
  form. These are title types, a release-date range, genres, a user-rating
  range and countries.
- It builds the search query from those filters.
- It pages through the search results with a `start` cursor. For every
  listed film it fetches the film's detail page and reads three text sections
  from it: Details, Box Office and Technical Specs.
- It writes a tab-separated table with one line per film.

The model is split into modules that follow the program's parts:

| module | file | what it holds |
|---|---|---|
| `Wrappers` | `wrappers.dfy` | `Option` and `Result` |
| `Text` | `text.dfy` | the Python string operations the script relies on: `strip`, `split()`, `' '.join`, `split(c)`, `replace(p, '')`, `isdigit`, `lower` |
| `Params` | `params.dfy` | `is_date_correct` and `get_html_params`: one method per section of the function, proved against the function `BuildParams` |
| `Blocks` | `blocks.dfy` | `handle_block` and the loop over the `<hr/>`-separated parts of a detail page |
| `Records` | `records.dfy` | `INFO_FIELDS`, the header line, the record lines, the output text, and the film id taken from a link |
| `Crawl` | `crawl.dfy` | the film-container loop and the page loop of `parse_imdb` with its cursor, and `main` |

The network is a parameter. The search responses are a finite sequence of
pages in the order they arrive. Each page is a list of film containers and a
flag saying whether it has a next-page link. A detail page is a function from
the requested address to its parts. The vocabularies read from the search
form are a `Vocabulary` argument. The text Python gives for a float is a
`render` argument.

What the code does, as modelled:

- A date passes `is_date_correct` when it has ten characters and the year,
  month and day slices are digits. Positions 4 and 7 are never looked at, so
  `2020,01,01` passes. In that case the release-date range holds an extra
  comma (`CommaInDateSplitsRange`).
- Genres and countries are checked character by character, because the loop
  iterates over the string itself. What gets stored is the whitespace split of
  the raw string (`GenresCheckedPerCharacter`).
- The minimum rating is always checked, then the maximum; on success both are
  always stored. A failing maximum raises the message of the minimum check
  (`MaxRatingReportsMin`). An omitted rating flag keeps its
  integer default, so with neither flag given the range is `0,10`, not
  `0.0,10.0` (`DefaultRatingRange`).
- A record has the seven fields of `INFO_FIELDS`. There is no link, type or
  cast field, and no target count. The crawl stops when the cursor reaches
  1000. The cursor moves by 50 only when a page has a next link; otherwise
  the same page is requested again.
- The first failure ends the crawl. The source raises on a missing genre or
  rating, on a link without a `/`, and on a detail part without a heading.
  The model returns that failure, together with the records produced before
  it.

## Model

| member | source | states |
|---|---|---|
| `Text.Strip` | parsing/parse_imdb.py:94-98 | `str.strip()`: the result has no whitespace at either end; a string already without any comes back unchanged |
| `Text.TrimStart` | parsing/parse_imdb.py:94 | drops exactly the leading whitespace: the result is a suffix that does not start with whitespace, and every dropped character is whitespace |
| `Text.TrimEnd` | parsing/parse_imdb.py:94 | drops exactly the trailing whitespace, as a prefix that does not end with whitespace |
| `Text.StripKeepsText` | parsing/parse_imdb.py:94-98 | stripping removes only whitespace: the non-whitespace characters are kept in order |
| `Text.TrimStartKeepsText` | parsing/parse_imdb.py:94 | `lstrip` keeps every non-whitespace character |
| `Text.TrimEndKeepsText` | parsing/parse_imdb.py:94 | `rstrip` keeps every non-whitespace character |
| `Text.StripAvoids` | parsing/parse_imdb.py:94-98 | stripping brings in no new character |
| `Text.Word` | parsing/parse_imdb.py:85 | the longest whitespace-free prefix: a prefix, free of whitespace, and followed by whitespace or by nothing |
| `Text.Split` | parsing/parse_imdb.py:36 | `str.split()` with no argument, defined as: drop leading whitespace, take the longest word, repeat; what it keeps and where it cuts is stated by `SplitGivesWords`, `SplitKeepsText`, `SplitAtSpace` and `SplitJoin` |
| `Text.SplitAtSpace` | parsing/parse_imdb.py:85 | `str.split()` cuts at every whitespace character: the pieces of `a`, a whitespace character, then `b` are the pieces of `a` followed by those of `b` |
| `Text.SplitSkipsSpaces` | parsing/parse_imdb.py:85 | leading whitespace does not change the pieces of `str.split()` |
| `Text.Join` | parsing/parse_imdb.py:86 | `sep.join(ws)`; `SplitJoin`, `SplitOnJoin` and `JoinAvoids` state what it keeps |
| `Text.Collapse` | parsing/parse_imdb.py:85 | `' '.join(s.split())`; `CollapseSpec` states its shape, its words and its idempotence |
| `Text.Lower` | parsing/parse_imdb.py:37 | `str.lower()`, character by character, on ASCII letters |
| `Text.SplitGivesWords` | parsing/parse_imdb.py:36 | every piece of `str.split()` is a non-empty run of non-whitespace |
| `Text.SplitKeepsText` | parsing/parse_imdb.py:85 | the pieces of `str.split()`, concatenated, are the non-whitespace characters of the input |
| `Text.SplitJoin` | parsing/parse_imdb.py:85 | round trip: splitting a space-joined list of words gives the list back |
| `Text.JoinWordsCollapsed` | parsing/parse_imdb.py:85 | a space-joined list of words has no whitespace at its ends and only single spaces between non-spaces |
| `Text.CollapseSpec` | parsing/parse_imdb.py:85 | `' '.join(s.split())` is in collapsed form, splits into the same words as its input (each whitespace run between words became one space), keeps the non-whitespace characters and is idempotent |
| `Text.CollapseAvoids` | parsing/parse_imdb.py:85 | the only whitespace character left after collapsing is the plain space, so no tab and no line break remain |
| `Text.SplitOn` | parsing/parse_imdb.py:100 | `s.split(c)` always gives at least one piece |
| `Text.SplitOnConcat` | parsing/parse_imdb.py:100 | a separator in the middle splits the string into the pieces of both sides |
| `Text.SplitOnNone` | parsing/parse_imdb.py:100 | a string without the separator is a single piece |
| `Text.SplitOnJoin` | parsing/parse_imdb.py:132 | round trip: joining separator-free pieces and splitting again gives the pieces back |
| `Text.JoinSplitOn` | parsing/parse_imdb.py:100 | round trip: joining the pieces of `s.split(c)` with `c` gives `s` back |
| `Text.RemoveAll` | parsing/parse_imdb.py:85 | `replace(p, '')` never lengthens its input |
| `Text.RemoveAllAbsent` | parsing/parse_imdb.py:85 | a string in which the pattern does not occur is left unchanged |
| `Text.RemoveAllFirst` | parsing/parse_imdb.py:85 | the first occurrence is cut out; what precedes it stays and the scan resumes after it |
| `Text.RemoveAllAvoids` | parsing/parse_imdb.py:85 | removing a pattern brings in no new character |
| `Text.JoinAvoids` | parsing/parse_imdb.py:86 | joining brings in no character beyond those of the pieces and the separator |
| `Params.DateCorrectByPosition` | parsing/parse_imdb.py:28-29 | a date passes exactly when it has ten characters and every position except 4 and 7 is a digit |
| `Params.IsDateCorrect` | parsing/parse_imdb.py:28-29 | `is_date_correct`: ten characters and digit slices `[:4]`, `[5:7]`, `[8:10]`; `DateCorrectByPosition` restates it position by position |
| `Params.DateSeparatorsUnchecked` | parsing/parse_imdb.py:28-29 | changing the characters at positions 4 and 7 never changes the verdict |
| `Params.FirstFailure` | parsing/parse_imdb.py:36-38 | the position where a validation loop raises: every earlier element passes, and the element there fails |
| `Params.AddTitleTypes` | parsing/parse_imdb.py:35-39 | raises on the first whitespace token whose lowercase form is not a known type; otherwise stores the split tokens when given |
| `Params.AddReleaseDate` | parsing/parse_imdb.py:41-55 | raises on a given bound that fails the date check; otherwise stores `from,to` with an omitted bound left empty |
| `Params.AddGenres` | parsing/parse_imdb.py:57-61 | raises on the first character, lowercased, that is not a known genre; otherwise stores the whitespace split when given |
| `Params.AddUserRating` | parsing/parse_imdb.py:63-71 | raises on a minimum, then on a maximum, outside [0, 10]; otherwise stores `min,max`, each bound printed as the float given or as its integer default |
| `Params.Message` | parsing/parse_imdb.py:35-77 | the text of each exception `get_html_params` raises |
| `Params.MaxRatingReportsMin` | parsing/parse_imdb.py:63-71 | an out-of-range maximum is reported with the minimum-rating text, and no other error shares that text |
| `Params.DecimalValue` | parsing/parse_imdb.py:147-148 | the number a string of decimal digits spells |
| `Params.KeyName` | parsing/parse_imdb.py:32-79 | the query key of each filter as the script names it |
| `Params.KeyNamesDistinct` | parsing/parse_imdb.py:32-79 | distinct keys have distinct names, so the map over keys is the script's dictionary |
| `Params.NatText` | parsing/parse_imdb.py:147-148 | an integer default printed by `f'{n}'`: decimal digits, with no leading zero, whose value (`DecimalValue`) is `n` |
| `Params.DefaultRatingRange` | parsing/parse_imdb.py:147-148 | with both rating flags omitted the integer defaults pass the range checks and the stored range is `0,10` |
| `Params.AddCountries` | parsing/parse_imdb.py:73-77 | raises on the first character that is not a country name; otherwise stores the whitespace split when given |
| `Params.GetHtmlParams` | parsing/parse_imdb.py:32-79 | the sections run in source order and the first failure is returned; on success the cursor is set to 1 |
| `Params.BuildParams` | parsing/parse_imdb.py:32-79 | `get_html_params` as one value: the first failing check in source order, or the query; `BuildParamsAccepts`, `BuildParamsRejects` and `BuildParamsQuery` state its outcome without reference to that order |
| `Params.BuildParamsAccepts` | parsing/parse_imdb.py:32-79 | the query is built exactly when the filters are valid; validity is stated independently of the order of the checks |
| `Params.TitleTypeCheckPasses` | parsing/parse_imdb.py:35-39 | the title-type check passes exactly when every token, lowercased, is a known type |
| `Params.GenreCheckPasses` | parsing/parse_imdb.py:57-61 | the genre check passes exactly when every character, lowercased, is a known genre |
| `Params.CountryCheckPasses` | parsing/parse_imdb.py:73-77 | the country check passes exactly when every character is a country name |
| `Params.BuildParamsRejects` | parsing/parse_imdb.py:32-79 | each error names an input that fails its check |
| `Params.BuildParamsQuery` | parsing/parse_imdb.py:32-79 | on success the date range, the rating range (as the ratings print) and `start = 1` are always present; each list filter is present exactly when given, as the split of the raw input |
| `Params.ReleaseDateRange` | parsing/parse_imdb.py:41-55 | the date range splits at the comma back into its two bounds when neither bound holds a comma |
| `Params.CommaInDateSplitsRange` | parsing/parse_imdb.py:28-29 | a comma at position 4 passes the date check and makes the range split into three or more pieces |
| `Params.GenresCheckedPerCharacter` | parsing/parse_imdb.py:57-60 | once the title-type and date checks pass, and with no one-letter genre in the vocabulary, any given genres string is rejected at its first character |
| `Blocks.HandleBlock` | parsing/parse_imdb.py:82-86 | `handle_block`: the pieces joined by the two-character `\n`; empty for no blocks; a single block's piece for one block |
| `Blocks.Piece` | parsing/parse_imdb.py:85 | one text block, whitespace collapsed and the `See more »` marker removed; `PieceWithoutMarker` and `PieceWithTrailingMarker` state its result |
| `Blocks.BlockText` | parsing/parse_imdb.py:82-86 | the pieces joined by the two-character `\n`; `HandleBlock` computes it with the source's loop and `BlockTextAvoids` bounds its characters |
| `Blocks.PieceWithoutMarker` | parsing/parse_imdb.py:85 | a block without the `See more »` marker is its collapsed text, in collapsed form |
| `Blocks.PieceWithTrailingMarker` | parsing/parse_imdb.py:85 | a block ending with the marker loses exactly the marker |
| `Blocks.LastWithHeading` | parsing/parse_imdb.py:107-115 | the position of the last part with the heading, and no later part has it |
| `Blocks.FirstWithoutHeading` | parsing/parse_imdb.py:107-109 | the first part without a heading, the one on which `.text` raises |
| `Blocks.SelectBlocks` | parsing/parse_imdb.py:104-123 | the three detail slots from the last part with each heading, or the failure at the first part without a heading; `SelectBlocksFails`, `SlotStep`, `LaterDetailsWin`, `OtherHeadingIgnored` and `MissingSlotIsNull` state its behaviour |
| `Blocks.SlotStep` | parsing/parse_imdb.py:110-115 | a part overwrites a slot only when its heading is that slot's label |
| `Blocks.ReadDetailParts` | parsing/parse_imdb.py:104-123 | the part loop yields the selected blocks, with `Null` for empty or missing slots, or the failure at the first part without a heading |
| `Blocks.OtherHeadingIgnored` | parsing/parse_imdb.py:110-115 | a part with any other heading changes nothing |
| `Blocks.LaterDetailsWin` | parsing/parse_imdb.py:110-111 | a later Details part replaces the Details slot and leaves the other two slots alone |
| `Blocks.OrNull` | parsing/parse_imdb.py:121-123 | `x or 'Null'` on a slot that is `None` or a string; `MissingSlotIsNull` states when it gives `Null` |
| `Blocks.MissingSlotIsNull` | parsing/parse_imdb.py:121-123 | for any heading, the slot is `Null` exactly when no part carries the heading or its last part handles to empty text (or to `Null`); so a heading no part carries, or whose last part has no text blocks, gives `Null` |
| `Blocks.SelectBlocksFails` | parsing/parse_imdb.py:107-109 | reading fails exactly when some part has no heading, and the failure names the first such part |
| `Blocks.BlockTextAvoids` | parsing/parse_imdb.py:82-86 | a handled block holds no whitespace other than the plain space |
| `Blocks.SlotAvoids` | parsing/parse_imdb.py:121-123 | a slot's value holds no whitespace other than the plain space |
| `Blocks.DetailBlocksAvoid` | parsing/parse_imdb.py:116-124 | none of the three detail fields holds a tab or a line break |
| `Records.Field` | parsing/parse_imdb.py:116-124 | `film_info[name]`: the value stored under each of the seven keys, nothing under any other name |
| `Records.Values` | parsing/parse_imdb.py:135 | `film_info.values()`: seven values, and the k-th is the field that the header names k-th |
| `Records.EntriesFollowInfoFields` | parsing/parse_imdb.py:14 | the keys of every record are the seven header names, in order |
| `Records.ValuesAvoid` | parsing/parse_imdb.py:135 | a character in none of the fields is in none of the values |
| `Records.RowColumns` | parsing/parse_imdb.py:135 | a record without tabs is written as a line that ends in a line break and splits at the tabs into exactly its seven values |
| `Records.HeaderColumns` | parsing/parse_imdb.py:132 | the header line splits at the tabs into the field names |
| `Records.Header` | parsing/parse_imdb.py:132 | the field names joined by tabs, then a line break; `HeaderColumns` splits it back into the names |
| `Records.Row` | parsing/parse_imdb.py:135 | a record's values joined by tabs, then a line break; `RowColumns` splits it back into the values |
| `Records.Table` | parsing/parse_imdb.py:131-135 | the header followed by one line per record; `WriteTable` computes it with the source's loop and `TableStartsWithHeader` states its first line |
| `Records.WriteTable` | parsing/parse_imdb.py:131-135 | the output is the header followed by one line per record, and it always starts with the header |
| `Records.TableStartsWithHeader` | parsing/parse_imdb.py:132 | every output starts with the header line |
| `Records.FilmIdBetweenSlashes` | parsing/parse_imdb.py:99-101 | the id is the piece between the last two slashes, and the address is the title root followed by the id |
| `Records.FilmId` | parsing/parse_imdb.py:100 | `link.split('/')[-2]`, failing when there is a single piece; `FilmIdBetweenSlashes` and `FilmIdFails` state its result |
| `Records.FilmUrl` | parsing/parse_imdb.py:101 | the title root followed by the film id, or the id's failure |
| `Records.FilmIdFails` | parsing/parse_imdb.py:100 | `[-2]` fails exactly on links without a `/` |
| `Crawl.ExtractFilm` | parsing/parse_imdb.py:94-124 | one film container becomes its record, or the first failure in the order genre, rating, link, detail parts |
| `Crawl.FilmRecord` | parsing/parse_imdb.py:94-124 | one film container as its record or its failure; `FilmRecordFields` and `FilmRecordFails` state both outcomes, and `ExtractFilm` computes it step by step |
| `Crawl.FilmRecordFields` | parsing/parse_imdb.py:94-124 | a record's index, name, genre and rating are the stripped listing texts, and its detail fields are the blocks of the page at the film's address |
| `Crawl.FilmRecordFails` | parsing/parse_imdb.py:96-109 | reading a film fails exactly on a missing genre, a missing rating, a link without `/` or a detail part without a heading, and reports the first of these in that order |
| `Crawl.FilmRowColumns` | parsing/parse_imdb.py:116-135 | a film whose listing texts hold no tab is written as exactly its seven columns |
| `Crawl.PageRecordsSpec` | parsing/parse_imdb.py:93-124 | a page yields the records of its first containers, in order, up to the first failure, which is the reported failure |
| `Crawl.PageRecords` | parsing/parse_imdb.py:93-124 | the records of a page's film containers up to the first failure; `PageRecordsSpec` states which |
| `Crawl.PageStep` | parsing/parse_imdb.py:93-124 | one container more: its record is added, or its failure ends the page |
| `Crawl.ReadPage` | parsing/parse_imdb.py:93-124 | the container loop gives the records of the page up to the first failure |
| `Crawl.Starts` | parsing/parse_imdb.py:89-126 | at most one request per response; the first is at the initial cursor; every cursor is at least the initial one and below 1000 |
| `Crawl.StartsStep` | parsing/parse_imdb.py:125-126 | each cursor follows from the previous one: plus 50 with a next link, unchanged without one |
| `Crawl.NextStart` | parsing/parse_imdb.py:125-126 | the cursor plus 50 when the page has a next link, unchanged otherwise |
| `Crawl.StartsStop` | parsing/parse_imdb.py:90 | the requests stop before the responses run out only when the next cursor reaches 1000 |
| `Crawl.StartsAllNextFrom` | parsing/parse_imdb.py:89-126 | from cursor 1 + 50·m with next links throughout, 20 − m requests at 50-step cursors |
| `Crawl.StartsAllNext` | parsing/parse_imdb.py:78-126 | from cursor 1 with next links throughout: exactly 20 requests, at 1, 51, …, 951 |
| `Crawl.StartsNoNext` | parsing/parse_imdb.py:125-126 | without next links the same cursor is requested for every response |
| `Crawl.CrawlStarts` | parsing/parse_imdb.py:89-126 | the requests made are a prefix of the cursor sequence, and all of it when no film fails |
| `Crawl.CrawlFrom` | parsing/parse_imdb.py:89-126 | `parse_imdb` over given responses as one value; `CrawlStarts`, `CrawlAllFilms`, `CrawlAdvance` and `CrawlStop` state its outcome and `ParseImdb` computes it with the source's loop |
| `Crawl.AllRecords` | parsing/parse_imdb.py:93-124 | the records of some pages, page after page |
| `Crawl.CrawlAllFilms` | parsing/parse_imdb.py:89-126 | when every film reads, there is no failure and the records are exactly those of every requested page, page after page, one per container |
| `Crawl.CrawlAdvance` | parsing/parse_imdb.py:89-126 | a page whose films all read adds its records and its cursor; the crawl goes on from the next cursor |
| `Crawl.CrawlStop` | parsing/parse_imdb.py:89-124 | a page on which a film fails ends the crawl with that failure |
| `Crawl.ParseImdb` | parsing/parse_imdb.py:89-126 | the page loop yields the records, the cursors requested and the failure of the crawl |
| `Crawl.Run` | parsing/parse_imdb.py:129-135 | `main`: an argument error before anything is written, or the table of the crawl's records, which starts with the header |

## Left out

- HTTP requests are not modelled. The search responses are a finite sequence of pages and the detail pages are a function of the address. The source re-requests the same page indefinitely when a page has no next link; the model stops when the given responses run out.
- HTML parsing with BeautifulSoup is not modelled. A film container is given by its texts (the genre and rating may be absent) and its link. A detail page is given as its parts: each part has a heading (or none) and the texts of its `txt-block` elements. A page without a `titleDetails` container is one part without a heading.
- A missing index or name element (an exception in the source) is not modelled; both are always present in a `Listing`.
- Loading the vocabularies from the search form at start-up is not modelled; they are an argument.
- Float parsing and printing are not modelled. A rating given on the command line is a `real`, and `f'{x}'` on it is the `render` argument; NaN and infinities are not represented. An omitted rating flag keeps its integer default (0 or 10), printed in decimal.
- `str.lower` and `str.isdigit` cover ASCII only. `str.isspace` follows Python's full whitespace set.
- The query is a map over the six keys; the insertion order of the Python dictionary is not kept. The in-place updates of `params['release_date']` and `params['user_rating']` are modelled step by step in the section methods.
- The generator's laziness is not modelled. The crawl produces its records as one sequence, and `main` writes the whole text.
- The output file, the `print` of each record and argument parsing are left out. The script writes no log file; its `--log_file_path` flag is declared and never used, so it has no counterpart in the model.
