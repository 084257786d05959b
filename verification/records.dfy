/**
 * What the scraper writes: one record per film with the seven fields of
 * `INFO_FIELDS`, a tab-separated header line and one tab-separated line per
 * record; and how a film's detail-page address is derived from the link in
 * the search listing.
 */
module Records {
  import opened Wrappers
  import opened Text

  /** The column separator of the output file. */
  const Separator: char := '\t'

  /** The end of every output line. */
  const LineEnd: string := "\n"

  /** The output columns, in order. */
  const InfoFields: seq<string> :=
    ["index", "name", "genre", "rating", "details", "box_office", "tech_specs"]

  /** The site address that a film id is appended to. */
  const FilmInfoRoot: string := "https://www.imdb.com/title/"

  /** One film's record; every field is text. */
  datatype FilmInfo = FilmInfo(
    index: string, name: string, genre: string, rating: string,
    details: string, boxOffice: string, techSpecs: string)

  /** The record as the dictionary `parse_imdb` yields: key and value pairs in
      insertion order. */
  function Entries(f: FilmInfo): seq<(string, string)> {
    [("index", f.index), ("name", f.name), ("genre", f.genre), ("rating", f.rating),
     ("details", f.details), ("box_office", f.boxOffice), ("tech_specs", f.techSpecs)]
  }

  /** `film_info[name]`: the value stored under a field name; the record has
      no other keys, so any other name finds nothing. */
  function Field(f: FilmInfo, name: string): Option<string> {
    if name == "index" then Some(f.index)
    else if name == "name" then Some(f.name)
    else if name == "genre" then Some(f.genre)
    else if name == "rating" then Some(f.rating)
    else if name == "details" then Some(f.details)
    else if name == "box_office" then Some(f.boxOffice)
    else if name == "tech_specs" then Some(f.techSpecs)
    else None
  }

  /** `film_info.values()`: one value per column, and the k-th value is the
      field that the header names k-th. */
  function Values(f: FilmInfo): (vs: seq<string>)
    ensures |vs| == |InfoFields|
    ensures forall k :: 0 <= k < |InfoFields| ==> Field(f, InfoFields[k]) == Some(vs[k])
  {
    seq(|Entries(f)|, k requires 0 <= k < |Entries(f)| => Entries(f)[k].1)
  }

  /** The header names the columns in the order the values are written: the
      k-th key of every record is the k-th field name. */
  lemma EntriesFollowInfoFields(f: FilmInfo)
    ensures |Entries(f)| == |InfoFields| == 7
    ensures forall k :: 0 <= k < 7 ==> Entries(f)[k].0 == InfoFields[k]
  {
  }

  /** The header line. */
  function Header(): string {
    Join(InfoFields, [Separator]) + LineEnd
  }

  /** The line written for one record. */
  function Row(f: FilmInfo): string {
    Join(Values(f), [Separator]) + LineEnd
  }

  /** A character in none of the fields is in none of the values. */
  lemma ValuesAvoid(f: FilmInfo, c: char)
    requires Avoids(f.index, c) && Avoids(f.name, c) && Avoids(f.genre, c) && Avoids(f.rating, c)
    requires Avoids(f.details, c) && Avoids(f.boxOffice, c) && Avoids(f.techSpecs, c)
    ensures forall k :: 0 <= k < |Values(f)| ==> Avoids(Values(f)[k], c)
  {
    assert Values(f) == [f.index, f.name, f.genre, f.rating, f.details, f.boxOffice, f.techSpecs];
  }

  /** A record whose fields hold no tab is written as a line that splits back,
      at the tabs, into exactly its seven values. */
  lemma {:induction false} RowColumns(f: FilmInfo)
    requires forall k :: 0 <= k < |Values(f)| ==> Avoids(Values(f)[k], Separator)
    ensures Row(f)[|Row(f)| - 1] == '\n'
    ensures SplitOn(Row(f)[..|Row(f)| - 1], Separator) == Values(f)
    ensures |SplitOn(Row(f)[..|Row(f)| - 1], Separator)| == |InfoFields|
  {
    var line := Join(Values(f), [Separator]);
    assert Row(f)[..|Row(f)| - 1] == line;
    SplitOnJoin(Values(f), Separator);
  }

  /** The header line splits, at the tabs, into the field names. */
  lemma {:induction false} HeaderColumns()
    ensures SplitOn(Header()[..|Header()| - 1], Separator) == InfoFields
  {
    assert Header()[..|Header()| - 1] == Join(InfoFields, [Separator]);
    forall k, i | 0 <= k < |InfoFields| && 0 <= i < |InfoFields[k]|
      ensures InfoFields[k][i] != Separator
    {
      assert 'a' <= InfoFields[k][i] <= 'z' || InfoFields[k][i] == '_';
    }
    SplitOnJoin(InfoFields, Separator);
  }

  /** The whole output: the header, then one line per record. */
  function Table(films: seq<FilmInfo>): string {
    if films == [] then Header()
    else Table(films[..|films| - 1]) + Row(films[|films| - 1])
  }

  /** `main`'s writing: the header first, then each record's line as the
      record arrives. The output file is modelled as the text written. */
  method WriteTable(films: seq<FilmInfo>) returns (out: string)
    ensures out == Table(films)
    ensures |Header()| <= |out| && out[..|Header()|] == Header()
  {
    out := Join(InfoFields, [Separator]) + LineEnd;
    for i := 0 to |films|
      invariant out == Table(films[..i])
    {
      assert films[..i + 1][..i] == films[..i];
      out := out + Join(Values(films[i]), [Separator]) + LineEnd;
    }
    assert films[..|films|] == films;
    TableStartsWithHeader(films);
  }

  /** Every output starts with the header, and each record adds its line at
      the end. */
  lemma {:induction false} TableStartsWithHeader(films: seq<FilmInfo>)
    ensures |Header()| <= |Table(films)| && Table(films)[..|Header()|] == Header()
  {
    if films != [] {
      TableStartsWithHeader(films[..|films| - 1]);
      var t := Table(films[..|films| - 1]);
      assert Table(films)[..|Header()|] == t[..|Header()|];
    }
  }

  // ---------------------------------------------------------------------------
  // The film's detail-page address

  /** `link.split('/')[-2]`: the piece before the last `/`. A link without a
      `/` has a single piece, and the index is out of range. */
  function FilmId(link: string): Result<string, string> {
    var pieces := SplitOn(link, '/');
    if |pieces| < 2 then Err(link) else Ok(pieces[|pieces| - 2])
  }

  /** `FILM_INFO_ROOT_ADDRESS + film_id`. */
  function FilmUrl(link: string): Result<string, string> {
    var id :- FilmId(link);
    Ok(FilmInfoRoot + id)
  }

  /** The id is the piece between the last two slashes, whatever precedes
      them; for a listing link `/title/<id>/` that is `<id>`. */
  lemma {:induction false} FilmIdBetweenSlashes(prefix: string, id: string, suffix: string)
    requires Avoids(id, '/') && Avoids(suffix, '/')
    ensures FilmId(prefix + "/" + id + "/" + suffix) == Ok(id)
    ensures FilmUrl(prefix + "/" + id + "/" + suffix) == Ok(FilmInfoRoot + id)
  {
    assert prefix + "/" + id + "/" + suffix == prefix + ['/'] + (id + ['/'] + suffix);
    SplitOnConcat(prefix, id + ['/'] + suffix, '/');
    SplitOnConcat(id, suffix, '/');
    SplitOnNone(id, '/');
    SplitOnNone(suffix, '/');
  }

  /** The id lookup fails exactly on links without a slash. */
  lemma {:induction false} FilmIdFails(link: string)
    ensures FilmId(link).Err? <==> Avoids(link, '/')
  {
    if Avoids(link, '/') {
      SplitOnNone(link, '/');
    } else {
      var i :| 0 <= i < |link| && link[i] == '/';
      assert link == link[..i] + ['/'] + link[i + 1..];
      SplitOnConcat(link[..i], link[i + 1..], '/');
    }
  }
}
