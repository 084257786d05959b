/**
 * Validation of the command-line filters and construction of the search
 * query (`is_date_correct` and `get_html_params`).
 *
 * The vocabularies of title types, genres and countries, which the script
 * reads from the search form when it starts, are a `Vocabulary` argument.
 * How a rating is printed (Python's `f'{x}'` on a float) is the `render`
 * argument.
 */
module Params {
  import opened Wrappers
  import opened Text

  /** The closed sets of valid filter values read from the search form. */
  datatype Vocabulary = Vocabulary(
    titleTypes: set<string>,
    genres: set<string>,
    countries: map<string, string>)

  /** The filters given on the command line; `None` is an omitted flag. */
  datatype Args = Args(
    titleType: Option<string>,
    releaseDateFrom: Option<string>,
    releaseDateTo: Option<string>,
    genres: Option<string>,
    minUserRating: RatingArg,
    maxUserRating: RatingArg,
    countries: Option<string>)

  /** A rating flag as the argument parser delivers it: the float parsed from
      a given flag, or the flag's integer default when it is omitted. */
  datatype RatingArg = Parsed(x: real) | IntDefault(n: nat)

  /** The defaults of the two rating flags (integers, not floats). */
  const MinRatingDefault: RatingArg := IntDefault(0)
  const MaxRatingDefault: RatingArg := IntDefault(10)

  /** A value of the query dictionary: a string, a list of strings, or the
      integer page cursor. */
  datatype ParamValue = Str(text: string) | Tokens(tokens: seq<string>) | Number(number: int)

  /** The exceptions `get_html_params` raises. */
  datatype ParamError =
    | UnknownTitleType(token: string)
    | BadDate
    | UnknownGenre(genre: char)
    | BadMinRating
    | BadMaxRating
    | UnknownCountry(country: char)

  /** The text of each exception; the maximum-rating check reuses the text of
      the minimum-rating one. */
  function Message(e: ParamError): string {
    match e
    case UnknownTitleType(t) => t + " isn't one of available types"
    case BadDate => "Date must be in YYYY-MM-DD format"
    case UnknownGenre(g) => [g] + " isn't one of available genres"
    case BadMinRating => "Min user rating must be a number from 0 to 10"
    case BadMaxRating => "Min user rating must be a number from 0 to 10"
    case UnknownCountry(c) => "Unknown country " + [c]
  }

  /** The keys of the query dictionary. */
  datatype Key = TitleTypeKey | ReleaseDateKey | GenresKey | UserRatingKey | CountryKey | StartKey

  /** The key as the string `get_html_params` uses. */
  function KeyName(k: Key): string {
    match k
    case TitleTypeKey => "title_type"
    case ReleaseDateKey => "release_date"
    case GenresKey => "genres"
    case UserRatingKey => "user_rating"
    case CountryKey => "country"
    case StartKey => "start"
  }

  /** Each key has its own name in the query string. */
  lemma KeyNamesDistinct(k1: Key, k2: Key)
    ensures KeyName(k1) == KeyName(k2) <==> k1 == k2
  {
  }

  /** A maximum rating out of range is reported with the minimum-rating text;
      every other error has a text of its own kind. */
  lemma MaxRatingReportsMin(e: ParamError)
    ensures Message(BadMaxRating) == Message(BadMinRating)
    ensures Message(e) == Message(BadMinRating) <==> e == BadMinRating || e == BadMaxRating
  {
    var m := Message(BadMinRating);
    assert m[|m| - 1] == '0';
    match e
    case UnknownTitleType(t) =>
      var x := Message(e);
      assert x[|x| - 1] == 's';
    case _ =>
  }

  /** The first result position requested. */
  const FirstStart: int := 1

  /** Python truthiness of an optional string flag: given and not empty. */
  predicate Given(o: Option<string>) {
    o.Some? && o.value != ""
  }

  /** `is_date_correct`: ten characters whose year, month and day slices are
      all digits; the two separator positions are not looked at. */
  predicate IsDateCorrect(d: string) {
    |d| == 10 && IsDigits(d[..4]) && IsDigits(d[5..7]) && IsDigits(d[8..10])
  }

  /** The date check, position by position: every character except those at
      positions 4 and 7 is a digit. */
  lemma DateCorrectByPosition(d: string)
    ensures IsDateCorrect(d) <==>
      |d| == 10 && forall i :: 0 <= i < 10 && i != 4 && i != 7 ==> IsDigit(d[i])
  {
    if |d| == 10 {
      assert forall i :: 0 <= i < 4 ==> d[..4][i] == d[i];
      assert forall i :: 5 <= i < 7 ==> d[5..7][i - 5] == d[i];
      assert forall i :: 8 <= i < 10 ==> d[8..10][i - 8] == d[i];
    }
  }

  /** Whatever stands at positions 4 and 7, the verdict is the same. */
  lemma DateSeparatorsUnchecked(d: string, x: char, y: char)
    requires |d| == 10
    ensures IsDateCorrect(d[4 := x][7 := y]) == IsDateCorrect(d)
  {
    DateCorrectByPosition(d);
    DateCorrectByPosition(d[4 := x][7 := y]);
  }

  /** Index of the first element that fails `ok`, or `|xs|` when none does:
      the point at which a validation loop over `xs` raises. */
  function FirstFailure<T>(xs: seq<T>, ok: T -> bool): (k: nat)
    ensures k <= |xs|
    ensures forall j :: 0 <= j < k ==> ok(xs[j])
    ensures k < |xs| ==> !ok(xs[k])
  {
    if xs == [] then 0
    else if !ok(xs[0]) then 0
    else 1 + FirstFailure(xs[1..], ok)
  }

  /** The first failure is where a scan that found every earlier element
      acceptable meets an unacceptable one. */
  lemma FirstFailureAt<T>(xs: seq<T>, ok: T -> bool, i: nat)
    requires i < |xs| && !ok(xs[i])
    requires forall j :: 0 <= j < i ==> ok(xs[j])
    ensures FirstFailure(xs, ok) == i
  {
  }

  /** When every element is acceptable there is no failure. */
  lemma FirstFailureNone<T>(xs: seq<T>, ok: T -> bool)
    requires forall j :: 0 <= j < |xs| ==> ok(xs[j])
    ensures FirstFailure(xs, ok) == |xs|
  {
  }

  /** There is no failure exactly when every element is acceptable. */
  lemma FirstFailureAll<T>(xs: seq<T>, ok: T -> bool)
    ensures FirstFailure(xs, ok) == |xs| <==> forall j :: 0 <= j < |xs| ==> ok(xs[j])
  {
  }

  /** The tests applied to each title-type token, genre character and country
      character. */
  function TitleTypeOk(v: Vocabulary): string -> bool {
    t => Lower(t) in v.titleTypes
  }

  function GenreOk(v: Vocabulary): char -> bool {
    c => Lower([c]) in v.genres
  }

  function CountryOk(v: Vocabulary): char -> bool {
    c => [c] in v.countries
  }

  /** What each validation loop iterates over: the whitespace-split tokens
      of the title types, but the raw characters of the genres and countries. */
  function TitleTokens(a: Args): seq<string> {
    if Given(a.titleType) then Split(a.titleType.value) else []
  }

  function GenreChars(a: Args): string {
    if Given(a.genres) then a.genres.value else ""
  }

  function CountryChars(a: Args): string {
    if Given(a.countries) then a.countries.value else ""
  }

  predicate DateOk(o: Option<string>) {
    !Given(o) || IsDateCorrect(o.value)
  }

  /** The text a date bound contributes to the range: empty when omitted. */
  function DateBound(o: Option<string>): string {
    if Given(o) then o.value else ""
  }

  /** The number a rating flag holds. */
  function RatingValue(r: RatingArg): real {
    match r
    case Parsed(x) => x
    case IntDefault(n) => n as real
  }

  predicate RatingInRange(r: RatingArg) {
    0.0 <= RatingValue(r) <= 10.0
  }

  /** The decimal digit for `d`. */
  function DigitChar(d: nat): (c: char)
    requires d < 10
    ensures IsDigit(c) && c as int - '0' as int == d
  {
    ('0' as int + d) as char
  }

  /** The number a string of decimal digits spells, most significant digit
      first. */
  function DecimalValue(t: string): nat
    requires forall i :: 0 <= i < |t| ==> IsDigit(t[i])
    decreases |t|
  {
    if t == [] then 0
    else
      assert IsDigit(t[|t| - 1]);
      DecimalValue(t[..|t| - 1]) * 10 + (t[|t| - 1] as int - '0' as int)
  }

  /** `f'{n}'` on a non-negative integer: decimal digits, with no leading
      zero, that spell `n`. */
  function NatText(n: nat): (t: string)
    ensures IsDigits(t)
    ensures |t| > 1 ==> t[0] != '0'
    ensures DecimalValue(t) == n
    decreases n
  {
    if n < 10 then [DigitChar(n)]
    else
      var front := NatText(n / 10);
      var t := front + [DigitChar(n % 10)];
      assert t[..|t| - 1] == front;
      t
  }

  /** `f'{x}'` on a rating flag: a parsed float is printed by `render`, an
      integer default in decimal. */
  function RatingText(r: RatingArg, render: real -> string): string {
    match r
    case Parsed(x) => render(x)
    case IntDefault(n) => NatText(n)
  }

  /** Each section of `get_html_params` raises the error given here, if any. */
  function TitleTypeCheck(a: Args, v: Vocabulary): Option<ParamError> {
    var tokens := TitleTokens(a);
    var k := FirstFailure(tokens, TitleTypeOk(v));
    if k < |tokens| then Some(UnknownTitleType(tokens[k])) else None
  }

  function DateCheck(a: Args): Option<ParamError> {
    if DateOk(a.releaseDateFrom) && DateOk(a.releaseDateTo) then None else Some(BadDate)
  }

  function GenreCheck(a: Args, v: Vocabulary): Option<ParamError> {
    var genres := GenreChars(a);
    var k := FirstFailure(genres, GenreOk(v));
    if k < |genres| then Some(UnknownGenre(genres[k])) else None
  }

  function RatingCheck(a: Args): Option<ParamError> {
    if !RatingInRange(a.minUserRating) then Some(BadMinRating)
    else if !RatingInRange(a.maxUserRating) then Some(BadMaxRating)
    else None
  }

  function CountryCheck(a: Args, v: Vocabulary): Option<ParamError> {
    var countries := CountryChars(a);
    var k := FirstFailure(countries, CountryOk(v));
    if k < |countries| then Some(UnknownCountry(countries[k])) else None
  }

  /** The first failing check, in the order `get_html_params` makes them. */
  function CheckArgs(a: Args, v: Vocabulary): Option<ParamError> {
    if TitleTypeCheck(a, v).Some? then TitleTypeCheck(a, v)
    else if DateCheck(a).Some? then DateCheck(a)
    else if GenreCheck(a, v).Some? then GenreCheck(a, v)
    else if RatingCheck(a).Some? then RatingCheck(a)
    else CountryCheck(a, v)
  }

  /** The range strings: each bound on its side of a comma. */
  function DateRange(a: Args): string {
    DateBound(a.releaseDateFrom) + "," + DateBound(a.releaseDateTo)
  }

  function RatingRange(a: Args, render: real -> string): string {
    RatingText(a.minUserRating, render) + "," + RatingText(a.maxUserRating, render)
  }

  /** Adds `key` with the whitespace split of `o` when `o` is given. */
  function WithTokens(m: map<Key, ParamValue>, key: Key, o: Option<string>): map<Key, ParamValue> {
    if Given(o) then m[key := Tokens(Split(o.value))] else m
  }

  /** The query built from valid filters, entry by entry in the order the
      script inserts them. */
  function QueryOf(a: Args, render: real -> string): map<Key, ParamValue> {
    var types := WithTokens(map[], TitleTypeKey, a.titleType);
    var dates := types[ReleaseDateKey := Str(DateRange(a))];
    var genres := WithTokens(dates, GenresKey, a.genres);
    var ratings := genres[UserRatingKey := Str(RatingRange(a, render))];
    var countries := WithTokens(ratings, CountryKey, a.countries);
    countries[StartKey := Number(FirstStart)]
  }

  /** `get_html_params` as one value: the first failing check, or the query. */
  function BuildParams(a: Args, v: Vocabulary, render: real -> string): Result<map<Key, ParamValue>, ParamError> {
    match CheckArgs(a, v)
    case Some(e) => Err(e)
    case None => Ok(QueryOf(a, render))
  }

  /** Python's `float` of a boolean. */
  function BoolToFloat(b: bool): real {
    if b then 1.0 else 0.0
  }

  /** Lines 35-39 of `get_html_params`: every whitespace-split title type,
      lowercased, must be known; the split tokens are stored. */
  method AddTitleTypes(params: map<Key, ParamValue>, args: Args, vocab: Vocabulary)
    returns (r: Result<map<Key, ParamValue>, ParamError>)
    ensures r == match TitleTypeCheck(args, vocab)
                 case Some(e) => Err(e)
                 case None => Ok(WithTokens(params, TitleTypeKey, args.titleType))
  {
    r := Ok(params);
    if Given(args.titleType) {
      var tokens := TitleTokens(args);
      var i := 0;
      while i < |tokens|
        invariant 0 <= i <= |tokens|
        invariant forall j :: 0 <= j < i ==> Lower(tokens[j]) in vocab.titleTypes
      {
        if Lower(tokens[i]) !in vocab.titleTypes {
          TitleTypeFailsAt(args, vocab, i);
          return Err(UnknownTitleType(tokens[i]));
        }
        i := i + 1;
      }
      TitleTypeCheckPasses(args, vocab);
      assert TitleTypeCheck(args, vocab).None?;
      r := Ok(params[TitleTypeKey := Tokens(tokens)]);
    } else {
      assert TitleTokens(args) == [];
    }
  }

  /** The title-type check raises on a failing token when all before it pass. */
  lemma TitleTypeFailsAt(a: Args, v: Vocabulary, i: nat)
    requires i < |TitleTokens(a)| && Lower(TitleTokens(a)[i]) !in v.titleTypes
    requires forall j :: 0 <= j < i ==> Lower(TitleTokens(a)[j]) in v.titleTypes
    ensures TitleTypeCheck(a, v) == Some(UnknownTitleType(TitleTokens(a)[i]))
  {
    FirstFailureAt(TitleTokens(a), TitleTypeOk(v), i);
  }

  /** Lines 41-55: the release-date range is always stored, each given bound
      checked with `is_date_correct` and an omitted one left empty. */
  method AddReleaseDate(params: map<Key, ParamValue>, args: Args)
    returns (r: Result<map<Key, ParamValue>, ParamError>)
    ensures r == match DateCheck(args)
                 case Some(e) => Err(e)
                 case None => Ok(params[ReleaseDateKey := Str(DateRange(args))])
  {
    var p := params;
    if Given(args.releaseDateFrom) {
      if IsDateCorrect(args.releaseDateFrom.value) {
        p := p[ReleaseDateKey := Str(args.releaseDateFrom.value)];
      } else {
        return Err(BadDate);
      }
    } else {
      p := p[ReleaseDateKey := Str("")];
    }
    assert p == params[ReleaseDateKey := Str(DateBound(args.releaseDateFrom))];
    p := p[ReleaseDateKey := Str(p[ReleaseDateKey].text + ",")];
    assert p == params[ReleaseDateKey := Str(DateBound(args.releaseDateFrom) + ",")];
    if Given(args.releaseDateTo) {
      if IsDateCorrect(args.releaseDateTo.value) {
        p := p[ReleaseDateKey := Str(p[ReleaseDateKey].text + args.releaseDateTo.value)];
      } else {
        return Err(BadDate);
      }
    } else {
      p := p[ReleaseDateKey := Str(p[ReleaseDateKey].text + "")];
    }
    assert p == params[ReleaseDateKey := Str(DateRange(args))];
    return Ok(p);
  }

  /** Lines 57-61: every CHARACTER of the genres string, lowercased, must be a
      known genre; the whitespace split of the string is stored. */
  method AddGenres(params: map<Key, ParamValue>, args: Args, vocab: Vocabulary)
    returns (r: Result<map<Key, ParamValue>, ParamError>)
    ensures r == match GenreCheck(args, vocab)
                 case Some(e) => Err(e)
                 case None => Ok(WithTokens(params, GenresKey, args.genres))
  {
    r := Ok(params);
    if Given(args.genres) {
      var genres := args.genres.value;
      var i := 0;
      while i < |genres|
        invariant 0 <= i <= |genres|
        invariant forall j :: 0 <= j < i ==> GenreOk(vocab)(genres[j])
      {
        if Lower([genres[i]]) !in vocab.genres {
          FirstFailureAt(genres, GenreOk(vocab), i);
          return Err(UnknownGenre(genres[i]));
        }
        i := i + 1;
      }
      FirstFailureNone(genres, GenreOk(vocab));
      r := Ok(params[GenresKey := Tokens(Split(args.genres.value))]);
    }
  }

  /** Lines 63-71: both ratings must pass `float(x >= 0.) and float(x) <= 10.`;
      the range is always stored. */
  method AddUserRating(params: map<Key, ParamValue>, args: Args, render: real -> string)
    returns (r: Result<map<Key, ParamValue>, ParamError>)
    ensures r == match RatingCheck(args)
                 case Some(e) => Err(e)
                 case None => Ok(params[UserRatingKey := Str(RatingRange(args, render))])
  {
    var p := params;
    var lo, hi := RatingValue(args.minUserRating), RatingValue(args.maxUserRating);
    var loText, hiText := RatingText(args.minUserRating, render), RatingText(args.maxUserRating, render);
    if BoolToFloat(lo >= 0.0) != 0.0 && lo <= 10.0 {
      p := p[UserRatingKey := Str(loText)];
    } else {
      return Err(BadMinRating);
    }
    assert p == params[UserRatingKey := Str(loText)];
    p := p[UserRatingKey := Str(p[UserRatingKey].text + ",")];
    assert p == params[UserRatingKey := Str(loText + ",")];
    if BoolToFloat(hi >= 0.0) != 0.0 && hi <= 10.0 {
      p := p[UserRatingKey := Str(p[UserRatingKey].text + hiText)];
    } else {
      return Err(BadMaxRating);
    }
    assert p == params[UserRatingKey := Str(RatingRange(args, render))];
    return Ok(p);
  }

  /** Lines 73-77: every CHARACTER of the countries string must be a country
      name of the vocabulary; the whitespace split of the string is stored. */
  method AddCountries(params: map<Key, ParamValue>, args: Args, vocab: Vocabulary)
    returns (r: Result<map<Key, ParamValue>, ParamError>)
    ensures r == match CountryCheck(args, vocab)
                 case Some(e) => Err(e)
                 case None => Ok(WithTokens(params, CountryKey, args.countries))
  {
    r := Ok(params);
    if Given(args.countries) {
      var countries := args.countries.value;
      var i := 0;
      while i < |countries|
        invariant 0 <= i <= |countries|
        invariant forall j :: 0 <= j < i ==> CountryOk(vocab)(countries[j])
      {
        if [countries[i]] !in vocab.countries {
          FirstFailureAt(countries, CountryOk(vocab), i);
          return Err(UnknownCountry(countries[i]));
        }
        i := i + 1;
      }
      FirstFailureNone(countries, CountryOk(vocab));
      r := Ok(params[CountryKey := Tokens(Split(args.countries.value))]);
    }
  }

  /** `get_html_params`: the sections in the script's order, stopping at the first
      that raises, then the page cursor set to 1. */
  method GetHtmlParams(args: Args, vocab: Vocabulary, render: real -> string)
    returns (r: Result<map<Key, ParamValue>, ParamError>)
    ensures r == BuildParams(args, vocab, render)
  {
    var params: map<Key, ParamValue> := map[];
    params :- AddTitleTypes(params, args, vocab);
    params :- AddReleaseDate(params, args);
    params :- AddGenres(params, args, vocab);
    params :- AddUserRating(params, args, render);
    params :- AddCountries(params, args, vocab);
    params := params[StartKey := Number(FirstStart)];
    return Ok(params);
  }

  /** The filters that pass, stated without reference to the order of the
      checks. */
  predicate ArgsValid(a: Args, v: Vocabulary) {
    var tokens, genres, countries := TitleTokens(a), GenreChars(a), CountryChars(a);
    (forall i :: 0 <= i < |tokens| ==> Lower(tokens[i]) in v.titleTypes)
    && DateOk(a.releaseDateFrom) && DateOk(a.releaseDateTo)
    && (forall i :: 0 <= i < |genres| ==> Lower([genres[i]]) in v.genres)
    && RatingInRange(a.minUserRating) && RatingInRange(a.maxUserRating)
    && (forall i :: 0 <= i < |countries| ==> [countries[i]] in v.countries)
  }

  /** The query is built exactly when every title-type token (lowercased) is a
      known type, each given date bound is well formed, every character of the
      genres (lowercased) is a known genre, both ratings lie in [0, 10] and every
      character of the countries is a known country name. */
  lemma BuildParamsAccepts(a: Args, v: Vocabulary, render: real -> string)
    ensures BuildParams(a, v, render).Ok? <==> ArgsValid(a, v)
  {
    TitleTypeCheckPasses(a, v);
    GenreCheckPasses(a, v);
    CountryCheckPasses(a, v);
  }

  lemma TitleTypeCheckPasses(a: Args, v: Vocabulary)
    ensures TitleTypeCheck(a, v).None? <==>
      forall i :: 0 <= i < |TitleTokens(a)| ==> Lower(TitleTokens(a)[i]) in v.titleTypes
  {
    FirstFailureAll(TitleTokens(a), TitleTypeOk(v));
  }

  lemma GenreCheckPasses(a: Args, v: Vocabulary)
    ensures GenreCheck(a, v).None? <==>
      forall i :: 0 <= i < |GenreChars(a)| ==> Lower([GenreChars(a)[i]]) in v.genres
  {
    FirstFailureAll(GenreChars(a), GenreOk(v));
  }

  lemma CountryCheckPasses(a: Args, v: Vocabulary)
    ensures CountryCheck(a, v).None? <==>
      forall i :: 0 <= i < |CountryChars(a)| ==> [CountryChars(a)[i]] in v.countries
  {
    FirstFailureAll(CountryChars(a), CountryOk(v));
  }

  /** Each error names an offending input and the check that caught it. */
  lemma BuildParamsRejects(a: Args, v: Vocabulary, render: real -> string)
    ensures BuildParams(a, v, render) == Err(BadDate) ==> !DateOk(a.releaseDateFrom) || !DateOk(a.releaseDateTo)
    ensures BuildParams(a, v, render) == Err(BadMinRating) ==> !RatingInRange(a.minUserRating)
    ensures BuildParams(a, v, render) == Err(BadMaxRating) ==> !RatingInRange(a.maxUserRating)
    ensures forall t :: BuildParams(a, v, render) == Err(UnknownTitleType(t)) ==>
      t in TitleTokens(a) && Lower(t) !in v.titleTypes
    ensures forall c :: BuildParams(a, v, render) == Err(UnknownGenre(c)) ==>
      c in GenreChars(a) && Lower([c]) !in v.genres
    ensures forall c :: BuildParams(a, v, render) == Err(UnknownCountry(c)) ==>
      c in CountryChars(a) && [c] !in v.countries
  {
  }

  /** On success the query always holds the release-date range and the rating
      range, each bound on its side of a comma, and the cursor at 1; the list
      filters are present exactly when given, each as the whitespace split of
      the raw (not lowercased) input. */
  lemma BuildParamsQuery(a: Args, v: Vocabulary, render: real -> string)
    requires BuildParams(a, v, render).Ok?
    ensures var m := BuildParams(a, v, render).value;
      && ReleaseDateKey in m && UserRatingKey in m && StartKey in m
      && (TitleTypeKey in m <==> Given(a.titleType))
      && (GenresKey in m <==> Given(a.genres))
      && (CountryKey in m <==> Given(a.countries))
      && m[ReleaseDateKey] == Str(DateBound(a.releaseDateFrom) + "," + DateBound(a.releaseDateTo))
      && m[UserRatingKey] == Str(RatingText(a.minUserRating, render) + "," + RatingText(a.maxUserRating, render))
      && m[StartKey] == Number(1)
      && (Given(a.titleType) ==> m[TitleTypeKey] == Tokens(Split(a.titleType.value)))
      && (Given(a.genres) ==> m[GenresKey] == Tokens(Split(a.genres.value)))
      && (Given(a.countries) ==> m[CountryKey] == Tokens(Split(a.countries.value)))
  {
  }

  /** With both rating flags omitted, their integer defaults pass the checks
      and the stored range is `0,10`, whatever a float would print as. */
  lemma DefaultRatingRange(a: Args, render: real -> string)
    requires a.minUserRating == MinRatingDefault && a.maxUserRating == MaxRatingDefault
    ensures RatingCheck(a).None?
    ensures RatingRange(a, render) == "0,10"
  {
    assert NatText(10) == NatText(1) + [DigitChar(0)];
  }

  /** The release-date range splits back into its two bounds at the comma,
      provided neither bound holds a comma itself. */
  lemma ReleaseDateRange(a: Args)
    requires ',' !in DateBound(a.releaseDateFrom) && ',' !in DateBound(a.releaseDateTo)
    ensures SplitOn(DateRange(a), ',') == [DateBound(a.releaseDateFrom), DateBound(a.releaseDateTo)]
  {
    var from, to := DateBound(a.releaseDateFrom), DateBound(a.releaseDateTo);
    SplitOnJoin([from, to], ',');
    assert Join([from, to], [',']) == from + "," + to;
  }

  /** The separator positions of a date are not checked, so a comma there is
      accepted, and the range then splits at the comma into more than the two
      bounds. */
  lemma CommaInDateSplitsRange(a: Args)
    requires Given(a.releaseDateFrom) && IsDateCorrect(a.releaseDateFrom.value)
    requires a.releaseDateFrom.value[4] == ','
    ensures |SplitOn(DateRange(a), ',')| >= 3
  {
    var from, to := a.releaseDateFrom.value, DateBound(a.releaseDateTo);
    var rest := from[5..] + [','] + to;
    assert DateRange(a) == from[..4] + [','] + rest;
    SplitOnConcat(from[..4], rest, ',');
    SplitOnConcat(from[5..], to, ',');
  }

  /** The genres are checked character by character, so when the vocabulary
      holds no one-letter genre, any given genres string is rejected at its
      first character, even one that names a listed genre. */
  lemma GenresCheckedPerCharacter(a: Args, v: Vocabulary, render: real -> string)
    requires TitleTypeCheck(a, v).None? && DateCheck(a).None?
    requires Given(a.genres)
    requires forall g :: g in v.genres ==> |g| != 1
    ensures BuildParams(a, v, render) == Err(UnknownGenre(a.genres.value[0]))
  {
    var c := a.genres.value[0];
    assert |Lower([c])| == 1;
    assert FirstFailure(GenreChars(a), GenreOk(v)) == 0;
  }
}
