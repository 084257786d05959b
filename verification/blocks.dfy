/**
 * The detail-page text blocks: `handle_block`, which normalises the texts of
 * the `txt-block` elements of one part, and the loop of `parse_imdb` that
 * reads the heading of each `<hr/>`-separated part of the details container
 * and fills the Details, Box Office and Technical Specs slots.
 *
 * The HTML parsing is not modelled: a part is given as its heading text (if
 * the part has an `h2` or `h3`) and the texts of its `txt-block` elements.
 */
module Blocks {
  import opened Wrappers
  import opened Text

  /** The boilerplate link text removed from every block. */
  const SeeMore: string := "See more \U{BB}"

  /** The separator between the blocks of a part: a backslash and the letter
      n, not a line break. */
  const NewlineEscape: string := "\\n"

  /** What an empty or missing slot becomes. */
  const Null: string := "Null"

  const DetailsHeading: string := "Details"
  const BoxOfficeHeading: string := "Box Office"
  const TechSpecsHeading: string := "Technical Specs"

  /** One part of the details container. */
  datatype Part = Part(heading: Option<string>, texts: seq<string>)

  /** The three slots of a film record that come from the detail page. */
  datatype DetailBlocks = DetailBlocks(details: string, boxOffice: string, techSpecs: string)

  /** A part without a heading makes `parse_imdb` fail (`.text` of `None`);
      `part` is its position. */
  datatype HeadingError = MissingHeading(part: nat)

  // ---------------------------------------------------------------------------
  // handle_block

  /** One `txt-block` text: whitespace collapsed, then the boilerplate removed. */
  function Piece(text: string): string {
    RemoveAll(Collapse(text), SeeMore)
  }

  function Pieces(texts: seq<string>): seq<string> {
    seq(|texts|, i requires 0 <= i < |texts| => Piece(texts[i]))
  }

  /** The value of `handle_block`. */
  function BlockText(texts: seq<string>): string {
    Join(Pieces(texts), NewlineEscape)
  }

  /** `handle_block`: appends the normalised text of each block to a list,
      then joins the list with the two-character separator. */
  method HandleBlock(texts: seq<string>) returns (r: string)
    ensures r == BlockText(texts)
    ensures texts == [] ==> r == ""
    ensures |texts| == 1 ==> r == Piece(texts[0])
  {
    var strings: seq<string> := [];
    for i := 0 to |texts|
      invariant |strings| == i
      invariant forall k :: 0 <= k < i ==> strings[k] == Piece(texts[k])
    {
      strings := strings + [Piece(texts[i])];
    }
    assert strings == Pieces(texts);
    r := Join(strings, NewlineEscape);
  }

  /** A block whose collapsed text has no boilerplate is exactly its collapsed
      text: no whitespace at the ends and no run of whitespace inside. */
  lemma PieceWithoutMarker(text: string)
    requires forall i :: !OccursAt(Collapse(text), SeeMore, i)
    ensures Piece(text) == Collapse(text)
    ensures IsCollapsed(Piece(text))
  {
    RemoveAllAbsent(Collapse(text), SeeMore);
    CollapseSpec(text);
  }

  /** A block that ends with the boilerplate (its only occurrence) loses it and
      keeps everything before it, including the space that preceded it. */
  lemma PieceWithTrailingMarker(text: string, before: string)
    requires Collapse(text) == before + SeeMore
    requires forall i :: 0 <= i < |before| ==> !OccursAt(before + SeeMore, SeeMore, i)
    ensures Piece(text) == before
  {
    assert before + SeeMore + [] == before + SeeMore;
    RemoveAllFirst(before, SeeMore, []);
  }

  // ---------------------------------------------------------------------------
  // Choosing the part for each slot

  /** Position of the last part whose heading is exactly `heading`, or -1. */
  function LastWithHeading(parts: seq<Part>, heading: string): (k: int)
    ensures -1 <= k < |parts|
    ensures k >= 0 ==> parts[k].heading == Some(heading)
    ensures forall j :: k < j < |parts| ==> parts[j].heading != Some(heading)
  {
    if parts == [] then -1
    else if parts[|parts| - 1].heading == Some(heading) then |parts| - 1
    else LastWithHeading(parts[..|parts| - 1], heading)
  }

  /** Python's `x or 'Null'` on a slot that is `None` or a string. */
  function OrNull(slot: Option<string>): string {
    match slot
    case None => Null
    case Some(s) => if s == "" then Null else s
  }

  /** The handled text of the last part with the heading, if any. */
  function SlotFor(parts: seq<Part>, heading: string): Option<string> {
    var k := LastWithHeading(parts, heading);
    if k < 0 then None else Some(BlockText(parts[k].texts))
  }

  /** Position of the first part without a heading, or `|parts|`. */
  function FirstWithoutHeading(parts: seq<Part>): (k: nat)
    ensures k <= |parts|
    ensures forall j :: 0 <= j < k ==> parts[j].heading.Some?
    ensures k < |parts| ==> parts[k].heading.None?
  {
    if parts == [] then 0
    else if parts[0].heading.None? then 0
    else 1 + FirstWithoutHeading(parts[1..])
  }

  /** The detail slots of a film page, or the failure on a part without a
      heading. */
  function SelectBlocks(parts: seq<Part>): Result<DetailBlocks, HeadingError> {
    var k := FirstWithoutHeading(parts);
    if k < |parts| then Err(MissingHeading(k))
    else Ok(DetailBlocks(
      OrNull(SlotFor(parts, DetailsHeading)),
      OrNull(SlotFor(parts, BoxOfficeHeading)),
      OrNull(SlotFor(parts, TechSpecsHeading))))
  }

  /** Extending the parts seen by one: the slot changes only if that part
      carries the heading. */
  lemma SlotStep(parts: seq<Part>, i: nat, heading: string)
    requires i < |parts|
    ensures SlotFor(parts[..i + 1], heading) ==
      if parts[i].heading == Some(heading) then Some(BlockText(parts[i].texts))
      else SlotFor(parts[..i], heading)
  {
    assert parts[..i + 1][..i] == parts[..i];
  }

  /** The loop over the parts in `parse_imdb`: each part's heading decides which
      of the three variables its handled text overwrites; a part without a
      heading stops everything. */
  method ReadDetailParts(parts: seq<Part>) returns (r: Result<DetailBlocks, HeadingError>)
    ensures r == SelectBlocks(parts)
  {
    var details, boxOffice, techSpecs: Option<string> := None, None, None;
    for i := 0 to |parts|
      invariant FirstWithoutHeading(parts) >= i
      invariant details == SlotFor(parts[..i], DetailsHeading)
      invariant boxOffice == SlotFor(parts[..i], BoxOfficeHeading)
      invariant techSpecs == SlotFor(parts[..i], TechSpecsHeading)
    {
      SlotStep(parts, i, DetailsHeading);
      SlotStep(parts, i, BoxOfficeHeading);
      SlotStep(parts, i, TechSpecsHeading);
      var part := parts[i];
      if part.heading.None? {
        return Err(MissingHeading(i));
      }
      var name := part.heading.value;
      if name == DetailsHeading {
        var text := HandleBlock(part.texts);
        details := Some(text);
      } else if name == BoxOfficeHeading {
        var text := HandleBlock(part.texts);
        boxOffice := Some(text);
      } else if name == TechSpecsHeading {
        var text := HandleBlock(part.texts);
        techSpecs := Some(text);
      }
    }
    assert parts[..|parts|] == parts;
    r := Ok(DetailBlocks(OrNull(details), OrNull(boxOffice), OrNull(techSpecs)));
  }

  /** A heading that is none of the three exact labels is ignored: adding such
      a part changes nothing. */
  lemma OtherHeadingIgnored(parts: seq<Part>, p: Part)
    requires p.heading.Some?
    requires p.heading.value !in {DetailsHeading, BoxOfficeHeading, TechSpecsHeading}
    ensures SelectBlocks(parts + [p]) == SelectBlocks(parts)
  {
    var ps := parts + [p];
    assert ps[..|ps| - 1] == parts;
    if FirstWithoutHeading(parts) < |parts| {
      assert FirstWithoutHeading(ps) == FirstWithoutHeading(parts);
    } else {
      assert FirstWithoutHeading(ps) == |ps|;
    }
  }

  /** When a heading repeats, the last part with it wins: a later Details part
      replaces the Details slot and leaves the other two as they were. */
  lemma LaterDetailsWin(parts: seq<Part>, p: Part)
    requires SelectBlocks(parts).Ok?
    requires p.heading == Some(DetailsHeading)
    ensures SelectBlocks(parts + [p]) ==
      Ok(SelectBlocks(parts).value.(details := OrNull(Some(BlockText(p.texts)))))
  {
    var ps := parts + [p];
    assert ps[..|ps| - 1] == parts;
    assert FirstWithoutHeading(ps) == |ps|;
    assert DetailsHeading != BoxOfficeHeading && DetailsHeading != TechSpecsHeading;
    assert SlotFor(ps, BoxOfficeHeading) == SlotFor(parts, BoxOfficeHeading);
    assert SlotFor(ps, TechSpecsHeading) == SlotFor(parts, TechSpecsHeading);
  }

  /** Whatever the heading, its slot is `'Null'` exactly when no part carries
      the heading or the last part that does handles to empty text (or to the
      text `Null` itself); in particular a slot no part is headed for, and one
      whose part has no text blocks, is `'Null'`. */
  lemma MissingSlotIsNull(parts: seq<Part>, h: string)
    ensures (forall j :: 0 <= j < |parts| ==> parts[j].heading != Some(h))
            ==> OrNull(SlotFor(parts, h)) == Null
    ensures var k := LastWithHeading(parts, h);
            OrNull(SlotFor(parts, h)) == Null
            <==> k < 0 || BlockText(parts[k].texts) == "" || BlockText(parts[k].texts) == Null
    ensures var k := LastWithHeading(parts, h);
            k >= 0 && parts[k].texts == [] ==> OrNull(SlotFor(parts, h)) == Null
  {
  }

  /** `parse_imdb` fails exactly when some part has no heading, and it reports
      the first such part. */
  lemma SelectBlocksFails(parts: seq<Part>)
    ensures SelectBlocks(parts).Err? <==> exists j :: 0 <= j < |parts| && parts[j].heading.None?
    ensures SelectBlocks(parts).Err? ==>
      var k := SelectBlocks(parts).error.part;
      k < |parts| && parts[k].heading.None? && forall j :: 0 <= j < k ==> parts[j].heading.Some?
  {
  }

  /** No whitespace character other than the plain space survives in the text
      of a part: in particular no tab and no line break, the separators of the
      output file. */
  lemma BlockTextAvoids(texts: seq<string>, c: char)
    requires IsSpace(c) && c != ' '
    ensures Avoids(BlockText(texts), c)
  {
    forall k | 0 <= k < |texts| ensures Avoids(Pieces(texts)[k], c) {
      CollapseAvoids(texts[k], c);
      RemoveAllAvoids(Collapse(texts[k]), SeeMore, c);
    }
    JoinAvoids(Pieces(texts), NewlineEscape, c);
  }

  lemma SlotAvoids(parts: seq<Part>, heading: string, c: char)
    requires IsSpace(c) && c != ' '
    ensures Avoids(OrNull(SlotFor(parts, heading)), c)
  {
    var k := LastWithHeading(parts, heading);
    if k >= 0 {
      BlockTextAvoids(parts[k].texts, c);
    }
  }

  /** Hence no slot of a page's detail blocks holds a tab or a line break. */
  lemma DetailBlocksAvoid(parts: seq<Part>, c: char)
    requires IsSpace(c) && c != ' '
    requires SelectBlocks(parts).Ok?
    ensures var d := SelectBlocks(parts).value;
      Avoids(d.details, c) && Avoids(d.boxOffice, c) && Avoids(d.techSpecs, c)
  {
    SlotAvoids(parts, DetailsHeading, c);
    SlotAvoids(parts, BoxOfficeHeading, c);
    SlotAvoids(parts, TechSpecsHeading, c);
  }
}
