/**
 * The info pages (Sources/Services/InfoService.swift): the table from an
 * `Info` page to its bundled HTML resource, and the restyling that
 * `loadAttributedText` applies to the decoded text. Runs carrying a link are
 * set apart first, bold runs without a link second; the whole text then gets
 * the body font and the label colour, bold runs get the bold body font and
 * link runs are forced back to the body font.
 */
module InfoStyling {
  import opened Wrappers

  datatype Info = History | Devrooms | Transportation | Bus | Shuttle | Train | Car | Plane | Taxi

  /** `Info.resource`: the bundled HTML file name for a page. */
  function Resource(info: Info): (name: string)
    ensures info.Bus? <==> name == "bus-tram"
    ensures name != []
  {
    match info
    case History => "history"
    case Devrooms => "devrooms"
    case Transportation => "transportation"
    case Bus => "bus-tram"
    case Shuttle => "shuttle"
    case Train => "train"
    case Car => "car"
    case Plane => "plane"
    case Taxi => "taxi"
  }

  /** No two pages share a resource file. */
  lemma ResourceInjective(a: Info, b: Info)
    ensures Resource(a) == Resource(b) <==> a == b
  {
  }

  /** The fonts an info text can carry: the two the service sets, or one decoded from the HTML. */
  datatype Font = BodyFont | BoldBodyFont | HtmlFont(isBold: bool)

  datatype Color = LabelColor | HtmlColor

  /** `containsBoldAttribute` for a font attribute: present and with the bold trait. */
  function HasBoldTrait(font: Option<Font>): (bold: bool)
    ensures bold ==> font.Some?
    ensures font == Some(BoldBodyFont) ==> bold
    ensures font == Some(BodyFont) ==> !bold
  {
    match font
    case None => false
    case Some(BodyFont) => false
    case Some(BoldBodyFont) => true
    case Some(HtmlFont(isBold)) => isBold
  }

  /** An `NSRange` over character positions. */
  datatype Range = Range(location: nat, length: nat)
  {
    function End(): nat { location + length }
    predicate Contains(p: int) { location <= p < End() }
  }

  predicate InSome(ranges: seq<Range>, p: int)
  {
    exists r :: r in ranges && r.Contains(p)
  }

  // ---------------------------------------------------------------------
  // the attribute runs the decoded text is enumerated in

  /**
   * The decoded HTML: per-position link and font attributes, and the runs
   * `enumerateAttributes` reports (each non-empty, in bounds, with one set
   * of attributes throughout, and together covering the text).
   */
  datatype Decoded = Decoded(links: seq<bool>, fonts: seq<Option<Font>>, colors: seq<Option<Color>>, runs: seq<Range>)
  {
    ghost predicate WellFormed()
    {
      && |fonts| == |links| && |colors| == |links|
      && (forall r :: r in runs ==> 0 < r.length && r.End() <= |links|)
      && (forall r, p :: r in runs && r.Contains(p) ==> links[p] == links[r.location] && fonts[p] == fonts[r.location])
      && (forall p :: 0 <= p < |links| ==> InSome(runs, p))
    }
  }

  /** The runs the enumeration puts in `linkRanges`. */
  function LinkRuns(links: seq<bool>, runs: seq<Range>): (r: seq<Range>)
    requires forall r :: r in runs ==> r.location < |links|
    ensures forall x :: x in r <==> x in runs && links[x.location]
  {
    if runs == [] then []
    else LinkRuns(links, runs[..|runs| - 1]) + (if links[runs[|runs| - 1].location] then [runs[|runs| - 1]] else [])
  }

  /** The runs the enumeration puts in `boldRanges`: bold ones that carry no link. */
  function BoldRuns(links: seq<bool>, fonts: seq<Option<Font>>, runs: seq<Range>): (r: seq<Range>)
    requires |fonts| == |links|
    requires forall r :: r in runs ==> r.location < |links|
    ensures forall x :: x in r <==> x in runs && !links[x.location] && HasBoldTrait(fonts[x.location])
  {
    if runs == [] then []
    else
      var last := runs[|runs| - 1];
      BoldRuns(links, fonts, runs[..|runs| - 1]) + (if !links[last.location] && HasBoldTrait(fonts[last.location]) then [last] else [])
  }

  /** The enumeration block: a link run goes to `linkRanges`, otherwise a bold run to `boldRanges`. */
  method Classify(links: seq<bool>, fonts: seq<Option<Font>>, runs: seq<Range>) returns (boldRanges: seq<Range>, linkRanges: seq<Range>)
    requires |fonts| == |links|
    requires forall r :: r in runs ==> r.location < |links|
    ensures linkRanges == LinkRuns(links, runs)
    ensures boldRanges == BoldRuns(links, fonts, runs)
  {
    boldRanges, linkRanges := [], [];
    for i := 0 to |runs|
      invariant linkRanges == LinkRuns(links, runs[..i])
      invariant boldRanges == BoldRuns(links, fonts, runs[..i])
    {
      var range := runs[i];
      assert runs[..i + 1][..i] == runs[..i];
      if links[range.location] {
        linkRanges := linkRanges + [range];
      } else if HasBoldTrait(fonts[range.location]) {
        boldRanges := boldRanges + [range];
      }
    }
    assert runs[..|runs|] == runs;
  }

  /** No run lands in both lists. */
  lemma ClassesDisjoint(links: seq<bool>, fonts: seq<Option<Font>>, runs: seq<Range>)
    requires |fonts| == |links|
    requires forall r :: r in runs ==> r.location < |links|
    ensures forall r :: r in LinkRuns(links, runs) ==> r !in BoldRuns(links, fonts, runs)
  {
  }

  /** On a well-formed text, a position lies in a link run exactly when it carries a link. */
  lemma InLinkRuns(d: Decoded, p: nat)
    requires d.WellFormed() && p < |d.links|
    ensures InSome(LinkRuns(d.links, d.runs), p) <==> d.links[p]
  {
    assert InSome(d.runs, p);
    var r :| r in d.runs && r.Contains(p);
    if d.links[p] {
      assert r in LinkRuns(d.links, d.runs);
    }
  }

  /** On a well-formed text, a position lies in a bold run exactly when it is bold and carries no link. */
  lemma InBoldRuns(d: Decoded, p: nat)
    requires d.WellFormed() && p < |d.links|
    ensures InSome(BoldRuns(d.links, d.fonts, d.runs), p) <==> !d.links[p] && HasBoldTrait(d.fonts[p])
  {
    assert InSome(d.runs, p);
    var r :| r in d.runs && r.Contains(p);
    if !d.links[p] && HasBoldTrait(d.fonts[p]) {
      assert r in BoldRuns(d.links, d.fonts, d.runs);
    }
  }

  // ---------------------------------------------------------------------
  // the mutable attributed string

  /** The font a position ends with: bold exactly for bold text without a link. */
  function StyledFont(links: seq<bool>, fonts: seq<Option<Font>>, p: nat): (font: Font)
    requires p < |links| && |fonts| == |links|
    ensures font == BoldBodyFont <==> HasBoldTrait(fonts[p]) && !links[p]
    ensures font == BodyFont || font == BoldBodyFont
  {
    if HasBoldTrait(fonts[p]) && !links[p] then BoldBodyFont else BodyFont
  }

  /** An `NSMutableAttributedString`, reduced to its link, font and foreground colour attributes. */
  class AttributedText {
    const links: seq<bool>
    var fonts: seq<Option<Font>>
    var colors: seq<Option<Color>>

    ghost predicate Valid()
      reads this`fonts, this`colors
    {
      |fonts| == |links| && |colors| == |links|
    }

    constructor (decoded: Decoded)
      requires decoded.WellFormed()
      ensures Valid()
      ensures links == decoded.links && fonts == decoded.fonts && colors == decoded.colors
    {
      links, fonts, colors := decoded.links, decoded.fonts, decoded.colors;
    }

    /** `addAttribute(.font, value:range:)`. */
    method AddFont(font: Font, range: Range)
      requires Valid() && range.End() <= |links|
      modifies this`fonts
      ensures Valid()
      ensures forall p :: 0 <= p < |links| ==> fonts[p] == if range.Contains(p) then Some(font) else old(fonts)[p]
    {
      fonts := fonts[..range.location] + seq(range.length, _ => Some(font)) + fonts[range.End()..];
    }

    /** `removeAttribute(.font, range:)`. */
    method RemoveFont(range: Range)
      requires Valid() && range.End() <= |links|
      modifies this`fonts
      ensures Valid()
      ensures forall p :: 0 <= p < |links| ==> fonts[p] == if range.Contains(p) then None else old(fonts)[p]
    {
      fonts := fonts[..range.location] + seq(range.length, _ => None) + fonts[range.End()..];
    }

    /** `addAttribute(.foregroundColor, value:range:)`. */
    method AddForegroundColor(color: Color, range: Range)
      requires Valid() && range.End() <= |links|
      modifies this`colors
      ensures Valid()
      ensures forall p :: 0 <= p < |links| ==> colors[p] == if range.Contains(p) then Some(color) else old(colors)[p]
    {
      colors := colors[..range.location] + seq(range.length, _ => Some(color)) + colors[range.End()..];
    }

    /** The loop over `boldRanges`, on a text whose every position has the body font. */
    method ApplyBold(boldRanges: seq<Range>)
      requires Valid()
      requires forall r :: r in boldRanges ==> r.End() <= |links|
      requires forall p :: 0 <= p < |links| ==> fonts[p] == Some(BodyFont)
      modifies this`fonts
      ensures Valid()
      ensures forall p :: 0 <= p < |links| ==> fonts[p] == Some(if InSome(boldRanges, p) then BoldBodyFont else BodyFont)
    {
      for i := 0 to |boldRanges|
        invariant Valid()
        invariant forall p :: 0 <= p < |links| ==> fonts[p] == Some(if InSome(boldRanges[..i], p) then BoldBodyFont else BodyFont)
      {
        var range := boldRanges[i];
        assert range in boldRanges;
        RemoveFont(range);
        AddFont(BoldBodyFont, range);
        assert forall p :: InSome(boldRanges[..i + 1], p) <==> InSome(boldRanges[..i], p) || range.Contains(p) by {
          assert boldRanges[..i + 1] == boldRanges[..i] + [range];
        }
      }
      assert boldRanges[..|boldRanges|] == boldRanges;
    }

    /** The loop over `linkRanges`, run after `ApplyBold(boldRanges)`. */
    method ApplyLinks(linkRanges: seq<Range>, ghost boldRanges: seq<Range>)
      requires Valid()
      requires forall r :: r in linkRanges ==> r.End() <= |links|
      requires forall p :: 0 <= p < |links| ==> fonts[p] == Some(if InSome(boldRanges, p) then BoldBodyFont else BodyFont)
      modifies this`fonts
      ensures Valid()
      ensures forall p :: 0 <= p < |links| ==>
        fonts[p] == Some(if !InSome(linkRanges, p) && InSome(boldRanges, p) then BoldBodyFont else BodyFont)
    {
      for i := 0 to |linkRanges|
        invariant Valid()
        invariant forall p :: 0 <= p < |links| ==>
          fonts[p] == Some(if !InSome(linkRanges[..i], p) && InSome(boldRanges, p) then BoldBodyFont else BodyFont)
      {
        var range := linkRanges[i];
        assert range in linkRanges;
        RemoveFont(range);
        AddFont(BodyFont, range);
        assert forall p :: InSome(linkRanges[..i + 1], p) <==> InSome(linkRanges[..i], p) || range.Contains(p) by {
          assert linkRanges[..i + 1] == linkRanges[..i] + [range];
        }
      }
      assert linkRanges[..|linkRanges|] == linkRanges;
    }

    /**
     * The body of the `do` block after decoding: classify the runs, give the
     * whole text the body font and the label colour, then re-font the bold
     * runs and the link runs. Every position ends with the label colour, and
     * with the bold body font exactly when it was bold and carried no link.
     */
    method Restyle(runs: seq<Range>)
      requires Valid()
      requires Decoded(links, fonts, colors, runs).WellFormed()
      modifies this`fonts, this`colors
      ensures Valid()
      ensures forall p :: 0 <= p < |links| ==> colors[p] == Some(LabelColor)
      ensures forall p :: 0 <= p < |links| ==> fonts[p] == Some(StyledFont(links, old(fonts), p))
    {
      ghost var decoded := Decoded(links, fonts, colors, runs);
      var boldRanges, linkRanges := Classify(links, fonts, runs);
      var whole := Range(0, |links|);
      AddFont(BodyFont, whole);
      AddForegroundColor(LabelColor, whole);
      ApplyBold(boldRanges);
      ApplyLinks(linkRanges, boldRanges);
      forall p | 0 <= p < |links|
        ensures fonts[p] == Some(StyledFont(links, decoded.fonts, p))
      {
        InLinkRuns(decoded, p);
        InBoldRuns(decoded, p);
      }
    }
  }

  // ---------------------------------------------------------------------
  // loadAttributedText

  /** What the completion handler receives, if it is called at all. */
  datatype Completion = NotCalled | Called(text: Option<AttributedText>)

  /**
   * `loadAttributedText(for:completion:)`, run to the end of its background
   * block. `serviceAlive` says whether the service still exists when the
   * block runs; `bundle` plays `url(forResource:withExtension:)` and `read`
   * the reading and HTML decoding of a file, `None` for a thrown error.
   */
  method LoadAttributedText(info: Info, serviceAlive: bool,
                            bundle: (string, string) -> Option<string>,
                            read: string -> Option<Decoded>) returns (completion: Completion)
    requires forall url :: read(url).Some? ==> read(url).value.WellFormed()
    ensures !serviceAlive <==> completion.NotCalled?
    ensures serviceAlive && bundle(Resource(info), "html").None? ==> completion == Called(None)
    ensures serviceAlive && bundle(Resource(info), "html").Some? ==>
      var decoded := read(bundle(Resource(info), "html").value);
      match decoded
      case None => completion == Called(None)
      case Some(d) =>
        && completion.Called? && completion.text.Some?
        && var text := completion.text.value;
        && fresh(text) && text.Valid() && text.links == d.links && |d.fonts| == |d.links|
        && (forall p :: 0 <= p < |d.links| ==> text.colors[p] == Some(LabelColor))
        && (forall p :: 0 <= p < |d.links| ==> text.fonts[p] == Some(StyledFont(d.links, d.fonts, p)))
  {
    if !serviceAlive {
      return NotCalled;
    }
    var url := bundle(Resource(info), "html");
    if url.None? {
      return Called(None);
    }
    var decoded := read(url.value);
    if decoded.None? {
      return Called(None);
    }
    var text := new AttributedText(decoded.value);
    text.Restyle(decoded.value.runs);
    return Called(Some(text));
  }
}
