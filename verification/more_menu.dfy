/**
 * The entries of the "More" tab (Sources/Models/MoreItem.swift): what each
 * entry is called, which icon it shows and which info page it opens. The
 * `time` entry is compiled in only for DEBUG builds; the build
 * configuration is the `debug` parameter here.
 */
module MoreItems {
  import opened Wrappers
  import opened Localization
  import InfoStyling

  datatype MoreItem = Time | Code | Years | Video | History | Devrooms | Transportation | Acknowledgements

  /** `MoreItem.allCases` in a build with or without DEBUG. */
  function AllCases(debug: bool): (items: seq<MoreItem>)
    ensures Time in items <==> debug
    ensures debug ==> items[0] == Time
    ensures forall i :: 1 <= i < |items| ==> items[i] != Time
    ensures forall i, j :: 0 <= i < j < |items| ==> items[i] != items[j]
  {
    (if debug then [Time] else []) + [Code, Years, Video, History, Devrooms, Transportation, Acknowledgements]
  }

  /** An entry is part of a build exactly when it is not the DEBUG-only `time`. */
  lemma InBuild(item: MoreItem, debug: bool)
    ensures item in AllCases(debug) <==> debug || item != Time
  {
    var all := AllCases(debug);
    var k := if debug then 1 else 0;
    match item
    case Time =>
    case Code => assert all[k] == Code;
    case Years => assert all[k + 1] == Years;
    case Video => assert all[k + 2] == Video;
    case History => assert all[k + 3] == History;
    case Devrooms => assert all[k + 4] == Devrooms;
    case Transportation => assert all[k + 5] == Transportation;
    case Acknowledgements => assert all[k + 6] == Acknowledgements;
  }

  /** The Swift case name of an item. */
  function CaseName(item: MoreItem): string
  {
    match item
    case Time => "time"
    case Code => "code"
    case Years => "years"
    case Video => "video"
    case History => "history"
    case Devrooms => "devrooms"
    case Transportation => "transportation"
    case Acknowledgements => "acknowledgements"
  }

  /** `title`: the localisation key of the entry's text. */
  function Title(item: MoreItem): (title: LocalizedString)
    ensures title.Localized?
  {
    match item
    case Code => Localized("code.title")
    case Years => Localized("years.item")
    case Video => Localized("recent.video")
    case History => Localized("history.title")
    case Devrooms => Localized("devrooms.title")
    case Transportation => Localized("transportation.title")
    case Acknowledgements => Localized("acknowledgements.title")
    case Time => Localized("time.title")
  }

  /** No two entries share a title key. */
  lemma TitlesDistinct(a: MoreItem, b: MoreItem)
    ensures Title(a) == Title(b) <==> a == b
  {
  }

  /** `icon`: the name of the image asset, if the entry has one. */
  function Icon(item: MoreItem): (asset: Option<string>)
    ensures asset.None? <==> item == Time
    ensures item == Code ==> asset == Some("contribute")
    ensures item != Code && item != Time ==> asset == Some(CaseName(item))
  {
    match item
    case Code => Some("contribute")
    case Years => Some("years")
    case Video => Some("video")
    case History => Some("history")
    case Devrooms => Some("devrooms")
    case Transportation => Some("transportation")
    case Acknowledgements => Some("acknowledgements")
    case Time => None
  }

  /** `info`: the page an entry opens, for the three "about" entries only. */
  function Info(item: MoreItem): (info: Option<InfoStyling.Info>)
    ensures info.Some? <==> item in {History, Devrooms, Transportation}
    ensures info == Some(InfoStyling.History) <==> item == History
    ensures info == Some(InfoStyling.Devrooms) <==> item == Devrooms
    ensures info == Some(InfoStyling.Transportation) <==> item == Transportation
  {
    match item
    case History => Some(InfoStyling.History)
    case Devrooms => Some(InfoStyling.Devrooms)
    case Transportation => Some(InfoStyling.Transportation)
    case Code | Years | Video | Acknowledgements => None
    case Time => None
  }

  /** Distinct entries never open the same page. */
  lemma InfoInjective(a: MoreItem, b: MoreItem)
    requires Info(a).Some?
    ensures Info(a) == Info(b) <==> a == b
  {
  }
}

/**
 * The sections of the "More" tab (Sources/Models/MoreSection.swift): their
 * order, their headers and the entries each one lists.
 */
module MoreSections {
  import opened Wrappers
  import opened Localization
  import I = MoreItems

  datatype MoreSection = Years | Recent | About | Other | Debug

  /** `MoreSection.allCases` in a build with or without DEBUG. */
  function AllCases(debug: bool): (sections: seq<MoreSection>)
    ensures |sections| == if debug then 5 else 4
    ensures sections[..4] == [Years, Recent, About, Other]
    ensures Debug in sections <==> debug
  {
    [Years, Recent, About, Other] + (if debug then [Debug] else [])
  }

  /** `items`: the entries a section lists. */
  function Items(section: MoreSection): (items: seq<I.MoreItem>)
    ensures items != []
    ensures forall i, j :: 0 <= i < j < |items| ==> items[i] != items[j]
  {
    match section
    case Years => [I.Years]
    case Recent => [I.Video]
    case Other => [I.Code, I.Acknowledgements]
    case About => [I.History, I.Devrooms, I.Transportation]
    case Debug => [I.Time]
  }

  /** `title`: the section header; only the DEBUG section's is not looked up. */
  function Title(section: MoreSection): (title: Option<LocalizedString>)
    ensures section == Debug <==> title == Some(Verbatim("Debug"))
  {
    match section
    case Years => Some(Localized("more.section.years"))
    case Recent => Some(Localized("more.section.recent"))
    case About => Some(Localized("more.section.about"))
    case Other => Some(Localized("more.section.other"))
    case Debug => Some(Verbatim("Debug"))
  }

  /** The Swift case name of a section. */
  function CaseName(section: MoreSection): string
  {
    match section
    case Years => "years"
    case Recent => "recent"
    case About => "about"
    case Other => "other"
    case Debug => "debug"
  }

  /** The four regular headers use the key "more.section." followed by the case name. */
  lemma TitleKeys(section: MoreSection)
    requires section != Debug
    ensures Title(section) == Some(Localized("more.section." + CaseName(section)))
  {
    match section
    case Years => assert "more.section." + "years" == "more.section.years";
    case Recent => assert "more.section." + "recent" == "more.section.recent";
    case About => assert "more.section." + "about" == "more.section.about";
    case Other => assert "more.section." + "other" == "more.section.other";
  }

  /** The section that lists an entry. */
  function SectionOf(item: I.MoreItem): (section: MoreSection)
    ensures item in Items(section)
  {
    match item
    case Years => Years
    case Video => Recent
    case Code | Acknowledgements => Other
    case History | Devrooms | Transportation => About
    case Time => Debug
  }

  /**
   * Every entry is listed by exactly one section, and that section is part
   * of the build exactly when the entry is.
   */
  lemma ExactlyOneSection(item: I.MoreItem, section: MoreSection, debug: bool)
    ensures item in Items(section) <==> section == SectionOf(item)
    ensures SectionOf(item) in AllCases(debug) <==> item in I.AllCases(debug)
  {
  }

  /** The concatenation of the sections' entries, in section order. */
  function Listed(sections: seq<MoreSection>): seq<I.MoreItem>
  {
    if sections == [] then [] else Items(sections[0]) + Listed(sections[1..])
  }

  /** The sections list the build's entries, each one exactly once. */
  lemma ListedIsAllCases(debug: bool)
    ensures forall item :: item in Listed(AllCases(debug)) <==> item in I.AllCases(debug)
    ensures forall i, j :: 0 <= i < j < |Listed(AllCases(debug))| ==> Listed(AllCases(debug))[i] != Listed(AllCases(debug))[j]
  {
    var regular := [Years, Recent, About, Other];
    var all := AllCases(debug);
    assert Listed([Other]) == [I.Code, I.Acknowledgements];
    assert Listed([About, Other]) == [I.History, I.Devrooms, I.Transportation, I.Code, I.Acknowledgements];
    assert Listed(regular) == [I.Years, I.Video, I.History, I.Devrooms, I.Transportation, I.Code, I.Acknowledgements] by {
      assert regular[1..] == [Recent, About, Other];
      assert regular[1..][1..] == [About, Other];
    }
    if debug {
      assert all == regular + [Debug];
      ListedConcat(regular, [Debug]);
    } else {
      assert all == regular;
    }
  }

  lemma {:induction false} ListedConcat(a: seq<MoreSection>, b: seq<MoreSection>)
    ensures Listed(a + b) == Listed(a) + Listed(b)
  {
    if a == [] {
      assert a + b == b;
    } else {
      assert (a + b)[1..] == a[1..] + b;
      ListedConcat(a[1..], b);
    }
  }

  /** The entries that open an info page are exactly the "about" entries. */
  lemma InfoIffAbout(item: I.MoreItem)
    ensures I.Info(item).Some? <==> item in Items(About)
  {
  }
}
