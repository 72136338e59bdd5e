/**
 * The transportation menu (Sources/ViewControllers/TransportationViewController.swift):
 * two table sections of fixed items, the cell each item configures, the
 * info page each item opens, and the forwarding of a selected row.
 */
module Transportation {
  import opened Wrappers
  import opened Localization
  import InfoStyling

  datatype Item = AppleMaps | GoogleMaps | Bus | Shuttle | Train | Car | Plane | Taxi

  /** The `String` raw value of an item: its case name. */
  function RawValue(item: Item): (raw: string)
    ensures raw != []
  {
    match item
    case AppleMaps => "appleMaps"
    case GoogleMaps => "googleMaps"
    case Bus => "bus"
    case Shuttle => "shuttle"
    case Train => "train"
    case Car => "car"
    case Plane => "plane"
    case Taxi => "taxi"
  }

  datatype Section = Directions | By

  /** `Section.allCases`, the table's sections in order. */
  const Sections: seq<Section> := [Directions, By]

  function SectionTitle(section: Section): (title: LocalizedString)
    ensures title.Localized?
  {
    match section
    case Directions => Localized("transportation.section.directions")
    case By => Localized("transportation.section.by")
  }

  /** The two section headers differ. */
  lemma SectionTitlesDistinct()
    ensures SectionTitle(Directions) != SectionTitle(By)
  {
    assert SectionTitle(By).key[|"transportation.section."|] == 'b';
  }

  /** `Section.items`: the map apps first, then the ways of getting there. */
  function Items(section: Section): (items: seq<Item>)
    ensures items != []
    ensures forall i, j :: 0 <= i < j < |items| ==> items[i] != items[j]
  {
    match section
    case Directions => [AppleMaps, GoogleMaps]
    case By => [Bus, Shuttle, Train, Car, Plane, Taxi]
  }

  /** `numberOfSections(in:)`. */
  function NumberOfSections(): (n: nat)
    ensures n == 2
  {
    |Sections|
  }

  /** `tableView(_:numberOfRowsInSection:)`: the item count of the section. */
  function NumberOfRows(section: nat): (n: nat)
    requires section < |Sections|
    ensures n == |Items(Sections[section])|
    ensures n == if section == 0 then 2 else 6
  {
    |Items(Sections[section])|
  }

  /** `item(at:)`, for an index path the table view asks about. */
  function ItemAt(section: nat, row: nat): (item: Item)
    requires section < |Sections| && row < NumberOfRows(section)
    ensures item in Items(Sections[section])
  {
    Items(Sections[section])[row]
  }

  /** Where an item sits in the table. */
  function PositionOf(item: Item): (p: (nat, nat))
    ensures p.0 < |Sections| && p.1 < NumberOfRows(p.0)
    ensures ItemAt(p.0, p.1) == item
  {
    match item
    case AppleMaps => (0, 0)
    case GoogleMaps => (0, 1)
    case Bus => (1, 0)
    case Shuttle => (1, 1)
    case Train => (1, 2)
    case Car => (1, 3)
    case Plane => (1, 4)
    case Taxi => (1, 5)
  }

  /** Every item sits at exactly one index path. */
  lemma ExactlyOnePosition(item: Item, section: nat, row: nat)
    requires section < |Sections| && row < NumberOfRows(section)
    ensures ItemAt(section, row) == item <==> (section, row) == PositionOf(item)
  {
  }

  /** `Item.info`: the info page an item opens; the map apps open none. */
  function Info(item: Item): (info: Option<InfoStyling.Info>)
    ensures info.None? <==> item == AppleMaps || item == GoogleMaps
  {
    match item
    case Bus => Some(InfoStyling.Bus)
    case Car => Some(InfoStyling.Car)
    case Taxi => Some(InfoStyling.Taxi)
    case Plane => Some(InfoStyling.Plane)
    case Train => Some(InfoStyling.Train)
    case Shuttle => Some(InfoStyling.Shuttle)
    case AppleMaps => None
    case GoogleMaps => None
  }

  /** Distinct items open distinct pages, and their resource files differ too. */
  lemma InfoInjective(a: Item, b: Item)
    requires Info(a).Some? && Info(b).Some?
    ensures Info(a) == Info(b) <==> a == b
    ensures InfoStyling.Resource(Info(a).value) == InfoStyling.Resource(Info(b).value) <==> a == b
  {
    InfoStyling.ResourceInjective(Info(a).value, Info(b).value);
  }

  datatype AccessoryType = NoAccessory | DisclosureIndicator

  function Accessory(item: Item): (accessory: AccessoryType)
    ensures accessory == NoAccessory <==> item == AppleMaps || item == GoogleMaps
  {
    match item
    case Bus | Shuttle | Train | Car | Plane | Taxi => DisclosureIndicator
    case AppleMaps | GoogleMaps => NoAccessory
  }

  /** Rows that open a page carry the disclosure indicator, and only those. */
  lemma DisclosureIffInfo(item: Item)
    ensures Accessory(item) == DisclosureIndicator <==> Info(item).Some?
  {
  }

  /** `Item.title`: the localisation key of the row's text. */
  function Title(item: Item): (title: LocalizedString)
    ensures title.Localized?
  {
    match item
    case GoogleMaps => Localized("transportation.item.google")
    case AppleMaps => Localized("transportation.item.apple")
    case Shuttle => Localized("transportation.item.shuttle")
    case Train => Localized("transportation.item.train")
    case Plane => Localized("transportation.item.plane")
    case Taxi => Localized("transportation.item.taxi")
    case Car => Localized("transportation.item.car")
    case Bus => Localized("transportation.item.bus")
  }

  /** What `configure(with:)` puts in a cell. */
  datatype Cell = Cell(text: LocalizedString, accessibilityIdentifier: string, accessory: AccessoryType)

  function Configure(item: Item): (cell: Cell)
    ensures cell.accessibilityIdentifier == RawValue(item)
    ensures cell.accessory == DisclosureIndicator <==> Info(item).Some?
  {
    Cell(Title(item), RawValue(item), Accessory(item))
  }

  /** No two rows share an accessibility identifier or a title. */
  lemma CellsDistinct(a: Item, b: Item)
    ensures Configure(a).accessibilityIdentifier == Configure(b).accessibilityIdentifier <==> a == b
    ensures Configure(a).text == Configure(b).text <==> a == b
  {
    if a != b {
      RawValuesDiffer(a, b);
    }
  }

  lemma RawValuesDiffer(a: Item, b: Item)
    requires a != b
    ensures RawValue(a) != RawValue(b)
  {
    match a
    case AppleMaps => assert RawValue(a)[0] == 'a';
    case GoogleMaps => assert RawValue(a)[0] == 'g';
    case Bus => assert RawValue(a)[0] == 'b';
    case Shuttle => assert RawValue(a)[0] == 's';
    case Train => assert RawValue(a)[1] == 'r';
    case Car => assert RawValue(a)[0] == 'c';
    case Plane => assert RawValue(a)[0] == 'p';
    case Taxi => assert RawValue(a)[1] == 'a';
  }

  /** The delegate, reduced to the items it is told about. */
  class TransportationDelegate {
    var selectedItems: seq<Item>

    constructor ()
      ensures selectedItems == []
    {
      selectedItems := [];
    }

    method DidSelect(item: Item)
      modifies this`selectedItems
      ensures selectedItems == old(selectedItems) + [item]
    {
      selectedItems := selectedItems + [item];
    }
  }

  class TransportationViewController {
    var delegate: TransportationDelegate?

    constructor ()
      ensures delegate == null
    {
      delegate := null;
    }

    /** `tableView(_:didSelectRowAt:)`: tells the delegate, if any, which item the row holds. */
    method DidSelectRowAt(section: nat, row: nat)
      requires section < |Sections| && row < NumberOfRows(section)
      modifies delegate
      ensures delegate != null ==> delegate.selectedItems == old(delegate.selectedItems) + [ItemAt(section, row)]
    {
      if delegate != null {
        delegate.DidSelect(ItemAt(section, row));
      }
    }
  }
}
