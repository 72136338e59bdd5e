/**
 * The event detail view (Sources/Views/EventView.swift): a vertical stack
 * whose arranged rows are rebuilt from scratch every time its `event` is
 * set, and which forwards taps on the video button and on attachment rows
 * to its delegate.
 */
module EventViews {
  import opened Wrappers
  import opened Localization
  import Text
  import Events

  /** The arranged subviews, by kind and with the content they display. */
  datatype Row =
    | TitleLabel(text: string)
    | TrackLabel(text: string)
    | VideoButton(title: LocalizedString, accessibilityLabel: LocalizedString)
    | PeopleRow(image: string, metadata: Option<string>)
    | RoomRow(image: string, text: string, accessibilityLabel: LocalizedString)
    | DateRow(image: string, metadata: Option<string>)
    | SubtitleLabel(text: string)
    | AbstractLabel(text: string)
    | SummaryLabel(text: string)
    | AttachmentsHeader(title: LocalizedString)
    | AttachmentRow(attachment: Option<Events.Attachment>)

  /** The position of a row kind in the fixed layout; attachment rows share the last one. */
  function Rank(row: Row): nat
  {
    match row
    case TitleLabel(_) => 0
    case TrackLabel(_) => 1
    case VideoButton(_, _) => 2
    case PeopleRow(_, _) => 3
    case RoomRow(_, _, _) => 4
    case DateRow(_, _) => 5
    case SubtitleLabel(_) => 6
    case AbstractLabel(_) => 7
    case SummaryLabel(_) => 8
    case AttachmentsHeader(_) => 9
    case AttachmentRow(_) => 10
  }

  /** `event.attachments.filter(EventAttachmentView.canDisplay)`. */
  function Displayable(attachments: seq<Events.Attachment>, canDisplay: Events.Attachment -> bool): (r: seq<Events.Attachment>)
    ensures |r| <= |attachments|
    ensures forall a :: a in r <==> a in attachments && canDisplay(a)
  {
    if attachments == [] then []
    else (if canDisplay(attachments[0]) then [attachments[0]] else []) + Displayable(attachments[1..], canDisplay)
  }

  /** The filter works part by part, so it keeps the order and the multiplicity of the attachments. */
  lemma {:induction false} DisplayableConcat(a: seq<Events.Attachment>, b: seq<Events.Attachment>, canDisplay: Events.Attachment -> bool)
    ensures Displayable(a + b, canDisplay) == Displayable(a, canDisplay) + Displayable(b, canDisplay)
  {
    if a != [] {
      assert (a + b)[0] == a[0] && (a + b)[1..] == a[1..] + b;
      DisplayableConcat(a[1..], b, canDisplay);
    } else {
      assert a + b == b;
    }
  }

  /** A single attachment is kept exactly when it can be displayed. */
  lemma DisplayableSingle(x: Events.Attachment, canDisplay: Events.Attachment -> bool)
    ensures Displayable([x], canDisplay) == if canDisplay(x) then [x] else []
  {
  }

  function AttachmentRows(attachments: seq<Events.Attachment>): (rows: seq<Row>)
  {
    seq(|attachments|, i requires 0 <= i < |attachments| => AttachmentRow(Some(attachments[i])))
  }

  /** The `formattedDate` text, as `Events.FormattedDate` computes it. */
  function DateText(event: Events.Event, f: Events.Formatters): Option<string>
  {
    if Events.FormattedStart(event, f).None? && Events.FormattedWeekday(event, f).None? && Events.FormattedDuration(event, f).None?
    then None
    else Some(Text.Join(Events.DateItems(event, f), " "))
  }

  /** What the rows of an event show, each part computed as `didChangeEvent` computes it. */
  datatype Content = Content(
    title: string, track: string, hasVideo: bool, hasPeople: bool, people: Option<string>,
    room: string, date: Option<string>, subtitle: Option<string>, abstractText: Option<string>,
    summary: Option<string>, attachments: seq<Events.Attachment>)

  function ContentOf(event: Events.Event, f: Events.Formatters, html: string -> Option<string>,
                     canDisplay: Events.Attachment -> bool): Content
  {
    Content(event.title, event.track, Events.Video(event.links).Some?, event.people != [],
            Events.FormattedPeople(event), event.room, DateText(event, f), event.subtitle,
            Events.FormattedAbstract(event, html), Events.FormattedSummary(event),
            Displayable(event.attachments, canDisplay))
  }

  /** The rows the optional parts produce, slot by slot. */
  function Slot(present: bool, row: Row): Option<Row>
  {
    if present then Some(row) else None
  }

  /** The three labels added only when their text is present. */
  datatype TextKind = Subtitle | Abstract | Summary

  function TextSlot(text: Option<string>, kind: TextKind): Option<Row>
  {
    match text
    case None => None
    case Some(s) =>
      match kind
      case Subtitle => Some(SubtitleLabel(s))
      case Abstract => Some(AbstractLabel(s))
      case Summary => Some(SummaryLabel(s))
  }

  /** One slot per row kind above the attachments, in layout order; `None` where `didChangeEvent` adds nothing. */
  function DetailSlots(c: Content): (slots: seq<Option<Row>>)
    ensures |slots| == 9
  {
    MetadataSlots(c) + TextSlots(c)
  }

  function MetadataSlots(c: Content): seq<Option<Row>>
  {
    [Some(TitleLabel(c.title)),
     Some(TrackLabel(c.track)),
     Slot(c.hasVideo, VideoButton(Localized("event.video"), Localized("event.video.accessibility"))),
     Slot(c.hasPeople, PeopleRow("person.fill", c.people)),
     Some(RoomRow("mappin.circle.fill", c.room, LocalizedFormat("event.room", c.room))),
     Some(DateRow("clock.fill", c.date))]
  }

  function TextSlots(c: Content): seq<Option<Row>>
  {
    [TextSlot(c.subtitle, Subtitle),
     TextSlot(c.abstractText, Abstract),
     TextSlot(c.summary, Summary)]
  }

  /** The rows of the filled slots, in slot order. */
  function Filled(slots: seq<Option<Row>>): seq<Row>
  {
    if slots == [] then []
    else (if slots[0].Some? then [slots[0].value] else []) + Filled(slots[1..])
  }

  /** The rows above the attachments, in layout order. */
  function DetailRows(c: Content): seq<Row>
  {
    Filled(DetailSlots(c))
  }

  /** The attachments header, when there is something to list, and one row per attachment. */
  function AttachmentSection(attachments: seq<Events.Attachment>): seq<Row>
  {
    (if attachments == [] then [] else [AttachmentsHeader(Localized("event.attachments"))]) + AttachmentRows(attachments)
  }

  /** The rows `didChangeEvent` leaves behind for an event (none for nil). */
  function Rows(event: Option<Events.Event>, f: Events.Formatters, html: string -> Option<string>,
                canDisplay: Events.Attachment -> bool): (rows: seq<Row>)
    ensures event.None? <==> rows == []
  {
    match event
    case None => []
    case Some(e) =>
      var c := ContentOf(e, f, html, canDisplay);
      DetailRows(c) + AttachmentSection(c.attachments)
  }

  // ---------------------------------------------------------------------
  // properties of the layout

  /** Rows appear in layout order. */
  ghost predicate Ordered(rows: seq<Row>)
  {
    forall i, j :: 0 <= i < j < |rows| ==> Rank(rows[i]) <= Rank(rows[j])
  }

  lemma {:induction false} OrderedConcat(a: seq<Row>, b: seq<Row>)
    requires Ordered(a) && Ordered(b)
    requires forall x, y :: x in a && y in b ==> Rank(x) <= Rank(y)
    ensures Ordered(a + b)
  {
    forall i, j | 0 <= i < j < |a + b| ensures Rank((a + b)[i]) <= Rank((a + b)[j]) {
      if j < |a| {
        assert (a + b)[i] == a[i] && (a + b)[j] == a[j];
      } else if i >= |a| {
        assert (a + b)[i] == b[i - |a|] && (a + b)[j] == b[j - |a|];
      } else {
        assert (a + b)[i] in a && (a + b)[j] in b;
      }
    }
  }

  /** The number of rows of one kind. */
  function CountRank(rows: seq<Row>, k: nat): nat
  {
    if rows == [] then 0 else (if Rank(rows[0]) == k then 1 else 0) + CountRank(rows[1..], k)
  }

  lemma {:induction false} CountRankConcat(a: seq<Row>, b: seq<Row>, k: nat)
    ensures CountRank(a + b, k) == CountRank(a, k) + CountRank(b, k)
  {
    if a != [] {
      assert (a + b)[1..] == a[1..] + b;
      CountRankConcat(a[1..], b, k);
    } else {
      assert a + b == b;
    }
  }

  lemma {:induction false} CountRankAbsent(rows: seq<Row>, k: nat)
    requires forall x :: x in rows ==> Rank(x) != k
    ensures CountRank(rows, k) == 0
  {
    if rows != [] {
      assert rows[0] in rows;
      assert forall x :: x in rows[1..] ==> x in rows;
      CountRankAbsent(rows[1..], k);
    }
  }

  /** The attachments the attachment rows display, in row order. */
  function AttachmentsShown(rows: seq<Row>): seq<Option<Events.Attachment>>
  {
    if rows == [] then []
    else (if rows[0].AttachmentRow? then [rows[0].attachment] else []) + AttachmentsShown(rows[1..])
  }

  lemma {:induction false} AttachmentsShownConcat(a: seq<Row>, b: seq<Row>)
    ensures AttachmentsShown(a + b) == AttachmentsShown(a) + AttachmentsShown(b)
  {
    if a != [] {
      assert (a + b)[1..] == a[1..] + b;
      AttachmentsShownConcat(a[1..], b);
    } else {
      assert a + b == b;
    }
  }

  lemma {:induction false} AttachmentsShownNone(rows: seq<Row>)
    requires forall x :: x in rows ==> !x.AttachmentRow?
    ensures AttachmentsShown(rows) == []
  {
    if rows != [] {
      assert rows[0] in rows;
      assert forall x :: x in rows[1..] ==> x in rows;
      AttachmentsShownNone(rows[1..]);
    }
  }

  lemma {:induction false} AttachmentRowsShow(attachments: seq<Events.Attachment>)
    ensures AttachmentsShown(AttachmentRows(attachments)) == seq(|attachments|, i requires 0 <= i < |attachments| => Some(attachments[i]))
  {
    var rows := AttachmentRows(attachments);
    if attachments != [] {
      assert rows[1..] == AttachmentRows(attachments[1..]);
      AttachmentRowsShow(attachments[1..]);
    }
  }

  /**
   * The layout of a non-nil event: rows in the fixed order; exactly one
   * title, track, room and date row; a video button exactly when the event
   * has a video; a people row exactly when it has people; a subtitle label
   * exactly when it has a subtitle; a header exactly when an attachment can
   * be displayed; and one attachment row per displayable attachment, in
   * their original order.
   */
  lemma Layout(event: Events.Event, f: Events.Formatters, html: string -> Option<string>, canDisplay: Events.Attachment -> bool)
    ensures var rows := Rows(Some(event), f, html, canDisplay);
      && Ordered(rows)
      && CountRank(rows, 0) == 1 && CountRank(rows, 1) == 1
      && CountRank(rows, 2) == (if Events.Video(event.links).Some? then 1 else 0)
      && CountRank(rows, 3) == (if event.people != [] then 1 else 0)
      && CountRank(rows, 4) == 1 && CountRank(rows, 5) == 1
      && CountRank(rows, 6) == (if event.subtitle.Some? then 1 else 0)
      && CountRank(rows, 9) == (if exists a :: a in event.attachments && canDisplay(a) then 1 else 0)
      && AttachmentsShown(rows) == Shown(Displayable(event.attachments, canDisplay))
  {
    var c := ContentOf(event, f, html, canDisplay);
    ContentLayout(c);
    assert (exists a :: a in event.attachments && canDisplay(a)) <==> c.attachments != [] by {
      if c.attachments != [] { assert c.attachments[0] in c.attachments; }
    }
  }

  function Shown(attachments: seq<Events.Attachment>): seq<Option<Events.Attachment>>
  {
    seq(|attachments|, i requires 0 <= i < |attachments| => Some(attachments[i]))
  }

  function Present(b: bool): nat { if b then 1 else 0 }

  /** How many rows of kind `k` the layout of `c` has. */
  function ExpectedCount(c: Content, k: nat): nat
  {
    match k
    case 0 => 1
    case 1 => 1
    case 2 => Present(c.hasVideo)
    case 3 => Present(c.hasPeople)
    case 4 => 1
    case 5 => 1
    case 6 => Present(c.subtitle.Some?)
    case 7 => Present(c.abstractText.Some?)
    case 8 => Present(c.summary.Some?)
    case 9 => Present(c.attachments != [])
    case _ => 0
  }

  lemma ContentLayout(c: Content)
    ensures Ordered(DetailRows(c) + AttachmentSection(c.attachments))
    ensures forall k: nat :: k <= 9 ==> CountRank(DetailRows(c) + AttachmentSection(c.attachments), k) == ExpectedCount(c, k)
    ensures AttachmentsShown(DetailRows(c) + AttachmentSection(c.attachments)) == Shown(c.attachments)
  {
    var detail := DetailRows(c);
    var section := AttachmentSection(c.attachments);
    DetailOrdered(c);
    SectionOrdered(c.attachments);
    OrderedConcat(detail, section);
    forall k: nat | k <= 9 ensures CountRank(detail + section, k) == ExpectedCount(c, k) {
      ContentCount(c, k);
    }
    AttachmentsShownConcat(detail, section);
    AttachmentsShownNone(detail);
    SectionShows(c.attachments);
  }

  lemma ContentCount(c: Content, k: nat)
    requires k <= 9
    ensures CountRank(DetailRows(c) + AttachmentSection(c.attachments), k) == ExpectedCount(c, k)
  {
    CountRankConcat(DetailRows(c), AttachmentSection(c.attachments), k);
    SectionCount(c.attachments, k);
    DetailCount(c, k);
  }

  /** Slots whose row kinds follow the slot order, starting from kind `base`. */
  ghost predicate RankedFrom(slots: seq<Option<Row>>, base: nat)
  {
    forall i :: 0 <= i < |slots| && slots[i].Some? ==> Rank(slots[i].value) == base + i
  }

  lemma RankedTail(slots: seq<Option<Row>>, base: nat)
    requires slots != [] && RankedFrom(slots, base)
    ensures RankedFrom(slots[1..], base + 1)
  {
    forall i | 0 <= i < |slots| - 1 && slots[1..][i].Some? ensures Rank(slots[1..][i].value) == base + 1 + i {
      assert slots[1..][i] == slots[i + 1];
    }
  }

  /** Filled slots give rows in layout order, of kinds within the slots' range. */
  lemma {:induction false} FilledOrdered(slots: seq<Option<Row>>, base: nat)
    requires RankedFrom(slots, base)
    ensures Ordered(Filled(slots))
    ensures forall x :: x in Filled(slots) ==> base <= Rank(x) < base + |slots|
  {
    if slots != [] {
      var head := if slots[0].Some? then [slots[0].value] else [];
      RankedTail(slots, base);
      FilledOrdered(slots[1..], base + 1);
      OrderedConcat(head, Filled(slots[1..]));
    }
  }

  /** Filled slots give exactly one row per filled slot. */
  lemma {:induction false} FilledCount(slots: seq<Option<Row>>, base: nat, k: nat)
    requires RankedFrom(slots, base)
    ensures CountRank(Filled(slots), k) == if base <= k < base + |slots| && slots[k - base].Some? then 1 else 0
  {
    if slots != [] {
      var head := if slots[0].Some? then [slots[0].value] else [];
      var rest := slots[1..];
      RankedTail(slots, base);
      FilledCount(rest, base + 1, k);
      CountRankConcat(head, Filled(rest), k);
      if head != [] { assert head[1..] == []; }
      if base + 1 <= k < base + |slots| { assert rest[k - (base + 1)] == slots[k - base]; }
    }
  }

  lemma DetailOrdered(c: Content)
    ensures Ordered(DetailRows(c))
    ensures forall x :: x in DetailRows(c) ==> Rank(x) <= 8
  {
    DetailSlotsRanked(c);
    FilledOrdered(DetailSlots(c), 0);
  }

  lemma DetailSlotsRanked(c: Content)
    ensures RankedFrom(DetailSlots(c), 0)
  {
  }

  lemma SectionOrdered(attachments: seq<Events.Attachment>)
    ensures Ordered(AttachmentSection(attachments))
    ensures forall x :: x in AttachmentSection(attachments) ==> 9 <= Rank(x)
  {
  }

  lemma {:induction false} SectionCount(attachments: seq<Events.Attachment>, k: nat)
    requires k <= 9
    ensures CountRank(AttachmentSection(attachments), k) == (if k == 9 then Present(attachments != []) else 0)
  {
    var header := if attachments == [] then [] else [AttachmentsHeader(Localized("event.attachments"))];
    var tail := AttachmentRows(attachments);
    CountRankConcat(header, tail, k);
    CountRankAbsent(tail, k);
    if header != [] {
      assert header[1..] == [];
    }
  }

  lemma SectionShows(attachments: seq<Events.Attachment>)
    ensures AttachmentsShown(AttachmentSection(attachments)) == Shown(attachments)
  {
    var header := if attachments == [] then [] else [AttachmentsHeader(Localized("event.attachments"))];
    AttachmentsShownConcat(header, AttachmentRows(attachments));
    AttachmentsShownNone(header);
    AttachmentRowsShow(attachments);
  }

  lemma DetailCount(c: Content, k: nat)
    ensures CountRank(DetailRows(c), k) == if k <= 8 then ExpectedCount(c, k) else 0
  {
    DetailSlotsRanked(c);
    FilledCount(DetailSlots(c), 0, k);
  }

  // ---------------------------------------------------------------------
  // the view

  lemma {:induction false} FilledConcat(a: seq<Option<Row>>, b: seq<Option<Row>>)
    ensures Filled(a + b) == Filled(a) + Filled(b)
  {
    if a == [] {
      assert a + b == b;
    } else {
      assert (a + b)[1..] == a[1..] + b;
      FilledConcat(a[1..], b);
    }
  }

  /** The detail rows of an event, given the `formattedDate` text. */
  lemma DetailRowsOf(e: Events.Event, f: Events.Formatters, html: string -> Option<string>,
                     canDisplay: Events.Attachment -> bool, date: Option<string>)
    requires date.None? <==> Events.FormattedStart(e, f).None? && Events.FormattedWeekday(e, f).None? && Events.FormattedDuration(e, f).None?
    requires date.Some? ==> date.value == Text.Join(Events.DateItems(e, f), " ")
    ensures DetailRows(ContentOf(e, f, html, canDisplay)) ==
      Filled(MetadataSlots(Content(e.title, e.track, Events.Video(e.links).Some?, e.people != [], Events.FormattedPeople(e), e.room, date, None, None, None, [])))
      + Filled([TextSlot(e.subtitle, Subtitle), TextSlot(Events.FormattedAbstract(e, html), Abstract), TextSlot(Events.FormattedSummary(e), Summary)])
  {
    var c := ContentOf(e, f, html, canDisplay);
    assert date == c.date;
    DetailRowsSplit(c);
  }

  /** The detail rows are the metadata rows followed by the text labels, each depending only on its own fields. */
  lemma DetailRowsSplit(c: Content)
    ensures DetailRows(c) ==
      Filled(MetadataSlots(Content(c.title, c.track, c.hasVideo, c.hasPeople, c.people, c.room, c.date, None, None, None, [])))
      + Filled([TextSlot(c.subtitle, Subtitle), TextSlot(c.abstractText, Abstract), TextSlot(c.summary, Summary)])
  {
    FilledConcat(MetadataSlots(c), TextSlots(c));
  }

  lemma {:induction false} FilledAppend(slots: seq<Option<Row>>, slot: Option<Row>)
    ensures Filled(slots + [slot]) == Filled(slots) + (if slot.Some? then [slot.value] else [])
  {
    if slots == [] {
      assert ([] + [slot])[1..] == [];
    } else {
      assert (slots + [slot])[1..] == slots[1..] + [slot];
      FilledAppend(slots[1..], slot);
    }
  }

  /** The position of the first occurrence of `row` in `rows`. */
  function FirstIndex(rows: seq<Row>, row: Row): (i: nat)
    requires row in rows
    ensures i < |rows| && rows[i] == row && row !in rows[..i]
  {
    if rows[0] == row then 0
    else
      var k := FirstIndex(rows[1..], row);
      assert rows[..k + 1] == [rows[0]] + rows[1..][..k];
      k + 1
  }

  /** The first occurrence of `row` taken out of `rows` (`removeArrangedSubview`). */
  function Without(rows: seq<Row>, row: Row): (r: seq<Row>)
    ensures row in rows ==> |r| == |rows| - 1
    ensures row !in rows ==> r == rows
    ensures forall x :: x in r ==> x in rows
    ensures row in rows ==> r == rows[..FirstIndex(rows, row)] + rows[FirstIndex(rows, row) + 1..]
  {
    if rows == [] then []
    else if rows[0] == row then rows[1..]
    else
      var rest := Without(rows[1..], row);
      if row !in rows[1..] then [rows[0]] + rest
      else
        var k := FirstIndex(rows[1..], row);
        assert rows[..k + 1] == [rows[0]] + rows[1..][..k];
        assert rows[k + 2..] == rows[1..][k + 1..];
        [rows[0]] + rest
  }

  /** The delegate, reduced to the calls it receives. */
  class EventViewDelegate {
    var videoTaps: nat
    var selectedAttachments: seq<Events.Attachment>

    constructor ()
      ensures videoTaps == 0 && selectedAttachments == []
    {
      videoTaps, selectedAttachments := 0, [];
    }

    /** `eventViewDidTapVideo(_:)`. */
    method DidTapVideo()
      modifies this`videoTaps
      ensures videoTaps == old(videoTaps) + 1
    {
      videoTaps := videoTaps + 1;
    }

    /** `eventView(_:didSelect:)`. */
    method DidSelect(attachment: Events.Attachment)
      modifies this`selectedAttachments
      ensures selectedAttachments == old(selectedAttachments) + [attachment]
    {
      selectedAttachments := selectedAttachments + [attachment];
    }
  }

  /** `EventView`: its event, its arranged rows and its weak delegate. */
  class EventView {
    var delegate: EventViewDelegate?
    var event: Option<Events.Event>
    var rows: seq<Row>

    constructor ()
      ensures delegate == null && event == None && rows == []
    {
      delegate, event, rows := null, None, [];
    }

    method AddArrangedSubview(row: Row)
      modifies this`rows
      ensures rows == old(rows) + [row]
    {
      rows := rows + [row];
    }

    method RemoveArrangedSubview(row: Row)
      modifies this`rows
      ensures rows == Without(old(rows), row)
    {
      rows := Without(rows, row);
    }

    /**
     * Setting `event`: its `didSet` rebuilds the rows, so whatever rows were
     * there before, the view ends with exactly the rows of the new event.
     */
    method SetEvent(newEvent: Option<Events.Event>, f: Events.Formatters, html: string -> Option<string>,
                    canDisplay: Events.Attachment -> bool)
      modifies this`event, this`rows
      ensures event == newEvent
      ensures rows == Rows(newEvent, f, html, canDisplay)
    {
      event := newEvent;
      DidChangeEvent(f, html, canDisplay);
    }

    /** `didChangeEvent`: removes every arranged row, then adds the rows of the event in layout order. */
    method DidChangeEvent(f: Events.Formatters, html: string -> Option<string>, canDisplay: Events.Attachment -> bool)
      modifies this`rows
      ensures rows == Rows(event, f, html, canDisplay)
    {
      RemoveAll();
      if event.None? {
        return;
      }
      var e := event.value;
      AddDetailRows(e, f, html, canDisplay);
      var attachments := Displayable(e.attachments, canDisplay);
      AddAttachmentRows(attachments);
    }

    /** The loop over `arrangedSubviews`, removing each one. */
    method RemoveAll()
      modifies this`rows
      ensures rows == []
    {
      var subviews := rows;
      for i := 0 to |subviews|
        invariant rows == subviews[i..]
      {
        RemoveArrangedSubview(subviews[i]);
        assert subviews[i..][1..] == subviews[i + 1..];
      }
    }

    /** The rows from the title down to the summary. */
    method AddDetailRows(e: Events.Event, f: Events.Formatters, html: string -> Option<string>, ghost canDisplay: Events.Attachment -> bool)
      modifies this`rows
      ensures rows == old(rows) + DetailRows(ContentOf(e, f, html, canDisplay))
    {
      var date := Events.FormattedDate(e, f);
      var hasVideo := Events.Video(e.links).Some?;
      var people := Events.FormattedPeople(e);
      var abstractText := Events.FormattedAbstract(e, html);
      var summary := Events.FormattedSummary(e);
      DetailRowsOf(e, f, html, canDisplay, date);
      AddMetadataRows(e.title, e.track, hasVideo, e.people != [], people, e.room, date);
      AddTextRows(e.subtitle, abstractText, summary);
    }

    /** The title, track, video, people, room and date rows, the video and people rows only when `hasVideo` and `hasPeople`. */
    method AddMetadataRows(title: string, track: string, hasVideo: bool, hasPeople: bool, people: Option<string>,
                           room: string, date: Option<string>)
      modifies this`rows
      ensures rows == old(rows) + Filled(MetadataSlots(Content(title, track, hasVideo, hasPeople, people, room, date, None, None, None, [])))
    {
      ghost var before := rows;
      ghost var slots := MetadataSlots(Content(title, track, hasVideo, hasPeople, people, room, date, None, None, None, []));
      assert rows == before + Filled(slots[..0]);
      AddArrangedSubview(TitleLabel(title));
      Filling(before, slots, 0);
      AddArrangedSubview(TrackLabel(track));
      Filling(before, slots, 1);
      if hasVideo {
        AddArrangedSubview(VideoButton(Localized("event.video"), Localized("event.video.accessibility")));
      }
      Filling(before, slots, 2);
      if hasPeople {
        AddArrangedSubview(PeopleRow("person.fill", people));
      }
      Filling(before, slots, 3);
      AddArrangedSubview(RoomRow("mappin.circle.fill", room, LocalizedFormat("event.room", room)));
      Filling(before, slots, 4);
      AddArrangedSubview(DateRow("clock.fill", date));
      Filling(before, slots, 5);
      assert slots[..6] == slots;
    }

    /** The subtitle, abstract and summary labels, each only when its text is present. */
    method AddTextRows(subtitle: Option<string>, abstractText: Option<string>, summary: Option<string>)
      modifies this`rows
      ensures rows == old(rows) + Filled([TextSlot(subtitle, Subtitle), TextSlot(abstractText, Abstract), TextSlot(summary, Summary)])
    {
      ghost var before := rows;
      ghost var slots := [TextSlot(subtitle, Subtitle), TextSlot(abstractText, Abstract), TextSlot(summary, Summary)];
      assert rows == before + Filled(slots[..0]);
      if subtitle.Some? {
        AddArrangedSubview(SubtitleLabel(subtitle.value));
      }
      Filling(before, slots, 0);
      if abstractText.Some? {
        AddArrangedSubview(AbstractLabel(abstractText.value));
      }
      Filling(before, slots, 1);
      if summary.Some? {
        AddArrangedSubview(SummaryLabel(summary.value));
      }
      Filling(before, slots, 2);
      assert slots[..3] == slots;
    }

    /** Records that the rows added so far are those of the first `k + 1` slots. */
    ghost method Filling(before: seq<Row>, slots: seq<Option<Row>>, k: nat)
      requires k < |slots|
      requires rows == before + Filled(slots[..k]) + (if slots[k].Some? then [slots[k].value] else [])
      ensures rows == before + Filled(slots[..k + 1])
    {
      assert slots[..k + 1] == slots[..k] + [slots[k]];
      FilledAppend(slots[..k], slots[k]);
    }

    /** The attachments header, when there is an attachment to show, and the loop adding one row per attachment. */
    method AddAttachmentRows(attachments: seq<Events.Attachment>)
      modifies this`rows
      ensures rows == old(rows) + AttachmentSection(attachments)
    {
      if attachments != [] {
        AddArrangedSubview(AttachmentsHeader(Localized("event.attachments")));
      }
      ghost var header := rows;
      for i := 0 to |attachments|
        invariant rows == header + AttachmentRows(attachments[..i])
      {
        AddArrangedSubview(AttachmentRow(Some(attachments[i])));
        assert AttachmentRows(attachments[..i + 1]) == AttachmentRows(attachments[..i]) + [AttachmentRow(Some(attachments[i]))];
      }
      assert attachments[..|attachments|] == attachments;
    }

    /** `didTapVideo`: tells the delegate, if there still is one. */
    method DidTapVideo()
      modifies delegate
      ensures delegate != null ==> delegate.videoTaps == old(delegate.videoTaps) + 1
    {
      if delegate != null {
        delegate.DidTapVideo();
      }
    }

    /** `didTapAttachment(_:)`: forwards the tapped row's attachment, only when it has one. */
    method DidTapAttachment(attachment: Option<Events.Attachment>)
      modifies delegate
      ensures delegate != null ==>
                delegate.selectedAttachments == old(delegate.selectedAttachments) + (if attachment.Some? then [attachment.value] else [])
    {
      if attachment.Some? && delegate != null {
        delegate.DidSelect(attachment.value);
      }
    }
  }
}
