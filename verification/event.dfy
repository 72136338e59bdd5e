/**
 * The schedule's `Event` record and the logic the app derives from it:
 * the video link, whether the event is live, weekday comparison, the
 * display strings built from formatter outputs, and identity by `id`.
 *
 * Foundation's formatters, the calendar and the localised format strings
 * are not modelled; they enter as the functions held in `Formatters`.
 */
module Events {
  import opened Wrappers
  import Text

  /** A calendar duration or time of day (`DateComponents`), kept opaque. */
  datatype Components = Components(hour: int, minute: int)

  /** A link of the event; `pathExtension` is `url?.pathExtension`, nil when the link has no URL. */
  datatype Link = Link(name: string, pathExtension: Option<string>)

  datatype Person = Person(name: string)

  datatype Attachment = Attachment(name: string, mimeType: string)

  /** An event of the schedule; `date` is its start instant in seconds. */
  datatype Event = Event(
    id: int,
    room: string,
    track: string,
    title: string,
    summary: Option<string>,
    subtitle: Option<string>,
    abstractText: Option<string>,  // `abstract`, a reserved word in Dafny
    date: int,
    start: Components,
    duration: Components,
    links: seq<Link>,
    people: seq<Person>,
    attachments: seq<Attachment>
  )

  /**
   * The opaque collaborators of the display strings: the time formatter,
   * the weekday formatter, the duration formatter and the two localised
   * formats `"search.event.start"` (start, weekday) and `"event.weekday"`.
   */
  datatype Formatters = Formatters(
    time: Components -> Option<string>,
    weekday: int -> Option<string>,
    duration: Components -> Option<string>,
    startWithWeekdayFormat: (string, string) -> string,
    weekdayFormat: string -> string
  )

  /** `Date.distantPast`, in seconds relative to the reference date. */
  const DistantPast: int := -63114076800

  // ---------------------------------------------------------------------
  // video

  predicate IsVideoLink(link: Link)
  {
    link.pathExtension == Some("mp4")
  }

  /** `links.first { $0.url?.pathExtension == "mp4" }`. */
  function Video(links: seq<Link>): (r: Option<Link>)
    ensures r.None? <==> forall i :: 0 <= i < |links| ==> !IsVideoLink(links[i])
    ensures r.Some? ==> exists i :: 0 <= i < |links| && links[i] == r.value && IsVideoLink(r.value)
                                   && forall j :: 0 <= j < i ==> !IsVideoLink(links[j])
  {
    if links == [] then None
    else if IsVideoLink(links[0]) then Some(links[0])
    else
      var r := Video(links[1..]);
      assert r.Some? ==> exists i :: 0 <= i < |links| && links[i] == r.value && IsVideoLink(r.value)
                                   && forall j :: 0 <= j < i ==> !IsVideoLink(links[j]) by {
        if r.Some? {
          var i :| 0 <= i < |links| - 1 && links[1..][i] == r.value && IsVideoLink(r.value)
                   && forall j :: 0 <= j < i ==> !IsVideoLink(links[1..][j]);
          assert links[i + 1] == r.value;
          assert forall j :: 0 <= j < i + 1 ==> !IsVideoLink(links[j]) by {
            forall j | 0 <= j < i + 1 ensures !IsVideoLink(links[j]) {
              if j > 0 { assert links[j] == links[1..][j - 1]; }
            }
          }
        }
      }
      assert r.None? ==> forall i :: 0 <= i < |links| ==> !IsVideoLink(links[i]) by {
        if r.None? {
          forall i | 0 <= i < |links| ensures !IsVideoLink(links[i]) {
            if i > 0 { assert links[i] == links[1..][i - 1]; }
          }
        }
      }
      r
  }

  // ---------------------------------------------------------------------
  // isLive(at:) and isSameWeekday(as:)

  /**
   * Whether the event is running at `timestamp`. `end` is the calendar's
   * `date(byAdding: duration, to: date)`, nil when that addition fails.
   */
  function IsLive(event: Event, timestamp: int, end: Option<int>): (live: bool)
    ensures live ==> event.date < timestamp
    ensures live ==> end.Some? ==> timestamp < end.value
  {
    var upperbound := if end.Some? then end.value else DistantPast;
    event.date < timestamp && timestamp < upperbound
  }

  /** Both bounds are strict: the event is live exactly inside the open interval. */
  lemma IsLiveOpenInterval(event: Event, timestamp: int, end: int)
    ensures IsLive(event, timestamp, Some(end)) <==> event.date < timestamp < end
    ensures !IsLive(event, event.date, Some(end)) && !IsLive(event, end, Some(end))
  {
  }

  /** When the end cannot be computed the upper bound is the distant past, so no instant is live. */
  lemma NotLiveWithoutEnd(event: Event, timestamp: int)
    requires event.date >= DistantPast
    ensures !IsLive(event, timestamp, None)
  {
  }

  /** The weekday component of both dates, taken from the same calendar, agree. */
  predicate IsSameWeekday(event: Event, other: Event, weekdayOf: int -> int)
  {
    weekdayOf(event.date) == weekdayOf(other.date)
  }

  lemma SameWeekdayIsEquivalence(a: Event, b: Event, c: Event, weekdayOf: int -> int)
    ensures IsSameWeekday(a, a, weekdayOf)
    ensures IsSameWeekday(a, b, weekdayOf) <==> IsSameWeekday(b, a, weekdayOf)
    ensures IsSameWeekday(a, b, weekdayOf) && IsSameWeekday(b, c, weekdayOf) ==> IsSameWeekday(a, c, weekdayOf)
  {
  }

  // ---------------------------------------------------------------------
  // display strings

  function FormattedStart(event: Event, f: Formatters): Option<string>
  {
    f.time(event.start)
  }

  function FormattedWeekday(event: Event, f: Formatters): Option<string>
  {
    f.weekday(event.date)
  }

  function FormattedDuration(event: Event, f: Formatters): Option<string>
  {
    f.duration(event.duration)
  }

  /** Each formatted part depends only on its own field: `start`, `date` and `duration`. */
  lemma FormattedPartsOfFields(a: Event, b: Event, f: Formatters)
    ensures a.start == b.start ==> FormattedStart(a, f) == FormattedStart(b, f)
    ensures a.date == b.date ==> FormattedWeekday(a, f) == FormattedWeekday(b, f)
    ensures a.duration == b.duration ==> FormattedDuration(a, f) == FormattedDuration(b, f)
  {
  }

  /** The start time, followed by the weekday when there is one. */
  function FormattedStartWithWeekday(event: Event, f: Formatters): (r: Option<string>)
    ensures r.None? <==> FormattedStart(event, f).None?
    ensures FormattedWeekday(event, f).None? ==> r == FormattedStart(event, f)
    ensures FormattedStart(event, f).Some? && FormattedWeekday(event, f).Some? ==>
              r == Some(f.startWithWeekdayFormat(FormattedStart(event, f).value, FormattedWeekday(event, f).value))
  {
    match (FormattedStart(event, f), FormattedWeekday(event, f))
    case (None, _) => None
    case (Some(start), None) => Some(start)
    case (Some(start), Some(weekday)) => Some(f.startWithWeekdayFormat(start, weekday))
  }

  /** The summary with its line breaks doubled into paragraph breaks. */
  function FormattedSummary(event: Event): (r: Option<string>)
    ensures r.None? <==> event.summary.None?
    ensures r.Some? ==> Text.CollapseNewlines(r.value) == event.summary.value
    ensures r.Some? ==> |r.value| == |event.summary.value| + Text.Count('\n', event.summary.value)
  {
    match event.summary
    case None => None
    case Some(summary) =>
      Text.CollapseDouble(summary);
      Text.DoubleNewlinesCounts(summary);
      Some(Text.DoubleNewlines(summary))
  }

  /**
   * The abstract as plain text: `html` stands for the HTML-to-text
   * conversion (nil when it fails); the text is trimmed and its line
   * breaks doubled.
   */
  function FormattedAbstract(event: Event, html: string -> Option<string>): (r: Option<string>)
    ensures r.None? <==> event.abstractText.None? || html(event.abstractText.value).None?
    ensures r.Some? ==> Text.CollapseNewlines(r.value) == Text.Trim(html(event.abstractText.value).value)
    ensures r.Some? ==>
      |r.value| == |Text.Trim(html(event.abstractText.value).value)| + Text.Count('\n', Text.Trim(html(event.abstractText.value).value))
  {
    match event.abstractText
    case None => None
    case Some(text) =>
      match html(text)
      case None => None
      case Some(plain) =>
        var trimmed := Text.Trim(plain);
        Text.CollapseDouble(trimmed);
        Text.DoubleNewlinesCounts(trimmed);
        Some(Text.DoubleNewlines(trimmed))
  }

  function Names(people: seq<Person>): (names: seq<string>)
    ensures |names| == |people|
    ensures forall i :: 0 <= i < |people| ==> names[i] == people[i].name
  {
    seq(|people|, i requires 0 <= i < |people| => people[i].name)
  }

  /** The names of the people, in order, separated by `", "`; never nil. */
  function FormattedPeople(event: Event): (r: Option<string>)
    ensures r.Some?
    ensures event.people == [] ==> r.value == ""
    ensures event.people != [] ==>
              |r.value| == Text.TotalLength(Names(event.people)) + 2 * (|event.people| - 1)
  {
    var names := Names(event.people);
    if names == [] then Some(Text.Join(names, ", "))
    else
      Text.JoinLength(names, ", ");
      Some(Text.Join(names, ", "))
  }

  /** One person: the text is that person's name. */
  lemma FormattedPeopleSingle(event: Event, person: Person)
    requires event.people == [person]
    ensures FormattedPeople(event).value == person.name
  {
  }

  /** One more person: the text so far, a comma and a space, then the new name, so names keep their order. */
  lemma FormattedPeopleSnoc(event: Event, people: seq<Person>, person: Person)
    requires people != [] && event.people == people + [person]
    ensures FormattedPeople(event).value == FormattedPeople(event.(people := people)).value + ", " + person.name
  {
    assert Names(people + [person]) == Names(people) + [person.name];
    Text.JoinSnoc(Names(people), person.name, ", ");
  }

  /** The parts of `formattedDate` in the order they are appended: start, weekday, duration. */
  function DateItems(event: Event, f: Formatters): seq<string>
  {
    (if FormattedStart(event, f).Some? then [FormattedStart(event, f).value] else [])
    + (if FormattedWeekday(event, f).Some? then [f.weekdayFormat(FormattedWeekday(event, f).value)] else [])
    + (if FormattedDuration(event, f).Some? then ["(" + FormattedDuration(event, f).value + " minutes)"] else [])
  }

  /**
   * `formattedDate`: appends the available parts to a local list and joins
   * them with single spaces; nil when no part is available.
   */
  method FormattedDate(event: Event, f: Formatters) returns (r: Option<string>)
    ensures r.None? <==> FormattedStart(event, f).None? && FormattedWeekday(event, f).None? && FormattedDuration(event, f).None?
    ensures r.Some? ==> r.value == Text.Join(DateItems(event, f), " ")
  {
    var items: seq<string> := [];
    var start := FormattedStart(event, f);
    if start.Some? {
      items := items + [start.value];
    }
    var weekday := FormattedWeekday(event, f);
    if weekday.Some? {
      var text := f.weekdayFormat(weekday.value);
      items := items + [text];
    }
    var duration := FormattedDuration(event, f);
    if duration.Some? {
      items := items + ["(" + duration.value + " minutes)"];
    }
    assert items == DateItems(event, f);
    if items == [] {
      r := None;
    } else {
      r := Some(Text.Join(items, " "));
    }
  }

  /** With all three parts available the date reads "start weekday (duration minutes)". */
  lemma FormattedDateAllParts(event: Event, f: Formatters, start: string, weekday: string, duration: string)
    requires FormattedStart(event, f) == Some(start)
    requires FormattedWeekday(event, f) == Some(weekday)
    requires FormattedDuration(event, f) == Some(duration)
    ensures Text.Join(DateItems(event, f), " ") == start + " " + f.weekdayFormat(weekday) + " " + "(" + duration + " minutes)"
  {
    var items := DateItems(event, f);
    assert items == [start, f.weekdayFormat(weekday), "(" + duration + " minutes)"];
    assert items[1..] == [f.weekdayFormat(weekday), "(" + duration + " minutes)"];
    assert items[1..][1..] == ["(" + duration + " minutes)"];
    assert Text.Join(items[1..], " ") == f.weekdayFormat(weekday) + " " + "(" + duration + " minutes)";
  }

  /** With only the duration available the date is the parenthesised duration alone. */
  lemma FormattedDateOnlyDuration(event: Event, f: Formatters, duration: string)
    requires FormattedStart(event, f).None? && FormattedWeekday(event, f).None?
    requires FormattedDuration(event, f) == Some(duration)
    ensures Text.Join(DateItems(event, f), " ") == "(" + duration + " minutes)"
  {
    assert DateItems(event, f) == ["(" + duration + " minutes)"];
  }

  // ---------------------------------------------------------------------
  // Equatable and Hashable

  /** `==` on events: identity is the `id` alone. */
  predicate Equal(a: Event, b: Event)
  {
    a.id == b.id
  }

  /** `hash(into:)` feeds only the `id` to the hasher, modelled as a function of it. */
  function Hash(event: Event, hasher: int -> int): int
  {
    hasher(event.id)
  }

  /** Equality is an equivalence decided by `id`, and equal events hash alike under any hasher. */
  lemma EqualityIsIdentity(a: Event, b: Event, c: Event, hasher: int -> int)
    ensures Equal(a, b) <==> a.id == b.id
    ensures Equal(a, a)
    ensures Equal(a, b) ==> Equal(b, a)
    ensures Equal(a, b) && Equal(b, c) ==> Equal(a, c)
    ensures Equal(a, b) ==> Hash(a, hasher) == Hash(b, hasher)
  {
  }
}
