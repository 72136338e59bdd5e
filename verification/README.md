# FOSDEM app core, modelled in Dafny

This project models the data decisions of the FOSDEM iOS app. It covers:

- the `Event` record and the display strings derived from it;
- the tracks screen, which loads the tracks, groups them per conference day, sorts them by name and keeps the favourite tracks;
- the event search, whose outcome selects one of three configurations of the results list;
- the event detail view, a vertical stack of rows laid out in a fixed order;
- the recent-videos pager, with a "watching" page and a "watched" page under a segmented control;
- the info pages, which restyle the decoded HTML: bold text without a link gets the bold body font and links keep the body font;
- the transportation menu and the "More" tab tables;
- the `secondsValue` helper of the UI tests, which reads "m:ss" labels.

Each Swift file of the core becomes one Dafny module:

| module | file | form |
|---|---|---|
| `Events` | Sources/Models/Event.swift | functions; `FormattedDate` is a method that appends parts to a local list |
| `TracksControl` | Sources/Controllers/TracksController.swift | class `TracksController` with loops and invariants; the load proved against `DayBuckets` |
| `EventsSearch` | Sources/ViewControllers/EventsSearchController.swift | configuration functions; classes for the controller and its results list |
| `EventViews` | Sources/Views/EventView.swift | class `EventView` whose `rows` field is proved equal to the layout function `Rows` |
| `Videos` | Sources/Controllers/VideosController.swift | paging functions; class `VideosController` |
| `InfoStyling` | Sources/Services/InfoService.swift | class `AttributedText` whose restyling loops are proved against `StyledFont` |
| `Transportation` | Sources/ViewControllers/TransportationViewController.swift | table functions and lemmas |
| `MoreItems`, `MoreSections` | Sources/Models/MoreItem.swift, Sources/Models/MoreSection.swift | table functions and lemmas |
| `SecondsParsing` | UITests/EventControllerTests.swift | filter, split and parse as functions |
| `Text` | (shared) | the string operations the app takes from Foundation: join, split, newline doubling, trimming and string order |

Shared modules:

- `Wrappers` defines `Option` and `Result`.
- `Store` defines the value a persistence read delivers.
- `Localization` represents a localised string by its key.

Completions run synchronously. The outcome of each persistence read is a parameter of the method that models its completion. Each issued read is recorded in a `seq` field.

Some collaborators are not part of this model and enter as parameters:

- the formatters and localised format strings (`Events.Formatters`);
- the HTML-to-text conversion;
- `EventAttachmentView.canDisplay`;
- the bundle lookup and the HTML reader of the info service;
- the calendar's weekday and end-of-event computations.

## Model

| member | source | states |
|---|---|---|
| Text.JoinLength | Sources/Models/Event.swift:76-78 | the joined string has every character of the parts plus one separator per gap |
| Text.Split | UITests/EventControllerTests.swift:127 | `components(separatedBy:)` yields one component more than there are separators, and no component holds a separator |
| Text.JoinSplit | UITests/EventControllerTests.swift:127 | joining the components with the separator gives back the string |
| Text.SplitJoin | UITests/EventControllerTests.swift:127 | splitting a join of separator-free parts gives back the parts |
| Text.CollapseDouble | Sources/Models/Event.swift:72-74 | replacing each newline by two loses nothing: collapsing the pairs recovers the text |
| Text.DoubleNewlinesCounts | Sources/Models/Event.swift:72-74 | the replacement adds one character per newline and doubles the newline count |
| Text.Trim | Sources/Models/Event.swift:67 | the trimmed text is a slice of the input with only white space cut from either end; it neither starts nor ends with white space, and is empty exactly when the input is all white space |
| Text.LessIrreflexive | Sources/Controllers/TracksController.swift:194-197 | no name sorts before itself |
| Text.LessTransitive | Sources/Controllers/TracksController.swift:194-197 | string order on names is transitive |
| Text.LessTotal | Sources/Controllers/TracksController.swift:194-197 | two names that do not sort either way are equal |
| Events.Video | Sources/Models/Event.swift:23-25 | the video is the first link with path extension "mp4", and is nil exactly when there is no such link |
| Events.IsLive | Sources/Models/Event.swift:27-32 | a live event has started strictly before the instant and ends strictly after it |
| Events.IsLiveOpenInterval | Sources/Models/Event.swift:27-32 | live exactly inside the open interval from start to end, never at either bound |
| Events.NotLiveWithoutEnd | Sources/Models/Event.swift:30-31 | when the end date cannot be computed the bound is the distant past, so the event is never live |
| Events.SameWeekdayIsEquivalence | Sources/Models/Event.swift:34-38 | "same weekday" is reflexive, symmetric and transitive |
| Events.FormattedStart | Sources/Models/Event.swift:42-44 | the time formatter applied to `start` |
| Events.FormattedWeekday | Sources/Models/Event.swift:46-48 | the weekday formatter applied to `date` |
| Events.FormattedDuration | Sources/Models/Event.swift:80-82 | the duration formatter applied to `duration` |
| Events.FormattedPartsOfFields | Sources/Models/Event.swift:42-82 | the start, weekday and duration texts each depend only on their own field |
| Events.IsSameWeekday | Sources/Models/Event.swift:34-38 | two events share a weekday when the calendar gives both dates the same weekday component |
| Events.FormattedStartWithWeekday | Sources/Models/Event.swift:50-61 | nil exactly when the start is nil; the start alone without a weekday; otherwise the localised format of both |
| Events.FormattedSummary | Sources/Models/Event.swift:72-74 | nil exactly when there is no summary; otherwise the summary with newlines doubled, one character longer per newline |
| Events.FormattedAbstract | Sources/Models/Event.swift:63-70 | nil exactly when there is no abstract or its HTML fails to convert; otherwise the trimmed text with newlines doubled: collapsing the pairs gives back the trimmed text, and it is one character longer per newline |
| Events.FormattedPeople | Sources/Models/Event.swift:76-78 | never nil; empty without people; otherwise the names joined by ", ", with length the total of the names plus two per gap |
| Events.FormattedPeopleSingle | Sources/Models/Event.swift:76-78 | with one person the text is that person's name |
| Events.FormattedPeopleSnoc | Sources/Models/Event.swift:76-78 | one more person appends ", " and the new name to the text, so the names appear in order |
| Events.FormattedDate | Sources/Models/Event.swift:84-106 | nil exactly when start, weekday and duration are all nil; otherwise the available parts in that order, joined by single spaces |
| Events.FormattedDateAllParts | Sources/Models/Event.swift:84-106 | with all three parts the text is "start weekday (duration minutes)" |
| Events.FormattedDateOnlyDuration | Sources/Models/Event.swift:97-105 | with the duration alone the text is "(duration minutes)" |
| Events.Equal | Sources/Models/Event.swift:110-112 | two events are equal when their ids are |
| Events.Hash | Sources/Models/Event.swift:114-116 | only the id is fed to the hasher |
| Events.EqualityIsIdentity | Sources/Models/Event.swift:109-117 | equality is an equivalence decided by `id`, and equal events hash alike |
| TracksControl.InsertByNamePermutes | Sources/Controllers/TracksController.swift:194-197 | inserting a track adds exactly that track |
| TracksControl.InsertByNameSorted | Sources/Controllers/TracksController.swift:194-197 | inserting into a list sorted by name keeps it sorted |
| TracksControl.SortByName | Sources/Controllers/TracksController.swift:194-197 | the result is sorted by name and is a permutation of the input |
| TracksControl.FavoritesInSubset | Sources/Controllers/TracksController.swift:69-72 | the favourites are a sub-multiset of the tracks, holding exactly the tracks whose name is a favourite identifier |
| TracksControl.BucketMembers | Sources/Controllers/TracksController.swift:84-86 | a day's bucket holds exactly the tracks of that day |
| TracksControl.BucketMapSnoc | Sources/Controllers/TracksController.swift:84-86 | each loop step appends the track to its own day's bucket, creating the bucket when it is missing |
| TracksControl.AscendingKeys | Sources/Controllers/TracksController.swift:98-100 | the dictionary's days, strictly ascending, each exactly once |
| TracksControl.FlattenDayBuckets | Sources/Controllers/TracksController.swift:98-104 | no track is lost or duplicated: the concatenated buckets are a permutation of the loaded tracks |
| TracksControl.BucketsAreDayBuckets | Sources/Controllers/TracksController.swift:98-104 | buckets taken in ascending day order, each sorted and holding its day's tracks, meet `DayBuckets` |
| TracksControl.SortEachByName | Sources/Controllers/TracksController.swift:102-104 | every bucket ends sorted by name and keeps its tracks |
| TracksControl.OrderBucketsByDay | Sources/Controllers/TracksController.swift:98-104 | the dictionary becomes non-empty buckets, one per day, in strictly ascending day order, each sorted by name and holding that day's tracks |
| TracksControl.FavoritesService.AddTrack | Sources/Controllers/TracksController.swift:111-113 | the identifier joins the favourite set |
| TracksControl.FavoritesService.RemoveTrack | Sources/Controllers/TracksController.swift:115-117 | the identifier leaves the favourite set |
| TracksControl.TracksController.constructor | Sources/Controllers/TracksController.swift:7-12 | every list starts empty |
| TracksControl.TracksController.TracksReadCompleted | Sources/Controllers/TracksController.swift:57-64 | a failure shows the error screen and keeps the lists; a success leaves the tracks sorted and permuted, the favourites the old ones plus the loaded favourite tracks, sorted, and the day buckets well formed |
| TracksControl.TracksController.LoadingDidFail | Sources/Controllers/TracksController.swift:79-81 | the error screen replaces the navigation stack |
| TracksControl.TracksController.LoadingDidFinish | Sources/Controllers/TracksController.swift:83-107 | tracks sorted and permuted; favourites are the old favourites plus the loaded favourite tracks, sorted; day buckets well formed and together a permutation of the load |
| TracksControl.TracksController.FavoritesDidChange | Sources/Controllers/TracksController.swift:66-76 | the favourites are rebuilt from the tracks: exactly the favourite tracks, sorted by name |
| TracksControl.TracksController.DidFavorite | Sources/Controllers/TracksController.swift:111-113 | the track's name is added as identifier, so the track is a favourite |
| TracksControl.TracksController.DidUnfavorite | Sources/Controllers/TracksController.swift:115-117 | the track's name is removed, so the track is no favourite |
| TracksControl.TracksController.EventsIn | Sources/Controllers/TracksController.swift:141-143 | the events list answers with the events of the selected track |
| TracksControl.TracksController.DidSelect | Sources/Controllers/TracksController.swift:119-137 | events are emptied and one read is issued with the track's name; a success sets the events, a failure presents the error |
| EventsSearch.EmptyBackgroundTitle | Sources/ViewControllers/EventsSearchController.swift:51-60 | nil exactly for no query; the error title on failure, the empty title on success |
| EventsSearch.EmptyBackgroundMessage | Sources/ViewControllers/EventsSearchController.swift:62-71 | nil exactly for no query; the error message on failure; the empty message formatted with the query on success |
| EventsSearch.IsViewHidden | Sources/ViewControllers/EventsSearchController.swift:73-80 | the list is hidden exactly while there is no query |
| EventsSearch.ConfigurationsAgree | Sources/ViewControllers/EventsSearchController.swift:50-80 | hidden, untitled and without message go together; success and failure of one query differ by title |
| EventsSearch.EventsViewController.Configure | Sources/ViewControllers/EventsSearchController.swift:43-47 | the three view properties follow the configuration |
| EventsSearch.SearchController.DidChangeQuery | Sources/ViewControllers/EventsSearchController.swift:10-33 | under three characters the results empty and nothing is searched; otherwise one search is issued, and its result or an empty list is kept; the list shows the matching configuration and reloads once |
| EventsSearch.ConfigurationFor | Sources/ViewControllers/EventsSearchController.swift:10-33 | no query exactly under three characters; failure exactly for a failed search; the query is carried otherwise |
| SecondsParsing.KeepClockCharacters | UITests/EventControllerTests.swift:123-125 | the filter keeps only digits and colons, keeps every colon and never lengthens the text |
| SecondsParsing.KeepClockCharactersConcat | UITests/EventControllerTests.swift:123-125 | the filter works part by part, keeping the digits and colons of each part in order |
| SecondsParsing.KeepClockCharactersSingle | UITests/EventControllerTests.swift:123-125 | one character is kept exactly when it is a digit or a colon |
| SecondsParsing.KeepClockCharactersIdempotent | UITests/EventControllerTests.swift:123-125 | a text of digits and colons passes unchanged, so filtering twice is filtering once |
| SecondsParsing.ParseInt | UITests/EventControllerTests.swift:129-130 | `Int(_:)` succeeds on a non-empty digit string exactly when it fits in 64 bits, giving its decimal value |
| SecondsParsing.SecondsValue | UITests/EventControllerTests.swift:122-136 | nil for a non-string value or a colon count other than one; never negative; a result always comes from exactly two non-empty digit components within `Int.max`, as minutes times 60 plus seconds |
| SecondsParsing.ComponentsAreDigits | UITests/EventControllerTests.swift:123-127 | after the filter, every component holds digits only |
| SecondsParsing.ClockReading | UITests/EventControllerTests.swift:122-136 | any non-clock prefix followed by "m:s" in decimal reads as m*60+s |
| SecondsParsing.ReadingOfDigits | UITests/EventControllerTests.swift:127-132 | two digit strings around one colon read as minutes times 60 plus seconds |
| SecondsParsing.RejectedReadings | UITests/EventControllerTests.swift:128-135 | "1:2:3", "90", ":5" and "5:" all give nil |
| InfoStyling.Resource | Sources/Services/InfoService.swift:75-89 | the resource name is never empty, and it is "bus-tram" exactly for the bus page |
| InfoStyling.ResourceInjective | Sources/Services/InfoService.swift:75-89 | no two pages share a resource file |
| InfoStyling.HasBoldTrait | Sources/Services/InfoService.swift:92-95 | a run without a font is never bold; the bold body font the service sets is bold and the body font is not, so restyled text keeps its classification |
| InfoStyling.LinkRuns | Sources/Services/InfoService.swift:41-47 | the link list holds exactly the runs that carry a link |
| InfoStyling.BoldRuns | Sources/Services/InfoService.swift:41-47 | the bold list holds exactly the runs that are bold and carry no link |
| InfoStyling.Classify | Sources/Services/InfoService.swift:38-47 | the enumeration fills the two lists with exactly those runs, in order |
| InfoStyling.ClassesDisjoint | Sources/Services/InfoService.swift:41-47 | no run lands in both lists |
| InfoStyling.InLinkRuns | Sources/Services/InfoService.swift:41-47 | on a well-formed text, a position lies in a link run exactly when it carries a link |
| InfoStyling.InBoldRuns | Sources/Services/InfoService.swift:41-47 | on a well-formed text, a position lies in a bold run exactly when it is bold and carries no link |
| InfoStyling.StyledFont | Sources/Services/InfoService.swift:49-64 | the final font is the bold body font exactly for bold text without a link, and the body font otherwise |
| InfoStyling.AttributedText.AddFont | Sources/Services/InfoService.swift:53 | the font is set inside the range and unchanged outside it |
| InfoStyling.AttributedText.RemoveFont | Sources/Services/InfoService.swift:57 | the font is removed inside the range and unchanged outside it |
| InfoStyling.AttributedText.AddForegroundColor | Sources/Services/InfoService.swift:54 | the colour is set inside the range and unchanged outside it |
| InfoStyling.AttributedText.ApplyBold | Sources/Services/InfoService.swift:56-59 | positions in a bold run get the bold body font, all others keep the body font |
| InfoStyling.AttributedText.ApplyLinks | Sources/Services/InfoService.swift:61-64 | positions in a link run get the body font back, all others keep their font |
| InfoStyling.AttributedText.Restyle | Sources/Services/InfoService.swift:33-64 | every position ends with the label colour, and with `StyledFont` of its original attributes |
| InfoStyling.LoadAttributedText | Sources/Services/InfoService.swift:21-72 | no completion when the service is gone; nil when the file is missing or fails to decode; otherwise a fresh text with the label colour and the styled fonts everywhere |
| EventViews.Displayable | Sources/Views/EventView.swift:100 | exactly the attachments that can be displayed, never more than there are |
| EventViews.DisplayableConcat | Sources/Views/EventView.swift:100 | the filter works part by part, keeping the order and multiplicity of the attachments |
| EventViews.DisplayableSingle | Sources/Views/EventView.swift:100 | one attachment is kept exactly when it can be displayed |
| EventViews.Rows | Sources/Views/EventView.swift:25-118 | a nil event leaves no row, and an event always leaves some |
| EventViews.DetailSlots | Sources/Views/EventView.swift:33-98 | one slot per row kind above the attachments, nine in all |
| EventViews.Layout | Sources/Views/EventView.swift:25-118 | rows in layout order; one title, track, room and date row each; a video button iff there is a video; a people row iff there are people; a subtitle iff there is one; a header iff some attachment is displayable; the attachment rows show exactly the displayable attachments, in order |
| EventViews.ContentLayout | Sources/Views/EventView.swift:33-117 | the rows of any content are ordered, hold the expected count of every kind, and show its attachments |
| EventViews.DetailCount | Sources/Views/EventView.swift:33-98 | the rows above the attachments hold the expected count of each kind |
| EventViews.DetailOrdered | Sources/Views/EventView.swift:33-98 | the rows above the attachments are in layout order, all ranked above the attachments |
| EventViews.SectionOrdered | Sources/Views/EventView.swift:100-117 | the header precedes the attachment rows |
| EventViews.SectionCount | Sources/Views/EventView.swift:100-117 | one header exactly when there is an attachment to list |
| EventViews.SectionShows | Sources/Views/EventView.swift:110-117 | one attachment row per attachment, in order |
| EventViews.DetailRowsOf | Sources/Views/EventView.swift:33-98 | the detail rows of an event are its metadata rows followed by its text labels |
| EventViews.FirstIndex | Sources/Views/EventView.swift:26-29 | the position of a present row, with no earlier occurrence |
| EventViews.Without | Sources/Views/EventView.swift:26-29 | removing a present row cuts out exactly its first occurrence and keeps the other rows in order; an absent row changes nothing |
| EventViews.EventViewDelegate.DidTapVideo | Sources/Views/EventView.swift:3-4 | the delegate counts one video tap |
| EventViews.EventViewDelegate.DidSelect | Sources/Views/EventView.swift:5 | the delegate records the selected attachment |
| EventViews.EventView.AddArrangedSubview | Sources/Views/EventView.swift:37 | the row is appended to the stack |
| EventViews.EventView.RemoveArrangedSubview | Sources/Views/EventView.swift:27 | the row is taken out of the stack |
| EventViews.EventView.SetEvent | Sources/Views/EventView.swift:11-13 | setting the event rebuilds the stack: it holds exactly `Rows` of the new event |
| EventViews.EventView.DidChangeEvent | Sources/Views/EventView.swift:25-118 | the stack is emptied and refilled with exactly the rows of the current event, none for nil |
| EventViews.EventView.RemoveAll | Sources/Views/EventView.swift:26-29 | the stack is left empty |
| EventViews.EventView.AddDetailRows | Sources/Views/EventView.swift:33-98 | the detail rows of the event are appended, in layout order |
| EventViews.EventView.AddMetadataRows | Sources/Views/EventView.swift:33-74 | title, track, then the video and people rows when present, then room and date are appended |
| EventViews.EventView.AddTextRows | Sources/Views/EventView.swift:76-98 | subtitle, abstract and summary labels are appended, each only when its text is present |
| EventViews.EventView.AddAttachmentRows | Sources/Views/EventView.swift:100-117 | the header, when there is an attachment, and one row per attachment are appended |
| EventViews.EventView.DidTapVideo | Sources/Views/EventView.swift:120-122 | the tap reaches the delegate when there is one |
| EventViews.EventView.DidTapAttachment | Sources/Views/EventView.swift:124-128 | the attachment reaches the delegate only when the row has one and there is a delegate |
| Videos.Before | Sources/Controllers/VideosController.swift:106-115 | only the watched page has a page before it |
| Videos.After | Sources/Controllers/VideosController.swift:117-126 | only the watching page has a page after it |
| Videos.PagingRoundTrip | Sources/Controllers/VideosController.swift:106-126 | paging back then forward, or forward then back, returns to the same page |
| Videos.SegmentShowing | Sources/Controllers/VideosController.swift:133-140 | the two event pages select segment 0 or 1, any other controller none |
| Videos.PageForSegment | Sources/Controllers/VideosController.swift:71-80 | segments 0 and 1 choose an event page, any other index none |
| Videos.SegmentMappingsDisagree | Sources/Controllers/VideosController.swift:71-141 | choosing a segment shows the page that selects the other segment, so the two mappings are never inverse |
| Videos.VideosController.constructor | Sources/Controllers/VideosController.swift:4-9 | both lists start empty and no segment is selected |
| Videos.VideosController.ViewDidLoad | Sources/Controllers/VideosController.swift:22-69 | shows the watched page, titles the segments "watching" then "watched", selects segment 0 and issues the watched read, then the watching read |
| Videos.VideosController.WatchedReadCompleted | Sources/Controllers/VideosController.swift:44-54 | a success replaces the watched list and reloads it once; a failure keeps it; the watching list never changes |
| Videos.VideosController.WatchingReadCompleted | Sources/Controllers/VideosController.swift:58-68 | a success replaces the watching list and reloads it once; a failure keeps it; the watched list never changes |
| Videos.VideosController.DidChangeSegment | Sources/Controllers/VideosController.swift:71-80 | segment 0 shows the watched page, 1 the watching page, other indices change nothing |
| Videos.VideosController.DidFinishAnimating | Sources/Controllers/VideosController.swift:130-141 | only a completed transition to an event page changes the segment, to that page's segment |
| Videos.VideosController.EventsIn | Sources/Controllers/VideosController.swift:84-93 | any controller other than the two lists has no events |
| Transportation.RawValue | Sources/ViewControllers/TransportationViewController.swift:8-11 | every item has a non-empty raw value |
| Transportation.RawValuesDiffer | Sources/ViewControllers/TransportationViewController.swift:8-11 | distinct items have distinct raw values |
| Transportation.SectionTitle | Sources/ViewControllers/TransportationViewController.swift:64-72 | each header is a localisation key lookup |
| Transportation.SectionTitlesDistinct | Sources/ViewControllers/TransportationViewController.swift:64-72 | the two headers differ |
| Transportation.Items | Sources/ViewControllers/TransportationViewController.swift:74-79 | every section lists at least one item, none twice |
| Transportation.NumberOfSections | Sources/ViewControllers/TransportationViewController.swift:28-30 | there are two sections |
| Transportation.NumberOfRows | Sources/ViewControllers/TransportationViewController.swift:36-38 | the row count is the section's item count: 2 for directions, 6 for transport |
| Transportation.ItemAt | Sources/ViewControllers/TransportationViewController.swift:50-52 | the item at an in-bounds index path is one its section lists |
| Transportation.PositionOf | Sources/ViewControllers/TransportationViewController.swift:50-52 | every item has an in-bounds index path at which `item(at:)` returns it |
| Transportation.ExactlyOnePosition | Sources/ViewControllers/TransportationViewController.swift:74-79 | an item appears at exactly one index path |
| Transportation.Info | Sources/ViewControllers/TransportationViewController.swift:104-121 | the info page is nil exactly for the two map apps |
| Transportation.InfoInjective | Sources/ViewControllers/TransportationViewController.swift:104-121 | distinct items open distinct pages, with distinct resource files |
| Transportation.Accessory | Sources/ViewControllers/TransportationViewController.swift:125-132 | no accessory exactly for the two map apps |
| Transportation.Title | Sources/ViewControllers/TransportationViewController.swift:83-102 | every row text is a localisation key lookup |
| Transportation.DisclosureIffInfo | Sources/ViewControllers/TransportationViewController.swift:125-132 | a row has the disclosure indicator exactly when it opens a page |
| Transportation.Configure | Sources/ViewControllers/TransportationViewController.swift:56-61 | the cell's identifier is the raw value, and its disclosure indicator marks the rows that open a page |
| Transportation.CellsDistinct | Sources/ViewControllers/TransportationViewController.swift:82-136 | no two rows share an accessibility identifier or a title |
| Transportation.TransportationDelegate.DidSelect | Sources/ViewControllers/TransportationViewController.swift:3-5 | the delegate records the selected item |
| Transportation.TransportationViewController.DidSelectRowAt | Sources/ViewControllers/TransportationViewController.swift:46-48 | a delegate, when present, is told the item at the selected row |
| MoreItems.AllCases | Sources/Models/MoreItem.swift:3-15 | `time` is a case exactly in a DEBUG build and then comes first; no case is listed twice |
| MoreItems.InBuild | Sources/Models/MoreItem.swift:3-15 | every entry other than `time` is part of every build |
| MoreItems.Title | Sources/Models/MoreItem.swift:18-39 | every title is a localisation key lookup |
| MoreItems.TitlesDistinct | Sources/Models/MoreItem.swift:18-39 | no two entries share a title key |
| MoreItems.Icon | Sources/Models/MoreItem.swift:41-62 | no icon exactly for `time`; "contribute" for `code`; the case's own name otherwise |
| MoreItems.Info | Sources/Models/MoreItem.swift:64-79 | history, devrooms and transportation open their own pages, every other entry none |
| MoreItems.InfoInjective | Sources/Models/MoreItem.swift:64-79 | distinct entries never open the same page |
| MoreSections.AllCases | Sources/Models/MoreSection.swift:3-11 | years, recent, about, other, then the debug section exactly in a DEBUG build |
| MoreSections.Items | Sources/Models/MoreSection.swift:14-28 | no section is empty, and none lists an entry twice |
| MoreSections.Title | Sources/Models/MoreSection.swift:31-45 | the header is the literal "Debug" exactly for the debug section |
| MoreSections.TitleKeys | Sources/Models/MoreSection.swift:31-40 | the other headers use the key "more.section." followed by the case name |
| MoreSections.SectionOf | Sources/Models/MoreSection.swift:14-28 | each entry is listed by its section |
| MoreSections.ExactlyOneSection | Sources/Models/MoreSection.swift:14-28 | each entry is listed by exactly one section, which is in the build exactly when the entry is |
| MoreSections.ListedIsAllCases | Sources/Models/MoreSection.swift:14-28 | the sections of a build list exactly that build's entries, each once |
| MoreSections.InfoIffAbout | Sources/Models/MoreSection.swift:22-23 | the entries that open an info page are exactly the entries of the about section |

## Left out

- Persistence: the persistence service's source is not part of this model. Reads are synchronous parameters of the completion methods; GRDB, dispatch queues and errors other than success or failure are not modelled.
- Concurrency and lifetimes: the `DispatchQueue` hops are not modelled, and neither is `[weak self]` for controllers. A controller deallocated before a completion is not modelled. `InfoStyling.LoadAttributedText` does model the service being gone, as the `serviceAlive` flag.
- UIKit: view construction, fonts, colours, sizes, `UITableView` and `UIPageViewController` mechanics are not modelled. Only the kind and content of each row, the page shown and the selected segment are kept.
- Navigation: `TracksController` activity restoration and registration, the `show` calls that push a screen, and `VideosController`'s `captionFor`/`didSelect` are not modelled. Those two delegate methods only return `formattedPeople` or push a screen. The two error screens are kept as flags only: `showsLoadingError` for the stack replaced by `ErrorController` (Sources/Controllers/TracksController.swift:80) and `presentedEventsError` for the error presented over the events list (line 127).
- TracksControl.FavoritesService: the favourites service's source is not part of this model. Its behaviour is assumed: `contains(track)` holds when the track's name is in a set of identifiers, and `addTrack`/`removeTrack` add or remove one identifier. Its change notification is not modelled. In the app that notification runs the observer closure; here `FavoritesDidChange` is called explicitly.
- Videos.VideosController.DidChangeSegment: the page is recorded without the direction and animation of `setViewControllers`.
- Foundation: `DateComponentsFormatter`, `DateFormatter`, `Calendar`, `NSLocalizedString`/`FOSLocalizedString` and the HTML decoders are opaque parameters. A localised string is its key.
- `EventAttachmentView.canDisplay` and `Link.url`'s path extension are not part of this model. They are a predicate parameter and a `pathExtension` field.
- EventsSearch.SearchController.DidChangeQuery: the length check counts the characters of `seq<char>`, not Swift's grapheme clusters.
- Text.Trim: trims only the ASCII white space and newline characters, not the whole Unicode `whitespacesAndNewlines` set.
- SecondsParsing.IsDecimalDigit: accepts only the ASCII digits. Other scripts' decimal digits are library behaviour of `Int(_:)`. The filter also works on `char`s, where Swift filters `Character`s (grapheme clusters): a digit followed by a combining mark is kept here but dropped by Swift.
- Text.Less: compares strings code point by code point. Swift's `String <` compares Unicode canonical forms, so the two orders can differ on non-ASCII names.
- SecondsParsing.SecondsValue: does not model the overflow trap of `minutes * 60 + seconds` for readings near `Int.max`; the model returns the exact sum.
- InfoStyling.LoadAttributedText: the `assertionFailure` calls, which stop a debug build, are not modelled; the completion receives nil as in a release build.
- EventViews.EventView.AddDetailRows: in the source each text is computed right before its row is added. The model computes the texts first, then adds the rows. Only the order of pure computations differs.
- Sources/ViewControllers/MapViewController.swift, TextViewController.swift, TracksViewController.swift, Sources/Services/TimerService.swift, AcknowledgementService.swift and Sources/AppDelegate.swift are not part of this model. They hold MapKit and floating-point layout, timers, file and JSON decoding, pure delegation, and app lifecycle.
