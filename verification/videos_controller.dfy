/**
 * The recent-videos screen (Sources/Controllers/VideosController.swift): a
 * two-page pager, "watching" to the left of "watched", under a segmented
 * control, each page listing the events its persistence read returned.
 */
module Videos {
  import opened Wrappers
  import opened Store
  import opened Localization
  import Events

  /** A child of the pager: one of the two events lists, or any other view controller. */
  datatype Page = Watching | Watched | OtherPage

  /** `pageViewController(_:viewControllerBefore:)`. */
  function Before(page: Page): (r: Option<Page>)
    ensures r.Some? <==> page == Watched
  {
    match page
    case Watching => None
    case Watched => Some(Watching)
    case OtherPage => None
  }

  /** `pageViewController(_:viewControllerAfter:)`. */
  function After(page: Page): (r: Option<Page>)
    ensures r.Some? <==> page == Watching
  {
    match page
    case Watching => Some(Watched)
    case Watched => None
    case OtherPage => None
  }

  /** Paging back then forth, or forth then back, returns to the same page. */
  lemma PagingRoundTrip(page: Page)
    ensures Before(page).Some? ==> After(Before(page).value) == Some(page)
    ensures After(page).Some? ==> Before(After(page).value) == Some(page)
  {
  }

  /** The segment `didFinishAnimating` selects for the page now shown. */
  function SegmentShowing(page: Page): (r: Option<int>)
    ensures r.Some? <==> page != OtherPage
    ensures r.Some? ==> r.value in {0, 1}
  {
    match page
    case Watching => Some(0)
    case Watched => Some(1)
    case OtherPage => None
  }

  /** The page `didChangeSegment` shows for a segment index. */
  function PageForSegment(index: int): (r: Option<Page>)
    ensures r.Some? <==> index in {0, 1}
    ensures r.Some? ==> r.value != OtherPage
  {
    if index == 0 then Some(Watched)
    else if index == 1 then Some(Watching)
    else None
  }

  /**
   * The two mappings disagree: choosing a segment shows the page whose own
   * segment is the other one, and the segment a page selects leads, when
   * chosen, to the other page.
   */
  lemma SegmentMappingsDisagree(index: int, page: Page)
    ensures index in {0, 1} ==> SegmentShowing(PageForSegment(index).value) == Some(1 - index)
    ensures page != OtherPage ==> PageForSegment(SegmentShowing(page).value) != Some(page)
  {
  }

  /** The events list controller of one page, reduced to its reload count. */
  class EventsList {
    var reloadCount: nat

    constructor ()
      ensures reloadCount == 0
    {
      reloadCount := 0;
    }

    method ReloadData()
      modifies this`reloadCount
      ensures reloadCount == old(reloadCount) + 1
    {
      reloadCount := reloadCount + 1;
    }
  }

  /** `VideosController`: its two event lists, its segmented control and the page it shows. */
  class VideosController {
    var watchingEvents: seq<Events.Event>
    var watchedEvents: seq<Events.Event>
    /** `segmentedControl.selectedSegmentIndex`; -1 is `noSegment`. */
    var selectedSegmentIndex: int
    var segmentTitles: seq<LocalizedString>
    /** `viewControllers?.first`; `None` before any page is set. */
    var currentPage: Option<Page>
    /** The identifiers of the `EventsForIdentifiers` reads issued, in order. */
    var issuedReads: seq<set<int>>
    const watchingList: EventsList
    const watchedList: EventsList

    constructor ()
      ensures watchingEvents == [] && watchedEvents == []
      ensures selectedSegmentIndex == -1 && segmentTitles == [] && currentPage == None && issuedReads == []
      ensures fresh(watchingList) && fresh(watchedList) && watchingList != watchedList
    {
      watchingEvents, watchedEvents := [], [];
      selectedSegmentIndex, segmentTitles, currentPage, issuedReads := -1, [], None, [];
      watchingList := new EventsList();
      watchedList := new EventsList();
    }

    /**
     * `viewDidLoad`: shows the watched page, titles the segments "watching"
     * then "watched", selects segment 0 and issues the watched read, then the
     * watching read.
     */
    method ViewDidLoad(watched: set<int>, watching: set<int>)
      modifies this`currentPage, this`segmentTitles, this`selectedSegmentIndex, this`issuedReads
      ensures currentPage == Some(Watched)
      ensures segmentTitles == [Localized("recent.video.watching"), Localized("recent.video.watched")]
      ensures selectedSegmentIndex == 0
      ensures issuedReads == old(issuedReads) + [watched, watching]
    {
      currentPage := Some(Watched);
      segmentTitles := [Localized("recent.video.watching")];
      segmentTitles := segmentTitles + [Localized("recent.video.watched")];
      selectedSegmentIndex := 0;
      issuedReads := issuedReads + [watched];
      issuedReads := issuedReads + [watching];
    }

    /** Completion of the watched read: a success replaces the list and reloads its page; a failure changes nothing. */
    method WatchedReadCompleted(result: ReadResult<seq<Events.Event>>)
      modifies this`watchedEvents, watchedList`reloadCount
      ensures EventsIn(Watched) == if result.Success? then result.value else old(EventsIn(Watched))
      ensures watchedList.reloadCount == old(watchedList.reloadCount) + (if result.Success? then 1 else 0)
      ensures EventsIn(Watching) == old(EventsIn(Watching))
    {
      match result
      case Failure(_) =>
      case Success(events) =>
        watchedEvents := events;
        watchedList.ReloadData();
    }

    /** Completion of the watching read, likewise for the watching list. */
    method WatchingReadCompleted(result: ReadResult<seq<Events.Event>>)
      modifies this`watchingEvents, watchingList`reloadCount
      ensures EventsIn(Watching) == if result.Success? then result.value else old(EventsIn(Watching))
      ensures watchingList.reloadCount == old(watchingList.reloadCount) + (if result.Success? then 1 else 0)
      ensures EventsIn(Watched) == old(EventsIn(Watched))
    {
      match result
      case Failure(_) =>
      case Success(events) =>
        watchingEvents := events;
        watchingList.ReloadData();
    }

    /** `didChangeSegment(_:)`: segment 0 shows the watched page, segment 1 the watching page, any other index nothing new. */
    method DidChangeSegment()
      modifies this`currentPage
      ensures currentPage == if PageForSegment(selectedSegmentIndex).Some? then PageForSegment(selectedSegmentIndex) else old(currentPage)
    {
      match selectedSegmentIndex
      case 0 => currentPage := Some(Watched);
      case 1 => currentPage := Some(Watching);
      case _ =>
    }

    /** `didFinishAnimating`: after a completed transition, selects the segment of the page now shown. */
    method DidFinishAnimating(completed: bool)
      modifies this`selectedSegmentIndex
      ensures completed && currentPage.Some? && SegmentShowing(currentPage.value).Some? ==>
                selectedSegmentIndex == SegmentShowing(currentPage.value).value
      ensures !(completed && currentPage.Some? && SegmentShowing(currentPage.value).Some?) ==>
                selectedSegmentIndex == old(selectedSegmentIndex)
    {
      if !completed {
        return;
      }
      match currentPage
      case Some(Watching) => selectedSegmentIndex := 0;
      case Some(Watched) => selectedSegmentIndex := 1;
      case _ =>
    }

    /** `events(in:)`: the list behind a page, and nothing for any other controller. */
    function EventsIn(page: Page): (r: seq<Events.Event>)
      reads this`watchingEvents, this`watchedEvents
      ensures page == OtherPage ==> r == []
    {
      match page
      case Watching => watchingEvents
      case Watched => watchedEvents
      case OtherPage => []
    }
  }

}
