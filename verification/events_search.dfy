/**
 * `EventsSearchController`: the free-text search over events. Queries
 * shorter than three characters are not searched; a search's outcome
 * selects one of three configurations of the results list.
 */
module EventsSearch {
  import opened Wrappers
  import opened Store
  import opened Localization
  import Events

  /** Queries with fewer characters than this are not searched. */
  const MinimumQueryLength: nat := 3

  /** The state of the results list. */
  datatype Configuration = NoQuery | Success(query: string) | Failure(query: string)

  /** Title of the empty-list background: none before a query, otherwise the error or the no-results title. */
  function EmptyBackgroundTitle(configuration: Configuration): (title: Option<LocalizedString>)
    ensures title.None? <==> configuration.NoQuery?
    ensures configuration.Failure? ==> title == Some(Localized("search.error.title"))
    ensures configuration.Success? ==> title == Some(Localized("search.empty.title"))
  {
    match configuration
    case NoQuery => None
    case Failure(_) => Some(Localized("search.error.title"))
    case Success(_) => Some(Localized("search.empty.title"))
  }

  /** Message of the empty-list background; the no-results message is formatted with the query. */
  function EmptyBackgroundMessage(configuration: Configuration): (message: Option<LocalizedString>)
    ensures message.None? <==> configuration.NoQuery?
    ensures configuration.Failure? ==> message == Some(Localized("search.error.message"))
    ensures configuration.Success? ==> message == Some(LocalizedFormat("search.empty.message", configuration.query))
  {
    match configuration
    case NoQuery => None
    case Failure(_) => Some(Localized("search.error.message"))
    case Success(query) => Some(LocalizedFormat("search.empty.message", query))
  }

  /** The results list is hidden exactly while there is no query. */
  function IsViewHidden(configuration: Configuration): (hidden: bool)
    ensures hidden <==> configuration.NoQuery?
  {
    match configuration
    case NoQuery => true
    case Success(_) | Failure(_) => false
  }

  /** Hidden, untitled and without message go together; the two outcomes of one query are told apart by title. */
  lemma ConfigurationsAgree(configuration: Configuration, query: string)
    ensures IsViewHidden(configuration) <==> EmptyBackgroundTitle(configuration).None?
    ensures IsViewHidden(configuration) <==> EmptyBackgroundMessage(configuration).None?
    ensures EmptyBackgroundTitle(Configuration.Success(query)) != EmptyBackgroundTitle(Configuration.Failure(query))
  {
  }

  /** The results list (`EventsViewController`), reduced to what `configure(with:)` sets. */
  class EventsViewController {
    var isHidden: bool
    var emptyBackgroundTitle: Option<LocalizedString>
    var emptyBackgroundMessage: Option<LocalizedString>
    var reloadCount: nat

    constructor ()
      ensures !isHidden && emptyBackgroundTitle.None? && emptyBackgroundMessage.None? && reloadCount == 0
    {
      isHidden, emptyBackgroundTitle, emptyBackgroundMessage, reloadCount := false, None, None, 0;
    }

    /** `configure(with:)`: the three properties follow the configuration, nothing else changes. */
    method Configure(configuration: Configuration)
      modifies this`isHidden, this`emptyBackgroundTitle, this`emptyBackgroundMessage
      ensures isHidden == IsViewHidden(configuration)
      ensures emptyBackgroundTitle == EmptyBackgroundTitle(configuration)
      ensures emptyBackgroundMessage == EmptyBackgroundMessage(configuration)
    {
      isHidden := IsViewHidden(configuration);
      emptyBackgroundTitle := EmptyBackgroundTitle(configuration);
      emptyBackgroundMessage := EmptyBackgroundMessage(configuration);
    }

    method ReloadData()
      modifies this`reloadCount
      ensures reloadCount == old(reloadCount) + 1
    {
      reloadCount := reloadCount + 1;
    }
  }

  /** A controller adopting `EventsSearchController`: its `results` and the reads it issues. */
  class SearchController {
    var results: seq<Events.Event>
    /** Queries of the `EventsForSearch` reads issued, in order. */
    var searches: seq<string>
    const resultsViewController: EventsViewController?

    constructor (resultsViewController: EventsViewController?)
      ensures this.resultsViewController == resultsViewController
      ensures results == [] && searches == []
    {
      this.resultsViewController := resultsViewController;
      results, searches := [], [];
    }

    /**
     * `didChangeQuery(_:)`. A query of three or more characters issues one
     * `EventsForSearch(query:)` read, whose completion delivers `result`.
     */
    method DidChangeQuery(query: string, result: ReadResult<seq<Events.Event>>)
      modifies this`results, this`searches, resultsViewController
      ensures |query| < MinimumQueryLength ==> results == [] && searches == old(searches)
      ensures |query| >= MinimumQueryLength ==> searches == old(searches) + [query]
      ensures |query| >= MinimumQueryLength ==> results == if result.Success? then result.value else []
      ensures resultsViewController != null ==> ViewShows(resultsViewController, ConfigurationFor(query, result))
      ensures resultsViewController != null ==> resultsViewController.reloadCount == old(resultsViewController.reloadCount) + 1
    {
      if |query| < MinimumQueryLength {
        results := [];
        if resultsViewController != null {
          resultsViewController.Configure(NoQuery);
          resultsViewController.ReloadData();
        }
        return;
      }
      searches := searches + [query];
      if result.Failure? {
        results := [];
        if resultsViewController != null {
          resultsViewController.Configure(Configuration.Failure(query));
          resultsViewController.ReloadData();
        }
      } else {
        results := result.value;
        if resultsViewController != null {
          resultsViewController.Configure(Configuration.Success(query));
          resultsViewController.ReloadData();
        }
      }
    }
  }

  /** The configuration `didChangeQuery` leaves the results list in. */
  function ConfigurationFor(query: string, result: ReadResult<seq<Events.Event>>): (c: Configuration)
    ensures c.NoQuery? <==> |query| < MinimumQueryLength
    ensures !c.NoQuery? ==> c.query == query
    ensures c.Failure? <==> |query| >= MinimumQueryLength && result.Failure?
  {
    if |query| < MinimumQueryLength then NoQuery
    else if result.Failure? then Configuration.Failure(query)
    else Configuration.Success(query)
  }

  ghost predicate ViewShows(view: EventsViewController, configuration: Configuration)
    reads view
  {
    && view.isHidden == IsViewHidden(configuration)
    && view.emptyBackgroundTitle == EmptyBackgroundTitle(configuration)
    && view.emptyBackgroundMessage == EmptyBackgroundMessage(configuration)
  }
}
