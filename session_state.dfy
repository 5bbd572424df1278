/**
 * The per-session state of the job search page: the stored search results
 * ("jobs") and the flag that opens the "Contact for Access" dialog
 * ("show_modal"), with the transitions the page's buttons cause.
 */
module SessionState {

  import opened Wrappers
  import opened QueryBuilder
  import opened Normalizer

  /** The value stored under "jobs": Python's `None`, or a list of raw listings. */
  datatype Results = NoResults | Listings(items: seq<Listing>)

  /**
   * The decoded JSON body of a successful response; `data` is `None` when the
   * body has no "data" key, and `Some(NoResults)` when that key holds JSON null.
   */
  datatype Payload = Payload(data: Option<Results>)

  /** How the search request ended: a decoded body, or a request exception. */
  datatype Outcome = Success(payload: Payload) | Failure

  /** What a search stores under "jobs": the body's "data" list (the empty list if absent), or `None` on failure. */
  function StoredResults(outcome: Outcome): (r: Results)
    ensures outcome.Failure? ==> r == NoResults
    ensures outcome.Success? && outcome.payload.data.None? ==> r == Listings([])
    ensures outcome.Success? && outcome.payload.data.Some? ==> r == outcome.payload.data.value
  {
    match outcome
    case Failure => NoResults
    case Success(Payload(None)) => Listings([])
    case Success(Payload(Some(data))) => data
  }

  /** Python truthiness of the stored value: `None` and the empty list are false. */
  predicate HasCards(jobs: Results)
  {
    jobs.Listings? && jobs.items != []
  }

  /** The cards the page renders for a stored value: one per listing when the value is truthy, none otherwise. */
  function Cards(jobs: Results): (cards: seq<DisplayRecord>)
    ensures cards == [] <==> !HasCards(jobs)
    ensures jobs.Listings? ==> cards == NormalizeAll(jobs.items)
  {
    if HasCards(jobs) then NormalizeAll(jobs.items) else []
  }

  /** A failed request and a successful one with no "data" key leave the page without cards, like a fresh session. */
  lemma NoCardsWithoutData(outcome: Outcome)
    requires outcome.Failure? || outcome.payload.data.None?
    ensures Cards(StoredResults(outcome)) == []
  {
  }

  /** A successful search with listings shows exactly one card per listing, in order. */
  lemma CardsFollowData(items: seq<Listing>)
    ensures Cards(StoredResults(Success(Payload(Some(Listings(items)))))) == NormalizeAll(items)
    ensures |Cards(StoredResults(Success(Payload(Some(Listings(items))))))| == |items|
  {
  }

  class Session {
    /** The "jobs" entry of the session state: `None` while the key is absent. */
    var jobs: Option<Results>
    /** The value of "show_modal"; an absent key reads as false. */
    var showModal: bool

    /** A new browser session: no keys set. */
    constructor ()
      ensures jobs == None && !showModal
    {
      jobs := None;
      showModal := false;
    }

    /** Run at the top of every script run: "jobs" becomes `None` only if it is absent. */
    method InitJobs()
      modifies this`jobs
      ensures old(jobs).Some? ==> jobs == old(jobs)
      ensures old(jobs).None? ==> jobs == Some(NoResults)
    {
      if jobs.None? {
        jobs := Some(NoResults);
      }
    }

    /**
     * "Search": builds the query and its request parameters, and stores what
     * the request brought back; the previous results are replaced, never merged.
     */
    method Search(jobQuery: string, employment: EmploymentType, remote: RemoteFilter, outcome: Outcome)
      returns (params: map<string, string>)
      modifies this`jobs
      ensures params == RequestParams(QueryText(jobQuery, employment, remote))
      ensures jobs == Some(StoredResults(outcome))
    {
      var query := BuildQuery(jobQuery, employment, remote);
      params := RequestParams(query);
      match outcome {
        case Success(payload) =>
          jobs := Some(if payload.data.Some? then payload.data.value else Listings([]));
        case Failure =>
          jobs := Some(NoResults);
      }
    }

    /** "Next Page", shown under the cards: opens the dialog; it fetches nothing and leaves the results alone. */
    method NextPage()
      requires jobs.Some? && HasCards(jobs.value)
      modifies this`showModal
      ensures showModal
    {
      showModal := true;
    }

    /** "Close", shown inside the open dialog: closes it and changes nothing else. */
    method Close()
      requires showModal
      modifies this`showModal
      ensures !showModal
    {
      showModal := false;
    }
  }

  /** Two searches in a row: only the second outcome is kept, and the dialog flag is untouched. */
  method SearchTwice(session: Session, jobQuery: string, employment: EmploymentType, remote: RemoteFilter,
                     first: Outcome, second: Outcome)
    modifies session
    ensures session.jobs == Some(StoredResults(second))
    ensures session.showModal == old(session.showModal)
  {
    var _ := session.Search(jobQuery, employment, remote, first);
    var _ := session.Search(jobQuery, employment, remote, second);
  }
}
