/**
 * The query builder of the job search form: the free-text query, the
 * employment-type radio value and the remote radio value become one search
 * string, which is sent with four fixed request parameters.
 */
module QueryBuilder {

  /** The options of the "Select Employment Type" radio. */
  datatype EmploymentType = AllTypes | FullTime | PartTime | Contractor | EntryLevel {

    /** The option string the radio hands to the script. */
    function Label(): string
    {
      match this
      case AllTypes => "All"
      case FullTime => "Full-time"
      case PartTime => "Part-time"
      case Contractor => "Contractor"
      case EntryLevel => "Entry Level"
    }
  }

  /** The options of the "Remote Jobs Only?" radio. */
  datatype RemoteFilter = AllSites | Yes | No {

    /** The option string the radio hands to the script. */
    function Label(): string
    {
      match this
      case AllSites => "All"
      case Yes => "Yes"
      case No => "No"
    }
  }

  /** The token appended for an employment type: a space and its label, or nothing for "All". */
  function EmploymentToken(employment: EmploymentType): (t: string)
    ensures employment == AllTypes <==> t == ""
    ensures employment != AllTypes ==> t == " " + employment.Label()
  {
    if employment == AllTypes then "" else " " + employment.Label()
  }

  /** The token appended for the remote filter: " remote", " onsite", or nothing for "All". */
  function RemoteToken(remote: RemoteFilter): (t: string)
    ensures remote == AllSites <==> t == ""
    ensures remote == Yes ==> t == " remote"
    ensures remote == No ==> t == " onsite"
  {
    match remote
    case AllSites => ""
    case Yes => " remote"
    case No => " onsite"
  }

  predicate EndsWith(s: string, suffix: string)
  {
    |suffix| <= |s| && s[|s| - |suffix|..] == suffix
  }

  /**
   * The search string: the user's text, then the employment-type token, then
   * the remote token, in that order and each at most once.
   */
  function QueryText(jobQuery: string, employment: EmploymentType, remote: RemoteFilter): (q: string)
    ensures employment == AllTypes && remote == AllSites ==> q == jobQuery
    ensures |q| == |jobQuery| + |EmploymentToken(employment)| + |RemoteToken(remote)|
    ensures q[..|jobQuery|] == jobQuery
    ensures employment != AllTypes ==>
              q[|jobQuery|..|jobQuery| + 1 + |employment.Label()|] == " " + employment.Label()
    ensures q[|jobQuery| + |EmploymentToken(employment)|..] == RemoteToken(remote)
    ensures remote == Yes ==> EndsWith(q, " remote")
    ensures remote == No ==> EndsWith(q, " onsite")
  {
    jobQuery + EmploymentToken(employment) + RemoteToken(remote)
  }

  /** Builds the search string the way the script does, by appending to a local string. */
  method BuildQuery(jobQuery: string, employment: EmploymentType, remote: RemoteFilter)
    returns (query: string)
    ensures query == QueryText(jobQuery, employment, remote)
  {
    query := jobQuery;
    if employment.Label() != "All" {
      query := query + (" " + employment.Label());
    }
    assert query == jobQuery + EmploymentToken(employment);
    if remote.Label() == "Yes" {
      query := query + " remote";
    } else if remote.Label() == "No" {
      query := query + " onsite";
    }
  }

  /** The key set of the request's query-string parameters. */
  const ParamKeys: set<string> := {"query", "page", "num_pages", "country", "date_posted"}

  /** The query-string parameters of the search request: only "query" varies. */
  function RequestParams(query: string): (p: map<string, string>)
    ensures p.Keys == ParamKeys
    ensures p["query"] == query
    ensures p["page"] == "1" && p["num_pages"] == "1"
    ensures p["country"] == "us" && p["date_posted"] == "all"
  {
    map["query" := query, "page" := "1", "num_pages" := "1", "country" := "us", "date_posted" := "all"]
  }

  /** Whatever the filters are, two requests agree on every parameter but "query". */
  lemma ParamsDifferOnlyInQuery(q1: string, q2: string)
    ensures forall k :: k in ParamKeys && k != "query" ==> RequestParams(q1)[k] == RequestParams(q2)[k]
    ensures RequestParams(q1) == RequestParams(q2) <==> q1 == q2
  {
  }

  /** The two appended tokens together determine both radio choices. */
  lemma TokensDetermineChoices(e1: EmploymentType, r1: RemoteFilter, e2: EmploymentType, r2: RemoteFilter)
    requires EmploymentToken(e1) + RemoteToken(r1) == EmploymentToken(e2) + RemoteToken(r2)
    ensures e1 == e2 && r1 == r2
  {
    var s := EmploymentToken(e1) + RemoteToken(r1);
    // employment tokens are 0 or 10 to 12 long, remote tokens 0 or 7: the lengths split uniquely
    assert |s| == |EmploymentToken(e1)| + |RemoteToken(r1)| == |EmploymentToken(e2)| + |RemoteToken(r2)|;
    assert |RemoteToken(r1)| == |RemoteToken(r2)|;
    assert RemoteToken(r1) == s[|EmploymentToken(e1)|..] == RemoteToken(r2);
    assert EmploymentToken(e1) == s[..|EmploymentToken(e1)|] == EmploymentToken(e2);
    if e1 != AllTypes {
      // the labels other than "All" differ in their first letter
      assert EmploymentToken(e1)[1] == e1.Label()[0] == e2.Label()[0];
    }
  }

  /** Different radio choices never produce the same search string for the same text. */
  lemma QueryTextInjective(jobQuery: string, e1: EmploymentType, r1: RemoteFilter, e2: EmploymentType, r2: RemoteFilter)
    requires QueryText(jobQuery, e1, r1) == QueryText(jobQuery, e2, r2)
    ensures e1 == e2 && r1 == r2
  {
    var q := QueryText(jobQuery, e1, r1);
    assert q[|jobQuery|..] == EmploymentToken(e1) + RemoteToken(r1);
    assert q[|jobQuery|..] == EmploymentToken(e2) + RemoteToken(r2);
    TokensDetermineChoices(e1, r1, e2, r2);
  }

  /** Example: ("Nurse jobs", "Contractor", "Yes") gives "Nurse jobs Contractor remote". */
  lemma NurseContractorRemote()
    ensures QueryText("Nurse jobs", Contractor, Yes) == "Nurse jobs Contractor remote"
  {
  }
}
