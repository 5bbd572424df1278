/**
 * The result normaliser: every raw listing returned by the job-search API
 * becomes one seven-field display record, a missing key taking a fixed
 * placeholder.
 */
module Normalizer {

  /** A raw listing: JSON object keys to their (string) values; any key may be missing. */
  type Listing = map<string, string>

  /** What one job card shows. */
  datatype DisplayRecord = DisplayRecord(
    title: string,
    employer: string,
    location: string,
    employmentType: string,
    postedDate: string,
    description: string,
    applyLink: string)

  const TitleKey := "job_title"
  const EmployerKey := "employer_name"
  const LocationKey := "job_location"
  const EmploymentTypeKey := "job_employment_type"
  const PostedKey := "job_posted_at"
  const DescriptionKey := "job_description"
  const ApplyLinkKey := "job_apply_link"

  const NoTitle := "No Title"
  const NotAvailable := "N/A"
  const NoDescription := "No description available."
  const NoLink := "#"

  /** Python's `dict.get(key, default)`. */
  function Get(job: Listing, key: string, default: string): string
  {
    if key in job then job[key] else default
  }

  /** The card fields of one listing: each the listing's value when its key is present, else its placeholder. */
  function Normalize(job: Listing): (d: DisplayRecord)
    ensures TitleKey in job ==> d.title == job[TitleKey]
    ensures TitleKey !in job ==> d.title == NoTitle
    ensures EmployerKey in job ==> d.employer == job[EmployerKey]
    ensures EmployerKey !in job ==> d.employer == NotAvailable
    ensures LocationKey in job ==> d.location == job[LocationKey]
    ensures LocationKey !in job ==> d.location == NotAvailable
    ensures EmploymentTypeKey in job ==> d.employmentType == job[EmploymentTypeKey]
    ensures EmploymentTypeKey !in job ==> d.employmentType == NotAvailable
    ensures PostedKey in job ==> d.postedDate == job[PostedKey]
    ensures PostedKey !in job ==> d.postedDate == NotAvailable
    ensures DescriptionKey in job ==> d.description == job[DescriptionKey]
    ensures DescriptionKey !in job ==> d.description == NoDescription
    ensures ApplyLinkKey in job ==> d.applyLink == job[ApplyLinkKey]
    ensures ApplyLinkKey !in job ==> d.applyLink == NoLink
  {
    DisplayRecord(
      Get(job, TitleKey, NoTitle),
      Get(job, EmployerKey, NotAvailable),
      Get(job, LocationKey, NotAvailable),
      Get(job, EmploymentTypeKey, NotAvailable),
      Get(job, PostedKey, NotAvailable),
      Get(job, DescriptionKey, NoDescription),
      Get(job, ApplyLinkKey, NoLink))
  }

  /** The seven keys a card reads. */
  const CardKeys: set<string> :=
    {TitleKey, EmployerKey, LocationKey, EmploymentTypeKey, PostedKey, DescriptionKey, ApplyLinkKey}

  /** Two listings that agree on the seven card keys give the same card; every other key is ignored. */
  lemma NormalizeReadsOnlyCardKeys(a: Listing, b: Listing)
    requires forall k :: k in CardKeys ==> (k in a <==> k in b)
    requires forall k :: k in CardKeys && k in a ==> a[k] == b[k]
    ensures Normalize(a) == Normalize(b)
  {
  }

  /** A listing with none of the card keys shows every placeholder. */
  lemma EmptyListingShowsPlaceholders()
    ensures Normalize(map[]) == DisplayRecord(NoTitle, NotAvailable, NotAvailable, NotAvailable, NotAvailable, NoDescription, NoLink)
  {
  }

  /** The cards, one per listing, in the order the API returned them. */
  function NormalizeAll(jobs: seq<Listing>): (records: seq<DisplayRecord>)
    ensures |records| == |jobs|
    ensures forall i :: 0 <= i < |jobs| ==> records[i] == Normalize(jobs[i])
  {
    if jobs == [] then [] else [Normalize(jobs[0])] + NormalizeAll(jobs[1..])
  }

  /** Normalising is compositional: nothing is filtered, merged or reordered across a split. */
  lemma {:induction false} NormalizeAllAppend(a: seq<Listing>, b: seq<Listing>)
    ensures NormalizeAll(a + b) == NormalizeAll(a) + NormalizeAll(b)
  {
    if a == [] {
      assert a + b == b;
    } else {
      assert (a + b)[1..] == a[1..] + b;
      NormalizeAllAppend(a[1..], b);
    }
  }
}
