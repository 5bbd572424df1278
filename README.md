# JobsListing core, modelled in Dafny

JobsListing is a Streamlit page for searching jobs. A user types a query and picks an
employment type and a remote preference. The page sends one search request to the
JSearch API and shows each returned listing as a card. This project models the logic
inside that page:

- **Query builder** (`query_builder.dfy`, module `QueryBuilder`). The query text, the
  employment-type choice and the remote choice become one search string. The string is
  the text, then ` <label>` unless the type is "All", then ` remote` for "Yes" or
  ` onsite` for "No". It is sent with four fixed parameters: page "1", num_pages "1",
  country "us" and date_posted "all". `BuildQuery` appends to a local string step by
  step, as the script does. It is proved equal to the function `QueryText`, and the
  properties are proved about that function.
- **Result normaliser** (`normalizer.dfy`, module `Normalizer`). Each raw listing is a
  map from JSON keys to strings and becomes a seven-field `DisplayRecord`. A missing key
  takes its placeholder: "No Title", "N/A", "No description available." or "#". A list
  of listings gives one record per listing, in order.
- **Session state** (`session_state.dfy`, module `SessionState`). The class `Session`
  holds the `jobs` entry (absent, `None` or a list) and the `show_modal` flag. Its
  methods are the page's transitions:
  - `InitJobs` runs at the start of every script run.
  - `Search` handles the "Search" button.
  - `NextPage` handles the "Next Page" button.
  - `Close` handles the dialog's "Close" button.

  `Cards` says which cards the page renders for a stored value.
- `wrappers.dfy` holds the `Option` datatype.

The HTTP call is a parameter: `Outcome` is either `Success(payload)`, holding the decoded
body's `data` entry, or `Failure`, meaning a request exception was raised. A 4xx or 5xx
status lands in `Failure`, because `raise_for_status` raises a request exception for it.

- The page has no separate loading state. A failed search stores `None`, the same value a
  new session starts with, so the stored state cannot tell the two apart. The error
  message shown on a failure (JobsListing.py:87) is rendering and is not modelled.
- The page shows no "no jobs found" message. An empty list, like `None`, renders no
  cards, and the "Next Page" button is then not shown either.
- A body whose "data" key holds JSON null stores `None`, because `dict.get` only falls
  back to `[]` when the key is missing. The model keeps this case (`Payload(Some(NoResults))`).

## Model

| member | source | states |
|---|---|---|
| QueryBuilder.EmploymentToken | JobsListing.py:58-59 | the employment token is empty exactly for "All", and otherwise it is one space followed by the label |
| QueryBuilder.RemoteToken | JobsListing.py:60-63 | "Yes" adds " remote", "No" adds " onsite", and "All" (and only "All") adds nothing |
| QueryBuilder.QueryText | JobsListing.py:57-63 | "All"/"All" gives the user's text unchanged; the text is always a prefix; " " + label comes right after it when the type is not "All"; the remote token (at most one) is last; the length is the text's plus both tokens' |
| QueryBuilder.BuildQuery | JobsListing.py:57-63 | appending step by step under the if/elif gives exactly `QueryText` of the three inputs |
| QueryBuilder.RequestParams | JobsListing.py:68-74 | the parameters are exactly query, page, num_pages, country and date_posted; query is the built string; the others are "1", "1", "us" and "all" |
| QueryBuilder.ParamsDifferOnlyInQuery | JobsListing.py:68-74 | two requests agree on every parameter except query, and they are equal exactly when their query strings are |
| QueryBuilder.TokensDetermineChoices | JobsListing.py:57-63 | the appended tokens determine both radio choices |
| QueryBuilder.QueryTextInjective | JobsListing.py:57-63 | for the same text, different filter choices never produce the same search string |
| QueryBuilder.NurseContractorRemote | JobsListing.py:57-63 | ("Nurse jobs", "Contractor", "Yes") gives "Nurse jobs Contractor remote" |
| Normalizer.Normalize | JobsListing.py:93-99 | each field is the listing's value when its key is present, and otherwise its placeholder: "No Title" for the title, "N/A" for employer, location, employment type and posted date, "No description available." for the description, "#" for the apply link |
| Normalizer.NormalizeReadsOnlyCardKeys | JobsListing.py:93-99 | two listings that agree on the seven card keys give the same record, so other keys are ignored |
| Normalizer.EmptyListingShowsPlaceholders | JobsListing.py:93-99 | a listing with no keys gives the all-placeholder record |
| Normalizer.NormalizeAll | JobsListing.py:92-99 | one record per listing: the i-th record is the normalised i-th listing |
| Normalizer.NormalizeAllAppend | JobsListing.py:92 | normalising a concatenation gives the concatenation of the normalised parts, with no filtering or reordering |
| SessionState.StoredResults | JobsListing.py:84-88 | success stores the body's "data" value, or the empty list when the key is missing; a failure stores `None` |
| SessionState.Cards | JobsListing.py:91-99 | there are no cards exactly when the stored value is falsy (`None` or empty); a stored list renders as its normalised listings |
| SessionState.NoCardsWithoutData | JobsListing.py:85-91 | after a failure, or a success without "data", no cards are shown |
| SessionState.CardsFollowData | JobsListing.py:85-92 | after a success with listings, the cards are exactly those listings, normalised, one each |
| SessionState.Session.constructor | JobsListing.py:40 | a new session has no "jobs" entry, and the dialog flag reads false |
| SessionState.Session.InitJobs | JobsListing.py:40-41 | "jobs" (`None` while the key is absent) is set to the Python `None` only when it is absent; a value already there is kept; the flag is untouched |
| SessionState.Session.Search | JobsListing.py:56-88 | the request carries `RequestParams(QueryText(...))`; "jobs" becomes `StoredResults(outcome)`, whatever it was before; the dialog flag is untouched |
| SessionState.Session.NextPage | JobsListing.py:119-120 | with cards on screen, the press sets the dialog flag and changes nothing else: no fetch, and neither the results nor the query change |
| SessionState.Session.Close | JobsListing.py:51-52 | with the dialog open, the press clears the flag and changes nothing else |
| SessionState.SearchTwice | JobsListing.py:85-88 | after two searches only the second outcome is stored, so results never accumulate |

## Left out

- Streamlit rendering is not modelled: the sidebar, title, widgets, HTML card markup, expander, spinner, error message (`st.error`), dialog decorator, `st.rerun` and footer. The widget values are parameters drawn from their option lists (`EmploymentType`, `RemoteFilter`).
- The salary slider is not modelled. Its value is collected but never used in the query or in filtering.
- The HTTP GET, `raise_for_status` and `response.json()` are not modelled. They are network I/O in a foreign library, so `Outcome` is a parameter. Which exceptions count as request exceptions is up to the library.
- A body that is valid JSON but not an object is not modelled. `data.get` would then raise an error the page does not catch.
- The API key lookup (environment variable, then the secrets store) and the request headers are not modelled. They are configuration access.
- SessionState.Session.Search: assumes the API key lookup succeeds. The lookup (JobsListing.py:66) runs outside the `try`, so when neither source has a key it raises before any request is made: the run stops, "jobs" stays as it was and no cards are rendered, which the model does not capture.
- SessionState.Session.Search: `Payload` only represents a "data" value that is null or a list of objects. A truthy value that is not a list, or a list whose items are not objects, makes the lookups at JobsListing.py:92-93 raise an uncaught error, and `Results` cannot express that.
- Normalizer.Normalize: listing values are modelled as strings only. A key that is present with a JSON null or a non-string value bypasses the placeholder in the source, since `dict.get` returns that value.
- HTML escaping of the values put into the card markup is not modelled. It is a rendering concern.
