# gitem core, modelled in Dafny

gitem is a reconnaissance tool for GitHub organizations, repositories and users. It queries the
public GitHub v3 API and prints what it finds as indented text. Its core has five parts, and this
project models each one:

- **The API client** (`lib/gitem/api.py`). It adds the OAuth2 token to the query parameters. A
  non-success response raises `ApiCallException`, and status predicates classify it; one of them
  recognises rate limiting. The client also has a paginated call that follows `rel="next"` links
  page by page, a guard that refuses some endpoints without a token, and a catalogue of endpoints.
  The catalogue checks the enumerated parameters `type`, `sort`, `direction` and `anon`.
- **The analytics layer** (`lib/gitem/analytics.py`). It turns raw API objects into records, using
  fixed ordered mappings from the platform's field names to human-readable names. A field missing
  from a raw object raises `KeyError`.
- **The commands** (`lib/gitem/__main__.py`). `organization`, `repository` and `user` each print a
  sequence of documents:
  - `organization` sorts members with site administrators first and repositories by popularity
    (watchers + stars + forks). Both sorts are stable and descending.
  - `repository` lists contributors in the order the API returned them. This describes the program
    with the corrected `anon` check of the finding below: as written, the contributors call raises
    `ValueError`, so `repository` prints the repository's record and then ends with that error.
  - Listings show five entries unless the verbose flag is given.
  - `user` also collects the commit e-mail addresses from *all* of the user's repositories, as a set
    union, and prints each `(name, address)` pair as Python's `repr` of the pair.
  - `main` catches `ApiCallException`. For rate limiting it prints an error and the documentation
    link; for a missing resource it prints an error; anything else it re-raises.
- **The stdout renderer** (`lib/gitem/output/stdout.py`). It prints nested ordered dictionaries
  depth first, two columns per level. The renderer object carries a flag that starts set. A nested
  dictionary gets a blank line before it, except when it is the first entry of a top-level document
  and the flag is still set; rendering that exception clears the flag for good. The commands' first
  documents hold only scalars, so the second document's heading is the first nested mapping met with
  the flag set: it gets no blank line, and every later nested mapping gets one.
- **The legacy line outputter** (`lib/gitem/outputter/stdout.py`). It prints one `key: value` line.

## Layout

| file | module | what it holds |
|---|---|---|
| `values.dfy` | `Values` | JSON scalars and bodies; Python `str()`, truthiness and `==` on scalars |
| `api_errors.dfy` | `ApiErrors` | `ApiCallError` and the status predicates; the `Failure` union of everything the core raises; `Outcome` |
| `api.dfy` | `Api` | token injection, response classification, the paginated generator as the class `Pager`, the endpoint parameters, and the client class `Api` |
| `analytics.dfy` | `Analytics` | the declared field mappings, normalization of raw objects and of pages |
| `documents.dfy` | `Documents` | record lookup (`record[name]`), ordered dictionaries built from pairs, listings |
| `sorting.dfy` | `Sorting` | a stable descending insertion sort on (key, item) pairs |
| `ranking.dfy` | `Ranking` | `sorted(..., key=..., reverse=True)` over records, including the key errors; the administrator and popularity keys |
| `repr.dfy` | `Repr` | Python 3 `repr` of a string and of a pair of strings, with a reader for the round trip |
| `commands.dfy` | `Commands` | the three commands as functions producing the printed documents and the raised exception; `main`'s exception handler |
| `output_stdout.dfy` | `OutputStdout` | the renderer: the specification function `Render` and the class `Stdout` with its methods |
| `outputter_stdout.dfy` | `OutputterStdout` | the legacy line function |

How the model is built:

- The transport is a function from a request to a decoded response. It is a constant of an `Api`
  object, and a ghost log `sent` records every request handed to it.
- The paginated generator is the class `Pager`. Each call of `Next` is one pull of the generator.
- A command is a function of what its fetches returned. A `Run` holds the documents printed in order
  and the exception that ended the command, if one did.

## Model

| member | source | states |
|---|---|---|
| ApiErrors.DocumentationUrl | lib/gitem/api.py:49 | `message.get('documentation_url')`: present exactly when the payload is an object holding that key, and then it is that key's value |
| ApiErrors.ClassificationsExclusive | lib/gitem/api.py:21-43 | at most one of the six status predicates holds; exactly one holds iff the code is 400, 401, 403, 404, 409 or 422 |
| ApiErrors.RateLimitingIsForbidden | lib/gitem/api.py:45-50 | a rate-limiting error is a 403 and has none of the other five classifications |
| ApiErrors.RateLimitingCharacterized | lib/gitem/api.py:15-50 | a response is rate limiting iff its code is 403 and its object payload's `documentation_url` is the rate-limiting URL |
| Api.Authorized | lib/gitem/api.py:82-86 | keeps every caller parameter; adds `access_token` with the token exactly when the token is non-empty; otherwise changes nothing |
| Api.AuthorizedIdempotent | lib/gitem/api.py:85-86 | adding the token a second time changes nothing, so a reused parameter dictionary sends the same query |
| Api.Classify | lib/gitem/api.py:90-93 | success iff the response is ok, in which case the response is returned; otherwise an `ApiCallError` carrying the status code and payload |
| Api.JsonResult | lib/gitem/api.py:103-105 | success iff the response is ok, giving (body, status); otherwise the same failure as `call` |
| Api.StepFor | lib/gitem/api.py:118-119 | a pull yields iff the response is ok, and then it yields that response's body and status; otherwise it raises the failure `call` raises for that response |
| Api.Advance | lib/gitem/api.py:116-121 | with nothing pending the generator stops and stays stopped; a next URL remains only after a yield |
| Api.Trace | lib/gitem/api.py:116-121 | n pulls produce exactly n steps |
| Api.Issued | lib/gitem/api.py:116-118 | n pulls issue at most n requests |
| Api.TraceAt | lib/gitem/api.py:116-121 | the j-th pull is the step for the URL pending after j pulls |
| Api.PendingStaysNone | lib/gitem/api.py:116-121 | once no URL is pending, none ever is again |
| Api.TracePrefix | lib/gitem/api.py:116-121 | pulling more never changes earlier steps |
| Api.TraceSettles | lib/gitem/api.py:116-121 | after a stop or a raise, every later pull stops |
| Api.IssuedShape | lib/gitem/api.py:116-121 | request j goes to the URL pending after j pulls, with the method and the authorized query |
| Api.PaginationFollowsNextLinks | lib/gitem/api.py:107-121 | the first request is to the endpoint URL; each later request is to the previous successful response's next link; every request uses the same method and query; the steps match the responses in order, followed only by stops |
| Api.FailureAfterYields | lib/gitem/api.py:117-120 | a failure on request k surfaces after exactly k-1 yields, and nothing further is requested |
| Api.NoNextLinkEnds | lib/gitem/api.py:120-121 | a response without a next link is the last request; every later pull stops |
| Api.Collect | lib/gitem/analytics.py:56-57 | draining a generator keeps its yields up to the first stop or raise, and records the raise if there was one |
| Api.CollectBeforeStops | lib/gitem/analytics.py:56-57 | when every pull from position m on stops, draining gives at most m pages |
| Api.CollectedPages | lib/gitem/api.py:116-121 | draining the generator gives, in request order, the body and status of every request it issued, each of which succeeded; if it ends in a failure, that is the failure of the last request, and every earlier request gave a page (the drained pages are what lib/gitem/analytics.py:56-57 iterates) |
| Api.UserRepositoriesParams | lib/gitem/api.py:172-193 | `type`, `sort` and `direction` are checked in that order, and the first bad one gives `ValueError` for that parameter; on success the parameters are exactly the given options, with their values |
| Api.OrganizationRepositoriesParams | lib/gitem/api.py:229-238 | `type` must be absent or one of the six values, else `ValueError`; on success it is sent iff given |
| Api.AnonListedValues | lib/gitem/api.py:278-279 | Python's `in [1, "true"]` accepts exactly `1`, `True` and `"true"` |
| Api.ContributorsParamsAsWritten | lib/gitem/api.py:278-287 | the check as written: it passes iff `anon` is given and listed, so the default `None` is rejected |
| Api.ContributorsDefaultRejectedAsWritten | lib/gitem/api.py:278-280 | as written, calling with no `anon` raises `ValueError` |
| Api.ContributorsParams | lib/gitem/api.py:278-287 | the corrected check: `anon` must be absent or listed; when given and accepted it is sent unchanged |
| Api.ContributorsParamsCorrected | lib/gitem/api.py:278-287 | the correction agrees with the code for every given `anon`, and differs only in accepting the default |
| Api.CommitsParams | lib/gitem/api.py:300-311 | each of `sha`, `path`, `author`, `since` and `until` is sent iff it is truthy, with its value |
| Api.Api.constructor | lib/gitem/api.py:69-71 | the client keeps its token and its requester, and has sent nothing |
| Api.Api.Call | lib/gitem/api.py:78-93 | adds the token to the caller's own dictionary, sends exactly one request with it, and returns the classified response |
| Api.Api.JsonCall | lib/gitem/api.py:95-105 | one request to the base URL + endpoint, giving the body and status, or the failure |
| Api.Api.PaginatedJsonCall | lib/gitem/api.py:107-116 | returns a fresh generator positioned at the base URL + endpoint, and sends nothing until it is pulled |
| Api.Api.GetUser | lib/gitem/api.py:123-135 | one GET of `/users/<name>` with no parameters besides the token |
| Api.Api.GetUsersOrganizations | lib/gitem/api.py:56-62 | without a token it raises `AuthenticationRequiredException` and sends nothing (the guard at lib/gitem/api.py:137-150); with one it does one GET of `/user/orgs` |
| Api.Api.GetUsersPublicOrganizations | lib/gitem/api.py:152-164 | a fresh, unpulled paginated GET of `/users/<name>/orgs` |
| Api.Api.GetUsersPublicRepositories | lib/gitem/api.py:166-197 | fails, without sending, exactly when the parameter check fails, with its error; otherwise a paginated GET of `/users/<name>/repos` with the checked parameters |
| Api.Api.GetPublicOrganization | lib/gitem/api.py:199-211 | one GET of `/orgs/<org>` |
| Api.Api.GetOrganization | lib/gitem/api.py:213-221 | guarded: without a token it raises and sends nothing; with one it is the public organization GET |
| Api.Api.GetOrganizationsPublicRepositories | lib/gitem/api.py:223-242 | fails, without sending, exactly on a bad `type`; otherwise a paginated GET of `/orgs/<org>/repos` |
| Api.Api.GetOrganizationsPublicMembers | lib/gitem/api.py:244-256 | a paginated GET of `/orgs/<org>/public_members` |
| Api.Api.GetPublicRepository | lib/gitem/api.py:258-270 | one GET of `/repos/<owner>/<repo>` |
| Api.Api.GetRepositoryContributors | lib/gitem/api.py:272-291 | the endpoint with the corrected `anon` check of the finding below: it fails, without sending, exactly when that check fails; otherwise a paginated GET of `/repos/<owner>/<repo>/contributors` |
| Api.Api.GetRepositoryContributorsAsWritten | lib/gitem/api.py:272-291 | the endpoint as the code is written: it fails with `ValueError` for `anon`, without sending, exactly when the as-written check fails, which includes the default `anon=None`; otherwise the same paginated GET |
| Api.Api.GetRepositoryCommits | lib/gitem/api.py:293-315 | a paginated GET of `/repos/<owner>/<repo>/commits` with the truthy filters |
| Api.Pager.constructor | lib/gitem/api.py:114-116 | a generator at the start URL with nothing pulled yet; its query is the authorized parameters |
| Api.Pager.Next | lib/gitem/api.py:116-121 | one pull: it appends exactly the step of the pagination specification, and sends a request iff a URL was pending, to that URL with the query |
| Analytics.HumanNames | lib/gitem/analytics.py:12-23 | the output names of a mapping, in its declared order |
| Analytics.Keys | lib/gitem/analytics.py:25-28 | the keys of a record, in order |
| Analytics.Normalize | lib/gitem/analytics.py:25-28 | succeeds iff every declared field is present; then it gives one entry per declared field, in declared order, with that field's raw value; otherwise some declared field was absent (`KeyError`) |
| Analytics.NormalizedKeys | lib/gitem/analytics.py:11-28 | a normalized record has exactly the declared human-readable names, in declared order |
| Analytics.NormalizeReadsOnlyDeclared | lib/gitem/analytics.py:25-28 | two raw objects that agree on the declared fields normalize alike |
| Analytics.ExtraFieldsIgnored | lib/gitem/analytics.py:25-28 | fields that the mapping does not declare have no effect |
| Analytics.PageRecords | lib/gitem/analytics.py:56-57 | an array page gives its objects; iterating an object page gives its keys, which cannot be indexed (`TypeError`) unless the object is empty |
| Analytics.NormalizeAll | lib/gitem/analytics.py:51-58 | succeeds iff every record is complete, giving one normalized record per raw record in order; otherwise it gives a failure of one of them |
| Analytics.UniformKeys | lib/gitem/analytics.py:51-58 | every record of a normalized list has the declared keys in order |
| Analytics.NormalizeAllAppend | lib/gitem/analytics.py:56-57 | normalizing a concatenation fails first in the first part, else in the second, else gives the concatenation |
| Analytics.PagesFlatten | lib/gitem/analytics.py:56-57 | normalizing page by page equals normalizing the flattened records of all pages |
| Analytics.StatusesIgnored | lib/gitem/analytics.py:56 | the pages' status codes do not affect the result |
| Analytics.NormalizePages | lib/gitem/analytics.py:51-60 | a page error wins; otherwise the generator's own failure is raised; it succeeds only when both are absent |
| Analytics.OrganizationInformation | lib/gitem/analytics.py:6-30 | the call's failure propagates; an array payload is a `TypeError`; an object is normalized with the ten organization fields |
| Analytics.OrganizationRepositories | lib/gitem/analytics.py:33-60 | every record has the nine repository names, in order |
| Analytics.OrganizationMembers | lib/gitem/analytics.py:63-84 | every record has `Username`, `Site Administrator` and `Github URL`, in order |
| Analytics.RepositoryContributors | lib/gitem/analytics.py:87-108 | every record has `Username` and `Contributions`, in order |
| Analytics.PagedKeys | lib/gitem/analytics.py:51-58 | every record normalized from pages has the declared keys in order |
| Analytics.DeclaredMappings | lib/gitem/analytics.py:12-23 | the four mappings' output names, exactly and in order (also lines 39-49, 69-73 and 94-97), with no name used twice in any mapping |
| Documents.Field | lib/gitem/__main__.py:39 | `record[name]` gives a value stored under `name`, or `KeyError` for that name |
| Documents.FieldAt | lib/gitem/__main__.py:50 | the first entry under a key is the one a lookup finds |
| Documents.FieldMissing | lib/gitem/__main__.py:50 | a lookup of a name that no entry carries raises `KeyError` |
| Documents.NormalizedField | lib/gitem/__main__.py:65-67 | a normalized record's lookup under a declared output name gives that field's raw value |
| Documents.RecordDoc | lib/gitem/__main__.py:50-53 | `OrderedDict(record.items())`: the same entries, in the same order |
| Documents.AssignFresh | lib/gitem/__main__.py:49-55 | assigning a new key to an ordered dictionary appends the entry |
| Documents.AssignExisting | lib/gitem/__main__.py:49-55 | assigning a present key keeps its position and its original key object, and replaces only the value |
| Documents.AssignKeys | lib/gitem/__main__.py:49-55 | assignment introduces no key except the assigned one |
| Documents.AssignDistinct | lib/gitem/__main__.py:49-55 | assignment keeps the keys pairwise distinct under Python's `==` |
| Documents.FromPairsDistinct | lib/gitem/__main__.py:49-55 | an ordered dictionary built from pairs never holds two equal keys |
| Documents.FromPairsIdentity | lib/gitem/__main__.py:49-55 | pairs with distinct keys give the same entries in the same order |
| Documents.KeyedEntries | lib/gitem/__main__.py:50-54 | succeeds iff every record has the key field; then there is one pair per record, in order, with its key and its items; otherwise `KeyError` for that field |
| Documents.Listing | lib/gitem/__main__.py:48-56 | the one-entry document titled `title`, which succeeds exactly when every record has the key field |
| Documents.ListingEntries | lib/gitem/__main__.py:48-56 | with distinct keys, a listing has one entry per record, in record order, each holding that record's items |
| Sorting.WithKey | lib/gitem/__main__.py:41-45 | the pairs with key k, in order |
| Sorting.InsertPermutes | lib/gitem/__main__.py:41-45 | insertion adds exactly the inserted pair |
| Sorting.InsertKeepsOrder | lib/gitem/__main__.py:41-45 | insertion keeps keys non-increasing |
| Sorting.InsertWithKey | lib/gitem/__main__.py:41-45 | an inserted pair goes in front of the pairs that share its key |
| Sorting.SortOrders | lib/gitem/__main__.py:41-45 | the sorted pairs have non-increasing keys (`reverse=True`) |
| Sorting.SortPermutes | lib/gitem/__main__.py:41-45 | the sort is a permutation |
| Sorting.SortStable | lib/gitem/__main__.py:41-45 | the pairs of every key keep their input order (Python's sort is stable, also under `reverse=True`) |
| Sorting.SortOrderedIdentity | lib/gitem/__main__.py:70-74 | input that is already in order comes back unchanged |
| Sorting.ItemsInsert | lib/gitem/__main__.py:41-45 | insertion adds the pair's item to the items |
| Sorting.ItemsSort | lib/gitem/__main__.py:41-45 | sorting permutes the items |
| Ranking.Ordinal | lib/gitem/__main__.py:38-39 | booleans sort as 0 and 1, integers as themselves, and nothing else has an ordinal |
| Ranking.Rank | lib/gitem/__main__.py:41-45 | an orderable key sorts by its ordinal |
| Ranking.KeyValues | lib/gitem/__main__.py:41-45 | all keys are computed first: it succeeds iff every key does, giving them in order; otherwise it gives the failure of the first key that fails |
| Ranking.Ranked | lib/gitem/__main__.py:41-45 | each record paired with its rank, in order |
| Ranking.SortedBy | lib/gitem/__main__.py:41-45 | a successful sort has as many records as the input |
| Ranking.SortedByOutcome | lib/gitem/__main__.py:41-45 | succeeds iff every key is computed and (there are fewer than two records or every key is a boolean or integer); if every key is computed, the failure is `TypeError`; otherwise it is the first key's failure |
| Ranking.RankedItems | lib/gitem/__main__.py:41-45 | ranking keeps the records |
| Ranking.SortConsistent | lib/gitem/__main__.py:41-45 | after sorting, every record stays next to its own rank |
| Ranking.SortedByPermutes | lib/gitem/__main__.py:41-45 | the sorted records are a permutation of the input |
| Ranking.SortedByOrders | lib/gitem/__main__.py:41-45 | the sorted records' keys never increase |
| Ranking.SameRank | lib/gitem/__main__.py:41-45 | the records of one rank, each drawn from the input |
| Ranking.WithKeyItems | lib/gitem/__main__.py:41-45 | selecting one key among ranked pairs selects the records of that rank |
| Ranking.SortedByStable | lib/gitem/__main__.py:41-45 | records whose keys tie keep their input order |
| Ranking.SortedByOrderedIdentity | lib/gitem/__main__.py:70-74 | records already in descending key order come back unchanged |
| Ranking.IntValue | lib/gitem/__main__.py:65-67 | `int(x)`: a lookup failure propagates; a boolean or integer gives its integer value; `None` is a `TypeError` |
| Ranking.Popularity | lib/gitem/__main__.py:63-68 | succeeds iff all three counts convert, and then it is the integer watchers + stars + forks; otherwise it gives the first failing count's error, in the order watchers, stars, forks |
| Ranking.PopularityOrders | lib/gitem/__main__.py:63-74 | when every popularity is computed, the sort succeeds and watchers + stars + forks never increase along the result |
| Ranking.AdministratorsFirst | lib/gitem/__main__.py:38-45 | when every member has a boolean flag, the sort succeeds and no site administrator follows a non-administrator |
| Repr.QuoteFor | lib/gitem/__main__.py:192 | `repr` uses double quotes exactly when the text has a `'` and no `"`, and single quotes otherwise |
| Repr.HexValue | lib/gitem/__main__.py:192 | a lower-case hexadecimal digit reads back as its position in the digit table |
| Repr.EscapeChar | lib/gitem/__main__.py:192 | a character is written as itself iff it is not the quote, a backslash, tab, newline, carriage return or a `\xNN` character, and its escaped form never contains the quote as its first character |
| Repr.Escape | lib/gitem/__main__.py:192 | the escaped text is at least as long as the text |
| Repr.StrRepr | lib/gitem/__main__.py:192 | a literal opens and closes with the chosen quote |
| Repr.PairRepr | lib/gitem/__main__.py:192 | a printed pair is parenthesised |
| Repr.ScanLiteral | lib/gitem/__main__.py:192 | a literal is read only from text that starts with a quote |
| Repr.ScanEscaped | lib/gitem/__main__.py:192 | the inside of a literal reads back as its text, and the reader stops right after the closing quote |
| Repr.StrReprRoundTrip | lib/gitem/__main__.py:192 | `repr` of a string loses nothing: reading it back gives the string and leaves the following text untouched |
| Repr.PairReprRoundTrip | lib/gitem/__main__.py:192 | `str((name, email))` reads back as the pair |
| Repr.PairReprInjective | lib/gitem/__main__.py:190-195 | distinct pairs print as distinct lines |
| Repr.ReprExamples | lib/gitem/__main__.py:192 | `'ab'` for `ab`, double quotes for `it's`, and `('a', 'b')` for the pair |
| Commands.Shown | lib/gitem/__main__.py:47 | `xs[:len(xs) if verbose else CONCISE_COUNT]` is a prefix: all of it when verbose or when short, otherwise exactly five entries (CONCISE_COUNT at lib/gitem/__main__.py:19) |
| Commands.Perform | lib/gitem/__main__.py:31-85 | the documents printed are the successful steps before the first failure, in order; the command raises iff some step failed, and then it raises that step's exception |
| Commands.PerformStopsAt | lib/gitem/__main__.py:31-85 | when step k is the first to fail, exactly k documents are printed and step k's exception is raised |
| Commands.PerformAll | lib/gitem/__main__.py:31-85 | when every step succeeds, every document is printed and nothing is raised |
| Commands.OrganizationRun | lib/gitem/__main__.py:22-85 | at most three documents, all three iff nothing is raised; a failed organization fetch prints nothing; the first document is the organization's record; a member fetch failure stops after one document; the second document exists only if the member sort succeeded; a repository fetch failure stops after two documents |
| Commands.OrganizationListsRanked | lib/gitem/__main__.py:41-85 | when everything succeeds and the keys are unique, the second document lists the first shown members of the administrator-sorted order, and the third lists the first shown repositories of the popularity order |
| Commands.Repository | lib/gitem/__main__.py:88-116 | at most two documents, both iff nothing is raised; the first is the repository's record; a contributor fetch failure stops after one document with that failure |
| Commands.RepositoryAsWritten | lib/gitem/__main__.py:88-116 | with the contributors call as written (the default `anon` raises `ValueError` before any request, lib/gitem/api.py:279-280, lib/gitem/analytics.py:86-89), the contributors are that failure and the run is exactly the repository's record followed by `ValueError` |
| Commands.ContributorsInApiOrder | lib/gitem/__main__.py:101-116 | when fetches succeed and usernames are unique, the contributors document lists the first shown contributors in API order, unsorted |
| Commands.ListingOfUnique | lib/gitem/__main__.py:48-56 | records with unique keys give a listing with one entry per record, in order |
| Commands.ListingStepLists | lib/gitem/__main__.py:136-145 | a listing step over records with unique keys lists exactly the shown records |
| Commands.SortedListingStepLists | lib/gitem/__main__.py:41-56 | a sorted listing step lists the first shown records of the sorted order |
| Commands.GatherEmails | lib/gitem/__main__.py:178-188 | succeeds iff every repository's e-mails are fetched; then a pair is in the union iff some repository has it; otherwise it gives the first repository's failure |
| Commands.Enumerate | lib/gitem/__main__.py:191-194 | iterating a set visits each element exactly once and nothing else |
| Commands.EmailsDoc | lib/gitem/__main__.py:190-195 | one `Emails` list holding the printed pairs, in order |
| Commands.PrintedPairs | lib/gitem/__main__.py:190-195 | a pair's line appears iff the pair is listed |
| Commands.PrintedOnce | lib/gitem/__main__.py:190-195 | pairs listed once each print as lines that appear once each |
| Commands.EmailLines | lib/gitem/__main__.py:188-195 | the listing of a set prints each pair of the set on exactly one line, and nothing else |
| Commands.User | lib/gitem/__main__.py:119-195 | at most four documents, all four iff nothing is raised; a failed user fetch prints nothing; the first document is the user's record; an organization failure stops after one document; a repository failure stops after two |
| Commands.UserListsShown | lib/gitem/__main__.py:130-159 | once the record, organizations and repositories are fetched, at least three documents are printed; the second lists the shown organizations and the third the shown repositories, each in API order, all of them when verbose and otherwise the first five |
| Commands.UserEmailsDoc | lib/gitem/__main__.py:163-195 | when `user` completes, every repository had a name, every e-mail fetch succeeded, and the last document lists the union |
| Commands.EmailsFromAllRepositories | lib/gitem/__main__.py:163-195 | when `user` completes, a pair is printed iff it is among the commit e-mails of some repository of the user, over all of them rather than only the shown ones, and no line is printed twice |
| Commands.Guarded | lib/gitem/__main__.py:284-306 | what was printed stays; rate limiting adds the error and the documentation link; a 404 adds the not-found error; the exception propagates unchanged iff it is not an `ApiCallException` that is rate limiting or not found |
| OutputStdout.ListLines | lib/gitem/output/stdout.py:41-42 | one line per element, indented one level deeper |
| OutputStdout.FlagAfter | lib/gitem/output/stdout.py:24-29 | after rendering, the first-recurse flag is set iff it was set before and the rendering did not start with a nested mapping at the top level; once cleared it stays cleared |
| OutputStdout.EntryFlag | lib/gitem/output/stdout.py:26-29 | one entry clears the flag only when it is the first top-level nested mapping |
| OutputStdout.FlagIrrelevantBelowTop | lib/gitem/output/stdout.py:26 | below the top level the flag does not affect the lines |
| OutputStdout.EntryFlagIrrelevant | lib/gitem/output/stdout.py:26 | only the first top-level entry depends on the flag |
| OutputStdout.FlagSuppressesLeadingBlank | lib/gitem/output/stdout.py:26-31 | the flag's whole effect: with it cleared, a top-level mapping whose first entry is a nested mapping prints exactly one more line, a leading blank one; otherwise the lines are the same |
| OutputStdout.FirstBlank | lib/gitem/output/stdout.py:26-31 | for the first entry alone, the cleared flag adds exactly the leading blank line before a nested mapping |
| OutputStdout.LaterBlank | lib/gitem/output/stdout.py:24-31 | that one extra blank line carries over, unchanged, as each later entry is rendered |
| OutputStdout.FirstEntryBlank | lib/gitem/output/stdout.py:26-34 | with the flag cleared, a nested mapping at the top gets a blank line, its heading, then its body |
| OutputStdout.RenderIndented | lib/gitem/output/stdout.py:23-49 | nothing is printed left of the depth it is rendered at |
| OutputStdout.EntryIndented | lib/gitem/output/stdout.py:25-49 | every line of an entry is blank or indented at least to its depth |
| OutputStdout.Stdout.constructor | lib/gitem/output/stdout.py:18-19 | a new renderer has its flag set and has printed nothing |
| OutputStdout.Stdout.OutputHelper | lib/gitem/output/stdout.py:23-49 | appends exactly the rendering of the entries, in order, and leaves the flag as the rendering says |
| OutputStdout.Stdout.OutputEntry | lib/gitem/output/stdout.py:25-49 | one pass of the loop: appends exactly that entry's rendering |
| OutputStdout.Stdout.OutputDict | lib/gitem/output/stdout.py:25-36 | a nested mapping: a blank line unless it leads the output, its heading, then its entries two columns deeper |
| OutputStdout.Stdout.OutputList | lib/gitem/output/stdout.py:37-42 | a list: its heading, then one line per element two columns deeper; the flag is unchanged |
| OutputStdout.Stdout.OutputScalar | lib/gitem/output/stdout.py:43-49 | a scalar: one line, `key:` for the empty string and `key: value` otherwise |
| OutputStdout.Stdout.Output | lib/gitem/output/stdout.py:51-52 | a whole document, rendered from depth 0 |
| OutputStdout.BasicOutput | lib/gitem/output/stdout.py:43-49 | a single pair prints as `key: value` |
| OutputStdout.ListOutput | lib/gitem/output/stdout.py:37-42 | the nested list example |
| OutputStdout.RecurseOutput | lib/gitem/output/stdout.py:25-36 | the nested mapping example, with its blank line |
| OutputStdout.NewlineOutput | lib/gitem/output/stdout.py:25-36 | the seven lines of a document of one scalar and two nested mappings: `key2:` and `key4:` each get a leading blank line, because each follows a scalar or an earlier entry |
| OutputterStdout.Line | lib/gitem/outputter/stdout.py:17-23 | `depth` spaces, then `key: value` when the value is truthy and `key:` otherwise; no newline unless key or value holds one |
| OutputterStdout.DefaultLine | lib/gitem/outputter/stdout.py:17 | with the defaults, the line is the key and a colon, unindented |
| OutputterStdout.AgreesWithRenderer | lib/gitem/outputter/stdout.py:18-21 | the legacy line and the renderer's scalar line agree iff the value is not one of the falsy non-strings, which the renderer prints and the legacy outputter drops |
| Values.Text | lib/gitem/output/stdout.py:47 | `str()` of a string is the string itself, and that of any other scalar is non-empty |
| Values.Digits | lib/gitem/output/stdout.py:47 | decimal digits only, at least one |
| Values.DigitsDenote | lib/gitem/output/stdout.py:47 | the digits `str()` prints for a natural number read back as that number |
| Values.ScalarEqualsEquivalence | lib/gitem/__main__.py:49-55 | Python's `==` on scalars is an equivalence, so it can key a dictionary |
| Values.Spaces | lib/gitem/output/stdout.py:34 | `" " * n` is n spaces |

## Left out

- Api.Api.GetRepositoryContributors: it follows the corrected `anon` check. The code as written, which rejects the default, is modelled by `Api.Api.GetRepositoryContributorsAsWritten` (see Findings).
- Commands.Repository, Commands.ContributorsInApiOrder, Analytics.RepositoryContributors: these describe the program with the corrected `anon` check. As written, the contributors are `Paged([], Some(InvalidArgument("anon")))` and the run is `Repository(info, Paged([], Some(InvalidArgument("anon"))), verbose)`: one document, then `ValueError`, as `Commands.RepositoryAsWritten` states. `main` does not catch that error.
- The HTTP transport is a parameter (`requester`). The `Accept` header is not modelled because it never changes what the client does.
- `ApiCallException.__str__` is not modelled because it only formats text for display.
- The worker-process pool in `user` is left out. The sequential path is modelled, and it computes the same list of e-mail sets.
- `parse_args` and the command dispatch in `main` are left out. They are argument parsing; the commands and the exception handler are modelled.
- The JSON output backend and the abstract base classes of both output packages are not part of this model.
- `get_user_information`, `get_user_organizations`, `get_user_repositories`, `get_repository_commit_emails` and `get_repository_information` are called by the commands but are not defined in the analytics module. Their results are inputs of `Commands.User` and `Commands.Repository`.
- Commands.Organization: the end-to-end composition of fetch, analytics and command carries no contract of its own. Its properties are stated on `Commands.OrganizationRun`, over the analytics results.
- Commands.OrganizationRun, Commands.Repository, Commands.User: the documents are values handed to one `Stdout` object. The lines that object prints across several documents are stated by the `OutputStdout` lemmas, not composed per command.
- Commands.User: it is a ghost function because the order of set iteration is not fixed by the language. `Commands.Enumerate` picks some order, and every property is stated for any order.
- Ranking.SortedBy: a list of two or more string keys is modelled as `TypeError`. Python would sort strings lexicographically, but the keys used here are booleans and integers.
- Ranking.IntValue: `int()` of a string is not parsed. It is modelled as `TypeError`, like `None`.
- Repr.EscapeChar: Python also writes `\x`, `\u` or `\U` escapes for non-printable characters above U+00FF. Those characters are written as themselves here, and the Python 2 `u''` prefix is not modelled.
- Values.Scalar: JSON numbers with a fraction, which the HTTP library decodes as Python floats, are not modelled. None of the GitHub fields the analytics layer maps is a float.
- Raw records hold only scalar fields. A nested object or array in an API record is outside the model.
- A 403 response whose payload is an array (which would make `message.get` fail) is read as not rate limiting.
- Ordered dictionaries assume Python 3.7 insertion order for the plain `dict` comprehensions of the analytics layer.
- Commands.ContributorsInApiOrder, Commands.OrganizationListsRanked: these assume that the key field is unique among the listed records. With duplicates, the ordered dictionary keeps one entry per key; `Documents.AssignExisting` and `Documents.FromPairsDistinct` state what happens then.
- The repository mapping has nine fields with no clone URL, as in `lib/gitem/analytics.py:39-49`. The test suite expects a `Clone URL` field, which the code does not produce.

## Findings

| source | as written | input that shows it | evidently intended | confidence | as-written member | corrected member |
|---|---|---|---|---|---|---|
| lib/gitem/api.py:279 | the guard tests the builtin `type`, which is never `None`, so `anon not in [1, "true"]` alone decides | `get_repository_contributors(owner, repo)` with the default `anon=None` raises `ValueError`; so `gitem repository` prints the repository's record and then ends with an uncaught `ValueError` (`Commands.RepositoryAsWritten`) | `anon is not None`, so the default is accepted and `anon` is left out of the query | not executed | Api.ContributorsParamsAsWritten and Api.Api.GetRepositoryContributorsAsWritten (shown by Api.ContributorsDefaultRejectedAsWritten) | Api.ContributorsParams (Api.ContributorsParamsCorrected) |
