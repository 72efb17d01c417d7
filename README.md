# theirstack-apollo-sync: the sync pipeline in Dafny

The sync finds companies that recently adopted Apollo.io and records each one once. One run does this:

1. It asks the TheirStack search API for the adopters, page by page.
2. It drops every company whose domain is already recorded in a Google worksheet, or that repeats within the fetch.
3. It appends the rest to the worksheet.
4. It submits them to Apollo's bulk account creation, in batches of 100.

The process exit code says whether every step succeeded.

The model takes the program's own form:

- **Models (`models.dfy`).** A `Company` is a value. `NewCompany` is the dataclass constructor together with its domain normalisation.
- **Deduplication (`deduplication.dfy`).** The filter is a loop method, `FilterCompanies`, proved against a specification function `Filter`. `DeduplicationService` is a class with the cached field `existingDomains`.
- **Sheets (`sheets.dfy`).** `SheetsClient` is a class whose worksheet `rows` is a table of string rows. Its read loop and its append are methods.
- **TheirStack (`theirstack.dfy`).** The paginated search is a `while` loop method proved against `Fetch`, which itself is defined as a function of the provider's pages.
- **Apollo (`apollo.dfy`).** The batch loop is a method proved against `BulkCreate`.
- **Sync (`sync.dfy`).** `main` is the method `Run`, proved against the function `RunSpec`. `RunSpec` gives the exit code, the requests sent in order (`Effect`s) and the worksheet the run leaves.

Python's `lower`, `strip`, `rstrip` and `startswith` on ASCII text are in `text.dfy`. `raise_for_status` is `Http.Raises`: a status from 400 to 599 raises.

External services are replaced by data:

- The search provider is `pages`, its responses to pages 0, 1, 2, … in order.
- Apollo is `replies`, its responses to the batch requests in order.
- A request past the end of either sequence gets a successful empty reply. The search loop in src/theirstack_client.py:54-114 has no bound of its own: a provider that keeps returning full pages of records with an empty name or domain never lets it reach the limit, so it loops forever. In the model the page sequence is finite, so the loop ends at the first page past the end.

Domain normalisation in src/models.py:16-24 is not idempotent. `ModelsExamples.NormalizeNotIdempotent` shows two inputs:

- `"https://http://a"` normalises to `"http://a"`, and then to `"a"`.
- `"a /"` normalises to `"a "`, and then to `"a"`.

What does hold is proved: normalising twice changes nothing when the first result has no surrounding whitespace and no protocol prefix (`Models.NormalizeIdempotentWhenClean`).

A response with a status other than 200 that is outside 400–599 is only logged (src/theirstack_client.py:73-76). `raise_for_status` does not raise for it, so the body is processed as for 200.

## Model

| member | source | states |
|---|---|---|
| Models.StripProtocol | src/models.py:19-22 | the result is a suffix of the input, so it is no longer than it |
| Models.NormalizeShape | src/models.py:16-24 | a normalised domain is no longer than the input, so an empty domain stays empty; it has no upper-case letter and does not end with `/` |
| Models.NewCompany | src/models.py:5-24 | name, source and discovered-at are stored unchanged, with defaults "theirstack" and none; the domain is the normalised one, with no upper-case letter and no longer than the input |
| Models.NormalizeRemovesOnePrefix | src/models.py:17-24 | of the lower-cased, stripped domain, normalisation keeps one contiguous run: everything after `http://` (tested first), after `https://`, or from the start, minus a run made only of trailing slashes |
| Models.NormalizeFixedPoint | src/models.py:16-24 | a domain with no upper-case letter, no surrounding whitespace, no trailing slash and no protocol prefix is left unchanged |
| Models.NormalizeIdempotentWhenClean | src/models.py:16-24 | normalising twice equals normalising once whenever the first result has no surrounding whitespace and no protocol prefix |
| ModelsExamples.NormalizeKeepsSecondPrefix | src/models.py:19-22 | only the outer of two prefixes goes: `"https://http://a"` becomes `"http://a"` |
| ModelsExamples.NormalizeKeepsUncoveredSpace | src/models.py:17-24 | whitespace uncovered by removing slashes is kept: `"a /"` becomes `"a "` |
| ModelsExamples.NormalizeNotIdempotent | src/models.py:16-24 | a second normalisation changes both of those results, to `"a"` |
| ModelsExamples.NormalizeExample | src/models.py:5-24 | `Company("Acme", "HTTPS://Acme.com/")` stores domain `"acme.com"`, source "theirstack" and no date |
| Text.LowerShape | src/models.py:17 | lower-casing leaves no upper-case letter and changes no other character |
| Text.StripShape | src/models.py:17 | `strip()` removes whitespace from both ends and nothing else: the result occurs in the input at some offset, with only whitespace before and after it, and neither starts nor ends with whitespace |
| Text.RStripCharShape | src/models.py:24 | `rstrip("/")` removes exactly the trailing run of slashes: the result is a prefix without a trailing slash, and only slashes follow it |
| Text.LowerStripShape | src/deduplication.py:47 | the key `lower().strip()` is the lower-cased domain with the whitespace at both ends removed: a run of it with only whitespace on either side, with no upper-case letter and no surrounding whitespace |
| Text.LowerStripUnchanged | src/deduplication.py:47 | a string with no upper-case letter and no surrounding whitespace is its own key |
| Deduplication.FilterCompanies | src/deduplication.py:43-62 | the loop returns `Filter` of its input; its keys are exactly the input's non-empty keys not in the worksheet; all are new and pairwise distinct |
| Deduplication.FilterKeys | src/deduplication.py:46-62 | the keys accepted are exactly the non-empty keys of the input that are not already recorded |
| Deduplication.FilterSound | src/deduplication.py:49-61 | no result has an empty key or a recorded key, and no two results share a key |
| Deduplication.FilterSelects | src/deduplication.py:43-62 | the result is the input read at strictly increasing positions: a subsequence in input order, no longer than the input |
| Deduplication.FilterKeepsFirstNew | src/deduplication.py:46-62 | a position is kept if and only if its key is non-empty, not recorded, and appears at no earlier position |
| Deduplication.LastKeptIffFirstNew | src/deduplication.py:49-62 | the same if-and-only-if for the last company of the input |
| Deduplication.FilterTwice | src/deduplication.py:43-62 | filtering an already filtered list against the same keys changes nothing |
| Deduplication.FilterDistinctFixed | src/deduplication.py:43-62 | a list whose keys are all new and pairwise distinct passes unchanged |
| Deduplication.FilterNothingNew | src/deduplication.py:46-62 | companies whose keys are all empty or already recorded are all filtered out |
| Deduplication.DeduplicationService.constructor | src/deduplication.py:21-23 | the service starts with no cached keys and has not read the sheet |
| Deduplication.DeduplicationService.LoadExistingDomains | src/deduplication.py:25-29 | the first call reads the sheet's keys and caches them; later calls return the cache and do not read the sheet again |
| Deduplication.DeduplicationService.FilterNewCompanies | src/deduplication.py:31-67 | filters against the cached keys, loading them on first use; the cache is not changed by filtering |
| Sheets.DataDomainsMembership | src/sheets_client.py:33-36 | a key is collected if and only if some row has at least two cells, a non-empty second cell, and that cell's key |
| Sheets.ExistingDomainsMembership | src/sheets_client.py:27-39 | an empty sheet has no keys; otherwise a key is present exactly when some row after the header records it |
| Sheets.DataDomainsConcat | src/sheets_client.py:33-36 | the keys of two runs of rows are the union of their keys |
| Sheets.RowsOfDomains | src/sheets_client.py:60-63 | the rows written for some companies record exactly the keys of the companies with a non-empty domain |
| Sheets.AppendOnly | src/sheets_client.py:48-66 | appending nothing changes nothing; otherwise the old rows stay as they were, the header comes first on an empty sheet, and one row `[name, domain, source, date or ""]` per company follows, in input order |
| Sheets.AppendThenRead | src/sheets_client.py:20-66 | after an append, reading back gives the old keys plus the key of every appended company with a non-empty domain |
| Sheets.SheetsClient.constructor | src/sheets_client.py:15-18 | the client holds the given worksheet |
| Sheets.SheetsClient.GetExistingDomains | src/sheets_client.py:20-39 | the loop returns the worksheet's keys, and a key is returned if and only if a row after the header records it |
| Sheets.SheetsClient.AppendCompanies | src/sheets_client.py:41-67 | the worksheet becomes the old rows, then the header if the sheet was empty, then the companies' rows; an empty list writes nothing |
| TheirStack.DetectionDateFirstMatch | src/theirstack_client.py:90-96 | the detection date is the date of the first technology entry with the requested slug, and none when no entry matches |
| TheirStack.SliceToPrefix | src/theirstack_client.py:117 | `all_companies[:limit]` is a prefix of the list; for `limit >= 0` its length is `min(limit, length)` |
| TheirStack.PageCompaniesShape | src/theirstack_client.py:86-106 | a page gives at most one company per record, exactly one when every record has a name and a domain; each is sourced "theirstack" and named |
| TheirStack.KeptUpToShape | src/theirstack_client.py:86-106 | every company collected from the first pages is sourced "theirstack" and named |
| TheirStack.FetchLoopGoesOn | src/theirstack_client.py:54-114 | below the limit, a full successful page is collected and the loop goes on with the next page index |
| TheirStack.FetchLoopEnds | src/theirstack_client.py:73-112 | below the limit, a page that raises ends the search with its status; an empty or short page ends it with what was collected, cut to the limit |
| TheirStack.FetchLoopFacts | src/theirstack_client.py:54-117 | from any page on, the loop ends within the provider's pages, requested only below the limit and past full pages, stopping for a stated reason; if it succeeds, none of the pages it requested raised |
| TheirStack.FetchContract | src/theirstack_client.py:51-117 | pages go from 0 while fewer than `limit` companies are held; every page but the last was full and successful; the search fails if and only if a page it requested raised, and then the error is the last page's status, so no partial list is returned; otherwise the result is the pages' kept records in order, cut to `limit`, each sourced "theirstack"; `limit <= 0` requests nothing and returns empty |
| TheirStack.FetchFullPages | src/theirstack_client.py:54-117 | when every page is full and successful and the pages hold at least `limit` kept records, exactly `limit` companies are returned |
| TheirStack.FindDetectionDate | src/theirstack_client.py:90-96 | the inner loop with `break` returns the first matching entry's date |
| TheirStack.CollectPage | src/theirstack_client.py:86-106 | the loop over a page's records returns that page's companies, in page order |
| TheirStack.SearchCompaniesByTechnology | src/theirstack_client.py:28-120 | the search loop returns `Fetch`'s outcome, after the requests for pages 0 up to the last one requested, each for 25 records with the slug and lookback date |
| Apollo.ResolveListId | src/apollo_client.py:38 | a missing or empty list id falls back to the client's list id |
| Apollo.AccountsForShape | src/apollo_client.py:42-49 | one account per company, in order, each with the company's name and domain and the one list id |
| Apollo.BatchCountIndex | src/apollo_client.py:55 | batch `k` exists exactly when it starts inside the account list |
| Apollo.BatchAt | src/apollo_client.py:55-56 | batch `k` is `accounts[100k : 100k + 100]`, and the next batch exists exactly when it starts inside the list |
| Apollo.ConcatBatchesPrefix | src/apollo_client.py:55-56 | the first `k` batches put together are the first `100k` accounts |
| Apollo.BatchesPartition | src/apollo_client.py:55-56 | there are `ceil(n / 100)` batches of 1 to 100 accounts, all but the last exactly 100, and together they are the account list |
| Apollo.BatchesOf250 | src/apollo_client.py:55-56 | 250 accounts go out as 100, 100 and 50 |
| Apollo.Tally | src/apollo_client.py:52-78 | the batch loop never sends more requests than there are batches |
| Apollo.TallyFacts | src/apollo_client.py:52-78 | the loop succeeds if and only if no reply raises, and then it returns the sums of the new and existing counts; otherwise it stops at the first raising reply, whose status is the error |
| Apollo.TallyStep | src/apollo_client.py:70-77 | one more reply either raises or adds its two counts to the totals |
| Apollo.TallyStaysFailed | src/apollo_client.py:70 | once a reply has raised, later batches change nothing |
| Apollo.BulkCreateContract | src/apollo_client.py:35-86 | no company means no request and zero counts; the bulk create fails if and only if some batch's reply raises; the requests carry the API key and the batches in order, and the outcome is the summed counts, or the status of the first raising reply with nothing sent after it |
| Apollo.BatchWithinAccounts | src/apollo_client.py:55-56 | every account in a batch is one of the accounts batched |
| Apollo.BulkCreateSendsOnlyGiven | src/apollo_client.py:42-61 | every request carries the API key, and every account in it belongs to one of the given companies, on the resolved list |
| Apollo.SentAccountsOfPayloads | src/apollo_client.py:55-61 | the requests for the first `n` batches carry exactly those batches' accounts |
| Apollo.BulkCreateSendsAll | src/apollo_client.py:35-78 | a bulk create that succeeds has sent every company's account exactly once, in input order |
| Apollo.BulkCreateAccounts | src/apollo_client.py:20-86 | the batch loop returns `BulkCreate`'s outcome and sends its requests |
| Sync.RunEarlyFailure | src/main.py:29-41 | a missing setting, or a worksheet that cannot be opened, ends the run with 1 before any request and with the worksheet untouched |
| Sync.RunExitCode | src/main.py:23-85 | the exit code is 0 or 1; it is 0 exactly when the settings load, the sheet opens, the fetch succeeds, and any bulk create made succeeds |
| Sync.RunPagesFirst | src/main.py:48-51 | the run starts with the page requests for "apollo-io", pages 0 onwards, searching up to `sync_max_companies`, and no page request comes later |
| Sync.RunAppendsThenCreates | src/main.py:59-74 | after the page requests comes at most one append, of new companies with distinct keys; every request after it is a bulk create with the API key that carries only appended companies, on the configured list |
| Sync.RunNothingNew | src/main.py:54-64 | an empty fetch, or one where every company is a duplicate, ends with 0 after the page requests alone, with the worksheet unchanged |
| Sync.RunCreatesWhatItAppends | src/main.py:67-74 | a run that appends and ends with 0 has sent exactly one account per appended company, in order, on the configured list; a run that appends nothing sends no account |
| Sync.RunAppendOnly | src/main.py:67-85 | the worksheet changes if and only if an append happened, and then it is the old rows plus the appended ones; a failed bulk create does not undo the append |
| Sync.RerunWritesNothing | src/main.py:59-67 | a second run on the worksheet the first one left, with the same pages, appends nothing, creates nothing and leaves the worksheet as it is |
| Sync.BlankDomainDropped | src/theirstack_client.py:87-106 | any named record whose domain is non-empty and made only of whitespace passes the check on the raw domain, becomes a company with an empty domain, and is then filtered out |
| Sync.Run | src/main.py:23-85 | `main` produces `RunSpec`'s exit code and requests, and leaves its worksheet |

## Left out

- HTTP transport is not modelled: URLs, headers, timeouts, JSON encoding and decoding, and response text. A reply is reduced to its status and the parts the code reads. A page is its `data` list. An Apollo reply is the lengths of `new_accounts` and `existing_accounts`.
- A request beyond the given sequence of replies gets a successful empty reply. A network failure or timeout is a raising status.
- The lookback date comes from the clock (`datetime.now()` minus `sync_lookback_days`), so it is a string parameter.
- Opening the spreadsheet through gspread is the boolean `worksheetOpens`. Reading and appending rows on an open worksheet cannot fail in the model.
- `src/config.py` is reduced to the three settings the modelled run needs: the Apollo API key, the Apollo list id and `sync_max_companies`. A missing required variable is `config == None`. A malformed JSON or integer value raises outside `main`'s handler, and an unknown log level fails in `setup_logging`; neither is modelled.
- Logging, `load_dotenv` and `setup_logging` are not modelled.
- Unicode is not modelled. `lower()` folds ASCII letters only, and `strip()` removes only the ASCII characters that `str.isspace` accepts.
- Raw JSON values are assumed to be strings or absent. A missing `name` or `domain` is `""`, a missing slug or date is `None`, and `null` or non-string values are not modelled.
- Models.NewCompany: the domain is computed by the pure `Normalize` rather than by overwriting `self.domain` step by step. A company is never changed after it is built.
- Deduplication.DeduplicationService.LoadExistingDomains: a reload after the sheet changes is not modelled. The source never does one.
- The summary counters of a run are not modelled, because `main` only logs them. The exit code and the requests sent are modelled.
