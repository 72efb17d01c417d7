/**
 * The paginated company search of src/theirstack_client.py.
 *
 * The HTTP service is replaced by `pages`, the responses it gives to page
 * 0, 1, 2, ... in order; a request past the end gets a successful empty
 * page.  The clock-derived lookback date is a parameter.
 */
module TheirStack {
  import opened Wrappers
  import opened Text
  import opened Models
  import opened Http

  /** The provider returns at most this many records per page. */
  const PageSize: nat := 25

  /** The default of the `limit` parameter. */
  const DefaultLimit: int := 200

  /** One entry of a record's `technologies`; a missing key is `None`. */
  datatype Technology = Technology(slug: Option<string>, firstDateFound: Option<string>)

  /** One entry of a page's `data`; a missing `name` or `domain` is the empty string. */
  datatype RawCompany = RawCompany(name: string, domain: string, technologies: seq<Technology>)

  /** An HTTP response: its status code and the `data` list of its body (empty when absent). */
  datatype PageResponse = PageResponse(status: int, data: seq<RawCompany>)

  /** The request body fields that vary: slug, lookback date, page size and page index. */
  datatype PageRequest = PageRequest(technologySlug: string, firstDateFoundGte: string, limit: nat, page: nat)

  /** The outcome of a search and the number of pages it requested. */
  datatype FetchRun = FetchRun(outcome: Result<seq<Company>, int>, pagesRequested: nat)

  /** The response to a request for page `page`. */
  function Respond(pages: seq<PageResponse>, page: nat): PageResponse {
    if page < |pages| then pages[page] else PageResponse(200, [])
  }

  /** Python's `s[:k]`: a negative `k` counts from the end. */
  function SliceTo<T>(s: seq<T>, k: int): seq<T> {
    if k >= |s| then s
    else if k >= 0 then s[..k]
    else if |s| + k >= 0 then s[..|s| + k]
    else []
  }

  /** The date of the first technology whose slug is `slug`, if there is one. */
  function DetectionDate(slug: string, techs: seq<Technology>): Option<string> {
    if techs == [] then None
    else if techs[0].slug == Some(slug) then techs[0].firstDateFound
    else DetectionDate(slug, techs[1..])
  }

  /** A raw record becomes a company only when its name and domain are non-empty. */
  predicate IsKept(rec: RawCompany) {
    rec.name != "" && rec.domain != ""
  }

  function CompanyOf(slug: string, rec: RawCompany): Company {
    NewCompany(rec.name, rec.domain, "theirstack", DetectionDate(slug, rec.technologies))
  }

  /** The companies one page contributes, in page order. */
  function PageCompanies(slug: string, data: seq<RawCompany>): seq<Company> {
    if data == [] then []
    else
      var last := data[|data| - 1];
      PageCompanies(slug, data[..|data| - 1]) + (if IsKept(last) then [CompanyOf(slug, last)] else [])
  }

  /** The companies the first `n` pages contribute, in order. */
  function KeptUpTo(slug: string, pages: seq<PageResponse>, n: nat): seq<Company> {
    if n == 0 then [] else KeptUpTo(slug, pages, n - 1) + PageCompanies(slug, Respond(pages, n - 1).data)
  }

  /** The requests for pages `0` to `n - 1`. */
  function RequestsFor(slug: string, date: string, n: nat): seq<PageRequest> {
    seq(n, i requires 0 <= i < n => PageRequest(slug, date, PageSize, i))
  }

  /**
   * The search loop from page `page` on, with `acc` collected so far: it
   * runs while fewer than `limit` companies are collected, fails on a
   * raising status, and stops after an empty or short page.
   */
  function FetchLoop(slug: string, limit: int, pages: seq<PageResponse>, page: nat, acc: seq<Company>): FetchRun
    requires page <= |pages|
    decreases |pages| - page
  {
    if |acc| >= limit then FetchRun(Ok(SliceTo(acc, limit)), page)
    else
      var response := Respond(pages, page);
      if Raises(response.status) then FetchRun(Err(response.status), page + 1)
      else if response.data == [] then FetchRun(Ok(SliceTo(acc, limit)), page + 1)
      else
        var acc' := acc + PageCompanies(slug, response.data);
        if |response.data| < PageSize then FetchRun(Ok(SliceTo(acc', limit)), page + 1)
        else FetchLoop(slug, limit, pages, page + 1, acc')
  }

  /** `search_companies_by_technology` as a function of the provider's pages. */
  function Fetch(slug: string, limit: int, pages: seq<PageResponse>): FetchRun {
    FetchLoop(slug, limit, pages, 0, [])
  }

  /** `DetectionDate` is the date of the first matching entry, and `None` when no entry matches. */
  lemma {:induction false} DetectionDateFirstMatch(slug: string, techs: seq<Technology>)
    ensures (forall i :: 0 <= i < |techs| ==> techs[i].slug != Some(slug)) ==> DetectionDate(slug, techs) == None
    ensures forall i :: 0 <= i < |techs| && techs[i].slug == Some(slug) &&
                        (forall j :: 0 <= j < i ==> techs[j].slug != Some(slug))
                        ==> DetectionDate(slug, techs) == techs[i].firstDateFound
  {
    if techs != [] && techs[0].slug != Some(slug) {
      DetectionDateFirstMatch(slug, techs[1..]);
      assert forall i :: 1 <= i < |techs| ==> techs[i] == techs[1..][i - 1];
    }
  }

  /** `s[:k]` is a prefix of `s`; for `k >= 0` it has `min(k, |s|)` elements. */
  lemma SliceToPrefix<T>(s: seq<T>, k: int)
    ensures |SliceTo(s, k)| <= |s| && SliceTo(s, k) == s[..|SliceTo(s, k)|]
    ensures k >= 0 ==> |SliceTo(s, k)| == if k < |s| then k else |s|
  {
  }

  /** Every company a page contributes comes from a record with a name and a domain, sourced "theirstack". */
  lemma {:induction false} PageCompaniesShape(slug: string, data: seq<RawCompany>)
    ensures var cs := PageCompanies(slug, data);
      && |cs| <= |data|
      && ((forall i :: 0 <= i < |data| ==> IsKept(data[i])) ==> |cs| == |data|)
      && forall c :: c in cs ==> c.source == "theirstack" && c.name != ""
  {
    if data != [] {
      var init := data[..|data| - 1];
      PageCompaniesShape(slug, init);
      assert forall i :: 0 <= i < |init| ==> init[i] == data[i];
    }
  }

  /** Every company collected from the first `n` pages is sourced "theirstack" and named. */
  lemma {:induction false} KeptUpToShape(slug: string, pages: seq<PageResponse>, n: nat)
    ensures forall c :: c in KeptUpTo(slug, pages, n) ==> c.source == "theirstack" && c.name != ""
  {
    if n > 0 {
      KeptUpToShape(slug, pages, n - 1);
      PageCompaniesShape(slug, Respond(pages, n - 1).data);
    }
  }

  /** A page that lets the search go on: successful and holding at least `PageSize` records. */
  predicate FullPage(response: PageResponse) {
    !Raises(response.status) && |response.data| >= PageSize
  }

  /** Pages `from` to `n - 1` were each requested while fewer than `limit` companies were collected. */
  ghost predicate BelowLimitFrom(slug: string, limit: int, pages: seq<PageResponse>, from: nat, n: nat) {
    forall i :: from <= i < n ==> |KeptUpTo(slug, pages, i)| < limit
  }

  /** Every page from `from` up to, not including, the last one requested was full. */
  ghost predicate FullFrom(pages: seq<PageResponse>, from: nat, n: nat) {
    forall i :: from <= i < n - 1 ==> FullPage(Respond(pages, i))
  }

  /**
   * How a search that requested `run.pagesRequested` pages ended: with the
   * raising status of the last page, or with the kept records cut to
   * `limit`, once `limit` was reached or after an empty or short page.
   */
  ghost predicate Stopped(slug: string, limit: int, pages: seq<PageResponse>, run: FetchRun) {
    var n := run.pagesRequested;
    && (run.outcome.Err? ==> n > 0 && run.outcome.error == Respond(pages, n - 1).status && Raises(run.outcome.error))
    && (run.outcome.Ok? ==>
          && run.outcome.value == SliceTo(KeptUpTo(slug, pages, n), limit)
          && (|KeptUpTo(slug, pages, n)| >= limit ||
              (n > 0 && !Raises(Respond(pages, n - 1).status) && |Respond(pages, n - 1).data| < PageSize)))
  }

  /** No page from `from` up to, not including, `n` answered with a raising status. */
  ghost predicate NoneRaisedFrom(pages: seq<PageResponse>, from: nat, n: nat) {
    forall i :: from <= i < n ==> !Raises(Respond(pages, i).status)
  }

  /** What is known of a search that went on from page `page` and ended as `run`. */
  ghost predicate LoopFacts(slug: string, limit: int, pages: seq<PageResponse>, page: nat, run: FetchRun) {
    && page <= run.pagesRequested <= |pages| + 1
    && BelowLimitFrom(slug, limit, pages, page, run.pagesRequested)
    && FullFrom(pages, page, run.pagesRequested)
    && (run.outcome.Err? ==> run.pagesRequested > page)
    && (run.outcome.Ok? ==> NoneRaisedFrom(pages, page, run.pagesRequested))
    && Stopped(slug, limit, pages, run)
  }

  /** The loop goes on past a full page, with that page's companies collected. */
  lemma FetchLoopGoesOn(slug: string, limit: int, pages: seq<PageResponse>, page: nat, acc: seq<Company>)
    requires page <= |pages| && |acc| < limit && FullPage(Respond(pages, page))
    ensures page < |pages|
    ensures FetchLoop(slug, limit, pages, page, acc)
         == FetchLoop(slug, limit, pages, page + 1, acc + PageCompanies(slug, Respond(pages, page).data))
  {
  }

  /** The loop ends at a page that raises, is empty or is short. */
  lemma FetchLoopEnds(slug: string, limit: int, pages: seq<PageResponse>, page: nat, acc: seq<Company>)
    requires page <= |pages| && |acc| < limit && !FullPage(Respond(pages, page))
    ensures var response := Respond(pages, page);
      FetchLoop(slug, limit, pages, page, acc)
        == if Raises(response.status) then FetchRun(Err(response.status), page + 1)
           else FetchRun(Ok(SliceTo(acc + PageCompanies(slug, response.data), limit)), page + 1)
  {
    if Respond(pages, page).data == [] {
      assert acc + PageCompanies(slug, []) == acc;
    }
  }

  /** The companies of the first `j + 1` records of a page. */
  lemma PageCompaniesStep(slug: string, data: seq<RawCompany>, j: nat)
    requires j < |data|
    ensures PageCompanies(slug, data[..j + 1])
         == PageCompanies(slug, data[..j]) + (if IsKept(data[j]) then [CompanyOf(slug, data[j])] else [])
  {
    assert data[..j + 1][..j] == data[..j];
  }

  /** A search that ends at page `page`, without going on to the next one. */
  lemma FetchLoopLast(slug: string, limit: int, pages: seq<PageResponse>, page: nat, acc: seq<Company>)
    requires page <= |pages| && acc == KeptUpTo(slug, pages, page)
    requires !(|acc| < limit && FullPage(Respond(pages, page)))
    ensures LoopFacts(slug, limit, pages, page, FetchLoop(slug, limit, pages, page, acc))
  {
    if |acc| < limit {
      var response := Respond(pages, page);
      var acc' := acc + PageCompanies(slug, response.data);
      assert KeptUpTo(slug, pages, page + 1) == acc';
      if response.data == [] {
        assert acc' == acc;
      }
    }
  }

  /** A search that goes on past the full page `page` ends as the search from the next page does. */
  lemma FetchLoopNext(slug: string, limit: int, pages: seq<PageResponse>, page: nat, acc: seq<Company>)
    requires page <= |pages| && acc == KeptUpTo(slug, pages, page)
    requires |acc| < limit && FullPage(Respond(pages, page))
    ensures page + 1 <= |pages|
    ensures FetchLoop(slug, limit, pages, page, acc) == FetchLoop(slug, limit, pages, page + 1, KeptUpTo(slug, pages, page + 1))
  {
    FetchLoopGoesOn(slug, limit, pages, page, acc);
  }

  /** Facts about the search from page `page + 1` extend to page `page` when page `page` was full. */
  lemma LoopFactsBack(slug: string, limit: int, pages: seq<PageResponse>, page: nat, run: FetchRun)
    requires LoopFacts(slug, limit, pages, page + 1, run)
    requires |KeptUpTo(slug, pages, page)| < limit && FullPage(Respond(pages, page))
    ensures LoopFacts(slug, limit, pages, page, run)
  {
  }

  /** What the loop does from page `page` on, given it collected the first `page` pages. */
  lemma {:induction false} FetchLoopFacts(slug: string, limit: int, pages: seq<PageResponse>, page: nat, acc: seq<Company>)
    requires page <= |pages| && acc == KeptUpTo(slug, pages, page)
    decreases |pages| - page
    ensures LoopFacts(slug, limit, pages, page, FetchLoop(slug, limit, pages, page, acc))
  {
    if |acc| < limit && FullPage(Respond(pages, page)) {
      FetchLoopNext(slug, limit, pages, page, acc);
      FetchLoopFacts(slug, limit, pages, page + 1, KeptUpTo(slug, pages, page + 1));
      LoopFactsBack(slug, limit, pages, page, FetchLoop(slug, limit, pages, page, acc));
    } else {
      FetchLoopLast(slug, limit, pages, page, acc);
    }
  }

  /**
   * The contract of `search_companies_by_technology`: pages are requested
   * from 0 while fewer than `limit` companies are collected; every page but
   * the last was a full, successful one; the search fails exactly when a
   * page it requested raised, and then the error is the status of the last
   * page requested, so no partial list is returned; otherwise the result is the in-order
   * concatenation of the kept records of the pages requested, cut to
   * `limit`, every one sourced "theirstack", and the search stopped because
   * `limit` was reached or the last page was empty or short.
   */
  lemma FetchContract(slug: string, limit: int, pages: seq<PageResponse>)
    ensures var run := Fetch(slug, limit, pages);
      var n := run.pagesRequested;
      && n <= |pages| + 1
      && (limit <= 0 ==> run == FetchRun(Ok([]), 0))
      && (forall i :: 0 <= i < n ==> |KeptUpTo(slug, pages, i)| < limit)
      && (forall i :: 0 <= i < n - 1 ==> FullPage(Respond(pages, i)))
      && Stopped(slug, limit, pages, run)
      && (run.outcome.Ok? <==> forall i :: 0 <= i < n ==> !Raises(Respond(pages, i).status))
      && (run.outcome.Ok? ==>
            && (limit >= 0 ==> |run.outcome.value| <= limit)
            && (forall c :: c in run.outcome.value ==> c.source == "theirstack" && c.name != ""))
  {
    var run := Fetch(slug, limit, pages);
    FetchLoopFacts(slug, limit, pages, 0, []);
    if run.outcome.Ok? {
      var all := KeptUpTo(slug, pages, run.pagesRequested);
      KeptUpToShape(slug, pages, run.pagesRequested);
      SliceToPrefix(all, limit);
      if limit <= 0 {
        assert run.pagesRequested == 0;
      }
      var r := run.outcome.value;
      forall c | c in r ensures c in all {
        var i :| 0 <= i < |r| && r[i] == c;
        assert all[i] == c;
      }
    }
  }

  /**
   * With a provider whose pages all succeed and are full, and which holds
   * at least `limit` kept records, the search returns exactly `limit`
   * companies.
   */
  lemma FetchFullPages(slug: string, limit: int, pages: seq<PageResponse>)
    requires limit >= 0
    requires forall i :: 0 <= i < |pages| ==> !Raises(pages[i].status) && |pages[i].data| >= PageSize
    requires |KeptUpTo(slug, pages, |pages|)| >= limit
    ensures Fetch(slug, limit, pages).outcome.Ok?
    ensures |Fetch(slug, limit, pages).outcome.value| == limit
  {
    var run := Fetch(slug, limit, pages);
    var n := run.pagesRequested;
    FetchContract(slug, limit, pages);
    SliceToPrefix(KeptUpTo(slug, pages, n), limit);
  }

  /** The inner search over a record's technologies, stopping at the first match. */
  method FindDetectionDate(slug: string, techs: seq<Technology>) returns (date: Option<string>)
    ensures date == DetectionDate(slug, techs)
  {
    date := None;
    var i := 0;
    while i < |techs|
      invariant 0 <= i <= |techs|
      invariant DetectionDate(slug, techs) == DetectionDate(slug, techs[i..])
    {
      if techs[i].slug == Some(slug) {
        date := techs[i].firstDateFound;
        break;
      }
      assert techs[i..][1..] == techs[i + 1..];
      i := i + 1;
    }
  }

  /**
   * The inner loop over one page's records: each record with a non-empty
   * name and domain becomes a company dated by its detection date.
   */
  method CollectPage(technologySlug: string, pageData: seq<RawCompany>) returns (companies: seq<Company>)
    ensures companies == PageCompanies(technologySlug, pageData)
  {
    companies := [];
    for j := 0 to |pageData|
      invariant companies == PageCompanies(technologySlug, pageData[..j])
    {
      var companyData := pageData[j];
      var name := companyData.name;
      var domain := companyData.domain;
      var techAddedDate := FindDetectionDate(technologySlug, companyData.technologies);
      PageCompaniesStep(technologySlug, pageData, j);
      if name != "" && domain != "" {
        companies := companies + [NewCompany(name, domain, "theirstack", techAddedDate)];
      }
    }
    assert pageData[..|pageData|] == pageData;
  }

  /**
   * `search_companies_by_technology`: returns the search outcome and the
   * requests it made, which are for pages 0, 1, 2, ... in order, each for
   * `PageSize` records.
   */
  method SearchCompaniesByTechnology(technologySlug: string, lookbackDate: string, pages: seq<PageResponse>,
                                     limit: int := DefaultLimit)
    returns (result: Result<seq<Company>, int>, requests: seq<PageRequest>)
    ensures var run := Fetch(technologySlug, limit, pages);
      result == run.outcome && requests == RequestsFor(technologySlug, lookbackDate, run.pagesRequested)
  {
    var allCompanies: seq<Company> := [];
    var page: nat := 0;
    requests := [];
    while |allCompanies| < limit
      invariant page <= |pages|
      invariant requests == RequestsFor(technologySlug, lookbackDate, page)
      invariant FetchLoop(technologySlug, limit, pages, page, allCompanies) == Fetch(technologySlug, limit, pages)
      decreases |pages| - page
    {
      requests := requests + [PageRequest(technologySlug, lookbackDate, PageSize, page)];
      assert requests == RequestsFor(technologySlug, lookbackDate, page + 1);
      var response := Respond(pages, page);
      if Raises(response.status) {
        FetchLoopEnds(technologySlug, limit, pages, page, allCompanies);
        result := Err(response.status);
        return;
      }
      var pageData := response.data;
      if pageData == [] {
        FetchLoopEnds(technologySlug, limit, pages, page, allCompanies);
        break;
      }
      var pageCompanies := CollectPage(technologySlug, pageData);
      ghost var before := allCompanies;
      allCompanies := allCompanies + pageCompanies;
      if |pageData| < PageSize {
        FetchLoopEnds(technologySlug, limit, pages, page, before);
        break;
      }
      FetchLoopGoesOn(technologySlug, limit, pages, page, before);
      page := page + 1;
    }
    result := Ok(SliceTo(allCompanies, limit));
  }
}
