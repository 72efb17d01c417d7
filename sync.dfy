/**
 * One run of the sync (src/main.py): fetch the companies that recently
 * added Apollo.io, drop those already in the worksheet or repeated, append
 * the rest to the worksheet and bulk-create them as accounts.
 *
 * The run's observable behaviour is its exit code, the requests it sends
 * in order (`Effect`s) and the worksheet it leaves.  A missing setting is
 * `config == None`; a worksheet that cannot be opened is `!worksheetOpens`.
 */
module Sync {
  import opened Wrappers
  import opened Text
  import opened Models
  import opened Sheets
  import opened Deduplication
  import opened TheirStack
  import opened Apollo

  /** The slug of the technology whose adopters are synced. */
  const TechnologySlug: string := "apollo-io"

  /** The settings the run reads. */
  datatype Config = Config(apolloApiKey: string, apolloListId: string, syncMaxCompanies: int)

  /** A request the run sends to one of the three services. */
  datatype Effect =
    | RequestPage(request: PageRequest)
    | AppendToSheet(companies: seq<Company>)
    | BulkCreateCall(payload: Payload)

  datatype RunResult = RunResult(exitCode: int, effects: seq<Effect>, rows: Table)

  function PageEffects(requests: seq<PageRequest>): seq<Effect> {
    seq(|requests|, i requires 0 <= i < |requests| => RequestPage(requests[i]))
  }

  function BulkEffects(sent: seq<Payload>): seq<Effect> {
    seq(|sent|, i requires 0 <= i < |sent| => BulkCreateCall(sent[i]))
  }

  function ClientFor(cfg: Config): ApolloClient {
    ApolloClient(cfg.apolloApiKey, cfg.apolloListId)
  }

  /** The companies a run would append: the fetched ones that are new to the worksheet `rows`. */
  function NewCompaniesOf(companies: seq<Company>, rows: Table): seq<Company> {
    Filter(companies, ExistingDomains(rows))
  }

  /**
   * What `main` does, given the settings, whether the worksheet opens, the
   * lookback date, the worksheet's rows and the replies of the two APIs.
   */
  function RunSpec(config: Option<Config>, worksheetOpens: bool, lookbackDate: string, pages: seq<PageResponse>,
                   rows: Table, replies: seq<BatchResponse>): RunResult
  {
    if config.None? || !worksheetOpens then RunResult(1, [], rows)
    else
      var cfg := config.value;
      var fetch := Fetch(TechnologySlug, cfg.syncMaxCompanies, pages);
      var fetched := PageEffects(RequestsFor(TechnologySlug, lookbackDate, fetch.pagesRequested));
      if fetch.outcome.Err? then RunResult(1, fetched, rows)
      else if fetch.outcome.value == [] then RunResult(0, fetched, rows)
      else
        var newCompanies := NewCompaniesOf(fetch.outcome.value, rows);
        if newCompanies == [] then RunResult(0, fetched, rows)
        else
          var bulk := BulkCreate(ClientFor(cfg), newCompanies, Some(cfg.apolloListId), replies);
          RunResult(if bulk.outcome.Ok? then 0 else 1,
                    fetched + [AppendToSheet(newCompanies)] + BulkEffects(bulk.sent),
                    Appended(rows, newCompanies))
  }

  /** A missing setting or a worksheet that cannot be opened ends the run with 1 before any request. */
  lemma RunEarlyFailure(config: Option<Config>, worksheetOpens: bool, lookbackDate: string,
                        pages: seq<PageResponse>, rows: Table, replies: seq<BatchResponse>)
    requires config.None? || !worksheetOpens
    ensures RunSpec(config, worksheetOpens, lookbackDate, pages, rows, replies) == RunResult(1, [], rows)
  {
  }

  /**
   * The exit code is 0 or 1, and it is 0 exactly when the settings load,
   * the worksheet opens, the fetch succeeds, and, if a bulk create was
   * made, it succeeded.
   */
  lemma RunExitCode(config: Option<Config>, worksheetOpens: bool, lookbackDate: string,
                    pages: seq<PageResponse>, rows: Table, replies: seq<BatchResponse>)
    ensures var r := RunSpec(config, worksheetOpens, lookbackDate, pages, rows, replies);
      && (r.exitCode == 0 || r.exitCode == 1)
      && (r.exitCode == 0 <==>
            && config.Some? && worksheetOpens
            && Fetch(TechnologySlug, config.value.syncMaxCompanies, pages).outcome.Ok?
            && (var cs := Fetch(TechnologySlug, config.value.syncMaxCompanies, pages).outcome.value;
                var added := NewCompaniesOf(cs, rows);
                added != [] ==> BulkCreate(ClientFor(config.value), added, Some(config.value.apolloListId), replies).outcome.Ok?))
  {
  }

  /**
   * The run starts with the page requests for "apollo-io" from page 0 on,
   * as many as the search limited to `sync_max_companies` made, and no
   * page request comes after them.
   */
  lemma RunPagesFirst(config: Option<Config>, worksheetOpens: bool, lookbackDate: string,
                      pages: seq<PageResponse>, rows: Table, replies: seq<BatchResponse>)
    requires config.Some? && worksheetOpens
    ensures var r := RunSpec(config, worksheetOpens, lookbackDate, pages, rows, replies);
      var n := Fetch(TechnologySlug, config.value.syncMaxCompanies, pages).pagesRequested;
      && n <= |r.effects|
      && (forall i :: 0 <= i < n ==> r.effects[i] == RequestPage(PageRequest(TechnologySlug, lookbackDate, PageSize, i)))
      && (forall i :: n <= i < |r.effects| ==> !r.effects[i].RequestPage?)
  {
    var cfg := config.value;
    var fetch := Fetch(TechnologySlug, cfg.syncMaxCompanies, pages);
    var n := fetch.pagesRequested;
    var r := RunSpec(config, worksheetOpens, lookbackDate, pages, rows, replies);
    var fetched := PageEffects(RequestsFor(TechnologySlug, lookbackDate, n));
    if fetch.outcome.Ok? && fetch.outcome.value != [] && NewCompaniesOf(fetch.outcome.value, rows) != [] {
      var added := NewCompaniesOf(fetch.outcome.value, rows);
      var bulk := BulkCreate(ClientFor(cfg), added, Some(cfg.apolloListId), replies);
      assert r.effects == fetched + [AppendToSheet(added)] + BulkEffects(bulk.sent);
      forall i | n < i < |r.effects| ensures r.effects[i] == BulkCreateCall(bulk.sent[i - n - 1]) {
      }
    } else {
      assert r.effects == fetched;
    }
  }

  /**
   * After the page requests comes at most one worksheet append, of
   * companies new to the worksheet with distinct keys; every request after
   * it is a bulk create that carries the API key and holds accounts of the
   * appended companies only.
   */
  lemma RunAppendsThenCreates(config: Option<Config>, worksheetOpens: bool, lookbackDate: string,
                              pages: seq<PageResponse>, rows: Table, replies: seq<BatchResponse>)
    requires config.Some? && worksheetOpens
    ensures var r := RunSpec(config, worksheetOpens, lookbackDate, pages, rows, replies);
      var n := Fetch(TechnologySlug, config.value.syncMaxCompanies, pages).pagesRequested;
      |r.effects| > n ==>
        && r.effects[n].AppendToSheet?
        && AllNew(r.effects[n].companies, ExistingDomains(rows))
        && DistinctKeys(r.effects[n].companies)
        && forall i :: n < i < |r.effects| ==>
             && r.effects[i].BulkCreateCall?
             && r.effects[i].payload.apiKey == config.value.apolloApiKey
             && forall a :: a in r.effects[i].payload.accounts ==>
                  exists c :: c in r.effects[n].companies && a == Account(c.name, c.domain, [config.value.apolloListId])
  {
    var cfg := config.value;
    var fetch := Fetch(TechnologySlug, cfg.syncMaxCompanies, pages);
    var n := fetch.pagesRequested;
    var r := RunSpec(config, worksheetOpens, lookbackDate, pages, rows, replies);
    var fetched := PageEffects(RequestsFor(TechnologySlug, lookbackDate, n));
    if fetch.outcome.Ok? && fetch.outcome.value != [] && NewCompaniesOf(fetch.outcome.value, rows) != [] {
      var added := NewCompaniesOf(fetch.outcome.value, rows);
      var bulk := BulkCreate(ClientFor(cfg), added, Some(cfg.apolloListId), replies);
      assert r.effects == fetched + [AppendToSheet(added)] + BulkEffects(bulk.sent);
      FilterSound(fetch.outcome.value, ExistingDomains(rows));
      forall i | n < i < |r.effects|
        ensures r.effects[i] == BulkCreateCall(bulk.sent[i - n - 1])
        ensures r.effects[i].payload.apiKey == cfg.apolloApiKey
        ensures forall a :: a in r.effects[i].payload.accounts ==>
                  exists c :: c in added && a == Account(c.name, c.domain, [cfg.apolloListId])
      {
        BulkCreateSendsOnlyGiven(ClientFor(cfg), added, Some(cfg.apolloListId), replies, i - n - 1);
      }
    } else {
      assert r.effects == fetched;
    }
  }

  /**
   * A run whose fetch succeeds but brings nothing new to the worksheet,
   * an empty fetch included, ends with 0 after the page requests alone and
   * leaves the worksheet as it was.
   */
  lemma RunNothingNew(config: Option<Config>, worksheetOpens: bool, lookbackDate: string,
                      pages: seq<PageResponse>, rows: Table, replies: seq<BatchResponse>)
    requires config.Some? && worksheetOpens
    requires var fetch := Fetch(TechnologySlug, config.value.syncMaxCompanies, pages);
      fetch.outcome.Ok? && NewCompaniesOf(fetch.outcome.value, rows) == []
    ensures var n := Fetch(TechnologySlug, config.value.syncMaxCompanies, pages).pagesRequested;
      RunSpec(config, worksheetOpens, lookbackDate, pages, rows, replies)
        == RunResult(0, PageEffects(RequestsFor(TechnologySlug, lookbackDate, n)), rows)
  {
  }

  /** The accounts of the bulk-create requests among `effects`, in order. */
  function SentToApollo(effects: seq<Effect>): seq<Account> {
    if effects == [] then []
    else
      var last := effects[|effects| - 1];
      SentToApollo(effects[..|effects| - 1]) + (if last.BulkCreateCall? then last.payload.accounts else [])
  }

  lemma {:induction false} SentToApolloAppend(a: seq<Effect>, b: seq<Effect>)
    ensures SentToApollo(a + b) == SentToApollo(a) + SentToApollo(b)
  {
    if b != [] {
      assert (a + b)[..|a + b| - 1] == a + b[..|b| - 1];
      SentToApolloAppend(a, b[..|b| - 1]);
    } else {
      assert a + b == a;
    }
  }

  lemma {:induction false} SentToApolloPages(requests: seq<PageRequest>)
    ensures SentToApollo(PageEffects(requests)) == []
  {
    if requests != [] {
      assert PageEffects(requests)[..|requests| - 1] == PageEffects(requests[..|requests| - 1]);
      SentToApolloPages(requests[..|requests| - 1]);
    }
  }

  lemma {:induction false} SentToApolloBulk(sent: seq<Payload>)
    ensures SentToApollo(BulkEffects(sent)) == SentAccounts(sent)
  {
    if sent != [] {
      assert BulkEffects(sent)[..|sent| - 1] == BulkEffects(sent[..|sent| - 1]);
      SentToApolloBulk(sent[..|sent| - 1]);
    }
  }

  /**
   * The bulk create receives the list the worksheet received: a run that
   * appends and ends with 0 has sent, over all its bulk-create requests,
   * exactly one account per appended company, in order, each on the
   * configured list; a run that appends nothing sends no account.
   */
  lemma RunCreatesWhatItAppends(config: Option<Config>, worksheetOpens: bool, lookbackDate: string,
                                pages: seq<PageResponse>, rows: Table, replies: seq<BatchResponse>)
    requires config.Some? && worksheetOpens
    ensures var r := RunSpec(config, worksheetOpens, lookbackDate, pages, rows, replies);
      var n := Fetch(TechnologySlug, config.value.syncMaxCompanies, pages).pagesRequested;
      && (|r.effects| == n ==> SentToApollo(r.effects) == [])
      && (|r.effects| > n && r.effects[n].AppendToSheet? && r.exitCode == 0 ==>
            SentToApollo(r.effects) == AccountsFor(r.effects[n].companies, config.value.apolloListId))
  {
    var cfg := config.value;
    var fetch := Fetch(TechnologySlug, cfg.syncMaxCompanies, pages);
    var n := fetch.pagesRequested;
    var r := RunSpec(config, worksheetOpens, lookbackDate, pages, rows, replies);
    var requests := RequestsFor(TechnologySlug, lookbackDate, n);
    var fetched := PageEffects(requests);
    SentToApolloPages(requests);
    if fetch.outcome.Ok? && fetch.outcome.value != [] && NewCompaniesOf(fetch.outcome.value, rows) != [] {
      var added := NewCompaniesOf(fetch.outcome.value, rows);
      var bulk := BulkCreate(ClientFor(cfg), added, Some(cfg.apolloListId), replies);
      assert r.effects == fetched + [AppendToSheet(added)] + BulkEffects(bulk.sent);
      SentToApolloAppend(fetched, [AppendToSheet(added)]);
      assert SentToApollo([AppendToSheet(added)]) == [];
      SentToApolloAppend(fetched + [AppendToSheet(added)], BulkEffects(bulk.sent));
      SentToApolloBulk(bulk.sent);
      if bulk.outcome.Ok? {
        BulkCreateSendsAll(ClientFor(cfg), added, Some(cfg.apolloListId), replies);
      }
    } else {
      assert r.effects == fetched;
    }
  }

  /**
   * A record whose domain is only whitespace passes the fetch's check on
   * the raw domain, becomes a company with an empty domain, and is then
   * dropped by deduplication.
   */
  lemma BlankDomainDropped(slug: string, name: string, domain: string, techs: seq<Technology>, existing: set<string>)
    requires name != "" && domain != ""
    requires forall i :: 0 <= i < |domain| ==> IsSpace(domain[i])
    ensures IsKept(RawCompany(name, domain, techs))
    ensures CompanyOf(slug, RawCompany(name, domain, techs)).domain == ""
    ensures Filter([CompanyOf(slug, RawCompany(name, domain, techs))], existing) == []
  {
    LowerShape(domain);
    LStripShape(Lower(domain));
    assert LowerStrip(domain) == "";
    assert LowerStrip("") == "";
    var c := CompanyOf(slug, RawCompany(name, domain, techs));
    assert [c][..0] == [];
  }

  /**
   * The worksheet is only ever appended to: the run leaves the old rows in
   * place and adds the rows of the companies it appended, if any.  A failed
   * bulk create does not undo the append.
   */
  lemma RunAppendOnly(config: Option<Config>, worksheetOpens: bool, lookbackDate: string,
                      pages: seq<PageResponse>, rows: Table, replies: seq<BatchResponse>)
    ensures var r := RunSpec(config, worksheetOpens, lookbackDate, pages, rows, replies);
      && (r.rows == rows <==> forall i :: 0 <= i < |r.effects| ==> !r.effects[i].AppendToSheet?)
      && forall i :: 0 <= i < |r.effects| && r.effects[i].AppendToSheet? ==>
           r.effects[i].companies != [] && r.rows == Appended(rows, r.effects[i].companies)
  {
    var r := RunSpec(config, worksheetOpens, lookbackDate, pages, rows, replies);
    if config.Some? && worksheetOpens {
      var cfg := config.value;
      var fetch := Fetch(TechnologySlug, cfg.syncMaxCompanies, pages);
      var n := fetch.pagesRequested;
      if fetch.outcome.Ok? && fetch.outcome.value != [] {
        var added := NewCompaniesOf(fetch.outcome.value, rows);
        if added != [] {
          AppendOnly(rows, added);
          assert r.effects[n] == AppendToSheet(added);
          assert |r.rows| > |rows|;
        }
      }
    }
  }

  /**
   * Deduplication against the worksheet makes a second run harmless: run
   * again with the worksheet the first run left and the same pages, a run
   * appends nothing, bulk-creates nothing and leaves the worksheet as it is.
   */
  lemma RerunWritesNothing(config: Option<Config>, worksheetOpens: bool, lookbackDate: string,
                           pages: seq<PageResponse>, rows: Table, replies: seq<BatchResponse>,
                           laterReplies: seq<BatchResponse>)
    ensures var first := RunSpec(config, worksheetOpens, lookbackDate, pages, rows, replies);
      var second := RunSpec(config, worksheetOpens, lookbackDate, pages, first.rows, laterReplies);
      && second.rows == first.rows
      && forall i :: 0 <= i < |second.effects| ==> second.effects[i].RequestPage?
  {
    if config.Some? && worksheetOpens {
      var cfg := config.value;
      var fetch := Fetch(TechnologySlug, cfg.syncMaxCompanies, pages);
      if fetch.outcome.Ok? && fetch.outcome.value != [] {
        var cs := fetch.outcome.value;
        var added := NewCompaniesOf(cs, rows);
        var first := RunSpec(config, worksheetOpens, lookbackDate, pages, rows, replies);
        var existing := ExistingDomains(first.rows);
        assert first.rows == Appended(rows, added);
        AppendThenRead(rows, added);
        FilterKeys(cs, ExistingDomains(rows));
        forall c | c in cs ensures Key(c) == "" || Key(c) in existing {
          if Key(c) != "" && Key(c) !in ExistingDomains(rows) {
            assert Key(c) in NewKeys(cs, ExistingDomains(rows));
            var d :| d in added && Key(d) == Key(c);
            assert LowerStrip("") == "";
            assert d.domain != "";
          }
        }
        FilterNothingNew(cs, existing);
      }
    }
  }

  /**
   * `main`: builds the clients, fetches, deduplicates, appends to the
   * worksheet and bulk-creates; any failure ends the run with 1.
   */
  method Run(config: Option<Config>, worksheetOpens: bool, lookbackDate: string, pages: seq<PageResponse>,
             sheet: SheetsClient, replies: seq<BatchResponse>)
    returns (exitCode: int, effects: seq<Effect>)
    modifies sheet
    ensures var r := RunSpec(config, worksheetOpens, lookbackDate, pages, old(sheet.rows), replies);
      exitCode == r.exitCode && effects == r.effects && sheet.rows == r.rows
  {
    effects := [];
    if config.None? {
      return 1, effects;
    }
    var cfg := config.value;
    if !worksheetOpens {
      return 1, effects;
    }
    var apollo := ClientFor(cfg);
    var dedup := new DeduplicationService(sheet);
    var companies, requests := SearchCompaniesByTechnology(TechnologySlug, lookbackDate, pages, cfg.syncMaxCompanies);
    effects := PageEffects(requests);
    if companies.Err? {
      return 1, effects;
    }
    if companies.value == [] {
      return 0, effects;
    }
    var newCompanies := dedup.FilterNewCompanies(companies.value);
    if newCompanies == [] {
      return 0, effects;
    }
    sheet.AppendCompanies(newCompanies);
    effects := effects + [AppendToSheet(newCompanies)];
    var result, sent := BulkCreateAccounts(apollo, newCompanies, replies, Some(cfg.apolloListId));
    effects := effects + BulkEffects(sent);
    if result.Err? {
      return 1, effects;
    }
    return 0, effects;
  }
}
