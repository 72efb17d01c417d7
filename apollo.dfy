/**
 * The bulk account creation of src/apollo_client.py.
 *
 * The HTTP service is replaced by `responses`, its replies to the batch
 * requests in order; a request past the end gets a successful reply that
 * lists no account.  A reply body is reduced to the lengths of its
 * `new_accounts` and `existing_accounts` lists.
 */
module Apollo {
  import opened Wrappers
  import opened Models
  import opened Http

  /** The most accounts one request may carry. */
  const BatchSize: nat := 100

  /** The configuration the client keeps: API key and default list id. */
  datatype ApolloClient = ApolloClient(apiKey: string, listId: string)

  datatype Account = Account(name: string, domain: string, accountListIds: seq<string>)

  /** One request body. */
  datatype Payload = Payload(apiKey: string, accounts: seq<Account>)

  /** A reply: its status and how many accounts it lists as new and as already existing. */
  datatype BatchResponse = BatchResponse(status: int, newAccounts: nat, existingAccounts: nat)

  /** The `created` and `existing` counts returned. */
  datatype Totals = Totals(created: nat, existing: nat)

  /** The outcome of the batch loop over the first batches, and how many requests it sent. */
  datatype TallyRun = TallyRun(outcome: Result<Totals, int>, sent: nat)

  /** The outcome of a bulk create and the requests it sent, in order. */
  datatype BulkRun = BulkRun(outcome: Result<Totals, int>, sent: seq<Payload>)

  function Reply(responses: seq<BatchResponse>, k: nat): BatchResponse {
    if k < |responses| then responses[k] else BatchResponse(200, 0, 0)
  }

  /** `list_id or self.list_id`: a missing or empty list id falls back to the client's. */
  function ResolveListId(client: ApolloClient, listId: Option<string>): (r: string)
    ensures listId.Some? && listId.value != "" ==> r == listId.value
    ensures listId.None? || listId.value == "" ==> r == client.listId
  {
    if listId.Some? && listId.value != "" then listId.value else client.listId
  }

  function AccountsFor(companies: seq<Company>, listId: string): seq<Account> {
    seq(|companies|, i requires 0 <= i < |companies| =>
      Account(companies[i].name, companies[i].domain, [listId]))
  }

  function Min(a: int, b: int): int {
    if a <= b then a else b
  }

  /** The number of requests for `n` accounts: `n / BatchSize` rounded up. */
  function BatchCount(n: nat): nat {
    (n + BatchSize - 1) / BatchSize
  }

  /** `accounts[i : i + 100]` for `i` in `range(0, len(accounts), 100)`. */
  function Batches(accounts: seq<Account>): seq<seq<Account>> {
    seq(BatchCount(|accounts|), k requires 0 <= k < BatchCount(|accounts|) =>
      accounts[k * BatchSize..Min((k + 1) * BatchSize, |accounts|)])
  }

  function Concat<T>(ss: seq<seq<T>>): seq<T> {
    if ss == [] then [] else Concat(ss[..|ss| - 1]) + ss[|ss| - 1]
  }

  /** The new-account counts of the first `n` replies, summed. */
  function SumNew(responses: seq<BatchResponse>, n: nat): nat {
    if n == 0 then 0 else SumNew(responses, n - 1) + Reply(responses, n - 1).newAccounts
  }

  /** The existing-account counts of the first `n` replies, summed. */
  function SumExisting(responses: seq<BatchResponse>, n: nat): nat {
    if n == 0 then 0 else SumExisting(responses, n - 1) + Reply(responses, n - 1).existingAccounts
  }

  /** The batch loop over `n` batches: counts are added up until a reply raises. */
  function Tally(responses: seq<BatchResponse>, n: nat): (r: TallyRun)
    ensures r.sent <= n
  {
    if n == 0 then TallyRun(Ok(Totals(0, 0)), 0)
    else
      var prev := Tally(responses, n - 1);
      if prev.outcome.Err? then prev
      else
        var reply := Reply(responses, n - 1);
        if Raises(reply.status) then TallyRun(Err(reply.status), n)
        else TallyRun(Ok(Totals(prev.outcome.value.created + reply.newAccounts,
                                prev.outcome.value.existing + reply.existingAccounts)), n)
  }

  /** The request bodies for the first `n` batches. */
  function Payloads(apiKey: string, batches: seq<seq<Account>>, n: nat): seq<Payload>
    requires n <= |batches|
  {
    seq(n, k requires 0 <= k < n => Payload(apiKey, batches[k]))
  }

  /** `bulk_create_accounts` as a function of the service's replies. */
  function BulkCreate(client: ApolloClient, companies: seq<Company>, listId: Option<string>,
                      responses: seq<BatchResponse>): BulkRun
  {
    if companies == [] then BulkRun(Ok(Totals(0, 0)), [])
    else
      var batches := Batches(AccountsFor(companies, ResolveListId(client, listId)));
      var t := Tally(responses, |batches|);
      BulkRun(t.outcome, Payloads(client.apiKey, batches, t.sent))
  }

  /** One account per company, in order, each added to the one list `listId`. */
  lemma AccountsForShape(companies: seq<Company>, listId: string)
    ensures |AccountsFor(companies, listId)| == |companies|
    ensures forall i :: 0 <= i < |companies| ==>
      var a := AccountsFor(companies, listId)[i];
      a.name == companies[i].name && a.domain == companies[i].domain && a.accountListIds == [listId]
  {
  }

  /** Batch `k` exists exactly when it starts inside the account list. */
  lemma BatchCountIndex(n: nat, k: nat)
    ensures k < BatchCount(n) <==> k * BatchSize < n
  {
    if k * BatchSize < n {
      assert (k + 1) * BatchSize <= n + BatchSize - 1;
    } else {
      assert n + BatchSize - 1 < (k + 1) * BatchSize;
    }
  }

  /** Batch `k` starts at `k * BatchSize`; the next one exists exactly when it starts inside the list. */
  lemma BatchAt(accounts: seq<Account>, k: nat)
    requires k < |Batches(accounts)|
    ensures k * BatchSize < |accounts| && (k + 1) * BatchSize == k * BatchSize + BatchSize
    ensures Batches(accounts)[k] == accounts[k * BatchSize..Min(k * BatchSize + BatchSize, |accounts|)]
    ensures k + 1 < |Batches(accounts)| <==> (k + 1) * BatchSize < |accounts|
  {
    BatchCountIndex(|accounts|, k);
    BatchCountIndex(|accounts|, k + 1);
  }

  /** The first `k` batches, put back together, are the first `k * BatchSize` accounts. */
  lemma {:induction false} ConcatBatchesPrefix(accounts: seq<Account>, k: nat)
    requires k <= BatchCount(|accounts|)
    ensures Concat(Batches(accounts)[..k]) == accounts[..Min(k * BatchSize, |accounts|)]
  {
    var bs := Batches(accounts);
    if k > 0 {
      ConcatBatchesPrefix(accounts, k - 1);
      assert bs[..k][..k - 1] == bs[..k - 1];
      var lo, hi := (k - 1) * BatchSize, Min(k * BatchSize, |accounts|);
      assert lo <= |accounts|;
      assert accounts[..lo] + accounts[lo..hi] == accounts[..hi];
    }
  }

  /**
   * The batches partition the accounts: there are `ceil(n / 100)` of them,
   * consecutive slices of at most 100, all but the last exactly 100, and
   * together they are the account list.
   */
  lemma BatchesPartition(accounts: seq<Account>)
    ensures var bs := Batches(accounts);
      && |bs| * BatchSize >= |accounts| > (|bs| - 1) * BatchSize
      && Concat(bs) == accounts
      && (forall k :: 0 <= k < |bs| ==> 0 < |bs[k]| <= BatchSize)
      && (forall k :: 0 <= k < |bs| - 1 ==> |bs[k]| == BatchSize)
  {
    var bs := Batches(accounts);
    ConcatBatchesPrefix(accounts, |bs|);
    assert bs[..|bs|] == bs;
  }

  /** 250 accounts go out in batches of 100, 100 and 50. */
  lemma BatchesOf250(accounts: seq<Account>)
    requires |accounts| == 250
    ensures |Batches(accounts)| == 3
    ensures |Batches(accounts)[0]| == 100 && |Batches(accounts)[1]| == 100 && |Batches(accounts)[2]| == 50
  {
  }

  /**
   * The batch loop either adds up every reply's counts, when none raises,
   * or stops at the first reply that raises, having sent exactly the
   * requests up to and including that one.
   */
  lemma {:induction false} TallyFacts(responses: seq<BatchResponse>, n: nat)
    ensures var t := Tally(responses, n);
      && (t.outcome.Ok? <==> forall j :: 0 <= j < n ==> !Raises(Reply(responses, j).status))
      && (t.outcome.Ok? ==> t.sent == n && t.outcome.value == Totals(SumNew(responses, n), SumExisting(responses, n)))
      && (t.outcome.Err? ==>
            && 0 < t.sent <= n
            && Raises(Reply(responses, t.sent - 1).status)
            && t.outcome.error == Reply(responses, t.sent - 1).status
            && forall j :: 0 <= j < t.sent - 1 ==> !Raises(Reply(responses, j).status))
  {
    if n > 0 {
      TallyFacts(responses, n - 1);
    }
  }

  /** One more batch after `k` successful ones: its reply either raises or adds its counts. */
  lemma TallyStep(responses: seq<BatchResponse>, k: nat, totals: Totals)
    requires Tally(responses, k) == TallyRun(Ok(totals), k)
    ensures var reply := Reply(responses, k);
      Tally(responses, k + 1) ==
        if Raises(reply.status) then TallyRun(Err(reply.status), k + 1)
        else TallyRun(Ok(Totals(totals.created + reply.newAccounts, totals.existing + reply.existingAccounts)), k + 1)
  {
  }

  /** Once a reply has raised, later batches change nothing. */
  lemma {:induction false} TallyStaysFailed(responses: seq<BatchResponse>, m: nat, n: nat)
    requires m <= n && Tally(responses, m).outcome.Err?
    ensures Tally(responses, n) == Tally(responses, m)
  {
    if m < n {
      TallyStaysFailed(responses, m, n - 1);
    }
  }

  /**
   * The contract of `bulk_create_accounts`: no company means no request
   * and zero counts; otherwise the requests sent carry the API key and the
   * batches in order; the bulk create fails exactly when some batch's
   * reply raises, and then the outcome is the status of the first reply
   * that raised, after which nothing more was sent; otherwise it is the
   * summed counts.
   */
  lemma BulkCreateContract(client: ApolloClient, companies: seq<Company>, listId: Option<string>,
                           responses: seq<BatchResponse>)
    ensures var run := BulkCreate(client, companies, listId, responses);
      var batches := Batches(AccountsFor(companies, ResolveListId(client, listId)));
      && (companies == [] ==> run == BulkRun(Ok(Totals(0, 0)), []))
      && (run.outcome.Ok? <==> forall j :: 0 <= j < |batches| ==> !Raises(Reply(responses, j).status))
      && (companies != [] ==>
            && |run.sent| <= |batches| == BatchCount(|companies|)
            && (forall k :: 0 <= k < |run.sent| ==> run.sent[k] == Payload(client.apiKey, batches[k]))
            && (run.outcome.Ok? ==>
                  && |run.sent| == |batches|
                  && run.outcome.value == Totals(SumNew(responses, |batches|), SumExisting(responses, |batches|)))
            && (run.outcome.Err? ==>
                  && |run.sent| > 0
                  && run.outcome.error == Reply(responses, |run.sent| - 1).status
                  && Raises(run.outcome.error)
                  && forall j :: 0 <= j < |run.sent| - 1 ==> !Raises(Reply(responses, j).status)))
  {
    if companies != [] {
      var batches := Batches(AccountsFor(companies, ResolveListId(client, listId)));
      TallyFacts(responses, |batches|);
    }
  }

  /** Every account in a batch is one of the accounts batched. */
  lemma BatchWithinAccounts(accounts: seq<Account>, k: nat)
    requires k < |Batches(accounts)|
    ensures forall a :: a in Batches(accounts)[k] ==> a in accounts
  {
    var lo, hi := k * BatchSize, Min((k + 1) * BatchSize, |accounts|);
    forall a | a in accounts[lo..hi] ensures a in accounts {
      var j :| lo <= j < hi && accounts[j] == a;
    }
  }

  /**
   * A bulk create sends nothing but the given companies: every request
   * carries the client's API key, and every account in it is the account
   * of one of the companies, added to the resolved list.
   */
  lemma BulkCreateSendsOnlyGiven(client: ApolloClient, companies: seq<Company>, listId: Option<string>,
                                 responses: seq<BatchResponse>, k: nat)
    requires k < |BulkCreate(client, companies, listId, responses).sent|
    ensures var p := BulkCreate(client, companies, listId, responses).sent[k];
      && p.apiKey == client.apiKey
      && forall a :: a in p.accounts ==>
           exists c :: c in companies && a == Account(c.name, c.domain, [ResolveListId(client, listId)])
  {
    BulkCreateContract(client, companies, listId, responses);
    var id := ResolveListId(client, listId);
    var accounts := AccountsFor(companies, id);
    BatchWithinAccounts(accounts, k);
    forall a | a in Batches(accounts)[k]
      ensures exists c :: c in companies && a == Account(c.name, c.domain, [id])
    {
      var j :| 0 <= j < |accounts| && accounts[j] == a;
      assert companies[j] in companies;
    }
  }

  /** The accounts of the requests `sent`, in the order they were sent. */
  function SentAccounts(sent: seq<Payload>): seq<Account> {
    if sent == [] then [] else SentAccounts(sent[..|sent| - 1]) + sent[|sent| - 1].accounts
  }

  /** The requests for the first `n` batches carry those batches' accounts. */
  lemma {:induction false} SentAccountsOfPayloads(apiKey: string, batches: seq<seq<Account>>, n: nat)
    requires n <= |batches|
    ensures SentAccounts(Payloads(apiKey, batches, n)) == Concat(batches[..n])
  {
    if n > 0 {
      assert Payloads(apiKey, batches, n)[..n - 1] == Payloads(apiKey, batches, n - 1);
      assert batches[..n][..n - 1] == batches[..n - 1];
      SentAccountsOfPayloads(apiKey, batches, n - 1);
    }
  }

  /**
   * A bulk create that succeeds has sent every company's account exactly
   * once, in input order.
   */
  lemma BulkCreateSendsAll(client: ApolloClient, companies: seq<Company>, listId: Option<string>,
                           responses: seq<BatchResponse>)
    requires BulkCreate(client, companies, listId, responses).outcome.Ok?
    ensures SentAccounts(BulkCreate(client, companies, listId, responses).sent)
         == AccountsFor(companies, ResolveListId(client, listId))
  {
    var accounts := AccountsFor(companies, ResolveListId(client, listId));
    if companies == [] {
      assert accounts == [];
    } else {
      var bs := Batches(accounts);
      TallyFacts(responses, |bs|);
      SentAccountsOfPayloads(client.apiKey, bs, |bs|);
      BatchesPartition(accounts);
      assert bs[..|bs|] == bs;
    }
  }

  /**
   * `bulk_create_accounts`: sends the accounts in batches of `BatchSize`
   * and adds up the counts of the replies; a reply that raises ends it.
   */
  method BulkCreateAccounts(client: ApolloClient, companies: seq<Company>, responses: seq<BatchResponse>,
                            listId: Option<string> := None)
    returns (result: Result<Totals, int>, sent: seq<Payload>)
    ensures var run := BulkCreate(client, companies, listId, responses);
      result == run.outcome && sent == run.sent
  {
    if companies == [] {
      return Ok(Totals(0, 0)), [];
    }
    var resolved := if listId.Some? && listId.value != "" then listId.value else client.listId;
    var accounts := AccountsFor(companies, resolved);
    ghost var batches := Batches(accounts);
    var created: nat := 0;
    var existing: nat := 0;
    sent := [];
    var i := 0;
    BatchCountIndex(|accounts|, 0);
    while i < |accounts|
      invariant i == |sent| * BatchSize && |sent| <= |batches|
      invariant |sent| < |batches| <==> i < |accounts|
      invariant sent == Payloads(client.apiKey, batches, |sent|)
      invariant Tally(responses, |sent|) == TallyRun(Ok(Totals(created, existing)), |sent|)
      decreases |accounts| - i
    {
      var k := |sent|;
      BatchAt(accounts, k);
      var batch := accounts[i..Min(i + BatchSize, |accounts|)];
      sent := sent + [Payload(client.apiKey, batch)];
      assert sent == Payloads(client.apiKey, batches, k + 1);
      var response := Reply(responses, k);
      TallyStep(responses, k, Totals(created, existing));
      if Raises(response.status) {
        result := Err(response.status);
        TallyStaysFailed(responses, k + 1, |batches|);
        return;
      }
      created := created + response.newAccounts;
      existing := existing + response.existingAccounts;
      i := i + BatchSize;
    }
    result := Ok(Totals(created, existing));
  }
}
