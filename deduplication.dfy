/**
 * Deduplication of fetched companies against the worksheet
 * (src/deduplication.py).  The key of a company is its domain
 * lower-cased and stripped; a company is kept when its key is non-empty,
 * not already recorded in the worksheet and not taken by an earlier
 * company of the same call.
 */
module Deduplication {
  import opened Wrappers
  import opened Text
  import opened Models
  import opened Sheets

  /** The deduplication key: `company.domain.lower().strip()`. */
  function Key(c: Company): string {
    LowerStrip(c.domain)
  }

  function Keys(cs: seq<Company>): set<string> {
    set c | c in cs :: Key(c)
  }

  /** The keys a call may accept: non-empty and not yet in the worksheet. */
  function NewKeys(cs: seq<Company>, existing: set<string>): set<string> {
    set c | c in cs && Key(c) != "" && Key(c) !in existing :: Key(c)
  }

  /**
   * What `filter_new_companies` returns for `cs` when the worksheet holds
   * `existing`: the companies taken in input order, each skipped when its
   * key is empty, already recorded, or already taken in this call.
   */
  function Filter(cs: seq<Company>, existing: set<string>): seq<Company> {
    if cs == [] then []
    else
      var kept := Filter(cs[..|cs| - 1], existing);
      var k := Key(cs[|cs| - 1]);
      if k == "" || k in existing || k in Keys(kept) then kept else kept + [cs[|cs| - 1]]
  }

  /** The positions in `cs` of the companies `Filter` keeps, in increasing order. */
  function KeptIndices(cs: seq<Company>, existing: set<string>): seq<nat> {
    if cs == [] then []
    else
      var kept := Filter(cs[..|cs| - 1], existing);
      var k := Key(cs[|cs| - 1]);
      var idx := KeptIndices(cs[..|cs| - 1], existing);
      if k == "" || k in existing || k in Keys(kept) then idx else idx + [|cs| - 1]
  }

  /**
   * The independent reference: position `i` is kept exactly when its key
   * is non-empty, not recorded, and no earlier position has the same key.
   */
  ghost predicate IsFirstNew(cs: seq<Company>, existing: set<string>, i: int) {
    0 <= i < |cs| && Key(cs[i]) != "" && Key(cs[i]) !in existing &&
    forall j :: 0 <= j < i ==> Key(cs[j]) != Key(cs[i])
  }

  /** Every key in `cs` is non-empty and not in the worksheet. */
  predicate AllNew(cs: seq<Company>, existing: set<string>) {
    forall i :: 0 <= i < |cs| ==> Key(cs[i]) != "" && Key(cs[i]) !in existing
  }

  /** No two companies in `cs` share a key. */
  predicate DistinctKeys(cs: seq<Company>) {
    forall i, j :: 0 <= i < j < |cs| ==> Key(cs[i]) != Key(cs[j])
  }

  lemma KeysAppend(cs: seq<Company>, c: Company)
    ensures Keys(cs + [c]) == Keys(cs) + {Key(c)}
  {
    assert forall x :: x in cs + [c] <==> x in cs || x == c;
  }

  /** The keys accepted by a call are exactly the new keys of its input. */
  lemma {:induction false} FilterKeys(cs: seq<Company>, existing: set<string>)
    ensures Keys(Filter(cs, existing)) == NewKeys(cs, existing)
  {
    if cs != [] {
      var init, c := cs[..|cs| - 1], cs[|cs| - 1];
      var kept := Filter(init, existing);
      FilterKeys(init, existing);
      assert cs == init + [c];
      assert NewKeys(cs, existing) == NewKeys(init, existing) + (if Key(c) != "" && Key(c) !in existing then {Key(c)} else {});
      if !(Key(c) == "" || Key(c) in existing || Key(c) in Keys(kept)) {
        KeysAppend(kept, c);
      }
    }
  }

  /**
   * Soundness: every company returned has a non-empty key that is not in
   * the worksheet, and no two companies returned share a key.
   */
  lemma {:induction false} FilterSound(cs: seq<Company>, existing: set<string>)
    ensures AllNew(Filter(cs, existing), existing) && DistinctKeys(Filter(cs, existing))
  {
    if cs != [] {
      var init, c := cs[..|cs| - 1], cs[|cs| - 1];
      var kept := Filter(init, existing);
      FilterSound(init, existing);
      if !(Key(c) == "" || Key(c) in existing || Key(c) in Keys(kept)) {
        var r := kept + [c];
        assert Filter(cs, existing) == r;
        forall i | 0 <= i < |kept| ensures r[i] == kept[i] && Key(r[i]) != Key(c) {
          assert kept[i] in kept;
        }
      } else {
        assert Filter(cs, existing) == kept;
      }
    }
  }

  /**
   * `Filter` selects: the result is `cs` read at the kept positions, which
   * are strictly increasing, so it is a subsequence in input order and no
   * longer than the input.
   */
  lemma {:induction false} FilterSelects(cs: seq<Company>, existing: set<string>)
    ensures var r, idx := Filter(cs, existing), KeptIndices(cs, existing);
      && |idx| == |r| <= |cs|
      && (forall k :: 0 <= k < |idx| ==> idx[k] < |cs| && r[k] == cs[idx[k]])
      && (forall k, l :: 0 <= k < l < |idx| ==> idx[k] < idx[l])
  {
    if cs != [] {
      var init := cs[..|cs| - 1];
      FilterSelects(init, existing);
    }
  }

  /**
   * Completeness against the reference: a position is kept exactly when
   * it is the first of the call with its key, and that key is non-empty
   * and not in the worksheet.
   */
  lemma {:induction false} FilterKeepsFirstNew(cs: seq<Company>, existing: set<string>, i: int)
    requires 0 <= i < |cs|
    ensures i in KeptIndices(cs, existing) <==> IsFirstNew(cs, existing, i)
  {
    var init := cs[..|cs| - 1];
    if i < |cs| - 1 {
      FilterSelects(init, existing);
      FilterKeepsFirstNew(init, existing, i);
      assert KeptIndices(cs, existing)[..|KeptIndices(init, existing)|] == KeptIndices(init, existing);
      assert IsFirstNew(cs, existing, i) <==> IsFirstNew(init, existing, i) by {
        assert forall j :: 0 <= j <= i ==> cs[j] == init[j];
      }
    } else {
      LastKeptIffFirstNew(cs, existing);
    }
  }

  /** The last position is kept exactly when it is the first with its key, and that key is new. */
  lemma LastKeptIffFirstNew(cs: seq<Company>, existing: set<string>)
    requires cs != []
    ensures |cs| - 1 in KeptIndices(cs, existing) <==> IsFirstNew(cs, existing, |cs| - 1)
  {
    var init, c := cs[..|cs| - 1], cs[|cs| - 1];
    var kept := Filter(init, existing);
    var i := |cs| - 1;
    FilterSelects(init, existing);
    assert i !in KeptIndices(init, existing);
    var k := Key(c);
    if k != "" && k !in existing {
      FilterKeys(init, existing);
      if k in Keys(kept) {
        var d :| d in init && Key(d) == k && Key(d) != "" && Key(d) !in existing;
        var j :| 0 <= j < |init| && init[j] == d;
        assert cs[j] == d;
      } else {
        forall j | 0 <= j < i ensures Key(cs[j]) != k {
          assert cs[j] == init[j] && init[j] in init;
        }
      }
    }
  }

  /** Filtering an already filtered list changes nothing. */
  lemma FilterTwice(cs: seq<Company>, existing: set<string>)
    ensures Filter(Filter(cs, existing), existing) == Filter(cs, existing)
  {
    FilterSound(cs, existing);
    FilterDistinctFixed(Filter(cs, existing), existing);
  }

  /** A list whose keys are new and pairwise distinct passes the filter unchanged. */
  lemma {:induction false} FilterDistinctFixed(cs: seq<Company>, existing: set<string>)
    requires AllNew(cs, existing) && DistinctKeys(cs)
    ensures Filter(cs, existing) == cs
  {
    if cs != [] {
      var init, c := cs[..|cs| - 1], cs[|cs| - 1];
      FilterDistinctFixed(init, existing);
      assert cs == init + [c];
    }
  }

  /** Companies whose keys are all empty or already recorded are all filtered out. */
  lemma {:induction false} FilterNothingNew(cs: seq<Company>, existing: set<string>)
    requires forall c :: c in cs ==> Key(c) == "" || Key(c) in existing
    ensures Filter(cs, existing) == []
  {
    if cs != [] {
      FilterNothingNew(cs[..|cs| - 1], existing);
      assert cs[|cs| - 1] in cs;
    }
  }

  /**
   * The loop of `filter_new_companies`: one pass over the input with a
   * set of keys taken so far in this call.  `existing` is only read.
   */
  method FilterCompanies(companies: seq<Company>, existing: set<string>) returns (newCompanies: seq<Company>)
    ensures newCompanies == Filter(companies, existing)
    ensures Keys(newCompanies) == NewKeys(companies, existing)
    ensures AllNew(newCompanies, existing) && DistinctKeys(newCompanies)
  {
    newCompanies := [];
    var seenInBatch: set<string> := {};
    for i := 0 to |companies|
      invariant newCompanies == Filter(companies[..i], existing)
      invariant seenInBatch == Keys(newCompanies)
    {
      assert companies[..i + 1][..i] == companies[..i];
      var company := companies[i];
      var domainNormalized := LowerStrip(company.domain);
      if domainNormalized == "" {
        continue;
      }
      if domainNormalized in existing {
        continue;
      }
      if domainNormalized in seenInBatch {
        continue;
      }
      KeysAppend(newCompanies, company);
      seenInBatch := seenInBatch + {domainNormalized};
      newCompanies := newCompanies + [company];
    }
    assert companies[..|companies|] == companies;
    FilterKeys(companies, existing);
    FilterSound(companies, existing);
  }

  /**
   * `DeduplicationService`: filters against the worksheet's keys, which
   * it reads from the sheet on first use and caches for later calls.
   */
  class DeduplicationService {
    const sheets: SheetsClient
    /** `_existing_domains`: `None` until the sheet has been read. */
    var existingDomains: Option<set<string>>
    /** How many times this service has read the sheet. */
    ghost var sheetReads: nat

    /** The sheet is read once at most, and exactly when the cache is filled. */
    ghost predicate Valid()
      reads this
    {
      sheetReads == (if existingDomains.Some? then 1 else 0)
    }

    constructor (sheets: SheetsClient)
      ensures this.sheets == sheets && existingDomains == None && sheetReads == 0
      ensures Valid()
    {
      this.sheets := sheets;
      existingDomains := None;
      sheetReads := 0;
    }

    /** `_load_existing_domains`: reads the sheet on the first call only. */
    method LoadExistingDomains() returns (existing: set<string>)
      requires Valid()
      modifies this
      ensures Valid() && existingDomains == Some(existing)
      ensures old(existingDomains).Some? ==> existing == old(existingDomains).value && sheetReads == old(sheetReads)
      ensures old(existingDomains).None? ==> existing == ExistingDomains(sheets.rows) && sheetReads == old(sheetReads) + 1
    {
      if existingDomains.None? {
        var domains := sheets.GetExistingDomains();
        existingDomains := Some(domains);
        sheetReads := sheetReads + 1;
      }
      existing := existingDomains.value;
    }

    /** `filter_new_companies`: the filter against the cached worksheet keys. */
    method FilterNewCompanies(companies: seq<Company>) returns (newCompanies: seq<Company>)
      requires Valid()
      modifies this
      ensures Valid() && existingDomains.Some?
      ensures old(existingDomains).Some? ==> existingDomains == old(existingDomains) && sheetReads == old(sheetReads)
      ensures old(existingDomains).None? ==> existingDomains == Some(ExistingDomains(sheets.rows))
      ensures newCompanies == Filter(companies, existingDomains.value)
    {
      var existing := LoadExistingDomains();
      newCompanies := FilterCompanies(companies, existing);
    }
  }
}
