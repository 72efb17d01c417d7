/**
 * The worksheet that holds the companies already processed
 * (src/sheets_client.py).  The worksheet is an in-memory table of rows;
 * `SheetsClient` owns it, reads the domain column back and appends to it.
 */
module Sheets {
  import opened Wrappers
  import opened Text
  import opened Models

  type Row = seq<string>
  type Table = seq<Row>

  /** The header row written to an empty worksheet. */
  const Header: Row := ["Company Name", "Domain", "Source", "Tech Added Date"]

  /** The key a data row contributes: its second cell, lower-cased and stripped, if that cell is non-empty. */
  function RowDomains(row: Row): set<string> {
    if |row| > 1 && row[1] != "" then {LowerStrip(row[1])} else {}
  }

  /** The keys of a run of data rows, folded in row order. */
  function DataDomains(data: Table): set<string> {
    if data == [] then {} else DataDomains(data[..|data| - 1]) + RowDomains(data[|data| - 1])
  }

  /** The keys recorded in a worksheet: the first row is the header and is skipped. */
  function ExistingDomains(table: Table): set<string> {
    if table == [] then {} else DataDomains(table[1..])
  }

  /** The row written for a company; a missing date becomes an empty cell. */
  function RowOf(c: Company): Row {
    [c.name, c.domain, c.source, if c.discoveredAt.Some? then c.discoveredAt.value else ""]
  }

  function RowsOf(companies: seq<Company>): Table {
    seq(|companies|, i requires 0 <= i < |companies| => RowOf(companies[i]))
  }

  /** The worksheet after `append_companies`. */
  function Appended(table: Table, companies: seq<Company>): Table {
    if companies == [] then table
    else table + (if table == [] then [Header] else []) + RowsOf(companies)
  }

  /** The keys the rows written for `companies` carry: one per company with a non-empty domain. */
  function WrittenKeys(companies: seq<Company>): set<string> {
    set c | c in companies && c.domain != "" :: LowerStrip(c.domain)
  }

  lemma WrittenKeysAppend(companies: seq<Company>, c: Company)
    ensures WrittenKeys(companies + [c]) == WrittenKeys(companies) + (if c.domain != "" then {LowerStrip(c.domain)} else {})
  {
    assert forall x :: x in companies + [c] <==> x in companies || x == c;
  }

  /** A row contributes key `k` exactly when its second cell is non-empty and has key `k`. */
  ghost predicate RecordsKey(row: Row, k: string) {
    |row| > 1 && row[1] != "" && LowerStrip(row[1]) == k
  }

  /** The fold over data rows collects exactly the keys some row records. */
  lemma {:induction false} DataDomainsMembership(data: Table, k: string)
    ensures k in DataDomains(data) <==> exists i :: 0 <= i < |data| && RecordsKey(data[i], k)
  {
    if data != [] {
      var init := data[..|data| - 1];
      DataDomainsMembership(init, k);
      if k in DataDomains(init) {
        var i :| 0 <= i < |init| && RecordsKey(init[i], k);
        assert data[i] == init[i];
      }
      if exists i :: 0 <= i < |data| && RecordsKey(data[i], k) {
        var i :| 0 <= i < |data| && RecordsKey(data[i], k);
        if i < |init| {
          assert init[i] == data[i];
        }
      }
    }
  }

  /**
   * `get_existing_domains` returns exactly the keys of the rows after the
   * header whose second cell is non-empty; an empty sheet yields no key.
   */
  lemma ExistingDomainsMembership(table: Table, k: string)
    ensures table == [] ==> ExistingDomains(table) == {}
    ensures k in ExistingDomains(table) <==> exists i :: 1 <= i < |table| && RecordsKey(table[i], k)
  {
    if table != [] {
      var data := table[1..];
      DataDomainsMembership(data, k);
      if exists i :: 0 <= i < |data| && RecordsKey(data[i], k) {
        var i :| 0 <= i < |data| && RecordsKey(data[i], k);
        assert table[i + 1] == data[i];
      }
      if exists i :: 1 <= i < |table| && RecordsKey(table[i], k) {
        var i :| 1 <= i < |table| && RecordsKey(table[i], k);
        assert data[i - 1] == table[i];
      }
    }
  }

  /** The fold distributes over concatenation of data rows. */
  lemma {:induction false} DataDomainsConcat(a: Table, b: Table)
    ensures DataDomains(a + b) == DataDomains(a) + DataDomains(b)
  {
    if b == [] {
      assert a + b == a;
    } else {
      var b' := b[..|b| - 1];
      assert (a + b)[..|a + b| - 1] == a + b';
      DataDomainsConcat(a, b');
    }
  }

  /** The keys of the rows written for some companies. */
  lemma {:induction false} RowsOfDomains(companies: seq<Company>)
    ensures DataDomains(RowsOf(companies)) == WrittenKeys(companies)
  {
    if companies != [] {
      var init := companies[..|companies| - 1];
      var last := companies[|companies| - 1];
      var rs := RowsOf(companies);
      assert rs[..|rs| - 1] == RowsOf(init);
      assert DataDomains(rs) == DataDomains(RowsOf(init)) + RowDomains(RowOf(last));
      RowsOfDomains(init);
      assert companies == init + [last];
      WrittenKeysAppend(init, last);
    }
  }

  /**
   * Appending is append-only: an empty list changes nothing; otherwise the
   * old rows stay in place, the header comes first on an empty sheet, and
   * one row per company follows in input order.
   */
  lemma AppendOnly(table: Table, companies: seq<Company>)
    ensures companies == [] ==> Appended(table, companies) == table
    ensures companies != [] ==>
      var h := if table == [] then 1 else 0;
      var t := Appended(table, companies);
      && |t| == |table| + h + |companies|
      && t[..|table|] == table
      && (table == [] ==> t[0] == Header)
      && forall k :: 0 <= k < |companies| ==> t[|table| + h + k] == RowOf(companies[k])
  {
  }

  /**
   * Round trip: reading the domains back after an append yields the old
   * keys plus the key of every appended company whose domain is non-empty.
   */
  lemma AppendThenRead(table: Table, companies: seq<Company>)
    ensures ExistingDomains(Appended(table, companies)) == ExistingDomains(table) + WrittenKeys(companies)
  {
    RowsOfDomains(companies);
    if companies == [] {
      assert WrittenKeys(companies) == {};
    } else {
      var rows := RowsOf(companies);
      var t := Appended(table, companies);
      if table == [] {
        assert t == [Header] + rows;
        assert t[1..] == rows;
      } else {
        assert table + [] == table;
        assert t == table + rows;
        assert t[1..] == table[1..] + rows;
        DataDomainsConcat(table[1..], rows);
      }
    }
  }

  class SheetsClient {
    /** The worksheet's cells, header row included. */
    var rows: Table

    constructor (rows: Table)
      ensures this.rows == rows
    {
      this.rows := rows;
    }

    /** `get_existing_domains`: reads the worksheet, changes nothing. */
    method GetExistingDomains() returns (domains: set<string>)
      ensures domains == ExistingDomains(rows)
      ensures forall k :: k in domains <==> exists i :: 1 <= i < |rows| && RecordsKey(rows[i], k)
    {
      var values := rows;
      if values == [] {
        domains := {};
      } else {
        domains := {};
        var i := 1;
        while i < |values|
          invariant 1 <= i <= |values|
          invariant domains == DataDomains(values[1..i])
        {
          var row := values[i];
          if |row| > 1 && row[1] != "" {
            domains := domains + {LowerStrip(row[1])};
          }
          assert values[1..i + 1][..i - 1] == values[1..i];
          i := i + 1;
        }
        assert values[1..i] == values[1..];
      }
      forall k ensures k in domains <==> exists i :: 1 <= i < |rows| && RecordsKey(rows[i], k) {
        ExistingDomainsMembership(rows, k);
      }
    }

    /** `append_companies`: writes the header to an empty sheet, then one row per company. */
    method AppendCompanies(companies: seq<Company>)
      modifies this
      ensures rows == Appended(old(rows), companies)
    {
      if companies == [] {
        return;
      }
      var existing := rows;
      if existing == [] {
        rows := rows + [Header];
      }
      var newRows := RowsOf(companies);
      rows := rows + newRows;
    }
  }
}
