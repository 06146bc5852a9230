/**
 * The lead store (app/db.py): the default table of the document store as an
 * ordered sequence of lead records, updated in place, and the one-time import
 * of a `{"leads": [...]}` seed payload into an empty table.
 */
module Db {
  import opened Wrappers
  import opened Strings
  import opened Schema
  import Seqs

  /** No two records share an id. The store does not enforce it. */
  ghost predicate UniqueIds(rows: seq<Lead>) {
    forall i, j :: 0 <= i < j < |rows| ==> rows[i].id != rows[j].id
  }

  /** The record `l` with the fields `{"status": status, "notes": notes}` overwritten. */
  function Patch(l: Lead, status: Status, notes: seq<string>): (r: Lead) {
    l.(status := status, notes := Some(notes))
  }

  /** The table after `update({"status": status, "notes": notes}, Query().id == id)`:
      every record with the id is patched, in place. */
  function UpdateWhere(rows: seq<Lead>, id: int, status: Status, notes: seq<string>): (r: seq<Lead>)
    ensures |r| == |rows|
  {
    if rows == [] then []
    else [if rows[0].id == id then Patch(rows[0], status, notes) else rows[0]]
         + UpdateWhere(rows[1..], id, status, notes)
  }

  lemma {:induction false} UpdateWhereAt(rows: seq<Lead>, id: int, status: Status, notes: seq<string>, k: nat)
    requires k < |rows|
    ensures UpdateWhere(rows, id, status, notes)[k]
            == if rows[k].id == id then Patch(rows[k], status, notes) else rows[k]
  {
    if k > 0 {
      UpdateWhereAt(rows[1..], id, status, notes, k - 1);
    }
  }

  /** An update keeps every id where it was, so unique ids stay unique, and
      with unique ids it rewrites the one record that has the id and no other. */
  lemma UpdateChangesOnlyTarget(rows: seq<Lead>, id: int, status: Status, notes: seq<string>, k: nat)
    requires UniqueIds(rows) && k < |rows| && rows[k].id == id
    ensures var r := UpdateWhere(rows, id, status, notes);
            && r[k] == Patch(rows[k], status, notes)
            && (forall j :: 0 <= j < |rows| && j != k ==> r[j] == rows[j])
            && UniqueIds(r)
  {
    var r := UpdateWhere(rows, id, status, notes);
    forall j | 0 <= j < |rows|
      ensures r[j] == if j == k then Patch(rows[k], status, notes) else rows[j]
    {
      UpdateWhereAt(rows, id, status, notes, j);
    }
  }

  /** The document store's default table. */
  class LeadTable {
    var rows: seq<Lead>

    /** `len(table)`. */
    function Size(): (n: nat)
      reads this
      ensures n == 0 <==> rows == []
    {
      |rows|
    }

    /** `table.insert(row)`: the row goes at the end. */
    method Insert(lead: Lead)
      modifies this
      ensures rows == old(rows) + [lead]
    {
      rows := rows + [lead];
    }

    /** `db.update(fields, Query().id == id)`. */
    method Update(id: int, status: Status, notes: seq<string>)
      modifies this
      ensures rows == UpdateWhere(old(rows), id, status, notes)
    {
      rows := UpdateWhere(rows, id, status, notes);
    }
  }

  /** One element of the payload's `"leads"` list: a JSON object, taken as the
      lead it stores, or any other JSON value. */
  datatype Row = DictRow(lead: Lead) | OtherRow

  /** The value under the `"leads"` key. */
  datatype LeadsValue = LeadsList(rows: seq<Row>) | NotAList

  /** What `json.loads` makes of the file text. A text that starts with `{`
      parses to an object or fails; `leads` is `None` when the key is absent. */
  datatype Parsed = ParseFailure | Object(leads: Option<LeadsValue>)

  /** The dict rows of the payload, in payload order. */
  function DictRows(payload: seq<Row>): (r: seq<Lead>)
    ensures |r| <= |payload|
  {
    if payload == [] then []
    else DictRows(payload[..|payload| - 1])
         + (if payload[|payload| - 1].DictRow? then [payload[|payload| - 1].lead] else [])
  }

  function IsDict(row: Row): (b: bool) { row.DictRow? }

  /** The rows imported are exactly the leads of the dict rows, one per dict row. */
  lemma {:induction false} DictRowsExact(payload: seq<Row>)
    ensures var dicts := Seqs.Filter(payload, IsDict);
            && |DictRows(payload)| == |dicts|
            && forall i :: 0 <= i < |dicts| ==> dicts[i] == DictRow(DictRows(payload)[i])
    ensures forall l :: l in DictRows(payload) <==> DictRow(l) in payload
  {
    if payload != [] {
      var init, last := payload[..|payload| - 1], payload[|payload| - 1];
      DictRowsExact(init);
      assert payload == init + [last];
      FilterAppend(init, last);
    }
  }

  lemma {:induction false} FilterAppend(s: seq<Row>, x: Row)
    ensures Seqs.Filter(s + [x], IsDict) == Seqs.Filter(s, IsDict) + (if IsDict(x) then [x] else [])
  {
    if s == [] {
      assert [] + [x] == [x];
    } else {
      assert (s + [x])[0] == s[0] && (s + [x])[1..] == s[1..] + [x];
      FilterAppend(s[1..], x);
      assert Seqs.Filter(s + [x], IsDict)
          == (if IsDict(s[0]) then [s[0]] else []) + Seqs.Filter(s[1..] + [x], IsDict);
    }
  }

  /** The file text the import reads: `""` when the file does not exist. */
  function TextOf(file: Option<string>): (text: string) {
    if file.Some? then file.value else ""
  }

  /** The table after the seed import, given the file and what parsing its text gives. */
  function SeedImport(rows: seq<Lead>, file: Option<string>, parsed: Parsed): (r: seq<Lead>) {
    if !StartsWith(Strip(TextOf(file)), "{") then rows
    else match parsed
      case Object(Some(LeadsList(payload))) => if |rows| == 0 then DictRows(payload) else rows
      case _ => rows
  }

  /** The import block, run once at start-up against the default table. */
  method ImportSeed(table: LeadTable, file: Option<string>, parsed: Parsed)
    modifies table
    ensures table.rows == SeedImport(old(table.rows), file, parsed)
  {
    var rawText := TextOf(file);
    if StartsWith(Strip(rawText), "{") {
      match parsed
      case Object(Some(LeadsList(payload))) =>
        if table.Size() == 0 {
          var i := 0;
          while i < |payload|
            invariant 0 <= i <= |payload|
            invariant table.rows == DictRows(payload[..i])
          {
            assert payload[..i + 1][..i] == payload[..i];
            if payload[i].DictRow? {
              table.Insert(payload[i].lead);
            }
            i := i + 1;
          }
          assert payload[..|payload|] == payload;
        }
      case _ =>
    }
  }

  /** A table that already holds rows is left as it is. */
  lemma ImportKeepsNonEmptyTable(rows: seq<Lead>, file: Option<string>, parsed: Parsed)
    requires rows != []
    ensures SeedImport(rows, file, parsed) == rows
  {
  }

  /** A text that does not start with `{` once stripped, or that fails to
      parse, leaves the table as it is and raises nothing. */
  lemma ImportNeedsObjectText(rows: seq<Lead>, file: Option<string>, parsed: Parsed)
    requires !StartsWith(Strip(TextOf(file)), "{") || parsed.ParseFailure?
    ensures SeedImport(rows, file, parsed) == rows
  {
  }

  /** An object whose `leads` key is missing or is not a list imports nothing,
      even into an empty table. */
  lemma ImportNeedsLeadsList(rows: seq<Lead>, file: Option<string>, parsed: Parsed)
    requires parsed.Object? && (parsed.leads.None? || parsed.leads.value.NotAList?)
    ensures SeedImport(rows, file, parsed) == rows
  {
  }

  /** On an empty table exactly the dict rows are inserted, in payload order. */
  lemma ImportIntoEmptyTable(file: Option<string>, payload: seq<Row>)
    requires StartsWith(Strip(TextOf(file)), "{")
    ensures var r := SeedImport([], file, Object(Some(LeadsList(payload))));
            var dicts := Seqs.Filter(payload, IsDict);
            && r == DictRows(payload)
            && |r| == |dicts|
            && (forall i :: 0 <= i < |dicts| ==> dicts[i] == DictRow(r[i]))
            && forall l :: l in r <==> DictRow(l) in payload
  {
    DictRowsExact(payload);
  }

  /** Importing again, as on a restart, changes nothing: rows are never duplicated. */
  lemma ImportIdempotent(rows: seq<Lead>, file: Option<string>, parsed: Parsed)
    ensures SeedImport(SeedImport(rows, file, parsed), file, parsed) == SeedImport(rows, file, parsed)
  {
  }
}
