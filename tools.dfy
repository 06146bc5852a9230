/**
 * The four tools the agent calls (app/tools.py), each an operation on the
 * lead table and the run context: `lookup_lead`, `write_lead_update`,
 * `get_leads` and `score_lead_industry`, with their matching helpers.
 */
module Tools {
  import opened Wrappers
  import opened Strings
  import opened Schema
  import opened Db
  import Seqs

  const LookupLeadName := "lookup_lead"
  const WriteLeadUpdateName := "write_lead_update"
  const GetLeadsName := "get_leads"
  const ScoreLeadIndustryName := "score_lead_industry"

  /** A field value as a query test sees it: a string or any other value. */
  datatype Value = Str(s: string) | NonStr

  /** `_ci_contains`: a non-string never matches; otherwise the lowered keyword
      must be a substring of the lowered value. */
  function CiContains(value: Value, keyword: string): (r: bool)
    ensures !value.Str? ==> !r
    ensures value.Str? ==> (r <==> IsInfix(Lower(keyword), Lower(value.s)))
  {
    match value
    case NonStr => false
    case Str(s) => OccursIff(Lower(keyword), Lower(s)); Occurs(Lower(keyword), Lower(s))
  }

  /** The empty keyword matches every string and nothing else. */
  lemma EmptyKeywordMatchesStrings(value: Value)
    ensures CiContains(value, "") <==> value.Str?
  {
  }

  /** `_get_lead_by_id`: the first record with the id, or `None`. */
  function GetLeadById(rows: seq<Lead>, id: int): (r: Option<Lead>)
    ensures r.Some? ==> r.value in rows && r.value.id == id
    ensures r.Some? ==> exists k :: 0 <= k < |rows| && rows[k] == r.value && forall j :: 0 <= j < k ==> rows[j].id != id
    ensures r.None? <==> forall k :: 0 <= k < |rows| ==> rows[k].id != id
  {
    if rows == [] then None
    else if rows[0].id == id then Some(rows[0])
    else GetLeadById(rows[1..], id)
  }

  /** The record found is the first one in table order that has the id. */
  lemma {:induction false} GetLeadByIdFirst(rows: seq<Lead>, id: int, k: nat)
    requires k < |rows| && rows[k].id == id
    requires forall j :: 0 <= j < k ==> rows[j].id != id
    ensures GetLeadById(rows, id) == Some(rows[k])
  {
    if k > 0 {
      GetLeadByIdFirst(rows[1..], id, k - 1);
    }
  }

  /** With unique ids, the record found by id is the one record that has it. */
  lemma GetLeadByIdUnique(rows: seq<Lead>, k: nat)
    requires UniqueIds(rows) && k < |rows|
    ensures GetLeadById(rows, rows[k].id) == Some(rows[k])
  {
  }

  /** Re-reading a record after an update by its id gives the first record
      with that id, patched. */
  lemma {:induction false} GetAfterUpdate(rows: seq<Lead>, id: int, status: Status, notes: seq<string>)
    requires GetLeadById(rows, id).Some?
    ensures GetLeadById(UpdateWhere(rows, id, status, notes), id)
            == Some(Patch(GetLeadById(rows, id).value, status, notes))
  {
    if rows[0].id != id {
      GetAfterUpdate(rows[1..], id, status, notes);
    }
  }

  // ---- lookup_lead ----

  /** The search condition of `lookup_lead`: the name or the contact contains the query. */
  predicate NameOrContactMatches(l: Lead, query: string) {
    CiContains(Str(l.name), query) || CiContains(Str(l.contact), query)
  }

  function NameOrContactP(query: string): (p: Lead -> bool) {
    (l: Lead) => NameOrContactMatches(l, query)
  }

  /** The tie-break test: the trimmed, lowered name equals the trimmed, lowered
      query. (The name is a string in every record of this model.) */
  predicate IsExactName(l: Lead, query: string) {
    NormalName(l) == Lower(Strip(query))
  }

  /** `name.strip().lower()`. */
  function NormalName(l: Lead): (name: string) {
    Lower(Strip(l.name))
  }

  function ExactNameP(query: string): (p: Lead -> bool) {
    (l: Lead) => IsExactName(l, query)
  }

  /** `db.search(...)` in `lookup_lead`: every match, in table order. */
  function LookupMatches(rows: seq<Lead>, query: string): (matches: seq<Lead>) {
    Seqs.Filter(rows, NameOrContactP(query))
  }

  /** The choice among the matches: the first exact-name match, else the first match. */
  function BestOf(matches: seq<Lead>, query: string): (best: Option<Lead>) {
    var exact := Seqs.Filter(matches, ExactNameP(query));
    if exact != [] then Some(exact[0])
    else if matches != [] then Some(matches[0])
    else None
  }

  /** What `lookup_lead` returns for the table `rows`. */
  function Lookup(rows: seq<Lead>, query: string): (best: Option<Lead>) {
    BestOf(LookupMatches(rows, query), query)
  }

  /** The loop of `lookup_lead` over the matches, with its `break`. */
  method BestMatch(matches: seq<Lead>, query: string) returns (best: Option<Lead>)
    ensures best == BestOf(matches, query)
  {
    var i := 0;
    while i < |matches| && !IsExactName(matches[i], query)
      invariant 0 <= i <= |matches|
      invariant forall j :: 0 <= j < i ==> !IsExactName(matches[j], query)
    {
      i := i + 1;
    }
    if i < |matches| {
      BestOfFirstExact(matches, query, i);
      best := Some(matches[i]);
    } else {
      BestOfWithoutExact(matches, query);
      best := if matches != [] then Some(matches[0]) else None;
    }
  }

  lemma BestOfFirstExact(matches: seq<Lead>, query: string, i: nat)
    requires i < |matches| && IsExactName(matches[i], query)
    requires forall j :: 0 <= j < i ==> !IsExactName(matches[j], query)
    ensures BestOf(matches, query) == Some(matches[i])
  {
    Seqs.FilterHead(matches, ExactNameP(query), i);
  }

  lemma BestOfWithoutExact(matches: seq<Lead>, query: string)
    requires forall j :: 0 <= j < |matches| ==> !IsExactName(matches[j], query)
    ensures BestOf(matches, query) == if matches != [] then Some(matches[0]) else None
  {
    Seqs.FilterNone(matches, ExactNameP(query));
  }

  method LookupLead(db: LeadTable, ctx: RunContext, query: string) returns (best: Option<Lead>)
    modifies ctx
    ensures best == Lookup(db.rows, query)
    ensures ctx.toolCalls == old(ctx.toolCalls) + [ToolCall(LookupLeadName, QueryArgs(query), Found(best))]
    ensures ctx.data == old(ctx.data)
  {
    var matches := LookupMatches(db.rows, query);
    best := BestMatch(matches, query);
    ctx.toolCalls := ctx.toolCalls + [ToolCall(LookupLeadName, QueryArgs(query), Found(best))];
  }

  /** A lookup result is a record of the table whose name or contact contains
      the query, and there is none exactly when no record matches. */
  lemma LookupFindsMatch(rows: seq<Lead>, query: string)
    ensures Lookup(rows, query).Some? ==>
              Lookup(rows, query).value in rows && NameOrContactMatches(Lookup(rows, query).value, query)
    ensures Lookup(rows, query).None? <==> forall k :: 0 <= k < |rows| ==> !NameOrContactMatches(rows[k], query)
  {
    Seqs.FilterMembers(rows, NameOrContactP(query));
    Seqs.FilterMembers(LookupMatches(rows, query), ExactNameP(query));
  }

  /** When some match has the exact name, the first such match in table order is returned. */
  lemma LookupPrefersExactName(rows: seq<Lead>, query: string, k: nat)
    requires k < |rows| && NameOrContactMatches(rows[k], query) && IsExactName(rows[k], query)
    requires forall j :: 0 <= j < k ==> !(NameOrContactMatches(rows[j], query) && IsExactName(rows[j], query))
    ensures Lookup(rows, query) == Some(rows[k])
  {
    Seqs.FilterFilterHead(rows, NameOrContactP(query), ExactNameP(query), k);
  }

  /** When no match has the exact name, the first match in table order is returned. */
  lemma LookupFallsBackToFirstMatch(rows: seq<Lead>, query: string, k: nat)
    requires k < |rows| && NameOrContactMatches(rows[k], query)
    requires forall j :: 0 <= j < k ==> !NameOrContactMatches(rows[j], query)
    requires forall l :: l in rows && NameOrContactMatches(l, query) ==> !IsExactName(l, query)
    ensures Lookup(rows, query) == Some(rows[k])
  {
    var matches := LookupMatches(rows, query);
    Seqs.FilterMembers(rows, NameOrContactP(query));
    Seqs.FilterHead(rows, NameOrContactP(query), k);
    forall j | 0 <= j < |matches|
      ensures !ExactNameP(query)(matches[j])
    {
      assert matches[j] in rows && NameOrContactP(query)(matches[j]);
    }
    Seqs.FilterNone(matches, ExactNameP(query));
  }

  /** A query that is a record's own name finds that record, provided no
      earlier record has the same name up to case and surrounding space. */
  lemma LookupByOwnName(rows: seq<Lead>, k: nat)
    requires k < |rows|
    requires forall j :: 0 <= j < k ==> Lower(Strip(rows[j].name)) != Lower(Strip(rows[k].name))
    ensures Lookup(rows, rows[k].name) == Some(rows[k])
  {
    var name := rows[k].name;
    assert StartsWith(Lower(name)[0..], Lower(name));
    assert CiContains(Str(name), name);
    LookupPrefersExactName(rows, name, k);
  }

  /** The tie-break only sees records that already contain the query: a query
      padded with a space finds nothing although it equals the only record's
      name once both are trimmed. */
  lemma PaddedQueryMissesExactName()
    ensures var rows := [Lead(1, "Acme", "bob", "retail", New, None)];
            && IsExactName(rows[0], " Acme")
            && Lookup(rows, " Acme") == None
  {
    var rows := [Lead(1, "Acme", "bob", "retail", New, None)];
    assert IsSpace(" Acme"[0]) && " Acme"[1..] == "Acme";
    assert StripStart("Acme") == "Acme";
    assert StripEnd("Acme") == "Acme";
    assert Strip(" Acme") == Strip("Acme");
    NoLongerInfix(Lower(" Acme"), Lower("Acme"));
    NoLongerInfix(Lower(" Acme"), Lower("bob"));
    assert !NameOrContactMatches(rows[0], " Acme");
    LookupFindsMatch(rows, " Acme");
  }

  lemma NoLongerInfix(needle: string, hay: string)
    requires |needle| > |hay|
    ensures !IsInfix(needle, hay)
  {
  }

  // ---- write_lead_update ----

  /** The error message of an update on an unknown id. */
  function NotFoundMessage(id: int): (message: string) {
    "Lead with id " + IntToString(id) + " not found"
  }

  /** The error message names the id: two ids give the same message only when
      they are equal. */
  lemma NotFoundMessageNamesId(a: int, b: int)
    requires NotFoundMessage(a) == NotFoundMessage(b)
    ensures a == b
  {
    var prefix := |"Lead with id "|;
    assert NotFoundMessage(a)[prefix..|NotFoundMessage(a)| - |" not found"|] == IntToString(a);
    assert NotFoundMessage(b)[prefix..|NotFoundMessage(b)| - |" not found"|] == IntToString(b);
    IntToStringInjective(a, b);
  }

  lemma NotFoundMessageExamples()
    ensures NotFoundMessage(7) == "Lead with id 7 not found"
    ensures NotFoundMessage(-1) == "Lead with id -1 not found"
  {
    IntToStringExamples();
    assert IntToString(-1) == "-1";
  }

  /** The table after `write_lead_update(id, note, status)`: unchanged for an
      unknown id; otherwise every record with the id gets the given status and
      the notes of the first such record followed by `note`. */
  function UpdatedRows(rows: seq<Lead>, id: int, note: string, status: Status): (r: seq<Lead>) {
    match GetLeadById(rows, id)
    case None => rows
    case Some(existing) => UpdateWhere(rows, id, status, NotesOf(existing) + [note])
  }

  method WriteLeadUpdate(db: LeadTable, ctx: RunContext, leadId: int, note: string, status: Status)
    returns (r: Result<Lead, string>)
    modifies db, ctx
    ensures db.rows == UpdatedRows(old(db.rows), leadId, note, status)
    ensures match GetLeadById(old(db.rows), leadId)
      case None =>
        && r == Failure(NotFoundMessage(leadId))
        && ctx.toolCalls == old(ctx.toolCalls)
             + [ToolCall(WriteLeadUpdateName, UpdateArgs(leadId, note, status), Error(NotFoundMessage(leadId)))]
        && ctx.data == old(ctx.data)
      case Some(existing) =>
        var updated := Patch(existing, status, NotesOf(existing) + [note]);
        && r == Success(updated)
        && ctx.toolCalls == old(ctx.toolCalls)
             + [ToolCall(WriteLeadUpdateName, UpdateArgs(leadId, note, status), Updated(updated))]
        && ctx.data == old(ctx.data)["updated_lead" := UpdatedLead(updated)]
  {
    var existing := GetLeadById(db.rows, leadId);
    if existing.None? {
      var msg := NotFoundMessage(leadId);
      ctx.toolCalls := ctx.toolCalls
        + [ToolCall(WriteLeadUpdateName, UpdateArgs(leadId, note, status), Error(msg))];
      return Failure(msg);
    }
    var newNotes := NotesOf(existing.value) + [note];
    GetAfterUpdate(db.rows, leadId, status, newNotes);
    db.Update(leadId, status, newNotes);
    var updated := GetLeadById(db.rows, leadId).value;
    ctx.toolCalls := ctx.toolCalls
      + [ToolCall(WriteLeadUpdateName, UpdateArgs(leadId, note, status), Updated(updated))];
    ctx.data := ctx.data["updated_lead" := UpdatedLead(updated)];
    r := Success(updated);
  }

  /** With unique ids an update of an existing record appends `note` at the end
      of its notes, sets its status, and changes no other field and no other record. */
  lemma UpdateOfExistingLead(rows: seq<Lead>, k: nat, note: string, status: Status)
    requires UniqueIds(rows) && k < |rows|
    ensures var r := UpdatedRows(rows, rows[k].id, note, status);
            && |r| == |rows|
            && NotesOf(r[k]) == NotesOf(rows[k]) + [note]
            && r[k].status == status
            && r[k].(status := rows[k].status, notes := rows[k].notes) == rows[k]
            && (forall j :: 0 <= j < |rows| && j != k ==> r[j] == rows[j])
            && UniqueIds(r)
  {
    GetLeadByIdUnique(rows, k);
    UpdateChangesOnlyTarget(rows, rows[k].id, status, NotesOf(rows[k]) + [note], k);
  }

  /** An update on an id no record has changes no record. */
  lemma UpdateOfUnknownId(rows: seq<Lead>, id: int, note: string, status: Status)
    requires forall k :: 0 <= k < |rows| ==> rows[k].id != id
    ensures UpdatedRows(rows, id, note, status) == rows
  {
  }

  lemma AppendTwice(notes: seq<string>, note: string)
    ensures notes + [note] + [note] == notes + [note, note]
  {
  }

  /** The update is not idempotent: the same update twice appends the note twice. */
  lemma {:induction false} RepeatedUpdateAppendsTwice(rows: seq<Lead>, id: int, note: string, status: Status)
    requires GetLeadById(rows, id).Some?
    ensures var once := UpdatedRows(rows, id, note, status);
            var twice := UpdatedRows(once, id, note, status);
            var l := GetLeadById(rows, id).value;
            && GetLeadById(twice, id) == Some(Patch(l, status, NotesOf(l) + [note, note]))
            && twice != once
  {
    var l := GetLeadById(rows, id).value;
    var n1 := NotesOf(l) + [note];
    var once := UpdatedRows(rows, id, note, status);
    assert once == UpdateWhere(rows, id, status, n1);
    GetAfterUpdate(rows, id, status, n1);
    var l1 := Patch(l, status, n1);
    assert GetLeadById(once, id) == Some(l1);
    var n2 := n1 + [note];
    var twice := UpdatedRows(once, id, note, status);
    assert twice == UpdateWhere(once, id, status, n2);
    GetAfterUpdate(once, id, status, n2);
    AppendTwice(NotesOf(l), note);
    assert GetLeadById(twice, id) == Some(Patch(l1, status, n2));
    assert Patch(l1, status, n2) != l1 by {
      assert |n2| != |n1|;
    }
  }

  // ---- get_leads ----

  /** The search condition of `get_leads`: name, contact, industry or status contains the keyword. */
  predicate KeywordMatches(l: Lead, keyword: string) {
    || CiContains(Str(l.name), keyword)
    || CiContains(Str(l.contact), keyword)
    || CiContains(Str(l.industry), keyword)
    || CiContains(Str(StatusName(l.status)), keyword)
  }

  function KeywordP(keyword: string): (p: Lead -> bool) {
    (l: Lead) => KeywordMatches(l, keyword)
  }

  /** The leads `get_leads` returns: the matching records, in table order. */
  function KeywordResults(rows: seq<Lead>, keyword: string): (results: seq<Lead>) {
    Seqs.Filter(rows, KeywordP(keyword))
  }

  method GetLeads(db: LeadTable, ctx: RunContext, keyword: string) returns (results: seq<Lead>)
    modifies ctx
    ensures results == KeywordResults(db.rows, keyword)
    ensures ctx.toolCalls == old(ctx.toolCalls) + [ToolCall(GetLeadsName, KeywordArgs(keyword), ResultCount(|results|))]
    ensures ctx.data == old(ctx.data)["matches" := Matches(results)]
  {
    results := KeywordResults(db.rows, keyword);
    ctx.toolCalls := ctx.toolCalls + [ToolCall(GetLeadsName, KeywordArgs(keyword), ResultCount(|results|))];
    ctx.data := ctx.data["matches" := Matches(results)];
  }

  /** The results are exactly the records that match the keyword. */
  lemma KeywordResultsExact(rows: seq<Lead>, keyword: string)
    ensures forall l :: l in KeywordResults(rows, keyword) <==> l in rows && KeywordMatches(l, keyword)
  {
    Seqs.FilterMembers(rows, KeywordP(keyword));
  }

  /** The empty keyword lists the whole table, in order. */
  lemma EmptyKeywordListsAll(rows: seq<Lead>)
    ensures KeywordResults(rows, "") == rows
  {
    forall l | l in rows
      ensures KeywordP("")(l)
    {
      EmptyKeywordMatchesStrings(Str(l.name));
    }
    Seqs.FilterAll(rows, KeywordP(""));
  }

  // ---- score_lead_industry ----

  /** The fixed score table. */
  const Scores: map<string, int> := map["finance" := 8, "retail" := 5, "software" := 6, "other" := 4]

  /** `scores.get((industry or "").lower(), 3)`. */
  function ScoreIndustry(industry: Option<string>): (score: int)
    ensures score in {3, 4, 5, 6, 8}
  {
    var key := Lower(if industry.Some? then industry.value else "");
    if key in Scores then Scores[key] else 3
  }

  /** The table in use: lowering makes it case-insensitive, nothing trims, and
      a missing or empty industry scores the default. */
  lemma ScoreExamples()
    ensures ScoreIndustry(Some("Finance")) == 8
    ensures ScoreIndustry(Some("RETAIL")) == 5
    ensures ScoreIndustry(Some("software")) == 6
    ensures ScoreIndustry(Some("other")) == 4
    ensures ScoreIndustry(Some(" finance")) == 3
    ensures ScoreIndustry(Some("")) == 3
    ensures ScoreIndustry(None) == 3
  {
    assert Lower("Finance") == "finance";
    assert Lower("RETAIL") == "retail";
    assert Lower("software") == "software";
    assert Lower("other") == "other";
    assert Lower(" finance")[0] == ' ';
    assert Lower("") == "";
  }

  method ScoreLeadIndustry(ctx: RunContext, industry: Option<string>) returns (score: int)
    modifies ctx
    ensures score == ScoreIndustry(industry)
    ensures ctx.toolCalls == old(ctx.toolCalls)
              + [ToolCall(ScoreLeadIndustryName, IndustryArgs(industry), Scored(score))]
    ensures ctx.data == old(ctx.data)
  {
    score := ScoreIndustry(industry);
    ctx.toolCalls := ctx.toolCalls + [ToolCall(ScoreLeadIndustryName, IndustryArgs(industry), Scored(score))];
  }
}
