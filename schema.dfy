/**
 * The records of the CRM (app/schema.py): a lead, the entries of the tool
 * call log, the values tools surface in the run context's data map, and the
 * run context itself.
 */
module Schema {
  import opened Wrappers

  /** The four values of a lead's status. */
  datatype Status = New | Working | Qualified | Disqualified

  /** The string a status is stored and matched as. */
  function StatusName(s: Status): (name: string) {
    match s
    case New => "new"
    case Working => "working"
    case Qualified => "qualified"
    case Disqualified => "disqualified"
  }

  /** A lead record. `notes` is `None` for a row stored without a notes list. */
  datatype Lead = Lead(
    id: int,
    name: string,
    contact: string,
    industry: string,
    status: Status,
    notes: Option<seq<string>>)

  /** The notes of a lead, the empty list when it has none (`existing.get("notes", [])`). */
  function NotesOf(l: Lead): (notes: seq<string>) {
    if l.notes.Some? then l.notes.value else []
  }

  /** The `"args"` of a call-log entry, one shape per tool. */
  datatype ToolArgs =
    | QueryArgs(query: string)
    | UpdateArgs(leadId: int, note: string, status: Status)
    | KeywordArgs(keyword: string)
    | IndustryArgs(industry: Option<string>)

  /** What a call-log entry records besides the name and the args: a `"result"`,
      a `"result_count"` or an `"error"`. */
  datatype ToolOutcome =
    | Found(lead: Option<Lead>)
    | Updated(updated: Lead)
    | ResultCount(count: nat)
    | Scored(score: int)
    | Error(message: string)

  datatype ToolCall = ToolCall(name: string, args: ToolArgs, outcome: ToolOutcome)

  /** The values tools put into the run context's `data` map. */
  datatype DataValue = UpdatedLead(lead: Lead) | Matches(leads: seq<Lead>)

  /** `CRMRunContext`: the call log and the free-form data map that tools fill in. */
  class RunContext {
    var toolCalls: seq<ToolCall>
    var data: map<string, DataValue>

    constructor ()
      ensures toolCalls == [] && data == map[]
    {
      toolCalls := [];
      data := map[];
    }
  }
}
