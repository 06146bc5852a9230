# Mini CRM lead qualifier — a Dafny model

This project models the record logic of the mini CRM chat service. The service answers chat messages through an agent runtime. That runtime calls four tools against a flat document store of sales leads:

- `lookup_lead` finds one lead by name or contact.
- `get_leads` lists every lead that matches a keyword.
- `write_lead_update` appends a note to a lead and sets its status.
- `score_lead_industry` looks an industry up in a fixed score table.

Each tool appends one entry to the call log of a run context. Some tools also set keys in the context's data map.

Around the tools sit two pieces of bookkeeping:

- A session service keeps one transcript and one long-lived run context per session id. A process-wide registry creates these services lazily.
- At start-up, a one-time import copies the dict rows of a `{"leads": [...]}` seed payload into the table, but only if the table is empty.

Modules, one per component:

- `Wrappers`: `Option` and `Result`.
- `Strings`: ASCII lowering, stripping, the substring test and integer rendering.
- `Seqs`: order-preserving `Filter`, which gives a table scan its meaning.
- `Schema` (app/schema.py): the lead record, the call-log entry, the data values and the `RunContext` class.
- `Db` (app/db.py): the `LeadTable` class, an ordered sequence of leads updated in place, and the seed import.
- `Tools` (app/tools.py): the four tools as methods on a `RunContext` and, except `score_lead_industry`, a `LeadTable`. Each method is proved against a specification function over the table, and lemmas prove properties of those functions.
- `Chat` (app/__init__.py): the `ChatService` and `SessionRegistry` classes.

The agent runtime is a function-valued parameter of `ProcessMessage`. It receives the transcript, the call log and the data map. It returns one of two results:

- completed: the canonical transcript, the optional final output, the tool calls it logged and the data keys it set;
- raised: the exception's message, with the tool calls logged and keys set before it.

Two consequences of the code are worth stating:

- Each session's service creates its run context once (app/__init__.py:23) and never resets it. So the call log and data map returned by each turn keep growing; `ConsecutiveTurns` proves that the first turn's log is a prefix of the second's.
- The exact-name tie-break of `lookup_lead` only looks at records that already contain the untrimmed query (app/tools.py:30-39). `PaddedQueryMissesExactName` shows a query with a leading space that finds nothing, although trimmed it equals the only record's name. `LookupByOwnName` proves the case that does hold: the query is the record's own name and no earlier record has the same normalised name.

## Model

| member | source | states |
|---|---|---|
| `Strings.Lower` | app/tools.py:13 | lowering keeps the length of the string |
| `Strings.LowerMeaning` | app/tools.py:13 | no ASCII capital is left; each ASCII capital becomes its small letter and every other character is kept, position by position |
| `Strings.StripStart` | app/tools.py:38 | the result is a suffix of the input, everything removed is white space, and it does not start with white space |
| `Strings.StripEnd` | app/tools.py:38 | the result is a prefix of the input, everything removed is white space, and it does not end with white space |
| `Strings.Strip` | app/db.py:20 | the stripped text is no longer than the input and neither starts nor ends with white space |
| `Strings.StripIsSlice` | app/db.py:20 | the stripped text is a slice `s[i..j]` of the input, and everything before `i` and from `j` on is white space |
| `Strings.OccursIff` | app/tools.py:13 | the position-by-position substring test holds exactly when the needle is a slice of the haystack |
| `Strings.NatToString` | app/tools.py:70 | `str(n)` of a natural is a non-empty string of decimal digits with no leading zero unless `n` is zero |
| `Strings.NatToStringValue` | app/tools.py:70 | reading the rendered digits back as a decimal number gives the number again |
| `Strings.IntToString` | app/tools.py:70 | `str(i)` is non-empty and starts with `-` exactly when `i` is negative |
| `Strings.IntToStringValue` | app/tools.py:70 | reading the rendering of an integer back, sign and digits, gives the integer again |
| `Strings.IntToStringInjective` | app/tools.py:70 | different integers render differently |
| `Strings.IntToStringExamples` | app/tools.py:70 | 0, 7, -42 and 1203 render as "0", "7", "-42" and "1203" |
| `Seqs.Filter` | app/tools.py:30-33 | a scan returns no more records than the table has |
| `Seqs.FilterMembers` | app/tools.py:30-33 | every record a scan returns is in the table and satisfies the condition; every table record that satisfies it is returned |
| `Schema.RunContext.constructor` | app/schema.py:26-30 | a new run context has an empty call log and an empty data map |
| `Db.UpdateWhere` | app/tools.py:81 | an update by id keeps the table's length |
| `Db.UpdateWhereAt` | app/tools.py:81 | after an update by id, every record with that id is patched with the new status and notes, and every other record is unchanged |
| `Db.UpdateChangesOnlyTarget` | app/tools.py:81 | with unique ids, an update by id rewrites exactly the one record with the id and keeps the ids unique |
| `Db.LeadTable.Size` | app/db.py:25 | `len(table)` is zero exactly when the table holds no rows |
| `Db.LeadTable.Insert` | app/db.py:28 | an insert appends the row at the end of the table |
| `Db.LeadTable.Update` | app/tools.py:81 | the table after `db.update` is the old table with the records carrying the id patched |
| `Db.DictRowsExact` | app/db.py:26-28 | the imported rows are the leads of the payload's dict rows, one per dict row and in payload order (the i-th imported row is the lead of the i-th dict row) |
| `Db.ImportSeed` | app/db.py:18-31 | the import loop leaves the table equal to `SeedImport` of the old table |
| `Db.ImportKeepsNonEmptyTable` | app/db.py:24-25 | the import leaves a non-empty table untouched |
| `Db.ImportNeedsObjectText` | app/db.py:18-22 | a missing file, a text that does not start with `{` once stripped, or a parse failure leaves the table as it was, with no error |
| `Db.ImportNeedsLeadsList` | app/db.py:22 | a parsed object whose `leads` key is missing or is not a list imports nothing, even into an empty table |
| `Db.ImportIntoEmptyTable` | app/db.py:22-28 | on an empty table, a payload whose `leads` is a list fills the table with its dict rows: as many as there are dict rows, the i-th table row being the lead of the i-th dict row, and nothing else |
| `Db.ImportIdempotent` | app/db.py:24-28 | importing a second time, as on a restart, changes nothing |
| `Tools.CiContains` | app/tools.py:10-13 | a non-string never matches; a string matches exactly when the lowered keyword is a slice of the lowered value |
| `Tools.EmptyKeywordMatchesStrings` | app/tools.py:10-13 | the empty keyword matches every string and only strings |
| `Tools.GetLeadById` | app/tools.py:16-18 | a found record has the id and is the first record in table order that has it; `None` exactly when no record has the id |
| `Tools.GetLeadByIdFirst` | app/tools.py:16-18 | if record `k` is the first with the id, the lookup returns record `k` |
| `Tools.GetLeadByIdUnique` | app/tools.py:16-18 | with unique ids, looking up any record's id returns that record |
| `Tools.GetAfterUpdate` | app/tools.py:81-82 | re-reading by id after the update returns the first record with the id, patched |
| `Tools.BestMatch` | app/tools.py:35-42 | the search loop, which stops at the first exact-name match, returns that match, else the first match, else `None` |
| `Tools.BestOfFirstExact` | app/tools.py:37-40 | when match `i` has the exact name and no earlier match has it, the choice is match `i` |
| `Tools.BestOfWithoutExact` | app/tools.py:41-42 | when no match has the exact name, the choice is the first match, or `None` when there is none |
| `Tools.LookupLead` | app/tools.py:21-49 | `lookup_lead` returns `Lookup` of the table, appends one entry naming the tool, its query and its result, and leaves the table and the data map unchanged |
| `Tools.LookupFindsMatch` | app/tools.py:29-42 | a lookup result is a table record whose name or contact contains the query; the result is `None` exactly when no record matches |
| `Tools.LookupPrefersExactName` | app/tools.py:37-40 | if some match has the exact trimmed, lowered name, the first such match in table order is returned |
| `Tools.LookupFallsBackToFirstMatch` | app/tools.py:41-42 | if no match has the exact name, the first match in table order is returned |
| `Tools.LookupByOwnName` | app/tools.py:29-42 | looking up a record's own name returns it when no earlier record has the same trimmed, lowered name |
| `Tools.PaddedQueryMissesExactName` | app/tools.py:29-40 | a query with a leading space finds nothing, although trimmed it equals the only record's name |
| `Tools.WriteLeadUpdate` | app/tools.py:52-92 | on an unknown id: fails with "Lead with id N not found", logs one entry carrying that error and no result, and changes neither the table nor the data. Otherwise: the table becomes `UpdatedRows`, it logs and returns the re-read patched record, and sets `data["updated_lead"]` to it |
| `Tools.NotFoundMessageNamesId` | app/tools.py:70 | the message "Lead with id N not found" determines N: two ids give the same message only when they are equal |
| `Tools.NotFoundMessageExamples` | app/tools.py:70 | ids 7 and -1 give "Lead with id 7 not found" and "Lead with id -1 not found" |
| `Tools.UpdateOfExistingLead` | app/tools.py:78-82 | with unique ids, an update appends the note after the old notes (empty if missing) and sets the status; no other field and no other record changes; ids stay unique |
| `Tools.UpdateOfUnknownId` | app/tools.py:68-76 | an update on an id that no record has changes no record |
| `Tools.RepeatedUpdateAppendsTwice` | app/tools.py:78-82 | two identical updates leave the note appended twice, so the second changes the table again (not idempotent) |
| `Tools.GetLeads` | app/tools.py:95-115 | `get_leads` returns the store-order selection of records matching on name, contact, industry or status; logs one entry with `result_count` equal to the number returned; sets `data["matches"]`; leaves the table unchanged |
| `Tools.KeywordResultsExact` | app/tools.py:100-105 | a record is in the `get_leads` results exactly when it is in the table and one of its four fields contains the keyword |
| `Tools.EmptyKeywordListsAll` | app/tools.py:100-105 | the empty keyword lists the whole table in order |
| `Tools.ScoreIndustry` | app/tools.py:125-126 | every score is one of 3, 4, 5, 6, 8 |
| `Tools.ScoreExamples` | app/tools.py:122-126 | "Finance" scores 8, "RETAIL" 5, "software" 6, "other" 4; " finance" (untrimmed), "" and `None` score the default 3 |
| `Tools.ScoreLeadIndustry` | app/tools.py:118-133 | the tool returns the table score, appends one entry with the industry and the score, and leaves the data unchanged; it takes no table |
| `Chat.ChatService.constructor` | app/__init__.py:20-23 | a new service has the session id, an empty transcript and a fresh context with an empty log and an empty data map |
| `Chat.ChatService.ProcessMessage` | app/__init__.py:25-55 | the runtime sees the old transcript with `{"content": message, "role": "user"}` appended. The context gains exactly the run's calls and keys. On completion the transcript is replaced by the runtime's, and the reply is the final output or "" with copies of the context's log and data. On an exception the error propagates and the transcript keeps the user turn |
| `Chat.ConsecutiveTurns` | app/__init__.py:23 | over two successful turns on one session, the first reply's call log is a prefix of the second's |
| `Chat.SessionRegistry.constructor` | app/__init__.py:59 | the registry starts empty |
| `Chat.SessionRegistry.GetChatService` | app/__init__.py:62-67 | a seen id returns the stored service and leaves the registry unchanged. An unseen id adds exactly one entry: a fresh service with that id, an empty transcript and an empty context. Entries only accumulate, and every key equals its service's session id |
| `Chat.SessionRegistry.HandleChat` | app/main.py:29-39 | the registry's ids become the old ids plus the request's id, and every old entry keeps its service. The runtime sees the session's old transcript (empty for a new id) with the user turn appended and the session's old log and data. The session's context gains exactly the run's calls and keys. On completion its transcript becomes the runtime's and the reply carries the final output and the context's log and data; on an exception the error is returned and the transcript keeps the user turn. Every other session's transcript, call log and data stay unchanged |

## Left out

- HTTP routing, the mapping of errors to status 500, observability and the MCP mount (app/main.py): this is framework plumbing. Only the two calls of the `/chat` handler are modelled, as `HandleChat`.
- The agent's configuration and prompt (app/agent.py), language-model behaviour and a tool choice: the runtime is a parameter, and the tool options passed to it are not modelled.
- The runtime's tool calls are not linked to the `Tools` methods. The run result carries the log entries and data keys those calls produced. In the model a run does not touch the `LeadTable`, so the table changes made by a run's `write_lead_update` calls (app/tools.py:81) are not captured.
- `str(final_output)` of a non-string output: the final output is modelled as the text it renders to.
- async execution and the races between two requests of one session on its transcript and context, or on the shared table: this is concurrency.
- TinyDB's query objects, document ids, JSON file format, directory creation, `read_text` and `json.loads`: these are foreign libraries and I/O. The file contents are an `Option<string>`, and `None` means the file does not exist. The parse result is a `Parsed` value given beside the text.
- `isinstance(data, dict)` at app/db.py:22: a text that starts with `{` parses to an object or fails, so a non-object top level is not represented.
- Rows stored without the lead's shape: the seed import inserts dict rows without validation, but a `Lead` always has an integer id, string name, contact and industry, and one of the four statuses. A missing notes list is represented. The non-string branch of `_ci_contains` (app/tools.py:11-12) is modelled in `CiContains` but cannot be reached from a `Lead`. The `isinstance(m.get("name"), str)` test of the name check (app/tools.py:38) always holds for a `Lead`, so `IsExactName` has no non-string case.
- Tools.WriteLeadUpdate: the validation of `status` against the four values is left to its type here, as the request schema does it before the call.
- Unicode semantics of `str.lower()` and `str.strip()`: only ASCII letters are lowered, and only ASCII white space (9-13, 28-32) is stripped.
- The debug `print` of the transcript (app/__init__.py:47).
- Db.UpdateChangesOnlyTarget and Tools.UpdateOfExistingLead need unique ids. The store does not enforce this, and the seed import can insert duplicate ids. With duplicates, `UpdateWhereAt` and `UpdatedRows` still say what an update does: every record with the id is patched with the notes of `GetLeadById`'s record plus the new note, and `GetLeadByIdFirst` proves that record is the first one with the id.
