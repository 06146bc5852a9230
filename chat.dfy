/**
 * The chat side of the CRM (app/__init__.py): a session-scoped service that
 * keeps the transcript and one long-lived run context, and the process-wide
 * registry from session id to service. The agent runtime is a parameter: a
 * function from the transcript and the context to what the run produced.
 */
module Chat {
  import opened Wrappers
  import opened Schema

  /** One element of the transcript. */
  datatype InputItem = Message(content: string, role: string) | RuntimeItem(payload: string)

  /** `{"content": message, "role": "user"}`. */
  function UserTurn(message: string): (item: InputItem) {
    Message(message, "user")
  }

  /** What one run of the agent runtime produced: the tool calls it logged and
      the data keys it set (its tools only append to the log and overwrite
      keys), and either the canonical transcript and the final output, or the
      exception that ended it. */
  datatype RunResult =
    | Completed(items: seq<InputItem>, finalOutput: Option<string>,
                calls: seq<ToolCall>, writes: map<string, DataValue>)
    | Raised(message: string, calls: seq<ToolCall>, writes: map<string, DataValue>)

  /** The runtime, called with the transcript and the context's log and data. */
  type Runner = (seq<InputItem>, seq<ToolCall>, map<string, DataValue>) -> RunResult

  /** The dictionary `process_message` returns. */
  datatype Reply = Reply(reply: string, toolCalls: seq<ToolCall>, data: map<string, DataValue>)

  /** `str(final_output)`, or the empty string when there is no final output. */
  function ReplyText(finalOutput: Option<string>): (text: string) {
    if finalOutput.Some? then finalOutput.value else ""
  }

  /** `CRMChatService`. */
  class ChatService {
    const sessionId: string
    var inputItems: seq<InputItem>
    const ctx: RunContext

    constructor (sessionId: string)
      ensures this.sessionId == sessionId && inputItems == []
      ensures fresh(ctx) && ctx.toolCalls == [] && ctx.data == map[]
    {
      this.sessionId := sessionId;
      inputItems := [];
      ctx := new RunContext();
    }

    /** One turn: the user message goes at the end of the transcript, the
        runtime runs on the whole transcript, and the transcript becomes the
        runtime's. The context is the session's own and is never reset. */
    method ProcessMessage(message: string, run: Runner) returns (r: Result<Reply, string>)
      modifies this, ctx
      ensures var sent := old(inputItems) + [UserTurn(message)];
              var result := run(sent, old(ctx.toolCalls), old(ctx.data));
              && ctx.toolCalls == old(ctx.toolCalls) + result.calls
              && ctx.data == old(ctx.data) + result.writes
              && match result
                 case Completed(items, finalOutput, _, _) =>
                   && inputItems == items
                   && r == Success(Reply(ReplyText(finalOutput), ctx.toolCalls, ctx.data))
                 case Raised(error, _, _) =>
                   && inputItems == sent
                   && r == Failure(error)
    {
      inputItems := inputItems + [UserTurn(message)];
      var result := run(inputItems, ctx.toolCalls, ctx.data);
      ctx.toolCalls := ctx.toolCalls + result.calls;
      ctx.data := ctx.data + result.writes;
      match result
      case Raised(error, _, _) =>
        r := Failure(error);
      case Completed(items, finalOutput, _, _) =>
        inputItems := items;
        r := Success(Reply(ReplyText(finalOutput), ctx.toolCalls, ctx.data));
    }
  }

  /** Two turns on one session: the first reply's call log is a prefix of the second's. */
  method ConsecutiveTurns(service: ChatService, first: string, run1: Runner, second: string, run2: Runner)
    returns (r1: Result<Reply, string>, r2: Result<Reply, string>)
    modifies service, service.ctx
    ensures r1.Success? && r2.Success? ==> r1.value.toolCalls <= r2.value.toolCalls
  {
    r1 := service.ProcessMessage(first, run1);
    r2 := service.ProcessMessage(second, run2);
  }

  /** `_session_services` with `get_crm_chat_service`. */
  class SessionRegistry {
    var services: map<string, ChatService>

    /** Every entry is stored under its own session id, and no two entries
        share a service or a context. */
    ghost predicate Valid()
      reads this
    {
      && (forall id :: id in services ==> services[id].sessionId == id)
      && (forall a, b :: a in services && b in services && a != b ==>
            services[a] != services[b] && services[a].ctx != services[b].ctx)
    }

    /** The objects the registry's entries own. */
    ghost function Repr(): (objs: set<object>)
      reads this
    {
      (set id | id in services :: services[id] as object) + (set id | id in services :: services[id].ctx as object)
    }

    constructor ()
      ensures Valid() && services == map[]
    {
      services := map[];
    }

    method GetChatService(sessionId: string) returns (service: ChatService)
      requires Valid()
      modifies this
      ensures Valid()
      ensures sessionId in services && services[sessionId] == service && service.sessionId == sessionId
      ensures forall id :: id in old(services) ==> id in services && services[id] == old(services[id])
      ensures sessionId in old(services) ==> services == old(services)
      ensures sessionId !in old(services) ==>
                && services == old(services)[sessionId := service]
                && fresh(service) && fresh(service.ctx)
                && service.inputItems == [] && service.ctx.toolCalls == [] && service.ctx.data == map[]
    {
      if sessionId in services {
        service := services[sessionId];
      } else {
        service := new ChatService(sessionId);
        services := services[sessionId := service];
      }
    }

    /** The `/chat` request for one session: fetch or create its service and
        run the turn on it. Every other session's transcript and context stay
        as they were. */
    method HandleChat(sessionId: string, message: string, run: Runner) returns (r: Result<Reply, string>)
      requires Valid()
      modifies this, Repr()
      ensures Valid()
      ensures services.Keys == old(services).Keys + {sessionId}
      ensures sessionId in services && services[sessionId].sessionId == sessionId
      ensures forall id :: id in old(services) ==> services[id] == old(services[id])
      ensures var known := sessionId in old(services);
              var items := if known then old(services[sessionId].inputItems) else [];
              var calls := if known then old(services[sessionId].ctx.toolCalls) else [];
              var data := if known then old(services[sessionId].ctx.data) else map[];
              var sent := items + [UserTurn(message)];
              var result := run(sent, calls, data);
              var service := services[sessionId];
              && service.ctx.toolCalls == calls + result.calls
              && service.ctx.data == data + result.writes
              && match result
                 case Completed(newItems, finalOutput, _, _) =>
                   && service.inputItems == newItems
                   && r == Success(Reply(ReplyText(finalOutput), service.ctx.toolCalls, service.ctx.data))
                 case Raised(error, _, _) =>
                   && service.inputItems == sent
                   && r == Failure(error)
      ensures forall id :: id in old(services) && id != sessionId ==>
                && services[id].inputItems == old(services[id].inputItems)
                && services[id].ctx.toolCalls == old(services[id].ctx.toolCalls)
                && services[id].ctx.data == old(services[id].ctx.data)
    {
      var service := GetChatService(sessionId);
      r := service.ProcessMessage(message, run);
    }
  }
}
