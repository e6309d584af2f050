/**
 * The session controller: what happens on `session:new`, and how the
 * notifications that follow are routed to their handlers. Each notification
 * is a typed variant, dispatched by one exhaustive match.
 */
module Session {
  import opened Wrappers
  import opened AgentConfig
  import opened Directives
  import FinalHandler
  import ToolCall

  /** The paths bound on the session before anything else, in order. */
  const RegisteredHooks: seq<string> := ["/event", "/toolCall", "/final", "close", "error"]

  /** The credential counts only when set to a non-empty text: an empty
      environment variable is as good as a missing one. */
  predicate HasCredential(apiKey: Option<string>) {
    apiKey.Some? && apiKey.value != ""
  }

  /** Every hook the agent is told to call has a handler. */
  predicate HooksRegistered(c: LlmConfig, hooks: seq<string>) {
    c.actionHook in hooks && c.eventHook in hooks && c.toolHook in hooks
  }

  /** The handlers bound and the directives issued when a call arrives. */
  datatype SessionStart = SessionStart(hooks: seq<string>, directives: seq<Directive>)

  /** `session:new`: bind the handlers, then either hang up at once (no
      credential) or start the agent and hand the call over to it. */
  function OnSessionNew(apiKey: Option<string>): (r: SessionStart)
    ensures r.hooks == RegisteredHooks
    ensures 0 < |r.directives| && r.directives[|r.directives| - 1] == Send
    ensures !HasCredential(apiKey) ==> r.directives == [Hangup, Send]
    ensures HasCredential(apiKey) ==> r.directives == [Llm(Build(apiKey.value)), Hangup, Send]
    ensures (exists k :: 0 <= k < |r.directives| && r.directives[k].Llm?) <==> HasCredential(apiKey)
    ensures forall k :: 0 <= k < |r.directives| && r.directives[k].Llm? ==>
      && HooksRegistered(r.directives[k].config, r.hooks)
      && r.directives[k].config.apiKey == apiKey.value
  {
    var hooks := RegisteredHooks;
    if !HasCredential(apiKey) then
      SessionStart(hooks, [Hangup, Send])
    else
      var ds := [Llm(Build(apiKey.value)), Hangup, Send];
      assert ds[0].Llm?;
      SessionStart(hooks, ds)
  }

  /** The hooks named in the agent configuration are bound whatever the
      credential, since binding happens before the credential is checked. */
  lemma ConfigHooksRegistered(apiKey: Option<string>, key: string)
    ensures HooksRegistered(Build(key), OnSessionNew(apiKey).hooks)
  {
  }

  /** A notification delivered to a session after it started. */
  datatype Notification =
    | Completed(evt: FinalHandler.CompletionEvent)
    | ToolRequested(inv: ToolCall.ToolInvocation, geo: ToolCall.GeocodeOutcome, weather: ToolCall.WeatherOutcome)
    | AgentEvent
    | Closed
    | Errored

  /** The path a notification arrives on; every one has a handler. */
  function HookOf(n: Notification): (path: string)
    ensures path in RegisteredHooks
  {
    match n
    case Completed(_) => ActionHook
    case ToolRequested(_, _, _) => ToolHook
    case AgentEvent => EventHook
    case Closed => "close"
    case Errored => "error"
  }

  /** The handler does not throw on this notification. */
  predicate Handleable(n: Notification) {
    match n
    case Completed(evt) => FinalHandler.Handleable(evt)
    case ToolRequested(inv, _, _) => ToolCall.Handleable(inv)
    case _ => true
  }

  /** The directives one notification's handler issues; the event, close and
      error handlers only log. */
  function Handle(n: Notification): seq<Directive>
    requires Handleable(n)
  {
    match n
    case Completed(evt) => FinalHandler.OnFinal(evt)
    case ToolRequested(inv, geo, weather) => ToolCall.OnToolCall(inv, geo, weather).directives
    case _ => []
  }

  /** The directives issued for notifications handled one after another. */
  function HandleAll(ns: seq<Notification>): seq<Directive>
    requires forall k :: 0 <= k < |ns| ==> Handleable(ns[k])
  {
    if |ns| == 0 then [] else Handle(ns[0]) + HandleAll(ns[1..])
  }

  /** The correlation ids of the tool calls among `ns`, in order. */
  function ToolCallIds(ns: seq<Notification>): seq<string> {
    if |ns| == 0 then []
    else if ns[0].ToolRequested? then [ns[0].inv.toolCallId] + ToolCallIds(ns[1..])
    else ToolCallIds(ns[1..])
  }

  /** How many completion notifications are among `ns`, and how many of them report failure. */
  function Completions(ns: seq<Notification>): nat {
    if |ns| == 0 then 0 else (if ns[0].Completed? then 1 else 0) + Completions(ns[1..])
  }

  function FailedCompletions(ns: seq<Notification>): nat {
    if |ns| == 0 then 0
    else (if ns[0].Completed? && FinalHandler.IsFailure(ns[0].evt) then 1 else 0) + FailedCompletions(ns[1..])
  }

  /** Every tool call is answered exactly once, in order, under its own
      correlation id, and nothing else sends a tool output. */
  lemma {:induction false} ToolOutputsMatchCalls(ns: seq<Notification>)
    requires forall k :: 0 <= k < |ns| ==> Handleable(ns[k])
    ensures ToolOutputIds(HandleAll(ns)) == ToolCallIds(ns)
    decreases |ns|
  {
    if |ns| > 0 {
      ToolOutputsMatchCalls(ns[1..]);
      ToolOutputIdsAppend(Handle(ns[0]), HandleAll(ns[1..]));
      match ns[0]
      case ToolRequested(inv, geo, weather) =>
        var ds := Handle(ns[0]);
        assert ds[1..] == [];
      case _ =>
    }
  }

  /** Each completion is answered with exactly one `reply`. */
  lemma {:induction false} RepliesMatchCompletions(ns: seq<Notification>)
    requires forall k :: 0 <= k < |ns| ==> Handleable(ns[k])
    ensures multiset(HandleAll(ns))[Reply] == Completions(ns)
    decreases |ns|
  {
    if |ns| > 0 {
      RepliesMatchCompletions(ns[1..]);
      assert multiset(HandleAll(ns)) == multiset(Handle(ns[0])) + multiset(HandleAll(ns[1..]));
    }
  }

  /** A hangup is issued exactly once per failed completion and for nothing else. */
  lemma {:induction false} HangupsMatchFailures(ns: seq<Notification>)
    requires forall k :: 0 <= k < |ns| ==> Handleable(ns[k])
    ensures multiset(HandleAll(ns))[Hangup] == FailedCompletions(ns)
    decreases |ns|
  {
    if |ns| > 0 {
      HangupsMatchFailures(ns[1..]);
      assert multiset(HandleAll(ns)) == multiset(Handle(ns[0])) + multiset(HandleAll(ns[1..]));
      if ns[0].Completed? && FinalHandler.IsFailure(ns[0].evt) {
        var ds := Handle(ns[0]);
        assert ds == [ds[0], Hangup, Reply];
      }
    }
  }
}
