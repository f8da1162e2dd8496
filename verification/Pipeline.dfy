/**
  The planner -> execution -> template/renderer pipeline as a function of what the language
  model and the tools answer. Both may answer anything, and may depend on everything asked
  and run so far: the log of those events is what they are given.
*/
module Pipeline {
  import opened Wrappers
  import opened Json
  import opened Templates

  // ------------------------------------------------------------------ intents, tools

  function ToolHint(intent: string): Option<string> {
    if intent == "support_event" then Some("search_events")
    else if intent == "get_event_details" then Some("get_event_details")
    else if intent == "create_booking" then Some("create_booking")
    else if intent == "get_booking" then Some("get_booking")
    else if intent == "cancel_booking" then Some("cancel_booking")
    else if intent in {"manage_booking", "get_user_bookings"} then Some("search_orders")
    else None
  }

  /** The tools an intent may be offered; None means all. */
  function AllowedTools(intent: string): Option<set<string>> {
    if intent in {"booking", "create_booking"} then
      Some({"search_events", "get_event_details", "check_availability", "get_user_profile"})
    else if intent in {"discover", "support_event", "get_event_details", "search_events"} then
      Some({"search_events", "get_event_details", "get_user_profile", "report_support_issue"})
    else if intent in {"manage_booking", "get_booking", "cancel_booking", "search_orders"} then
      Some({"get_booking", "cancel_booking", "search_orders", "get_user_profile", "report_support_issue"})
    else if intent in {"support_technical", "support_billing", "support_general"} then
      Some({"report_support_issue", "get_user_profile"})
    else if intent in {"greeting", "general_faq", "chit_chat", "fallback"} then
      Some({"get_user_profile"})
    else None
  }

  datatype Tool = Tool(name: string, enabled: bool)

  /** The names of the enabled tools the intent may be offered, in registration order. */
  function Offer(tools: seq<Tool>, allowed: Option<set<string>>): (r: seq<string>)
    ensures forall n :: n in r <==>
      (allowed.Some? ==> n in allowed.value) && exists i :: 0 <= i < |tools| && tools[i] == Tool(n, true)
  {
    if tools == [] then []
    else
      var rest := Offer(tools[1..], allowed);
      assert forall n :: (exists i :: 0 <= i < |tools| && tools[i] == Tool(n, true)) <==>
        tools[0] == Tool(n, true) || exists i :: 0 <= i < |tools[1..]| && tools[1..][i] == Tool(n, true)
      by {
        assert tools == [tools[0]] + tools[1..];
      }
      if tools[0].enabled && (allowed.Some? ==> tools[0].name in allowed.value) then [tools[0].name] + rest else rest
  }

  predicate Registered(tools: seq<Tool>, name: string) {
    exists i :: 0 <= i < |tools| && tools[i].name == name
  }

  // ------------------------------------------------------------- requests and replies

  datatype Call = Call(id: Option<string>, name: string, args: Json)
  datatype Reply = Reply(content: string, calls: seq<Call>, promptTokens: nat, completionTokens: nat) {
    function Tokens(): nat { promptTokens + completionTokens }
  }
  datatype Choice = Unset | Auto | NoTools | Required(tool: string)
  datatype Request = Request(prompt: string, tools: Option<seq<string>>, choice: Choice, results: seq<ToolResult>,
          intent: string)

  /** What leaves the orchestrator: a request to the model, or the run of a tool's function. */
  datatype Event = Asked(request: Request) | Ran(name: string, args: map<string, Json>)
  datatype Outcome = Output(value: Json) | Failed(message: string)

  /**
    The world: the registry (if any), the system's own tool arguments, and, as arbitrary
    functions, the model (None when it raises), the tools, the injection patterns, Python's
    `str`, the token counter and the booking reply filter.
  */
  datatype Setup = Setup(
    registry: Option<seq<Tool>>,
    runtime: map<string, Json>,
    llm: seq<Event> -> Option<Reply>,
    tool: seq<Event> -> Outcome,
    injected: string -> bool,
    show: Json -> string,
    countTokens: seq<ToolResult> -> nat,
    guardBooking: (string, seq<ToolResult>) -> string)

  /** A computation that logged what it did, and gave a value or raised. */
  datatype Step<T> = Step(log: seq<Event>, value: Option<T>)

  /** Tools are attached for reasoning, and taken away when there are results to synthesise. */
  function Attached(s: Setup, r: Request): Request {
    if r.results != [] then r.(tools := None, choice := NoTools)
    else if s.registry.Some? then r.(tools := Some(Offer(s.registry.value, AllowedTools(r.intent))))
    else r
  }

  /** One model call, behind the synthesis gate; a plain-text reply must not be blank. */
  function Generate(s: Setup, log: seq<Event>, request: Request): Step<Reply> {
    var r := Attached(s, request);
    if r.results != [] && r.tools.Some? then Step(log, None)
    else
      var asked := log + [Asked(r)];
      match s.llm(asked)
      case None => Step(asked, None)
      case Some(reply) =>
        if reply.calls != [] then Step(asked, Some(reply))
        else if Strip(reply.content) == "" then Step(asked, None)
        else Step(asked, Some(reply.(content := Strip(reply.content))))
  }

  // --------------------------------------------------------------------------- planner

  predicate Called(reply: Reply, name: string) {
    exists i :: 0 <= i < |reply.calls| && reply.calls[i].name == name
  }

  predicate Meets(hint: Option<string>, reply: Reply) {
    hint.Some? ==> Called(reply, hint.value)
  }

  function Enforced(prompt: string, tool: string): string {
    prompt + "\n\n[CRITICAL: You MUST call the '" + tool + "' tool now. Text responses are forbidden.]"
  }

  function RetryRequest(request: Request, tool: string): Request {
    Request(Enforced(request.prompt, tool), None, Required(tool), [], request.intent)
  }

  const RETRIES: nat := 2

  function Retry(s: Setup, log: seq<Event>, request: Request, hint: Option<string>, attempts: nat,
          last: Reply): Step<Reply>
    decreases attempts
  {
    if attempts == 0 || Meets(hint, last) then Step(log, Some(last))
    else
      var g := Generate(s, log, RetryRequest(request, hint.value));
      if g.value == None then g else Retry(s, g.log, request, hint, attempts - 1, g.value.value)
  }

  function Plan(s: Setup, log: seq<Event>, request: Request, hint: Option<string>): Step<Reply> {
    var g := Generate(s, log, request);
    if g.value == None then g else Retry(s, g.log, request, hint, RETRIES, g.value.value)
  }

  // ------------------------------------------------------------------------- execution

  const RESERVED: set<string> := {"self", "name", "runtime_deps"}
  const REDACTED: string := "[REDACTED" + ": Suspicious content detected in tool output]"
  const INJECTION: string := "[REDACTED: POTENTIAL INJECTION]"
  const FORBIDDEN: set<string> := {"instruction", "command", "task", "execute", "run", "do"}

  /** The model's arguments as keywords, if they can be passed at all. */
  function Keywords(args: Json): Option<map<string, Json>> {
    if Falsy(args) then Some(map[])
    else if args.Obj? && args.fields.Keys !! RESERVED then Some(args.fields)
    else None
  }

  function SanitizeText(s: Setup, text: string): string {
    if text != "" && s.injected(text) then REDACTED else text
  }

  /** The first firewall layer, on the tool's raw output. */
  function Screen(s: Setup, v: Json): Json {
    match v
    case Str(t) => Str(SanitizeText(s, t))
    case Arr(_) => if Contains(SanitizeText(s, s.show(v)), "[REDACTED") then Str(REDACTED) else v
    case Obj(_) => if Contains(SanitizeText(s, s.show(v)), "[REDACTED") then Str(REDACTED) else v
    case _ => v
  }

  /** One tool call: the system's arguments override the model's; whatever goes wrong becomes an `error` entry. */
  function RunOne(s: Setup, tools: seq<Tool>, deps: map<string, Json>, log: seq<Event>, call: Call)
    : (seq<Event>, ToolResult)
  {
    if Keywords(call.args) == None then (log, ToolResult(call.id, call.name, None, Some("bad arguments")))
    else if !Registered(tools, call.name) then (log, ToolResult(call.id, call.name, None, Some("Tool not found")))
    else
      var ran := log + [Ran(call.name, Keywords(call.args).value + deps)];
      match s.tool(ran)
      case Output(v) => (ran, ToolResult(call.id, call.name, Some(Screen(s, v)), None))
      case Failed(m) => (ran, ToolResult(call.id, call.name, None, Some(m)))
  }

  /** All of a reply's calls, one after the other. */
  function RunCalls(s: Setup, tools: seq<Tool>, deps: map<string, Json>, log: seq<Event>, calls: seq<Call>)
    : (seq<Event>, seq<ToolResult>)
  {
    if calls == [] then (log, [])
    else
      var n := |calls| - 1;
      var (before, results) := RunCalls(s, tools, deps, log, calls[..n]);
      var (after, result) := RunOne(s, tools, deps, before, calls[n]);
      (after, results + [result])
  }

  function HandleCalls(s: Setup, deps: map<string, Json>, log: seq<Event>, calls: seq<Call>)
    : (seq<Event>, seq<ToolResult>)
  {
    if calls == [] || s.registry == None then (log, []) else RunCalls(s, s.registry.value, deps, log, calls)
  }

  /** Text that poses as a system or user turn. */
  predicate Posing(v: Json) {
    v.Str? && ("SYSTEM:" <= Strip(v.text) || "USER:" <= Strip(v.text))
  }

  /** The second firewall layer: forbidden keys go, text posing as a turn is blanked. */
  function CleanValue(v: Json): Json {
    if Posing(v) then Str(INJECTION) else v
  }

  function Clean(m: map<string, Json>): map<string, Json> {
    map k | k in m && Lower(k) !in FORBIDDEN :: CleanValue(m[k])
  }

  /** A result without an output, an error that is, gains an empty one. */
  function Sanitized(r: ToolResult): ToolResult {
    match r.output
    case None => r.(output := Some(Obj(map[])))
    case Some(Obj(m)) => r.(output := Some(Obj(Clean(m))))
    case _ => r
  }

  function SanitizedAll(rs: seq<ToolResult>): seq<ToolResult> {
    seq(|rs|, i requires 0 <= i < |rs| => Sanitized(rs[i]))
  }

  // -------------------------------------------------------------------------- rendering

  function LightEvent(e: Json): Json {
    if e.Obj? then Obj(e.fields - {"short_description"}) else e
  }

  /** The renderer's copy of a result: long descriptions of listed events are left out. */
  function Light(r: ToolResult): ToolResult {
    match r.output
    case Some(Obj(m)) =>
      if "events" in m && m["events"].Arr? then
        var events := m["events"].items;
        var light := seq(|events|, i requires 0 <= i < |events| => LightEvent(events[i]));
        r.(output := Some(Obj(m["events" := Arr(light)])))
      else r
    case _ => r
  }

  function LightAll(rs: seq<ToolResult>): seq<ToolResult> {
    seq(|rs|, i requires 0 <= i < |rs| => Light(rs[i]))
  }

  datatype Job = Job(intent: string, session: string, user: string, plannerPrompt: string, rendererPrompt: string)

  datatype Breakdown = Breakdown(plannerPrompt: nat, plannerCompletion: nat, rendererPrompt: nat,
                                 rendererCompletion: nat,
                                 toolResult: nat, savedRenderer: Option<nat>)

  datatype Answer = Answer(content: string, tokens: nat, results: seq<ToolResult>, breakdown: Breakdown)

  const APOLOGY: string := "عذراً، حدث خطأ مؤقت. من فضلك حاول مرة أخرى. 🙏"

  function Deps(s: Setup, job: Job): map<string, Json> {
    var withSession := if job.session != "" then s.runtime["session_id" := Str(job.session)] else s.runtime;
    if job.user != "" then withSession["user_id" := Str(job.user)] else withSession
  }

  function PlannerRequest(job: Job): Request {
    Request(job.plannerPrompt, None, Auto, [], job.intent)
  }

  function RenderRequest(job: Job, results: seq<ToolResult>): Request {
    Request(job.rendererPrompt, None, Unset, results, job.intent)
  }

  function Final(s: Setup, job: Job, content: string, results: seq<ToolResult>): string {
    if job.intent == "booking" then s.guardBooking(content, results) else content
  }

  /** A template answers if one fires; otherwise the renderer is asked. */
  function Synthesise(s: Setup, log: seq<Event>, job: Job, p: Reply, results: seq<ToolResult>): Step<Answer> {
    var counted := Breakdown(p.promptTokens, p.completionTokens, 0, 0, s.countTokens(LightAll(results)), None);
    match Match(results, s.show)
    case Some(t) =>
      var saved := counted.(savedRenderer := Some(SAVED_RENDERER_TOKENS));
      Step(log, Some(Answer(t.response, p.Tokens(), results, saved)))
    case None =>
      var render := Generate(s, log, RenderRequest(job, LightAll(results)));
      match render.value
      case None => Step(render.log, None)
      case Some(r) =>
        Step(render.log,
             Some(Answer(Final(s, job, r.content, results), p.Tokens() + r.Tokens(), results,
                         counted.(rendererPrompt := r.promptTokens, rendererCompletion := r.completionTokens))))
  }

  /** What follows an accepted planner reply that calls tools. */
  function Act(s: Setup, log: seq<Event>, job: Job, p: Reply): Step<Answer> {
    var (ran, raw) := HandleCalls(s, Deps(s, job), log, p.calls);
    Synthesise(s, ran, job, p, SanitizedAll(raw))
  }

  /** An answer that needs no tool. */
  function Plain(job: Job, p: Reply, content: string): Answer {
    Answer(content, p.Tokens(), [], Breakdown(p.promptTokens, p.completionTokens, 0, 0, 0, None))
  }

  function Conclude(s: Setup, log: seq<Event>, job: Job, p: Reply): Step<Answer> {
    if !Meets(ToolHint(job.intent), p) then Step(log, Some(Plain(job, p, APOLOGY)))
    else if p.calls == [] then Step(log, Some(Plain(job, p, Final(s, job, p.content, []))))
    else Act(s, log, job, p)
  }

  function Planner(s: Setup, log: seq<Event>, job: Job): Step<Reply> {
    Plan(s, log, PlannerRequest(job), ToolHint(job.intent))
  }

  /** The whole pipeline. */
  function Execute(s: Setup, log: seq<Event>, job: Job): Step<Answer> {
    var plan := Planner(s, log, job);
    match plan.value
    case None => Step(plan.log, None)
    case Some(p) => Conclude(s, plan.log, job, p)
  }
}
