/** What every pipeline run keeps to, whatever the model and the tools answer. */
module PipelineTheorems {
  import opened Wrappers
  import opened Json
  import opened Templates
  import opened Pipeline

  // ------------------------------------------------------------------ requests and runs

  /** The planner's prompt leaves the choice to the model; with the standing order after it, it forces the hinted tool. */
  predicate Phrased(job: Job, prompt: string, choice: Choice) {
    || (choice == Auto && prompt == job.plannerPrompt)
    || (ToolHint(job.intent).Some? && choice == Required(ToolHint(job.intent).value)
        && prompt == job.plannerPrompt + "\n\n[CRITICAL: You MUST call the '" + ToolHint(job.intent).value
                     + "' tool now. Text responses are forbidden.]")
  }

  /** A planning request: nothing to synthesise, tools only as offered for its intent, the choice free or forced. */
  predicate IsPlanning(s: Setup, job: Job, e: Event) {
    && e.Asked? && e.request.results == []
    && e.request.tools == (if s.registry.Some? then Some(Offer(s.registry.value, AllowedTools(job.intent))) else None)
    && e.request.intent == job.intent
    && Phrased(job, e.request.prompt, e.request.choice)
  }

  /** The reply to the last request of the log, as the pipeline sees it: plain text is stripped. */
  function Accepted(reply: Reply): Reply {
    if reply.calls == [] then reply.(content := Strip(reply.content)) else reply
  }

  /** The model raised, or answered with neither tool calls nor a text that is not blank. */
  ghost predicate Unusable(s: Setup, log: seq<Event>) {
    s.llm(log).None? || (s.llm(log).value.calls == [] && Strip(s.llm(log).value.content) == "")
  }

  /** Between one and `most` planning requests follow, and a reply is the model's answer to the last of them. */
  ghost predicate Planned(s: Setup, job: Job, log: seq<Event>, step: Step<Reply>, most: nat) {
    && log <= step.log
    && |step.log| <= |log| + most
    && (forall i :: |log| <= i < |step.log| ==> IsPlanning(s, job, step.log[i]))
    && (step.value.Some? ==> s.llm(step.log).Some? && step.value.value == Accepted(s.llm(step.log).value))
    && (step.value.None? <==> Unusable(s, step.log))
  }

  lemma GenerateIsPlanned(s: Setup, job: Job, log: seq<Event>, request: Request)
    requires request.results == [] && request.intent == job.intent && request.tools == None
    requires Phrased(job, request.prompt, request.choice)
    ensures Planned(s, job, log, Generate(s, log, request), 1)
    ensures var g := Generate(s, log, request);
            |g.log| == |log| + 1 && g.log[|log|].Asked? && g.log[|log|].request.choice == request.choice
  {
    var r := Attached(s, request);
    assert Generate(s, log, request).log == log + [Asked(r)];
  }

  /** From position `from` on, every request forces the hinted tool. */
  ghost predicate Insisting(log: seq<Event>, from: nat) {
    forall i :: from <= i < |log| ==> log[i].Asked? && log[i].request.choice.Required?
  }

  lemma {:induction false} RetryIsPlanned(s: Setup, job: Job, log: seq<Event>, request: Request, attempts: nat,
          last: Reply)
    requires request.intent == job.intent && request.prompt == job.plannerPrompt
    requires !Unusable(s, log) && last == Accepted(s.llm(log).value)
    ensures Planned(s, job, log, Retry(s, log, request, ToolHint(job.intent), attempts, last), attempts)
    ensures var step := Retry(s, log, request, ToolHint(job.intent), attempts, last);
            step.value.Some? && !Meets(ToolHint(job.intent), step.value.value) ==> |step.log| == |log| + attempts
    ensures Meets(ToolHint(job.intent), last) ==>
              Retry(s, log, request, ToolHint(job.intent), attempts, last).log == log
    ensures Insisting(Retry(s, log, request, ToolHint(job.intent), attempts, last).log, |log|)
    decreases attempts
  {
    var hint := ToolHint(job.intent);
    if attempts > 0 && !Meets(hint, last) {
      var again := RetryRequest(request, hint.value);
      GenerateIsPlanned(s, job, log, again);
      var g := Generate(s, log, again);
      if g.value.Some? {
        RetryIsPlanned(s, job, g.log, request, attempts - 1, g.value.value);
        var step := Retry(s, g.log, request, hint, attempts - 1, g.value.value);
        assert g.log <= step.log;
      }
    }
  }

  /** The reply to the last request of the log calls the hinted tool, if there is one. */
  ghost predicate MeetsAtOnce(s: Setup, job: Job, log: seq<Event>) {
    s.llm(log).Some? && Meets(ToolHint(job.intent), s.llm(log).value)
  }

  /**
    One to three planning requests: the first free, every further one forced. One when the first
    reply calls the hinted tool, or there is none to call; three when no reply calls it.
  */
  lemma PlanIsPlanned(s: Setup, log: seq<Event>, job: Job)
    ensures var plan := Planner(s, log, job);
            && Planned(s, job, log, plan, 1 + RETRIES)
            && |plan.log| > |log|
            && (plan.value.Some? && !Meets(ToolHint(job.intent), plan.value.value) ==>
                |plan.log| == |log| + 1 + RETRIES)
            && plan.log[|log|].Asked? && plan.log[|log|].request.choice == Auto && Insisting(plan.log, |log| + 1)
            && (ToolHint(job.intent) == None || MeetsAtOnce(s, job, plan.log[..|log| + 1]) ==> |plan.log| == |log| + 1)
  {
    var hint := ToolHint(job.intent);
    var request := PlannerRequest(job);
    GenerateIsPlanned(s, job, log, request);
    var g := Generate(s, log, request);
    if g.value.Some? {
      RetryIsPlanned(s, job, g.log, request, RETRIES, g.value.value);
      assert g.log <= Retry(s, g.log, request, hint, RETRIES, g.value.value).log;
    }
    assert Planner(s, log, job).log[..|log| + 1] == g.log;
  }

  /** Arguments Python takes for none. */
  predicate NoArguments(args: Json) {
    args in {Null, Bool(false), Num(0.0), Str(""), Arr([]), Obj(map[])}
  }

  /** Arguments that can be passed by name without clashing with the registry's own. */
  predicate Passable(args: Json) {
    || NoArguments(args)
    || (args.Obj? && "self" !in args.fields && "name" !in args.fields && "runtime_deps" !in args.fields)
  }

  /** What a tool is passed: the system's arguments, and those of the model's that the system does not set. */
  ghost predicate Merged(args: Json, deps: map<string, Json>, passed: map<string, Json>) {
    && (forall k :: k in passed <==> k in deps || (args.Obj? && k in args.fields))
    && (forall k :: k in deps && k in passed ==> passed[k] == deps[k])
    && (forall k :: args.Obj? && k in args.fields && k !in deps && k in passed ==> passed[k] == args.fields[k])
  }

  lemma KeywordsMerge(args: Json, deps: map<string, Json>)
    ensures Keywords(args).Some? <==> Passable(args)
    ensures Keywords(args).Some? ==> Merged(args, deps, Keywords(args).value + deps)
  {
    assert Falsy(args) <==> NoArguments(args);
  }

  /** A run of a registered tool that was called, with the call's arguments and the system's, which win. */
  ghost predicate IsCommanded(tools: seq<Tool>, deps: map<string, Json>, calls: seq<Call>, e: Event) {
    && e.Ran? && Registered(tools, e.name)
    && (exists c :: 0 <= c < |calls| && calls[c].name == e.name && Passable(calls[c].args)
                    && Merged(calls[c].args, deps, e.args))
  }

  /** A result that answers its call, with an error or an output but not both. */
  predicate Answers(call: Call, r: ToolResult) {
    r.name == call.name && r.id == call.id && (r.output == None <==> r.error.Some?)
  }

  /** Only commanded runs, and one result per call, in call order. */
  ghost predicate Executed(tools: seq<Tool>, deps: map<string, Json>, log: seq<Event>, after: seq<Event>,
                           calls: seq<Call>, results: seq<ToolResult>) {
    && log <= after && |after| <= |log| + |calls|
    && (forall i :: |log| <= i < |after| ==> IsCommanded(tools, deps, calls, after[i]))
    && |results| == |calls|
    && forall c :: 0 <= c < |calls| ==> Answers(calls[c], results[c])
  }

  lemma RunOneExecutes(s: Setup, tools: seq<Tool>, deps: map<string, Json>, log: seq<Event>, call: Call)
    ensures var (after, result) := RunOne(s, tools, deps, log, call);
            && Answers(call, result)
            && (after == log || (|after| == |log| + 1 && after[..|log|] == log
                && IsCommanded(tools, deps, [call], after[|log|])))
            && (result.error == None ==> |after| == |log| + 1)
  {
    KeywordsMerge(call.args, deps);
    assert [call][0] == call;
  }

  lemma {:induction false} RunCallsExecutes(s: Setup, tools: seq<Tool>, deps: map<string, Json>, log: seq<Event>,
          calls: seq<Call>)
    ensures var (after, results) := RunCalls(s, tools, deps, log, calls);
        Executed(tools, deps, log, after, calls, results)
  {
    if calls != [] {
      var n := |calls| - 1;
      RunCallsExecutes(s, tools, deps, log, calls[..n]);
      var (before, results) := RunCalls(s, tools, deps, log, calls[..n]);
      RunOneExecutes(s, tools, deps, before, calls[n]);
      var (after, result) := RunOne(s, tools, deps, before, calls[n]);
      ExecutedSnoc(tools, deps, log, before, calls, results, after, result);
    }
  }

  lemma ExecutedSnoc(tools: seq<Tool>, deps: map<string, Json>, log: seq<Event>, before: seq<Event>, calls: seq<Call>,
                     results: seq<ToolResult>, after: seq<Event>, result: ToolResult)
    requires calls != [] && Executed(tools, deps, log, before, calls[..|calls| - 1], results)
    requires Answers(calls[|calls| - 1], result)
    requires after == before || (|after| == |before| + 1 && after[..|before|] == before
                                 && IsCommanded(tools, deps, [calls[|calls| - 1]], after[|before|]))
    ensures Executed(tools, deps, log, after, calls, results + [result])
  {
    var n := |calls| - 1;
    forall i | |log| <= i < |after| ensures IsCommanded(tools, deps, calls, after[i]) {
      if i < |before| {
        assert after[i] == before[i] && IsCommanded(tools, deps, calls[..n], before[i]);
        var c :| 0 <= c < n && calls[..n][c].name == after[i].name && Passable(calls[..n][c].args)
            && Merged(calls[..n][c].args, deps, after[i].args);
        assert calls[c] == calls[..n][c];
      } else {
        assert [calls[n]][0] == calls[n];
      }
    }
  }

  // ------------------------------------------------------------- what each call comes to

  /** The first filter: suspicious text, and any structure whose text is suspicious, is blotted out whole. */
  ghost predicate Screened(s: Setup, v: Json, w: Json) {
    var blot := Str("[REDACTED" + ": Suspicious content detected in tool output]");
    match v
    case Str(t) => w == if t != "" && s.injected(t) then blot else v
    case Arr(_) => w == if Suspect(s, s.show(v)) then blot else v
    case Obj(_) => w == if Suspect(s, s.show(v)) then blot else v
    case _ => w == v
  }

  ghost predicate Suspect(s: Setup, text: string) {
    (text != "" && s.injected(text)) || Contains(text, "[REDACTED")
  }

  /** The second: forbidden keys are dropped, text posing as a turn is replaced, all else stays. */
  ghost predicate Filtered(v: Json, w: Json) {
    if !v.Obj? then w == v
    else
      && w.Obj?
      && (forall k :: k in w.fields <==>
            k in v.fields && Lower(k) !in {"instruction", "command", "task", "execute", "run", "do"})
      && (forall k :: k in w.fields && k in v.fields ==>
            w.fields[k] == if PosesAsTurn(v.fields[k]) then Str("[REDACTED: POTENTIAL INJECTION]") else v.fields[k])
  }

  ghost predicate PosesAsTurn(v: Json) {
    v.Str? && (Strip(v.text)[..if |Strip(v.text)| < 7 then |Strip(v.text)| else 7] == "SYSTEM:"
               || Strip(v.text)[..if |Strip(v.text)| < 5 then |Strip(v.text)| else 5] == "USER:")
  }

  lemma StartsWithIt(part: string, rest: string)
    ensures Contains(part + rest, part)
  {
    assert (part + rest)[0..] == part + rest;
  }

  lemma ScreenScreens(s: Setup, v: Json)
    ensures Screened(s, v, Screen(s, v))
  {
    StartsWithIt("[REDACTED", ": Suspicious content detected in tool output]");
  }

  lemma CleanFilters(v: Json)
    requires v.Obj?
    ensures Filtered(v, Obj(Clean(v.fields)))
  {
    forall k | k in v.fields ensures Posing(v.fields[k]) <==> PosesAsTurn(v.fields[k]) {
    }
  }

  /**
    One call, from the model's words to what is kept of the tool's. If its arguments can be
    passed and its tool is registered, the tool runs once with them and the result is its
    filtered output, or its error; otherwise nothing runs and the result is an error.
  */
  ghost predicate CameTo(s: Setup, tools: seq<Tool>, deps: map<string, Json>, before: seq<Event>, after: seq<Event>,
                         call: Call, r: ToolResult) {
    && r.name == call.name && r.id == call.id && r.output.Some?
    && if Passable(call.args) && Registered(tools, call.name) then
         && |after| == |before| + 1 && after[..|before|] == before
         && after[|before|].Ran? && after[|before|].name == call.name
         && Merged(call.args, deps, after[|before|].args)
         && match s.tool(after)
            case Output(v) => r.error == None && exists w: Json :: Screened(s, v, w) && Filtered(w, r.output.value)
            case Failed(m) => r.error == Some(m) && r.output == Some(Obj(map[]))
       else after == before && r.error.Some? && r.output == Some(Obj(map[]))
  }

  lemma RunOneCameTo(s: Setup, tools: seq<Tool>, deps: map<string, Json>, log: seq<Event>, call: Call)
    ensures var (after, r) := RunOne(s, tools, deps, log, call); CameTo(s, tools, deps, log, after, call, Sanitized(r))
  {
    KeywordsMerge(call.args, deps);
    var (after, r) := RunOne(s, tools, deps, log, call);
    if r.output.Some? {
      assert after == log + [Ran(call.name, Keywords(call.args).value + deps)];
      var v := s.tool(after).value;
      ScreenScreens(s, v);
      if Screen(s, v).Obj? {
        CleanFilters(Screen(s, v));
      }
      assert Screened(s, v, Screen(s, v)) && Filtered(Screen(s, v), Sanitized(r).output.value);
    }
  }

  /** The calls one after the other, each starting from what the one before left. */
  ghost predicate InTurn(s: Setup, tools: seq<Tool>, deps: map<string, Json>, cuts: seq<seq<Event>>, calls: seq<Call>,
                         results: seq<ToolResult>) {
    && |cuts| == |calls| + 1 && |results| == |calls|
    && forall c :: 0 <= c < |calls| ==> CameTo(s, tools, deps, cuts[c], cuts[c + 1], calls[c], results[c])
  }

  lemma {:induction false} CallsComeToTurns(s: Setup, tools: seq<Tool>, deps: map<string, Json>, log: seq<Event>,
          calls: seq<Call>) returns (cuts: seq<seq<Event>>)
    ensures var (after, raw) := RunCalls(s, tools, deps, log, calls);
            && InTurn(s, tools, deps, cuts, calls, SanitizedAll(raw)) && cuts[0] == log && cuts[|calls|] == after
  {
    if calls == [] {
      cuts := [log];
    } else {
      var n := |calls| - 1;
      var (before, raw) := RunCalls(s, tools, deps, log, calls[..n]);
      var head := CallsComeToTurns(s, tools, deps, log, calls[..n]);
      RunOneCameTo(s, tools, deps, before, calls[n]);
      var (after, r) := RunOne(s, tools, deps, before, calls[n]);
      cuts := head + [after];
      assert SanitizedAll(raw + [r]) == SanitizedAll(raw) + [Sanitized(r)];
      forall c | 0 <= c < |calls|
        ensures CameTo(s, tools, deps, cuts[c], cuts[c + 1], calls[c], SanitizedAll(raw + [r])[c])
      {
        if c < n {
          assert calls[c] == calls[..n][c] && cuts[c] == head[c] && cuts[c + 1] == head[c + 1];
        }
      }
    }
  }

  // -------------------------------------------------------------- the shape of every run

  /** Model calls of a stretch of the log. */
  function Asks(log: seq<Event>): nat {
    if log == [] then 0 else Asks(log[..|log| - 1]) + if log[|log| - 1].Asked? then 1 else 0
  }

  /**
    The three stages of a run: `log[from..a]` are planning requests, `log[a..b]` are tool runs,
    and at most one rendering request follows, which carries no tools and cannot.
  */
  ghost predicate Staged(s: Setup, job: Job, start: nat, a: nat, b: nat, log: seq<Event>) {
    && start < a <= b <= |log| <= b + 1
    && a <= start + 3
    && (forall i :: start <= i < a ==> IsPlanning(s, job, log[i]))
    && (forall i :: a <= i < b ==> log[i].Ran?)
    && (b < |log| ==>
          && log[b].Asked? && log[b].request.tools == None && log[b].request.prompt == job.rendererPrompt
          && (s.registry.Some? ==> log[b].request.results != [] && log[b].request.choice == NoTools))
  }

  /**
    Nothing ran unless the reply that was acted on calls the hinted tool, if there is one;
    and what ran were registered tools that reply called, with the system's arguments in force.
  */
  ghost predicate Authorised(s: Setup, job: Job, a: nat, b: nat, log: seq<Event>) {
    b > a ==>
      && b <= |log| && s.registry.Some? && s.llm(log[..a]).Some?
      && Meets(ToolHint(job.intent), s.llm(log[..a]).value)
      && forall i :: a <= i < b ==> IsCommanded(s.registry.value, Deps(s, job), s.llm(log[..a]).value.calls, log[i])
  }

  lemma ToolStage(s: Setup, job: Job, log: seq<Event>, calls: seq<Call>)
    ensures var (ran, raw) := HandleCalls(s, Deps(s, job), log, calls);
            && log <= ran
            && (forall i :: |log| <= i < |ran| ==> ran[i].Ran?)
            && (s.registry.Some? && calls != [] ==> Executed(s.registry.value, Deps(s, job), log, ran, calls, raw))
            && (s.registry == None || calls == [] ==> ran == log && raw == [])
  {
    if s.registry.Some? && calls != [] {
      RunCallsExecutes(s, s.registry.value, Deps(s, job), log, calls);
      var (ran, raw) := HandleCalls(s, Deps(s, job), log, calls);
      forall i | |log| <= i < |ran| ensures ran[i].Ran? {
        assert IsCommanded(s.registry.value, Deps(s, job), calls, ran[i]);
      }
    }
  }

  /** A rendering request is asked exactly when no template fires. */
  lemma SynthesisStage(s: Setup, log: seq<Event>, job: Job, p: Reply, results: seq<ToolResult>)
    ensures var end := Synthesise(s, log, job, p, results);
            && (Match(results, s.show).Some? ==>
                  end.log == log && end.value.Some? && end.value.value.content == Match(results, s.show).value.response)
            && (Match(results, s.show) == None ==>
                  end.log == log + [Asked(Attached(s, RenderRequest(job, LightAll(results))))])
            && (end.value.Some? ==> end.value.value.results == results)
  {
  }

  /** The breakdown of a synthesised answer, and the renderer's reply behind it. */
  lemma SynthesisCharges(s: Setup, log: seq<Event>, job: Job, p: Reply, results: seq<ToolResult>)
    requires Synthesise(s, log, job, p, results).value.Some?
    ensures var end := Synthesise(s, log, job, p, results); var ans := end.value.value;
            && ans.breakdown.plannerPrompt == p.promptTokens && ans.breakdown.plannerCompletion == p.completionTokens
            && ans.breakdown.toolResult == s.countTokens(LightAll(results))
            && (Match(results, s.show).Some? ==> ans.breakdown.savedRenderer == Some(600) && !Rendered(ans))
            && (Match(results, s.show) == None ==>
                  s.llm(end.log).Some? && RenderedBy(s, job, Accepted(s.llm(end.log).value), ans))
  {
  }

  lemma ActIsStaged(s: Setup, start: nat, log: seq<Event>, job: Job, p: Reply) returns (b: nat)
    requires start < |log| <= start + 3 && forall i :: start <= i < |log| ==> IsPlanning(s, job, log[i])
    requires p.calls != []
    ensures b == |HandleCalls(s, Deps(s, job), log, p.calls).0|
    ensures log <= HandleCalls(s, Deps(s, job), log, p.calls).0 <= Act(s, log, job, p).log
    ensures Staged(s, job, start, |log|, b, Act(s, log, job, p).log)
  {
    var (ran, raw) := HandleCalls(s, Deps(s, job), log, p.calls);
    ToolStage(s, job, log, p.calls);
    SynthesisStage(s, ran, job, p, SanitizedAll(raw));
    b := |ran|;
  }

  /** What runs after an accepted reply is authorised by it. */
  lemma ActIsAuthorised(s: Setup, job: Job, log: seq<Event>, p: Reply, end: seq<Event>)
    requires s.llm(log).Some? && p == Accepted(s.llm(log).value) && p.calls != [] && Meets(ToolHint(job.intent), p)
    requires HandleCalls(s, Deps(s, job), log, p.calls).0 <= end && log <= end
    ensures Authorised(s, job, |log|, |HandleCalls(s, Deps(s, job), log, p.calls).0|, end)
  {
    ToolStage(s, job, log, p.calls);
    var ran := HandleCalls(s, Deps(s, job), log, p.calls).0;
    assert end[..|log|] == log;
    assert forall i :: 0 <= i < |ran| ==> end[i] == ran[i];
  }

  lemma RunIsStaged(s: Setup, log: seq<Event>, job: Job) returns (a: nat, b: nat)
    ensures log <= Execute(s, log, job).log
    ensures Staged(s, job, |log|, a, b, Execute(s, log, job).log)
    ensures Authorised(s, job, a, b, Execute(s, log, job).log)
    ensures a == |Planner(s, log, job).log|
  {
    var plan := Planner(s, log, job);
    PlanIsPlanned(s, log, job);
    a, b := |plan.log|, |plan.log|;
    if plan.value.Some? && Meets(ToolHint(job.intent), plan.value.value) && plan.value.value.calls != [] {
      b := ActIsStaged(s, |log|, plan.log, job, plan.value.value);
      ActIsAuthorised(s, job, plan.log, plan.value.value, Execute(s, log, job).log);
    }
  }

  /** The arguments the system sets: its own, and the session and user the request is for. */
  ghost predicate CallersOwn(s: Setup, job: Job, args: map<string, Json>) {
    && (job.session != "" ==> "session_id" in args && args["session_id"] == Str(job.session))
    && (job.user != "" ==> "user_id" in args && args["user_id"] == Str(job.user))
    && (forall k :: k in s.runtime && (k != "session_id" || job.session == "") && (k != "user_id" || job.user == "") ==>
          k in args && args[k] == s.runtime[k])
  }

  lemma CommandedIsOwn(s: Setup, job: Job, tools: seq<Tool>, calls: seq<Call>, e: Event)
    requires IsCommanded(tools, Deps(s, job), calls, e)
    ensures CallersOwn(s, job, e.args)
  {
    assert "session_id" != "user_id";
  }

  /** Whatever the model puts into a call, the tool runs for the session and the user of the request. */
  lemma ToolsRunForTheCaller(s: Setup, log: seq<Event>, job: Job, i: nat)
    requires |log| <= i < |Execute(s, log, job).log| && Execute(s, log, job).log[i].Ran?
    ensures CallersOwn(s, job, Execute(s, log, job).log[i].args)
  {
    var a, b := RunIsStaged(s, log, job);
    StagedRunIsOwn(s, job, |log|, a, b, Execute(s, log, job).log, i);
  }

  lemma StagedRunIsOwn(s: Setup, job: Job, start: nat, a: nat, b: nat, log: seq<Event>, i: nat)
    requires Staged(s, job, start, a, b, log) && Authorised(s, job, a, b, log) && start <= i < |log| && log[i].Ran?
    ensures CallersOwn(s, job, log[i].args)
  {
    assert i < a ==> IsPlanning(s, job, log[i]);
    CommandedIsOwn(s, job, s.registry.value, s.llm(log[..a]).value.calls, log[i]);
  }

  lemma {:induction false} AsksOfStages(s: Setup, job: Job, start: nat, a: nat, b: nat, log: seq<Event>)
    requires Staged(s, job, start, a, b, log)
    ensures Asks(log) <= Asks(log[..start]) + 4
  {
    AsksGrow(log, start, a);
    AsksStay(log, a, b);
    AsksGrow(log, b, |log|);
    assert log[..|log|] == log;
  }

  lemma {:induction false} AsksGrow(log: seq<Event>, lo: nat, hi: nat)
    requires lo <= hi <= |log|
    ensures Asks(log[..hi]) <= Asks(log[..lo]) + (hi - lo)
    decreases hi
  {
    if lo < hi {
      AsksGrow(log, lo, hi - 1);
      assert log[..hi][..hi - 1] == log[..hi - 1];
    }
  }

  lemma {:induction false} AsksStay(log: seq<Event>, lo: nat, hi: nat)
    requires lo <= hi <= |log| && forall i :: lo <= i < hi ==> log[i].Ran?
    ensures Asks(log[..hi]) == Asks(log[..lo])
    decreases hi
  {
    if lo < hi {
      AsksStay(log, lo, hi - 1);
      assert log[..hi][..hi - 1] == log[..hi - 1];
    }
  }

  /** A run makes at most four model calls. */
  lemma AtMostFourCalls(s: Setup, log: seq<Event>, job: Job)
    ensures Asks(Execute(s, log, job).log) <= Asks(log) + 4
  {
    var a, b := RunIsStaged(s, log, job);
    AsksOfStages(s, job, |log|, a, b, Execute(s, log, job).log);
    assert Execute(s, log, job).log[..|log|] == log;
  }

  /** The synthesis gate never trips: what is attached always passes it. */
  lemma GateNeverTrips(s: Setup, log: seq<Event>, request: Request)
    ensures Generate(s, log, request).log == log + [Asked(Attached(s, request))]
    ensures Generate(s, log, request).value.Some? ==> s.llm(log + [Asked(Attached(s, request))]).Some?
  {
  }

  /** A run raises exactly when its last request gets no usable reply: nothing else can. */
  lemma RaisesIff(s: Setup, log: seq<Event>, job: Job)
    ensures var end := Execute(s, log, job);
            && end.log != []
            && (end.value.None? <==> end.log[|end.log| - 1].Asked? && Unusable(s, end.log))
  {
    var plan := Planner(s, log, job);
    PlanIsPlanned(s, log, job);
    assert IsPlanning(s, job, plan.log[|plan.log| - 1]);
    if plan.value.Some? && Meets(ToolHint(job.intent), plan.value.value) && plan.value.value.calls != [] {
      ActRaisesIff(s, plan.log, job, plan.value.value);
    }
  }

  lemma ActRaisesIff(s: Setup, log: seq<Event>, job: Job, p: Reply)
    requires p.calls != [] && log != []
    ensures var end := Act(s, log, job, p);
            && end.log != []
            && (end.value.None? <==> end.log[|end.log| - 1].Asked? && Unusable(s, end.log))
  {
    var (ran, raw) := HandleCalls(s, Deps(s, job), log, p.calls);
    ToolStage(s, job, log, p.calls);
    SynthesisStage(s, ran, job, p, SanitizedAll(raw));
    if s.registry.Some? && Match(SanitizedAll(raw), s.show).Some? {
      OneResultRan(s, s.registry.value, Deps(s, job), log, p.calls);
    }
  }

  // ------------------------------------------------------------------------- the answer

  /** No forbidden key, and no text posing as a system or user turn, at the top level of a result's output. */
  predicate Safe(r: ToolResult) {
    && r.output.Some?
    && (r.output.value.Obj? ==>
          forall k :: k in r.output.value.fields ==> Lower(k) !in FORBIDDEN && !Posing(r.output.value.fields[k]))
  }

  lemma LightIsSafe(r: ToolResult)
    requires Safe(r)
    ensures Safe(Light(r)) && Light(r).name == r.name && Light(r).id == r.id && Light(r).error == r.error
  {
  }

  /** The renderer's copy of a result: listed events lose their short description, and nothing else changes. */
  ghost predicate Lightened(r: ToolResult, q: ToolResult) {
    && q.name == r.name && q.id == r.id && q.error == r.error
    && if !(r.output.Some? && ListsEvents(r.output.value)) then q.output == r.output
       else
         && q.output.Some? && ListsEvents(q.output.value)
         && var m, m' := r.output.value.fields, q.output.value.fields;
            && m'.Keys == m.Keys && (forall k :: k in m && k != "events" ==> m'[k] == m[k])
            && |m'["events"].items| == |m["events"].items|
            && forall i :: 0 <= i < |m["events"].items| ==> Shortened(m["events"].items[i], m'["events"].items[i])
  }

  predicate ListsEvents(v: Json) {
    v.Obj? && "events" in v.fields && v.fields["events"].Arr?
  }

  ghost predicate Shortened(v: Json, w: Json) {
    if !v.Obj? then w == v
    else
      && w.Obj? && (forall k :: k in w.fields <==> k in v.fields && k != "short_description")
      && (forall k :: k in w.fields && k in v.fields ==> w.fields[k] == v.fields[k])
  }

  lemma LightMeaning(r: ToolResult)
    ensures Lightened(r, Light(r))
  {
    if r.output.Some? && ListsEvents(r.output.value) {
      var items := r.output.value.fields["events"].items;
      forall i | 0 <= i < |items| ensures Shortened(items[i], LightEvent(items[i])) {
      }
    }
  }

  lemma StripOfMarker()
    ensures Strip(INJECTION) == INJECTION
  {
  }

  lemma SanitizedIsSafe(r: ToolResult)
    ensures Safe(Sanitized(r)) && Sanitized(Sanitized(r)) == Sanitized(r)
    ensures r.output.Some? ==> Filtered(r.output.value, Sanitized(r).output.value)
  {
    StripOfMarker();
    if r.output.Some? && r.output.value.Obj? {
      CleanFilters(r.output.value);
      var m := r.output.value.fields;
      assert Clean(Clean(m)) == Clean(m);
    }
  }

  /** The same at every depth, through dicts and lists. */
  predicate DeepSafe(v: Json)
    decreases v
  {
    match v
    case Obj(m) => forall k :: k in m ==> Lower(k) !in FORBIDDEN && !Posing(m[k]) && DeepSafe(m[k])
    case Arr(a) => forall i :: 0 <= i < |a| ==> !Posing(a[i]) && DeepSafe(a[i])
    case _ => true
  }

  /**
    The filter works on one level: a sanitised dict is safe at every depth exactly when every
    value it kept already was, and any other output only if it was before.
  */
  lemma DeepSafeIff(r: ToolResult)
    ensures Sanitized(r).output.Some?
    ensures DeepSafe(Sanitized(r).output.value) <==>
              match r.output
              case None => true
              case Some(Obj(m)) => forall k :: k in m && Lower(k) !in FORBIDDEN ==> DeepSafe(m[k])
              case Some(v) => DeepSafe(v)
  {
    StripOfMarker();
    if r.output.Some? && r.output.value.Obj? {
      var m, c := r.output.value.fields, Clean(r.output.value.fields);
      forall k | k in c ensures Lower(k) !in FORBIDDEN && !Posing(c[k]) && (DeepSafe(c[k]) <==> DeepSafe(m[k])) {
      }
    }
  }

  /** For instance, a forbidden key one level down is passed on as it is. */
  lemma NestedKeysPass(r: ToolResult, inner: map<string, Json>, key: string)
    requires r.output == Some(Obj(map["data" := Obj(inner)])) && key in inner && Lower(key) in FORBIDDEN
    ensures Sanitized(r) == r && !DeepSafe(Sanitized(r).output.value)
  {
    var m: map<string, Json> := map["data" := Obj(inner)];
    assert Lower("data") == "data" by {
      assert forall i :: 0 <= i < |"data"| ==> !IsUpper("data"[i]);
      LowerFixes("data");
    }
    assert "data" !in FORBIDDEN;
    assert Clean(m) == m;
    assert "data" in m && !DeepSafe(m["data"]);
  }

  /** The reply a run acted on. */
  ghost predicate Acted(s: Setup, job: Job, log: seq<Event>, a: nat, p: Reply) {
    a <= |log| && s.llm(log[..a]).Some? && p == Accepted(s.llm(log[..a]).value)
  }

  /** Results match the calls acted on, one each and in order, and are safe to show a model. */
  ghost predicate Faithful(calls: seq<Call>, results: seq<ToolResult>) {
    && |results| == |calls|
    && forall c :: 0 <= c < |calls| ==>
         results[c].name == calls[c].name && results[c].id == calls[c].id && Safe(results[c])
  }

  /** The text of a reply as it leaves the pipeline: for booking, through the guard. */
  ghost predicate Uttered(s: Setup, job: Job, content: string, results: seq<ToolResult>, said: string) {
    if job.intent == "booking" then said == s.guardBooking(content, results) else said == content
  }

  /** How a run that answers came by its answer: apology, plain text, template or renderer; and its breakdown. */
  ghost predicate Explained(s: Setup, job: Job, a: nat, b: nat, log: seq<Event>, p: Reply, ans: Answer) {
    && ans.breakdown.plannerPrompt == p.promptTokens && ans.breakdown.plannerCompletion == p.completionTokens
    && if !Meets(ToolHint(job.intent), p) then
         && ans.content == "عذراً، حدث خطأ مؤقت. من فضلك حاول مرة أخرى. 🙏"
         && ToldPlainly(ans) && a == b == |log|
       else if p.calls == [] then
         Uttered(s, job, p.content, [], ans.content) && ToldPlainly(ans) && a == b == |log|
       else
         && (s.registry.Some? ==> Faithful(p.calls, ans.results))
         && (s.registry == None ==> ans.results == [] && a == b)
         && ans.breakdown.toolResult == s.countTokens(LightAll(ans.results))
         && (|log| == b <==> Match(ans.results, s.show).Some?)
         && (|log| == b ==>
               && |p.calls| == 1 && b == a + 1 && ans.results[0].error == None
               && ans.content == Match(ans.results, s.show).value.response
               && ans.breakdown.savedRenderer == Some(600) && !Rendered(ans))
         && (b < |log| ==>
               && log[b].Asked? && log[b].request.results == LightAll(ans.results)
               && (s.registry.Some? ==> Faithful(p.calls, log[b].request.results))
               && s.llm(log).Some? && RenderedBy(s, job, Accepted(s.llm(log).value), ans))
  }

  ghost predicate Rendered(ans: Answer) {
    ans.breakdown.rendererPrompt != 0 || ans.breakdown.rendererCompletion != 0
  }

  /** Without tools: no results, no renderer, nothing saved. */
  ghost predicate ToldPlainly(ans: Answer) {
    && ans.results == [] && !Rendered(ans) && ans.breakdown.toolResult == 0 && ans.breakdown.savedRenderer == None
  }

  /** The renderer's reply is the answer, and its tokens are charged to it. */
  ghost predicate RenderedBy(s: Setup, job: Job, r: Reply, ans: Answer) {
    && Uttered(s, job, r.content, ans.results, ans.content) && ans.breakdown.savedRenderer == None
    && ans.breakdown.rendererPrompt == r.promptTokens && ans.breakdown.rendererCompletion == r.completionTokens
  }

  /** The results of an answer are what the calls acted on came to, one after the other, between the two logs. */
  ghost predicate ResultsComeTo(s: Setup, job: Job, cuts: seq<seq<Event>>, before: seq<Event>, after: seq<Event>,
                                p: Reply, results: seq<ToolResult>) {
    s.registry.Some? && p.calls != [] && Meets(ToolHint(job.intent), p) ==>
      && InTurn(s, s.registry.value, Deps(s, job), cuts, p.calls, results)
      && cuts[0] == before && cuts[|p.calls|] == after
  }

  lemma AnswerIsExplained(s: Setup, log: seq<Event>, job: Job)
    returns (a: nat, b: nat, p: Reply, cuts: seq<seq<Event>>)
    requires Execute(s, log, job).value.Some?
    ensures Staged(s, job, |log|, a, b, Execute(s, log, job).log)
    ensures Acted(s, job, Execute(s, log, job).log, a, p)
    ensures Explained(s, job, a, b, Execute(s, log, job).log, p, Execute(s, log, job).value.value)
    ensures var end := Execute(s, log, job);
            ResultsComeTo(s, job, cuts, end.log[..a], end.log[..b], p, end.value.value.results)
  {
    var plan := Planner(s, log, job);
    PlanIsPlanned(s, log, job);
    p := plan.value.value;
    a, b, cuts := |plan.log|, |plan.log|, [];
    if Meets(ToolHint(job.intent), p) && p.calls != [] {
      b := ActIsStaged(s, |log|, plan.log, job, p);
      ActIsExplained(s, plan.log, job, p);
      cuts := ActComesTo(s, plan.log, job, p);
    }
    assert Execute(s, log, job).log[..a] == plan.log;
  }

  lemma ActComesTo(s: Setup, log: seq<Event>, job: Job, p: Reply) returns (cuts: seq<seq<Event>>)
    requires p.calls != [] && Act(s, log, job, p).value.Some?
    ensures var ran, end := HandleCalls(s, Deps(s, job), log, p.calls).0, Act(s, log, job, p);
            && ran <= end.log && end.log[..|ran|] == ran
            && ResultsComeTo(s, job, cuts, log, ran, p, end.value.value.results)
  {
    cuts := [];
    var (ran, raw) := HandleCalls(s, Deps(s, job), log, p.calls);
    SynthesisStage(s, ran, job, p, SanitizedAll(raw));
    if s.registry.Some? {
      cuts := CallsComeToTurns(s, s.registry.value, Deps(s, job), log, p.calls);
    }
  }

  /** The case where tools were called. */
  lemma ActIsExplained(s: Setup, log: seq<Event>, job: Job, p: Reply)
    requires p.calls != [] && Meets(ToolHint(job.intent), p) && Act(s, log, job, p).value.Some?
    ensures Explained(s, job, |log|, |HandleCalls(s, Deps(s, job), log, p.calls).0|,
                      Act(s, log, job, p).log, p, Act(s, log, job, p).value.value)
  {
    var (ran, raw) := HandleCalls(s, Deps(s, job), log, p.calls);
    var results := SanitizedAll(raw);
    ToolStage(s, job, log, p.calls);
    SynthesisStage(s, ran, job, p, results);
    SynthesisCharges(s, ran, job, p, results);
    if s.registry.Some? {
      ResultsAreFaithful(p.calls, raw);
      if Match(results, s.show).Some? {
        OneResultRan(s, s.registry.value, Deps(s, job), log, p.calls);
      }
    }
  }

  lemma ResultsAreFaithful(calls: seq<Call>, raw: seq<ToolResult>)
    requires |raw| == |calls| && forall c :: 0 <= c < |calls| ==> Answers(calls[c], raw[c])
    ensures Faithful(calls, SanitizedAll(raw)) && Faithful(calls, LightAll(SanitizedAll(raw)))
    ensures forall c :: 0 <= c < |raw| ==> SanitizedAll(raw)[c].error == raw[c].error
  {
    forall c | 0 <= c < |raw|
      ensures Safe(Sanitized(raw[c])) && Sanitized(raw[c]).error == raw[c].error
      ensures Safe(Light(Sanitized(raw[c])))
      ensures Light(Sanitized(raw[c])).name == raw[c].name && Light(Sanitized(raw[c])).id == raw[c].id
    {
      SanitizedIsSafe(raw[c]);
      LightIsSafe(Sanitized(raw[c]));
    }
  }

  /** A template only ever answers for a single call whose tool ran and did not fail. */
  lemma OneResultRan(s: Setup, tools: seq<Tool>, deps: map<string, Json>, log: seq<Event>, calls: seq<Call>)
    requires Match(SanitizedAll(RunCalls(s, tools, deps, log, calls).1), s.show).Some?
    ensures |calls| == 1 && RunCalls(s, tools, deps, log, calls).1[0].error == None
    ensures |RunCalls(s, tools, deps, log, calls).0| == |log| + 1
  {
    RunCallsExecutes(s, tools, deps, log, calls);
    var raw := RunCalls(s, tools, deps, log, calls).1;
    MatchNeedsSuccess(raw, s.show);
    assert Answers(calls[0], raw[0]);
    assert RunCalls(s, tools, deps, log, calls[..0]) == (log, []);
    RunOneExecutes(s, tools, deps, log, calls[0]);
  }

  /** An error's empty output matches no template. */
  lemma MatchNeedsSuccess(raw: seq<ToolResult>, show: Json -> string)
    requires Match(SanitizedAll(raw), show).Some?
    ensures |raw| == 1 && raw[0].output.Some?
  {
    MatchMeaning(SanitizedAll(raw), show);
    assert SanitizedAll(raw)[0] == Sanitized(raw[0]);
  }

  // ------------------------------------------------------------------------- the tokens

  /** Tokens the model really spent over a log: every answered request counts. */
  function Spent(s: Setup, log: seq<Event>): nat {
    if log == [] then 0
    else Spent(s, log[..|log| - 1]) + if log[|log| - 1].Asked? && s.llm(log).Some? then s.llm(log).value.Tokens() else 0
  }

  lemma SpentStep(s: Setup, log: seq<Event>, e: Event)
    ensures Spent(s, log + [e]) == Spent(s, log)
            + if e.Asked? && s.llm(log + [e]).Some? then s.llm(log + [e]).value.Tokens() else 0
  {
    assert (log + [e])[..|log|] == log;
  }

  lemma {:induction false} SpentOnTools(s: Setup, log: seq<Event>, a: nat)
    requires a <= |log| && forall i :: a <= i < |log| ==> log[i].Ran?
    ensures Spent(s, log) == Spent(s, log[..a])
    decreases |log|
  {
    if a < |log| {
      var n := |log| - 1;
      SpentOnTools(s, log[..n], a);
      assert log[..n][..a] == log[..a];
    } else {
      assert log[..a] == log;
    }
  }

  /** The tokens of the planner replies that were thrown away and asked again. */
  function Discarded(s: Setup, log: seq<Event>, job: Job): int {
    var plan := Planner(s, log, job);
    if plan.value == None then 0 else Spent(s, plan.log) - Spent(s, log) - plan.value.value.Tokens()
  }

  lemma {:induction false} RetrySpends(s: Setup, log: seq<Event>, request: Request, hint: Option<string>,
          attempts: nat, last: Reply)
    ensures var step := Retry(s, log, request, hint, attempts, last);
            step.value.Some? ==> Spent(s, step.log) + last.Tokens() >= Spent(s, log) + step.value.value.Tokens()
    decreases attempts
  {
    if attempts > 0 && !Meets(hint, last) {
      var again := RetryRequest(request, hint.value);
      var g := Generate(s, log, again);
      SpentStep(s, log, Asked(Attached(s, again)));
      if g.value.Some? {
        RetrySpends(s, g.log, request, hint, attempts - 1, g.value.value);
      }
    }
  }

  /** Everything after the planner is charged in full, and itemised. */
  lemma ActSpends(s: Setup, log: seq<Event>, job: Job, p: Reply)
    requires Act(s, log, job, p).value.Some?
    ensures var end := Act(s, log, job, p);
            && Itemised(end.value.value)
            && Spent(s, end.log) - Spent(s, log) == end.value.value.tokens - p.Tokens()
  {
    var (ran, raw) := HandleCalls(s, Deps(s, job), log, p.calls);
    ToolStage(s, job, log, p.calls);
    SpentOnTools(s, ran, |log|);
    assert ran[..|log|] == log;
    SpentStep(s, ran, Asked(Attached(s, RenderRequest(job, LightAll(SanitizedAll(raw))))));
  }

  predicate Itemised(ans: Answer) {
    ans.tokens == ans.breakdown.plannerPrompt + ans.breakdown.plannerCompletion
                  + ans.breakdown.rendererPrompt + ans.breakdown.rendererCompletion
  }

  lemma DiscardedMeaning(s: Setup, log: seq<Event>, job: Job)
    ensures Discarded(s, log, job) >= 0
    ensures var first := Generate(s, log, PlannerRequest(job));
            first.value.Some? && Meets(ToolHint(job.intent), first.value.value) ==> Discarded(s, log, job) == 0
  {
    var request := PlannerRequest(job);
    var g := Generate(s, log, request);
    SpentStep(s, log, Asked(Attached(s, request)));
    if g.value.Some? {
      RetrySpends(s, g.log, request, ToolHint(job.intent), RETRIES, g.value.value);
    }
  }

  /**
    The reported total is the breakdown's planner and renderer tokens, and everything spent
    except the discarded planner replies: those are never charged, and there are none when the
    first reply passes.
  */
  lemma TokensAccounted(s: Setup, log: seq<Event>, job: Job)
    requires Execute(s, log, job).value.Some?
    ensures var end := Execute(s, log, job);
            && Itemised(end.value.value)
            && Spent(s, end.log) - Spent(s, log) == end.value.value.tokens + Discarded(s, log, job)
    ensures Discarded(s, log, job) >= 0
    ensures var first := Generate(s, log, PlannerRequest(job));
            first.value.Some? && Meets(ToolHint(job.intent), first.value.value) ==> Discarded(s, log, job) == 0
  {
    DiscardedMeaning(s, log, job);
    var plan := Planner(s, log, job);
    var p := plan.value.value;
    if Meets(ToolHint(job.intent), p) && p.calls != [] {
      ActSpends(s, plan.log, job, p);
    }
  }

  // ------------------------------------------------------------- which tools, for whom

  predicate Books(intent: string) { intent in {"booking", "create_booking"} }
  predicate Discovers(intent: string) { intent in {"discover", "support_event", "get_event_details", "search_events"} }
  predicate Manages(intent: string) { intent in {"manage_booking", "get_booking", "cancel_booking", "search_orders"} }
  predicate AsksSupport(intent: string) { intent in {"support_technical", "support_billing", "support_general"} }
  predicate Chats(intent: string) { intent in {"greeting", "general_faq", "chit_chat", "fallback"} }

  /** The intents each tool may be offered to; any intent outside all groups is offered everything. */
  predicate MayBeOffered(tool: string, intent: string) {
    || !(Books(intent) || Discovers(intent) || Manages(intent) || AsksSupport(intent) || Chats(intent))
    || tool == "get_user_profile"
    || (tool == "report_support_issue" && (Discovers(intent) || Manages(intent) || AsksSupport(intent)))
    || (tool in {"search_events", "get_event_details"} && (Books(intent) || Discovers(intent)))
    || (tool == "check_availability" && Books(intent))
    || (tool in {"get_booking", "cancel_booking", "search_orders"} && Manages(intent))
  }

  predicate Allows(intent: string, tool: string) {
    AllowedTools(intent).Some? ==> tool in AllowedTools(intent).value
  }

  lemma GroupsAreApart(intent: string)
    ensures Books(intent) ==> !Discovers(intent) && !Manages(intent) && !AsksSupport(intent) && !Chats(intent)
    ensures Discovers(intent) ==> !Manages(intent) && !AsksSupport(intent) && !Chats(intent)
    ensures Manages(intent) ==> !AsksSupport(intent) && !Chats(intent)
    ensures AsksSupport(intent) ==> !Chats(intent)
  {
  }

  lemma AllowsIff(intent: string, tool: string)
    ensures Allows(intent, tool) <==> MayBeOffered(tool, intent)
  {
    GroupsAreApart(intent);
    if Books(intent) {
      assert AllowedTools(intent)
             == Some({"search_events", "get_event_details", "check_availability", "get_user_profile"});
    } else if Discovers(intent) {
      assert AllowedTools(intent)
             == Some({"search_events", "get_event_details", "get_user_profile", "report_support_issue"});
    } else if Manages(intent) {
      assert AllowedTools(intent)
             == Some({"get_booking", "cancel_booking", "search_orders", "get_user_profile", "report_support_issue"});
    } else if AsksSupport(intent) {
      assert AllowedTools(intent) == Some({"report_support_issue", "get_user_profile"});
    }
  }

  /** A planning request offers a tool exactly when it is registered, enabled, and meant for the intent. */
  lemma OfferedIff(tools: seq<Tool>, intent: string, tool: string)
    ensures tool in Offer(tools, AllowedTools(intent)) <==>
              MayBeOffered(tool, intent) && exists i :: 0 <= i < |tools| && tools[i] == Tool(tool, true)
  {
    AllowsIff(intent, tool);
  }

  /** The intents that insist on each tool. */
  predicate Insists(intent: string, tool: string) {
    || (tool in {"get_event_details", "create_booking", "get_booking", "cancel_booking"} && intent == tool)
    || (tool == "search_events" && intent == "support_event")
    || (tool == "search_orders" && intent in {"manage_booking", "get_user_bookings"})
  }

  lemma HintInsists(intent: string)
    ensures forall tool :: ToolHint(intent) == Some(tool) <==> Insists(intent, tool)
  {
  }

  /**
    An intent that insists on a tool is only ever answered by the apology, unless the reply acted
    on calls that tool; an intent that insists on none is planned with a single request.
  */
  lemma InsistedToolIsCalled(s: Setup, log: seq<Event>, job: Job, tool: string)
    requires Execute(s, log, job).value.Some?
    ensures Insists(job.intent, tool) && Execute(s, log, job).value.value.content != APOLOGY ==>
              Planner(s, log, job).value.Some? && Called(Planner(s, log, job).value.value, tool)
    ensures (forall t :: !Insists(job.intent, t)) ==> |Planner(s, log, job).log| == |log| + 1
  {
    PlanIsPlanned(s, log, job);
    HintInsists(job.intent);
  }

  // ------------------------------------------------------- a tool that is never offered

  /** A model that only calls tools its request offers. */
  ghost predicate Conforming(s: Setup) {
    forall log: seq<Event> :: log != [] && log[|log| - 1].Asked? && s.llm(log).Some? ==>
      forall i :: 0 <= i < |s.llm(log).value.calls| ==>
        var offered := log[|log| - 1].request.tools;
        offered.Some? && s.llm(log).value.calls[i].name in offered.value
  }

  /** Whether a planning request for this intent offers the tool it may go on to insist on. */
  predicate HintOffered(s: Setup, intent: string) {
    ToolHint(intent).Some? ==>
      s.registry.Some? && ToolHint(intent).value in Offer(s.registry.value, AllowedTools(intent))
  }

  /** The hinted tool is offered when it is registered and enabled, except for `create_booking`, where it never is. */
  lemma HintOfferedIff(s: Setup, intent: string)
    ensures HintOffered(s, intent) <==>
              ToolHint(intent) == None
              || (intent != "create_booking" && s.registry.Some?
                  && exists i :: 0 <= i < |s.registry.value|
                      && s.registry.value[i] == Tool(ToolHint(intent).value, true))
  {
  }

  /** The tools the program registers. */
  const APP_TOOLS: seq<Tool> := [
    Tool("search_events", true), Tool("get_conversation_history", false), Tool("search_orders", true),
    Tool("report_support_issue", true), Tool("create_ticket", true), Tool("get_user_profile", true)
  ]

  lemma RegisteredAndEnabled(name: string)
    ensures (exists i :: 0 <= i < |APP_TOOLS| && APP_TOOLS[i] == Tool(name, true)) <==>
              name in {"search_events", "search_orders", "report_support_issue", "create_ticket", "get_user_profile"}
  {
    var t := Tool(name, true);
    assert APP_TOOLS[0] == t || APP_TOOLS[2] == t || APP_TOOLS[3] == t || APP_TOOLS[4] == t || APP_TOOLS[5] == t <==>
           name in {"search_events", "search_orders", "report_support_issue", "create_ticket", "get_user_profile"};
  }

  /** With them, four of the seven intents that insist on a tool never offer it. */
  lemma RegisteredToolsOffer(s: Setup, intent: string)
    requires s.registry == Some(APP_TOOLS)
    ensures HintOffered(s, intent) <==>
              intent !in {"get_event_details", "create_booking", "get_booking", "cancel_booking"}
  {
    HintOfferedIff(s, intent);
    if ToolHint(intent).Some? {
      RegisteredAndEnabled(ToolHint(intent).value);
    }
  }

  /**
    When the hinted tool is not offered, a conforming model cannot satisfy the planner: three
    calls later the user gets the apology, and no tool has run.
  */
  lemma UnofferedHintApologises(s: Setup, log: seq<Event>, job: Job)
    requires Conforming(s) && !HintOffered(s, job.intent)
    ensures var end := Execute(s, log, job);
            && (end.value.Some? ==>
                  end.value.value.content == APOLOGY && end.value.value.results == [] && |end.log| == |log| + 3)
            && forall i :: |log| <= i < |end.log| ==> end.log[i].Asked?
  {
    var plan := Planner(s, log, job);
    PlanIsPlanned(s, log, job);
    if plan.value.Some? && Meets(ToolHint(job.intent), plan.value.value) {
      UnofferedIsUncalled(s, job, plan.log);
    }
  }

  lemma UnofferedIsUncalled(s: Setup, job: Job, log: seq<Event>)
    requires Conforming(s) && !HintOffered(s, job.intent)
    requires log != [] && IsPlanning(s, job, log[|log| - 1]) && s.llm(log).Some?
    ensures !Meets(ToolHint(job.intent), s.llm(log).value)
  {
  }
}
