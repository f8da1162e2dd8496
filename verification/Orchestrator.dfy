/** The orchestrator as the program runs it: requests are updated in place, results rewritten, one loop per stage. */
module Orchestrator {
  import opened Wrappers
  import opened Json
  import opened Templates
  import opened Pipeline

  /** A request under construction: the orchestrator attaches or removes its tools. */
  class LLMRequest {
    const prompt: string
    const results: seq<ToolResult>
    const intent: string
    var tools: Option<seq<string>>
    var choice: Choice

    constructor (prompt: string, choice: Choice, results: seq<ToolResult>, intent: string)
      ensures View() == Request(prompt, None, choice, results, intent)
    {
      this.prompt, this.results, this.intent := prompt, results, intent;
      this.tools, this.choice := None, choice;
    }

    function View(): Request
      reads this
    {
      Request(prompt, tools, choice, results, intent)
    }
  }

  class AIOrchestrator {
    const setup: Setup
    /** Everything asked and run so far. */
    var log: seq<Event>

    constructor (setup: Setup)
      ensures this.setup == setup && log == []
    {
      this.setup := setup;
      log := [];
    }

    method AttachTools(request: LLMRequest)
      modifies request
      ensures request.View() == Attached(setup, old(request.View()))
    {
      if request.results != [] {
        request.tools := None;
        request.choice := NoTools;
      } else if setup.registry.Some? {
        request.tools := Some(Offer(setup.registry.value, AllowedTools(request.intent)));
      }
    }

    method GenerateResponse(request: LLMRequest) returns (response: Option<Reply>)
      modifies this`log, request
      ensures Step(log, response) == Generate(setup, old(log), old(request.View()))
    {
      AttachTools(request);
      if request.results != [] && request.tools.Some? {
        return None;
      }
      log := log + [Asked(request.View())];
      response := setup.llm(log);
      if response.Some? && response.value.calls == [] {
        var cleaned := Strip(response.value.content);
        response := if cleaned == "" then None else Some(response.value.(content := cleaned));
      }
    }

    /** Asks once, then insists at most twice while the hinted tool is not called. */
    method PlanStep(request: LLMRequest, hint: Option<string>) returns (response: Option<Reply>)
      modifies this`log, request
      ensures Step(log, response) == Plan(setup, old(log), old(request.View()), hint)
    {
      ghost var first, start := request.View(), log;
      response := GenerateResponse(request);
      if response == None {
        return;
      }
      var attempt := 0;
      while attempt < RETRIES && !Meets(hint, response.value)
        invariant attempt <= RETRIES && response.Some?
        invariant Plan(setup, start, first, hint) == Retry(setup, log, first, hint, RETRIES - attempt, response.value)
      {
        var retryRequest := new LLMRequest(Enforced(request.prompt, hint.value), Required(hint.value), [],
            request.intent);
        response := GenerateResponse(retryRequest);
        if response == None {
          return;
        }
        attempt := attempt + 1;
      }
    }

    /** Runs every call in turn; a call that fails in any way leaves an error entry. */
    method HandleToolCalls(calls: seq<Call>, deps: map<string, Json>) returns (results: seq<ToolResult>)
      modifies this`log
      ensures (log, results) == HandleCalls(setup, deps, old(log), calls)
    {
      results := [];
      if calls == [] || setup.registry == None {
        return;
      }
      var tools := setup.registry.value;
      for i := 0 to |calls|
        invariant (log, results) == RunCalls(setup, tools, deps, old(log), calls[..i])
      {
        var call := calls[i];
        assert calls[..i + 1][..i] == calls[..i];
        var keywords := Keywords(call.args);
        if keywords == None {
          results := results + [ToolResult(call.id, call.name, None, Some("bad arguments"))];
        } else if !Registered(tools, call.name) {
          results := results + [ToolResult(call.id, call.name, None, Some("Tool not found"))];
        } else {
          log := log + [Ran(call.name, keywords.value + deps)];
          match setup.tool(log) {
            case Output(value) =>
              results := results + [ToolResult(call.id, call.name, Some(Screen(setup, value)), None)];
            case Failed(message) =>
              results := results + [ToolResult(call.id, call.name, None, Some(message))];
          }
        }
      }
      assert calls[..|calls|] == calls;
    }

    /** Copies a dict output key by key, in whatever order, leaving out and blanking as it goes. */
    static method CleanItems(raw: map<string, Json>) returns (clean: map<string, Json>)
      ensures clean == Clean(raw)
    {
      clean := map[];
      var todo := raw.Keys;
      while todo != {}
        invariant todo <= raw.Keys
        invariant forall k :: k in clean <==> k in raw && k !in todo && Lower(k) !in FORBIDDEN
        invariant forall k :: k in clean ==> clean[k] == CleanValue(raw[k])
        decreases |todo|
      {
        var k :| k in todo;
        todo := todo - {k};
        if Lower(k) !in FORBIDDEN {
          var v := raw[k];
          if Posing(v) {
            v := Str(INJECTION);
          }
          clean := clean[k := v];
        }
      }
    }

    static method SanitizeToolResults(results: seq<ToolResult>) returns (sanitized: seq<ToolResult>)
      ensures sanitized == SanitizedAll(results)
    {
      sanitized := [];
      for i := 0 to |results|
        invariant sanitized == SanitizedAll(results[..i])
      {
        var result := results[i];
        var rawData := if result.output.Some? then result.output.value else Obj(map[]);
        if rawData.Obj? {
          var clean := CleanItems(rawData.fields);
          assert rawData.fields == map[] ==> Clean(rawData.fields) == map[];
          result := result.(output := Some(Obj(clean)));
        }
        assert results[..i + 1] == results[..i] + [results[i]];
        sanitized := sanitized + [result];
      }
      assert results[..|results|] == results;
    }

    method ExecuteStep(calls: seq<Call>, deps: map<string, Json>) returns (results: seq<ToolResult>)
      modifies this`log
      ensures log == HandleCalls(setup, deps, old(log), calls).0
      ensures results == SanitizedAll(HandleCalls(setup, deps, old(log), calls).1)
    {
      var raw := HandleToolCalls(calls, deps);
      results := SanitizeToolResults(raw);
    }

    method RenderStep(job: Job, results: seq<ToolResult>) returns (response: Option<Reply>)
      modifies this`log
      ensures Step(log, response) == Generate(setup, old(log), RenderRequest(job, results))
    {
      var request := new LLMRequest(job.rendererPrompt, Unset, results, job.intent);
      response := GenerateResponse(request);
    }

    /** Planner, execution, then template or renderer; totals and breakdown are filled in on the way. */
    method ExecuteLlmPath(job: Job) returns (answer: Option<Answer>)
      modifies this`log
      ensures Step(log, answer) == Execute(setup, old(log), job)
    {
      var hint := ToolHint(job.intent);
      var request := new LLMRequest(job.plannerPrompt, Auto, [], job.intent);
      var totalTokens := 0;
      var breakdown := Breakdown(0, 0, 0, 0, 0, None);

      var plan := PlanStep(request, hint);
      if plan == None {
        return None;
      }
      var p := plan.value;
      totalTokens := totalTokens + p.Tokens();
      breakdown := breakdown.(plannerPrompt := p.promptTokens, plannerCompletion := p.completionTokens);
      if !Meets(hint, p) {
        return Some(Answer(APOLOGY, totalTokens, [], breakdown));
      }
      if p.calls == [] {
        return Some(Answer(Final(setup, job, p.content, []), totalTokens, [], breakdown));
      }

      var results := ExecuteStep(p.calls, Deps(setup, job));
      var rendererResults := LightAll(results);
      breakdown := breakdown.(toolResult := setup.countTokens(rendererResults));
      var template := Match(results, setup.show);
      if template.Some? {
        breakdown := breakdown.(savedRenderer := Some(SAVED_RENDERER_TOKENS));
        return Some(Answer(template.value.response, totalTokens, results, breakdown));
      }

      var render := RenderStep(job, rendererResults);
      if render == None {
        return None;
      }
      totalTokens := totalTokens + render.value.Tokens();
      breakdown := breakdown.(rendererPrompt := render.value.promptTokens,
          rendererCompletion := render.value.completionTokens);
      answer := Some(Answer(Final(setup, job, render.value.content, results), totalTokens, results, breakdown));
    }
  }
}
