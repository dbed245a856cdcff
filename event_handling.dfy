/** _handle_event: which handlers run for an incoming event and in what order,
    and how each handler's result is folded into the shared payload. */
module EventHandling {
  import opened Results
  import opened JsonValues
  import opened Lifecycle
  import opened Scripts
  import opened Preparers

  /** The events whose handlers run, in order, for an incoming event: a
      success event runs `succeeded` first and then its own handler (CHANGED
      or UNCHANGED), FAILED runs `failed`, and `completed` always runs last. */
  function HandlerSequence(event: Event): seq<Event>
  {
    var specific :=
      if IsSuccessEvent(event) then
        [Succeeded] + (if event == Changed then [Changed] else if event == Unchanged then [Unchanged] else [])
      else if event == Failed then [Failed]
      else [];
    specific + [Completed]
  }

  /** The five sequences, spelled out. */
  lemma HandlerSequenceTable()
    ensures HandlerSequence(Changed) == [Succeeded, Changed, Completed]
    ensures HandlerSequence(Unchanged) == [Succeeded, Unchanged, Completed]
    ensures HandlerSequence(Succeeded) == [Succeeded, Completed]
    ensures HandlerSequence(Failed) == [Failed, Completed]
    ensures HandlerSequence(Completed) == [Completed]
  {
  }

  /** `completed` runs exactly once, and last. */
  lemma CompletedRunsOnceAndLast(event: Event)
    ensures |HandlerSequence(event)| > 0
    ensures HandlerSequence(event)[|HandlerSequence(event)| - 1] == Completed
    ensures Completed !in HandlerSequence(event)[..|HandlerSequence(event)| - 1]
  {
    var steps := HandlerSequence(event);
    match event
    case Changed => assert steps == [Succeeded, Changed, Completed];
    case Unchanged => assert steps == [Succeeded, Unchanged, Completed];
    case Succeeded => assert steps == [Succeeded, Completed];
    case Failed => assert steps == [Failed, Completed];
    case Completed => assert steps == [Completed];
  }

  /** `succeeded` runs exactly for the success events, and before any other
      handler. */
  lemma SucceededRunsFirst(event: Event)
    ensures Succeeded in HandlerSequence(event) <==> IsSuccessEvent(event)
    ensures IsSuccessEvent(event) ==> HandlerSequence(event)[0] == Succeeded
  {
    var steps := HandlerSequence(event);
    match event
    case Changed => assert steps == [Succeeded, Changed, Completed];
    case Unchanged => assert steps == [Succeeded, Unchanged, Completed];
    case Succeeded => assert steps == [Succeeded, Completed];
    case Failed => assert steps == [Failed, Completed];
    case Completed => assert steps == [Completed];
  }

  /** Each of `changed`, `unchanged` and `failed` runs only for the incoming
      event of the same name: FAILED runs none of the success handlers, and
      SUCCEEDED runs neither `changed` nor `unchanged`. */
  lemma SpecificHandlerRunsOnlyForItsEvent(event: Event)
    ensures Changed in HandlerSequence(event) <==> event == Changed
    ensures Unchanged in HandlerSequence(event) <==> event == Unchanged
    ensures Failed in HandlerSequence(event) <==> event == Failed
  {
    var steps := HandlerSequence(event);
    match event
    case Changed => assert steps == [Succeeded, Changed, Completed];
    case Unchanged => assert steps == [Succeeded, Unchanged, Completed];
    case Succeeded => assert steps == [Succeeded, Completed];
    case Failed => assert steps == [Failed, Completed];
    case Completed => assert steps == [Completed];
  }

  /** A handler: given its script directory and the current payload, it
      returns a dict that may hold `transient` and `persistent` entries. */
  type Handler = (string, Dict) -> Dict

  /** The payload after one handler result has been folded in. */
  function ApplyResult(data: Dict, result: Dict): Dict
  {
    data[PersistentKey := Get(result, PersistentKey)][TransientKey := Get(result, TransientKey)]
  }

  /** Folding a result in overwrites `transient` and `persistent` with the
      result's entries (None when the result lacks them) and leaves every other
      key as it was. */
  lemma ApplyResultSpec(data: Dict, result: Dict)
    ensures ApplyResult(data, result).Keys == data.Keys + {TransientKey, PersistentKey}
    ensures ApplyResult(data, result)[TransientKey] == Get(result, TransientKey)
    ensures ApplyResult(data, result)[PersistentKey] == Get(result, PersistentKey)
    ensures forall k :: k in data && k != TransientKey && k != PersistentKey ==>
      ApplyResult(data, result)[k] == data[k]
  {
  }

  /** Nothing is merged: a later result replaces an earlier one completely. */
  lemma ApplyResultOverwrites(data: Dict, r1: Dict, r2: Dict)
    ensures ApplyResult(ApplyResult(data, r1), r2) == ApplyResult(data, r2)
  {
    var a, b := ApplyResult(ApplyResult(data, r1), r2), ApplyResult(data, r2);
    ApplyResultSpec(data, r1);
    ApplyResultSpec(ApplyResult(data, r1), r2);
    ApplyResultSpec(data, r2);
    assert a.Keys == b.Keys;
    forall k | k in a ensures a[k] == b[k] {
      if k != TransientKey && k != PersistentKey {
        assert ApplyResult(data, r1)[k] == data[k];
      }
    }
  }

  /** One _execute_handler call on a payload, as a value. */
  function Step(stage: Stage, handlers: Event -> Handler, data: Dict, event: Event): Dict
  {
    ApplyResult(data, handlers(event)(ScriptPath(stage, event), data))
  }

  /** The payload after the first `n` handlers of `steps` have run in order. */
  function RunPrefix(stage: Stage, handlers: Event -> Handler, data: Dict, steps: seq<Event>, n: nat): Dict
    requires n <= |steps|
  {
    if n == 0 then data
    else Step(stage, handlers, RunPrefix(stage, handlers, data, steps, n - 1), steps[n - 1])
  }

  /** The payload after all the handlers of `steps` have run in order. */
  function RunSteps(stage: Stage, handlers: Event -> Handler, data: Dict, steps: seq<Event>): Dict
  {
    RunPrefix(stage, handlers, data, steps, |steps|)
  }

  /** After a non-empty run of handlers, `transient` and `persistent` hold
      exactly what the last handler returned, and every other key still holds
      its prepared value. */
  lemma {:induction false} RunPrefixResult(stage: Stage, handlers: Event -> Handler, data: Dict,
                                           steps: seq<Event>, n: nat)
    requires 0 < n <= |steps|
    ensures var before := RunPrefix(stage, handlers, data, steps, n - 1);
            var out := handlers(steps[n - 1])(ScriptPath(stage, steps[n - 1]), before);
            RunPrefix(stage, handlers, data, steps, n)[TransientKey] == Get(out, TransientKey) &&
            RunPrefix(stage, handlers, data, steps, n)[PersistentKey] == Get(out, PersistentKey)
    ensures RunPrefix(stage, handlers, data, steps, n).Keys == data.Keys + {TransientKey, PersistentKey}
    ensures forall k :: k in data && k != TransientKey && k != PersistentKey ==>
      RunPrefix(stage, handlers, data, steps, n)[k] == data[k]
  {
    var before := RunPrefix(stage, handlers, data, steps, n - 1);
    ApplyResultSpec(before, handlers(steps[n - 1])(ScriptPath(stage, steps[n - 1]), before));
    if n > 1 {
      RunPrefixResult(stage, handlers, data, steps, n - 1);
    }
  }

  /** The payload `data` that _handle_event builds and its handlers update in
      place. */
  class Payload {
    var data: Dict

    constructor (prepared: Dict)
      ensures data == prepared
    {
      data := prepared;
    }

    /** _execute_handler: run `handler` on the script directory of
        (stage, event) and the current payload, then overwrite `persistent`
        and `transient` with its result. */
    method ExecuteHandler(handler: Handler, stage: Stage, event: Event)
      modifies this
      ensures data == ApplyResult(old(data), handler(ScriptPath(stage, event), old(data)))
    {
      var scriptRelPath := ScriptPath(stage, event);
      var result := handler(scriptRelPath, data);
      var transientData := Get(result, TransientKey);
      var persistentData := Get(result, PersistentKey);
      data := data[PersistentKey := persistentData];
      data := data[TransientKey := transientData];
    }
  }

  /** One handler call: the event whose handler ran, the script directory it
      was given and the payload it saw. */
  datatype HandlerCall = HandlerCall(event: Event, scriptPath: string, input: Dict)

  /** What one _handle_event call did: the handler calls in order and the
      payload they left. */
  datatype EventRun = EventRun(calls: seq<HandlerCall>, final: Dict)

  /** The handler calls a run of `steps` makes from the prepared payload. */
  ghost predicate CallsOf(stage: Stage, handlers: Event -> Handler, prepared: Dict, steps: seq<Event>,
                          calls: seq<HandlerCall>)
  {
    && |calls| == |steps|
    && forall i {:trigger calls[i]} :: 0 <= i < |steps| ==>
         calls[i] == HandlerCall(steps[i], ScriptPath(stage, steps[i]), RunPrefix(stage, handlers, prepared, steps, i))
  }

  /** The first `n` handler calls of a run of `steps`. */
  function CallsUpTo(stage: Stage, handlers: Event -> Handler, prepared: Dict, steps: seq<Event>, n: nat)
    : seq<HandlerCall>
    requires n <= |steps|
  {
    if n == 0 then []
    else
      CallsUpTo(stage, handlers, prepared, steps, n - 1)
        + [HandlerCall(steps[n - 1], ScriptPath(stage, steps[n - 1]), RunPrefix(stage, handlers, prepared, steps, n - 1))]
  }

  lemma {:induction false} CallsUpToAll(stage: Stage, handlers: Event -> Handler, prepared: Dict, steps: seq<Event>, n: nat)
    requires n <= |steps|
    ensures |CallsUpTo(stage, handlers, prepared, steps, n)| == n
    ensures forall i {:trigger CallsUpTo(stage, handlers, prepared, steps, n)[i]} :: 0 <= i < n ==>
      CallsUpTo(stage, handlers, prepared, steps, n)[i]
        == HandlerCall(steps[i], ScriptPath(stage, steps[i]), RunPrefix(stage, handlers, prepared, steps, i))
  {
    if n > 0 {
      CallsUpToAll(stage, handlers, prepared, steps, n - 1);
      var shorter := CallsUpTo(stage, handlers, prepared, steps, n - 1);
      assert forall i :: 0 <= i < n - 1 ==> CallsUpTo(stage, handlers, prepared, steps, n)[i] == shorter[i];
    }
  }

  /** The handler calls of _handle_event, one _execute_handler per step on the
      shared payload. */
  method RunHandlers(payload: Payload, stage: Stage, steps: seq<Event>, handlers: Event -> Handler)
    returns (calls: seq<HandlerCall>)
    modifies payload
    ensures CallsOf(stage, handlers, old(payload.data), steps, calls)
    ensures payload.data == RunSteps(stage, handlers, old(payload.data), steps)
  {
    ghost var prepared := payload.data;
    calls := [];
    for i := 0 to |steps|
      invariant payload.data == RunPrefix(stage, handlers, prepared, steps, i)
      invariant calls == CallsUpTo(stage, handlers, prepared, steps, i)
    {
      var event := steps[i];
      calls := calls + [HandlerCall(event, ScriptPath(stage, event), payload.data)];
      ghost var before := payload.data;
      payload.ExecuteHandler(handlers(event), stage, event);
      assert payload.data == Step(stage, handlers, before, event);
    }
    CallsUpToAll(stage, handlers, prepared, steps, |steps|);
  }

  /** _handle_event: prepare the payload for the stage (UPDATE has no preparer
      and raises), then run the handlers of HandlerSequence(event) in order on
      it, each seeing the payload the previous ones left. */
  method HandleEvent(stage: Stage, event: Event, persistentData: Json, transientData: Json,
                     ctx: RepoContext, handlers: Event -> Handler)
    returns (r: Result<EventRun>)
    ensures r.Raise? <==> stage == Update
    ensures r.Raise? ==> r.exc == KeyError("prepare_data_update")
    ensures r.Ok? ==>
      var prepared := PreparePayload(stage, event, persistentData, transientData, ctx).value;
      && CallsOf(stage, handlers, prepared, HandlerSequence(event), r.value.calls)
      && r.value.final == RunSteps(stage, handlers, prepared, HandlerSequence(event))
  {
    var prepared := PreparePayload(stage, event, persistentData, transientData, ctx);
    if prepared.Raise? {
      r := Raise(prepared.exc);
      return;
    }
    var payload := new Payload(prepared.value);
    var calls := RunHandlers(payload, stage, HandlerSequence(event), handlers);
    r := Ok(EventRun(calls, payload.data));
  }

  /** At the end of a run, `transient` and `persistent` are what the
      `completed` handler returned, given the payload every earlier handler
      left; every other key of the prepared payload is untouched. */
  lemma FinalStateIsCompletedOutput(stage: Stage, event: Event, handlers: Event -> Handler, prepared: Dict)
    ensures var steps := HandlerSequence(event);
            var before := RunPrefix(stage, handlers, prepared, steps, |steps| - 1);
            var out := handlers(Completed)(ScriptPath(stage, Completed), before);
            var final := RunSteps(stage, handlers, prepared, steps);
            && final[TransientKey] == Get(out, TransientKey)
            && final[PersistentKey] == Get(out, PersistentKey)
            && (forall k :: k in prepared && k != TransientKey && k != PersistentKey ==> k in final && final[k] == prepared[k])
  {
    var steps := HandlerSequence(event);
    RunPrefixResult(stage, handlers, prepared, steps, |steps|);
  }

  /** handle_repo_event: _handle_event for the REPO stage, which always finds
      its preparer; the first handler sees the caller's transient and
      persistent data under their own keys. */
  method HandleRepoEvent(event: Event, ctx: RepoContext, persistentData: Json, transientData: Json,
                         handlers: Event -> Handler)
    returns (run: EventRun)
    ensures CallsOf(Repo, handlers, PrepareRepo(event, transientData, persistentData, ctx), HandlerSequence(event), run.calls)
    ensures run.calls[0].input == PrepareRepo(event, transientData, persistentData, ctx)
    ensures run.final == RunSteps(Repo, handlers, PrepareRepo(event, transientData, persistentData, ctx), HandlerSequence(event))
  {
    var r := HandleEvent(Repo, event, persistentData, transientData, ctx, handlers);
    run := r.value;
    ghost var prepared := PrepareRepo(event, transientData, persistentData, ctx);
    assert PreparePayload(Repo, event, persistentData, transientData, ctx).value == prepared;
  }

  /** handle_succeeded, handle_changed, handle_unchanged, handle_failed and
      handle_completed: each returns an empty dict. */
  function StubHandlers(event: Event): Handler
  {
    (scriptPath: string, data: Dict) => map[]
  }

  /** With the handlers as they stand, a run ends with `transient` and
      `persistent` both None, whatever the caller passed in, and every other
      prepared key untouched. */
  lemma StubHandlersClearState(stage: Stage, event: Event, prepared: Dict)
    ensures var final := RunSteps(stage, StubHandlers, prepared, HandlerSequence(event));
            && final[TransientKey] == Null && final[PersistentKey] == Null
            && (forall k :: k in prepared && k != TransientKey && k != PersistentKey ==> k in final && final[k] == prepared[k])
  {
    FinalStateIsCompletedOutput(stage, event, StubHandlers, prepared);
  }

  /** What a preparer hands to _handle_event as written: prepare_data_repo
      returns the text json.dumps makes of its payload, not a dict. */
  datatype Prepared = Text(text: string) | Mapping(dict: Dict)

  /** prepare_data_repo as written, with the serialiser `dumps` (json.dumps
      with indent 4) taken as a parameter. */
  function PrepareRepoSerializedAsWritten(event: Event, transientData: Json, persistentData: Json,
                                          ctx: RepoContext, dumps: Dict -> string): Prepared
  {
    Text(dumps(PrepareRepoAsWritten(event, transientData, persistentData, ctx)))
  }

  /** The item assignments of _execute_handler as written: on a str they
      raise a TypeError. */
  function ApplyResultAsWritten(data: Prepared, result: Dict): Result<Dict>
  {
    match data
    case Text(_) => Raise(TypeError("'str' object does not support item assignment"))
    case Mapping(d) => Ok(ApplyResult(d, result))
  }

  /** Counterexample: as written, the first handler of every REPO event
      raises while storing its result, whatever it returned; with the
      payload kept as a dict the result is folded in. */
  lemma RepoPayloadNotAssignableAsWritten(event: Event, t: Json, p: Json, ctx: RepoContext,
                                          dumps: Dict -> string, result: Dict)
    ensures ApplyResultAsWritten(PrepareRepoSerializedAsWritten(event, t, p, ctx, dumps), result).Raise?
    ensures ApplyResultAsWritten(Mapping(PrepareRepo(event, t, p, ctx)), result)
      == Ok(ApplyResult(PrepareRepo(event, t, p, ctx), result))
  {
  }
}
