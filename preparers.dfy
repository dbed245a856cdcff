/** Building the payload handed to the handlers: the event normalisation and
    the payload of prepare_data_repo, and the table that picks a stage's
    preparer. */
module Preparers {
  import opened Results
  import opened JsonValues
  import opened Lifecycle

  /** TRANSIENT_KEY and PERSISTENT_KEY. */
  const TransientKey: string := "transient"
  const PersistentKey: string := "persistent"

  /** The events that are reported to scripts as a success. */
  predicate IsSuccessEvent(event: Event)
  {
    event == Changed || event == Unchanged || event == Succeeded
  }

  /** The event tag of prepare_data_repo: CHANGED, UNCHANGED and SUCCEEDED all
      become `event/succeeded`; every other event becomes `event/failed`. */
  function NormalizedEventTag(event: Event): (tag: string)
    ensures tag == "event/succeeded" <==> IsSuccessEvent(event)
    ensures tag == "event/failed" <==> !IsSuccessEvent(event)
  {
    if IsSuccessEvent(event) then "event/" + EventToName(Succeeded)
    else "event/" + EventToName(Failed)
  }

  /** What prepare_data_repo reads from the authentication repository and its
      update: `auth_repo.name`, `auth_repo.to_json_dict()`, the commits data,
      the error (None when the update did not fail) and the target
      repositories' data. */
  datatype RepoContext = RepoContext(
    repoName: string,
    repoData: Json,
    commitsData: Json,
    error: Option<string>,
    targetsData: Json)

  /** `str(error) if error else ""`. */
  function ErrorMessage(error: Option<string>): string
  {
    if error.Some? then error.value else ""
  }

  /** The keys of the payload prepare_data_repo builds. */
  const RepoPayloadKeys: set<string> :=
    {"changed", "event", "repo_name", "error_msg", "auth_repo", "target_repos", TransientKey, PersistentKey}

  /** prepare_data_repo, with its parameters in their declared order
      (transient, then persistent) and the `changed` flag as intended. */
  function PrepareRepo(event: Event, transientData: Json, persistentData: Json, ctx: RepoContext): (payload: Dict)
    ensures payload.Keys == RepoPayloadKeys
    ensures payload[TransientKey] == transientData && payload[PersistentKey] == persistentData
  {
    map[
      "changed" := Bool(event == Changed),
      "event" := Str(NormalizedEventTag(event)),
      "repo_name" := Str(ctx.repoName),
      "error_msg" := Str(ErrorMessage(ctx.error)),
      "auth_repo" := Obj(map["data" := ctx.repoData, "commits" := ctx.commitsData]),
      "target_repos" := ctx.targetsData,
      TransientKey := transientData,
      PersistentKey := persistentData]
  }

  /** Scripts cannot tell CHANGED, UNCHANGED and SUCCEEDED apart by the event
      tag: two success events give payloads that agree on every key but
      `changed`, and `changed` is true exactly for CHANGED. */
  lemma SuccessPayloadsDifferOnlyInChanged(e1: Event, e2: Event, t: Json, p: Json, ctx: RepoContext)
    requires IsSuccessEvent(e1) && IsSuccessEvent(e2)
    ensures PrepareRepo(e1, t, p, ctx)["event"] == Str("event/succeeded")
    ensures forall k :: k in RepoPayloadKeys && k != "changed" ==>
      PrepareRepo(e1, t, p, ctx)[k] == PrepareRepo(e2, t, p, ctx)[k]
    ensures PrepareRepo(e1, t, p, ctx)["changed"] == Bool(e1 == Changed)
  {
  }

  /** A failed (or any other non-success) event is tagged `event/failed`,
      with `changed` false. */
  lemma FailurePayloadTag(e: Event, t: Json, p: Json, ctx: RepoContext)
    requires !IsSuccessEvent(e)
    ensures PrepareRepo(e, t, p, ctx)["event"] == Str("event/failed")
    ensures PrepareRepo(e, t, p, ctx)["changed"] == Bool(false)
  {
  }

  /** prepare_data_repo as written: `event` has been rebound to the tag string
      before `"changed": event == Event.CHANGED` is evaluated, and a string
      never equals an Event member, so the flag is always false. */
  function PrepareRepoAsWritten(event: Event, transientData: Json, persistentData: Json, ctx: RepoContext): (payload: Dict)
  {
    PrepareRepo(event, transientData, persistentData, ctx)["changed" := Bool(false)]
  }

  /** Counterexample: a CHANGED update is reported with `changed` false as
      written, and true as intended. */
  lemma ChangedFlagLost(t: Json, p: Json, ctx: RepoContext)
    ensures PrepareRepoAsWritten(Changed, t, p, ctx)["changed"] == Bool(false)
    ensures PrepareRepo(Changed, t, p, ctx)["changed"] == Bool(true)
  {
  }

  /** The preparers that `globals()` can find by name. */
  datatype Preparer = RepoPreparer | HostPreparer | CompletedPreparer

  const PreparerTable: map<string, Preparer> :=
    map["prepare_data_repo" := RepoPreparer,
        "prepare_data_host" := HostPreparer,
        "prepare_data_completed" := CompletedPreparer]

  /** `globals()[f"prepare_data_{stage.to_name()}"]`: REPO and HOST find their
      preparer, UPDATE has none and raises a KeyError, and the preparer named
      after `completed` is reachable from no stage. */
  function LookupPreparer(stage: Stage): (r: Result<Preparer>)
    ensures stage == Repo ==> r == Ok(RepoPreparer)
    ensures stage == Host ==> r == Ok(HostPreparer)
    ensures stage == Update ==> r == Raise(KeyError("prepare_data_update"))
  {
    var name := "prepare_data_" + StageToName(stage);
    assert stage == Repo ==> name == "prepare_data_repo";
    assert stage == Host ==> name == "prepare_data_host";
    assert stage == Update ==> name == "prepare_data_update";
    assert "prepare_data_update" !in PreparerTable by {
      assert |"prepare_data_update"| == 19;
      assert forall k :: k in PreparerTable ==> |k| != 19;
    }
    if name in PreparerTable then Ok(PreparerTable[name]) else Raise(KeyError(name))
  }

  /** The message Python gives when a parameterless function is called with
      arguments. */
  const HostArityMessage: string := "prepare_data_host() takes 0 positional arguments"

  /** The preparation step of _handle_event, as evidently intended: the
      transient and persistent data reach prepare_data_repo's parameters of
      the same names, and the host preparer accepts the arguments it is
      passed and returns its (empty) payload. */
  function PreparePayload(stage: Stage, event: Event, persistentData: Json, transientData: Json,
                          ctx: RepoContext): (r: Result<Dict>)
    ensures r.Raise? <==> stage == Update
    ensures stage == Update ==> r == Raise(KeyError("prepare_data_update"))
    ensures stage == Repo ==> r == Ok(PrepareRepo(event, transientData, persistentData, ctx))
    ensures stage == Repo ==> r.Ok? && r.value.Keys == RepoPayloadKeys
    ensures stage == Repo ==> r.value[TransientKey] == transientData && r.value[PersistentKey] == persistentData
    ensures stage == Host ==> r == Ok(map[])
  {
    match LookupPreparer(stage)
    case Ok(RepoPreparer) => Ok(PrepareRepo(event, transientData, persistentData, ctx))
    case Ok(HostPreparer) => Ok(map[])
    case Ok(CompletedPreparer) => Ok(map[])
    case Raise(exc) => Raise(exc)
  }

  /** The preparation step with its argument passing as written: _handle_event
      passes (persistent_data, transient_data) positionally to a preparer
      declared (transient_data, persistent_data), and it passes arguments to
      prepare_data_host, which declares none. Only the calls are as written:
      the REPO preparer called is the intended PrepareRepo, whose `changed`
      flag and dict result are covered by PrepareRepoAsWritten and
      EventHandling.PrepareRepoSerializedAsWritten. */
  function PreparePayloadArgumentsAsWritten(stage: Stage, event: Event, persistentData: Json, transientData: Json,
                                   ctx: RepoContext): (r: Result<Dict>)
  {
    match LookupPreparer(stage)
    case Ok(RepoPreparer) => Ok(PrepareRepo(event, persistentData, transientData, ctx))
    case Ok(HostPreparer) => Raise(TypeError(HostArityMessage))
    case Ok(CompletedPreparer) => Ok(map[])
    case Raise(exc) => Raise(exc)
  }

  /** As written, the caller's persistent data lands under `transient` and its
      transient data under `persistent`. */
  lemma StateSwappedAsWritten(event: Event, p: Json, t: Json, ctx: RepoContext)
    ensures PreparePayloadArgumentsAsWritten(Repo, event, p, t, ctx).Ok?
    ensures PreparePayloadArgumentsAsWritten(Repo, event, p, t, ctx).value[TransientKey] == p
    ensures PreparePayloadArgumentsAsWritten(Repo, event, p, t, ctx).value[PersistentKey] == t
  {
  }

  /** Counterexample: persistent data `{"x": 1}` and no transient data reach the
      first handler the wrong way round as written. */
  lemma StateSwapExample(event: Event, ctx: RepoContext)
    ensures PreparePayloadArgumentsAsWritten(Repo, event, Obj(map["x" := Num(1)]), Null, ctx).value[TransientKey]
      == Obj(map["x" := Num(1)])
    ensures PreparePayload(Repo, event, Obj(map["x" := Num(1)]), Null, ctx).value[TransientKey] == Null
  {
    StateSwappedAsWritten(event, Obj(map["x" := Num(1)]), Null, ctx);
  }

  /** Counterexample: for the HOST stage the call as written raises a
      TypeError whatever the event and data; as intended it yields the
      stub's empty payload. */
  lemma HostPreparerArityAsWritten(event: Event, p: Json, t: Json, ctx: RepoContext)
    ensures PreparePayloadArgumentsAsWritten(Host, event, p, t, ctx) == Raise(TypeError(HostArityMessage))
    ensures PreparePayload(Host, event, p, t, ctx) == Ok(map[])
  {
  }
}
