/** The two closed enumerations of the lifecycle module, their name tables
    and the lookups in both directions. */
module Lifecycle {
  import opened Results

  /** LifecycleStage: REPO, HOST and UPDATE. */
  datatype Stage = Repo | Host | Update

  /** Event: SUCCEEDED, CHANGED, UNCHANGED, FAILED and COMPLETED. */
  datatype Event = Succeeded | Changed | Unchanged | Failed | Completed

  /** The members of each enumeration in declaration order (Python iterates a
      dict in insertion order). */
  const AllStages: seq<Stage> := [Repo, Host, Update]
  const AllEvents: seq<Event> := [Succeeded, Changed, Unchanged, Failed, Completed]

  /** LIFECYCLE_NAMES and EVENT_NAMES. */
  const LifecycleNames: map<Stage, string> :=
    map[Repo := "repo", Host := "host", Update := "update"]
  const EventNames: map<Event, string> :=
    map[Succeeded := "succeeded", Changed := "changed", Unchanged := "unchanged",
        Failed := "failed", Completed := "completed"]

  /** A table is injective on the given keys: no two keys share a value. */
  ghost predicate InjectiveOn<K, V>(table: map<K, V>, keys: seq<K>)
    requires forall k :: k in keys ==> k in table
  {
    forall a, b :: a in keys && b in keys && table[a] == table[b] ==> a == b
  }

  /** `{v: k for k, v in table.items()}.get(v)`: the inverted dictionary is
      built in iteration order, so when several keys share a value the last
      one wins: the key found is the last in `keys` that maps to `v`. */
  function InverseLookup<K, V(==)>(table: map<K, V>, keys: seq<K>, v: V): (r: Option<K>)
    requires forall k :: k in keys ==> k in table
    ensures r.Some? ==> r.value in keys && table[r.value] == v
    ensures r.None? <==> forall k :: k in keys ==> table[k] != v
    ensures r.Some? ==>
              exists i :: 0 <= i < |keys| && keys[i] == r.value && forall j :: i < j < |keys| ==> table[keys[j]] != v
    decreases |keys|
  {
    if keys == [] then None
    else
      var last := keys[|keys| - 1];
      if table[last] == v then Some(last)
      else
        assert forall k :: k in keys ==> k == last || k in keys[..|keys| - 1];
        InverseLookup(table, keys[..|keys| - 1], v)
  }

  /** Example: when two keys share a value, the later key is found. */
  lemma InverseLookupLastKeyWins()
    ensures InverseLookup(map[Repo := "a", Host := "a"], [Repo, Host], "a") == Some(Host)
  {
  }

  /** Under an injective table the inverse lookup undoes the table. */
  lemma InverseLookupOfInjective<K, V>(table: map<K, V>, keys: seq<K>, k: K)
    requires forall j :: j in keys ==> j in table
    requires InjectiveOn(table, keys)
    requires k in keys
    ensures InverseLookup(table, keys, table[k]) == Some(k)
  {
  }

  lemma AllStagesListed(s: Stage)
    ensures s in AllStages && s in LifecycleNames
  {
    match s
    case Repo => assert AllStages[0] == s;
    case Host => assert AllStages[1] == s;
    case Update => assert AllStages[2] == s;
  }

  lemma AllEventsListed(e: Event)
    ensures e in AllEvents && e in EventNames
  {
    match e
    case Succeeded => assert AllEvents[0] == e;
    case Changed => assert AllEvents[1] == e;
    case Unchanged => assert AllEvents[2] == e;
    case Failed => assert AllEvents[3] == e;
    case Completed => assert AllEvents[4] == e;
  }

  lemma StageTableInjective()
    ensures forall s :: s in AllStages ==> s in LifecycleNames
    ensures InjectiveOn(LifecycleNames, AllStages)
  {
  }

  lemma EventTableInjective()
    ensures forall e :: e in AllEvents ==> e in EventNames
    ensures InjectiveOn(EventNames, AllEvents)
  {
  }

  /** LifecycleStage.to_name. */
  function StageToName(s: Stage): (name: string)
    ensures name in LifecycleNames.Values
    ensures |name| > 0 && '/' !in name
  {
    AllStagesListed(s);
    LifecycleNames[s]
  }

  /** Event.to_name. */
  function EventToName(e: Event): (name: string)
    ensures name in EventNames.Values
    ensures |name| > 0 && '/' !in name
  {
    AllEventsListed(e);
    EventNames[e]
  }

  /** LifecycleStage.from_name: the stage whose table name is `name`, or a
      ValueError naming the rejected string. */
  function StageFromName(name: string): (r: Result<Stage>)
    ensures r.Ok? <==> name in LifecycleNames.Values
    ensures r.Ok? ==> StageToName(r.value) == name
    ensures r.Raise? ==> r.exc == ValueError(name + " is not a valid lifecycle stage")
  {
    StageTableInjective();
    match InverseLookup(LifecycleNames, AllStages, name)
    case Some(stage) => Ok(stage)
    case None =>
      assert forall s :: s in LifecycleNames ==> s in AllStages by {
        forall s | s in LifecycleNames ensures s in AllStages { AllStagesListed(s); }
      }
      Raise(ValueError(name + " is not a valid lifecycle stage"))
  }

  /** Event.from_name: the event whose table name is `name`, or a ValueError
      naming the rejected string. */
  function EventFromName(name: string): (r: Result<Event>)
    ensures r.Ok? <==> name in EventNames.Values
    ensures r.Ok? ==> EventToName(r.value) == name
    ensures r.Raise? ==> r.exc == ValueError(name + " is not a valid event")
  {
    EventTableInjective();
    match InverseLookup(EventNames, AllEvents, name)
    case Some(event) => Ok(event)
    case None =>
      assert forall e :: e in EventNames ==> e in AllEvents by {
        forall e | e in EventNames ensures e in AllEvents { AllEventsListed(e); }
      }
      Raise(ValueError(name + " is not a valid event"))
  }

  /** from_name(to_name(s)) == s for every stage. */
  lemma StageNameRoundTrip(s: Stage)
    ensures StageFromName(StageToName(s)) == Ok(s)
  {
    AllStagesListed(s);
    StageTableInjective();
    var r := StageFromName(StageToName(s));
    assert r.Ok?;
    assert r.value in LifecycleNames;
    AllStagesListed(r.value);
  }

  /** from_name(to_name(e)) == e for every event. */
  lemma EventNameRoundTrip(e: Event)
    ensures EventFromName(EventToName(e)) == Ok(e)
  {
    AllEventsListed(e);
    EventTableInjective();
    var r := EventFromName(EventToName(e));
    assert r.Ok?;
    assert r.value in EventNames;
    AllEventsListed(r.value);
  }

  /** The three stage names are pairwise distinct. */
  lemma StageNamesDistinct(s: Stage, t: Stage)
    ensures StageToName(s) == StageToName(t) <==> s == t
  {
    StageNameRoundTrip(s);
    StageNameRoundTrip(t);
  }

  /** The five event names are pairwise distinct. */
  lemma EventNamesDistinct(e: Event, f: Event)
    ensures EventToName(e) == EventToName(f) <==> e == f
  {
    EventNameRoundTrip(e);
    EventNameRoundTrip(f);
  }

  /** from_name accepts exactly "repo", "host" and "update", and raises on
      every other string. */
  lemma StageFromNameDomain(name: string)
    ensures StageFromName(name).Ok? <==> name == "repo" || name == "host" || name == "update"
  {
    if name in LifecycleNames.Values {
      var s :| s in LifecycleNames && LifecycleNames[s] == name;
      match s
      case Repo =>
      case Host =>
      case Update =>
    } else {
      assert LifecycleNames[Repo] == "repo" && LifecycleNames[Host] == "host";
      assert LifecycleNames[Update] == "update";
    }
  }

  /** from_name accepts exactly the five event names, and raises on every
      other string. */
  lemma EventFromNameDomain(name: string)
    ensures EventFromName(name).Ok? <==>
      name in ["succeeded", "changed", "unchanged", "failed", "completed"]
  {
    if name in EventNames.Values {
      var e :| e in EventNames && EventNames[e] == name;
      match e
      case Succeeded =>
      case Changed =>
      case Unchanged =>
      case Failed =>
      case Completed =>
    } else {
      assert EventNames[Succeeded] == "succeeded" && EventNames[Changed] == "changed";
      assert EventNames[Unchanged] == "unchanged" && EventNames[Failed] == "failed";
      assert EventNames[Completed] == "completed";
    }
  }
}
