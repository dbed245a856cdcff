# Lifecycle handlers of the TUF/TAF updater

A Dafny model of `taf/updater/lifecycle_handlers.py`. After an update of an authentication repository, this module notifies external scripts about the outcome. The model covers five things:

- the two enumerations, lifecycle stages (`repo`, `host`, `update`) and events (`succeeded`, `changed`, `unchanged`, `failed`, `completed`), with their name tables and the lookups in both directions;
- the directory that holds the scripts of a (stage, event) pair, which files of it run, and in what order;
- the payload that `prepare_data_repo` builds, including the collapsing of every success event into the tag `event/succeeded`;
- the `globals()` lookup that picks a stage's preparer;
- `_handle_event`: which handlers run for an event and in what order, and how each handler's `transient`/`persistent` result overwrites the shared payload in place.

Modules, one per concern:

- `Results`: Option, the exceptions raised, Result.
- `JsonValues`: payload values; `dict.get`.
- `Lifecycle`: enumerations and name tables.
- `StringOrder`: Python's `str` ordering, `sorted`, list comprehensions with a filter.
- `Scripts`: script paths, script selection, the `execute_scripts` loop.
- `Preparers`: event normalisation, `prepare_data_repo`, the preparer lookup.
- `EventHandling`: the handler sequence, the `Payload` class whose `ExecuteHandler` method updates the payload in place, and `_handle_event` as a loop over that sequence.

The code as written cannot complete a run: several of its lines raise or lose information. Each such defect is listed under "## Findings". It is modelled twice: once as written, with a counterexample lemma, and once as evidently intended. The rest of the model uses the intended version.

`_handle_event` runs the `succeeded` handler before the event's own `changed`/`unchanged` handler (`lifecycle_handlers.py:110-115`); `HandlerSequence` keeps that order.

## Model

| member | source | states |
|---|---|---|
| Lifecycle.AllStagesListed | taf/updater/lifecycle_handlers.py:9-12 | every stage is one of the three members and has an entry in LIFECYCLE_NAMES |
| Lifecycle.AllEventsListed | taf/updater/lifecycle_handlers.py:32-37 | every event is one of the five members and has an entry in EVENT_NAMES |
| Lifecycle.StageTableInjective | taf/updater/lifecycle_handlers.py:25-29 | LIFECYCLE_NAMES gives distinct stages distinct names |
| Lifecycle.EventTableInjective | taf/updater/lifecycle_handlers.py:50-56 | EVENT_NAMES gives distinct events distinct names |
| Lifecycle.InverseLookup | taf/updater/lifecycle_handlers.py:16 | the inverted-dictionary lookup returns a key whose table entry is the value, and the last such key in iteration order; it returns None exactly when no key maps to the value |
| Lifecycle.InverseLookupLastKeyWins | taf/updater/lifecycle_handlers.py:16 | when two keys share a value, the comprehension keeps the later key |
| Lifecycle.InverseLookupOfInjective | taf/updater/lifecycle_handlers.py:41 | under an injective table, inverting and then looking up gives back the key |
| Lifecycle.StageToName | taf/updater/lifecycle_handlers.py:21-22 | a stage's name is an entry of LIFECYCLE_NAMES: non-empty and free of '/' |
| Lifecycle.EventToName | taf/updater/lifecycle_handlers.py:46-47 | an event's name is an entry of EVENT_NAMES: non-empty and free of '/' |
| Lifecycle.StageFromName | taf/updater/lifecycle_handlers.py:14-19 | succeeds exactly for names in the table, returning the stage whose name it is; otherwise raises ValueError "<name> is not a valid lifecycle stage" |
| Lifecycle.EventFromName | taf/updater/lifecycle_handlers.py:39-44 | succeeds exactly for names in the table, returning the event whose name it is; otherwise raises ValueError "<name> is not a valid event" |
| Lifecycle.StageNameRoundTrip | taf/updater/lifecycle_handlers.py:14-22 | from_name(to_name(s)) returns s for every stage |
| Lifecycle.EventNameRoundTrip | taf/updater/lifecycle_handlers.py:39-47 | from_name(to_name(e)) returns e for every event |
| Lifecycle.StageNamesDistinct | taf/updater/lifecycle_handlers.py:25-29 | two stages have the same name if and only if they are the same stage |
| Lifecycle.EventNamesDistinct | taf/updater/lifecycle_handlers.py:50-56 | two events have the same name if and only if they are the same event |
| Lifecycle.StageFromNameDomain | taf/updater/lifecycle_handlers.py:14-19 | from_name accepts exactly "repo", "host" and "update" |
| Lifecycle.EventFromNameDomain | taf/updater/lifecycle_handlers.py:39-44 | from_name accepts exactly the five event names |
| StringOrder.InsertElements | taf/updater/lifecycle_handlers.py:146 | one insertion step of the sort adds exactly the inserted element |
| StringOrder.InsertSorted | taf/updater/lifecycle_handlers.py:146 | inserting into an ascending list keeps it ascending |
| StringOrder.SortSorted | taf/updater/lifecycle_handlers.py:146 | sorting a list of strings yields an ascending list under Python's string order |
| StringOrder.SortElements | taf/updater/lifecycle_handlers.py:146 | sorting yields a permutation of its input |
| StringOrder.SortedUnique | taf/updater/lifecycle_handlers.py:146 | two ascending lists with the same elements are equal, so the sorted order is determined by the elements alone |
| StringOrder.FilterElements | taf/updater/lifecycle_handlers.py:146 | the filtering comprehension keeps each passing element as often as it occurs and drops every other element |
| StringOrder.FilterSorted | taf/updater/lifecycle_handlers.py:146 | filtering an ascending list leaves it ascending |
| StringOrder.LexLe | taf/updater/lifecycle_handlers.py:146 | Python's `<=` on strings, code point by code point, a proper prefix first; stated by LexLeReflexive, LexLeTotal, LexLeTransitive, LexLeAntisymmetric |
| StringOrder.LexLeTotal | taf/updater/lifecycle_handlers.py:146 | any two strings are ordered one way or the other |
| StringOrder.LexLeTransitive | taf/updater/lifecycle_handlers.py:146 | the string order is transitive |
| StringOrder.LexLeAntisymmetric | taf/updater/lifecycle_handlers.py:146 | two strings each at most the other are equal |
| StringOrder.LexLeReflexive | taf/updater/lifecycle_handlers.py:146 | every string is at most itself |
| StringOrder.Insert | taf/updater/lifecycle_handlers.py:146 | one insertion step of the sort; stated by InsertElements and InsertSorted |
| StringOrder.Sort | taf/updater/lifecycle_handlers.py:146 | `sorted` on a list of strings; stated by SortSorted, SortElements and SortedUnique |
| StringOrder.Filter | taf/updater/lifecycle_handlers.py:146 | a list comprehension with an `if` clause; stated by FilterElements and FilterSorted |
| Scripts.ScriptPathInjective | taf/updater/lifecycle_handlers.py:59-67 | two (stage, event) pairs share a script directory `scripts/<stage>/<event>` if and only if they are the same pair |
| Scripts.ScriptPath | taf/updater/lifecycle_handlers.py:59-67 | `_get_script_path`: `scripts/<stage name>/<event name>`; stated by ScriptPathInjective |
| Scripts.MatchesPyGlob | taf/updater/lifecycle_handlers.py:145 | the pattern `*.py`: at least one character before `.py`, no leading '.'; used by SelectScriptsElements |
| Scripts.StartsWithDigit | taf/updater/lifecycle_handlers.py:146 | `script[0].isdigit()`; used by SelectScriptsElements and PathDigitTestSelectsNothing |
| Scripts.JoinPath | taf/updater/lifecycle_handlers.py:144-145 | `Path(dir, name)` and glob's `dir/name`; used by GlobPaths and ExecuteScripts |
| Scripts.GlobPaths | taf/updater/lifecycle_handlers.py:144-145 | glob returns at most one path per directory entry; every path is non-empty and starts with the directory's first character |
| Scripts.SelectScripts | taf/updater/lifecycle_handlers.py:145-146 | the selection with the sort repaired and the digit test on the file name; stated by SelectScriptsSorted, SelectScriptsElements, SelectScriptsOrderIndependent, SelectScriptsOnce, SelectScriptsExample |
| Scripts.SelectScriptsAsWritten | taf/updater/lifecycle_handlers.py:146 | the selection as written raises TypeError for every listing; stated by SortResultIsNone |
| Scripts.SelectScriptPathsAsWritten | taf/updater/lifecycle_handlers.py:144-146 | the selection with the sort repaired and the digit test on the full path, as written; stated by PathDigitTestSelectsNothing |
| Scripts.SelectScriptsSorted | taf/updater/lifecycle_handlers.py:145-146 | the selected scripts are in ascending order |
| Scripts.SelectScriptsElements | taf/updater/lifecycle_handlers.py:145-146 | the selection holds each `*.py` entry that starts with a digit, as often as the listing holds it, and no other entry |
| Scripts.SortResultIsNone | taf/updater/lifecycle_handlers.py:146 | for a directory holding `01_a.py`, the code as written raises TypeError, while the intended selection is `[01_a.py]` |
| Scripts.PathDigitTestSelectsNothing | taf/updater/lifecycle_handlers.py:144-146 | doing the digit test on the full glob path selects nothing whenever the directory path starts with a non-digit |
| Scripts.PathDigitTestMissesScript | taf/updater/lifecycle_handlers.py:144-146 | under `/repo`, the test as written skips `01_a.py`, while the intended test selects it |
| Scripts.SelectScriptsOrderIndependent | taf/updater/lifecycle_handlers.py:145-146 | the selection does not depend on the order in which the directory lists its entries |
| Scripts.SelectScriptsOnce | taf/updater/lifecycle_handlers.py:145-146 | in a listing without repeats, every runnable entry is selected exactly once |
| Scripts.SelectScriptsExample | taf/updater/lifecycle_handlers.py:145-146 | `02_b.py, 01_a.py, 10_c.py` run as `01_a.py, 02_b.py, 10_c.py` |
| Scripts.ExecuteScripts | taf/updater/lifecycle_handlers.py:143-153 | runs every selected script of `<repo>/<relative path>` once, in selection order, each with the same payload |
| Preparers.NormalizedEventTag | taf/updater/lifecycle_handlers.py:176-179 | the tag is `event/succeeded` exactly for CHANGED, UNCHANGED and SUCCEEDED, and `event/failed` exactly for every other event |
| Preparers.IsSuccessEvent | taf/updater/lifecycle_handlers.py:176 | the events CHANGED, UNCHANGED and SUCCEEDED; used by NormalizedEventTag and SucceededRunsFirst |
| Preparers.ErrorMessage | taf/updater/lifecycle_handlers.py:185 | `str(error) if error else ""`: the message, or empty when there is no error; used by PrepareRepo |
| Preparers.PrepareRepo | taf/updater/lifecycle_handlers.py:163-193 | the payload has exactly the eight keys of the dict literal, and it carries the given transient and persistent data under their own keys |
| Preparers.SuccessPayloadsDifferOnlyInChanged | taf/updater/lifecycle_handlers.py:176-193 | two success events give payloads that agree on every key except `changed`; `changed` is true exactly for CHANGED |
| Preparers.FailurePayloadTag | taf/updater/lifecycle_handlers.py:176-182 | a non-success event carries the tag `event/failed` and `changed` false |
| Preparers.ChangedFlagLost | taf/updater/lifecycle_handlers.py:177-182 | for a CHANGED event, the code as written reports `changed` false, while the intended code reports true |
| Preparers.PrepareRepoAsWritten | taf/updater/lifecycle_handlers.py:177-182 | prepare_data_repo's payload as written, with `changed` false; stated by ChangedFlagLost |
| Preparers.LookupPreparer | taf/updater/lifecycle_handlers.py:94-97 | looks the name `prepare_data_<stage>` up in the table of module-level preparers (`PreparerTable`): REPO finds prepare_data_repo and HOST finds prepare_data_host; UPDATE raises KeyError `prepare_data_update` |
| Preparers.PreparePayload | taf/updater/lifecycle_handlers.py:94-97 | raises exactly for the UPDATE stage; REPO gives the payload of prepare_data_repo with transient and persistent data under their own keys; HOST gives the stub's empty dict |
| Preparers.PreparePayloadArgumentsAsWritten | taf/updater/lifecycle_handlers.py:95-96 | the preparer calls as written: arguments swapped for REPO, arguments passed to a parameterless HOST preparer; stated by StateSwappedAsWritten and HostPreparerArityAsWritten |
| Preparers.StateSwappedAsWritten | taf/updater/lifecycle_handlers.py:95-96 | as written, the caller's persistent data lands under `transient` and its transient data under `persistent` |
| Preparers.StateSwapExample | taf/updater/lifecycle_handlers.py:95-96 | persistent data `{"x": 1}` appears under `transient` as written, while transient data None stays under `transient` as intended |
| Preparers.HostPreparerArityAsWritten | taf/updater/lifecycle_handlers.py:248-249 | as written, calling prepare_data_host with the event and data raises TypeError; as intended it yields `{}` |
| EventHandling.HandlerSequenceTable | taf/updater/lifecycle_handlers.py:110-120 | the handler order is CHANGED: succeeded, changed, completed; UNCHANGED: succeeded, unchanged, completed; SUCCEEDED: succeeded, completed; FAILED: failed, completed; COMPLETED: completed |
| EventHandling.CompletedRunsOnceAndLast | taf/updater/lifecycle_handlers.py:119-120 | `completed` runs last, and no earlier step runs it |
| EventHandling.SucceededRunsFirst | taf/updater/lifecycle_handlers.py:110-111 | `succeeded` runs if and only if the event is a success event, and then it runs first |
| EventHandling.SpecificHandlerRunsOnlyForItsEvent | taf/updater/lifecycle_handlers.py:112-117 | each of `changed`, `unchanged` and `failed` runs if and only if it is the incoming event |
| EventHandling.HandlerSequence | taf/updater/lifecycle_handlers.py:110-120 | the handlers in run order; stated by HandlerSequenceTable, CompletedRunsOnceAndLast, SucceededRunsFirst, SpecificHandlerRunsOnlyForItsEvent |
| EventHandling.ApplyResult | taf/updater/lifecycle_handlers.py:103-108 | one handler result folded into the payload; stated by ApplyResultSpec and ApplyResultOverwrites |
| EventHandling.Step | taf/updater/lifecycle_handlers.py:100-108 | one `_execute_handler` call as a value; stated by RunPrefixResult and Payload.ExecuteHandler |
| EventHandling.RunPrefix | taf/updater/lifecycle_handlers.py:110-120 | the payload after the first n handlers; stated by RunPrefixResult and RunHandlers |
| EventHandling.RunSteps | taf/updater/lifecycle_handlers.py:110-120 | the payload after every handler of the sequence; stated by FinalStateIsCompletedOutput and HandleEvent |
| EventHandling.ApplyResultSpec | taf/updater/lifecycle_handlers.py:103-108 | folding in a result sets `transient` and `persistent` to the result's entries (None when absent) and leaves every other key unchanged |
| EventHandling.ApplyResultOverwrites | taf/updater/lifecycle_handlers.py:103-108 | results are not merged: a later result entirely replaces an earlier one |
| EventHandling.RunPrefixResult | taf/updater/lifecycle_handlers.py:100-120 | after a non-empty run of handlers, `transient` and `persistent` are what the last handler returned; every other prepared key is untouched |
| EventHandling.Payload.constructor | taf/updater/lifecycle_handlers.py:95-97 | the shared payload starts as the preparer's result |
| EventHandling.Payload.ExecuteHandler | taf/updater/lifecycle_handlers.py:100-108 | the handler sees the payload as it was; the new payload is that payload with the handler's result folded in |
| EventHandling.RunHandlers | taf/updater/lifecycle_handlers.py:110-120 | calls each handler once, in sequence order, with its script directory and the payload the previous handlers left; the final payload is the fold of all their results |
| EventHandling.HandleEvent | taf/updater/lifecycle_handlers.py:91-120 | raises KeyError exactly for the UPDATE stage; otherwise it runs the handler sequence of the event on the prepared payload, as RunHandlers states |
| EventHandling.FinalStateIsCompletedOutput | taf/updater/lifecycle_handlers.py:119-120 | at the end of a run, `transient` and `persistent` are what the `completed` handler returned |
| EventHandling.HandleRepoEvent | taf/updater/lifecycle_handlers.py:70-88 | runs _handle_event for the REPO stage, which never raises; the first handler sees prepare_data_repo's payload |
| EventHandling.StubHandlers | taf/updater/lifecycle_handlers.py:123-140 | the five handlers, each returning `{}`; stated by StubHandlersClearState |
| EventHandling.StubHandlersClearState | taf/updater/lifecycle_handlers.py:123-140 | with the five handlers as they stand (each returns `{}`), a run ends with `transient` and `persistent` both None |
| EventHandling.RepoPayloadNotAssignableAsWritten | taf/updater/lifecycle_handlers.py:181 | as written, storing the first handler's result into the text that json.dumps returned raises TypeError; with the payload kept as a dict, the result is folded in |
| EventHandling.PrepareRepoSerializedAsWritten | taf/updater/lifecycle_handlers.py:181-193 | prepare_data_repo as written returns the text of its payload; stated by RepoPayloadNotAssignableAsWritten |
| EventHandling.ApplyResultAsWritten | taf/updater/lifecycle_handlers.py:107-108 | the item assignments of `_execute_handler`, which raise on a str payload; stated by RepoPayloadNotAssignableAsWritten |

## Left out

- Running a script (`run`), the file system `glob` reads, `pdb.set_trace()` and `print(data)`. The directory listing is a parameter. `pdb.set_trace()` would stop an interactive run, and the model goes past it.
- `json.dumps`. The payload is kept as a dict of JSON values. A script run records the dict it was given rather than its text. The as-written serialisation appears only as the parameter `dumps` of `EventHandling.PrepareRepoSerializedAsWritten`.
- JSON floats, and `indent=4` formatting.
- `auth_repo.to_json_dict()`, `auth_repo.name` and `auth_repo.path` are plain fields or parameters.
- `str(error) if error else ""` treats the error as absent or as its message. An error object whose truth value is false is not modelled.
- Scripts.ScriptPath: `get_target_path` is taken as the identity on the relative path. The code of `taf/repository_tool.py` is not part of this model.
- Scripts.ExecuteScripts: joins paths with '/' and does not model `Path` normalisation (repeated or trailing slashes). It drops the unused `self` parameter. It ignores each script's output, as the code does: the lines that would store it are commented out.
- Scripts.IsDigit: `str.isdigit` also accepts non-ASCII digits; only '0' to '9' are modelled.
- Scripts.MatchesPyGlob: only `*.py` directly in the directory. Hidden files are excluded, as glob excludes them.
- EventHandling.Handler: a handler is a pure function of its script directory and the payload. A handler that mutates the payload dict it receives (aliasing) is not modelled. The five handlers as they stand return `{}` and are modelled by `EventHandling.StubHandlers`.
- Preparers.HostArityMessage: the TypeError text omits Python's "but N were given" suffix. N depends on the extra arguments of a HOST caller, and the module has no such caller.
- The enumerations' underlying values `(1,)`, `(2,)`, `3` and `1` to `5` are never read by the code and are not modelled.
- `prepare_data_completed` is in the preparer table (`Preparers.PreparerTable`), but no stage name reaches it.

## Findings

| source | as written | input that shows it | evidently intended | confidence | as-written member | corrected member |
|---|---|---|---|---|---|---|
| taf/updater/lifecycle_handlers.py:146 | `scripts.sort()` sorts in place and returns None, and the comprehension iterates over None | any directory, e.g. one holding `01_a.py`: TypeError | iterate over the sorted list | not executed | Scripts.SelectScriptsAsWritten, Scripts.SortResultIsNone | Scripts.SelectScripts, Scripts.SelectScriptsSorted, Scripts.SelectScriptsElements |
| taf/updater/lifecycle_handlers.py:145-146 | `script[0].isdigit()` tests the first character of the full path that glob returns | repository at `/repo` holding `01_a.py`: nothing selected | test the file name's first character | not executed | Scripts.SelectScriptPathsAsWritten, Scripts.PathDigitTestSelectsNothing | Scripts.SelectScripts, Scripts.SelectScriptsElements |
| taf/updater/lifecycle_handlers.py:177-182 | `event` is rebound to a string before `event == Event.CHANGED` is computed, so `changed` is always false | event CHANGED: `"changed": false` | `changed` true exactly for CHANGED | not executed | Preparers.PrepareRepoAsWritten, Preparers.ChangedFlagLost | Preparers.PrepareRepo, Preparers.SuccessPayloadsDifferOnlyInChanged |
| taf/updater/lifecycle_handlers.py:95-96 | persistent and transient data are passed positionally to a preparer declared (transient, persistent) | persistent `{"x": 1}`, transient None: `{"x": 1}` lands under `transient` | each datum under its own key | not executed | Preparers.PreparePayloadArgumentsAsWritten, Preparers.StateSwappedAsWritten | Preparers.PreparePayload |
| taf/updater/lifecycle_handlers.py:95-96 | prepare_data_host declares no parameters, but it is called with the event and the data | stage HOST, any event: TypeError | the host preparer accepts the arguments | not executed | Preparers.PreparePayloadArgumentsAsWritten, Preparers.HostPreparerArityAsWritten | Preparers.PreparePayload |
| taf/updater/lifecycle_handlers.py:181 | prepare_data_repo returns the text of `json.dumps`, and `_execute_handler` assigns items into it | any REPO event: TypeError at the first handler | the payload stays a dict | not executed | EventHandling.PrepareRepoSerializedAsWritten, EventHandling.RepoPayloadNotAssignableAsWritten | Preparers.PrepareRepo, EventHandling.ApplyResultSpec |
