# GeminiControl NavMesh NPC — a Dafny model

This project models the two logic-bearing scripts of a Unity scene in which a
language model drives a NavMesh NPC.

- `SimpleLLMControllableNPC` is the NPC. It is a four-state machine: Idle, Moving,
  Patrolling and Dialoguing. Every change goes through one guarded `ChangeState`.
  - The NPC runs animator triggers and a patrol route with a wrapping cursor.
  - It starts two kinds of coroutine: an arrival watch and a 3-second dialogue
    timeout.
  - It saves and loads its id, position, rotation and state name to and from a
    JSON file.
- `LLM_NPC_Controller` sends the player's text to the model inside a fixed prompt.
  - It unwraps the provider's `candidates[0].content.parts[0].text` envelope and
    switches on the inner command's tag.
  - It checks the required parameters, makes at most one call on the NPC, and
    writes exactly one status line.

Files:

- `wrappers.dfy`: `Option`.
- `simple_npc.dfy` (module `SimpleNpc`): the NPC as pure functions.
  - `Agent` is the value of the NPC's run-time fields. Each operation has a
    function giving the fields after it.
  - The invariant every operation keeps (`Invariant`) and a whole-run theorem
    (`Run`).
  - State-name parsing, the save record and the load outcomes.
- `npc_agent.dfy` (module `NpcAgent`): the same NPC as classes whose fields are
  updated in place.
  - `SaveData` is `SimpleNPCSaveData`. `Store` is the save folder.
  - `NPC` holds the fields. Every command method of `NPC` (the state changes,
    the moves, the behaviour and dialogue commands, `Update`, `Resume` and
    `LoadState`) is proved to leave `Model()` equal to the matching `SimpleNpc`
    function of `old(Model())`. The public commands are also proved to keep
    `Valid()`, which is `SimpleNpc.Invariant`. `ResetTriggers`,
    `StartCoroutine`, `SaveState` and `OnApplicationQuit` have their own
    contracts on the fields and the save folder.
  - The trigger-reset `foreach` is the loop in `NPC.ResetTriggers`.
  - Coroutines are a map from handle to pending routine, plus the one tracked
    handle (`currentActionCoroutine`).
    - `ChangeState` stops only the tracked handle.
    - Re-issuing a move while Moving, or a line while Dialoguing, starts and
      tracks a new coroutine without stopping the old one. Several can be
      pending at once.
- `json.dfy` (module `Json`): the document tree and the `JsonData` accessors the
  controller uses (`ContainsKey`, `Count`, `[int]`, `[string]`, `ToString`,
  `(float)`), with throwing made explicit as `Try`. `JNull` is a null reference.
- `llm_response.dfy` (module `LlmResponse`): the prompt, the blank-input test, and
  `ProcessLLMResponse` as the function `Process`. It maps a response text to an
  `Outcome` of one status string and an optional `NpcCall`.
  - Anything thrown lands in the catch-all status.
  - `Expected` is an independent reference: for each typed `Command`, the
    result the code gives. When no target is bound, that result is the catch-all,
    because the call on the NPC throws.
- `llm_controller.dfy` (module `LlmController`): the controller as a class.
  - It has the status line, the input field, the requests in flight and the
    (nullable) target NPC.
  - Its methods apply `Process` and call the NPC's methods.

The world, the clock and the network are parameters:

- A `NavReading` is the navigation agent's per-frame report.
- The scheduler chooses which pending coroutine resumes (`NPC.Resume`).
- A timeout's resumption means its delay has passed.
- `Env.parse` is LitJson's text-to-tree step and `Env.world` is `GameObject.Find`.
- `ProviderResult` is the outcome of the web request.

Where the code and the system's written description of intent differ, the model
follows the code:

- Re-entering Dialoguing does not restart the timeout. The old one keeps running,
  a second one is started, and the first one to fire ends the dialogue
  (`OrphanedTimeoutCutsNewerDialogue`).
- A transition stops only the tracked coroutine, so more than one callback can
  be pending.
- An object the scene does not have produces only a status line. The NPC is
  never asked to apologise.
- A missing parameter key gives the tag's own error line, not the generic parse
  error.
- An unrecognised behaviour puts the NPC into Dialoguing (the apology), so its
  state does change.
- `SetBehavior` with a recognised name always ends in Dialoguing, after the
  confirmation.

## Model

| member | source | states |
|---|---|---|
| SimpleNpc.ChangeStateSpec | SimpleLLMControllableNPC.cs:172-215 | Asking for the current state changes nothing. Any other state stops only the tracked coroutine and nulls the handle. It then clears every trigger and sets exactly the new state's entry trigger (none for Moving). isStopped becomes true for Idle/Dialoguing and false for Moving/Patrolling. Patrolling with no route ends in Idle. Otherwise it heads for `patrolPoints[cursor]` and advances the cursor modulo the route length. |
| SimpleNpc.GoToNextSpec | SimpleLLMControllableNPC.cs:304-316 | An empty route is ChangeState(Idle). Otherwise the destination becomes the waypoint under the cursor and the cursor becomes `(cursor+1) % Length`. Nothing else changes. |
| SimpleNpc.SayDialogueSpec | SimpleLLMControllableNPC.cs:273-280 | Always ends in Dialoguing showing `"- " + line`, with a new 3-second timeout as the tracked handle. Already in Dialoguing, the triggers and the previous timeout are kept. |
| SimpleNpc.MoveToPositionSpec | SimpleLLMControllableNPC.cs:217-231 | Navigation on: Moving, destination p, and a new tracked arrival watch. A watch already running while Moving keeps running. Navigation off: exactly SayDialogue of the "cannot move" line, never Moving. |
| SimpleNpc.MoveToObjectSpec | SimpleLLMControllableNPC.cs:233-255 | A present object is MoveToPosition of its position. A null object says the "cannot find the target" line, or the "cannot move" line when navigation is off. |
| SimpleNpc.SetBehaviorSpec | SimpleLLMControllableNPC.cs:257-271 | Always ends in Dialoguing. A case-insensitive state name first changes to that state (a real transition there: entry actions, patrol step), then says the confirmation. Any other name says the apology. Position, rotation, navigation and (outside a new patrol) destination and cursor are kept. |
| SimpleNpc.UpdateSpec | SimpleLLMControllableNPC.cs:143-158 | Outside Patrolling nothing changes. Patrolling with no route goes to Idle. The cursor advances only when `!pathPending && remainingDistance < waypointThreshold`, and stays below the route length; nothing else changes on that step. |
| SimpleNpc.ResumeSpec | SimpleLLMControllableNPC.cs:282-302 | The arrival watch waits until `!pathPending && remaining <= stopping + 0.1`. A watch that ends, or any timeout, goes to Idle only if the state is still the one it waits in. Otherwise the coroutine just ends. Going to Idle keeps the text, destination, cursor and body. |
| SimpleNpc.ParseStateName | SimpleLLMControllableNPC.cs:369 | Case-sensitive `Enum.Parse`: Some(s) exactly when the name is `s`'s name. |
| SimpleNpc.ParseIgnoreCase | SimpleLLMControllableNPC.cs:261 | Case-insensitive `Enum.Parse`: a match is a state whose name equals the input ignoring letter case. None only when no state's name matches. |
| SimpleNpc.LoadSpec | SimpleLLMControllableNPC.cs:351-385 | No file: nothing changes and a bootstrap save is written. Undecodable file: Idle, rewritten. Record: id, position and rotation applied, navigation back on. The parsed state, or Idle plus a rewrite when the name does not parse. |
| SimpleNpc.Step | SimpleLLMControllableNPC.cs:143-385 | Every operation, timeout, load and navigation toggle keeps the invariant. |
| SimpleNpc.Run | SimpleLLMControllableNPC.cs:143-385 | After any run the invariant holds. The patrol cursor stays inside the route. StopDialogue is never left set. |
| SimpleNpc.FreshIsInvariant | SimpleLLMControllableNPC.cs:79-135 | The agent as initialised satisfies the invariant. |
| SimpleNpc.StartRunsNoEntryAction | SimpleLLMControllableNPC.cs:137-141 | Start's ChangeState(currentState) is a no-op. A restored state has no coroutine, no destination and no trigger, so a restored Dialoguing never times out and a restored Patrolling has no waypoint. |
| SimpleNpc.SaveLoadRoundTrip | SimpleLLMControllableNPC.cs:325-369 | Loading what SaveState wrote, into any agent, restores id, position, rotation and state, and writes nothing. |
| SimpleNpc.LoadSelfHeals | SimpleLLMControllableNPC.cs:351-385 | Whatever LoadState found, the file it leaves loads back cleanly into the same state. |
| SimpleNpc.LoadUnknownStateName | SimpleLLMControllableNPC.cs:369-384 | A record whose state name is "Sleeping" keeps the applied id, position and rotation, sets Idle and is rewritten. |
| SimpleNpc.PatrolIsNoState | SimpleLLMControllableNPC.cs:257-271 | "Patrol", the prompt's example behaviour, matches no state. |
| SimpleNpc.ExactNameMatchesIgnoringCase | SimpleLLMControllableNPC.cs:261 | Every name the case-sensitive parse accepts, the case-insensitive parse accepts as the same state. |
| SimpleNpc.OrphanedTimeoutCutsNewerDialogue | SimpleLLMControllableNPC.cs:273-301 | Two lines in a row leave both timeouts pending. The first to fire ends the dialogue while the second line is showing, and removes both. |
| SimpleNpc.TimeoutLeavesOnlyStartIdle | SimpleLLMControllableNPC.cs:293-301 | The StopDialogue set by the timeout is erased by the reset in the following ChangeState. Only StartIdle stays set. |
| SimpleNpc.MoveThenArrive | SimpleLLMControllableNPC.cs:217-291 | From Idle, a move and then an arrival reading end in Idle. The destination is kept and no coroutine is left but those already running. |
| SimpleNpc.SayThenIdleStopsTimeout | SimpleLLMControllableNPC.cs:172-183 | Talking and then going straight to Idle stops the timeout the talking started. |
| NpcAgent.SaveData.constructor | SimpleLLMControllableNPC.cs:10-21 | A new save record has every field at its default. |
| NpcAgent.SaveData.FromRecord | SimpleLLMControllableNPC.cs:358 | The object read back holds exactly the record's fields. |
| NpcAgent.SaveData.SetPosition | SimpleLLMControllableNPC.cs:24-34 | GetPosition afterwards returns exactly the stored components. Only posX/posY/posZ change. |
| NpcAgent.SaveData.SetRotation | SimpleLLMControllableNPC.cs:37-48 | GetRotation afterwards returns exactly the stored components, not renormalised. Only the rot fields change. |
| NpcAgent.NPC.constructor | SimpleLLMControllableNPC.cs:79-135 | The field initialisers and Awake: Idle, cursor 0, no coroutine, no trigger. The save path is derived from the initial id. |
| NpcAgent.NPC.ResetTriggers | SimpleLLMControllableNPC.cs:185-194 | The loop over the animator's parameters removes exactly the Trigger-typed names. |
| NpcAgent.NPC.SetTrigger | SimpleLLMControllableNPC.cs:200 | Sets the trigger if the animator declares it. |
| NpcAgent.NPC.StartCoroutine | SimpleLLMControllableNPC.cs:223 | Adds the routine under a fresh handle and returns that handle. |
| NpcAgent.NPC.ChangeState | SimpleLLMControllableNPC.cs:172-215 | The fields end as ChangeStateSpec gives them. |
| NpcAgent.NPC.GoToNextPatrolPoint | SimpleLLMControllableNPC.cs:304-316 | The fields end as GoToNextSpec gives them. |
| NpcAgent.NPC.MoveToPosition | SimpleLLMControllableNPC.cs:217-231 | The fields end as MoveToPositionSpec gives them, and the invariant is kept. |
| NpcAgent.NPC.MoveToObject | SimpleLLMControllableNPC.cs:233-255 | The fields end as MoveToObjectSpec gives them, and the invariant is kept. |
| NpcAgent.NPC.SetBehavior | SimpleLLMControllableNPC.cs:257-271 | The fields end as SetBehaviorSpec gives them, and the invariant is kept. |
| NpcAgent.NPC.SayDialogue | SimpleLLMControllableNPC.cs:273-280 | The fields end as SayDialogueSpec gives them, and the invariant is kept. |
| NpcAgent.NPC.Update | SimpleLLMControllableNPC.cs:143-158 | The fields end as UpdateSpec gives them, and the invariant is kept. |
| NpcAgent.NPC.Resume | SimpleLLMControllableNPC.cs:282-302 | The fields end as ResumeSpec gives them, and the invariant is kept. |
| NpcAgent.NPC.Start | SimpleLLMControllableNPC.cs:137-141 | Loads, then re-enters the loaded state. The fields and the save folder end as LoadSpec gives them. |
| NpcAgent.NPC.OnApplicationQuit | SimpleLLMControllableNPC.cs:167-170 | The save file now holds the current snapshot. |
| NpcAgent.NPC.SaveState | SimpleLLMControllableNPC.cs:325-346 | The save file becomes the snapshot of id, position, rotation and state name. No other file and no field changes. |
| NpcAgent.NPC.LoadState | SimpleLLMControllableNPC.cs:351-385 | The fields become LoadSpec's agent. The file is rewritten exactly when LoadSpec says so, and the invariant is kept. |
| NpcAgent.SaveAndRestore | SimpleLLMControllableNPC.cs:325-385 | Save, then Start a new NPC with the same id on the same folder: it takes over the id, position, rotation and state, with no coroutine and no trigger. |
| Json.Find | LLM_NPC_Controller.cs:178-180 | A key is found exactly when some member has it, and the value found is stored under it. |
| Json.FindGivesFirst | LLM_NPC_Controller.cs:194-195 | With repeated keys, the first member with the key is the one found. |
| LlmResponse.Prompt | LLM_NPC_Controller.cs:93-100 | The prompt is the fixed template, then `User command: "`, the user's text verbatim, and a closing quote. |
| LlmResponse.PromptInjective | LLM_NPC_Controller.cs:93-100 | Two prompts are equal exactly when the user texts are. |
| LlmResponse.Dispatch | LLM_NPC_Controller.cs:197-263 | No NPC call is made without a bound target. |
| LlmResponse.RunCommand | LLM_NPC_Controller.cs:194-263 | No NPC call is made without a bound target. |
| LlmResponse.Decide | LLM_NPC_Controller.cs:172-264 | No NPC call is made without a bound target. |
| LlmResponse.Process | LLM_NPC_Controller.cs:170-271 | Exactly one status line, and an NPC call only when a target is bound. |
| LlmResponse.DispatchRoundTrip | LLM_NPC_Controller.cs:176-263 | Any reply that `Carries` a text, whose text parses to any document that `Encodes` one of the four commands, gives exactly `Expected`. That is the matching NPC call with its success line, or only "object not found" for a name the scene lacks. With no target bound it is the catch-all. Other members, extra parameter keys and member order do not matter. |
| LlmResponse.EnvelopePayload | LLM_NPC_Controller.cs:176-188 | Any reply with the string `text` at `candidates[0].content.parts[0].text`, among any other members, yields that text. |
| LlmResponse.ProviderReplyCarries | LLM_NPC_Controller.cs:176-188 | A reply that also has `role`, `finishReason`, `index` and `usageMetadata` carries its text. |
| LlmResponse.EnvelopeDocCarries | LLM_NPC_Controller.cs:176-188 | The minimal reply carries its text. |
| LlmResponse.CommandDocOutcome | LLM_NPC_Controller.cs:194-263 | Any document with the command's tag under `command` and its parameters in a `parameters` object, among other members and in any order, dispatches to `Expected`. |
| LlmResponse.ReorderedSayEncodes | LLM_NPC_Controller.cs:194-195 | A say document with `parameters` before `command` and an extra parameter key encodes the say command. |
| LlmResponse.CommandDocEncodes | LLM_NPC_Controller.cs:194-195 | The minimal document of each command encodes it. |
| LlmResponse.DocRoundTrip | LLM_NPC_Controller.cs:176-263 | The minimal reply and document give `Expected`. |
| LlmResponse.MoveToPositionOutcome | LLM_NPC_Controller.cs:220-233 | Numbers under `x`, `y` and `z`, among any other keys in any order, are read as floats and passed to MoveToPosition. The status prints them. |
| LlmResponse.BadEnvelopeReported | LLM_NPC_Controller.cs:176-185 | Each of these in an object root gives the bad-envelope status and no call: missing `candidates`, empty `candidates`, missing `content`, missing `parts`, empty `parts`. |
| LlmResponse.NullRootReported | LLM_NPC_Controller.cs:178 | A null root gives the bad-envelope status. |
| LlmResponse.GenericParseErrors | LLM_NPC_Controller.cs:188-194 | These reach the catch-all: an unparsable response, a first part without `text`, an unparsable inner text, an inner document without `command` (the last two in any reply that carries the text). |
| LlmResponse.UnknownTagReported | LLM_NPC_Controller.cs:195-263 | In any reply that carries the text, any string tag other than the four exact names reports "unknown command" with the tag and calls nothing, whatever `parameters` holds. |
| LlmResponse.MissingParametersReported | LLM_NPC_Controller.cs:200-258 | In any reply that carries the text, with `parameters` absent or null, or lacking a required key (objectName; x, y, z; behaviorType; text), the tag's own error line is reported and nothing is called. |
| LlmResponse.UnboundTargetRejectsEveryCall | LLM_NPC_Controller.cs:197-270 | With no target bound nothing is called. Every response that would call the NPC ends in the catch-all instead. |
| LlmResponse.UnboundRunCommand | LLM_NPC_Controller.cs:194-264 | Binding a target changes a command's outcome only where the NPC is called. |
| LlmResponse.UnboundDispatch | LLM_NPC_Controller.cs:197-263 | Binding a target changes the switch's outcome only where the NPC is called. |
| LlmController.Perform | ILLMControllableNPC.cs:5-11 | The four interface calls are the NPC's own operations. Each keeps its invariant and ends in Moving or Dialoguing. SetBehavior and SayDialogue always end in Dialoguing. |
| LlmController.Controller.constructor | LLM_NPC_Controller.cs:37-64 | As written: no target NPC is bound and the status reads "Готов к командам...". |
| LlmController.Controller.Bound | LLM_NPC_Controller.cs:55 | The controller with its target bound, as the commented-out lines intend. |
| LlmController.Controller.Type | LLM_NPC_Controller.cs:22 | The player's typing sets the input field. |
| LlmController.Controller.OnSendCommand | LLM_NPC_Controller.cs:70-82 | Blank input: "Введите команду!", nothing sent, field kept. Otherwise "Отправка команды LLM...", the prompt is sent, and the field is cleared. |
| LlmController.Controller.OnProviderResult | LLM_NPC_Controller.cs:153-163 | A failure reports "Ошибка LLM: " plus the error and leaves the NPC alone. A success is handled by ProcessLLMResponse. |
| LlmController.Controller.ProcessLLMResponse | LLM_NPC_Controller.cs:170-271 | The status becomes `Process`'s status. The bound NPC ends as its own operation for `Process`'s call gives, or unchanged. |
| LlmController.Controller.CallTarget | LLM_NPC_Controller.cs:206 | The NPC ends as the called operation gives. |
| LlmController.SetBehaviorStatusIsUnconditional | LLM_NPC_Controller.cs:235-246 | For any reply and document encoding setBehavior "Patrol", the status announces the mode change, while the NPC, not recognising it, apologises in Dialoguing. |
| LlmController.ObjectNotFoundLeavesNpcAlone | LLM_NPC_Controller.cs:199-218 | An object the scene lacks is only reported. The NPC is unchanged. |
| LlmController.AsWrittenSayFails | LLM_NPC_Controller.cs:248-259 | As written, a well-formed say command ends in "Ошибка парсинга ответа LLM.". |
| LlmController.BoundSayReachesNpc | LLM_NPC_Controller.cs:248-259 | With the target bound, the NPC says the line and the status echoes it. |

## Left out

- Floating point: positions, rotations, distances and the waypoint threshold are reals. Float32 rounding and the double-to-float cast are not modelled. How a float prints in the status is the parameter `Env.floatText`.
- LitJson internals:
  - Text to tree is the parameter `Env.parse`.
  - What the `(float)` casts accept depends on the library's conversion operators. Here every JSON number converts.
  - Repeated keys resolve to the first member here; the library's choice among them is not modelled.
  - Mapping a save file onto `SimpleNPCSaveData` (missing or mistyped fields) is reduced to "a record" or "corrupt".
- DispatchRoundTrip: the command's string parameters and the carried text are taken to be JSON strings. A number or boolean in their place prints through `ToString`, and the functions model that, but the round trip does not cover it.
- SaveLoadRoundTrip: the store keeps the record itself. That `JsonMapper.ToObject` gives back the record `JsonMapper.ToJson` wrote is assumed, not modelled.
- The HTTP request: body serialisation, URL, key, handlers and headers. The request's outcome is `ProviderResult`. Requests may be answered in any order (`OnProviderResult` takes an index).
- Logging (`Debug.Log*`) and `Text`/`InputField`/`Button` objects beyond their `text`. So is the button listener registration.
- Unity collaborators that can be missing:
  - A missing NavMeshAgent disables the script in Awake. Not modelled; one is always present.
  - A disabled NavMeshAgent ignores `isStopped` and `SetDestination`, and re-enabling it in LoadState clears its path. The model applies and keeps both regardless. This shows only after navigation is disabled or LoadState runs in the middle of a run.
  - A null animator is treated as an animator with no parameters.
  - A null `npcText` is not modelled.
  - Null entries in `patrolPoints` are not modelled. An unset route is the empty route.
- Animator trigger names are fixed to their inspector defaults. Their empty-name checks therefore always pass.
- Animator transitions: a trigger, once set, stays set until `ResetTrigger` clears it. The Animator consuming a trigger when a transition fires is not modelled, so `Settled` and `TimeoutLeavesOnlyStartIdle` are statements about this idealised trigger set.
- The file system: the save folder under `persistentDataPath` and its creation. A write failure swallowed by SaveState's catch is not modelled; writes succeed. The path is derived once in Awake and not re-derived after LoadState replaces the id, as in the code.
- `Enum.Parse` beyond matching the four names: numeric strings, surrounding white space, comma lists. Case folding is ASCII only.
- `string.IsNullOrWhiteSpace(null)`: the input field's text is never null here.
- `GameObject.Find` semantics (paths, inactive objects): the scene is a name-to-position map. The object's position is taken when the command is dispatched.
- Real time: no clock. Each `Resume` is one resumption chosen by the scheduler. A WaitUntil that is polled every frame until it holds is a `Resume` that leaves the watch pending while it does not.
- Movement speed, the commented-out animator speed update and the editor gizmos are not modelled. The commented-out schema payload in SendToLLM is also left out.

## Findings

| source | as written | input that shows it | evidently intended | confidence | as-written member | corrected member |
|---|---|---|---|---|---|---|
| LLM_NPC_Controller.cs:37 | `targetNPC` is never assigned. Its only assignment (line 55) is inside the block commented out at lines 41-61, so every `targetNPC.*` call throws NullReferenceException. | A well-formed `{"command":"say","parameters":{"text":"Привет"}}` in a well-formed envelope ends in "Ошибка парсинга ответа LLM." and the NPC never speaks. | Start binds `targetNPC` from `targetNPCGameObject`, and each command reaches the NPC. | not executed; high | LlmController.AsWrittenSayFails | LlmController.BoundSayReachesNpc |
