/**
  The behaviour of SimpleLLMControllableNPC as pure functions.

  `Agent` holds every field the controller changes at run time; each operation
  of the controller has a function here that gives the fields after it, and the
  class in npc_agent.dfy is proved to change its fields exactly as these
  functions say. Unity collaborators are reduced to what can be observed of them:
  the navigation agent's `isStopped`, `enabled` and last destination, the set of
  animator triggers that are set, the text of the speech label, and the
  coroutines that have been started and have neither finished nor been stopped.
*/
module SimpleNpc {
  import opened Wrappers

  datatype NPCState = Idle | Moving | Patrolling | Dialoguing

  /** A position; its float components are carried, never computed on. */
  datatype Vec3 = Vec3(x: real, y: real, z: real)

  /** A rotation, stored as its raw components (never renormalised). */
  datatype Quat = Quat(x: real, y: real, z: real, w: real)

  datatype ParamType = FloatParam | IntParam | BoolParam | TriggerParam

  /** One parameter of the animator controller. */
  datatype AnimatorParam = AnimatorParam(name: string, kind: ParamType)

  /** Coroutines are told apart by the handle StartCoroutine gave them. */
  type Handle = nat

  /** The two coroutines the controller starts. */
  datatype Routine =
    | WaitForDestination(target: Vec3)
    | EndDialogueAfterDelay(delay: real)

  /** What the navigation agent reports in one frame. */
  datatype NavReading = NavReading(pathPending: bool, remainingDistance: real, stoppingDistance: real)

  /**
    What the scene fixes before the controller runs: the patrol route (an unset
    route is the empty one), the animator's parameters (no animator is an
    animator without parameters: nothing is reset and nothing can be set) and
    the waypoint threshold.
  */
  datatype Config = Config(patrolPoints: seq<Vec3>, animatorParams: seq<AnimatorParam>, waypointThreshold: real)

  // Inspector defaults of the animator trigger names.
  const StartIdle: string := "StartIdle"
  const StartPatrol: string := "StartPatrol"
  const StartDialogue: string := "StartDialogue"
  const StopDialogue: string := "StopDialogue"

  /** Slack added to the stopping distance by the arrival watch. */
  const ArrivalTolerance: real := 0.1
  /** Seconds a line of dialogue stays up before the timeout fires. */
  const DialogueDelay: real := 3.0

  const NavDisabledLine: string := "Я не могу двигаться, мой навигационный модуль отключен."
  const TargetMissingLine: string := "Я не могу найти цель, которую вы указали."

  function Confirmation(behaviorType: string): string {
    "Теперь я в режиме " + behaviorType + "."
  }

  function Apology(behaviorType: string): string {
    "Извините, я не понял команду '" + behaviorType + "'."
  }

  /** The controller's run-time fields. */
  datatype Agent = Agent(
    state: NPCState,
    cursor: nat,                        // currentPatrolPointIndex
    navEnabled: bool,                   // navMeshAgent.enabled
    isStopped: bool,                    // navMeshAgent.isStopped
    destination: Option<Vec3>,          // the last SetDestination
    triggers: set<string>,              // animator triggers currently set
    text: string,                       // npcText.text
    pending: map<Handle, Routine>,      // coroutines still running
    tracked: Option<Handle>,            // currentActionCoroutine
    nextHandle: Handle,
    npcID: string,
    position: Vec3,                     // transform.position
    rotation: Quat)                     // transform.rotation

  /** The agent as Awake and the field initialisers leave it. */
  function Fresh(npcID: string, position: Vec3, rotation: Quat, text: string): Agent {
    Agent(Idle, 0, true, false, None, {}, text, map[], None, 0, npcID, position, rotation)
  }

  // ---------------------------------------------------------------------------
  // Animator triggers

  /** The names of the animator's Trigger-typed parameters, which the reset loop clears. */
  function TriggerNames(ps: seq<AnimatorParam>): set<string>
  {
    if ps == [] then {}
    else TriggerNames(ps[..|ps| - 1])
         + (if ps[|ps| - 1].kind == TriggerParam then {ps[|ps| - 1].name} else {})
  }

  function Declared(cfg: Config): set<string> {
    TriggerNames(cfg.animatorParams)
  }

  /** Animator.SetTrigger: only a declared trigger parameter can be set. */
  function SetTrigger(cfg: Config, a: Agent, name: string): Agent {
    if name in Declared(cfg) then a.(triggers := a.triggers + {name}) else a
  }

  /** The trigger each state's entry action sets (Moving sets none). */
  function EntryTrigger(s: NPCState): Option<string> {
    match s
    case Idle => Some(StartIdle)
    case Moving => None
    case Patrolling => Some(StartPatrol)
    case Dialoguing => Some(StartDialogue)
  }

  /** The triggers set right after entering `s`: its entry trigger, if the animator declares it. */
  function EntryTriggers(cfg: Config, s: NPCState): set<string> {
    match EntryTrigger(s)
    case None => {}
    case Some(t) => if t in Declared(cfg) then {t} else {}
  }

  // ---------------------------------------------------------------------------
  // Invariants

  /** What holds at every point, also in the middle of an operation. */
  ghost predicate Wf(cfg: Config, a: Agent) {
    && (a.cursor < |cfg.patrolPoints| || a.cursor == 0)
    && a.triggers <= Declared(cfg)
    && (forall h :: h in a.pending ==> h < a.nextHandle)
    && (a.tracked.Some? ==> a.tracked.value < a.nextHandle)
  }

  /** Between operations the animator holds at most one trigger, and it is an entry trigger. */
  ghost predicate Settled(a: Agent) {
    && (forall t :: t in a.triggers ==> t == StartIdle || t == StartPatrol || t == StartDialogue)
    && (forall t, u :: t in a.triggers && u in a.triggers ==> t == u)
  }

  ghost predicate Invariant(cfg: Config, a: Agent) {
    Wf(cfg, a) && Settled(a)
  }

  /** `b` shows the entry actions of `s`: the state, the brake, and exactly its entry trigger. */
  ghost predicate Entered(cfg: Config, b: Agent, s: NPCState) {
    && b.state == s
    && b.triggers == EntryTriggers(cfg, s)
    && b.isStopped == (s == Idle || s == Dialoguing)
  }

  /** Fields that no command changes. */
  ghost predicate SameBody(a: Agent, b: Agent) {
    a.npcID == b.npcID && a.position == b.position && a.rotation == b.rotation && a.navEnabled == b.navEnabled
  }

  // ---------------------------------------------------------------------------
  // Coroutines

  /** The running coroutines once the tracked one is stopped (StopCoroutine). */
  function Untrack(a: Agent): map<Handle, Routine> {
    if a.tracked.Some? then a.pending - {a.tracked.value} else a.pending
  }

  /** `currentActionCoroutine = StartCoroutine(r)`: start `r` under a new handle and track it. */
  function Track(a: Agent, r: Routine): Agent {
    a.(pending := a.pending[a.nextHandle := r], tracked := Some(a.nextHandle), nextHandle := a.nextHandle + 1)
  }

  /** The arrival watch's WaitUntil condition. */
  predicate Arrived(nav: NavReading) {
    !nav.pathPending && nav.remainingDistance <= nav.stoppingDistance + ArrivalTolerance
  }

  /** The condition under which Update moves on to the next waypoint. */
  predicate NearWaypoint(cfg: Config, nav: NavReading) {
    !nav.pathPending && nav.remainingDistance < cfg.waypointThreshold
  }

  // ---------------------------------------------------------------------------
  // State changes

  /**
    ChangeState: a request for the current state does nothing at all; any other
    request stops the tracked coroutine, clears the animator's triggers and runs
    the new state's entry action. Entering Patrolling without a route falls
    through to Idle.
  */
  function ChangeStateSpec(cfg: Config, a: Agent, s: NPCState): (b: Agent)
    requires Wf(cfg, a)
    decreases if s == Patrolling then 2 else 0
    ensures Wf(cfg, b)
    ensures a.state == s ==> b == a
    ensures a.state != s ==>
              && Settled(b)
              && Entered(cfg, b, if s == Patrolling && |cfg.patrolPoints| == 0 then Idle else s)
              && b.tracked == None && b.pending == Untrack(a)
              && b.text == a.text && b.nextHandle == a.nextHandle && SameBody(a, b)
    ensures a.state != s && s == Patrolling && |cfg.patrolPoints| > 0 ==>
              && b.destination == Some(cfg.patrolPoints[a.cursor])
              && b.cursor == (a.cursor + 1) % |cfg.patrolPoints|
    ensures !(a.state != s && s == Patrolling && |cfg.patrolPoints| > 0) ==>
              b.destination == a.destination && b.cursor == a.cursor
  {
    if a.state == s then a
    else
      var stopped := a.(state := s, pending := Untrack(a), tracked := None);
      var reset := stopped.(triggers := stopped.triggers - Declared(cfg));
      match s
      case Idle => SetTrigger(cfg, reset.(isStopped := true), StartIdle)
      case Moving => reset.(isStopped := false)
      case Patrolling => GoToNextSpec(cfg, SetTrigger(cfg, reset.(isStopped := false), StartPatrol))
      case Dialoguing => SetTrigger(cfg, reset.(isStopped := true), StartDialogue)
  }

  /** GoToNextPatrolPoint: head for the waypoint under the cursor and advance the cursor cyclically. */
  function GoToNextSpec(cfg: Config, a: Agent): (b: Agent)
    requires Wf(cfg, a)
    decreases 1
    ensures Wf(cfg, b)
    ensures |cfg.patrolPoints| == 0 ==> b == ChangeStateSpec(cfg, a, Idle)
    ensures |cfg.patrolPoints| > 0 ==>
              b == a.(destination := Some(cfg.patrolPoints[a.cursor]),
                      cursor := (a.cursor + 1) % |cfg.patrolPoints|)
  {
    if |cfg.patrolPoints| == 0 then ChangeStateSpec(cfg, a, Idle)
    else
      a.(destination := Some(cfg.patrolPoints[a.cursor]),
         cursor := (a.cursor + 1) % |cfg.patrolPoints|)
  }

  /**
    SayDialogue: end in Dialoguing showing "- " + line, with a new 3-second
    timeout as the tracked coroutine. Already in Dialoguing, the state change is
    skipped, so the previous timeout keeps running.
  */
  function SayDialogueSpec(cfg: Config, a: Agent, line: string): (b: Agent)
    requires Wf(cfg, a)
    ensures Wf(cfg, b) && (Settled(a) ==> Settled(b))
    ensures b.state == Dialoguing && b.text == "- " + line
    ensures b.tracked == Some(a.nextHandle) && b.nextHandle == a.nextHandle + 1
    ensures b.pending == (if a.state == Dialoguing then a.pending else Untrack(a))
                           [a.nextHandle := EndDialogueAfterDelay(DialogueDelay)]
    ensures a.state == Dialoguing ==> b.triggers == a.triggers && b.isStopped == a.isStopped
    ensures a.state != Dialoguing ==> Entered(cfg, b, Dialoguing)
    ensures b.destination == a.destination && b.cursor == a.cursor && SameBody(a, b)
  {
    var talking := ChangeStateSpec(cfg, a, Dialoguing);
    Track(talking.(text := "- " + line), EndDialogueAfterDelay(DialogueDelay))
  }

  /**
    MoveToPosition: with navigation enabled, enter Moving, head for `p` and
    track a new arrival watch (a watch already running while Moving is left
    running); with navigation disabled, apologise instead.
  */
  function MoveToPositionSpec(cfg: Config, a: Agent, p: Vec3): (b: Agent)
    requires Wf(cfg, a)
    ensures Wf(cfg, b) && (Settled(a) ==> Settled(b))
    ensures a.navEnabled ==>
              && b.state == Moving && b.destination == Some(p)
              && b.tracked == Some(a.nextHandle) && b.nextHandle == a.nextHandle + 1
              && b.pending == (if a.state == Moving then a.pending else Untrack(a))
                                [a.nextHandle := WaitForDestination(p)]
              && b.text == a.text && b.cursor == a.cursor && SameBody(a, b)
    ensures a.navEnabled && a.state != Moving ==> Entered(cfg, b, Moving)
    ensures a.navEnabled && a.state == Moving ==> b.triggers == a.triggers && b.isStopped == a.isStopped
    ensures !a.navEnabled ==> b == SayDialogueSpec(cfg, a, NavDisabledLine)
  {
    if a.navEnabled then
      var moving := ChangeStateSpec(cfg, a, Moving);
      Track(moving.(destination := Some(p)), WaitForDestination(p))
    else
      SayDialogueSpec(cfg, a, NavDisabledLine)
  }

  /**
    MoveToObject: moving to an object is moving to its position; a missing
    object makes the agent apologise, and disabled navigation is reported first.
  */
  function MoveToObjectSpec(cfg: Config, a: Agent, target: Option<Vec3>): (b: Agent)
    requires Wf(cfg, a)
    ensures Wf(cfg, b) && (Settled(a) ==> Settled(b))
    ensures target.Some? ==> b == MoveToPositionSpec(cfg, a, target.value)
    ensures target.None? ==>
              b == SayDialogueSpec(cfg, a, if a.navEnabled then TargetMissingLine else NavDisabledLine)
  {
    if a.navEnabled then
      match target
      case Some(p) =>
        var moving := ChangeStateSpec(cfg, a, Moving);
        Track(moving.(destination := Some(p)), WaitForDestination(p))
      case None => SayDialogueSpec(cfg, a, TargetMissingLine)
    else
      SayDialogueSpec(cfg, a, NavDisabledLine)
  }

  /**
    SetBehavior: a name that matches a state (ignoring case) first changes to
    that state and then confirms it aloud; any other name is apologised for.
    Either way the agent ends up in Dialoguing.
  */
  function SetBehaviorSpec(cfg: Config, a: Agent, behaviorType: string): (b: Agent)
    requires Wf(cfg, a)
    ensures Wf(cfg, b) && (Settled(a) ==> Settled(b))
    ensures b.state == Dialoguing
    ensures ParseIgnoreCase(behaviorType).None? ==>
              b == SayDialogueSpec(cfg, a, Apology(behaviorType))
    ensures ParseIgnoreCase(behaviorType) == Some(a.state) ==>
              b == SayDialogueSpec(cfg, a, Confirmation(behaviorType))
    ensures ParseIgnoreCase(behaviorType).Some? && ParseIgnoreCase(behaviorType) != Some(a.state) ==>
              && Settled(b) && Entered(cfg, b, Dialoguing)
              && b.text == "- " + Confirmation(behaviorType)
              && b.tracked == Some(a.nextHandle)
              && b.pending == Untrack(a)[a.nextHandle := EndDialogueAfterDelay(DialogueDelay)]
    ensures ParseIgnoreCase(behaviorType) == Some(Patrolling) && a.state != Patrolling && |cfg.patrolPoints| > 0 ==>
              && b.destination == Some(cfg.patrolPoints[a.cursor])
              && b.cursor == (a.cursor + 1) % |cfg.patrolPoints|
    ensures !(ParseIgnoreCase(behaviorType) == Some(Patrolling) && a.state != Patrolling && |cfg.patrolPoints| > 0) ==>
              b.destination == a.destination && b.cursor == a.cursor
    ensures b.nextHandle == a.nextHandle + 1 && SameBody(a, b)
  {
    match ParseIgnoreCase(behaviorType)
    case Some(s) => SayDialogueSpec(cfg, ChangeStateSpec(cfg, a, s), Confirmation(behaviorType))
    case None => SayDialogueSpec(cfg, a, Apology(behaviorType))
  }

  /** The Patrolling branch of Update: no route means Idle; near the waypoint means the next one. */
  function UpdateSpec(cfg: Config, a: Agent, nav: NavReading): (b: Agent)
    requires Wf(cfg, a)
    ensures Wf(cfg, b) && (Settled(a) ==> Settled(b))
    ensures a.state != Patrolling ==> b == a
    ensures a.state == Patrolling && |cfg.patrolPoints| == 0 ==>
              && Entered(cfg, b, Idle) && b.pending == Untrack(a) && b.tracked == None
              && b.text == a.text && b.destination == a.destination && b.cursor == a.cursor
              && b.nextHandle == a.nextHandle && SameBody(a, b)
    ensures a.state == Patrolling && |cfg.patrolPoints| > 0 && NearWaypoint(cfg, nav) ==>
              && b == a.(destination := Some(cfg.patrolPoints[a.cursor]),
                         cursor := (a.cursor + 1) % |cfg.patrolPoints|)
              && b.cursor < |cfg.patrolPoints|
    ensures a.state == Patrolling && |cfg.patrolPoints| > 0 && !NearWaypoint(cfg, nav) ==> b == a
  {
    if a.state != Patrolling then a
    else if |cfg.patrolPoints| == 0 then ChangeStateSpec(cfg, a, Idle)
    else if NearWaypoint(cfg, nav) then GoToNextSpec(cfg, a)
    else a
  }

  /**
    One resumption of the coroutine `h`. An arrival watch whose condition does
    not hold yet keeps waiting; once it holds the watch ends and returns the
    agent to Idle if it is still Moving. A timeout (its delay having passed)
    ends and returns the agent to Idle if it is still Dialoguing; the
    StopDialogue trigger it sets on the way is cleared again by that change.
  */
  function ResumeSpec(cfg: Config, a: Agent, h: Handle, nav: NavReading): (b: Agent)
    requires Wf(cfg, a) && h in a.pending
    ensures Wf(cfg, b) && (Settled(a) ==> Settled(b))
    ensures a.pending[h].WaitForDestination? && !Arrived(nav) ==> b == a
    ensures Ends(a, h, nav) && a.state != Waits(a, h) ==> b == a.(pending := a.pending - {h})
    ensures Ends(a, h, nav) && a.state == Waits(a, h) ==>
              && Entered(cfg, b, Idle) && b.tracked == None
              && b.pending == Untrack(a) - {h}
              && h !in b.pending
              && b.text == a.text && b.destination == a.destination && b.cursor == a.cursor
              && b.nextHandle == a.nextHandle && SameBody(a, b)
  {
    match a.pending[h]
    case WaitForDestination(_) =>
      if !Arrived(nav) then a
      else
        var done := a.(pending := a.pending - {h});
        if done.state == Moving then ChangeStateSpec(cfg, done, Idle) else done
    case EndDialogueAfterDelay(_) =>
      var done := a.(pending := a.pending - {h});
      if done.state == Dialoguing then ChangeStateSpec(cfg, SetTrigger(cfg, done, StopDialogue), Idle)
      else done
  }

  /** Whether resuming `h` ends it: a timeout always does, a watch once the agent has arrived. */
  predicate Ends(a: Agent, h: Handle, nav: NavReading)
    requires h in a.pending
  {
    a.pending[h].EndDialogueAfterDelay? || Arrived(nav)
  }

  /** The state the coroutine `h` waits to leave. */
  function Waits(a: Agent, h: Handle): NPCState
    requires h in a.pending
  {
    if a.pending[h].WaitForDestination? then Moving else Dialoguing
  }

  // ---------------------------------------------------------------------------
  // State names

  /** NPCState.ToString. */
  function StateName(s: NPCState): string {
    match s
    case Idle => "Idle"
    case Moving => "Moving"
    case Patrolling => "Patrolling"
    case Dialoguing => "Dialoguing"
  }

  /** Enum.Parse without ignoreCase: the name must be spelled exactly. */
  function ParseStateName(name: string): (r: Option<NPCState>)
    ensures forall s :: r == Some(s) <==> name == StateName(s)
  {
    if name == "Idle" then Some(Idle)
    else if name == "Moving" then Some(Moving)
    else if name == "Patrolling" then Some(Patrolling)
    else if name == "Dialoguing" then Some(Dialoguing)
    else None
  }

  /** Upper-casing of the ASCII letters. */
  function Upper(c: char): char {
    if 'a' <= c <= 'z' then (c as int - 32) as char else c
  }

  predicate SameIgnoringCase(s: string, t: string) {
    |s| == |t| && forall i :: 0 <= i < |s| ==> Upper(s[i]) == Upper(t[i])
  }

  /** Enum.Parse with ignoreCase. */
  function ParseIgnoreCase(name: string): (r: Option<NPCState>)
    ensures forall s :: r == Some(s) ==> SameIgnoringCase(name, StateName(s))
    ensures r.None? ==> forall s :: !SameIgnoringCase(name, StateName(s))
  {
    if SameIgnoringCase(name, "Idle") then Some(Idle)
    else if SameIgnoringCase(name, "Moving") then Some(Moving)
    else if SameIgnoringCase(name, "Patrolling") then Some(Patrolling)
    else if SameIgnoringCase(name, "Dialoguing") then Some(Dialoguing)
    else None
  }

  // ---------------------------------------------------------------------------
  // Persistence

  /** The content of a save file (SimpleNPCSaveData as JSON). */
  datatype SaveRecord = SaveRecord(
    id: string,
    posX: real, posY: real, posZ: real,
    rotX: real, rotY: real, rotZ: real, rotW: real,
    currentStateName: string)
  {
    /** SimpleNPCSaveData.GetPosition. */
    function Position(): Vec3 { Vec3(posX, posY, posZ) }
    /** SimpleNPCSaveData.GetRotation. */
    function Rotation(): Quat { Quat(rotX, rotY, rotZ, rotW) }
  }

  /** What the save file holds: a record, or text that does not read back as one. */
  datatype StoreEntry = Saved(record: SaveRecord) | Corrupt

  /** The record SaveState writes. */
  function Snapshot(a: Agent): SaveRecord {
    SaveRecord(a.npcID,
               a.position.x, a.position.y, a.position.z,
               a.rotation.x, a.rotation.y, a.rotation.z, a.rotation.w,
               StateName(a.state))
  }

  /** The agent after LoadState, and whether LoadState writes a fresh save. */
  datatype Loaded = Loaded(agent: Agent, rewrite: bool)

  /**
    LoadState. No file: nothing changes and the current state is saved. A file
    that does not decode: Idle, saved. A record: the id, position and rotation
    are applied (navigation is switched off and on again around them), then the
    state name is decoded; a name that does not decode leaves those applied,
    sets Idle and saves.
  */
  function LoadSpec(a: Agent, entry: Option<StoreEntry>): (r: Loaded)
    ensures entry.None? ==> r == Loaded(a, true)
    ensures entry == Some(Corrupt) ==> r == Loaded(a.(state := Idle), true)
    ensures entry.Some? && entry.value.Saved? ==>
              var rec := entry.value.record;
              && r.agent.npcID == rec.id
              && r.agent.position == rec.Position() && r.agent.rotation == rec.Rotation()
              && r.agent.navEnabled
              && r.agent.state == ParseStateName(rec.currentStateName).GetOr(Idle)
              && r.rewrite == ParseStateName(rec.currentStateName).None?
              && r.agent == a.(npcID := r.agent.npcID, position := r.agent.position,
                               rotation := r.agent.rotation, navEnabled := true, state := r.agent.state)
  {
    match entry
    case None => Loaded(a, true)
    case Some(Corrupt) => Loaded(a.(state := Idle), true)
    case Some(Saved(rec)) =>
      var placed := a.(npcID := rec.id, navEnabled := false)
                     .(position := rec.Position(), rotation := rec.Rotation())
                     .(navEnabled := true);
      match ParseStateName(rec.currentStateName)
      case Some(s) => Loaded(placed.(state := s), false)
      case None => Loaded(placed.(state := Idle), true)
  }

  /** Start: load, then ChangeState to the state just loaded. */
  function StartSpec(cfg: Config, a: Agent, entry: Option<StoreEntry>): (b: Agent)
    requires Wf(cfg, a)
  {
    var loaded := LoadSpec(a, entry).agent;
    ChangeStateSpec(cfg, loaded, loaded.state)
  }

  // ---------------------------------------------------------------------------
  // Runs

  /** Whatever can happen to the controller between two frames. */
  datatype Event =
    | DoMoveToPosition(p: Vec3)
    | DoMoveToObject(target: Option<Vec3>)
    | DoSetBehavior(behaviorType: string)
    | DoSayDialogue(line: string)
    | DoUpdate(nav: NavReading)
    | DoResume(h: Handle, nav: NavReading)
    | DoLoad(entry: Option<StoreEntry>)
    | DoSetNavEnabled(on: bool)

  function Step(cfg: Config, a: Agent, e: Event): (b: Agent)
    requires Invariant(cfg, a)
    ensures Invariant(cfg, b)
  {
    match e
    case DoMoveToPosition(p) => MoveToPositionSpec(cfg, a, p)
    case DoMoveToObject(t) => MoveToObjectSpec(cfg, a, t)
    case DoSetBehavior(name) => SetBehaviorSpec(cfg, a, name)
    case DoSayDialogue(line) => SayDialogueSpec(cfg, a, line)
    case DoUpdate(nav) => UpdateSpec(cfg, a, nav)
    case DoResume(h, nav) => if h in a.pending then ResumeSpec(cfg, a, h, nav) else a
    case DoLoad(entry) => LoadSpec(a, entry).agent
    case DoSetNavEnabled(on) => a.(navEnabled := on)
  }

  /**
    Any run keeps the invariant: the patrol cursor indexes the route, at most
    one animator trigger is set between operations and it is never
    StopDialogue, and every handle was issued.
  */
  function Run(cfg: Config, a: Agent, events: seq<Event>): (b: Agent)
    requires Invariant(cfg, a)
    decreases |events|
    ensures Invariant(cfg, b)
    ensures |cfg.patrolPoints| > 0 ==> b.cursor < |cfg.patrolPoints|
    ensures StopDialogue !in b.triggers
  {
    if events == [] then a else Run(cfg, Step(cfg, a, events[0]), events[1..])
  }

  // ---------------------------------------------------------------------------
  // Properties

  /** A fresh agent satisfies the invariant. */
  lemma FreshIsInvariant(cfg: Config, npcID: string, position: Vec3, rotation: Quat, text: string)
    ensures Invariant(cfg, Fresh(npcID, position, rotation, text))
  {
  }

  /**
    Start's ChangeState(currentState) is a no-op: a freshly awoken agent
    restored into any state has no coroutine running, no destination and no
    trigger set, so a restored Dialoguing never times out and a restored
    Patrolling has no waypoint until the next Update.
  */
  lemma StartRunsNoEntryAction(cfg: Config, npcID: string, position: Vec3, rotation: Quat, text: string,
                               entry: Option<StoreEntry>)
    ensures var b := StartSpec(cfg, Fresh(npcID, position, rotation, text), entry);
            && b == LoadSpec(Fresh(npcID, position, rotation, text), entry).agent
            && b.pending == map[] && b.tracked == None
            && b.destination == None && b.triggers == {} && !b.isStopped
  {
  }

  /** Save then load, also into another agent, restores id, position, rotation and state, and writes nothing. */
  lemma SaveLoadRoundTrip(saved: Agent, loader: Agent)
    ensures var r := LoadSpec(loader, Some(Saved(Snapshot(saved))));
            && !r.rewrite
            && r.agent.npcID == saved.npcID
            && r.agent.position == saved.position
            && r.agent.rotation == saved.rotation
            && r.agent.state == saved.state
  {
  }

  /** Whatever LoadState found, the file it leaves behind loads back cleanly into the state it set. */
  lemma LoadSelfHeals(a: Agent, entry: Option<StoreEntry>)
    ensures var r := LoadSpec(a, entry);
            var written := if r.rewrite then Some(Saved(Snapshot(r.agent))) else entry;
            var again := LoadSpec(r.agent, written);
            !again.rewrite && again.agent.state == r.agent.state
  {
  }

  /** A record whose state name is not a state, such as "Sleeping", loads as Idle and is rewritten. */
  lemma LoadUnknownStateName(a: Agent, rec: SaveRecord)
    requires rec.currentStateName == "Sleeping"
    ensures var r := LoadSpec(a, Some(Saved(rec)));
            r.agent.state == Idle && r.rewrite && r.agent.npcID == rec.id && r.agent.position == rec.Position()
            && r.agent.rotation == rec.Rotation()
  {
  }

  /** "Patrol", the example name offered to the language model, names no state. */
  lemma PatrolIsNoState()
    ensures ParseIgnoreCase("Patrol") == None
  {
    assert Upper("Patrol"[0]) != Upper("Moving"[0]);
  }

  /** Enum names match themselves in any letter case. */
  lemma ExactNameMatchesIgnoringCase(name: string)
    ensures ParseStateName(name).Some? ==> ParseIgnoreCase(name) == ParseStateName(name)
  {
  }

  /**
    Saying a second line while the first is up leaves the first timeout
    running; when it fires it ends the dialogue and stops the second timeout,
    so the newer line is cut short.
  */
  lemma OrphanedTimeoutCutsNewerDialogue(cfg: Config, a: Agent, first: string, second: string, nav: NavReading)
    requires Invariant(cfg, a) && a.state != Dialoguing
    ensures var b1 := SayDialogueSpec(cfg, a, first);
            var b2 := SayDialogueSpec(cfg, b1, second);
            && a.nextHandle in b2.pending && a.nextHandle + 1 in b2.pending
            && b2.tracked == Some(a.nextHandle + 1)
            && var b3 := ResumeSpec(cfg, b2, a.nextHandle, nav);
               && b3.state == Idle && b3.text == "- " + second
               && a.nextHandle !in b3.pending && a.nextHandle + 1 !in b3.pending
  {
  }

  /** A timeout that fires while the agent is still talking leaves only StartIdle set. */
  lemma TimeoutLeavesOnlyStartIdle(cfg: Config, a: Agent, h: Handle, nav: NavReading)
    requires Wf(cfg, a) && h in a.pending && a.pending[h].EndDialogueAfterDelay? && a.state == Dialoguing
    requires StartIdle in Declared(cfg) && StopDialogue in Declared(cfg)
    ensures ResumeSpec(cfg, a, h, nav).triggers == {StartIdle}
  {
  }

  /** From Idle, a move followed by an arrival reading with nothing in between ends in Idle. */
  lemma MoveThenArrive(cfg: Config, a: Agent, p: Vec3, nav: NavReading)
    requires Invariant(cfg, a) && a.navEnabled && a.state == Idle && Arrived(nav)
    ensures var b := MoveToPositionSpec(cfg, a, p);
            && b.state == Moving && b.destination == Some(p) && a.nextHandle in b.pending
            && var c := ResumeSpec(cfg, b, a.nextHandle, nav);
               c.state == Idle && c.destination == Some(p) && c.pending == Untrack(a)
  {
  }

  /**
    Talking and then going back to Idle straight away stops the timeout the
    talking started: no coroutine is left but those that were already running.
  */
  lemma SayThenIdleStopsTimeout(cfg: Config, a: Agent, line: string)
    requires Invariant(cfg, a) && a.state != Dialoguing
    ensures var b := ChangeStateSpec(cfg, SayDialogueSpec(cfg, a, line), Idle);
            b.pending == Untrack(a) && b.tracked == None && b.state == Idle
  {
  }
}
