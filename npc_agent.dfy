/**
  SimpleLLMControllableNPC and SimpleNPCSaveData as classes whose methods update
  their fields in place. Every command method of NPC is proved to leave its
  fields as the matching function of SimpleNpc describes; the public commands
  are also proved to keep SimpleNpc.Invariant.
*/
module NpcAgent {
  import opened Wrappers
  import opened SimpleNpc

  const SaveFolderName: string := "GameSaves"

  /** The save-file path Awake derives from the id the NPC starts with. */
  function SaveFilePath(npcID: string): string {
    SaveFolderName + "/" + npcID + "_SimpleNPC.json"
  }

  /** The save folder: file path to file content. */
  class Store {
    var files: map<string, StoreEntry>

    constructor (files: map<string, StoreEntry>)
      ensures this.files == files
    {
      this.files := files;
    }

    /** File.Exists, then File.ReadAllText and the text-to-record step. */
    function Read(path: string): Option<StoreEntry>
      reads this
    {
      if path in files then Some(files[path]) else None
    }
  }

  /** SimpleNPCSaveData: the fields of a save file, flattened to floats. */
  class SaveData {
    var id: string
    var posX: real
    var posY: real
    var posZ: real
    var rotX: real
    var rotY: real
    var rotZ: real
    var rotW: real
    var currentStateName: string

    /** The record these fields are written as (JsonMapper.ToJson). */
    function Record(): SaveRecord
      reads this
    {
      SaveRecord(id, posX, posY, posZ, rotX, rotY, rotZ, rotW, currentStateName)
    }

    /**
      `new SimpleNPCSaveData()`: every field at its default, with "" standing for
      the null that `id` and `currentStateName` start as.
    */
    constructor ()
      ensures Record() == SaveRecord("", 0.0, 0.0, 0.0, 0.0, 0.0, 0.0, 0.0, "")
    {
      id, currentStateName := "", "";
      posX, posY, posZ := 0.0, 0.0, 0.0;
      rotX, rotY, rotZ, rotW := 0.0, 0.0, 0.0, 0.0;
    }

    /** JsonMapper.ToObject: the object a save file reads back as. */
    constructor FromRecord(r: SaveRecord)
      ensures Record() == r
    {
      id, currentStateName := r.id, r.currentStateName;
      posX, posY, posZ := r.posX, r.posY, r.posZ;
      rotX, rotY, rotZ, rotW := r.rotX, r.rotY, r.rotZ, r.rotW;
    }

    function GetPosition(): Vec3
      reads this
    {
      Record().Position()
    }

    function GetRotation(): Quat
      reads this
    {
      Record().Rotation()
    }

    /** Store the three components; GetPosition gives them back unchanged. */
    method SetPosition(p: Vec3)
      modifies this
      ensures GetPosition() == p
      ensures Record() == old(Record()).(posX := p.x, posY := p.y, posZ := p.z)
    {
      posX := p.x;
      posY := p.y;
      posZ := p.z;
    }

    /** Store the four components as they are; GetRotation gives them back unchanged. */
    method SetRotation(q: Quat)
      modifies this
      ensures GetRotation() == q
      ensures Record() == old(Record()).(rotX := q.x, rotY := q.y, rotZ := q.z, rotW := q.w)
    {
      rotX := q.x;
      rotY := q.y;
      rotZ := q.z;
      rotW := q.w;
    }
  }

  /** SimpleLLMControllableNPC. */
  class NPC {
    const cfg: Config
    const disk: Store
    const saveFilePath: string

    var state: NPCState
    var cursor: nat
    var navEnabled: bool
    var isStopped: bool
    var destination: Option<Vec3>
    var triggers: set<string>
    var text: string
    var pending: map<Handle, Routine>
    var tracked: Option<Handle>
    var nextHandle: Handle
    var npcID: string
    var position: Vec3
    var rotation: Quat

    /** The fields as one value. */
    function Model(): Agent
      reads this
    {
      Agent(state, cursor, navEnabled, isStopped, destination, triggers, text,
            pending, tracked, nextHandle, npcID, position, rotation)
    }

    ghost predicate Valid()
      reads this
    {
      Invariant(cfg, Model())
    }

    /** Awake, after the field initialisers. */
    constructor (cfg: Config, disk: Store, npcID: string, position: Vec3, rotation: Quat, text: string)
      ensures Valid() && Model() == Fresh(npcID, position, rotation, text)
      ensures this.cfg == cfg && this.disk == disk && saveFilePath == SaveFilePath(npcID)
    {
      this.cfg := cfg;
      this.disk := disk;
      this.saveFilePath := SaveFilePath(npcID);
      state := Idle;
      cursor := 0;
      navEnabled := true;
      isStopped := false;
      destination := None;
      triggers := {};
      this.text := text;
      pending := map[];
      tracked := None;
      nextHandle := 0;
      this.npcID := npcID;
      this.position := position;
      this.rotation := rotation;
    }

    /** The foreach loop of ChangeState: reset every Trigger-typed parameter. */
    method ResetTriggers()
      modifies this`triggers
      ensures triggers == old(triggers) - Declared(cfg)
    {
      var ps := cfg.animatorParams;
      var i := 0;
      while i < |ps|
        invariant 0 <= i <= |ps|
        invariant triggers == old(triggers) - TriggerNames(ps[..i])
      {
        if ps[i].kind == TriggerParam {
          triggers := triggers - {ps[i].name};
        }
        assert ps[..i + 1][..i] == ps[..i];
        i := i + 1;
      }
      assert ps[..i] == ps;
    }

    method SetTrigger(name: string)
      modifies this`triggers
      ensures Model() == SimpleNpc.SetTrigger(cfg, old(Model()), name)
    {
      if name in Declared(cfg) {
        triggers := triggers + {name};
      }
    }

    method StartCoroutine(r: Routine) returns (h: Handle)
      modifies this`pending, this`nextHandle
      ensures h == old(nextHandle) && nextHandle == h + 1
      ensures pending == old(pending)[h := r]
    {
      h := nextHandle;
      pending := pending[h := r];
      nextHandle := nextHandle + 1;
    }

    method ChangeState(newState: NPCState)
      requires Wf(cfg, Model())
      modifies this
      decreases if newState == Patrolling then 2 else 0
      ensures Model() == ChangeStateSpec(cfg, old(Model()), newState)
    {
      if state == newState {
        return;
      }
      state := newState;
      if tracked.Some? {
        pending := pending - {tracked.value};
        tracked := None;
      }
      ResetTriggers();
      match state
      case Idle =>
        isStopped := true;
        SetTrigger(StartIdle);
      case Moving =>
        isStopped := false;
      case Patrolling =>
        isStopped := false;
        SetTrigger(StartPatrol);
        GoToNextPatrolPoint();
      case Dialoguing =>
        isStopped := true;
        SetTrigger(StartDialogue);
    }

    method GoToNextPatrolPoint()
      requires Wf(cfg, Model())
      modifies this
      decreases 1
      ensures Model() == GoToNextSpec(cfg, old(Model()))
    {
      if |cfg.patrolPoints| == 0 {
        ChangeState(Idle);
        return;
      }
      destination := Some(cfg.patrolPoints[cursor]);
      cursor := (cursor + 1) % |cfg.patrolPoints|;
    }

    method MoveToPosition(p: Vec3)
      requires Valid()
      modifies this
      ensures Valid() && Model() == MoveToPositionSpec(cfg, old(Model()), p)
    {
      if navEnabled {
        ChangeState(Moving);
        destination := Some(p);
        var h := StartCoroutine(WaitForDestination(p));
        tracked := Some(h);
      } else {
        SayDialogue(NavDisabledLine);
      }
    }

    /** `target` is the object's position, or None for a null object. */
    method MoveToObject(target: Option<Vec3>)
      requires Valid()
      modifies this
      ensures Valid() && Model() == MoveToObjectSpec(cfg, old(Model()), target)
    {
      if navEnabled {
        if target.Some? {
          ChangeState(Moving);
          destination := Some(target.value);
          var h := StartCoroutine(WaitForDestination(target.value));
          tracked := Some(h);
        } else {
          SayDialogue(TargetMissingLine);
        }
      } else {
        SayDialogue(NavDisabledLine);
      }
    }

    method SetBehavior(behaviorType: string)
      requires Valid()
      modifies this
      ensures Valid() && Model() == SetBehaviorSpec(cfg, old(Model()), behaviorType)
    {
      match ParseIgnoreCase(behaviorType)
      case Some(s) =>
        ChangeState(s);
        SayDialogue(Confirmation(behaviorType));
      case None =>
        SayDialogue(Apology(behaviorType));
    }

    method SayDialogue(line: string)
      requires Valid()
      modifies this
      ensures Valid() && Model() == SayDialogueSpec(cfg, old(Model()), line)
    {
      ChangeState(Dialoguing);
      text := "- " + line;
      var h := StartCoroutine(EndDialogueAfterDelay(DialogueDelay));
      tracked := Some(h);
    }

    /** One frame's Update. */
    method Update(nav: NavReading)
      requires Valid()
      modifies this
      ensures Valid() && Model() == UpdateSpec(cfg, old(Model()), nav)
    {
      if state == Patrolling {
        if |cfg.patrolPoints| == 0 {
          ChangeState(Idle);
          return;
        }
        if !nav.pathPending && nav.remainingDistance < cfg.waypointThreshold {
          GoToNextPatrolPoint();
        }
      }
    }

    /** The scheduler resumes the coroutine `h` (WaitForDestination or EndDialogueAfterDelay). */
    method Resume(h: Handle, nav: NavReading)
      requires Valid() && h in pending
      modifies this
      ensures Valid() && Model() == ResumeSpec(cfg, old(Model()), h, nav)
    {
      match pending[h]
      case WaitForDestination(_) =>
        if !nav.pathPending && nav.remainingDistance <= nav.stoppingDistance + ArrivalTolerance {
          pending := pending - {h};
          if state == Moving {
            ChangeState(Idle);
          }
        }
      case EndDialogueAfterDelay(_) =>
        pending := pending - {h};
        if state == Dialoguing {
          SetTrigger(StopDialogue);
          ChangeState(Idle);
        }
    }

    method Start()
      requires Valid()
      modifies this, disk
      ensures Valid() && Model() == StartSpec(cfg, old(Model()), old(disk.Read(saveFilePath)))
      ensures var r := LoadSpec(old(Model()), old(disk.Read(saveFilePath)));
              disk.files == if r.rewrite then old(disk.files)[saveFilePath := Saved(Snapshot(r.agent))]
                            else old(disk.files)
    {
      LoadState();
      ChangeState(state);
    }

    method OnApplicationQuit()
      modifies disk
      ensures disk.files == old(disk.files)[saveFilePath := Saved(Snapshot(Model()))]
    {
      SaveState();
    }

    /** Write the id, position, rotation and state name to this NPC's save file. */
    method SaveState()
      modifies disk
      ensures disk.files == old(disk.files)[saveFilePath := Saved(Snapshot(Model()))]
    {
      var data := new SaveData();
      data.id := npcID;
      data.SetPosition(position);
      data.SetRotation(rotation);
      data.currentStateName := StateName(state);
      disk.files := disk.files[saveFilePath := Saved(data.Record())];
    }

    method LoadState()
      requires Valid()
      modifies this, disk
      ensures Valid()
      ensures var r := LoadSpec(old(Model()), old(disk.Read(saveFilePath)));
              && Model() == r.agent
              && disk.files == if r.rewrite then old(disk.files)[saveFilePath := Saved(Snapshot(r.agent))]
                               else old(disk.files)
    {
      var entry := disk.Read(saveFilePath);
      if entry.None? {
        SaveState();
      } else if entry.value.Corrupt? {
        state := Idle;
        SaveState();
      } else {
        var loaded := new SaveData.FromRecord(entry.value.record);
        npcID := loaded.id;
        navEnabled := false;
        position := loaded.GetPosition();
        rotation := loaded.GetRotation();
        navEnabled := true;
        var parsed := ParseStateName(loaded.currentStateName);
        if parsed.Some? {
          state := parsed.value;
        } else {
          state := Idle;
          SaveState();
        }
      }
    }
  }

  /**
    Save one NPC and start a new one with the same id on the same save folder:
    the new one takes over the id, position, rotation and state, with no
    coroutine running and no trigger set.
  */
  method SaveAndRestore(first: NPC, text: string) returns (second: NPC)
    requires first.Valid() && first.saveFilePath == SaveFilePath(first.npcID)
    modifies first.disk
    ensures fresh(second) && second.Valid() && second.disk == first.disk
    ensures && second.npcID == first.npcID && second.position == first.position
            && second.rotation == first.rotation && second.state == first.state
    ensures second.pending == map[] && second.tracked == None && second.triggers == {}
  {
    first.SaveState();
    second := new NPC(first.cfg, first.disk, first.npcID, Vec3(0.0, 0.0, 0.0), Quat(0.0, 0.0, 0.0, 1.0), text);
    SaveLoadRoundTrip(first.Model(), second.Model());
    second.Start();
  }
}
