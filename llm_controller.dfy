/**
  LLM_NPC_Controller as a class: the status line and the input field it
  assigns, the requests it has sent and not yet heard back from, and the NPC
  it drives. The decision itself is LlmResponse.Process; this class applies it.
*/
module LlmController {
  import opened Wrappers
  import opened Json
  import opened LlmResponse
  import SimpleNpc
  import NpcAgent

  /** What a SendToLLM coroutine receives back from the provider. */
  datatype ProviderResult = Success(text: string) | Failure(error: string)

  /** The NPC's fields after the dispatched call, as the NPC's own operations define them. */
  function Perform(cfg: SimpleNpc.Config, a: SimpleNpc.Agent, call: NpcCall): (b: SimpleNpc.Agent)
    requires SimpleNpc.Invariant(cfg, a)
    ensures SimpleNpc.Invariant(cfg, b)
    ensures b.state == SimpleNpc.Moving || b.state == SimpleNpc.Dialoguing
    ensures call.SetBehavior? || call.SayDialogue? ==> b.state == SimpleNpc.Dialoguing
  {
    match call
    case MoveToPosition(p) => SimpleNpc.MoveToPositionSpec(cfg, a, p)
    case MoveToObject(p) => SimpleNpc.MoveToObjectSpec(cfg, a, Some(p))
    case SetBehavior(b) => SimpleNpc.SetBehaviorSpec(cfg, a, b)
    case SayDialogue(t) => SimpleNpc.SayDialogueSpec(cfg, a, t)
  }

  /** The NPC's fields after a response: unchanged when nothing was called. */
  function After(cfg: SimpleNpc.Config, a: SimpleNpc.Agent, call: Option<NpcCall>): SimpleNpc.Agent
    requires SimpleNpc.Invariant(cfg, a)
  {
    match call
    case Some(c) => Perform(cfg, a, c)
    case None => a
  }

  class Controller {
    /** `responseText.text`. */
    var responseText: string
    /** `commandInputField.text`. */
    var inputText: string
    /** The prompts of the SendToLLM coroutines still waiting for the provider. */
    var requests: seq<string>

    const targetNPC: NpcAgent.NPC?
    const parse: string -> Option<Json>
    const world: map<string, SimpleNpc.Vec3>
    const numberText: real -> string
    const floatText: real -> string

    /** What ProcessLLMResponse depends on besides the response. */
    function Context(): Env
      reads this
    {
      Env(parse, world, targetNPC != null, numberText, floatText)
    }

    ghost predicate Valid()
      reads this, targetNPC
    {
      targetNPC != null ==> targetNPC.Valid()
    }

    /**
      Start as written: the NPC is never bound, since the only assignment
      to it is commented out, and the status reads "ready".
    */
    constructor (parse: string -> Option<Json>, world: map<string, SimpleNpc.Vec3>,
                 numberText: real -> string, floatText: real -> string)
      ensures Valid() && targetNPC == null
      ensures responseText == Ready && inputText == "" && requests == []
      ensures Context() == Env(parse, world, false, numberText, floatText)
    {
      this.parse := parse;
      this.world := world;
      this.numberText := numberText;
      this.floatText := floatText;
      targetNPC := null;
      responseText := Ready;
      inputText := "";
      requests := [];
    }

    /** Start with the NPC bound, as the commented-out lines intend. */
    constructor Bound(npc: NpcAgent.NPC, parse: string -> Option<Json>, world: map<string, SimpleNpc.Vec3>,
                      numberText: real -> string, floatText: real -> string)
      requires npc.Valid()
      ensures Valid() && targetNPC == npc
      ensures responseText == Ready && inputText == "" && requests == []
      ensures Context() == Env(parse, world, true, numberText, floatText)
    {
      this.parse := parse;
      this.world := world;
      this.numberText := numberText;
      this.floatText := floatText;
      targetNPC := npc;
      responseText := Ready;
      inputText := "";
      requests := [];
    }

    /** The player types into the input field. */
    method Type(text: string)
      modifies this`inputText
      ensures inputText == text
    {
      inputText := text;
    }

    /**
      The send button: blank input only asks for a command; otherwise a request
      carrying the prompt is started and the input field is cleared.
    */
    method OnSendCommand()
      modifies this`responseText, this`inputText, this`requests
      ensures IsBlank(old(inputText)) ==>
                responseText == EnterCommand && inputText == old(inputText) && requests == old(requests)
      ensures !IsBlank(old(inputText)) ==>
                responseText == Sending && inputText == "" && requests == old(requests) + [Prompt(old(inputText))]
    {
      var commandText := inputText;
      if IsBlank(commandText) {
        responseText := EnterCommand;
        return;
      }
      responseText := Sending;
      requests := requests + [Prompt(commandText)];
      inputText := "";
    }

    /**
      The provider answers request `i`: a failure is reported as it is, a
      success is handed to ProcessLLMResponse.
    */
    method OnProviderResult(i: nat, result: ProviderResult)
      requires i < |requests| && Valid()
      modifies this`responseText, this`requests, targetNPC
      ensures Valid()
      ensures requests == old(requests[..i] + requests[i + 1..])
      ensures result.Failure? ==> responseText == ProviderError(result.error)
      ensures result.Failure? && targetNPC != null ==> targetNPC.Model() == old(targetNPC.Model())
      ensures result.Success? ==> responseText == Process(result.text, Context()).status
      ensures result.Success? && targetNPC != null ==>
                targetNPC.Model() == After(targetNPC.cfg, old(targetNPC.Model()), Process(result.text, Context()).call)
    {
      requests := requests[..i] + requests[i + 1..];
      match result
      case Failure(error) =>
        responseText := ProviderError(error);
      case Success(text) =>
        ProcessLLMResponse(text);
    }

    /** One status line, and the NPC call the decision names, made before the status is written. */
    method ProcessLLMResponse(response: string)
      requires Valid()
      modifies this`responseText, targetNPC
      ensures Valid()
      ensures responseText == Process(response, Context()).status
      ensures targetNPC != null ==>
                targetNPC.Model() == After(targetNPC.cfg, old(targetNPC.Model()), Process(response, Context()).call)
    {
      var outcome := Process(response, Context());
      if outcome.call.Some? {
        CallTarget(outcome.call.value);
      }
      responseText := outcome.status;
    }

    /** The call on the ILLMControllableNPC interface. */
    method CallTarget(call: NpcCall)
      requires targetNPC != null && targetNPC.Valid()
      modifies targetNPC
      ensures targetNPC.Valid()
      ensures targetNPC.Model() == Perform(targetNPC.cfg, old(targetNPC.Model()), call)
    {
      match call
      case MoveToPosition(p) =>
        targetNPC.MoveToPosition(p);
      case MoveToObject(p) =>
        targetNPC.MoveToObject(Some(p));
      case SetBehavior(b) =>
        targetNPC.SetBehavior(b);
      case SayDialogue(t) =>
        targetNPC.SayDialogue(t);
    }
  }

  /**
    The setBehavior status announces the mode change whatever the NPC makes of
    the name: "Patrol" is no state, so the NPC apologises, yet the status reads
    "NPC переходит в режим: Patrol.".
  */
  lemma SetBehaviorStatusIsUnconditional(response: string, root: Json, text: string, doc: Json, env: Env,
                                         cfg: SimpleNpc.Config, a: SimpleNpc.Agent)
    requires env.bound && SimpleNpc.Invariant(cfg, a)
    requires env.parse(response) == Some(root) && Carries(root, text)
    requires env.parse(text) == Some(doc) && Encodes(doc, SetBehaviorCmd("Patrol"))
    ensures Process(response, env).status == SwitchingBehavior("Patrol")
    ensures
      var b := After(cfg, a, Process(response, env).call);
      b.state == SimpleNpc.Dialoguing && b.text == "- " + SimpleNpc.Apology("Patrol")
  {
    DispatchRoundTrip(response, root, text, doc, SetBehaviorCmd("Patrol"), env);
    SimpleNpc.PatrolIsNoState();
  }

  /** An object the scene does not have is only reported: the NPC is not asked to do or say anything. */
  lemma ObjectNotFoundLeavesNpcAlone(response: string, root: Json, text: string, doc: Json, env: Env, name: string,
                                     cfg: SimpleNpc.Config, a: SimpleNpc.Agent)
    requires name !in env.world && SimpleNpc.Invariant(cfg, a)
    requires env.parse(response) == Some(root) && Carries(root, text)
    requires env.parse(text) == Some(doc) && Encodes(doc, MoveToObjectCmd(name))
    ensures Process(response, env).status == ObjectNotFound(name)
    ensures After(cfg, a, Process(response, env).call) == a
  {
    DispatchRoundTrip(response, root, text, doc, MoveToObjectCmd(name), env);
  }

  /** As written (no NPC bound) a well-formed say command ends in the generic parse error. */
  lemma AsWrittenSayFails(response: string, root: Json, text: string, doc: Json, env: Env, line: string)
    requires !env.bound
    requires env.parse(response) == Some(root) && Carries(root, text)
    requires env.parse(text) == Some(doc) && Encodes(doc, SayCmd(line))
    ensures Process(response, env) == Outcome(ParseFailure, None)
  {
    DispatchRoundTrip(response, root, text, doc, SayCmd(line), env);
  }

  /** With the NPC bound, the same command makes the NPC speak the line and reports it. */
  lemma BoundSayReachesNpc(response: string, root: Json, text: string, doc: Json, env: Env, line: string,
                           cfg: SimpleNpc.Config, a: SimpleNpc.Agent)
    requires env.bound && SimpleNpc.Invariant(cfg, a)
    requires env.parse(response) == Some(root) && Carries(root, text)
    requires env.parse(text) == Some(doc) && Encodes(doc, SayCmd(line))
    ensures Process(response, env).status == Saying(line)
    ensures After(cfg, a, Process(response, env).call) == SimpleNpc.SayDialogueSpec(cfg, a, line)
  {
    DispatchRoundTrip(response, root, text, doc, SayCmd(line), env);
  }
}
