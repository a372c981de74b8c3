/**
  The decision logic of LLM_NPC_Controller: the prompt sent to the model,
  the blank-input test, and ProcessLLMResponse as a function from the response
  text to exactly one status line and at most one call on the NPC interface.
*/
module LlmResponse {
  import opened Wrappers
  import opened Json
  import SimpleNpc

  // ---------------------------------------------------------------- prompt

  const PromptTemplate: string :=
    "You are an AI assistant controlling a game NPC. The user will give you a command for the NPC. "
    + "Your task is to convert this command into a JSON object with a 'command' field and relevant 'parameters'. "
    + "Possible commands: 'moveToObject' (parameters: objectName:string), 'moveToPosition' (parameters: x:float, y:float, z:float), "
    + "'setBehavior' (parameters: behaviorType:string - e.g., 'Patrol', 'Idle', 'ChasePlayer'), "
    + "'say' (parameters: text:string). "
    + "If the command is unclear, use 'say' and ask for clarification. "
    + "Strictly respond ONLY with the JSON object. Do not include any other text.\n"

  const UserCommandLabel: string := "User command: \""

  /** The prompt: the fixed template, then the user's text verbatim between quotes. */
  function Prompt(userPrompt: string): (r: string)
    ensures |r| == |PromptTemplate| + |UserCommandLabel| + |userPrompt| + 1
    ensures r[..|PromptTemplate| + |UserCommandLabel|] == PromptTemplate + UserCommandLabel
    ensures r[|PromptTemplate| + |UserCommandLabel|..|r| - 1] == userPrompt
    ensures r[|r| - 1] == '"'
  {
    PromptTemplate + UserCommandLabel + userPrompt + "\""
  }

  /** Different user texts give different prompts: the user's text can be read back off the prompt. */
  lemma PromptInjective(u: string, v: string)
    ensures Prompt(u) == Prompt(v) <==> u == v
  {
  }

  // ---------------------------------------------------------------- blank input

  /** `char.IsWhiteSpace`: the Unicode space, line and paragraph separators and the controls U+0009..U+000D, U+0085. */
  predicate IsWhiteSpace(c: char) {
    var n := c as int;
    || (0x09 <= n <= 0x0D) || n == 0x20 || n == 0x85 || n == 0xA0 || n == 0x1680
    || (0x2000 <= n <= 0x200A) || n == 0x2028 || n == 0x2029 || n == 0x202F
    || n == 0x205F || n == 0x3000
  }

  /** `string.IsNullOrWhiteSpace` on a non-null string. */
  predicate IsBlank(s: string) {
    forall i :: 0 <= i < |s| ==> IsWhiteSpace(s[i])
  }

  // ---------------------------------------------------------------- status lines

  const Ready: string := "Готов к командам..."
  const EnterCommand: string := "Введите команду!"
  const Sending: string := "Отправка команды LLM..."
  const BadEnvelope: string := "Ошибка: Некорректный ответ от LLM."
  const ParseFailure: string := "Ошибка парсинга ответа LLM."
  const NeedObjectName: string := "Ошибка: Для moveToObject требуется 'objectName'."
  const NeedXYZ: string := "Ошибка: Для moveToPosition требуются 'x', 'y', 'z'."
  const NeedBehaviorType: string := "Ошибка: Для setBehavior требуется 'behaviorType'."
  const NeedText: string := "Ошибка: Для say требуется 'text'."

  function ProviderError(error: string): string {
    "Ошибка LLM: " + error
  }

  function UnknownCommand(command: string): string {
    "Неизвестная команда LLM: " + command + "."
  }

  function ObjectNotFound(objectName: string): string {
    "Не могу найти объект: " + objectName + "."
  }

  function MovingToObject(objectName: string): string {
    "NPC движется к " + objectName + "."
  }

  function MovingToPosition(x: string, y: string, z: string): string {
    "NPC движется к позиции (" + x + ", " + y + ", " + z + ")."
  }

  function SwitchingBehavior(behaviorType: string): string {
    "NPC переходит в режим: " + behaviorType + "."
  }

  function Saying(text: string): string {
    "NPC говорит: \"" + text + "\""
  }

  // ---------------------------------------------------------------- decision

  /** A call on ILLMControllableNPC. A found object is passed as the position of its transform. */
  datatype NpcCall =
    | MoveToPosition(position: SimpleNpc.Vec3)
    | MoveToObject(target: SimpleNpc.Vec3)
    | SetBehavior(behaviorType: string)
    | SayDialogue(text: string)

  /** What ProcessLLMResponse leaves behind: the status line and the NPC call it made, if any. */
  datatype Outcome = Outcome(status: string, call: Option<NpcCall>)

  /**
    What the decision depends on besides the response text: the text-to-tree
    step (None when the text does not parse), the scene's named objects, whether
    a target NPC is bound, and how numbers print as JSON values and as floats.
  */
  datatype Env = Env(
    parse: string -> Option<Json>,
    world: map<string, SimpleNpc.Vec3>,
    bound: bool,
    numberText: real -> string,
    floatText: real -> string)

  function Parse(env: Env, text: string): Try<Json> {
    match env.parse(text)
    case Some(j) => Ok(j)
    case None => Throws
  }

  /** `parameters != null && parameters.ContainsKey(key)`. */
  function HasKey(parameters: Json, key: string): Try<bool> {
    if parameters.JNull? then Ok(false) else ContainsKey(parameters, key)
  }

  /** Calling the target NPC: throws when no target is bound. */
  function Invoke(env: Env, call: NpcCall, status: string): Try<Outcome> {
    if env.bound then Ok(Outcome(status, Some(call))) else Throws
  }

  /**
    The provider envelope `candidates[0].content.parts[0].text`, as text. None when
    the structure check fails; Throws when an access on the way throws.
  */
  function Payload(root: Json, env: Env): Try<Option<string>> {
    if root.JNull? then Ok(None)
    else
      var hasCandidates :- ContainsKey(root, "candidates");
      if !hasCandidates then Ok(None)
      else
        var candidates :- Get(root, "candidates");
        var n :- Count(candidates);
        if n == 0 then Ok(None)
        else
          var first :- At(candidates, 0);
          var hasContent :- ContainsKey(first, "content");
          if !hasContent then Ok(None)
          else
            var content :- Get(first, "content");
            var hasParts :- ContainsKey(content, "parts");
            if !hasParts then Ok(None)
            else
              var parts :- Get(content, "parts");
              var m :- Count(parts);
              if m == 0 then Ok(None)
              else
                var part :- At(parts, 0);
                var textNode :- Get(part, "text");
                var text :- ToText(textNode, env.numberText);
                Ok(Some(text))
  }

  /** The switch on the command tag, given the `parameters` node (JNull when absent). */
  function Dispatch(command: string, parameters: Json, env: Env): (r: Try<Outcome>)
    ensures r.Ok? && r.value.call.Some? ==> env.bound
  {
    if command == "moveToObject" then
      var has :- HasKey(parameters, "objectName");
      if !has then Ok(Outcome(NeedObjectName, None))
      else
        var node :- Get(parameters, "objectName");
        var objectName :- ToText(node, env.numberText);
        if objectName in env.world then
          Invoke(env, MoveToObject(env.world[objectName]), MovingToObject(objectName))
        else Ok(Outcome(ObjectNotFound(objectName), None))
    else if command == "moveToPosition" then
      var hasX :- HasKey(parameters, "x");
      var hasY :- if hasX then HasKey(parameters, "y") else Ok(false);
      var hasZ :- if hasY then HasKey(parameters, "z") else Ok(false);
      if !hasZ then Ok(Outcome(NeedXYZ, None))
      else
        var nx :- Get(parameters, "x");
        var x :- ToFloat(nx);
        var ny :- Get(parameters, "y");
        var y :- ToFloat(ny);
        var nz :- Get(parameters, "z");
        var z :- ToFloat(nz);
        Invoke(env, MoveToPosition(SimpleNpc.Vec3(x, y, z)),
               MovingToPosition(env.floatText(x), env.floatText(y), env.floatText(z)))
    else if command == "setBehavior" then
      var has :- HasKey(parameters, "behaviorType");
      if !has then Ok(Outcome(NeedBehaviorType, None))
      else
        var node :- Get(parameters, "behaviorType");
        var behaviorType :- ToText(node, env.numberText);
        Invoke(env, SetBehavior(behaviorType), SwitchingBehavior(behaviorType))
    else if command == "say" then
      var has :- HasKey(parameters, "text");
      if !has then Ok(Outcome(NeedText, None))
      else
        var node :- Get(parameters, "text");
        var text :- ToText(node, env.numberText);
        Invoke(env, SayDialogue(text), Saying(text))
    else Ok(Outcome(UnknownCommand(command), None))
  }

  /** The command document: its tag, its parameters, then the switch. */
  function RunCommand(commandData: Json, env: Env): (r: Try<Outcome>)
    ensures r.Ok? && r.value.call.Some? ==> env.bound
  {
    var commandNode :- Get(commandData, "command");
    var command :- ToText(commandNode, env.numberText);
    var hasParameters :- ContainsKey(commandData, "parameters");
    var parameters :- if hasParameters then Get(commandData, "parameters") else Ok(JNull);
    Dispatch(command, parameters, env)
  }

  /** The body of the try block. */
  function Decide(response: string, env: Env): (r: Try<Outcome>)
    ensures r.Ok? && r.value.call.Some? ==> env.bound
  {
    var root :- Parse(env, response);
    var payload :- Payload(root, env);
    if payload.None? then Ok(Outcome(BadEnvelope, None))
    else
      var commandData :- Parse(env, payload.value);
      RunCommand(commandData, env)
  }

  /** The try block and its catch-all: anything thrown becomes the generic parse error. */
  function Caught(t: Try<Outcome>): Outcome {
    match t
    case Ok(o) => o
    case Throws => Outcome(ParseFailure, None)
  }

  /** ProcessLLMResponse: one status line, and an NPC call only when a target is bound. */
  function Process(response: string, env: Env): (r: Outcome)
    ensures r.call.Some? ==> env.bound
  {
    Caught(Decide(response, env))
  }

  // ---------------------------------------------------------------- reference

  /** A well-formed command, as the prompt asks the model to write it. */
  datatype Command =
    | MoveToObjectCmd(objectName: string)
    | MoveToPositionCmd(x: real, y: real, z: real)
    | SetBehaviorCmd(behaviorType: string)
    | SayCmd(text: string)

  function CommandDoc(c: Command): Json {
    match c
    case MoveToObjectCmd(n) =>
      JObject([("command", JString("moveToObject")), ("parameters", JObject([("objectName", JString(n))]))])
    case MoveToPositionCmd(x, y, z) =>
      JObject([("command", JString("moveToPosition")),
               ("parameters", JObject([("x", JNumber(x)), ("y", JNumber(y)), ("z", JNumber(z))]))])
    case SetBehaviorCmd(b) =>
      JObject([("command", JString("setBehavior")), ("parameters", JObject([("behaviorType", JString(b))]))])
    case SayCmd(t) =>
      JObject([("command", JString("say")), ("parameters", JObject([("text", JString(t))]))])
  }

  /** The provider's reply carrying `text` as its first part. */
  function EnvelopeDoc(text: string): Json {
    JObject([("candidates", JArray([
      JObject([("content", JObject([("parts", JArray([JObject([("text", JString(text))])]))]))])]))])
  }

  /** The tag the prompt gives for each command. */
  function Tag(c: Command): string {
    match c
    case MoveToObjectCmd(_) => "moveToObject"
    case MoveToPositionCmd(_, _, _) => "moveToPosition"
    case SetBehaviorCmd(_) => "setBehavior"
    case SayCmd(_) => "say"
  }

  /** The members of the object under `key`, if that value is an object. */
  function ObjectAt(members: seq<(string, Json)>, key: string): Option<seq<(string, Json)>> {
    var v := Find(members, key);
    if v.Some? && v.value.JObject? then Some(v.value.members) else None
  }

  /** The members of element 0 of the value under `key`, if that element exists and is an object. */
  function FirstObjectAt(members: seq<(string, Json)>, key: string): Option<seq<(string, Json)>> {
    var v := Find(members, key);
    if v.None? then None
    else
      var e := At(v.value, 0);
      if e.Ok? && e.value.JObject? then Some(e.value.members) else None
  }

  /**
    A reply whose path `candidates[0].content.parts[0].text` holds the string
    `text`, whatever other members it and its parts carry and in whatever order.
  */
  predicate Carries(root: Json, text: string) {
    && root.JObject?
    && var first := FirstObjectAt(root.members, "candidates");
    && first.Some?
    && var content := ObjectAt(first.value, "content");
    && content.Some?
    && var part := FirstObjectAt(content.value, "parts");
    && part.Some?
    && Find(part.value, "text") == Some(JString(text))
  }

  /** The parameters a command carries, under their keys, among any others. */
  predicate ParametersOf(ps: seq<(string, Json)>, c: Command) {
    match c
    case MoveToObjectCmd(n) => Find(ps, "objectName") == Some(JString(n))
    case MoveToPositionCmd(x, y, z) =>
      Find(ps, "x") == Some(JNumber(x)) && Find(ps, "y") == Some(JNumber(y)) && Find(ps, "z") == Some(JNumber(z))
    case SetBehaviorCmd(b) => Find(ps, "behaviorType") == Some(JString(b))
    case SayCmd(t) => Find(ps, "text") == Some(JString(t))
  }

  /** A command document for `c`: its tag under `command` and its parameters object, among any other members. */
  predicate Encodes(doc: Json, c: Command) {
    && doc.JObject?
    && Find(doc.members, "command") == Some(JString(Tag(c)))
    && var ps := ObjectAt(doc.members, "parameters");
    && ps.Some?
    && ParametersOf(ps.value, c)
  }

  /**
    What the code does with each well-formed command, stated per command: call
    the matching NPC action and report it; a moveToObject whose object is not in
    the scene only reports that; with no NPC bound the call on it throws, which
    ends in the catch-all parse error.
  */
  function Expected(c: Command, env: Env): Outcome {
    match c
    case MoveToObjectCmd(n) =>
      if n !in env.world then Outcome(ObjectNotFound(n), None)
      else if !env.bound then Outcome(ParseFailure, None)
      else Outcome(MovingToObject(n), Some(MoveToObject(env.world[n])))
    case MoveToPositionCmd(x, y, z) =>
      if !env.bound then Outcome(ParseFailure, None)
      else Outcome(MovingToPosition(env.floatText(x), env.floatText(y), env.floatText(z)),
                   Some(MoveToPosition(SimpleNpc.Vec3(x, y, z))))
    case SetBehaviorCmd(b) =>
      if !env.bound then Outcome(ParseFailure, None)
      else Outcome(SwitchingBehavior(b), Some(SetBehavior(b)))
    case SayCmd(t) =>
      if !env.bound then Outcome(ParseFailure, None)
      else Outcome(Saying(t), Some(SayDialogue(t)))
  }

  // ---------------------------------------------------------------- properties

  /** A well-formed command in a well-formed reply gives Expected(c, env). */
  lemma DispatchRoundTrip(response: string, root: Json, text: string, doc: Json, c: Command, env: Env)
    requires env.parse(response) == Some(root) && Carries(root, text)
    requires env.parse(text) == Some(doc) && Encodes(doc, c)
    ensures Process(response, env) == Expected(c, env)
  {
    EnvelopePayload(root, text, env);
    CommandDocOutcome(doc, c, env);
  }

  /** Any reply carrying `text` along the envelope path yields that text. */
  lemma EnvelopePayload(root: Json, text: string, env: Env)
    requires Carries(root, text)
    ensures Payload(root, env) == Ok(Some(text))
  {
  }

  /** Any document encoding `c` dispatches to Expected(c, env). */
  lemma CommandDocOutcome(doc: Json, c: Command, env: Env)
    requires Encodes(doc, c)
    ensures Caught(RunCommand(doc, env)) == Expected(c, env)
  {
    var ps := ObjectAt(doc.members, "parameters").value;
    assert RunCommand(doc, env) == Dispatch(Tag(c), JObject(ps), env);
    match c
    case MoveToObjectCmd(_) =>
    case MoveToPositionCmd(x, y, z) =>
      MoveToPositionOutcome(ps, x, y, z, env);
    case SetBehaviorCmd(_) =>
    case SayCmd(_) =>
  }

  /** Numbers under `x`, `y` and `z`, among any other parameters, are passed on and printed in the status. */
  lemma MoveToPositionOutcome(ps: seq<(string, Json)>, x: real, y: real, z: real, env: Env)
    requires ParametersOf(ps, MoveToPositionCmd(x, y, z))
    ensures Caught(Dispatch("moveToPosition", JObject(ps), env)) == Expected(MoveToPositionCmd(x, y, z), env)
  {
    assert "moveToPosition" != "moveToObject" by {
      assert "moveToPosition"[6] != "moveToObject"[6];
    }
  }

  /** The minimal reply carries its text. */
  lemma EnvelopeDocCarries(text: string)
    ensures Carries(EnvelopeDoc(text), text)
  {
  }

  /** The minimal command document encodes its command. */
  lemma CommandDocEncodes(c: Command)
    ensures Encodes(CommandDoc(c), c)
  {
    var doc := CommandDoc(c);
    assert "command" != "parameters" by {
      assert "command"[0] != "parameters"[0];
    }
    FindGivesFirst(doc.members, "parameters", 1);
    match c
    case MoveToPositionCmd(x, y, z) =>
      assert "x" != "y" && "x" != "z" && "y" != "z" by {
        assert "x"[0] != "y"[0] && "x"[0] != "z"[0] && "y"[0] != "z"[0];
      }
      var ps := doc.members[1].1.members;
      FindGivesFirst(ps, "y", 1);
      FindGivesFirst(ps, "z", 2);
    case _ =>
  }

  /** A reply as the provider sends it, with the role, finish reason and usage beside the text, carries its text. */
  lemma ProviderReplyCarries(text: string)
    ensures
      var part := JObject([("text", JString(text))]);
      var content := JObject([("parts", JArray([part])), ("role", JString("model"))]);
      var candidate := JObject([("content", content), ("finishReason", JString("STOP")), ("index", JNumber(0.0))]);
      Carries(JObject([("candidates", JArray([candidate])), ("usageMetadata", JObject([]))]), text)
  {
    assert "content" != "finishReason" && "parts" != "role" by {
      assert "content"[0] != "finishReason"[0] && "parts"[0] != "role"[0];
    }
  }

  /** Member order and extra keys do not matter: `parameters` before `command`, with an unused key, still encodes say. */
  lemma ReorderedSayEncodes(t: string)
    ensures Encodes(JObject([("parameters", JObject([("lang", JString("ru")), ("text", JString(t))])),
                             ("command", JString("say"))]), SayCmd(t))
  {
    assert "parameters" != "command" && "lang" != "text" by {
      assert "parameters"[0] != "command"[0] && "lang"[0] != "text"[0];
    }
  }

  /** The minimal layouts are one instance of the round trip. */
  lemma DocRoundTrip(response: string, text: string, c: Command, env: Env)
    requires env.parse(response) == Some(EnvelopeDoc(text))
    requires env.parse(text) == Some(CommandDoc(c))
    ensures Process(response, env) == Expected(c, env)
  {
    EnvelopeDocCarries(text);
    CommandDocEncodes(c);
    DispatchRoundTrip(response, EnvelopeDoc(text), text, CommandDoc(c), c, env);
  }

  /** An object root with any of the five structural defects reports a bad envelope and calls nothing. */
  lemma BadEnvelopeReported(response: string, env: Env, members: seq<(string, Json)>,
                            first: seq<(string, Json)>, rest: seq<Json>, content: seq<(string, Json)>)
    requires env.parse(response) == Some(JObject(members))
    requires
      || Find(members, "candidates").None?
      || Find(members, "candidates") == Some(JArray([]))
      || (&& Find(members, "candidates") == Some(JArray([JObject(first)] + rest))
          && (|| Find(first, "content").None?
              || (&& Find(first, "content") == Some(JObject(content))
                  && (Find(content, "parts").None? || Find(content, "parts") == Some(JArray([]))))))
    ensures Process(response, env) == Outcome(BadEnvelope, None)
  {
  }

  /** A null root is a bad envelope too. */
  lemma NullRootReported(response: string, env: Env)
    requires env.parse(response) == Some(JNull)
    ensures Process(response, env) == Outcome(BadEnvelope, None)
  {
  }

  /**
    A first part with no `text`, an inner document with no `command` key, and
    an inner text that does not parse all reach the catch-all.
  */
  lemma GenericParseErrors(response: string, env: Env, part: seq<(string, Json)>, root: Json, text: string,
                           inner: seq<(string, Json)>)
    ensures env.parse(response).None? ==> Process(response, env) == Outcome(ParseFailure, None)
    ensures
      var root := JObject([("candidates", JArray([JObject([("content", JObject([("parts", JArray([JObject(part)]))]))])]))]);
      env.parse(response) == Some(root) && Find(part, "text").None?
      ==> Process(response, env) == Outcome(ParseFailure, None)
    ensures
      env.parse(response) == Some(root) && Carries(root, text) && env.parse(text).None?
      ==> Process(response, env) == Outcome(ParseFailure, None)
    ensures
      env.parse(response) == Some(root) && Carries(root, text) && env.parse(text) == Some(JObject(inner))
      && Find(inner, "command").None?
      ==> Process(response, env) == Outcome(ParseFailure, None)
  {
    if env.parse(response) == Some(root) && Carries(root, text) {
      EnvelopePayload(root, text, env);
    }
  }

  /** The tag is matched exactly: any other string tag is reported as unknown, and nothing is called. */
  lemma UnknownTagReported(response: string, root: Json, text: string, env: Env, inner: seq<(string, Json)>, tag: string)
    requires tag !in {"moveToObject", "moveToPosition", "setBehavior", "say"}
    requires env.parse(response) == Some(root) && Carries(root, text)
    requires env.parse(text) == Some(JObject(inner))
    requires Find(inner, "command") == Some(JString(tag))
    ensures Process(response, env) == Outcome(UnknownCommand(tag), None)
  {
    EnvelopePayload(root, text, env);
  }

  /** The keys each command needs in its `parameters` object. */
  function RequiredKeys(tag: string): seq<string> {
    if tag == "moveToObject" then ["objectName"]
    else if tag == "moveToPosition" then ["x", "y", "z"]
    else if tag == "setBehavior" then ["behaviorType"]
    else if tag == "say" then ["text"]
    else []
  }

  /** The error line each command reports when a required key is missing. */
  function MissingKeyStatus(tag: string): string {
    if tag == "moveToObject" then NeedObjectName
    else if tag == "moveToPosition" then NeedXYZ
    else if tag == "setBehavior" then NeedBehaviorType
    else NeedText
  }

  /**
    With no `parameters` (absent or null), or with a parameters object lacking
    one of the command's required keys, the command's own error line is reported
    and nothing is called.
  */
  lemma MissingParametersReported(response: string, root: Json, text: string, env: Env, inner: seq<(string, Json)>,
                                  tag: string, parameters: Option<seq<(string, Json)>>, missing: string)
    requires tag in {"moveToObject", "moveToPosition", "setBehavior", "say"}
    requires env.parse(response) == Some(root) && Carries(root, text)
    requires env.parse(text) == Some(JObject(inner))
    requires Find(inner, "command") == Some(JString(tag))
    requires parameters.None? ==> Find(inner, "parameters").None? || Find(inner, "parameters") == Some(JNull)
    requires parameters.Some? ==>
      && Find(inner, "parameters") == Some(JObject(parameters.value))
      && missing in RequiredKeys(tag) && Find(parameters.value, missing).None?
    ensures Process(response, env) == Outcome(MissingKeyStatus(tag), None)
  {
    EnvelopePayload(root, text, env);
  }

  /**
    With no target NPC bound nothing is ever called, and every response that
    would have called the NPC ends in the catch-all instead.
  */
  lemma UnboundTargetRejectsEveryCall(response: string, env: Env)
    requires !env.bound
    ensures Process(response, env).call.None?
    ensures Process(response, env.(bound := true)).call.Some? ==> Process(response, env) == Outcome(ParseFailure, None)
  {
    var root := Parse(env, response);
    if root.Ok? {
      var payload := Payload(root.value, env);
      assert payload == Payload(root.value, env.(bound := true));
      if payload.Ok? && payload.value.Some? {
        var commandData := Parse(env, payload.value.value);
        if commandData.Ok? {
          UnboundRunCommand(commandData.value, env);
        }
      }
    }
  }

  /** Binding a target changes a command's outcome only where the NPC is called. */
  predicate BindingOnlyAddsCalls(unbound: Try<Outcome>, bound: Try<Outcome>) {
    Caught(unbound) == if bound.Ok? && bound.value.call.Some? then Outcome(ParseFailure, None) else Caught(bound)
  }

  lemma UnboundRunCommand(commandData: Json, env: Env)
    requires !env.bound
    ensures BindingOnlyAddsCalls(RunCommand(commandData, env), RunCommand(commandData, env.(bound := true)))
  {
  }

  lemma UnboundDispatch(command: string, parameters: Json, env: Env)
    requires !env.bound
    ensures BindingOnlyAddsCalls(Dispatch(command, parameters, env), Dispatch(command, parameters, env.(bound := true)))
  {
  }
}
