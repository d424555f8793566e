/** The backend agent (metascript/agents/backend_agent.py): decides whether
    code may run, and with which resource plan, and routes the messages other
    agents send it. The audit records it writes are not part of this model. */
module BackendAgent {
  import opened Wrappers
  import opened Text
  import opened Json
  import opened AgentTools

  /** `DANGEROUS_PATTERNS`, looked for in the lower-cased code. */
  const DangerPatterns: seq<string> :=
    ["open(", "exec(", "eval(", "__import__", "subprocess", "socket", "requests", "os.system", "os.exec"]

  /** The network markers, looked for in the lower-cased code. */
  const NetworkPatterns: seq<string> := ["socket", "requests", "http", "urllib"]

  const UnsafeReason := "Unsafe operations detected (file/exec/network)."
  const NetworkReason := "Network operations detected but not permitted."

  /** `_contains_danger(code)`. */
  predicate ContainsDanger(code: string) {
    ContainsAny(Lower(code), DangerPatterns)
  }

  /** `_contains_network(code)`. */
  predicate ContainsNetwork(code: string) {
    ContainsAny(Lower(code), NetworkPatterns)
  }

  /** The outcome of a validation: `{approved, reason, plan}`. */
  datatype Verdict = Verdict(approved: bool, reason: string, plan: Option<Plan>)

  /** A permission flag: `permissions.get(key)` is truthy, where a falsy
      `permissions` stands for `{}`. */
  predicate Granted(perms: Json, key: string) {
    perms.JObject? && Get(perms, key).Some? && Truthy(Get(perms, key).value)
  }

  /** `(permissions or {}).get(key)`: anything truthy that is not a dictionary has no `get`. */
  function Permission(perms: Json, key: string): (r: Result<bool, Failure>)
    ensures r.Ok? <==> !Truthy(perms) || perms.JObject?
    ensures r.Ok? ==> r.value == Granted(perms, key)
    ensures r.Err? ==> r.error == NoAttribute(TypeName(perms), "get")
  {
    if !Truthy(perms) then Ok(false)
    else if perms.JObject? then Ok(Get(perms, key).Some? && Truthy(Get(perms, key).value))
    else Err(NoAttribute(TypeName(perms), "get"))
  }

  /** The network check and the approval that follows it. */
  function NetworkStep(code: string, perms: Json): Result<Verdict, Failure> {
    if ContainsNetwork(code) then
      match Permission(perms, "allow_network")
      case Err(f) => Err(f)
      case Ok(allowed) =>
        if allowed then Ok(Verdict(true, "OK", Some(ComputePlan(code))))
        else Ok(Verdict(false, NetworkReason, None))
    else Ok(Verdict(true, "OK", Some(ComputePlan(code))))
  }

  /** `validate_execution(code, permissions)`: the danger check first, the
      network check second; a permission is consulted only when its check fires. */
  function ValidateExecution(code: string, perms: Json): (r: Result<Verdict, Failure>)
    ensures r.Err? <==> Truthy(perms) && !perms.JObject? && (ContainsDanger(code) || ContainsNetwork(code))
    ensures r.Err? ==> r.error == NoAttribute(TypeName(perms), "get")
    ensures r.Ok? ==> (r.value.approved <==>
      (!ContainsDanger(code) || Granted(perms, "allow_unsafe"))
      && (!ContainsNetwork(code) || Granted(perms, "allow_network")))
    ensures r.Ok? && r.value.approved ==> r.value.reason == "OK" && r.value.plan == Some(ComputePlan(code))
    ensures r.Ok? && !r.value.approved ==> r.value.plan.None?
    ensures r.Ok? && ContainsDanger(code) && !Granted(perms, "allow_unsafe") ==> r.value.reason == UnsafeReason
    ensures r.Ok? && !r.value.approved && (!ContainsDanger(code) || Granted(perms, "allow_unsafe")) ==>
      r.value.reason == NetworkReason
  {
    if ContainsDanger(code) then
      match Permission(perms, "allow_unsafe")
      case Err(f) => Err(f)
      case Ok(allowed) =>
        if allowed then NetworkStep(code, perms)
        else Ok(Verdict(false, UnsafeReason, None))
    else NetworkStep(code, perms)
  }

  /** The approved plan respects the bounds of every plan. */
  lemma ApprovedPlanBounded(code: string, perms: Json)
    requires ValidateExecution(code, perms).Ok? && ValidateExecution(code, perms).value.approved
    ensures var p := ValidateExecution(code, perms).value.plan.value;
      200 <= p.cpuMs <= 20000 && 16 <= p.memoryMb <= 1024
  {
  }

  /** `socket` and `requests` are both dangerous and network markers: without
      `allow_unsafe` they are reported as unsafe, whatever `allow_network` says. */
  lemma DangerFirst(code: string, perms: Json, i: nat, marker: string)
    requires marker == "socket" || marker == "requests"
    requires i + |marker| <= |code| && Lower(code)[i..i + |marker|] == marker
    requires perms.JObject? && !Granted(perms, "allow_unsafe")
    ensures ContainsNetwork(code)
    ensures ValidateExecution(code, perms) == Ok(Verdict(false, UnsafeReason, None))
  {
    ContainsAt(Lower(code), marker, i);
    assert NetworkPatterns[if marker == "socket" then 0 else 1] == marker;
    assert DangerPatterns[if marker == "socket" then 5 else 6] == marker;
    ContainsAnySpec(Lower(code), NetworkPatterns);
    ContainsAnySpec(Lower(code), DangerPatterns);
  }

  /** `open(` in any letter case is refused without `allow_unsafe`, and allowed
      with it when no network marker is present. */
  lemma OpenNeedsPermission(code: string, i: nat)
    requires i + 5 <= |code| && Lower(code)[i..i + 5] == "open("
    ensures ValidateExecution(code, JNull) == Ok(Verdict(false, UnsafeReason, None))
    ensures !ContainsNetwork(code) ==>
      ValidateExecution(code, JObject([("allow_unsafe", JBool(true))]))
        == Ok(Verdict(true, "OK", Some(ComputePlan(code))))
  {
    ContainsAt(Lower(code), "open(", i);
    assert DangerPatterns[0] == "open(";
    ContainsAnySpec(Lower(code), DangerPatterns);
  }

  /** Code with neither kind of marker is approved under any permissions. */
  lemma CleanApproved(code: string, perms: Json)
    requires !ContainsDanger(code) && !ContainsNetwork(code)
    ensures ValidateExecution(code, perms) == Ok(Verdict(true, "OK", Some(ComputePlan(code))))
  {
  }

  function OptionPlanJson(p: Option<Plan>): Json {
    match p
    case Some(q) => PlanJson(q)
    case None => JNull
  }

  /** `{"approved": ..., "reason": ..., "plan": ...}`. */
  function VerdictJson(v: Verdict): Json {
    JObject([("approved", JBool(v.approved)), ("reason", JStr(v.reason)), ("plan", OptionPlanJson(v.plan))])
  }

  /** `validate_execution` called with whatever the message holds as code. A
      string is validated; a falsy value passes both checks as `""` but must
      still have a length (an empty list or dictionary does, `None`, `False`
      and `0` do not); anything else truthy has no `lower`. */
  function ValidateValue(code: Json, perms: Json): Result<Verdict, Failure> {
    match code
    case JStr(s) => ValidateExecution(s, perms)
    case JList(items) =>
      if items == [] then ValidateExecution("", perms) else Err(NoAttribute("list", "lower"))
    case JObject(fields) =>
      if fields == [] then ValidateExecution("", perms) else Err(NoAttribute("dict", "lower"))
    case _ => if Truthy(code) then Err(NoAttribute(TypeName(code), "lower")) else Err(NoLength(TypeName(code)))
  }

  /** `_compute_plan(code)` on whatever the message holds: a falsy value counts
      as `""`, and only a truthy value that is not a string fails. Every plan
      it returns lies within the clamps of `_compute_plan`. */
  function PlanValue(code: Json): (r: Result<Plan, Failure>)
    ensures r.Err? <==> Truthy(code) && !code.JStr?
    ensures r.Ok? ==> 200 <= r.value.cpuMs <= 20000 && 16 <= r.value.memoryMb <= 1024
    ensures code.JStr? ==> r == Ok(ComputePlan(code.s))
    ensures !Truthy(code) ==> r == Ok(ComputePlan(""))
    ensures Truthy(code) && !code.JStr? ==> r == Err(NoAttribute(TypeName(code), "splitlines"))
  {
    if !Truthy(code) then Ok(ComputePlan(""))
    else if code.JStr? then Ok(ComputePlan(code.s))
    else Err(NoAttribute(TypeName(code), "splitlines"))
  }

  function Answer(r: Result<Json, Failure>): Reply {
    match r
    case Ok(j) => Returned(j)
    case Err(f) => Raises(f)
  }

  /** `message.get("action") or message.get("type")`. */
  function Action(message: Json): Option<Json> {
    Or(Get(message, "action"), Get(message, "type"))
  }

  /** `message.get("payload") or {}`. */
  function Payload(message: Json): Json {
    match Get(message, "payload")
    case Some(p) => if Truthy(p) then p else JObject([])
    case None => JObject([])
  }

  /** `payload.get(key, default)` when the payload is a dictionary, `default` otherwise. */
  function FieldOr(payload: Json, key: string, default: Json): Json {
    if payload.JObject? then GetOr(payload, key, default) else default
  }

  /** The `plan` action: the plan of the `get_plan` tool when it answers `ok`,
      otherwise the backend's own computation. */
  function PlanAction(code: Json): Reply {
    match CallTool(JStr("get_plan"), JObject([("code", code)]))
    case Returned(res) =>
      if Get(res, "ok").Some? && Truthy(Get(res, "ok").value) then
        Returned(JObject([("plan", GetOr(res, "plan", JNull))]))
      else
        (match PlanValue(code)
         case Ok(p) => Returned(JObject([("plan", PlanJson(p))]))
         case Err(f) => Raises(f))
    case Raises(f) => Raises(f)
    case Outside(t) => Outside(t)
  }

  /** `handle_message(message)`: `validate`, `plan` and `call_tool` are routed;
      any other action is acknowledged with the message echoed back. */
  function HandleMessage(message: Json): (r: Reply)
    requires message.JObject?
    ensures Action(message) == Some(JStr("validate")) ==>
      r == (match ValidateValue(FieldOr(Payload(message), "code", JStr("")),
                                FieldOr(Payload(message), "permissions", JNull))
            case Ok(v) => Returned(VerdictJson(v))
            case Err(f) => Raises(f))
    ensures Action(message) !in {Some(JStr("validate")), Some(JStr("plan")), Some(JStr("call_tool"))} ==>
      r == Returned(JObject([("status", JStr("ok")), ("received", message)]))
  {
    var action := Action(message);
    var payload := Payload(message);
    if action == Some(JStr("validate")) then
      var code := FieldOr(payload, "code", JStr(""));
      match ValidateValue(code, FieldOr(payload, "permissions", JNull))
      case Ok(v) => Returned(VerdictJson(v))
      case Err(f) => Raises(f)
    else if action == Some(JStr("plan")) then
      PlanAction(FieldOr(payload, "code", JStr("")))
    else if action == Some(JStr("call_tool")) then
      match Params(payload)
      case Err(f) => Raises(f)
      case Ok(_) => CallTool(GetOr(payload, "tool", JNull), GetOr(payload, "params", JObject([])))
    else Returned(JObject([("status", JStr("ok")), ("received", message)]))
  }

  /** The action and the payload of a two-field message. */
  lemma Envelope(key: string, action: string, payload: Json)
    requires key == "action" || key == "type"
    requires action != [] && Truthy(payload)
    ensures var m := JObject([(key, JStr(action)), ("payload", payload)]);
      Action(m) == Some(JStr(action)) && Payload(m) == payload
  {
    var m := JObject([(key, JStr(action)), ("payload", payload)]);
    assert key[0] != 'p';
    SecondField(key, JStr(action), "payload", payload);
    if key == "action" {
      assert Get(m, "action") == Some(JStr(action));
    } else {
      assert "type"[0] != 'a' && "payload"[0] != 'a';
      assert [(key, JStr(action)), ("payload", payload)][1..] == [("payload", payload)];
      assert Get(m, "action") == None;
      assert Get(m, "type") == Some(JStr(action));
    }
  }

  /** A `validate` message carrying string code and permissions answers with
      the verdict of `validate_execution` on them. */
  lemma ValidateRouted(code: string, perms: Json)
    ensures var m := JObject([("action", JStr("validate")),
                              ("payload", JObject([("code", JStr(code)), ("permissions", perms)]))]);
      HandleMessage(m) == (match ValidateExecution(code, perms)
                           case Ok(v) => Returned(VerdictJson(v))
                           case Err(f) => Raises(f))
  {
    var payload := JObject([("code", JStr(code)), ("permissions", perms)]);
    Envelope("action", "validate", payload);
    assert FieldOr(payload, "code", JStr("")) == JStr(code);
    SecondField("code", JStr(code), "permissions", perms);
  }

  /** A `plan` message carrying string code answers with the bounded plan of
      that code, the same one `validate_execution` approves with. */
  lemma PlanRouted(code: string)
    ensures var m := JObject([("action", JStr("plan")), ("payload", JObject([("code", JStr(code))]))]);
      HandleMessage(m) == Returned(JObject([("plan", PlanJson(ComputePlan(code)))]))
  {
    var payload := JObject([("code", JStr(code))]);
    Envelope("action", "plan", payload);
    assert FieldOr(payload, "code", JStr("")) == JStr(code);
    PlanActionString(code);
  }

  lemma PlanActionString(code: string)
    ensures PlanAction(JStr(code)) == Returned(JObject([("plan", PlanJson(ComputePlan(code)))]))
  {
    GetPlanTool(code);
    var res := JObject([("ok", JBool(true)), ("plan", PlanJson(ComputePlan(code)))]);
    assert Get(res, "ok") == Some(JBool(true));
    assert "ok" != "plan";
    SecondField("ok", JBool(true), "plan", PlanJson(ComputePlan(code)));
  }

  /** A `call_tool` message reaches the tool dispatcher; the `get_plan` tool on
      string code answers `ok` with the plan. */
  lemma ToolRouted(code: string)
    ensures var m := JObject([("action", JStr("call_tool")),
                              ("payload", JObject([("tool", JStr("get_plan")),
                                                   ("params", JObject([("code", JStr(code))]))]))]);
      HandleMessage(m) == Returned(JObject([("ok", JBool(true)), ("plan", PlanJson(ComputePlan(code)))]))
  {
    var params := JObject([("code", JStr(code))]);
    var payload := JObject([("tool", JStr("get_plan")), ("params", params)]);
    Envelope("action", "call_tool", payload);
    assert GetOr(payload, "tool", JNull) == JStr("get_plan");
    assert "tool" != "params";
    SecondField("tool", JStr("get_plan"), "params", params);
    GetPlanTool(code);
  }

  /** An unregistered tool named in a `call_tool` message gets the unknown-tool answer. */
  lemma UnknownToolRouted(name: string, params: Json)
    requires !Registered(name)
    ensures var m := JObject([("type", JStr("call_tool")),
                              ("payload", JObject([("tool", JStr(name)), ("params", params)]))]);
      HandleMessage(m) == Returned(UnknownTool)
  {
    var payload := JObject([("tool", JStr(name)), ("params", params)]);
    Envelope("type", "call_tool", payload);
    assert GetOr(payload, "tool", JNull) == JStr(name);
  }
}
