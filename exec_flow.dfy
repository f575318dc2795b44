/** The demo view that queues a flow for execution: the form sent to
    `TRPADM.WebAddDataQueue`, its optional robot selector, and the flow
    parameters folded into `TempParamJson`. */
module ExecFlow {
  import opened Common

  /** One entry of `paramList`. An absent key or value is `None`. */
  datatype Param = Param(key: Option<string>, value: Option<string>)

  /** `item.key || ''` */
  function ParamName(p: Param): string {
    if p.key.Some? then p.key.value else ""
  }

  /** `item.value || ''` */
  function ParamValue(p: Param): string {
    if p.value.Some? then p.value.value else ""
  }

  /** The `data` object serialised into `TempParamJson`: the per-parameter
      entries, and the two name lists stored under `FlowParamsNames` and
      `R_FlowParam`. No per-parameter key can be one of those two names (it
      is longer than `R_FlowParam`, and differs from `FlowParamsNames` in its
      eleventh character), so they are kept apart. */
  datatype TempParams = TempParams(values: map<string, string>, flowParamsNames: seq<string>, rFlowParam: seq<string>)

  function ValueKey(name: string): string { "R_FlowParam_" + name }
  function EchoKey(name: string): string { "FlowParamsValue_" + name }

  /** The `data` entries after the given parameters, in loop order: a later
      parameter overwrites an earlier one of the same name. */
  function ParamValues(ps: seq<Param>): map<string, string>
  {
    if ps == [] then map[]
    else
      var p := ps[|ps| - 1];
      ParamValues(ps[..|ps| - 1])[ValueKey(ParamName(p)) := ParamValue(p)][EchoKey(ParamName(p)) := ParamValue(p)]
  }

  /** The `names` list: one name per parameter, in input order. */
  function ParamNames(ps: seq<Param>): (names: seq<string>)
    ensures |names| == |ps|
    ensures forall i :: 0 <= i < |ps| ==> names[i] == ParamName(ps[i])
  {
    seq(|ps|, i requires 0 <= i < |ps| => ParamName(ps[i]))
  }

  lemma KeysDistinct(a: string, b: string)
    ensures ValueKey(a) == ValueKey(b) ==> a == b
    ensures EchoKey(a) == EchoKey(b) ==> a == b
    ensures ValueKey(a) != EchoKey(b)
  {
    if ValueKey(a) == ValueKey(b) {
      assert a == ValueKey(a)[12..] == ValueKey(b)[12..] == b;
    }
    if EchoKey(a) == EchoKey(b) {
      assert a == EchoKey(a)[16..] == EchoKey(b)[16..] == b;
    }
    assert ValueKey(a)[0] != EchoKey(b)[0];
  }

  /** The value a name ends up with is that of its last parameter, under both
      of its keys. */
  lemma {:induction false} LastValueWins(ps: seq<Param>, i: nat)
    requires i < |ps|
    requires forall j :: i < j < |ps| ==> ParamName(ps[j]) != ParamName(ps[i])
    ensures ValueKey(ParamName(ps[i])) in ParamValues(ps)
    ensures ParamValues(ps)[ValueKey(ParamName(ps[i]))] == ParamValue(ps[i])
    ensures EchoKey(ParamName(ps[i])) in ParamValues(ps)
    ensures ParamValues(ps)[EchoKey(ParamName(ps[i]))] == ParamValue(ps[i])
  {
    var n := ParamName(ps[i]);
    var last := ps[|ps| - 1];
    KeysDistinct(ParamName(last), n);
    KeysDistinct(n, ParamName(last));
    if i < |ps| - 1 {
      var init := ps[..|ps| - 1];
      assert init[i] == ps[i];
      assert forall j :: i < j < |init| ==> init[j] == ps[j];
      LastValueWins(init, i);
    }
  }

  /** Exactly the keys of the given parameters' names are set. */
  lemma {:induction false} ParamValuesKeys(ps: seq<Param>, key: string)
    ensures key in ParamValues(ps) <==>
              exists i :: 0 <= i < |ps| && (key == ValueKey(ParamName(ps[i])) || key == EchoKey(ParamName(ps[i])))
  {
    if ps != [] {
      var init := ps[..|ps| - 1];
      ParamValuesKeys(init, key);
      if key in ParamValues(init) {
        var i :| 0 <= i < |init| && (key == ValueKey(ParamName(init[i])) || key == EchoKey(ParamName(init[i])));
        assert ps[i] == init[i];
      }
      if exists i :: 0 <= i < |ps| && (key == ValueKey(ParamName(ps[i])) || key == EchoKey(ParamName(ps[i]))) {
        var i :| 0 <= i < |ps| && (key == ValueKey(ParamName(ps[i])) || key == EchoKey(ParamName(ps[i])));
        if i < |ps| - 1 {
          assert init[i] == ps[i];
        }
      }
    }
  }

  /** A name given twice appears twice in both name lists, while its keys hold
      only the later value. */
  lemma DuplicateName(ps: seq<Param>, i: nat, j: nat)
    requires i < j < |ps| && ParamName(ps[i]) == ParamName(ps[j])
    requires forall k :: j < k < |ps| ==> ParamName(ps[k]) != ParamName(ps[j])
    ensures ParamNames(ps)[i] == ParamNames(ps)[j] == ParamName(ps[i])
    ensures ValueKey(ParamName(ps[i])) in ParamValues(ps)
    ensures ParamValues(ps)[ValueKey(ParamName(ps[i]))] == ParamValue(ps[j])
  {
    LastValueWins(ps, j);
  }

  /** The parts of the flow definition the queue form is built from; a
      property the definition lacks is `None`. */
  datatype FlowData = FlowData(
    queueTaskName: Option<Json>,
    queueData: Option<Json>,
    queueLevel: Option<Json>,
    idleRobot: Option<Json>,
    queueFlow: Option<Json>,
    agentId: Option<Json>,
    buAgentIds: Option<Json>,
    mapIds: Option<Json>)

  /** The agent group of the robot selector: the agent id, then the
      comma-prefixed backup agent ids when those are truthy. */
  function AgentGroup(flow: FlowData): string {
    FieldText(flow.agentId) + (if TruthyField(flow.buAgentIds) then "," + FieldText(flow.buAgentIds) else "")
  }

  /** `{Robot}{<agents>}{<maps>}` */
  function RobotTag(agents: string, maps: string): string {
    "{Robot}{" + agents + "}{" + maps + "}"
  }

  /** Reads the two groups back out of a robot selector. */
  function RobotGroups(tag: string): Option<(string, string)> {
    if |tag| < 9 || !StartsWith(tag, "{Robot}{") || tag[|tag| - 1] != '}' then None
    else
      var body := tag[8..|tag| - 1];
      match IndexOf(body, "}{", 0)
      case None => None
      case Some(i) => Some((body[..i], body[i + 2..]))
  }

  /** The selector carries its two groups intact when the agent group holds no
      `}{`. */
  lemma RobotRoundTrip(agents: string, maps: string)
    requires !Contains(agents, "}{")
    ensures RobotGroups(RobotTag(agents, maps)) == Some((agents, maps))
  {
    var tag := RobotTag(agents, maps);
    var body := agents + "}{" + maps;
    assert tag[8..|tag| - 1] == body;
    assert OccursAt(body, "}{", |agents|);
    forall k | 0 <= k < |agents| ensures !OccursAt(body, "}{", k) {
      if k + 2 <= |agents| {
        assert body[k..k + 2] == agents[k..k + 2];
        assert !OccursAt(agents, "}{", k);
      } else {
        assert body[k + 1] == '}';
      }
    }
    var i := IndexOf(body, "}{", 0).value;
    assert i == |agents|;
    assert body[..i] == agents;
    assert body[i + 2..] == maps;
  }

  /** The form object sent to `WebAddDataQueue`. */
  class FormData {
    var flowId: Option<Json>
    var execId: string
    var taskName: Option<Json>
    var data: Option<Json>
    var iType: int
    var level: Option<Json>
    var idleRobot: Option<Json>
    var webJson: bool
    var robot: Option<string>
    var tempParamJson: Option<TempParams>

    /** The object literal: copied fields, `iType` 0 and `WebJson` true. */
    constructor (flowId: Option<Json>, execId: string, flow: FlowData)
      ensures this.flowId == flowId && this.execId == execId
      ensures taskName == flow.queueTaskName && data == flow.queueData
      ensures level == flow.queueLevel && idleRobot == flow.idleRobot
      ensures iType == 0 && webJson
      ensures robot.None? && tempParamJson.None?
    {
      this.flowId := flowId;
      this.execId := execId;
      taskName := flow.queueTaskName;
      data := flow.queueData;
      iType := 0;
      level := flow.queueLevel;
      idleRobot := flow.idleRobot;
      webJson := true;
      robot := None;
      tempParamJson := None;
    }
  }

  /** `setFlowParamToPar`: with no parameters the form is left alone;
      otherwise `TempParamJson` holds every parameter under its two keys and
      the list of names, in input order, under both list keys. */
  method SetFlowParamToPar(formData: FormData, paramList: seq<Param>)
    modifies formData`tempParamJson
    ensures paramList == [] ==> formData.tempParamJson == old(formData.tempParamJson)
    ensures paramList != [] ==>
              formData.tempParamJson == Some(TempParams(ParamValues(paramList), ParamNames(paramList), ParamNames(paramList)))
  {
    if |paramList| == 0 {
      return;
    }
    var names: seq<string> := [];
    var data: map<string, string> := map[];
    var i := 0;
    while i < |paramList|
      invariant 0 <= i <= |paramList|
      invariant data == ParamValues(paramList[..i])
      invariant names == ParamNames(paramList[..i])
    {
      var item := paramList[i];
      var name := if item.key.Some? then item.key.value else "";
      var value := if item.value.Some? then item.value.value else "";
      data := data[ValueKey(name) := value];
      data := data[EchoKey(name) := value];
      names := names + [name];
      assert paramList[..i + 1][..i] == paramList[..i];
      i := i + 1;
    }
    assert paramList[..i] == paramList;
    formData.tempParamJson := Some(TempParams(data, names, names));
  }

  /** `setFlowParamsAndToQueue` up to the server call: the form copies the
      flow's queue settings, carries a robot selector exactly when
      `R_QueueFlow` or `R_AgentID` is truthy, and holds the parameters. */
  method SetFlowParamsAndToQueue(flowId: Option<Json>, execId: string, flow: FlowData, paramList: seq<Param>)
    returns (formData: FormData)
    ensures fresh(formData)
    ensures formData.flowId == flowId && formData.execId == execId
    ensures formData.taskName == flow.queueTaskName && formData.data == flow.queueData
    ensures formData.level == flow.queueLevel && formData.idleRobot == flow.idleRobot
    ensures formData.iType == 0 && formData.webJson
    ensures formData.robot.Some? <==> TruthyField(flow.queueFlow) || TruthyField(flow.agentId)
    ensures formData.robot.Some? ==> formData.robot.value == RobotTag(AgentGroup(flow), FieldText(flow.mapIds))
    ensures paramList == [] ==> formData.tempParamJson.None?
    ensures paramList != [] ==>
              formData.tempParamJson == Some(TempParams(ParamValues(paramList), ParamNames(paramList), ParamNames(paramList)))
  {
    formData := new FormData(flowId, execId, flow);
    var buAgentIds := if TruthyField(flow.buAgentIds) then "," + FieldText(flow.buAgentIds) else "";
    if TruthyField(flow.queueFlow) || TruthyField(flow.agentId) {
      var robot := "{Robot}{" + FieldText(flow.agentId) + buAgentIds + "}{" + FieldText(flow.mapIds) + "}";
      formData.robot := Some(robot);
    }
    SetFlowParamToPar(formData, paramList);
  }
}
