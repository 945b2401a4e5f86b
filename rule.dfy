/**
 * The operations of rule/lambda_function.py, which keeps one listener rule in
 * line with its declaration, and the pass that runs them. As for the load
 * balancer, each operation is a method proved to apply the `Effect` that a pure
 * function of its inputs and the AWS outcomes describes.
 */
module Rule {

  import opened Wrappers
  import opened PyValue
  import opened KeyValue
  import opened Extension
  import opened Tags
  import opened RuleConditions

  /** The fields of a rule action that the handler reads. */
  datatype ActionDesc = ActionDesc(actionType: Option<string>, targetGroupArn: Option<string>)

  /**
   * A rule as `describe_rules`, `create_rule` and `modify_rule` return it; AWS
   * reports the priority as a string, and `actions` is `None` when the answer
   * has no `Actions` entry.
   */
  datatype RuleDesc = RuleDesc(
    arn: string,
    conditions: seq<RuleCondition>,
    priority: Option<string>,
    actions: Option<seq<ActionDesc>>)

  /** What AWS answers to each call that a pass may make. */
  datatype World = World(
    describe: Outcome<seq<RuleDesc>>,
    tags: Outcome<seq<TagDescription>>,
    create: Outcome<seq<RuleDesc>>,
    modified: Outcome<seq<RuleDesc>>,
    setPriority: Outcome<()>,
    removeTags: Outcome<()>,
    addTags: Outcome<()>,
    delete: Outcome<()>)

  /**
   * The component definition: `conditions` is `None` when the key is absent,
   * and a declared priority is taken to be a number.
   */
  datatype Config = Config(
    listenerArn: Option<string>,
    targetGroupArn: Option<string>,
    conditions: Option<seq<Condition>>,
    priority: Option<int>,
    actionType: Option<string>,
    tags: Items)

  const GetOp := Op.GetRule
  const DeleteOp := Op.DeleteRule
  const CreateOp := Op.CreateRule
  const UpdateOp := Op.UpdateRule
  const UpdatePriorityOp := Op.UpdateRulePriority
  const RemoveTagsOp := Op.RemoveTags
  const SetTagsOp := Op.SetTags

  /** The order in which `lambda_handler` offers the operations to run. */
  const Order: seq<Op> := [GetOp, DeleteOp, CreateOp, UpdateOp, UpdatePriorityOp, RemoveTagsOp, SetTagsOp]

  const ArnKey := "rule_arn"
  const GetTitle := "Get Listener Rule Error"
  const CreateTitle := "Error Creating Listener Rule"
  const PriorityTitle := "Error Updating the Listener Rule Priority"

  /** The exception classes that `create_rule` turns into `perm_error(str(e), 20)`. */
  const CreatePermanent: set<ErrorCode> := {
    PriorityInUse, TooManyTargetGroups, TooManyRules, TargetGroupAssociationLimit,
    ListenerNotFound, TargetGroupNotFound, InvalidConfigurationRequest,
    TooManyRegistrationsForTargetId, TooManyTargets, TooManyActions,
    InvalidLoadBalancerAction, TooManyUniqueTargetGroupsPerLoadBalancer, TooManyTags}

  /** The exception classes that `update_rule` turns into `perm_error(str(e), 20)`. */
  const UpdatePermanent: set<ErrorCode> := {
    TargetGroupAssociationLimit, RuleNotFound, TooManyRegistrationsForTargetId,
    TooManyTargets, TargetGroupNotFound, TooManyActions, InvalidLoadBalancerAction,
    TooManyUniqueTargetGroupsPerLoadBalancer}

  /** The classes that `update_rule_priority` turns into `perm_error(str(e), 30)`. */
  const PriorityPermanent: set<ErrorCode> := {PriorityInUse, OperationNotPermitted}

  // ---------------------------------------------------------------------------
  // The attribute maps.

  /** The one-element `Actions` list. */
  function ActionsJson(actionType: Json, targetGroupArn: Json): Json
  {
    List([Object(map["Type" := actionType, "TargetGroupArn" := targetGroupArn])])
  }

  /** The `Actions` list keeps the type and the target group apart: distinct actions give distinct lists. */
  lemma ActionsJsonInjective(t1: Json, g1: Json, t2: Json, g2: Json)
    requires ActionsJson(t1, g1) == ActionsJson(t2, g2)
    ensures t1 == t2 && g1 == g2
  {
    var x := ActionsJson(t1, g1).items[0].fields;
    var y := ActionsJson(t2, g2).items[0].fields;
    assert x["Type"] == t1 && y["Type"] == t2;
    assert x["TargetGroupArn"] == g1 && y["TargetGroupArn"] == g2;
  }

  /** The `Actions` list holds no `None` exactly when neither its type nor its target group does. */
  lemma ActionsNoNone(actionType: Json, targetGroupArn: Json)
    ensures NoNone(ActionsJson(actionType, targetGroupArn)) <==> NoNone(actionType) && NoNone(targetGroupArn)
  {
    var o := map["Type" := actionType, "TargetGroupArn" := targetGroupArn];
    assert ActionsJson(actionType, targetGroupArn).items[0] == Object(o);
    assert NoNone(Object(o)) <==> NoNone(o["Type"]) && NoNone(o["TargetGroupArn"]);
  }

  /** `int(priority) if priority else priority` of a declared priority. */
  function PriorityJson(priority: Option<int>): Json
  {
    if priority.Some? then Int(priority.value) else Null
  }

  /** The attribute map of `lambda_handler`, given the formatted conditions. */
  function Attributes(c: Config, formatted: seq<RuleCondition>): Dict
  {
    var a := PutUnlessNone(map[], "ListenerArn", FromOption(c.listenerArn));
    var a := PutUnlessNone(a, "Conditions", if formatted != [] then RuleConditionsJson(formatted) else Null);
    var a := PutUnlessNone(a, "Priority", PriorityJson(c.priority));
    var a := a["Actions" := ActionsJson(Str(Or(c.actionType, "forward")), FromOption(c.targetGroupArn))];
    PutUnlessNone(a, "Tags", if c.tags != [] then TagList(c.tags) else Null)
  }

  /** `rule.get("Actions", [{}])[0]`: no first action when the list is empty. */
  function FirstAction(actions: Option<seq<ActionDesc>>): Option<ActionDesc>
  {
    match actions
    case None => Some(ActionDesc(None, None))
    case Some(list) => if list == [] then None else Some(list[0])
  }

  /** The Props recorded for a found, created or modified rule. */
  function RuleProps(arn: string, listenerArn: Json, priority: Option<string>, back: seq<Condition>,
                     action: ActionDesc): Dict
  {
    map[
      "arn" := Str(arn),
      "listener_arn" := listenerArn,
      "priority" := FromOption(priority),
      "conditions" := ConditionsJson(back),
      "action_type" := FromOption(action.actionType),
      "target_group_arn" := FromOption(action.targetGroupArn)]
  }

  /** The Props of a rule AWS returned, or `None` when reading its conditions back or its first action raises. */
  function RecordProps(rule: RuleDesc, listenerArn: Json): Option<Dict>
  {
    match ReadConditions(rule.conditions)
    case None => None
    case Some(back) =>
      match FirstAction(rule.actions)
      case None => None
      case Some(action) => Some(RuleProps(rule.arn, listenerArn, rule.priority, back, action))
  }

  /**
   * The live priority in the current attributes: the recorded string parsed
   * when it is non-empty (`None` when `int` raises), and its `str` otherwise,
   * which is `"None"` when AWS reported no priority.
   */
  function CurrentPriority(priority: Option<string>): Option<Json>
  {
    if priority.Some? && priority.value != "" then
      match ParseInt(priority.value)
      case None => None
      case Some(n) => Some(Int(n))
    else Some(Str(StrOrNone(priority)))
  }

  /** The live conditions formatted again; `None` when formatting raises. */
  function CurrentConditions(back: seq<Condition>): Option<Json>
  {
    if back == [] then Some(Null)
    else match FormattedConditions(back)
      case None => None
      case Some(f) => Some(RuleConditionsJson(f))
  }

  /** The current attribute map of get_rule, once its parts are known. */
  function CurrentAttributes(listenerArn: Json, priority: Json, conditions: Json, action: ActionDesc): Dict
  {
    var a := PutUnlessNone(map[], "ListenerArn", listenerArn);
    var a := PutUnlessNone(a, "Priority", priority);
    var a := PutUnlessNone(a, "Conditions", conditions);
    a["Actions" := ActionsJson(FromOption(action.actionType), FromOption(action.targetGroupArn))]
  }

  /** The current attribute map, or `None` when computing it raises. */
  function Current(listenerArn: Json, priority: Option<string>, back: seq<Condition>, action: ActionDesc): Option<Dict>
  {
    match CurrentPriority(priority)
    case None => None
    case Some(p) =>
      match CurrentConditions(back)
      case None => None
      case Some(conditions) => Some(CurrentAttributes(listenerArn, p, conditions, action))
  }

  const Unprioritised: set<string> := {"Tags", "Priority"}

  /** `update_rule` when the attributes other than tags and priority differ; `update_rule_priority` when the priorities do. */
  function UpdateOps(desired: Dict, current: Dict): map<Op, Payload>
  {
    (if Without(desired, Unprioritised) != Without(current, Unprioritised) then map[UpdateOp := NoPayload] else map[]) +
    (if Get(desired, "Priority") != Get(current, "Priority") then map[UpdatePriorityOp := NoPayload] else map[])
  }

  /** The request of `modify_rule`: the attributes without tags, listener and priority, addressed to the recorded rule. */
  function ModifyRequest(attributes: Dict, arn: Json): (r: Dict)
    ensures r.Keys == attributes.Keys - {"Tags", "ListenerArn", "Priority"} + {"RuleArn"}
    ensures r["RuleArn"] == arn
    ensures forall k | k in r && k != "RuleArn" :: r[k] == attributes[k]
  {
    Without(attributes, {"Tags", "ListenerArn", "Priority"})["RuleArn" := arn]
  }

  /** The request of `set_rule_priorities`. */
  function PriorityRequest(arn: Json, priority: Json): Dict
  {
    map["RulePriorities" := List([Object(map["RuleArn" := arn, "Priority" := priority])])]
  }

  // ---------------------------------------------------------------------------
  // The operations, as effects.

  /** The comparison and the tag lookup of get_rule. */
  function CompareEffect(attributes: Dict, listenerArn: Json, rule: RuleDesc, back: seq<Condition>, action: ActionDesc,
                         desiredTags: map<string, string>, w: World): Effect
  {
    match Current(listenerArn, rule.priority, back, action)
    case None => CrashEffect
    case Some(current) =>
      Then(Nothing.(ops := UpdateOps(attributes, current)),
           TagLookupEffect(rule.arn, desiredTags, w.tags, RuleNotFound, RetryOn(GetTitle, 10)))
  }

  /** What get_rule does with the rule it found. */
  function FoundEffect(attributes: Dict, rule: RuleDesc, listenerArn: Json, desiredTags: map<string, string>,
                       region: string, w: World): Effect
  {
    Then(StateEffect(map[ArnKey := Str(rule.arn), "region" := Str(region)]),
         match ReadConditions(rule.conditions)
         case None => CrashEffect
         case Some(back) =>
           match FirstAction(rule.actions)
           case None => CrashEffect
           case Some(action) =>
             Then(PropsEffect(RuleProps(rule.arn, listenerArn, rule.priority, back, action)),
                  CompareEffect(attributes, listenerArn, rule, back, action, desiredTags, w)))
  }

  /** `get_rule`, as an effect. */
  function GetEffect(attributes: Dict, desiredTags: map<string, string>, region: string, prev: Dict, w: World): Effect
  {
    var existing := Get(prev, "arn");
    if !Truthy(existing) then EnqueueEffect(CreateOp, NoPayload)
    else
      var describe := CallEffect("describe_rules", map["RuleArns" := List([existing])]);
      match w.describe
      case Raised(f) =>
        Then(describe, if f.exception == RuleNotFound then EnqueueEffect(CreateOp, NoPayload)
                       else RetryEffect(GetTitle, 10, None))
      case Ok(rules) =>
        if rules == [] then Then(describe, EnqueueEffect(CreateOp, NoPayload))
        else Then(describe, FoundEffect(attributes, rules[0], Get(prev, "listener_arn"), desiredTags, region, w))
  }

  /** What create_rule does with the rule it created. */
  function CreatedEffect(attributes: Dict, rule: RuleDesc, desiredTags: map<string, string>, region: string,
                         w: World): Effect
  {
    Then(StateEffect(map[ArnKey := Str(rule.arn), "region" := Str(region)]),
         match RecordProps(rule, Get(attributes, "ListenerArn"))
         case None => CrashEffect
         case Some(props) =>
           Then(PropsEffect(props),
                TagLookupEffect(rule.arn, desiredTags, w.tags, RuleNotFound, LadderOn(CreatePermanent, CreateTitle, 20))))
  }

  /** The parameters `create_rule` requires. */
  const CreateRequired: set<string> := {"ListenerArn", "Conditions", "Priority", "Actions"}

  /**
   * `create_rule`, as an effect: botocore refuses a request that lacks a
   * required parameter or holds `None`, and an answer without rules makes `[0]` raise.
   */
  function CreateEffect(attributes: Dict, desiredTags: map<string, string>, region: string, w: World): Effect
  {
    if !Accepted(attributes, CreateRequired) then CrashEffect
    else
    var create := CallEffect("create_rule", attributes);
    match w.create
    case Raised(f) => Then(create, HandleEffect(f, {}, CreatePermanent, CreateTitle, 20))
    case Ok(rules) =>
      if rules == [] then Then(create, CrashEffect)
      else Then(create, CreatedEffect(attributes, rules[0], desiredTags, region, w))
  }

  /**
   * `update_rule`, as an effect: `modify_rule` of the recorded rule, unless
   * botocore refuses the request, then the Props of the answer.
   */
  function UpdateEffect(attributes: Dict, state: Dict, out: Outcome<seq<RuleDesc>>): Effect
  {
    if ArnKey !in state || !Accepted(ModifyRequest(attributes, state[ArnKey]), {"RuleArn"}) then CrashEffect
    else
      var call := CallEffect("modify_rule", ModifyRequest(attributes, state[ArnKey]));
      match out
      case Raised(f) => Then(call, HandleEffect(f, {}, UpdatePermanent, CreateTitle, 20))
      case Ok(rules) =>
        if rules == [] then Then(call, CrashEffect)
        else match RecordProps(rules[0], Get(attributes, "ListenerArn"))
          case None => Then(call, CrashEffect)
          case Some(props) => Then(call, PropsEffect(props))
  }

  /**
   * `update_rule_priority`, as an effect. Without a declared priority the
   * request holds `None`, which botocore refuses. Its `RuleNotFoundException`
   * handler reads `e`, which that clause never binds; the `NameError` reaches
   * the top-level handler.
   */
  function PriorityEffect(priority: Option<int>, state: Dict, out: Outcome<()>): Effect
  {
    if ArnKey !in state || !Accepted(PriorityRequest(state[ArnKey], PriorityJson(priority)), {"RulePriorities"}) then CrashEffect
    else
      var p := PriorityJson(priority);
      var call := CallEffect("set_rule_priorities", PriorityRequest(state[ArnKey], p));
      match out
      case Ok(_) => Then(call, PropsEffect(map["Priority" := p]))
      case Raised(f) =>
        Then(call, if f.exception == RuleNotFound then CrashEffect
                   else if f.exception in PriorityPermanent then FailEffect(f.message, 30)
                   else CommonEffect(f, PriorityTitle, 80))
  }

  /** `delete_rule`, as an effect: a rule that is already gone is not an error. */
  function DeleteEffect(state: Dict, out: Outcome<()>): Effect
  {
    if ArnKey !in state then CrashEffect
    else
      var call := CallEffect("delete_rule", map["RuleArn" := state[ArnKey]]);
      match out
      case Ok(_) => call
      case Raised(f) => Then(call, HandleEffect(f, {RuleNotFound}, {}, "Error Deleting Listener Rule", 80))
  }

  // ---------------------------------------------------------------------------
  // The operations, step by step on the handler.

  /** The current attribute map, computed as get_rule does, formatting the read-back conditions again. */
  method CurrentOf(listenerArn: Json, priority: Option<string>, back: seq<Condition>, action: ActionDesc)
    returns (r: Option<Dict>)
    ensures r == Current(listenerArn, priority, back, action)
  {
    var p := CurrentPriority(priority);
    if p.None? {
      return None;
    }
    var conditions := Null;
    if back != [] {
      var f := FormatConditions(back);
      if f.None? {
        return None;
      }
      conditions := RuleConditionsJson(f.value);
    }
    r := Some(CurrentAttributes(listenerArn, p.value, conditions, action));
  }

  /** Enqueues the updates the comparison selects. */
  method EnqueueUpdates(h: Handler, desired: Dict, current: Dict)
    modifies h`ops
    ensures h.ops == old(h.ops) + UpdateOps(desired, current)
  {
    var a: map<Op, Payload> := if Without(desired, Unprioritised) != Without(current, Unprioritised) then map[UpdateOp := NoPayload] else map[];
    var b: map<Op, Payload> := if Get(desired, "Priority") != Get(current, "Priority") then map[UpdatePriorityOp := NoPayload] else map[];
    if Without(desired, Unprioritised) != Without(current, Unprioritised) {
      h.AddOp(UpdateOp, NoPayload);
    }
    assert h.ops == old(h.ops) + a;
    if Get(desired, "Priority") != Get(current, "Priority") {
      h.AddOp(UpdatePriorityOp, NoPayload);
    }
    MergeAssoc(old(h.ops), a, b);
  }

  /** Compares the current attributes with the declared ones, then looks up the tags. */
  method Compare(h: Handler, attributes: Dict, listenerArn: Json, rule: RuleDesc, back: seq<Condition>,
                 action: ActionDesc, desiredTags: map<string, string>, w: World)
    modifies h
    ensures h.Applied(CompareEffect(attributes, listenerArn, rule, back, action, desiredTags, w))
  {
    var current := CurrentOf(listenerArn, rule.priority, back, action);
    if current.None? {
      h.Unexpected();
      return;
    }
    ghost var s0 := h.Now();
    var ops := UpdateOps(attributes, current.value);
    EnqueueUpdates(h, attributes, current.value);
    OnlyOps(s0, ops);
    var escape := RetryOn(GetTitle, 10);
    TagLookup(h, rule.arn, desiredTags, w.tags, RuleNotFound, escape);
    ThenAssoc(s0, Nothing.(ops := ops), TagLookupEffect(rule.arn, desiredTags, w.tags, RuleNotFound, escape));
  }

  /** Records the found rule, then compares and looks up the tags. */
  method Found(h: Handler, attributes: Dict, rule: RuleDesc, listenerArn: Json, desiredTags: map<string, string>,
               region: string, w: World)
    modifies h
    ensures h.Applied(FoundEffect(attributes, rule, listenerArn, desiredTags, region, w))
  {
    ghost var s0 := h.Now();
    var st := map[ArnKey := Str(rule.arn), "region" := Str(region)];
    h.AddState(st);
    var back := ReadBack(rule.conditions);
    var action := FirstAction(rule.actions);
    if back.None? || action.None? {
      h.Unexpected();
      ThenAssoc(s0, StateEffect(st), CrashEffect);
      return;
    }
    var props := RuleProps(rule.arn, listenerArn, rule.priority, back.value, action.value);
    h.AddProps(props);
    Compare(h, attributes, listenerArn, rule, back.value, action.value, desiredTags, w);
    Chain3(s0, StateEffect(st), PropsEffect(props),
           CompareEffect(attributes, listenerArn, rule, back.value, action.value, desiredTags, w));
  }

  /** `get_rule`. */
  method GetRule(h: Handler, attributes: Dict, desiredTags: map<string, string>, region: string, prev: Dict, w: World)
    modifies h
    ensures h.Applied(GetEffect(attributes, desiredTags, region, prev, w))
  {
    var existing := Get(prev, "arn");
    if !Truthy(existing) {
      h.AddOp(CreateOp, NoPayload);
      return;
    }
    ghost var s0 := h.Now();
    var describe := CallEffect("describe_rules", map["RuleArns" := List([existing])]);
    h.Call("describe_rules", map["RuleArns" := List([existing])], NoPayload);
    match w.describe {
      case Raised(f) =>
        if f.exception == RuleNotFound {
          h.AddOp(CreateOp, NoPayload);
          ThenAssoc(s0, describe, EnqueueEffect(CreateOp, NoPayload));
        } else {
          h.RetryError(GetTitle, 10, None);
          ThenAssoc(s0, describe, RetryEffect(GetTitle, 10, None));
        }
      case Ok(rules) =>
        if rules == [] {
          h.AddOp(CreateOp, NoPayload);
          ThenAssoc(s0, describe, EnqueueEffect(CreateOp, NoPayload));
        } else {
          Found(h, attributes, rules[0], Get(prev, "listener_arn"), desiredTags, region, w);
          ThenAssoc(s0, describe, FoundEffect(attributes, rules[0], Get(prev, "listener_arn"), desiredTags, region, w));
        }
    }
  }

  /** Records the created rule, then looks up its tags. */
  method Created(h: Handler, attributes: Dict, rule: RuleDesc, desiredTags: map<string, string>, region: string, w: World)
    modifies h
    ensures h.Applied(CreatedEffect(attributes, rule, desiredTags, region, w))
  {
    ghost var s0 := h.Now();
    var st := map[ArnKey := Str(rule.arn), "region" := Str(region)];
    h.AddState(st);
    var back := ReadBack(rule.conditions);
    var action := FirstAction(rule.actions);
    if back.None? || action.None? {
      h.Unexpected();
      ThenAssoc(s0, StateEffect(st), CrashEffect);
      return;
    }
    var props := RuleProps(rule.arn, Get(attributes, "ListenerArn"), rule.priority, back.value, action.value);
    h.AddProps(props);
    var escape := LadderOn(CreatePermanent, CreateTitle, 20);
    TagLookup(h, rule.arn, desiredTags, w.tags, RuleNotFound, escape);
    Chain3(s0, StateEffect(st), PropsEffect(props), TagLookupEffect(rule.arn, desiredTags, w.tags, RuleNotFound, escape));
  }

  /** `create_rule`. */
  method CreateRule(h: Handler, attributes: Dict, desiredTags: map<string, string>, region: string, w: World)
    modifies h
    ensures h.Applied(CreateEffect(attributes, desiredTags, region, w))
  {
    if !Accepted(attributes, CreateRequired) {
      h.Unexpected();
      return;
    }
    ghost var s0 := h.Now();
    var create := CallEffect("create_rule", attributes);
    h.Call("create_rule", attributes, NoPayload);
    match w.create {
      case Raised(f) =>
        h.Handle(f, {}, CreatePermanent, CreateTitle, 20);
        ThenAssoc(s0, create, HandleEffect(f, {}, CreatePermanent, CreateTitle, 20));
      case Ok(rules) =>
        if rules == [] {
          h.Unexpected();
          ThenAssoc(s0, create, CrashEffect);
        } else {
          Created(h, attributes, rules[0], desiredTags, region, w);
          ThenAssoc(s0, create, CreatedEffect(attributes, rules[0], desiredTags, region, w));
        }
    }
  }

  /** Records the Props of the rule `modify_rule` returned. */
  method Modified(h: Handler, attributes: Dict, rule: RuleDesc)
    modifies h
    ensures h.Applied(match RecordProps(rule, Get(attributes, "ListenerArn"))
                      case None => CrashEffect
                      case Some(props) => PropsEffect(props))
  {
    var back := ReadBack(rule.conditions);
    var action := FirstAction(rule.actions);
    if back.None? || action.None? {
      h.Unexpected();
      return;
    }
    h.AddProps(RuleProps(rule.arn, Get(attributes, "ListenerArn"), rule.priority, back.value, action.value));
  }

  /** `update_rule`. */
  method UpdateRule(h: Handler, attributes: Dict, w: World)
    modifies h
    ensures h.Applied(UpdateEffect(attributes, old(h.state), w.modified))
  {
    if ArnKey !in h.state {
      h.Unexpected();
      return;
    }
    var request := ModifyRequest(attributes, h.state[ArnKey]);
    if !Accepted(request, {"RuleArn"}) {
      h.Unexpected();
      return;
    }
    ghost var s0 := h.Now();
    h.Call("modify_rule", request, NoPayload);
    match w.modified {
      case Raised(f) =>
        h.Handle(f, {}, UpdatePermanent, CreateTitle, 20);
        ThenAssoc(s0, CallEffect("modify_rule", request), HandleEffect(f, {}, UpdatePermanent, CreateTitle, 20));
      case Ok(rules) =>
        if rules == [] {
          h.Unexpected();
          ThenAssoc(s0, CallEffect("modify_rule", request), CrashEffect);
        } else {
          Modified(h, attributes, rules[0]);
          ThenAssoc(s0, CallEffect("modify_rule", request),
                    match RecordProps(rules[0], Get(attributes, "ListenerArn"))
                    case None => CrashEffect
                    case Some(props) => PropsEffect(props));
        }
    }
  }

  /** `update_rule_priority`. */
  method UpdateRulePriority(h: Handler, priority: Option<int>, w: World)
    modifies h
    ensures h.Applied(PriorityEffect(priority, old(h.state), w.setPriority))
  {
    if ArnKey !in h.state {
      h.Unexpected();
      return;
    }
    var p := PriorityJson(priority);
    var request := PriorityRequest(h.state[ArnKey], p);
    if !Accepted(request, {"RulePriorities"}) {
      h.Unexpected();
      return;
    }
    ghost var s0 := h.Now();
    h.Call("set_rule_priorities", request, NoPayload);
    match w.setPriority {
      case Ok(_) =>
        h.AddProps(map["Priority" := p]);
        ThenAssoc(s0, CallEffect("set_rule_priorities", request), PropsEffect(map["Priority" := p]));
      case Raised(f) =>
        if f.exception == RuleNotFound {
          h.Unexpected();
          ThenAssoc(s0, CallEffect("set_rule_priorities", request), CrashEffect);
        } else if f.exception in PriorityPermanent {
          h.PermError(f.message, 30);
          ThenAssoc(s0, CallEffect("set_rule_priorities", request), FailEffect(f.message, 30));
        } else {
          h.HandleCommon(f, PriorityTitle, 80);
          ThenAssoc(s0, CallEffect("set_rule_priorities", request), CommonEffect(f, PriorityTitle, 80));
        }
    }
  }

  /** `delete_rule`. */
  method DeleteRule(h: Handler, w: World)
    modifies h
    ensures h.Applied(DeleteEffect(old(h.state), w.delete))
  {
    if ArnKey !in h.state {
      h.Unexpected();
      return;
    }
    ghost var s0 := h.Now();
    var params := map["RuleArn" := h.state[ArnKey]];
    h.Call("delete_rule", params, NoPayload);
    if w.delete.Raised? {
      h.Handle(w.delete.fault, {RuleNotFound}, {}, "Error Deleting Listener Rule", 80);
      ThenAssoc(s0, CallEffect("delete_rule", params),
                HandleEffect(w.delete.fault, {RuleNotFound}, {}, "Error Deleting Listener Rule", 80));
    }
  }

  // ---------------------------------------------------------------------------
  // One pass of `lambda_handler`.

  /** What a pass is invoked with, besides the ledger the platform hands back. */
  datatype Event = Event(
    op: string,
    /** `pass_back_data` is present: the pass resumes a retry and declares no starting point. */
    resumed: bool,
    /** `prev_state["props"]`, or nothing. */
    prev: Dict,
    config: Config,
    region: string)

  /** What `lambda_handler` derives from the event before it runs the operations. */
  datatype Desired = Desired(
    attributes: Dict,
    tags: map<string, string>,
    priority: Option<int>,
    region: string,
    prev: Dict)

  /** The position of an operation in `Order`. */
  function Rank(op: Op): nat
  {
    if op == GetOp then 0 else if op == DeleteOp then 1 else if op == CreateOp then 2
    else if op == UpdateOp then 3 else if op == UpdatePriorityOp then 4 else if op == RemoveTagsOp then 5
    else 6
  }

  /** The one request `delete_rule` makes: none when no ARN is recorded. */
  function DeleteCalls(state: Dict): seq<Request>
  {
    if ArnKey in state then [Request("delete_rule", map["RuleArn" := state[ArnKey]], NoPayload)] else []
  }

  /** `delete_rule` never schedules another operation, and makes at most its one request. */
  lemma DeleteEnqueuesNothing(state: Dict, out: Outcome<()>)
    ensures DeleteEffect(state, out).ops == map[]
    ensures DeleteEffect(state, out).calls == DeleteCalls(state)
  {
  }

  /** The body of the lookup, the delete or the create. */
  method RunLifecycleOp(h: Handler, op: Op, d: Desired, w: World)
    modifies h
    ensures h.ran == old(h.ran)
    ensures op == DeleteOp ==> h.ops == old(h.ops) && h.calls == old(h.calls) + DeleteCalls(old(h.state))
  {
    if op == GetOp {
      GetRule(h, d.attributes, d.tags, d.region, d.prev, w);
    } else if op == DeleteOp {
      DeleteRule(h, w);
      DeleteEnqueuesNothing(old(h.state), w.delete);
    } else if op == CreateOp {
      CreateRule(h, d.attributes, d.tags, d.region, w);
    }
  }

  /** The body of one of the update operations. */
  method RunUpdateOp(h: Handler, op: Op, d: Desired, w: World)
    modifies h
    ensures h.ran == old(h.ran)
  {
    if op == UpdateOp {
      UpdateRule(h, d.attributes, w);
    } else if op == UpdatePriorityOp {
      UpdateRulePriority(h, d.priority, w);
    } else if op == RemoveTagsOp {
      RunRemoveTags(h, ArnKey, ListenerNotFound, "Error Removing Listener Rule Tags", w.removeTags);
    } else if op == SetTagsOp {
      RunSetTags(h, ArnKey, RuleNotFound, w.addTags);
    }
  }

  /** `@ext(op=...)` around the lookup, the delete or the create. */
  method LifecycleStep(h: Handler, op: Op, d: Desired, w: World, ghost base: seq<Op>)
    requires Progress(h.ran, base, Rank(op), Rank)
    modifies h
    ensures Progress(h.ran, base, Rank(op) + 1, Rank)
    ensures h.ran == old(h.ran) + if old(h.Scheduled(op)) then [op] else []
    ensures !old(h.Scheduled(op)) ==> Idle(h)
    ensures op == DeleteOp && old(h.Scheduled(op)) ==>
              h.ops == old(h.ops) && h.calls == old(h.calls) + DeleteCalls(old(h.state))
  {
    var run := h.Begin(op);
    if run {
      RunNext(old(h.ran), base, op, Rank);
      RunLifecycleOp(h, op, d, w);
    } else {
      assert h.ran == old(h.ran);
      OrderedWeaken(h.ran[|base|..], Rank(op), Rank(op) + 1, Rank);
    }
  }

  /** `@ext(op=...)` around one of the update operations. */
  method UpdateStep(h: Handler, op: Op, d: Desired, w: World, ghost base: seq<Op>)
    requires Progress(h.ran, base, Rank(op), Rank)
    modifies h
    ensures Progress(h.ran, base, Rank(op) + 1, Rank)
    ensures Extends(h.ran, old(h.ran))
    ensures !old(h.Scheduled(op)) ==> Idle(h)
  {
    var run := h.Begin(op);
    if run {
      RunNext(old(h.ran), base, op, Rank);
      RunUpdateOp(h, op, d, w);
    } else {
      assert h.ran == old(h.ran);
      OrderedWeaken(h.ran[|base|..], Rank(op), Rank(op) + 1, Rank);
    }
  }

  /** The operations that follow the lookup and the delete. */
  const Later: set<Op> := {CreateOp, UpdateOp, UpdatePriorityOp, RemoveTagsOp, SetTagsOp}

  /** The lookup and the delete. */
  method DispatchLookup(h: Handler, d: Desired, w: World, ghost base: seq<Op>)
    requires Progress(h.ran, base, Rank(GetOp), Rank)
    modifies h
    ensures Progress(h.ran, base, Rank(DeleteOp) + 1, Rank)
    ensures Extends(h.ran, old(h.ran))
    ensures !old(h.Live()) ==> Idle(h)
    ensures old(h.Live()) && GetOp in old(h.ops) ==> |h.ran| > |old(h.ran)| && h.ran[|old(h.ran)|] == GetOp
    ensures old(h.Live()) && old(h.ops) == map[DeleteOp := NoPayload] ==>
              h.ops == old(h.ops) && h.ran == old(h.ran) + [DeleteOp] &&
              h.calls == old(h.calls) + DeleteCalls(old(h.state))
  {
    LifecycleStep(h, GetOp, d, w, base);
    LifecycleStep(h, DeleteOp, d, w, base);
  }

  /** The create and the update. */
  method DispatchChanges(h: Handler, d: Desired, w: World, ghost base: seq<Op>)
    requires Progress(h.ran, base, Rank(CreateOp), Rank)
    modifies h
    ensures Progress(h.ran, base, Rank(UpdateOp) + 1, Rank)
    ensures Extends(h.ran, old(h.ran))
    ensures !old(h.Live()) || old(h.ops).Keys !! Later ==> Idle(h)
  {
    LifecycleStep(h, CreateOp, d, w, base);
    UpdateStep(h, UpdateOp, d, w, base);
  }

  /** The priority and tag updates. */
  method DispatchSettings(h: Handler, d: Desired, w: World, ghost base: seq<Op>)
    requires Progress(h.ran, base, Rank(UpdatePriorityOp), Rank)
    modifies h
    ensures Progress(h.ran, base, |Order|, Rank)
    ensures Extends(h.ran, old(h.ran))
    ensures !old(h.Live()) || old(h.ops).Keys !! Later ==> Idle(h)
  {
    UpdateStep(h, UpdatePriorityOp, d, w, base);
    UpdateStep(h, RemoveTagsOp, d, w, base);
    UpdateStep(h, SetTagsOp, d, w, base);
  }

  /** The create and every update. */
  method DispatchUpdates(h: Handler, d: Desired, w: World, ghost base: seq<Op>)
    requires Progress(h.ran, base, Rank(CreateOp), Rank)
    modifies h
    ensures Progress(h.ran, base, |Order|, Rank)
    ensures Extends(h.ran, old(h.ran))
    ensures !old(h.Live()) || old(h.ops).Keys !! Later ==> Idle(h)
  {
    DispatchChanges(h, d, w, base);
    DispatchSettings(h, d, w, base);
  }

  /** The operations of a pass, offered one by one in the fixed order. */
  method Dispatch(h: Handler, d: Desired, w: World)
    modifies h
    ensures Progress(h.ran, old(h.ran), |Order|, Rank)
    ensures !old(h.Live()) ==> h.ran == old(h.ran) && h.calls == old(h.calls) && h.failure == old(h.failure)
    ensures old(h.Live()) && GetOp in old(h.ops) ==> |h.ran| > |old(h.ran)| && h.ran[|old(h.ran)|] == GetOp
    ensures old(h.Live()) && old(h.ops) == map[DeleteOp := NoPayload] ==>
              h.ran == old(h.ran) + [DeleteOp] && h.calls == old(h.calls) + DeleteCalls(old(h.state))
  {
    ghost var base := h.ran;
    DispatchLookup(h, d, w, base);
    DispatchUpdates(h, d, w, base);
  }

  /**
   * The immutable-field guard as the upsert branch writes it: it compares the
   * recorded `old_listener_arn` with itself.
   */
  predicate ListenerArnGuard(prev: Dict)
  {
    var recorded := Get(prev, "old_listener_arn");
    Truthy(recorded) && recorded != recorded
  }

  /**
   * The starting point `lambda_handler` declares on a fresh pass: an upsert
   * enqueues the lookup, a delete enqueues the delete of the recorded ARN (and
   * crashes when none is recorded). A resumed pass declares nothing.
   */
  method Start(h: Handler, ev: Event) returns (go: bool)
    modifies h
    ensures h.ran == old(h.ran) && h.calls == old(h.calls) && h.retry == old(h.retry) && h.props == old(h.props)
    ensures go <==> ev.resumed || ev.op != "delete" || "arn" in ev.prev
    ensures ev.resumed || (ev.op != "upsert" && ev.op != "delete") ==>
              h.ops == old(h.ops) && h.state == old(h.state) && h.failure == old(h.failure)
    ensures !ev.resumed && ev.op == "upsert" ==>
              h.ops == old(h.ops)[GetOp := NoPayload] && h.state == old(h.state) && h.failure == old(h.failure)
    ensures !ev.resumed && ev.op == "delete" ==> h.ops == old(h.ops)[DeleteOp := NoPayload]
    ensures !ev.resumed && ev.op == "delete" && "arn" !in ev.prev ==> h.failure == Some(UnexpectedError)
    ensures !ev.resumed && ev.op == "delete" && "arn" in ev.prev ==>
              h.state == old(h.state)[ArnKey := ev.prev["arn"]] && h.failure == old(h.failure)
  {
    go := true;
    if !ev.resumed {
      if ev.op == "upsert" {
        h.AddOp(GetOp, NoPayload);
        // The guard's `perm_error` branch is dead: it compares a value with itself.
        if ListenerArnGuard(ev.prev) {
          assert false;
        }
      } else if ev.op == "delete" {
        h.AddOp(DeleteOp, NoPayload);
        if "arn" !in ev.prev {
          h.Unexpected();
          go := false;
        } else {
          h.AddState(map[ArnKey := ev.prev["arn"]]);
        }
      }
    }
  }

  /** The declared conditions formatted, or `None` when they are absent or formatting raises. */
  function DeclaredConditions(c: Config): Option<seq<RuleCondition>>
  {
    if c.conditions.None? then None else FormattedConditions(c.conditions.value)
  }

  /**
   * `lambda_handler` after `capture_event`: the conditions formatted (which
   * raises before any starting point is declared when they are absent or
   * malformed), the attribute map, the starting point and the operations in
   * their fixed order.
   */
  method Reconcile(h: Handler, ev: Event, w: World)
    modifies h
    ensures Extends(h.ran, old(h.ran))
    ensures InOrder(h.ran[|old(h.ran)|..], Rank)
    ensures DeclaredConditions(ev.config).None? ==>
              h.failure == Some(UnexpectedError) && h.ran == old(h.ran) && h.calls == old(h.calls) && h.ops == old(h.ops)
    ensures DeclaredConditions(ev.config).Some? && !ev.resumed && ev.op == "upsert" && old(h.Live()) ==>
              |h.ran| > |old(h.ran)| && h.ran[|old(h.ran)|] == GetOp
    ensures DeclaredConditions(ev.config).Some? && !ev.resumed && ev.op == "delete" && "arn" !in ev.prev ==>
              h.failure == Some(UnexpectedError) && h.ran == old(h.ran) && h.calls == old(h.calls)
    ensures DeclaredConditions(ev.config).Some? && !ev.resumed && ev.op == "delete" && "arn" in ev.prev
            && old(h.Live()) && old(h.ops) == map[] ==>
              h.ran == old(h.ran) + [DeleteOp] &&
              h.calls == old(h.calls) + [Request("delete_rule", map["RuleArn" := ev.prev["arn"]], NoPayload)]
  {
    if ev.config.conditions.None? {
      h.Unexpected();
      return;
    }
    var formatted := FormatConditions(ev.config.conditions.value);
    if formatted.None? {
      h.Unexpected();
      return;
    }
    var attributes := Attributes(ev.config, formatted.value);
    var go := Start(h, ev);
    if go {
      Dispatch(h, Desired(attributes, DesiredTags(ev.config.tags), ev.config.priority, ev.region, ev.prev), w);
      OrderedInOrder(h.ran[|old(h.ran)|..], |Order|, Rank);
    }
  }
}
