/**
 * What the listener-rule operations promise, stated about the effects they are
 * proved to apply: how a lookup is classified, when a found rule is updated,
 * that a rule written from its declaration compares equal to it, and how the
 * priority, update and delete operations end.
 */
module RuleProperties {

  import opened Wrappers
  import opened PyValue
  import opened KeyValue
  import opened Extension
  import opened Tags
  import opened RuleConditions
  import opened Rule

  // ---------------------------------------------------------------------------
  // The attribute map.

  /**
   * `lambda_handler` always declares the one action, of type `forward` unless
   * another is given, and declares the listener, the conditions, the priority
   * and the tags only when they are given.
   */
  lemma AttributesDeclared(c: Config, formatted: seq<RuleCondition>)
    ensures var a := Attributes(c, formatted);
      && "Actions" in a && a["Actions"] == ActionsJson(Str(Or(c.actionType, "forward")), FromOption(c.targetGroupArn))
      && ("ListenerArn" in a <==> c.listenerArn.Some?)
      && ("Conditions" in a <==> formatted != [])
      && ("Priority" in a <==> c.priority.Some?)
      && ("Tags" in a <==> c.tags != [])
      && a.Keys <= {"ListenerArn", "Conditions", "Priority", "Actions", "Tags"}
      && ("ListenerArn" in a ==> a["ListenerArn"] == Str(c.listenerArn.value))
      && ("Conditions" in a ==> a["Conditions"] == RuleConditionsJson(formatted))
      && ("Priority" in a ==> a["Priority"] == Int(c.priority.value))
      && ("Tags" in a ==> a["Tags"] == TagList(c.tags))
  {
  }

  /** The `old_listener_arn` guard of the upsert branch never fires, whatever was recorded. */
  lemma ListenerArnGuardNeverFires(prev: Dict)
    ensures !ListenerArnGuard(prev)
  {
  }

  // ---------------------------------------------------------------------------
  // get_rule.

  /** Without a recorded ARN, get_rule enqueues the create and calls nothing. */
  lemma GetCreatesWithoutRecordedArn(attributes: Dict, desiredTags: map<string, string>, region: string, prev: Dict, w: World)
    requires !Truthy(Get(prev, "arn"))
    ensures GetEffect(attributes, desiredTags, region, prev, w) == EnqueueEffect(CreateOp, NoPayload)
  {
  }

  /** A rule AWS does not know, or an empty answer, enqueues exactly the create after the one lookup. */
  lemma GetCreatesWhenMissing(attributes: Dict, desiredTags: map<string, string>, region: string, prev: Dict, w: World)
    requires Truthy(Get(prev, "arn"))
    requires w.describe == Ok([]) || (w.describe.Raised? && w.describe.fault.exception == RuleNotFound)
    ensures var e := GetEffect(attributes, desiredTags, region, prev, w);
      && e.ops == map[CreateOp := NoPayload] && e.retry.None? && e.failure.None?
      && e.state == map[] && e.props == map[]
      && e.calls == [Request("describe_rules", map["RuleArns" := List([Get(prev, "arn")])], NoPayload)]
  {
  }

  /** Any other lookup fault declares a retry at progress 10 and enqueues nothing. */
  lemma GetRetriesOnFault(attributes: Dict, desiredTags: map<string, string>, region: string, prev: Dict, w: World)
    requires Truthy(Get(prev, "arn"))
    requires w.describe.Raised? && w.describe.fault.exception != RuleNotFound
    ensures var e := GetEffect(attributes, desiredTags, region, prev, w);
      e.ops == map[] && e.retry == Some(Retry(GetTitle, 10, None)) && e.failure.None?
  {
  }

  /**
   * Found: the rule is recorded for the later operations, `update_rule` is
   * enqueued exactly when the attributes other than tags and priority differ,
   * `update_rule_priority` exactly when the priorities differ, and nothing else
   * but the tag operations is enqueued.
   */
  lemma GetComparesFound(attributes: Dict, desiredTags: map<string, string>, region: string, prev: Dict, w: World,
                         back: seq<Condition>, action: ActionDesc, current: Dict)
    requires Truthy(Get(prev, "arn")) && w.describe.Ok? && w.describe.value != []
    requires ReadConditions(w.describe.value[0].conditions) == Some(back)
    requires FirstAction(w.describe.value[0].actions) == Some(action)
    requires Current(Get(prev, "listener_arn"), w.describe.value[0].priority, back, action) == Some(current)
    ensures var e := GetEffect(attributes, desiredTags, region, prev, w);
      var rule := w.describe.value[0];
      && e.state == map[ArnKey := Str(rule.arn), "region" := Str(region)]
      && e.props == RuleProps(rule.arn, Get(prev, "listener_arn"), rule.priority, back, action)
      && (UpdateOp in e.ops <==> Without(attributes, Unprioritised) != Without(current, Unprioritised))
      && (UpdatePriorityOp in e.ops <==> Get(attributes, "Priority") != Get(current, "Priority"))
      && e.ops.Keys <= {UpdateOp, UpdatePriorityOp, RemoveTagsOp, SetTagsOp}
  {
    var rule := w.describe.value[0];
    var listenerArn := Get(prev, "listener_arn");
    var tags := TagLookupEffect(rule.arn, desiredTags, w.tags, RuleNotFound, RetryOn(GetTitle, 10));
    TagLookupConfined(rule.arn, desiredTags, w.tags, RuleNotFound, RetryOn(GetTitle, 10));
    var compare := CompareEffect(attributes, listenerArn, rule, back, action, desiredTags, w);
    assert compare == Then(Nothing.(ops := UpdateOps(attributes, current)), tags);
    CompareShape(attributes, current, tags);
    var st := map[ArnKey := Str(rule.arn), "region" := Str(region)];
    var pr := RuleProps(rule.arn, listenerArn, rule.priority, back, action);
    var found := FoundEffect(attributes, rule, listenerArn, desiredTags, region, w);
    assert found == Then(StateEffect(st), Then(PropsEffect(pr), compare));
    var describe := CallEffect("describe_rules", map["RuleArns" := List([Get(prev, "arn")])]);
    assert GetEffect(attributes, desiredTags, region, prev, w) == Then(describe, found);
    RecordShape(describe, st, pr, compare);
  }

  /** The comparison enqueues each update exactly when its part of the attributes differs, and records nothing. */
  lemma CompareShape(attributes: Dict, current: Dict, tags: Effect)
    requires Confined(tags, {RemoveTagsOp, SetTagsOp}, {})
    ensures var e := Then(Nothing.(ops := UpdateOps(attributes, current)), tags);
      && e.state == map[] && e.props == map[]
      && (UpdateOp in e.ops <==> Without(attributes, Unprioritised) != Without(current, Unprioritised))
      && (UpdatePriorityOp in e.ops <==> Get(attributes, "Priority") != Get(current, "Priority"))
      && e.ops.Keys <= {UpdateOp, UpdatePriorityOp, RemoveTagsOp, SetTagsOp}
  {
    MergeEmpty<string, Json>(map[]);
  }

  /** A found rule whose conditions cannot be read back, or whose action list is empty, crashes once it is recorded in State. */
  lemma GetCrashesOnUnreadableRule(attributes: Dict, desiredTags: map<string, string>, region: string, prev: Dict, w: World)
    requires Truthy(Get(prev, "arn")) && w.describe.Ok? && w.describe.value != []
    requires ReadConditions(w.describe.value[0].conditions).None? || FirstAction(w.describe.value[0].actions).None?
    ensures var e := GetEffect(attributes, desiredTags, region, prev, w);
      e.failure == Some(UnexpectedError) && e.ops == map[] && e.props == map[] &&
      e.state == map[ArnKey := Str(w.describe.value[0].arn), "region" := Str(region)]
  {
    var st := map[ArnKey := Str(w.describe.value[0].arn), "region" := Str(region)];
    MergeEmpty(st);
  }

  // ---------------------------------------------------------------------------
  // The comparison of get_rule.

  /**
   * A live rule that holds what was declared compares equal to the declaration:
   * the declared conditions, formatted, read back and formatted again, give the
   * same `Conditions`; the recorded listener and the live action are the
   * declared ones. So `update_rule` is not enqueued.
   */
  lemma DeclaredRuleNeedsNoUpdate(c: Config, cs: seq<Condition>, listenerArn: Json, priority: Option<string>,
                                  action: ActionDesc)
    requires FormattedConditions(cs).Some?
    requires listenerArn == FromOption(c.listenerArn)
    requires action == ActionDesc(Some(Or(c.actionType, "forward")), c.targetGroupArn)
    requires CurrentPriority(priority).Some?
    ensures var f := FormattedConditions(cs).value;
      && ReadConditions(f).Some?
      && Current(listenerArn, priority, ReadConditions(f).value, action).Some?
      && Without(Attributes(c, f), Unprioritised) == Without(Current(listenerArn, priority, ReadConditions(f).value, action).value, Unprioritised)
  {
    var f := FormattedConditions(cs).value;
    ReadBackConditions(cs);
    var conditions := if f == [] then Null else RuleConditionsJson(f);
    var p := CurrentPriority(priority).value;
    assert Current(listenerArn, priority, ReadConditions(f).value, action) ==
           Some(CurrentAttributes(listenerArn, p, conditions, action));
    DeclarationMatches(c, f, p);
  }

  /** Formatted conditions read back and formatted again give the same `Conditions` value. */
  lemma ReadBackConditions(cs: seq<Condition>)
    requires FormattedConditions(cs).Some?
    ensures var f := FormattedConditions(cs).value;
      && ReadConditions(f).Some?
      && CurrentConditions(ReadConditions(f).value) == Some(if f == [] then Null else RuleConditionsJson(f))
  {
    ReformatFormatted(cs);
  }

  /** The declaration and a live rule holding exactly it agree on everything but tags and priority. */
  lemma DeclarationMatches(c: Config, f: seq<RuleCondition>, priority: Json)
    ensures var action := ActionDesc(Some(Or(c.actionType, "forward")), c.targetGroupArn);
      var current := CurrentAttributes(FromOption(c.listenerArn), priority, if f == [] then Null else RuleConditionsJson(f), action);
      Without(Attributes(c, f), Unprioritised) == Without(current, Unprioritised)
  {
    var action := ActionDesc(Some(Or(c.actionType, "forward")), c.targetGroupArn);
    var current := CurrentAttributes(FromOption(c.listenerArn), priority, if f == [] then Null else RuleConditionsJson(f), action);
    var a := Attributes(c, f);
    AttributesDeclared(c, f);
    forall k | k !in Unprioritised
      ensures (k in a <==> k in current) && (k in a ==> a[k] == current[k])
    {
      if k == "Actions" {
        assert current[k] == ActionsJson(Str(Or(c.actionType, "forward")), FromOption(c.targetGroupArn));
      }
    }
    WithoutEqual(a, current, Unprioritised);
  }

  /** A recorded listener other than the declared one always enqueues `update_rule`. */
  lemma ListenerChangeUpdates(c: Config, formatted: seq<RuleCondition>, listenerArn: Json, priority: Json,
                              conditions: Json, action: ActionDesc)
    requires c.listenerArn.Some? && listenerArn != Str(c.listenerArn.value)
    ensures Without(Attributes(c, formatted), Unprioritised) !=
            Without(CurrentAttributes(listenerArn, priority, conditions, action), Unprioritised)
  {
    var a := Without(Attributes(c, formatted), Unprioritised);
    assert "ListenerArn" in a && a["ListenerArn"] == Str(c.listenerArn.value);
  }

  /** A live action other than the declared one always enqueues `update_rule`. */
  lemma ActionChangeUpdates(c: Config, formatted: seq<RuleCondition>, listenerArn: Json, priority: Json,
                            conditions: Json, action: ActionDesc)
    requires action != ActionDesc(Some(Or(c.actionType, "forward")), c.targetGroupArn)
    ensures Without(Attributes(c, formatted), Unprioritised) !=
            Without(CurrentAttributes(listenerArn, priority, conditions, action), Unprioritised)
  {
    var a := Without(Attributes(c, formatted), Unprioritised);
    var b := Without(CurrentAttributes(listenerArn, priority, conditions, action), Unprioritised);
    var declared := ActionsJson(Str(Or(c.actionType, "forward")), FromOption(c.targetGroupArn));
    var live := ActionsJson(FromOption(action.actionType), FromOption(action.targetGroupArn));
    assert "Actions" in a && a["Actions"] == declared;
    assert "Actions" in b && b["Actions"] == live;
    if declared == live {
      ActionsJsonInjective(Str(Or(c.actionType, "forward")), FromOption(c.targetGroupArn),
                           FromOption(action.actionType), FromOption(action.targetGroupArn));
      assert false;
    }
  }

  /** The live priority AWS reports is parsed back to the number it was given as. */
  lemma RecordedPriorityParses(n: nat)
    ensures CurrentPriority(Some(NatStr(n))) == Some(Int(n))
  {
    ParseIntStr(n);
  }

  /** The priority AWS reports for a listener's default rule makes `int` raise. */
  lemma DefaultPriorityRaises()
    ensures CurrentPriority(Some("default")).None?
  {
    assert !('0' <= "default"[0] <= '9');
  }

  /** With a priority declared and a numeric live one, `update_rule_priority` is enqueued exactly when they differ. */
  lemma PriorityDecision(c: Config, formatted: seq<RuleCondition>, listenerArn: Json, live: nat, conditions: Json,
                         action: ActionDesc)
    requires c.priority.Some?
    ensures var current := CurrentAttributes(listenerArn, CurrentPriority(Some(NatStr(live))).value, conditions, action);
      Get(Attributes(c, formatted), "Priority") != Get(current, "Priority") <==> c.priority.value != live
  {
    RecordedPriorityParses(live);
  }

  /**
   * With no priority declared, `update_rule_priority` is enqueued on every
   * comparison: the declared `None` never equals the live number, nor the
   * `"None"` that stands for a missing one.
   */
  lemma UndeclaredPriorityAlwaysReapplied(c: Config, formatted: seq<RuleCondition>, listenerArn: Json,
                                          priority: Option<string>, conditions: Json, action: ActionDesc)
    requires c.priority.None? && CurrentPriority(priority).Some?
    ensures Get(Attributes(c, formatted), "Priority") !=
            Get(CurrentAttributes(listenerArn, CurrentPriority(priority).value, conditions, action), "Priority")
  {
  }

  // ---------------------------------------------------------------------------
  // create_rule, update_rule, update_rule_priority and delete_rule.

  /** Created: the rule is recorded for the later operations, and only tag operations are enqueued. */
  lemma CreateRecordsCreated(attributes: Dict, desiredTags: map<string, string>, region: string, w: World, props: Dict)
    requires Accepted(attributes, CreateRequired)
    requires w.create.Ok? && w.create.value != []
    requires RecordProps(w.create.value[0], Get(attributes, "ListenerArn")) == Some(props)
    ensures var e := CreateEffect(attributes, desiredTags, region, w);
      && e.state == map[ArnKey := Str(w.create.value[0].arn), "region" := Str(region)]
      && e.props == props
      && e.ops.Keys <= {RemoveTagsOp, SetTagsOp}
      && e.calls[0] == Request("create_rule", attributes, NoPayload)
  {
    var rule := w.create.value[0];
    var escape := LadderOn(CreatePermanent, CreateTitle, 20);
    var tags := TagLookupEffect(rule.arn, desiredTags, w.tags, RuleNotFound, escape);
    TagLookupConfined(rule.arn, desiredTags, w.tags, RuleNotFound, escape);
    var st := map[ArnKey := Str(rule.arn), "region" := Str(region)];
    var created := CreatedEffect(attributes, rule, desiredTags, region, w);
    assert created == Then(StateEffect(st), Then(PropsEffect(props), tags));
    var create := CallEffect("create_rule", attributes);
    assert CreateEffect(attributes, desiredTags, region, w) == Then(create, created);
    RecordShape(create, st, props, tags);
  }

  /** A create fault of one of the listed classes fails at progress 20 with the fault's text. */
  lemma CreateFailsOnPermanentFault(attributes: Dict, desiredTags: map<string, string>, region: string, w: World)
    requires Accepted(attributes, CreateRequired)
    requires w.create.Raised? && w.create.fault.exception in CreatePermanent
    ensures var e := CreateEffect(attributes, desiredTags, region, w);
      e.failure == Some(PermanentError(w.create.fault.message, 20)) && e.retry.None? && e.ops == map[] && e.state == map[]
  {
  }

  /** An answer without rules makes `response.get("Rules")[0]` raise. */
  lemma CreateWithoutRulesCrashes(attributes: Dict, desiredTags: map<string, string>, region: string, w: World)
    requires Accepted(attributes, CreateRequired)
    requires w.create == Ok([])
    ensures var e := CreateEffect(attributes, desiredTags, region, w);
      e.failure == Some(UnexpectedError) && e.ops == map[] && e.state == map[]
  {
  }

  /**
   * botocore accepts the `create_rule` request of a declaration exactly when
   * the listener, a condition, the priority and the target group are declared
   * and the formatted conditions hold no `None`.
   */
  lemma CreateAccepted(c: Config, formatted: seq<RuleCondition>)
    ensures Accepted(Attributes(c, formatted), CreateRequired) <==>
      && c.listenerArn.Some? && formatted != [] && c.priority.Some? && c.targetGroupArn.Some?
      && NoNone(RuleConditionsJson(formatted))
  {
    var a := Attributes(c, formatted);
    AttributesDeclared(c, formatted);
    ActionsNoNone(Str(Or(c.actionType, "forward")), FromOption(c.targetGroupArn));
    TagListNoNone(c.tags);
    if c.listenerArn.Some? && formatted != [] && c.priority.Some? && c.targetGroupArn.Some?
       && NoNone(RuleConditionsJson(formatted)) {
      forall k | k in a
        ensures NoNone(a[k])
      {
      }
    }
  }

  /** A request botocore refuses raises before anything is sent: the pass crashes and records nothing. */
  lemma CreateRefusedCrashes(attributes: Dict, desiredTags: map<string, string>, region: string, w: World)
    requires !Accepted(attributes, CreateRequired)
    ensures var e := CreateEffect(attributes, desiredTags, region, w);
      && e.failure == Some(UnexpectedError) && e.calls == []
      && e.ops == map[] && e.state == map[] && e.props == map[]
  {
  }

  /** A rule declared without a priority is never created: `'Priority': None` makes the create crash. */
  lemma CreateWithoutPriorityCrashes(c: Config, formatted: seq<RuleCondition>, desiredTags: map<string, string>,
                                     region: string, w: World)
    requires c.priority.None?
    ensures var e := CreateEffect(Attributes(c, formatted), desiredTags, region, w);
      e.failure == Some(UnexpectedError) && e.calls == []
  {
    CreateAccepted(c, formatted);
  }

  /**
   * `modify_rule` never sends the listener, the priority or the tags, yet the
   * recorded `listener_arn` becomes the declared one: a rule whose listener was
   * changed stays where it is, and the next comparison no longer sees the change.
   */
  lemma UpdateKeepsListener(attributes: Dict, state: Dict, out: Outcome<seq<RuleDesc>>)
    requires ArnKey in state && Accepted(ModifyRequest(attributes, state[ArnKey]), {"RuleArn"})
    ensures var e := UpdateEffect(attributes, state, out);
      && |e.calls| == 1 && e.calls[0] == Request("modify_rule", ModifyRequest(attributes, state[ArnKey]), NoPayload)
      && "ListenerArn" !in e.calls[0].params && "Priority" !in e.calls[0].params && "Tags" !in e.calls[0].params
      && e.ops == map[]
      && (out.Ok? && out.value != [] && RecordProps(out.value[0], Get(attributes, "ListenerArn")).Some? ==>
            e.props["listener_arn"] == Get(attributes, "ListenerArn"))
  {
    var request := ModifyRequest(attributes, state[ArnKey]);
    var call := CallEffect("modify_rule", request);
    var rest: Effect;
    match out {
      case Raised(f) =>
        rest := HandleEffect(f, {}, UpdatePermanent, CreateTitle, 20);
      case Ok(rules) =>
        rest := if rules == [] then CrashEffect
                else match RecordProps(rules[0], Get(attributes, "ListenerArn"))
                  case None => CrashEffect
                  case Some(props) => PropsEffect(props);
    }
    assert UpdateEffect(attributes, state, out) == Then(call, rest);
    CallFirst(call, rest);
  }

  /** An update fault of one of the listed classes fails at progress 20; `OperationNotPermittedException` is not one of them. */
  lemma UpdateFaults(attributes: Dict, state: Dict, f: Fault)
    requires ArnKey in state && Accepted(ModifyRequest(attributes, state[ArnKey]), {"RuleArn"})
    ensures var e := UpdateEffect(attributes, state, Raised(f));
      && (f.exception in UpdatePermanent ==> e.failure == Some(PermanentError(f.message, 20)) && e.retry.None?)
      && (f.exception !in UpdatePermanent ==> e == Then(CallEffect("modify_rule", ModifyRequest(attributes, state[ArnKey])),
                                                     CommonEffect(f, CreateTitle, 20)))
      && OperationNotPermitted !in UpdatePermanent
  {
  }

  /**
   * botocore refuses the `modify_rule` request of a declaration without a
   * target group, whose `TargetGroupArn` is `None`; the update then crashes
   * before anything is sent.
   */
  lemma UpdateWithoutTargetGroupCrashes(c: Config, formatted: seq<RuleCondition>, state: Dict, out: Outcome<seq<RuleDesc>>)
    requires c.targetGroupArn.None?
    ensures var e := UpdateEffect(Attributes(c, formatted), state, out);
      e.failure == Some(UnexpectedError) && e.calls == [] && e.props == map[]
  {
    AttributesDeclared(c, formatted);
    ActionsNoNone(Str(Or(c.actionType, "forward")), FromOption(c.targetGroupArn));
    if ArnKey in state {
      var request := ModifyRequest(Attributes(c, formatted), state[ArnKey]);
      assert "Actions" in request && !NoNone(request["Actions"]);
    }
  }

  /** A successful priority update records the priority under `Priority`, not under the `priority` that get and create record. */
  lemma PriorityRecordedUnderOtherKey(priority: Option<int>, state: Dict)
    requires ArnKey in state && NoNone(state[ArnKey]) && priority.Some?
    ensures var e := PriorityEffect(priority, state, Ok(()));
      e.props == map["Priority" := Int(priority.value)] && "priority" !in e.props && Quiet(e)
  {
    PriorityAccepted(state[ArnKey], priority);
  }

  /** botocore accepts the `set_rule_priorities` request exactly when a priority is declared and the recorded ARN holds no `None`. */
  lemma PriorityAccepted(arn: Json, priority: Option<int>)
    ensures Accepted(PriorityRequest(arn, PriorityJson(priority)), {"RulePriorities"}) <==> NoNone(arn) && priority.Some?
  {
    var pair := map["RuleArn" := arn, "Priority" := PriorityJson(priority)];
    var items := [Object(pair)];
    var request := PriorityRequest(arn, PriorityJson(priority));
    assert request.Keys == {"RulePriorities"} && request["RulePriorities"] == List(items);
    assert items[0] == Object(pair);
    assert NoNone(List(items)) <==> NoNone(Object(pair));
    assert NoNone(Object(pair)) <==> NoNone(pair["RuleArn"]) && NoNone(pair["Priority"]);
  }

  /**
   * Without a declared priority `update_rule_priority` sends `'Priority': None`,
   * which botocore refuses: the pass crashes and nothing is sent or recorded.
   */
  lemma PriorityWithoutDeclarationCrashes(state: Dict, out: Outcome<()>)
    ensures var e := PriorityEffect(None, state, out);
      e.failure == Some(UnexpectedError) && e.calls == [] && e.props == map[]
  {
    if ArnKey in state {
      PriorityAccepted(state[ArnKey], None);
    }
  }

  /**
   * A priority fault: `RuleNotFoundException` crashes, because its handler reads
   * the unbound `e`; a taken priority or a forbidden operation fails at 30;
   * anything else goes to the common handler at 80.
   */
  lemma PriorityFaults(priority: Option<int>, state: Dict, f: Fault)
    requires ArnKey in state && NoNone(state[ArnKey]) && priority.Some?
    ensures var e := PriorityEffect(priority, state, Raised(f));
      && (f.exception == RuleNotFound ==> e.failure == Some(UnexpectedError))
      && (f.exception in PriorityPermanent ==> e.failure == Some(PermanentError(f.message, 30)) && e.retry.None?)
      && (f.exception != RuleNotFound && f.exception !in PriorityPermanent && !f.exhausted ==>
            e.retry == Some(Retry(PriorityTitle, 80, None)) && e.failure.None?)
      && e.ops == map[] && e.props == map[]
  {
    PriorityAccepted(state[ArnKey], priority);
  }

  /** Deleting a rule that is already gone is quiet. */
  lemma DeleteNotFoundIsQuiet(state: Dict, f: Fault)
    requires ArnKey in state && f.exception == RuleNotFound
    ensures Quiet(DeleteEffect(state, Raised(f)))
  {
  }

  /** Any other delete fault goes to the common handler at progress 80. */
  lemma DeleteRetriesOtherFaults(state: Dict, f: Fault)
    requires ArnKey in state && f.exception != RuleNotFound
    ensures var e := DeleteEffect(state, Raised(f));
      && (f.exhausted ==> e.failure == Some(PermanentError("Error Deleting Listener Rule", 80)))
      && (!f.exhausted ==> e.retry == Some(Retry("Error Deleting Listener Rule", 80, None)) && e.failure.None?)
  {
  }
}
