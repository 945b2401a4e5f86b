/**
 * What the load-balancer operations promise, stated about the effects they are
 * proved to apply: how a lookup is classified, what a found or created load
 * balancer leaves for the later operations, and how the poller and the delete
 * end.
 */
module LoadBalancerProperties {

  import opened Wrappers
  import opened PyValue
  import opened KeyValue
  import opened Extension
  import opened Tags
  import opened LoadBalancerAttributes
  import opened LoadBalancer

  const LookupKeys: set<string> := {"update_special_attributes", "current_special_attributes"}

  lemma LookupConfined(caller: Caller, lb: LoadBalancerDesc, special: map<string, Special>, defaults: map<string, string>,
                       desiredTags: map<string, string>, w: World)
    ensures Confined(LookupEffect(caller, lb, special, defaults, desiredTags, w), Updates, LookupKeys)
  {
    var describe := CallEffect("describe_load_balancer_attributes", map["LoadBalancerArn" := Str(lb.arn)]);
    var tags := TagLookupEffect(lb.arn, desiredTags, w.tags, NotFound, EscapeOf(caller));
    TagLookupConfined(lb.arn, desiredTags, w.tags, NotFound, EscapeOf(caller));
    match w.attributes
    case Ok(kvs) =>
      var sp := SpecialEffect(caller, special, defaults, LiveSpecial(kvs, lb.ipAddressType));
      ThenConfined(sp, tags, Updates, LookupKeys);
      ThenConfined(describe, Then(sp, tags), Updates, LookupKeys);
    case Raised(f) =>
      EscapeConfined(EscapeOf(caller), f);
      ThenConfined(describe, tags, Updates, LookupKeys);
      ThenConfined(describe, EscapeEffect(EscapeOf(caller), f), Updates, LookupKeys);
  }

  /** A known load balancer enqueues only updates, sets only the special-attribute State, and records no Props. */
  lemma KnownConfined(caller: Caller, lb: LoadBalancerDesc, attributes: Dict, special: map<string, Special>, defaults: map<string, string>,
                      desiredTags: map<string, string>, prev: Dict, w: World)
    ensures Confined(KnownEffect(caller, lb, attributes, special, defaults, desiredTags, prev, w), Updates, LookupKeys)
  {
    match FollowUpChecks(attributes, prev)
    case KeyErrorRaised(ip) =>
      ThenConfined(Nothing.(ops := FollowUpOps(ip, false, false)), CrashEffect, Updates, LookupKeys);
    case FollowUps(ip, subnets, sgs) =>
      LookupConfined(caller, lb, special, defaults, desiredTags, w);
      ThenConfined(Nothing.(ops := FollowUpOps(ip, subnets, sgs)), LookupEffect(caller, lb, special, defaults, desiredTags, w),
                   Updates, LookupKeys);
  }

  /** The lookup of `get_load_balancer`: `LoadBalancerNotFoundException` enqueues exactly the create, and returns. */
  lemma GetCreatesWhenNotFound(name: string, attributes: Dict, special: map<string, Special>, defaults: map<string, string>,
                               desiredTags: map<string, string>, region: string, prev: Dict, w: World)
    requires !NameChanged(prev, name)
    requires w.describe.Raised? && w.describe.fault.exception == NotFound
    ensures var e := GetEffect(name, attributes, special, defaults, desiredTags, region, prev, w);
      e.ops == map[CreateOp := NoPayload] && e.retry.None? && e.failure.None? && e.state == map[] && e.props == map[]
  {
  }

  /** Any other fault declares a retry at progress 10 and enqueues nothing. */
  lemma GetRetriesOnFault(name: string, attributes: Dict, special: map<string, Special>, defaults: map<string, string>,
                          desiredTags: map<string, string>, region: string, prev: Dict, w: World)
    requires !NameChanged(prev, name)
    requires w.describe.Raised? && w.describe.fault.exception != NotFound
    ensures var e := GetEffect(name, attributes, special, defaults, desiredTags, region, prev, w);
      e.ops == map[] && e.retry == Some(Retry("Get Load Balancer Error", 10, None)) && e.failure.None?
  {
  }

  /** An empty answer does nothing at all: in particular the create is not enqueued. */
  lemma GetIgnoresEmptyAnswer(name: string, attributes: Dict, special: map<string, Special>, defaults: map<string, string>,
                              desiredTags: map<string, string>, region: string, prev: Dict, w: World)
    requires !NameChanged(prev, name)
    requires w.describe == Ok([])
    ensures var e := GetEffect(name, attributes, special, defaults, desiredTags, region, prev, w);
      Quiet(e) && e.state == map[] && e.props == map[]
  {
  }

  /** A changed name stops `get_load_balancer` before any call, at progress 0. */
  lemma GetRefusesRename(name: string, attributes: Dict, special: map<string, Special>, defaults: map<string, string>,
                         desiredTags: map<string, string>, region: string, prev: Dict, w: World)
    requires "name" in prev && Truthy(prev["name"]) && prev["name"] != Str(name)
    ensures var e := GetEffect(name, attributes, special, defaults, desiredTags, region, prev, w);
      e.failure == Some(PermanentError("Cannot Change Load Balancer Name", 0)) && e.calls == [] && e.ops == map[]
  {
  }

  /** Found: the load balancer is recorded for the later operations, and only updates are enqueued. */
  lemma GetRecordsFound(name: string, attributes: Dict, special: map<string, Special>, defaults: map<string, string>,
                        desiredTags: map<string, string>, region: string, prev: Dict, w: World)
    requires !NameChanged(prev, name)
    requires w.describe.Ok? && w.describe.value != []
    ensures var e := GetEffect(name, attributes, special, defaults, desiredTags, region, prev, w);
      && "load_balancer_arn" in e.state && e.state["load_balancer_arn"] == Str(w.describe.value[0].arn)
      && "region" in e.state && e.state["region"] == Str(region)
      && e.props == LoadBalancerProps(Str(name), w.describe.value[0])
      && e.ops.Keys <= Updates
  {
    var lb := w.describe.value[0];
    var known := KnownEffect(InGet, lb, attributes, special, defaults, desiredTags, prev, w);
    var describe := CallEffect("describe_load_balancers", map["Names" := StrList([name])]);
    var st := map["load_balancer_arn" := Str(lb.arn), "region" := Str(region)];
    KnownConfined(InGet, lb, attributes, special, defaults, desiredTags, prev, w);
    assert "load_balancer_arn" !in LookupKeys && "region" !in LookupKeys;
    FoundShape(describe, st, LoadBalancerProps(Str(name), lb), known);
  }

  lemma FoundShape(describe: Effect, st: Dict, pr: Dict, known: Effect)
    requires describe.ops == map[] && describe.state == map[] && describe.props == map[]
    requires Confined(known, Updates, LookupKeys)
    ensures var e := Then(describe, Then(StateEffect(st), Then(PropsEffect(pr), known)));
      && e.ops.Keys <= Updates
      && (forall k | k in st && k !in LookupKeys :: k in e.state && e.state[k] == st[k])
      && e.props == pr
  {
    MergeEmpty(pr);
    MergeEmpty<string, Json>(map[]);
  }

  /**
   * botocore always accepts the `create_load_balancer` request: `Name` is always
   * there, and what `remove_none_attributes` keeps holds no `None`.
   */
  lemma CreateAccepted(name: string, c: Config)
    ensures Accepted(Attributes(name, c), {"Name"})
  {
    var a := Attributes(name, c);
    if c.subnets.Some? { StrListNoNone(c.subnets.value); }
    if c.securityGroups.Some? { StrListNoNone(c.securityGroups.value); }
    TagListNoNone(c.tags);
    forall k | k in a
      ensures NoNone(a[k])
    {
    }
  }

  /** Created: the load balancer and its name are recorded, the poller is enqueued, and otherwise only updates. */
  lemma CreateRecordsCreated(attributes: Dict, special: map<string, Special>, defaults: map<string, string>,
                             desiredTags: map<string, string>, region: string, prev: Dict, w: World)
    requires w.create.Ok? && w.create.value != []
    ensures var lb := w.create.value[0];
      var e := CreateEffect(attributes, special, defaults, desiredTags, region, prev, w);
      && "load_balancer_arn" in e.state && e.state["load_balancer_arn"] == Str(lb.arn)
      && "region" in e.state && e.state["region"] == Str(region)
      && "name" in e.state && e.state["name"] == FromOption(lb.name)
      && e.props == LoadBalancerProps(FromOption(lb.name), lb)
      && CheckOp in e.ops && e.ops.Keys <= Updates + {CheckOp}
  {
    var lb := w.create.value[0];
    var created := CreatedEffect(lb, attributes, special, defaults, desiredTags, region, prev, w);
    CreatedRecords(lb, attributes, special, defaults, desiredTags, region, prev, w);
    CallFirst(CallEffect("create_load_balancer", attributes), created);
  }

  /** An answer without load balancers makes `[0]` raise: the pass crashes and records nothing. */
  lemma CreateWithoutLoadBalancersCrashes(attributes: Dict, special: map<string, Special>, defaults: map<string, string>,
                                          desiredTags: map<string, string>, region: string, prev: Dict, w: World)
    requires w.create == Ok([])
    ensures var e := CreateEffect(attributes, special, defaults, desiredTags, region, prev, w);
      && e.failure == Some(UnexpectedError) && e.ops == map[] && e.state == map[] && e.props == map[]
      && e.calls == [Request("create_load_balancer", attributes, NoPayload)]
  {
  }

  /** What `create_load_balancer` records about the load balancer it created. */
  lemma CreatedRecords(lb: LoadBalancerDesc, attributes: Dict, special: map<string, Special>, defaults: map<string, string>,
                       desiredTags: map<string, string>, region: string, prev: Dict, w: World)
    ensures var e := CreatedEffect(lb, attributes, special, defaults, desiredTags, region, prev, w);
      && "load_balancer_arn" in e.state && e.state["load_balancer_arn"] == Str(lb.arn)
      && "region" in e.state && e.state["region"] == Str(region)
      && "name" in e.state && e.state["name"] == FromOption(lb.name)
      && e.props == LoadBalancerProps(FromOption(lb.name), lb)
      && CheckOp in e.ops && e.ops.Keys <= Updates + {CheckOp}
  {
    KnownConfined(InCreate, lb, attributes, special, defaults, desiredTags, prev, w);
    CreatedShape(Str(lb.arn), Str(region), FromOption(lb.name), LoadBalancerProps(FromOption(lb.name), lb),
                 KnownEffect(InCreate, lb, attributes, special, defaults, desiredTags, prev, w));
  }

  lemma CreatedShape(arn: Json, region: Json, name: Json, pr: Dict, known: Effect)
    requires Confined(known, Updates, LookupKeys)
    ensures var st := map["load_balancer_arn" := arn, "region" := region, "name" := name];
      var e := Then(StateEffect(st), Then(PropsEffect(pr), Then(EnqueueEffect(CheckOp, NoPayload), known)));
      && "load_balancer_arn" in e.state && e.state["load_balancer_arn"] == arn
      && "region" in e.state && e.state["region"] == region
      && "name" in e.state && e.state["name"] == name
      && e.props == pr
      && CheckOp in e.ops && e.ops.Keys <= Updates + {CheckOp}
  {
    assert "load_balancer_arn" !in LookupKeys && "region" !in LookupKeys && "name" !in LookupKeys;
    MergeEmpty(pr);
    MergeEmpty<string, Json>(map[]);
  }

  /** A create fault of one of the listed classes fails at progress 20 with the fault's text, and nothing is enqueued. */
  lemma CreateFailsOnPermanentFault(attributes: Dict, special: map<string, Special>, defaults: map<string, string>,
                                    desiredTags: map<string, string>, region: string, prev: Dict, w: World)
    requires w.create.Raised? && w.create.fault.exception in CreatePermanent
    ensures var e := CreateEffect(attributes, special, defaults, desiredTags, region, prev, w);
      e.failure == Some(PermanentError(w.create.fault.message, 20)) && e.retry.None? && e.ops == map[] && e.state == map[]
  {
  }

  /** Any other create fault goes to the common handler at progress 20. */
  lemma CreateRetriesOtherFaults(attributes: Dict, special: map<string, Special>, defaults: map<string, string>,
                                 desiredTags: map<string, string>, region: string, prev: Dict, w: World)
    requires w.create.Raised? && w.create.fault.exception !in CreatePermanent
    ensures var e := CreateEffect(attributes, special, defaults, desiredTags, region, prev, w);
      var f := w.create.fault;
      && e.ops == map[] && e.state == map[]
      && (f.exhausted ==> e.failure == Some(PermanentError("Error Creating Load Balancer", 20)))
      && (!f.exhausted ==> e.retry == Some(Retry("Error Creating Load Balancer", 20, None)) && e.failure.None?)
  {
  }

  /** The poller's active states end the wait without an error. */
  lemma PollActiveSucceeds(state: Dict, w: World)
    requires "name" in state
    requires w.poll.Ok? && w.poll.value != []
    requires w.poll.value[0].stateCode == Some("active") || w.poll.value[0].stateCode == Some("active_impaired")
    ensures Quiet(PollEffect(state, w))
  {
  }

  /** A failed creation fails the pass at progress 20 with the reason AWS gives. */
  lemma PollFailedFails(state: Dict, w: World)
    requires "name" in state
    requires w.poll.Ok? && w.poll.value != [] && w.poll.value[0].stateCode == Some("failed")
    ensures var e := PollEffect(state, w);
      && e.failure == Some(PermanentError("Load Balancer Creation Failed " + w.poll.value[0].stateReason.GetOr(""), 20))
      && e.retry.None? && e.ops == map[]
  {
  }

  /** Any other state waits: a retry at progress 30, called back after 8 seconds. */
  lemma PollPendingWaits(state: Dict, w: World)
    requires "name" in state
    requires w.poll.Ok? && w.poll.value != []
    requires w.poll.value[0].stateCode !in {Some("active"), Some("active_impaired"), Some("failed")}
    ensures var e := PollEffect(state, w);
      e.retry == Some(Retry(w.epoch, 30, Some(8))) && e.failure.None? && e.ops == map[]
  {
  }

  /** A load balancer that vanished during the wait ends the poller quietly, as an empty answer does. */
  lemma PollNotFoundIsQuiet(state: Dict, w: World)
    requires "name" in state
    requires (w.poll.Raised? && w.poll.fault.exception == NotFound) || w.poll == Ok([])
    ensures Quiet(PollEffect(state, w))
  {
  }

  /** Polling with no recorded name raises `KeyError`. */
  lemma PollWithoutNameCrashes(state: Dict, w: World)
    requires "name" !in state
    ensures PollEffect(state, w).failure == Some(UnexpectedError) && PollEffect(state, w).calls == []
  {
  }

  /** Deleting a load balancer that is already gone is not an error: the pass goes on. */
  lemma DeleteNotFoundIsQuiet(state: Dict, w: World)
    requires "load_balancer_arn" in state
    requires w.delete.Ok? || w.delete.fault.exception == NotFound
    ensures var e := DeleteEffect(state, w.delete);
      Quiet(e) && e.calls == [Request("delete_load_balancer", map["LoadBalancerArn" := state["load_balancer_arn"]], NoPayload)]
  {
  }

  /** A load balancer still in use goes to the common handler at progress 80. */
  lemma DeleteInUseRetries(state: Dict, w: World)
    requires "load_balancer_arn" in state
    requires w.delete.Raised? && w.delete.fault.exception == ResourceInUse
    ensures var e := DeleteEffect(state, w.delete);
      var title := "Error Deleting Load Balancer. Resource in Use.";
      && e.ops == map[]
      && (w.delete.fault.exhausted ==> e.failure == Some(PermanentError(title, 80)))
      && (!w.delete.fault.exhausted ==> e.retry == Some(Retry(title, 80, None)) && e.failure.None?)
  {
  }

  /** `OperationNotPermittedException` reaches the unbound `e` and ends the pass at the top level. */
  lemma DeleteNotPermittedCrashes(state: Dict, w: World)
    requires "load_balancer_arn" in state
    requires w.delete.Raised? && w.delete.fault.exception == OperationNotPermitted
    ensures DeleteEffect(state, w.delete).failure == Some(UnexpectedError)
  {
  }

  /** `set_ip_address_type` crashes exactly when no load balancer or region is recorded, and then sends nothing. */
  lemma SetIpAddressTypeCrashes(state: Dict, ipAddressType: string, out: Outcome<Option<string>>)
    ensures var e := SetIpAddressTypeEffect(state, ipAddressType, out);
      && (e.failure == Some(UnexpectedError) <==> "load_balancer_arn" !in state || "region" !in state)
      && (e.failure == Some(UnexpectedError) ==> e.calls == [])
  {
  }

  /** The address family AWS reports is recorded, and the pass goes on. */
  lemma SetIpAddressTypeRecords(state: Dict, ipAddressType: string, out: Outcome<Option<string>>)
    requires "load_balancer_arn" in state && "region" in state && out.Ok?
    ensures var e := SetIpAddressTypeEffect(state, ipAddressType, out);
      && Quiet(e) && e.state == map[] && e.props == map["ip_address_type" := FromOption(out.value)]
      && e.calls == [Request("set_ip_address_type",
                             map["LoadBalancerArn" := state["load_balancer_arn"], "IpAddressType" := Str(ipAddressType)],
                             NoPayload)]
  {
  }

  /** A listed fault fails at progress 70 with its text; any other goes to the common handler at progress 70. */
  lemma SetIpAddressTypeFaults(state: Dict, ipAddressType: string, out: Outcome<Option<string>>)
    requires "load_balancer_arn" in state && "region" in state && out.Raised?
    ensures var e := SetIpAddressTypeEffect(state, ipAddressType, out);
      var f := out.fault;
      && e.ops == map[] && e.state == map[] && e.props == map[]
      && (f.exception in {NotFound, InvalidConfigurationRequest, InvalidSubnet} ==>
            e.failure == Some(PermanentError(f.message, 70)) && e.retry.None?)
      && (f.exception !in {NotFound, InvalidConfigurationRequest, InvalidSubnet} ==>
            e == Then(e.(retry := None, failure := None), CommonEffect(f, "Error Updating Load Balancer", 70)))
  {
  }

  /**
   * `set_security_groups` crashes exactly when no load balancer or region is
   * recorded or botocore refuses the request, which it does when no security
   * groups are declared; a crash sends nothing.
   */
  lemma SetSecurityGroupsCrashes(state: Dict, securityGroups: Option<seq<string>>, out: Outcome<Option<seq<string>>>)
    ensures var e := SetSecurityGroupsEffect(state, securityGroups, out);
      && (e.failure == Some(UnexpectedError) <==>
            "load_balancer_arn" !in state || "region" !in state || securityGroups.None? || !NoNone(state["load_balancer_arn"]))
      && (e.failure == Some(UnexpectedError) ==> e.calls == [])
  {
    if securityGroups.Some? {
      StrListNoNone(securityGroups.value);
    }
  }

  /** The security groups AWS reports are recorded, and the pass goes on. */
  lemma SetSecurityGroupsRecords(state: Dict, securityGroups: Option<seq<string>>, out: Outcome<Option<seq<string>>>)
    requires "load_balancer_arn" in state && "region" in state && NoNone(state["load_balancer_arn"])
    requires securityGroups.Some? && out.Ok?
    ensures var e := SetSecurityGroupsEffect(state, securityGroups, out);
      && Quiet(e) && e.state == map[] && e.props == map["security_groups" := OptionalList(out.value)]
      && e.calls == [Request("set_security_groups",
                             map["LoadBalancerArn" := state["load_balancer_arn"], "SecurityGroups" := StrList(securityGroups.value)],
                             NoPayload)]
  {
    StrListNoNone(securityGroups.value);
  }

  /** A listed fault fails at progress 70 with its text; any other goes to the common handler at progress 70. */
  lemma SetSecurityGroupsFaults(state: Dict, securityGroups: Option<seq<string>>, out: Outcome<Option<seq<string>>>)
    requires "load_balancer_arn" in state && "region" in state && NoNone(state["load_balancer_arn"])
    requires securityGroups.Some? && out.Raised?
    ensures var e := SetSecurityGroupsEffect(state, securityGroups, out);
      var f := out.fault;
      && e.ops == map[] && e.state == map[] && e.props == map[]
      && (f.exception in {NotFound, InvalidConfigurationRequest, InvalidSecurityGroup} ==>
            e.failure == Some(PermanentError(f.message, 70)) && e.retry.None?)
      && (f.exception !in {NotFound, InvalidConfigurationRequest, InvalidSecurityGroup} ==>
            e == Then(e.(retry := None, failure := None), CommonEffect(f, "Error Updating Load Balancer", 70)))
  {
    StrListNoNone(securityGroups.value);
  }

  /**
   * `set_subnets` crashes exactly when no load balancer is recorded or
   * botocore refuses the request, which it does when no subnets are declared;
   * a crash sends nothing.
   */
  lemma SetSubnetsCrashes(state: Dict, c: Config, out: Outcome<Placement>)
    ensures var e := SetSubnetsEffect(state, c, out);
      && (e.failure == Some(UnexpectedError) <==>
            "load_balancer_arn" !in state || c.subnets.None? || !NoNone(state["load_balancer_arn"]))
      && (e.failure == Some(UnexpectedError) ==> e.calls == [])
  {
    if c.subnets.Some? {
      StrListNoNone(c.subnets.value);
    }
  }

  /** The subnets and address family AWS reports are recorded, and the pass goes on. */
  lemma SetSubnetsRecords(state: Dict, c: Config, out: Outcome<Placement>)
    requires "load_balancer_arn" in state && NoNone(state["load_balancer_arn"]) && c.subnets.Some? && out.Ok?
    ensures var e := SetSubnetsEffect(state, c, out);
      && Quiet(e) && e.state == map[]
      && e.props == map["subnets" := StrList(out.value.subnets), "ip_address_type" := FromOption(out.value.ipAddressType)]
      && e.calls == [Request("set_subnets", SetSubnetsRequest(state["load_balancer_arn"], c.subnets, IpAddressType(c),
                                                              LoadBalancerType(c)), NoPayload)]
  {
    StrListNoNone(c.subnets.value);
  }

  /** A listed fault fails at progress 70 with its text; any other goes to the common handler at progress 70. */
  lemma SetSubnetsFaults(state: Dict, c: Config, out: Outcome<Placement>)
    requires "load_balancer_arn" in state && NoNone(state["load_balancer_arn"]) && c.subnets.Some? && out.Raised?
    ensures var e := SetSubnetsEffect(state, c, out);
      var f := out.fault;
      && e.ops == map[] && e.state == map[] && e.props == map[]
      && (f.exception in SetSubnetsPermanent ==> e.failure == Some(PermanentError(f.message, 70)) && e.retry.None?)
      && (f.exception !in SetSubnetsPermanent ==>
            e == Then(e.(retry := None, failure := None), CommonEffect(f, "Error Updating Load Balancer", 70)))
  {
    StrListNoNone(c.subnets.value);
  }

  /**
   * The update partner of the merge: once a lookup recorded the merge target in
   * State, `update_load_balancer_special_attributes` sends exactly that target.
   */
  lemma UpdateSendsMergeTarget(caller: Caller, state: Dict, special: map<string, Special>, defaults: map<string, string>,
                               live: map<string, string>, out: Outcome<()>)
    requires special != map[] && "load_balancer_arn" in state
    ensures var recorded := state + SpecialEffect(caller, special, defaults, live).state;
      var target := MergeTarget(special, defaults, live);
      && UpdateSpecialEffect(recorded, out).calls ==
           [Request("modify_load_balancer_attributes", map["LoadBalancerArn" := state["load_balancer_arn"]], AttributePairs(target))]
      && UpdateSpecialEffect(recorded, out).failure != Some(UnexpectedError)
  {
    var target := MergeTarget(special, defaults, live);
    var recorded := state + SpecialEffect(caller, special, defaults, live).state;
    assert recorded["update_special_attributes"] == Object(StrMap(target));
    assert recorded["load_balancer_arn"] == state["load_balancer_arn"];
    StrMapRoundTrip(target);
  }

  /**
   * A lookup without declared special attributes records only the live ones:
   * what `update_load_balancer_special_attributes` would send is unchanged.
   */
  lemma ResetLookupLeavesUpdate(caller: Caller, state: Dict, defaults: map<string, string>, live: map<string, string>,
                                out: Outcome<()>)
    ensures var recorded := state + SpecialEffect(caller, map[], defaults, live).state;
      UpdateSpecialEffect(recorded, out).calls == UpdateSpecialEffect(state, out).calls
  {
  }

  /**
   * The update partner of the reset: once a lookup recorded the live attributes,
   * `reset_load_balancer_special_attributes` sends every live key that has a
   * default, set to that default.
   */
  lemma ResetSendsDefaults(caller: Caller, state: Dict, defaults: map<string, string>, live: map<string, string>,
                           out: Outcome<()>)
    requires "load_balancer_arn" in state
    ensures var recorded := state + SpecialEffect(caller, map[], defaults, live).state;
      var target := ResetTarget(defaults, live.Keys);
      && ResetSpecialEffect(recorded, defaults, out).calls ==
           [Request("modify_load_balancer_attributes", map["LoadBalancerArn" := state["load_balancer_arn"]], AttributePairs(target))]
      && target.Keys == live.Keys * defaults.Keys
  {
    var recorded := state + SpecialEffect(caller, map[], defaults, live).state;
    assert recorded["current_special_attributes"] == Object(StrMap(live));
    assert StrMap(live).Keys == live.Keys;
    assert recorded["load_balancer_arn"] == state["load_balancer_arn"];
    ResetTargetIsDefaults(defaults, live.Keys);
  }
}
