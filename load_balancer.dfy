/**
 * The operations of load_balancer/lambda_function.py and the pass that runs
 * them. Each operation is a method that changes the handler step by step, as
 * the source does, and is proved to apply the `Effect` that a pure function of
 * its inputs and the AWS outcomes describes; the properties the source promises
 * are lemmas about those functions.
 */
module LoadBalancer {

  import opened Wrappers
  import opened PyValue
  import opened KeyValue
  import opened Extension
  import opened Tags
  import opened LoadBalancerAttributes

  /** A load balancer as `describe_load_balancers` and `create_load_balancer` return it. */
  datatype LoadBalancerDesc = LoadBalancerDesc(
    arn: string,
    name: Option<string>,
    dnsName: Option<string>,
    hostedZoneId: Option<string>,
    vpcId: Option<string>,
    loadBalancerType: Option<string>,
    securityGroups: Option<seq<string>>,
    subnets: seq<string>,
    scheme: Option<string>,
    ipAddressType: Option<string>,
    stateCode: Option<string>,
    stateReason: Option<string>)

  /** The subnets and address family that `set_subnets` reports back. */
  datatype Placement = Placement(subnets: seq<string>, ipAddressType: Option<string>)

  /** What AWS answers to each call that a pass may make. */
  datatype World = World(
    describe: Outcome<seq<LoadBalancerDesc>>,
    attributes: Outcome<seq<KeyValue>>,
    tags: Outcome<seq<TagDescription>>,
    create: Outcome<seq<LoadBalancerDesc>>,
    poll: Outcome<seq<LoadBalancerDesc>>,
    removeTags: Outcome<()>,
    addTags: Outcome<()>,
    setIpAddressType: Outcome<Option<string>>,
    setSecurityGroups: Outcome<Option<seq<string>>>,
    setSubnets: Outcome<Placement>,
    modifyAttributes: Outcome<()>,
    delete: Outcome<()>,
    epoch: string)

  const NotFound := LoadBalancerNotFound

  const GetOp := Op.GetLoadBalancer
  const DeleteOp := Op.DeleteLoadBalancer
  const CreateOp := Op.CreateLoadBalancer
  const CheckOp := Op.CheckLoadBalancerCreateComplete
  const RemoveTagsOp := Op.RemoveTags
  const SetTagsOp := Op.SetTags
  const SetIpOp := Op.SetIpAddressType
  const SetSecurityGroupsOp := Op.SetSecurityGroups
  const SetSubnetsOp := Op.SetSubnets
  const UpdateSpecialOp := Op.UpdateLoadBalancerSpecialAttributes
  const ResetSpecialOp := Op.ResetLoadBalancerSpecialAttributes

  /** The order in which `lambda_handler` offers the operations to run. */
  const Order: seq<Op> := [GetOp, DeleteOp, CreateOp, CheckOp, RemoveTagsOp, SetTagsOp,
                           SetIpOp, SetSecurityGroupsOp, SetSubnetsOp, UpdateSpecialOp, ResetSpecialOp]

  const ImmutableMessage := "You may not edit the name, scheme, or load balancer type of an existing load balancer. Please create a new component to get the desired configuration."

  /** The exception classes that `create_load_balancer` turns into `perm_error(str(e), 20)`. */
  const CreatePermanent: set<ErrorCode> := {
    DuplicateLoadBalancerName, TooManyLoadBalancers,
    InvalidConfigurationRequest, TooManyTags, SubnetNotFound,
    InvalidSubnet, InvalidSecurityGroup, InvalidScheme,
    DuplicateTagKeys, AvailabilityZoneNotSupported, OperationNotPermitted}

  /** The Props recorded for a found or created load balancer. */
  function LoadBalancerProps(name: Json, lb: LoadBalancerDesc): Dict
  {
    map[
      "name" := name,
      "arn" := Str(lb.arn),
      "dns_name" := FromOption(lb.dnsName),
      "canonical_hosted_zone_id" := FromOption(lb.hostedZoneId),
      "vpc_id" := FromOption(lb.vpcId),
      "load_balancer_type" := FromOption(lb.loadBalancerType),
      "security_groups" := OptionalList(lb.securityGroups),
      "subnets" := StrList(lb.subnets),
      "scheme" := FromOption(lb.scheme),
      "ip_address_type" := FromOption(lb.ipAddressType)]
  }

  /** Where a `ClientError` raised by the attribute or tag lookups lands: get's retry, or create's ladder. */
  datatype Caller = InGet | InCreate

  function EscapeOf(caller: Caller): Escape
  {
    match caller
    case InGet => RetryOn("Get Load Balancer Error", 10)
    case InCreate => LadderOn(CreatePermanent, "Error Creating Load Balancer", 20)
  }

  /** The follow-up operations of load_balancer/lambda_function.py:294-303 (and :407-418). */
  function FollowUpOps(ip: bool, subnets: bool, securityGroups: bool): map<Op, Payload>
  {
    (if ip then map[SetIpOp := NoPayload] else map[]) +
    (if subnets then map[SetSubnetsOp := NoPayload] else map[]) +
    (if securityGroups then map[SetSecurityGroupsOp := NoPayload] else map[])
  }

  /**
   * The special-attribute step once the live attributes are known: the merge
   * target when any special attribute is declared, the reset otherwise.
   */
  function SpecialEffect(caller: Caller, special: map<string, Special>, defaults: map<string, string>,
                         live: map<string, string>): Effect
  {
    if special != map[] then
      var target := MergeTarget(special, defaults, live);
      Then(StateEffect(map["update_special_attributes" := Object(StrMap(target))]),
           EnqueueEffect(UpdateSpecialOp, AttributePairs(target)))
    else
      Then(StateEffect(map["current_special_attributes" := Object(StrMap(live))]),
           EnqueueEffect(ResetSpecialOp, if caller == InGet then NoPayload else AttributePairs(live)))
  }

  /**
   * The special-attribute and tag lookups; a fault other than `LoadBalancerNotFoundException`
   * on the first leaves the enclosing `try` and skips the second.
   */
  function LookupEffect(caller: Caller, lb: LoadBalancerDesc, special: map<string, Special>, defaults: map<string, string>,
                        desiredTags: map<string, string>, w: World): Effect
  {
    var describe := CallEffect("describe_load_balancer_attributes", map["LoadBalancerArn" := Str(lb.arn)]);
    match w.attributes
    case Ok(kvs) =>
      Then(describe, Then(SpecialEffect(caller, special, defaults, LiveSpecial(kvs, lb.ipAddressType)),
                          TagLookupEffect(lb.arn, desiredTags, w.tags, NotFound, EscapeOf(caller))))
    case Raised(f) =>
      if f.exception == NotFound then Then(describe, TagLookupEffect(lb.arn, desiredTags, w.tags, NotFound, EscapeOf(caller)))
      else Then(describe, EscapeEffect(EscapeOf(caller), f))
  }

  /** Follow-up checks, then (unless they raised `KeyError`) the lookups. */
  function KnownEffect(caller: Caller, lb: LoadBalancerDesc, attributes: Dict, special: map<string, Special>,
                       defaults: map<string, string>, desiredTags: map<string, string>, prev: Dict, w: World): Effect
  {
    match FollowUpChecks(attributes, prev)
    case KeyErrorRaised(ip) => Then(Nothing.(ops := FollowUpOps(ip, false, false)), CrashEffect)
    case FollowUps(ip, subnets, sgs) =>
      Then(Nothing.(ops := FollowUpOps(ip, subnets, sgs)), LookupEffect(caller, lb, special, defaults, desiredTags, w))
  }

  /** `get_load_balancer`, as an effect. */
  function GetEffect(name: string, attributes: Dict, special: map<string, Special>, defaults: map<string, string>,
                     desiredTags: map<string, string>, region: string, prev: Dict, w: World): Effect
  {
    if NameChanged(prev, name) then FailEffect("Cannot Change Load Balancer Name", 0)
    else
      var describe := CallEffect("describe_load_balancers", map["Names" := StrList([name])]);
      match w.describe
      case Raised(f) =>
        Then(describe, if f.exception == NotFound then EnqueueEffect(CreateOp, NoPayload)
                       else RetryEffect("Get Load Balancer Error", 10, None))
      case Ok(lbs) =>
        if lbs == [] then describe
        else
          Then(describe, FoundEffect(name, lbs[0], attributes, special, defaults, desiredTags, region, prev, w))
  }

  /** What `get_load_balancer` does with the load balancer it found. */
  function FoundEffect(name: string, lb: LoadBalancerDesc, attributes: Dict, special: map<string, Special>,
                       defaults: map<string, string>, desiredTags: map<string, string>, region: string, prev: Dict,
                       w: World): Effect
  {
    Then(StateEffect(map["load_balancer_arn" := Str(lb.arn), "region" := Str(region)]),
         Then(PropsEffect(LoadBalancerProps(Str(name), lb)),
              KnownEffect(InGet, lb, attributes, special, defaults, desiredTags, prev, w)))
  }

  /** `create_load_balancer`, as an effect: an answer without load balancers makes `[0]` raise. */
  function CreateEffect(attributes: Dict, special: map<string, Special>, defaults: map<string, string>,
                        desiredTags: map<string, string>, region: string, prev: Dict, w: World): Effect
  {
    var create := CallEffect("create_load_balancer", attributes);
    match w.create
    case Raised(f) => Then(create, HandleEffect(f, {}, CreatePermanent, "Error Creating Load Balancer", 20))
    case Ok(lbs) =>
      if lbs == [] then Then(create, CrashEffect)
      else Then(create, CreatedEffect(lbs[0], attributes, special, defaults, desiredTags, region, prev, w))
  }

  /** What `create_load_balancer` does with the load balancer it created. */
  function CreatedEffect(lb: LoadBalancerDesc, attributes: Dict, special: map<string, Special>,
                         defaults: map<string, string>, desiredTags: map<string, string>, region: string, prev: Dict,
                         w: World): Effect
  {
    Then(StateEffect(map["load_balancer_arn" := Str(lb.arn), "region" := Str(region), "name" := FromOption(lb.name)]),
         Then(PropsEffect(LoadBalancerProps(FromOption(lb.name), lb)),
              Then(EnqueueEffect(CheckOp, NoPayload),
                   KnownEffect(InCreate, lb, attributes, special, defaults, desiredTags, prev, w))))
  }

  /** `check_load_balancer_create_complete`, as an effect. */
  function PollEffect(state: Dict, w: World): Effect
  {
    if "name" !in state then CrashEffect
    else
      var describe := CallEffect("describe_load_balancers", map["Names" := List([state["name"]])]);
      match w.poll
      case Raised(f) =>
        Then(describe, if f.exception == NotFound then Nothing else RetryEffect("Get Load Balancer Error", 10, None))
      case Ok(lbs) =>
        if lbs == [] then describe
        else
          var code := lbs[0].stateCode;
          if code == Some("active") || code == Some("active_impaired") then describe
          else if code == Some("failed") then
            Then(describe, FailEffect("Load Balancer Creation Failed " + lbs[0].stateReason.GetOr(""), 20))
          else Then(describe, RetryEffect(w.epoch, 30, Some(8)))
  }

  /** `set_ip_address_type`, as an effect. */
  function SetIpAddressTypeEffect(state: Dict, ipAddressType: string, out: Outcome<Option<string>>): Effect
  {
    if "load_balancer_arn" !in state || "region" !in state then CrashEffect
    else
      var call := CallEffect("set_ip_address_type",
                             map["LoadBalancerArn" := state["load_balancer_arn"], "IpAddressType" := Str(ipAddressType)]);
      match out
      case Ok(ip) => Then(call, PropsEffect(map["ip_address_type" := FromOption(ip)]))
      case Raised(f) =>
        Then(call, HandleEffect(f, {}, {NotFound, InvalidConfigurationRequest, InvalidSubnet},
                                "Error Updating Load Balancer", 70))
  }

  /** The parameters `set_security_groups` requires. */
  const SecurityGroupsRequired: set<string> := {"LoadBalancerArn", "SecurityGroups"}

  /** `set_security_groups`, as an effect: no declared security groups sends `None`, which botocore refuses. */
  function SetSecurityGroupsEffect(state: Dict, securityGroups: Option<seq<string>>, out: Outcome<Option<seq<string>>>): Effect
  {
    if "load_balancer_arn" !in state || "region" !in state then CrashEffect
    else
      var request := map["LoadBalancerArn" := state["load_balancer_arn"], "SecurityGroups" := OptionalList(securityGroups)];
      if !Accepted(request, SecurityGroupsRequired) then CrashEffect
      else
      var call := CallEffect("set_security_groups", request);
      match out
      case Ok(groups) => Then(call, PropsEffect(map["security_groups" := OptionalList(groups)]))
      case Raised(f) =>
        Then(call, HandleEffect(f, {}, {NotFound, InvalidConfigurationRequest, InvalidSecurityGroup},
                                "Error Updating Load Balancer", 70))
  }

  const SetSubnetsPermanent: set<ErrorCode> := {
    NotFound, InvalidConfigurationRequest, InvalidSubnet,
    SubnetNotFound, AvailabilityZoneNotSupported}

  /** `set_subnets`, as an effect: no declared subnets sends `None`, which botocore refuses. */
  function SetSubnetsEffect(state: Dict, c: Config, out: Outcome<Placement>): Effect
  {
    if "load_balancer_arn" !in state then CrashEffect
    else
      var request := SetSubnetsRequest(state["load_balancer_arn"], c.subnets, IpAddressType(c), LoadBalancerType(c));
      if !Accepted(request, {"LoadBalancerArn"}) then CrashEffect
      else
      var call := CallEffect("set_subnets", request);
      match out
      case Ok(p) => Then(call, PropsEffect(map["subnets" := StrList(p.subnets), "ip_address_type" := FromOption(p.ipAddressType)]))
      case Raised(f) => Then(call, HandleEffect(f, {}, SetSubnetsPermanent, "Error Updating Load Balancer", 70))
  }

  /** The ladder shared by the two `modify_load_balancer_attributes` call sites. */
  function ModifyEffect(target: map<string, string>, arn: Json, out: Outcome<()>): Effect
  {
    var call := CallWithEffect("modify_load_balancer_attributes", map["LoadBalancerArn" := arn], AttributePairs(target));
    match out
    case Ok(_) => call
    case Raised(f) =>
      Then(call, HandleEffect(f, {NotFound}, {InvalidConfigurationRequest},
                              "Error Updating Load Balancer Special Attributes", 80))
  }

  /** `update_load_balancer_special_attributes`, as an effect: it sends the target recorded in State. */
  function UpdateSpecialEffect(state: Dict, out: Outcome<()>): Effect
  {
    if "load_balancer_arn" !in state || "update_special_attributes" !in state then CrashEffect
    else match AsStrMap(state["update_special_attributes"])
      case None => CrashEffect
      case Some(target) => ModifyEffect(target, state["load_balancer_arn"], out)
  }

  /** `reset_load_balancer_special_attributes`, as an effect: the recorded live keys, set to their defaults. */
  function ResetSpecialEffect(state: Dict, defaults: map<string, string>, out: Outcome<()>): Effect
  {
    if "load_balancer_arn" !in state || "current_special_attributes" !in state
       || !state["current_special_attributes"].Object? then CrashEffect
    else ModifyEffect(ResetTarget(defaults, state["current_special_attributes"].fields.Keys), state["load_balancer_arn"], out)
  }

  /**
   * `delete_load_balancer`, as an effect. Its `OperationNotPermittedException`
   * handler reads `e`, which that clause never binds; the `NameError` reaches the
   * top-level handler.
   */
  function DeleteEffect(state: Dict, out: Outcome<()>): Effect
  {
    if "load_balancer_arn" !in state then CrashEffect
    else
      var call := CallEffect("delete_load_balancer", map["LoadBalancerArn" := state["load_balancer_arn"]]);
      match out
      case Ok(_) => call
      case Raised(f) =>
        Then(call,
          if f.exception == ResourceInUse then CommonEffect(f, "Error Deleting Load Balancer. Resource in Use.", 80)
          else if f.exception == OperationNotPermitted then CrashEffect
          else if f.exception == NotFound then Nothing
          else CommonEffect(f, "Error Deleting Load Balancer", 80))
  }

  // ---------------------------------------------------------------------------
  // The operations, step by step on the handler.

  /** Records the merge target or the live attributes, and enqueues the update or the reset. */
  method SpecialStep(h: Handler, caller: Caller, special: map<string, Special>, defaults: map<string, string>,
                     live: map<string, string>)
    modifies h
    ensures h.Applied(SpecialEffect(caller, special, defaults, live))
  {
    ghost var s0 := h.Now();
    if special != map[] {
      var target := MergeTarget(special, defaults, live);
      h.AddState(map["update_special_attributes" := Object(StrMap(target))]);
      h.AddOp(UpdateSpecialOp, AttributePairs(target));
      ThenAssoc(s0, StateEffect(map["update_special_attributes" := Object(StrMap(target))]),
                EnqueueEffect(UpdateSpecialOp, AttributePairs(target)));
    } else {
      var payload := if caller == InGet then NoPayload else AttributePairs(live);
      h.AddState(map["current_special_attributes" := Object(StrMap(live))]);
      h.AddOp(ResetSpecialOp, payload);
      ThenAssoc(s0, StateEffect(map["current_special_attributes" := Object(StrMap(live))]),
                EnqueueEffect(ResetSpecialOp, payload));
    }
  }

  /** The special-attribute and tag lookups of get and create. */
  method Lookups(h: Handler, caller: Caller, lb: LoadBalancerDesc, special: map<string, Special>,
                 defaults: map<string, string>, desiredTags: map<string, string>, w: World)
    modifies h
    ensures h.Applied(LookupEffect(caller, lb, special, defaults, desiredTags, w))
  {
    ghost var s0 := h.Now();
    var describe := CallEffect("describe_load_balancer_attributes", map["LoadBalancerArn" := Str(lb.arn)]);
    h.Call("describe_load_balancer_attributes", map["LoadBalancerArn" := Str(lb.arn)], NoPayload);
    match w.attributes {
      case Ok(kvs) =>
        var live := LiveSpecial(kvs, lb.ipAddressType);
        SpecialStep(h, caller, special, defaults, live);
        TagLookup(h, lb.arn, desiredTags, w.tags, NotFound, EscapeOf(caller));
        Chain3(s0, describe, SpecialEffect(caller, special, defaults, live), TagLookupEffect(lb.arn, desiredTags, w.tags, NotFound, EscapeOf(caller)));
      case Raised(f) =>
        if f.exception != NotFound {
          h.Escape(EscapeOf(caller), f);
          ThenAssoc(s0, describe, EscapeEffect(EscapeOf(caller), f));
        } else {
          TagLookup(h, lb.arn, desiredTags, w.tags, NotFound, EscapeOf(caller));
          ThenAssoc(s0, describe, TagLookupEffect(lb.arn, desiredTags, w.tags, NotFound, EscapeOf(caller)));
        }
    }
  }

  /** Enqueues the follow-up operations that the checks select. */
  method EnqueueFollowUps(h: Handler, ip: bool, subnets: bool, securityGroups: bool)
    modifies h`ops
    ensures h.ops == old(h.ops) + FollowUpOps(ip, subnets, securityGroups)
  {
    var a: map<Op, Payload> := if ip then map[SetIpOp := NoPayload] else map[];
    var b: map<Op, Payload> := if subnets then map[SetSubnetsOp := NoPayload] else map[];
    var c: map<Op, Payload> := if securityGroups then map[SetSecurityGroupsOp := NoPayload] else map[];
    if ip {
      h.AddOp(SetIpOp, NoPayload);
    }
    assert h.ops == old(h.ops) + a;
    if subnets {
      h.AddOp(SetSubnetsOp, NoPayload);
    }
    assert h.ops == old(h.ops) + a + b;
    if securityGroups {
      h.AddOp(SetSecurityGroupsOp, NoPayload);
    }
    assert h.ops == old(h.ops) + a + b + c;
    MergeAssoc(old(h.ops) + a, b, c);
    MergeAssoc(old(h.ops), a, b + c);
    MergeAssoc(a, b, c);
  }

  /** What get and create do once the load balancer is known. */
  method FollowUp(h: Handler, caller: Caller, lb: LoadBalancerDesc, attributes: Dict, special: map<string, Special>,
                  defaults: map<string, string>, desiredTags: map<string, string>, prev: Dict, w: World)
    modifies h
    ensures h.Applied(KnownEffect(caller, lb, attributes, special, defaults, desiredTags, prev, w))
  {
    var checks := FollowUpChecks(attributes, prev);
    match checks {
      case KeyErrorRaised(ip) =>
        FollowUpsThenCrash(h, ip);
      case FollowUps(ip, subnets, sgs) =>
        FollowUpsThenLookups(h, ip, subnets, sgs, caller, lb, special, defaults, desiredTags, w);
    }
  }

  /** The follow-ups enqueued before `attributes["load_balancer_type"]` raised. */
  method FollowUpsThenCrash(h: Handler, ip: bool)
    modifies h
    ensures h.Applied(Then(Nothing.(ops := FollowUpOps(ip, false, false)), CrashEffect))
  {
    ghost var s0 := h.Now();
    EnqueueFollowUps(h, ip, false, false);
    OnlyOps(s0, FollowUpOps(ip, false, false));
    h.Unexpected();
    ThenAssoc(s0, Nothing.(ops := FollowUpOps(ip, false, false)), CrashEffect);
  }

  /** The follow-ups, then the lookups. */
  method FollowUpsThenLookups(h: Handler, ip: bool, subnets: bool, sgs: bool, caller: Caller, lb: LoadBalancerDesc,
                              special: map<string, Special>, defaults: map<string, string>,
                              desiredTags: map<string, string>, w: World)
    modifies h
    ensures h.Applied(Then(Nothing.(ops := FollowUpOps(ip, subnets, sgs)), LookupEffect(caller, lb, special, defaults, desiredTags, w)))
  {
    ghost var s0 := h.Now();
    EnqueueFollowUps(h, ip, subnets, sgs);
    OnlyOps(s0, FollowUpOps(ip, subnets, sgs));
    Lookups(h, caller, lb, special, defaults, desiredTags, w);
    ThenAssoc(s0, Nothing.(ops := FollowUpOps(ip, subnets, sgs)), LookupEffect(caller, lb, special, defaults, desiredTags, w));
  }

  /** `get_load_balancer`. */
  method GetLoadBalancer(h: Handler, name: string, attributes: Dict, special: map<string, Special>,
                         defaults: map<string, string>, desiredTags: map<string, string>, region: string, prev: Dict, w: World)
    modifies h
    ensures h.Applied(GetEffect(name, attributes, special, defaults, desiredTags, region, prev, w))
  {
    if NameChanged(prev, name) {
      h.PermError("Cannot Change Load Balancer Name", 0);
      return;
    }
    ghost var s0 := h.Now();
    var describe := CallEffect("describe_load_balancers", map["Names" := StrList([name])]);
    h.Call("describe_load_balancers", map["Names" := StrList([name])], NoPayload);
    match w.describe {
      case Raised(f) =>
        if f.exception == NotFound {
          h.AddOp(CreateOp, NoPayload);
          ThenAssoc(s0, describe, EnqueueEffect(CreateOp, NoPayload));
        } else {
          h.RetryError("Get Load Balancer Error", 10, None);
          ThenAssoc(s0, describe, RetryEffect("Get Load Balancer Error", 10, None));
        }
      case Ok(lbs) =>
        if lbs != [] {
          var lb := lbs[0];
          Found(h, name, lb, attributes, special, defaults, desiredTags, region, prev, w);
          ThenAssoc(s0, describe, FoundEffect(name, lb, attributes, special, defaults, desiredTags, region, prev, w));
        }
    }
  }

  /** Records the found load balancer, then the follow-ups and lookups. */
  method Found(h: Handler, name: string, lb: LoadBalancerDesc, attributes: Dict, special: map<string, Special>,
               defaults: map<string, string>, desiredTags: map<string, string>, region: string, prev: Dict, w: World)
    modifies h
    ensures h.Applied(FoundEffect(name, lb, attributes, special, defaults, desiredTags, region, prev, w))
  {
    ghost var s0 := h.Now();
    var st := map["load_balancer_arn" := Str(lb.arn), "region" := Str(region)];
    h.AddState(st);
    h.AddProps(LoadBalancerProps(Str(name), lb));
    FollowUp(h, InGet, lb, attributes, special, defaults, desiredTags, prev, w);
    Chain3(s0, StateEffect(st), PropsEffect(LoadBalancerProps(Str(name), lb)),
           KnownEffect(InGet, lb, attributes, special, defaults, desiredTags, prev, w));
  }

  /** `create_load_balancer`. */
  method CreateLoadBalancer(h: Handler, attributes: Dict, special: map<string, Special>,
                            defaults: map<string, string>, desiredTags: map<string, string>, region: string, prev: Dict, w: World)
    modifies h
    ensures h.Applied(CreateEffect(attributes, special, defaults, desiredTags, region, prev, w))
  {
    ghost var s0 := h.Now();
    var create := CallEffect("create_load_balancer", attributes);
    h.Call("create_load_balancer", attributes, NoPayload);
    match w.create {
      case Raised(f) =>
        h.Handle(f, {}, CreatePermanent, "Error Creating Load Balancer", 20);
        ThenAssoc(s0, create, HandleEffect(f, {}, CreatePermanent, "Error Creating Load Balancer", 20));
      case Ok(lbs) =>
        if lbs == [] {
          h.Unexpected();
          ThenAssoc(s0, create, CrashEffect);
        } else {
          Created(h, lbs[0], attributes, special, defaults, desiredTags, region, prev, w);
          ThenAssoc(s0, create, CreatedEffect(lbs[0], attributes, special, defaults, desiredTags, region, prev, w));
        }
    }
  }

  /** Records the created load balancer, enqueues the poller, then the follow-ups and lookups. */
  method Created(h: Handler, lb: LoadBalancerDesc, attributes: Dict, special: map<string, Special>,
                 defaults: map<string, string>, desiredTags: map<string, string>, region: string, prev: Dict, w: World)
    modifies h
    ensures h.Applied(CreatedEffect(lb, attributes, special, defaults, desiredTags, region, prev, w))
  {
    ghost var s0 := h.Now();
    var st := map["load_balancer_arn" := Str(lb.arn), "region" := Str(region), "name" := FromOption(lb.name)];
    h.AddState(st);
    h.AddProps(LoadBalancerProps(FromOption(lb.name), lb));
    h.AddOp(CheckOp, NoPayload);
    FollowUp(h, InCreate, lb, attributes, special, defaults, desiredTags, prev, w);
    Chain4(s0, StateEffect(st), PropsEffect(LoadBalancerProps(FromOption(lb.name), lb)),
           EnqueueEffect(CheckOp, NoPayload), KnownEffect(InCreate, lb, attributes, special, defaults, desiredTags, prev, w));
  }

  /** `check_load_balancer_create_complete`. */
  method CheckCreateComplete(h: Handler, w: World)
    modifies h
    ensures h.Applied(PollEffect(old(h.state), w))
  {
    if "name" !in h.state {
      h.Unexpected();
      return;
    }
    ghost var s0 := h.Now();
    var describe := CallEffect("describe_load_balancers", map["Names" := List([h.state["name"]])]);
    h.Call("describe_load_balancers", map["Names" := List([h.state["name"]])], NoPayload);
    match w.poll {
      case Raised(f) =>
        if f.exception == NotFound {
          ThenAssoc(s0, describe, Nothing);
        } else {
          h.RetryError("Get Load Balancer Error", 10, None);
          ThenAssoc(s0, describe, RetryEffect("Get Load Balancer Error", 10, None));
        }
      case Ok(lbs) =>
        if lbs != [] {
          var code := lbs[0].stateCode;
          if code == Some("active") || code == Some("active_impaired") {
          } else if code == Some("failed") {
            h.PermError("Load Balancer Creation Failed " + lbs[0].stateReason.GetOr(""), 20);
            ThenAssoc(s0, describe, FailEffect("Load Balancer Creation Failed " + lbs[0].stateReason.GetOr(""), 20));
          } else {
            h.RetryError(w.epoch, 30, Some(8));
            ThenAssoc(s0, describe, RetryEffect(w.epoch, 30, Some(8)));
          }
        }
    }
  }

  /** `set_ip_address_type`. */
  method SetIpAddressType(h: Handler, ipAddressType: string, w: World)
    modifies h
    ensures h.Applied(SetIpAddressTypeEffect(old(h.state), ipAddressType, w.setIpAddressType))
  {
    if "load_balancer_arn" !in h.state || "region" !in h.state {
      h.Unexpected();
      return;
    }
    ghost var s0 := h.Now();
    var params := map["LoadBalancerArn" := h.state["load_balancer_arn"], "IpAddressType" := Str(ipAddressType)];
    h.Call("set_ip_address_type", params, NoPayload);
    match w.setIpAddressType {
      case Ok(ip) =>
        h.AddProps(map["ip_address_type" := FromOption(ip)]);
        ThenAssoc(s0, CallEffect("set_ip_address_type", params), PropsEffect(map["ip_address_type" := FromOption(ip)]));
      case Raised(f) =>
        var permanent := {NotFound, InvalidConfigurationRequest, InvalidSubnet};
        h.Handle(f, {}, permanent, "Error Updating Load Balancer", 70);
        ThenAssoc(s0, CallEffect("set_ip_address_type", params),
                  HandleEffect(f, {}, permanent, "Error Updating Load Balancer", 70));
    }
  }

  /** `set_security_groups`. */
  method SetSecurityGroups(h: Handler, securityGroups: Option<seq<string>>, w: World)
    modifies h
    ensures h.Applied(SetSecurityGroupsEffect(old(h.state), securityGroups, w.setSecurityGroups))
  {
    if "load_balancer_arn" !in h.state || "region" !in h.state {
      h.Unexpected();
      return;
    }
    ghost var s0 := h.Now();
    var params := map["LoadBalancerArn" := h.state["load_balancer_arn"], "SecurityGroups" := OptionalList(securityGroups)];
    if !Accepted(params, SecurityGroupsRequired) {
      h.Unexpected();
      return;
    }
    h.Call("set_security_groups", params, NoPayload);
    match w.setSecurityGroups {
      case Ok(groups) =>
        h.AddProps(map["security_groups" := OptionalList(groups)]);
        ThenAssoc(s0, CallEffect("set_security_groups", params), PropsEffect(map["security_groups" := OptionalList(groups)]));
      case Raised(f) =>
        var permanent := {NotFound, InvalidConfigurationRequest, InvalidSecurityGroup};
        h.Handle(f, {}, permanent, "Error Updating Load Balancer", 70);
        ThenAssoc(s0, CallEffect("set_security_groups", params),
                  HandleEffect(f, {}, permanent, "Error Updating Load Balancer", 70));
    }
  }

  /** `set_subnets`. */
  method SetSubnets(h: Handler, c: Config, w: World)
    modifies h
    ensures h.Applied(SetSubnetsEffect(old(h.state), c, w.setSubnets))
  {
    if "load_balancer_arn" !in h.state {
      h.Unexpected();
      return;
    }
    ghost var s0 := h.Now();
    var payload := SetSubnetsRequest(h.state["load_balancer_arn"], c.subnets, IpAddressType(c), LoadBalancerType(c));
    if !Accepted(payload, {"LoadBalancerArn"}) {
      h.Unexpected();
      return;
    }
    h.Call("set_subnets", payload, NoPayload);
    match w.setSubnets {
      case Ok(p) =>
        var recorded := map["subnets" := StrList(p.subnets), "ip_address_type" := FromOption(p.ipAddressType)];
        h.AddProps(recorded);
        ThenAssoc(s0, CallEffect("set_subnets", payload), PropsEffect(recorded));
      case Raised(f) =>
        h.Handle(f, {}, SetSubnetsPermanent, "Error Updating Load Balancer", 70);
        ThenAssoc(s0, CallEffect("set_subnets", payload),
                  HandleEffect(f, {}, SetSubnetsPermanent, "Error Updating Load Balancer", 70));
    }
  }

  /** The `modify_load_balancer_attributes` call and its ladder. */
  method Modify(h: Handler, target: map<string, string>, arn: Json, out: Outcome<()>)
    modifies h
    ensures h.Applied(ModifyEffect(target, arn, out))
  {
    ghost var s0 := h.Now();
    var params := map["LoadBalancerArn" := arn];
    h.Call("modify_load_balancer_attributes", params, AttributePairs(target));
    if out.Raised? {
      var title := "Error Updating Load Balancer Special Attributes";
      h.Handle(out.fault, {NotFound}, {InvalidConfigurationRequest}, title, 80);
      ThenAssoc(s0, CallWithEffect("modify_load_balancer_attributes", params, AttributePairs(target)),
                HandleEffect(out.fault, {NotFound}, {InvalidConfigurationRequest}, title, 80));
    }
  }

  /** `update_load_balancer_special_attributes`. */
  method UpdateSpecial(h: Handler, w: World)
    modifies h
    ensures h.Applied(UpdateSpecialEffect(old(h.state), w.modifyAttributes))
  {
    if "load_balancer_arn" !in h.state || "update_special_attributes" !in h.state {
      h.Unexpected();
      return;
    }
    match AsStrMap(h.state["update_special_attributes"]) {
      case None =>
        h.Unexpected();
      case Some(target) =>
        Modify(h, target, h.state["load_balancer_arn"], w.modifyAttributes);
    }
  }

  /** `reset_load_balancer_special_attributes`. */
  method ResetSpecial(h: Handler, defaults: map<string, string>, w: World)
    modifies h
    ensures h.Applied(ResetSpecialEffect(old(h.state), defaults, w.modifyAttributes))
  {
    if "load_balancer_arn" !in h.state || "current_special_attributes" !in h.state
       || !h.state["current_special_attributes"].Object? {
      h.Unexpected();
      return;
    }
    var target := ResetTarget(defaults, h.state["current_special_attributes"].fields.Keys);
    Modify(h, target, h.state["load_balancer_arn"], w.modifyAttributes);
  }

  /** `delete_load_balancer`. */
  method DeleteLoadBalancer(h: Handler, w: World)
    modifies h
    ensures h.Applied(DeleteEffect(old(h.state), w.delete))
  {
    if "load_balancer_arn" !in h.state {
      h.Unexpected();
      return;
    }
    ghost var s0 := h.Now();
    var params := map["LoadBalancerArn" := h.state["load_balancer_arn"]];
    h.Call("delete_load_balancer", params, NoPayload);
    if w.delete.Raised? {
      var f := w.delete.fault;
      if f.exception == ResourceInUse {
        h.HandleCommon(f, "Error Deleting Load Balancer. Resource in Use.", 80);
        ThenAssoc(s0, CallEffect("delete_load_balancer", params),
                  CommonEffect(f, "Error Deleting Load Balancer. Resource in Use.", 80));
      } else if f.exception == OperationNotPermitted {
        h.Unexpected();
        ThenAssoc(s0, CallEffect("delete_load_balancer", params), CrashEffect);
      } else if f.exception != NotFound {
        h.HandleCommon(f, "Error Deleting Load Balancer", 80);
        ThenAssoc(s0, CallEffect("delete_load_balancer", params), CommonEffect(f, "Error Deleting Load Balancer", 80));
      } else {
        ThenAssoc(s0, CallEffect("delete_load_balancer", params), Nothing);
      }
    }
  }

  // ---------------------------------------------------------------------------
  // One pass of `lambda_handler`.

  /** What a pass is invoked with, besides the ledger the platform hands back. */
  datatype Event = Event(
    op: string,
    /** `pass_back_data` is present: the pass resumes a retry and declares no starting point. */
    resumed: bool,
    /** `prev_state["props"]`, or nothing. */
    prev: Dict,
    config: Config,
    /** What `component_safe_name` produces for this component. */
    generatedName: string,
    region: string)

  /** What `lambda_handler` derives from the event before it runs the operations. */
  datatype Desired = Desired(
    config: Config,
    name: string,
    attributes: Dict,
    special: map<string, Special>,
    defaults: map<string, string>,
    tags: map<string, string>,
    region: string,
    prev: Dict)

  /** The position of an operation in `Order`. */
  function Rank(op: Op): nat
  {
    if op == GetOp then 0 else if op == DeleteOp then 1 else if op == CreateOp then 2
    else if op == CheckOp then 3 else if op == RemoveTagsOp then 4 else if op == SetTagsOp then 5
    else if op == SetIpOp then 6 else if op == SetSecurityGroupsOp then 7 else if op == SetSubnetsOp then 8
    else if op == UpdateSpecialOp then 9 else 10
  }

  /** The body of one of the lookup, delete and create operations. */
  method RunLifecycleOp(h: Handler, op: Op, d: Desired, w: World)
    modifies h
    ensures h.ran == old(h.ran)
    ensures op == DeleteOp ==> h.ops == old(h.ops) && h.calls == old(h.calls) + DeleteCalls(old(h.state))
  {
    if op == GetOp {
      GetLoadBalancer(h, d.name, d.attributes, d.special, d.defaults, d.tags, d.region, d.prev, w);
    } else if op == DeleteOp {
      DeleteLoadBalancer(h, w);
      DeleteEnqueuesNothing(old(h.state), w.delete);
    } else if op == CreateOp {
      CreateLoadBalancer(h, d.attributes, d.special, d.defaults, d.tags, d.region, d.prev, w);
    } else if op == CheckOp {
      CheckCreateComplete(h, w);
    }
  }

  /** The body of one of the update operations. */
  method RunUpdateOp(h: Handler, op: Op, d: Desired, w: World)
    modifies h
    ensures h.ran == old(h.ran)
  {
    if op == RemoveTagsOp {
      RunRemoveTags(h, "load_balancer_arn", NotFound, "Error Removing Load Balancer Tags", w.removeTags);
    } else if op == SetTagsOp {
      RunSetTags(h, "load_balancer_arn", NotFound, w.addTags);
    } else if op == SetIpOp {
      SetIpAddressType(h, IpAddressType(d.config), w);
    } else if op == SetSecurityGroupsOp {
      SetSecurityGroups(h, d.config.securityGroups, w);
    } else if op == SetSubnetsOp {
      SetSubnets(h, d.config, w);
    } else if op == UpdateSpecialOp {
      UpdateSpecial(h, w);
    } else if op == ResetSpecialOp {
      ResetSpecial(h, d.defaults, w);
    }
  }

  /** `@ext(op=...)` around one of the lifecycle operations: it runs when scheduled, after everything of lower rank. */
  method LifecycleStep(h: Handler, op: Op, d: Desired, w: World, ghost base: seq<Op>)
    requires Progress(h.ran, base, Rank(op), Rank)
    modifies h
    ensures Progress(h.ran, base, Rank(op) + 1, Rank)
    ensures h.ran == old(h.ran) + if old(h.Scheduled(op)) then [op] else []
    ensures !old(h.Scheduled(op)) ==> Idle(h)
    ensures op == DeleteOp && old(h.Scheduled(op)) ==>
              h.ops == old(h.ops) && h.calls == old(h.calls) + DeleteCalls(old(h.state))
  {
    var run := h.Begin(op);
    if run {
      RunNext(old(h.ran), base, op, Rank);
      RunLifecycleOp(h, op, d, w);
    } else {
      assert h.ran == old(h.ran);
      OrderedWeaken(h.ran[|base|..], Rank(op), Rank(op) + 1, Rank);
    }
  }

  /** `@ext(op=...)` around one of the update operations. */
  method UpdateStep(h: Handler, op: Op, d: Desired, w: World, ghost base: seq<Op>)
    requires Progress(h.ran, base, Rank(op), Rank)
    modifies h
    ensures Progress(h.ran, base, Rank(op) + 1, Rank)
    ensures Extends(h.ran, old(h.ran))
    ensures !old(h.Scheduled(op)) ==> Idle(h)
  {
    var run := h.Begin(op);
    if run {
      RunNext(old(h.ran), base, op, Rank);
      RunUpdateOp(h, op, d, w);
    } else {
      assert h.ran == old(h.ran);
      OrderedWeaken(h.ran[|base|..], Rank(op), Rank(op) + 1, Rank);
    }
  }

  const Updates: set<Op> := {RemoveTagsOp, SetTagsOp, SetIpOp, SetSecurityGroupsOp, SetSubnetsOp,
                                 UpdateSpecialOp, ResetSpecialOp}

  /** The lookup and the delete. */
  method DispatchLookup(h: Handler, d: Desired, w: World, ghost base: seq<Op>)
    requires Progress(h.ran, base, Rank(GetOp), Rank)
    modifies h
    ensures Progress(h.ran, base, Rank(DeleteOp) + 1, Rank)
    ensures Extends(h.ran, old(h.ran))
    ensures !old(h.Live()) ==> Idle(h)
    ensures old(h.Live()) && GetOp in old(h.ops) ==> |h.ran| > |old(h.ran)| && h.ran[|old(h.ran)|] == GetOp
    ensures old(h.Live()) && old(h.ops) == map[DeleteOp := NoPayload] ==>
              h.ops == old(h.ops) && h.ran == old(h.ran) + [DeleteOp] &&
              h.calls == old(h.calls) + DeleteCalls(old(h.state))
  {
    LifecycleStep(h, GetOp, d, w, base);
    LifecycleStep(h, DeleteOp, d, w, base);
  }

  /** The create and its poller. */
  method DispatchCreate(h: Handler, d: Desired, w: World, ghost base: seq<Op>)
    requires Progress(h.ran, base, Rank(CreateOp), Rank)
    modifies h
    ensures Progress(h.ran, base, Rank(CheckOp) + 1, Rank)
    ensures Extends(h.ran, old(h.ran))
    ensures !old(h.Live()) || (CreateOp !in old(h.ops) && CheckOp !in old(h.ops)) ==> Idle(h)
  {
    LifecycleStep(h, CreateOp, d, w, base);
    LifecycleStep(h, CheckOp, d, w, base);
  }

  /** The lookup, delete and create operations. */
  method DispatchLifecycle(h: Handler, d: Desired, w: World, ghost base: seq<Op>)
    requires Progress(h.ran, base, Rank(GetOp), Rank)
    modifies h
    ensures Progress(h.ran, base, Rank(CheckOp) + 1, Rank)
    ensures !old(h.Live()) ==> Idle(h)
    ensures old(h.Live()) && GetOp in old(h.ops) ==> |h.ran| > |old(h.ran)| && h.ran[|old(h.ran)|] == GetOp
    ensures old(h.Live()) && old(h.ops) == map[DeleteOp := NoPayload] ==>
              h.ops == old(h.ops) && h.ran == old(h.ran) + [DeleteOp] &&
              h.calls == old(h.calls) + DeleteCalls(old(h.state))
  {
    DispatchLookup(h, d, w, base);
    DispatchCreate(h, d, w, base);
  }

  /** The tag updates. */
  method DispatchTags(h: Handler, d: Desired, w: World, ghost base: seq<Op>)
    requires Progress(h.ran, base, Rank(RemoveTagsOp), Rank)
    modifies h
    ensures Progress(h.ran, base, Rank(SetTagsOp) + 1, Rank)
    ensures Extends(h.ran, old(h.ran))
    ensures !old(h.Live()) || old(h.ops).Keys !! Updates ==> Idle(h)
  {
    UpdateStep(h, RemoveTagsOp, d, w, base);
    UpdateStep(h, SetTagsOp, d, w, base);
  }

  /** The address type, security group and subnet updates. */
  method DispatchNetwork(h: Handler, d: Desired, w: World, ghost base: seq<Op>)
    requires Progress(h.ran, base, Rank(SetIpOp), Rank)
    modifies h
    ensures Progress(h.ran, base, Rank(SetSubnetsOp) + 1, Rank)
    ensures Extends(h.ran, old(h.ran))
    ensures !old(h.Live()) || old(h.ops).Keys !! Updates ==> Idle(h)
  {
    UpdateStep(h, SetIpOp, d, w, base);
    UpdateStep(h, SetSecurityGroupsOp, d, w, base);
    UpdateStep(h, SetSubnetsOp, d, w, base);
  }

  /** The special-attribute update or reset. */
  method DispatchSpecial(h: Handler, d: Desired, w: World, ghost base: seq<Op>)
    requires Progress(h.ran, base, Rank(UpdateSpecialOp), Rank)
    modifies h
    ensures Progress(h.ran, base, |Order|, Rank)
    ensures Extends(h.ran, old(h.ran))
    ensures !old(h.Live()) || old(h.ops).Keys !! Updates ==> Idle(h)
  {
    UpdateStep(h, UpdateSpecialOp, d, w, base);
    UpdateStep(h, ResetSpecialOp, d, w, base);
  }

  /** The network and special-attribute updates. */
  method DispatchSettings(h: Handler, d: Desired, w: World, ghost base: seq<Op>)
    requires Progress(h.ran, base, Rank(SetIpOp), Rank)
    modifies h
    ensures Progress(h.ran, base, |Order|, Rank)
    ensures Extends(h.ran, old(h.ran))
    ensures !old(h.Live()) || old(h.ops).Keys !! Updates ==> Idle(h)
  {
    DispatchNetwork(h, d, w, base);
    DispatchSpecial(h, d, w, base);
  }

  /** The tag, network and special-attribute updates. */
  method DispatchUpdates(h: Handler, d: Desired, w: World, ghost base: seq<Op>)
    requires Progress(h.ran, base, Rank(RemoveTagsOp), Rank)
    modifies h
    ensures Progress(h.ran, base, |Order|, Rank)
    ensures Extends(h.ran, old(h.ran))
    ensures !old(h.Live()) || old(h.ops).Keys !! Updates ==> Idle(h)
  {
    DispatchTags(h, d, w, base);
    DispatchSettings(h, d, w, base);
  }

  /** The operations of a pass, offered one by one in the fixed order. */
  method Dispatch(h: Handler, d: Desired, w: World)
    modifies h
    ensures Progress(h.ran, old(h.ran), |Order|, Rank)
    ensures !old(h.Live()) ==> h.ran == old(h.ran) && h.calls == old(h.calls) && h.failure == old(h.failure)
    ensures old(h.Live()) && GetOp in old(h.ops) ==> |h.ran| > |old(h.ran)| && h.ran[|old(h.ran)|] == GetOp
    ensures old(h.Live()) && old(h.ops) == map[DeleteOp := NoPayload] ==>
              h.ran == old(h.ran) + [DeleteOp] && h.calls == old(h.calls) + DeleteCalls(old(h.state))
  {
    ghost var base := h.ran;
    DispatchLifecycle(h, d, w, base);
    DispatchUpdates(h, d, w, base);
  }

  /** The one request `delete_load_balancer` makes: none when no ARN is recorded. */
  function DeleteCalls(state: Dict): seq<Request>
  {
    if "load_balancer_arn" in state then
      [Request("delete_load_balancer", map["LoadBalancerArn" := state["load_balancer_arn"]], NoPayload)]
    else []
  }

  /** `delete_load_balancer` never schedules another operation, and makes at most its one request. */
  lemma DeleteEnqueuesNothing(state: Dict, out: Outcome<()>)
    ensures DeleteEffect(state, out).ops == map[]
    ensures DeleteEffect(state, out).calls == DeleteCalls(state)
  {
  }

  /**
   * The starting point `lambda_handler` declares on a fresh pass: an upsert
   * enqueues the lookup (and fails at once when the immutable-field guard
   * fires), a delete enqueues the delete of the recorded ARN (and crashes when
   * none is recorded). A resumed pass declares nothing.
   */
  method Start(h: Handler, ev: Event, name: string) returns (go: bool)
    modifies h
    ensures h.ran == old(h.ran) && h.calls == old(h.calls) && h.retry == old(h.retry) && h.props == old(h.props)
    ensures go <==> ev.resumed || ev.op != "delete" || "arn" in ev.prev
    ensures ev.resumed || (ev.op != "upsert" && ev.op != "delete") ==>
              h.ops == old(h.ops) && h.state == old(h.state) && h.failure == old(h.failure)
    ensures !ev.resumed && ev.op == "upsert" ==>
              h.ops == old(h.ops)[GetOp := NoPayload] && h.state == old(h.state) &&
              h.failure == if UpsertGuardFires(ev.prev, name, ev.config) then Some(PermanentError(ImmutableMessage, 10))
                           else old(h.failure)
    ensures !ev.resumed && ev.op == "delete" ==> h.ops == old(h.ops)[DeleteOp := NoPayload]
    ensures !ev.resumed && ev.op == "delete" && "arn" !in ev.prev ==> h.failure == Some(UnexpectedError)
    ensures !ev.resumed && ev.op == "delete" && "arn" in ev.prev ==>
              h.state == old(h.state)[ "load_balancer_arn" := ev.prev["arn"]] && h.failure == old(h.failure)
  {
    go := true;
    if !ev.resumed {
      if ev.op == "upsert" {
        h.AddOp(GetOp, NoPayload);
        if UpsertGuardFires(ev.prev, name, ev.config) {
          h.PermError(ImmutableMessage, 10);
        }
      } else if ev.op == "delete" {
        h.AddOp(DeleteOp, NoPayload);
        if "arn" !in ev.prev {
          h.Unexpected();
          go := false;
        } else {
          h.AddState(map["load_balancer_arn" := ev.prev["arn"]]);
        }
      }
    }
  }

  /**
   * `lambda_handler` after `capture_event`: the attribute map, the starting point
   * and the operations in their fixed order.
   */
  method Reconcile(h: Handler, ev: Event, w: World)
    modifies h
    ensures |old(h.ran)| <= |h.ran| && h.ran[..|old(h.ran)|] == old(h.ran)
    ensures InOrder(h.ran[|old(h.ran)|..], Rank)
    ensures !ev.resumed && ev.op == "upsert" && old(h.Live())
            && UpsertGuardFires(ev.prev, Name(old(h.props), ev.config, ev.generatedName), ev.config) ==>
              h.failure == Some(PermanentError(ImmutableMessage, 10)) && h.ran == old(h.ran) && h.calls == old(h.calls)
    ensures !ev.resumed && ev.op == "upsert" && old(h.Live())
            && !UpsertGuardFires(ev.prev, Name(old(h.props), ev.config, ev.generatedName), ev.config) ==>
              |h.ran| > |old(h.ran)| && h.ran[|old(h.ran)|] == GetOp
    ensures !ev.resumed && ev.op == "delete" && "arn" !in ev.prev ==>
              h.failure == Some(UnexpectedError) && h.ran == old(h.ran) && h.calls == old(h.calls)
    ensures !ev.resumed && ev.op == "delete" && "arn" in ev.prev && old(h.Live()) && old(h.ops) == map[] ==>
              h.ran == old(h.ran) + [DeleteOp] &&
              h.calls == old(h.calls) + [Request("delete_load_balancer", map["LoadBalancerArn" := ev.prev["arn"]], NoPayload)]
  {
    var name := Name(h.props, ev.config, ev.generatedName);
    var go := Start(h, ev, name);
    if go {
      Dispatch(h, Desired(ev.config, name, Attributes(name, ev.config), SpecialAttributes(ev.config.special), Defaults(),
                          DesiredTags(ev.config.tags), ev.region, ev.prev), w);
      OrderedInOrder(h.ran[|old(h.ran)|..], |Order|, Rank);
    }
  }
}
