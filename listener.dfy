/**
 * The operations of listener/lambda_function.py, which keeps one ELBv2
 * listener in line with its declaration, and the pass that runs them. As for
 * the load balancer and the rule, each operation is a method proved to apply
 * the `Effect` that a pure function of its inputs and the AWS outcomes
 * describes.
 */
module Listener {

  import opened Wrappers
  import opened PyValue
  import opened KeyValue
  import opened Extension
  import opened Tags

  /** The fields of a default action that the handler reads. */
  datatype ActionDesc = ActionDesc(actionType: Option<string>, targetGroupArn: Option<string>)

  /** The field of a certificate entry that the handler reads. */
  datatype CertificateDesc = CertificateDesc(arn: Option<string>)

  /**
   * A listener as `describe_listeners`, `create_listener` and `modify_listener`
   * return it; `actions` and `certificates` are `None` when the answer has no
   * such entry.
   */
  datatype ListenerDesc = ListenerDesc(
    arn: string,
    loadBalancerArn: Option<string>,
    port: Option<int>,
    protocol: Option<string>,
    sslPolicy: Option<string>,
    actions: Option<seq<ActionDesc>>,
    certificates: Option<seq<CertificateDesc>>)

  /** What AWS answers to each call that a pass may make. */
  datatype World = World(
    describe: Outcome<seq<ListenerDesc>>,
    tags: Outcome<seq<TagDescription>>,
    create: Outcome<seq<ListenerDesc>>,
    modified: Outcome<seq<ListenerDesc>>,
    removeTags: Outcome<()>,
    addTags: Outcome<()>,
    delete: Outcome<()>)

  /** The component definition; a declared port is taken to be a number. */
  datatype Config = Config(
    loadBalancerArn: Option<string>,
    protocol: Option<string>,
    port: Option<int>,
    sslPolicy: Option<string>,
    certificateArn: Option<string>,
    actionType: Option<string>,
    targetGroupArn: Option<string>,
    tags: Items)

  const GetOp := Op.GetListener
  const DeleteOp := Op.DeleteListener
  const CreateOp := Op.CreateListener
  const UpdateOp := Op.UpdateListener
  const RemoveTagsOp := Op.RemoveTags
  const SetTagsOp := Op.SetTags

  /** The order in which `lambda_handler` offers the operations to run. */
  const Order: seq<Op> := [GetOp, DeleteOp, CreateOp, UpdateOp, RemoveTagsOp, SetTagsOp]

  const ArnKey := "listener_arn"
  const GetTitle := "Get Listener Error"
  const CreateTitle := "Error Creating Listener"
  const InUseTitle := "Error Deleting Listener. Resource in Use."
  const DeleteTitle := "Error Deleting Listener"
  const DefaultProtocol := "HTTPS"
  const DefaultPort := 443
  const DefaultSslPolicy := "ELBSecurityPolicy-TLS13-1-2-2021-06"
  const GuardMessage := "You may not edit the Load Balancer ARN or the port of an existing listener. Please create a new component to get the desired configuration."

  /** The exception classes that `create_listener` turns into `perm_error(str(e), 20)`. */
  const CreatePermanent: set<ErrorCode> := {
    DuplicateListener, TooManyListeners, TooManyCertificates, LoadBalancerNotFound,
    TargetGroupNotFound, TargetGroupAssociationLimit, InvalidConfigurationRequest,
    IncompatibleProtocols, SSLPolicyNotFound, CertificateNotFound, UnsupportedProtocol,
    TooManyRegistrationsForTargetId, TooManyTargets, TooManyActions, InvalidLoadBalancerAction,
    TooManyUniqueTargetGroupsPerLoadBalancer, TooManyTags}

  /** `update_listener` also fails permanently on a listener that is gone. */
  const UpdatePermanent: set<ErrorCode> := CreatePermanent + {ListenerNotFound}

  // ---------------------------------------------------------------------------
  // The attribute maps.

  /** `cdef.get("port") or 443`. */
  function PortOf(c: Config): int
  {
    if c.port.Some? && c.port.value != 0 then c.port.value else DefaultPort
  }

  /** The one-element `Certificates` list. */
  function CertificatesJson(arn: string): Json
  {
    List([Object(map["CertificateArn" := Str(arn)])])
  }

  /** The one-element `DefaultActions` list. */
  function ActionsJson(actionType: Json, targetGroupArn: Json): Json
  {
    List([Object(map["Type" := actionType, "TargetGroupArn" := targetGroupArn])])
  }

  /** The `DefaultActions` list keeps the type and the target group apart: distinct actions give distinct lists. */
  lemma ActionsJsonInjective(t1: Json, g1: Json, t2: Json, g2: Json)
    requires ActionsJson(t1, g1) == ActionsJson(t2, g2)
    ensures t1 == t2 && g1 == g2
  {
    var x := ActionsJson(t1, g1).items[0].fields;
    var y := ActionsJson(t2, g2).items[0].fields;
    assert x["Type"] == t1 && y["Type"] == t2;
    assert x["TargetGroupArn"] == g1 && y["TargetGroupArn"] == g2;
  }

  /** The `DefaultActions` list holds no `None` exactly when neither its type nor its target group does. */
  lemma ActionsNoNone(actionType: Json, targetGroupArn: Json)
    ensures NoNone(ActionsJson(actionType, targetGroupArn)) <==> NoNone(actionType) && NoNone(targetGroupArn)
  {
    var o := map["Type" := actionType, "TargetGroupArn" := targetGroupArn];
    assert ActionsJson(actionType, targetGroupArn).items[0] == Object(o);
    assert NoNone(Object(o)) <==> NoNone(o["Type"]) && NoNone(o["TargetGroupArn"]);
  }

  /** The attribute map of `lambda_handler`. */
  function Attributes(c: Config): Dict
  {
    var a := PutUnlessNone(map[], "LoadBalancerArn", FromOption(c.loadBalancerArn));
    var a := a["Protocol" := Str(Or(c.protocol, DefaultProtocol))]["Port" := Int(PortOf(c))];
    var a := a["SslPolicy" := Str(Or(c.sslPolicy, DefaultSslPolicy))];
    var a := if Truthy(FromOption(c.certificateArn)) then a["Certificates" := CertificatesJson(c.certificateArn.value)] else a;
    var a := a["DefaultActions" := ActionsJson(Str(Or(c.actionType, "forward")), FromOption(c.targetGroupArn))];
    PutUnlessNone(a, "Tags", if c.tags != [] then TagList(c.tags) else Null)
  }

  /** `x.get(key, [absent])[0]`: no first entry when the list is empty. */
  function First<T>(xs: Option<seq<T>>, absent: T): (r: Option<T>)
    ensures xs.None? ==> r == Some(absent)
    ensures xs.Some? ==> (r.None? <==> xs.value == []) && (r.Some? ==> r.value == xs.value[0])
  {
    match xs
    case None => Some(absent)
    case Some(list) => if list == [] then None else Some(list[0])
  }

  const NoAction := ActionDesc(None, None)
  const NoCertificate := CertificateDesc(None)

  /** The Props recorded for a found, created or modified listener, given its first action and certificate. */
  function ListenerProps(l: ListenerDesc, action: ActionDesc, cert: CertificateDesc): Dict
  {
    map[
      "arn" := Str(l.arn),
      "load_balancer_arn" := FromOption(l.loadBalancerArn),
      "port" := if l.port.Some? then Int(l.port.value) else Null,
      "protocol" := FromOption(l.protocol),
      "action_type" := FromOption(action.actionType),
      "target_group_arn" := FromOption(action.targetGroupArn),
      "ssl_policy" := FromOption(l.sslPolicy),
      "certificate_arn" := FromOption(cert.arn)]
  }

  /** The Props of a listener AWS returned, or `None` when taking its first action or certificate raises. */
  function RecordProps(l: ListenerDesc): Option<Dict>
  {
    match First(l.actions, NoAction)
    case None => None
    case Some(action) =>
      match First(l.certificates, NoCertificate)
      case None => None
      case Some(cert) => Some(ListenerProps(l, action, cert))
  }

  /**
   * The current attribute map of get_listener, built from the recorded Props
   * without their `None` values: `Protocol` and `SslPolicy` go through `str`,
   * which turns a missing value into `"None"`.
   */
  function CurrentAttributes(l: ListenerDesc, action: ActionDesc, cert: CertificateDesc): Dict
  {
    var a := PutUnlessNone(map[], "LoadBalancerArn", FromOption(l.loadBalancerArn));
    var a := a["Protocol" := Str(StrOrNone(l.protocol))];
    var a := if l.port.Some? then a["Port" := Int(l.port.value)] else a;
    var a := a["SslPolicy" := Str(StrOrNone(l.sslPolicy))];
    var a := if Truthy(FromOption(cert.arn)) then a["Certificates" := CertificatesJson(cert.arn.value)] else a;
    a["DefaultActions" := ActionsJson(FromOption(action.actionType), FromOption(action.targetGroupArn))]
  }

  /** `update_listener` when the attributes other than the tags differ from the current ones. */
  function UpdateOps(desired: Dict, current: Dict): map<Op, Payload>
  {
    if Without(desired, {"Tags"}) != current then map[UpdateOp := NoPayload] else map[]
  }

  /** The request of `modify_listener`: the attributes without tags and load balancer, addressed to the recorded listener. */
  function ModifyRequest(attributes: Dict, arn: Json): (r: Dict)
    ensures r.Keys == attributes.Keys - {"Tags", "LoadBalancerArn"} + {"ListenerArn"}
    ensures r["ListenerArn"] == arn
    ensures forall k | k in r && k != "ListenerArn" :: r[k] == attributes[k]
  {
    Without(attributes, {"Tags", "LoadBalancerArn"})["ListenerArn" := arn]
  }

  // ---------------------------------------------------------------------------
  // The operations, as effects.

  /** The comparison and the tag lookup of get_listener. */
  function CompareEffect(attributes: Dict, l: ListenerDesc, action: ActionDesc, cert: CertificateDesc,
                         desiredTags: map<string, string>, w: World): Effect
  {
    Then(Nothing.(ops := UpdateOps(attributes, CurrentAttributes(l, action, cert))),
         TagLookupEffect(l.arn, desiredTags, w.tags, ListenerNotFound, RetryOn(GetTitle, 10)))
  }

  /** What get_listener does with the listener it found. */
  function FoundEffect(attributes: Dict, l: ListenerDesc, desiredTags: map<string, string>, region: string,
                       w: World): Effect
  {
    Then(StateEffect(map[ArnKey := Str(l.arn), "region" := Str(region)]),
         match First(l.actions, NoAction)
         case None => CrashEffect
         case Some(action) =>
           match First(l.certificates, NoCertificate)
           case None => CrashEffect
           case Some(cert) =>
             Then(PropsEffect(ListenerProps(l, action, cert)), CompareEffect(attributes, l, action, cert, desiredTags, w)))
  }

  /** `get_listener`, as an effect. */
  function GetEffect(attributes: Dict, desiredTags: map<string, string>, region: string, prev: Dict, w: World): Effect
  {
    var existing := Get(prev, "arn");
    if !Truthy(existing) then EnqueueEffect(CreateOp, NoPayload)
    else
      var describe := CallEffect("describe_listeners", map["ListenerArns" := List([existing])]);
      match w.describe
      case Raised(f) =>
        Then(describe, if f.exception == ListenerNotFound then EnqueueEffect(CreateOp, NoPayload)
                       else RetryEffect(GetTitle, 10, None))
      case Ok(listeners) =>
        if listeners == [] then Then(describe, EnqueueEffect(CreateOp, NoPayload))
        else Then(describe, FoundEffect(attributes, listeners[0], desiredTags, region, w))
  }

  /** What create_listener does with the listener it created. */
  function CreatedEffect(l: ListenerDesc, desiredTags: map<string, string>, region: string, w: World): Effect
  {
    Then(StateEffect(map[ArnKey := Str(l.arn), "region" := Str(region)]),
         match RecordProps(l)
         case None => CrashEffect
         case Some(props) =>
           Then(PropsEffect(props),
                TagLookupEffect(l.arn, desiredTags, w.tags, ListenerNotFound, LadderOn(CreatePermanent, CreateTitle, 20))))
  }

  /** The parameters `create_listener` requires. */
  const CreateRequired: set<string> := {"LoadBalancerArn", "DefaultActions"}

  /**
   * `create_listener`, as an effect: botocore refuses a request that lacks a
   * required parameter or holds `None`, and an answer without listeners makes `[0]` raise.
   */
  function CreateEffect(attributes: Dict, desiredTags: map<string, string>, region: string, w: World): Effect
  {
    if !Accepted(attributes, CreateRequired) then CrashEffect
    else
    var create := CallEffect("create_listener", attributes);
    match w.create
    case Raised(f) => Then(create, HandleEffect(f, {}, CreatePermanent, CreateTitle, 20))
    case Ok(listeners) =>
      if listeners == [] then Then(create, CrashEffect)
      else Then(create, CreatedEffect(listeners[0], desiredTags, region, w))
  }

  /**
   * `update_listener`, as an effect: `modify_listener` of the recorded
   * listener, unless botocore refuses the request, then the Props of the answer.
   */
  function UpdateEffect(attributes: Dict, state: Dict, out: Outcome<seq<ListenerDesc>>): Effect
  {
    if ArnKey !in state || !Accepted(ModifyRequest(attributes, state[ArnKey]), {"ListenerArn"}) then CrashEffect
    else
      var call := CallEffect("modify_listener", ModifyRequest(attributes, state[ArnKey]));
      match out
      case Raised(f) => Then(call, HandleEffect(f, {}, UpdatePermanent, CreateTitle, 20))
      case Ok(listeners) =>
        if listeners == [] then Then(call, CrashEffect)
        else match RecordProps(listeners[0])
          case None => Then(call, CrashEffect)
          case Some(props) => Then(call, PropsEffect(props))
  }

  /** `delete_listener`, as an effect: a listener in use goes to the common handler, one already gone is not an error. */
  function DeleteEffect(state: Dict, out: Outcome<()>): Effect
  {
    if ArnKey !in state then CrashEffect
    else
      var call := CallEffect("delete_listener", map["ListenerArn" := state[ArnKey]]);
      match out
      case Ok(_) => call
      case Raised(f) =>
        Then(call, if f.exception == ResourceInUse then CommonEffect(f, InUseTitle, 80)
                   else HandleEffect(f, {ListenerNotFound}, {}, DeleteTitle, 80))
  }

  // ---------------------------------------------------------------------------
  // The operations, step by step on the handler.

  /** Enqueues the update the comparison selects. */
  method EnqueueUpdate(h: Handler, desired: Dict, current: Dict)
    modifies h`ops
    ensures h.ops == old(h.ops) + UpdateOps(desired, current)
  {
    if Without(desired, {"Tags"}) != current {
      h.AddOp(UpdateOp, NoPayload);
    } else {
      MergeEmpty(h.ops);
    }
  }

  /** Compares the current attributes with the declared ones, then looks up the tags. */
  method Compare(h: Handler, attributes: Dict, l: ListenerDesc, action: ActionDesc, cert: CertificateDesc,
                 desiredTags: map<string, string>, w: World)
    modifies h
    ensures h.Applied(CompareEffect(attributes, l, action, cert, desiredTags, w))
  {
    ghost var s0 := h.Now();
    var ops := UpdateOps(attributes, CurrentAttributes(l, action, cert));
    EnqueueUpdate(h, attributes, CurrentAttributes(l, action, cert));
    OnlyOps(s0, ops);
    var escape := RetryOn(GetTitle, 10);
    TagLookup(h, l.arn, desiredTags, w.tags, ListenerNotFound, escape);
    ThenAssoc(s0, Nothing.(ops := ops), TagLookupEffect(l.arn, desiredTags, w.tags, ListenerNotFound, escape));
  }

  /** Records the found listener, then compares and looks up the tags. */
  method Found(h: Handler, attributes: Dict, l: ListenerDesc, desiredTags: map<string, string>, region: string, w: World)
    modifies h
    ensures h.Applied(FoundEffect(attributes, l, desiredTags, region, w))
  {
    ghost var s0 := h.Now();
    var st := map[ArnKey := Str(l.arn), "region" := Str(region)];
    h.AddState(st);
    var action := First(l.actions, NoAction);
    var cert := First(l.certificates, NoCertificate);
    if action.None? || cert.None? {
      h.Unexpected();
      ThenAssoc(s0, StateEffect(st), CrashEffect);
      return;
    }
    var props := ListenerProps(l, action.value, cert.value);
    h.AddProps(props);
    Compare(h, attributes, l, action.value, cert.value, desiredTags, w);
    Chain3(s0, StateEffect(st), PropsEffect(props), CompareEffect(attributes, l, action.value, cert.value, desiredTags, w));
  }

  /** `get_listener`. */
  method GetListener(h: Handler, attributes: Dict, desiredTags: map<string, string>, region: string, prev: Dict, w: World)
    modifies h
    ensures h.Applied(GetEffect(attributes, desiredTags, region, prev, w))
  {
    var existing := Get(prev, "arn");
    if !Truthy(existing) {
      h.AddOp(CreateOp, NoPayload);
      return;
    }
    ghost var s0 := h.Now();
    var describe := CallEffect("describe_listeners", map["ListenerArns" := List([existing])]);
    h.Call("describe_listeners", map["ListenerArns" := List([existing])], NoPayload);
    match w.describe {
      case Raised(f) =>
        if f.exception == ListenerNotFound {
          h.AddOp(CreateOp, NoPayload);
          ThenAssoc(s0, describe, EnqueueEffect(CreateOp, NoPayload));
        } else {
          h.RetryError(GetTitle, 10, None);
          ThenAssoc(s0, describe, RetryEffect(GetTitle, 10, None));
        }
      case Ok(listeners) =>
        if listeners == [] {
          h.AddOp(CreateOp, NoPayload);
          ThenAssoc(s0, describe, EnqueueEffect(CreateOp, NoPayload));
        } else {
          Found(h, attributes, listeners[0], desiredTags, region, w);
          ThenAssoc(s0, describe, FoundEffect(attributes, listeners[0], desiredTags, region, w));
        }
    }
  }

  /** Records the created listener, then looks up its tags. */
  method Created(h: Handler, l: ListenerDesc, desiredTags: map<string, string>, region: string, w: World)
    modifies h
    ensures h.Applied(CreatedEffect(l, desiredTags, region, w))
  {
    ghost var s0 := h.Now();
    var st := map[ArnKey := Str(l.arn), "region" := Str(region)];
    h.AddState(st);
    var props := RecordProps(l);
    if props.None? {
      h.Unexpected();
      ThenAssoc(s0, StateEffect(st), CrashEffect);
      return;
    }
    h.AddProps(props.value);
    var escape := LadderOn(CreatePermanent, CreateTitle, 20);
    TagLookup(h, l.arn, desiredTags, w.tags, ListenerNotFound, escape);
    Chain3(s0, StateEffect(st), PropsEffect(props.value), TagLookupEffect(l.arn, desiredTags, w.tags, ListenerNotFound, escape));
  }

  /** `create_listener`. */
  method CreateListener(h: Handler, attributes: Dict, desiredTags: map<string, string>, region: string, w: World)
    modifies h
    ensures h.Applied(CreateEffect(attributes, desiredTags, region, w))
  {
    if !Accepted(attributes, CreateRequired) {
      h.Unexpected();
      return;
    }
    ghost var s0 := h.Now();
    var create := CallEffect("create_listener", attributes);
    h.Call("create_listener", attributes, NoPayload);
    match w.create {
      case Raised(f) =>
        h.Handle(f, {}, CreatePermanent, CreateTitle, 20);
        ThenAssoc(s0, create, HandleEffect(f, {}, CreatePermanent, CreateTitle, 20));
      case Ok(listeners) =>
        if listeners == [] {
          h.Unexpected();
          ThenAssoc(s0, create, CrashEffect);
        } else {
          Created(h, listeners[0], desiredTags, region, w);
          ThenAssoc(s0, create, CreatedEffect(listeners[0], desiredTags, region, w));
        }
    }
  }

  /** `update_listener`. */
  method UpdateListener(h: Handler, attributes: Dict, w: World)
    modifies h
    ensures h.Applied(UpdateEffect(attributes, old(h.state), w.modified))
  {
    if ArnKey !in h.state {
      h.Unexpected();
      return;
    }
    var request := ModifyRequest(attributes, h.state[ArnKey]);
    if !Accepted(request, {"ListenerArn"}) {
      h.Unexpected();
      return;
    }
    ghost var s0 := h.Now();
    var call := CallEffect("modify_listener", request);
    h.Call("modify_listener", request, NoPayload);
    match w.modified {
      case Raised(f) =>
        h.Handle(f, {}, UpdatePermanent, CreateTitle, 20);
        ThenAssoc(s0, call, HandleEffect(f, {}, UpdatePermanent, CreateTitle, 20));
      case Ok(listeners) =>
        var props := if listeners == [] then None else RecordProps(listeners[0]);
        if props.None? {
          h.Unexpected();
          ThenAssoc(s0, call, CrashEffect);
        } else {
          h.AddProps(props.value);
          ThenAssoc(s0, call, PropsEffect(props.value));
        }
    }
  }

  /** `delete_listener`. */
  method DeleteListener(h: Handler, w: World)
    modifies h
    ensures h.Applied(DeleteEffect(old(h.state), w.delete))
  {
    if ArnKey !in h.state {
      h.Unexpected();
      return;
    }
    ghost var s0 := h.Now();
    var params := map["ListenerArn" := h.state[ArnKey]];
    var call := CallEffect("delete_listener", params);
    h.Call("delete_listener", params, NoPayload);
    if w.delete.Raised? {
      var f := w.delete.fault;
      if f.exception == ResourceInUse {
        h.HandleCommon(f, InUseTitle, 80);
        ThenAssoc(s0, call, CommonEffect(f, InUseTitle, 80));
      } else {
        h.Handle(f, {ListenerNotFound}, {}, DeleteTitle, 80);
        ThenAssoc(s0, call, HandleEffect(f, {ListenerNotFound}, {}, DeleteTitle, 80));
      }
    }
  }

  // ---------------------------------------------------------------------------
  // One pass of `lambda_handler`.

  /** What a pass is invoked with, besides the ledger the platform hands back. */
  datatype Event = Event(
    op: string,
    /** `pass_back_data` is present: the pass resumes a retry and declares no starting point. */
    resumed: bool,
    /** `prev_state["props"]`, or nothing. */
    prev: Dict,
    config: Config,
    region: string)

  /** What `lambda_handler` derives from the event before it runs the operations. */
  datatype Desired = Desired(
    attributes: Dict,
    tags: map<string, string>,
    region: string,
    prev: Dict)

  /** The position of an operation in `Order`. */
  function Rank(op: Op): nat
  {
    if op == GetOp then 0 else if op == DeleteOp then 1 else if op == CreateOp then 2
    else if op == UpdateOp then 3 else if op == RemoveTagsOp then 4
    else 5
  }

  /** The one request `delete_listener` makes: none when no ARN is recorded. */
  function DeleteCalls(state: Dict): seq<Request>
  {
    if ArnKey in state then [Request("delete_listener", map["ListenerArn" := state[ArnKey]], NoPayload)] else []
  }

  /** `delete_listener` never schedules another operation, and makes at most its one request. */
  lemma DeleteEnqueuesNothing(state: Dict, out: Outcome<()>)
    ensures DeleteEffect(state, out).ops == map[]
    ensures DeleteEffect(state, out).calls == DeleteCalls(state)
  {
  }

  /** The body of the lookup, the delete or the create. */
  method RunLifecycleOp(h: Handler, op: Op, d: Desired, w: World)
    modifies h
    ensures h.ran == old(h.ran)
    ensures op == DeleteOp ==> h.ops == old(h.ops) && h.calls == old(h.calls) + DeleteCalls(old(h.state))
  {
    if op == GetOp {
      GetListener(h, d.attributes, d.tags, d.region, d.prev, w);
    } else if op == DeleteOp {
      DeleteListener(h, w);
      DeleteEnqueuesNothing(old(h.state), w.delete);
    } else if op == CreateOp {
      CreateListener(h, d.attributes, d.tags, d.region, w);
    }
  }

  /** The body of the update or of one of the tag operations. */
  method RunUpdateOp(h: Handler, op: Op, d: Desired, w: World)
    modifies h
    ensures h.ran == old(h.ran)
  {
    if op == UpdateOp {
      UpdateListener(h, d.attributes, w);
    } else if op == RemoveTagsOp {
      RunRemoveTags(h, ArnKey, ListenerNotFound, "Error Removing Listener Tags", w.removeTags);
    } else if op == SetTagsOp {
      RunSetTags(h, ArnKey, ListenerNotFound, w.addTags);
    }
  }

  /** `@ext(op=...)` around the lookup, the delete or the create. */
  method LifecycleStep(h: Handler, op: Op, d: Desired, w: World, ghost base: seq<Op>)
    requires Progress(h.ran, base, Rank(op), Rank)
    modifies h
    ensures Progress(h.ran, base, Rank(op) + 1, Rank)
    ensures h.ran == old(h.ran) + if old(h.Scheduled(op)) then [op] else []
    ensures !old(h.Scheduled(op)) ==> Idle(h)
    ensures op == DeleteOp && old(h.Scheduled(op)) ==>
              h.ops == old(h.ops) && h.calls == old(h.calls) + DeleteCalls(old(h.state))
  {
    var run := h.Begin(op);
    if run {
      RunNext(old(h.ran), base, op, Rank);
      RunLifecycleOp(h, op, d, w);
    } else {
      assert h.ran == old(h.ran);
      OrderedWeaken(h.ran[|base|..], Rank(op), Rank(op) + 1, Rank);
    }
  }

  /** `@ext(op=...)` around the update or one of the tag operations. */
  method UpdateStep(h: Handler, op: Op, d: Desired, w: World, ghost base: seq<Op>)
    requires Progress(h.ran, base, Rank(op), Rank)
    modifies h
    ensures Progress(h.ran, base, Rank(op) + 1, Rank)
    ensures Extends(h.ran, old(h.ran))
    ensures !old(h.Scheduled(op)) ==> Idle(h)
  {
    var run := h.Begin(op);
    if run {
      RunNext(old(h.ran), base, op, Rank);
      RunUpdateOp(h, op, d, w);
    } else {
      assert h.ran == old(h.ran);
      OrderedWeaken(h.ran[|base|..], Rank(op), Rank(op) + 1, Rank);
    }
  }

  /** The operations that follow the lookup and the delete. */
  const Later: set<Op> := {CreateOp, UpdateOp, RemoveTagsOp, SetTagsOp}

  /** The lookup and the delete. */
  method DispatchLookup(h: Handler, d: Desired, w: World, ghost base: seq<Op>)
    requires Progress(h.ran, base, Rank(GetOp), Rank)
    modifies h
    ensures Progress(h.ran, base, Rank(DeleteOp) + 1, Rank)
    ensures Extends(h.ran, old(h.ran))
    ensures !old(h.Live()) ==> Idle(h)
    ensures old(h.Live()) && GetOp in old(h.ops) ==> |h.ran| > |old(h.ran)| && h.ran[|old(h.ran)|] == GetOp
    ensures old(h.Live()) && old(h.ops) == map[DeleteOp := NoPayload] ==>
              h.ops == old(h.ops) && h.ran == old(h.ran) + [DeleteOp] &&
              h.calls == old(h.calls) + DeleteCalls(old(h.state))
  {
    LifecycleStep(h, GetOp, d, w, base);
    LifecycleStep(h, DeleteOp, d, w, base);
  }

  /** The create and the update. */
  method DispatchChanges(h: Handler, d: Desired, w: World, ghost base: seq<Op>)
    requires Progress(h.ran, base, Rank(CreateOp), Rank)
    modifies h
    ensures Progress(h.ran, base, Rank(UpdateOp) + 1, Rank)
    ensures Extends(h.ran, old(h.ran))
    ensures !old(h.Live()) || old(h.ops).Keys !! Later ==> Idle(h)
  {
    LifecycleStep(h, CreateOp, d, w, base);
    UpdateStep(h, UpdateOp, d, w, base);
  }

  /** The tag updates. */
  method DispatchTags(h: Handler, d: Desired, w: World, ghost base: seq<Op>)
    requires Progress(h.ran, base, Rank(RemoveTagsOp), Rank)
    modifies h
    ensures Progress(h.ran, base, |Order|, Rank)
    ensures Extends(h.ran, old(h.ran))
    ensures !old(h.Live()) || old(h.ops).Keys !! Later ==> Idle(h)
  {
    UpdateStep(h, RemoveTagsOp, d, w, base);
    UpdateStep(h, SetTagsOp, d, w, base);
  }

  /** The create, the update and the tag updates. */
  method DispatchUpdates(h: Handler, d: Desired, w: World, ghost base: seq<Op>)
    requires Progress(h.ran, base, Rank(CreateOp), Rank)
    modifies h
    ensures Progress(h.ran, base, |Order|, Rank)
    ensures Extends(h.ran, old(h.ran))
    ensures !old(h.Live()) || old(h.ops).Keys !! Later ==> Idle(h)
  {
    DispatchChanges(h, d, w, base);
    DispatchTags(h, d, w, base);
  }

  /** The operations of a pass, offered one by one in the fixed order. */
  method Dispatch(h: Handler, d: Desired, w: World)
    modifies h
    ensures Progress(h.ran, old(h.ran), |Order|, Rank)
    ensures !old(h.Live()) ==> h.ran == old(h.ran) && h.calls == old(h.calls) && h.failure == old(h.failure)
    ensures old(h.Live()) && GetOp in old(h.ops) ==> |h.ran| > |old(h.ran)| && h.ran[|old(h.ran)|] == GetOp
    ensures old(h.Live()) && old(h.ops) == map[DeleteOp := NoPayload] ==>
              h.ran == old(h.ran) + [DeleteOp] && h.calls == old(h.calls) + DeleteCalls(old(h.state))
  {
    ghost var base := h.ran;
    DispatchLookup(h, d, w, base);
    DispatchUpdates(h, d, w, base);
  }

  /**
   * The immutable-field guard of the upsert branch: the recorded load balancer
   * and port are read in one `try`, so the port is not read when no load
   * balancer is recorded; a recorded value that is set and differs from the
   * declared one (the port after its default) stops the pass.
   */
  predicate Guard(prev: Dict, c: Config)
  {
    var recordedLoadBalancer := Get(prev, "load_balancer_arn");
    var recordedPort := if "load_balancer_arn" in prev then Get(prev, "port") else Null;
    (Truthy(recordedLoadBalancer) && recordedLoadBalancer != FromOption(c.loadBalancerArn)) ||
    (Truthy(recordedPort) && recordedPort != Int(PortOf(c)))
  }

  /**
   * The starting point `lambda_handler` declares on a fresh pass: an upsert
   * enqueues the lookup and then fails when the guard fires; a delete enqueues
   * the delete of the recorded ARN (and crashes when none is recorded). A
   * resumed pass declares nothing.
   */
  method Start(h: Handler, ev: Event) returns (go: bool)
    modifies h
    ensures h.ran == old(h.ran) && h.calls == old(h.calls) && h.retry == old(h.retry) && h.props == old(h.props)
    ensures go <==> ev.resumed || ev.op != "delete" || "arn" in ev.prev
    ensures ev.resumed || (ev.op != "upsert" && ev.op != "delete") ==>
              h.ops == old(h.ops) && h.state == old(h.state) && h.failure == old(h.failure)
    ensures !ev.resumed && ev.op == "upsert" ==> h.ops == old(h.ops)[GetOp := NoPayload] && h.state == old(h.state)
    ensures !ev.resumed && ev.op == "upsert" && Guard(ev.prev, ev.config) ==>
              h.failure == Some(PermanentError(GuardMessage, 10))
    ensures !ev.resumed && ev.op == "upsert" && !Guard(ev.prev, ev.config) ==> h.failure == old(h.failure)
    ensures !ev.resumed && ev.op == "delete" ==> h.ops == old(h.ops)[DeleteOp := NoPayload]
    ensures !ev.resumed && ev.op == "delete" && "arn" !in ev.prev ==> h.failure == Some(UnexpectedError)
    ensures !ev.resumed && ev.op == "delete" && "arn" in ev.prev ==>
              h.state == old(h.state)[ArnKey := ev.prev["arn"]] && h.failure == old(h.failure)
  {
    go := true;
    if !ev.resumed {
      if ev.op == "upsert" {
        h.AddOp(GetOp, NoPayload);
        if Guard(ev.prev, ev.config) {
          h.PermError(GuardMessage, 10);
        }
      } else if ev.op == "delete" {
        h.AddOp(DeleteOp, NoPayload);
        if "arn" !in ev.prev {
          h.Unexpected();
          go := false;
        } else {
          h.AddState(map[ArnKey := ev.prev["arn"]]);
        }
      }
    }
  }

  /**
   * `lambda_handler` after `capture_event`: the attribute map, the starting
   * point and the operations in their fixed order. A pass the guard stops runs
   * nothing and makes no request.
   */
  method Reconcile(h: Handler, ev: Event, w: World)
    modifies h
    ensures Extends(h.ran, old(h.ran))
    ensures InOrder(h.ran[|old(h.ran)|..], Rank)
    ensures !ev.resumed && ev.op == "upsert" && Guard(ev.prev, ev.config) ==>
              h.failure == Some(PermanentError(GuardMessage, 10)) && h.ran == old(h.ran) && h.calls == old(h.calls)
    ensures !ev.resumed && ev.op == "upsert" && !Guard(ev.prev, ev.config) && old(h.Live()) ==>
              |h.ran| > |old(h.ran)| && h.ran[|old(h.ran)|] == GetOp
    ensures !ev.resumed && ev.op == "delete" && "arn" !in ev.prev ==>
              h.failure == Some(UnexpectedError) && h.ran == old(h.ran) && h.calls == old(h.calls)
    ensures !ev.resumed && ev.op == "delete" && "arn" in ev.prev && old(h.Live()) && old(h.ops) == map[] ==>
              h.ran == old(h.ran) + [DeleteOp] &&
              h.calls == old(h.calls) + [Request("delete_listener", map["ListenerArn" := ev.prev["arn"]], NoPayload)]
  {
    var attributes := Attributes(ev.config);
    var go := Start(h, ev);
    if go {
      Dispatch(h, Desired(attributes, DesiredTags(ev.config.tags), ev.region, ev.prev), w);
      OrderedInOrder(h.ran[|old(h.ran)|..], |Order|, Rank);
    }
  }
}
