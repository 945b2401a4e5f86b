/**
 * What the listener operations promise, stated about the effects they are
 * proved to apply: the declared attributes and their defaults, the guard on
 * the load balancer and the port, how a lookup is classified, exactly when a
 * found listener is updated, and how the update, create and delete end.
 */
module ListenerProperties {

  import opened Wrappers
  import opened PyValue
  import opened KeyValue
  import opened Extension
  import opened Tags
  import opened Listener

  // ---------------------------------------------------------------------------
  // The attribute map.

  /**
   * `lambda_handler` always declares the protocol (HTTPS unless given), the
   * port (443 unless given), the SSL policy, and the one default action (of
   * type `forward` unless given); it declares a certificate only when an ARN is
   * given, and the load balancer and the tags only when they are given.
   */
  lemma AttributesDeclared(c: Config)
    ensures var a := Attributes(c);
      && "Protocol" in a && a["Protocol"] == Str(Or(c.protocol, DefaultProtocol))
      && "Port" in a && a["Port"] == Int(PortOf(c))
      && "SslPolicy" in a && a["SslPolicy"] == Str(Or(c.sslPolicy, DefaultSslPolicy))
      && "DefaultActions" in a
      && a["DefaultActions"] == ActionsJson(Str(Or(c.actionType, "forward")), FromOption(c.targetGroupArn))
      && ("Certificates" in a <==> c.certificateArn.Some? && c.certificateArn.value != "")
      && ("Certificates" in a ==> a["Certificates"] == CertificatesJson(c.certificateArn.value))
      && ("LoadBalancerArn" in a <==> c.loadBalancerArn.Some?)
      && ("Tags" in a <==> c.tags != [])
      && ("LoadBalancerArn" in a ==> a["LoadBalancerArn"] == Str(c.loadBalancerArn.value))
      && ("Tags" in a ==> a["Tags"] == TagList(c.tags))
      && a.Keys <= {"LoadBalancerArn", "Protocol", "Port", "SslPolicy", "Certificates", "DefaultActions", "Tags"}
  {
  }

  /** An undeclared port, or port 0, is 443. */
  lemma PortDefaults(c: Config)
    ensures c.port.None? || c.port.value == 0 ==> PortOf(c) == 443
    ensures c.port.Some? && c.port.value != 0 ==> PortOf(c) == c.port.value
  {
  }

  // ---------------------------------------------------------------------------
  // The guard of the upsert branch.

  /** Props recorded from a listener on the declared load balancer and port never trip the guard. */
  lemma GuardAcceptsDeclared(l: ListenerDesc, action: ActionDesc, cert: CertificateDesc, c: Config)
    requires l.loadBalancerArn == c.loadBalancerArn && l.port == Some(PortOf(c))
    ensures !Guard(ListenerProps(l, action, cert), c)
  {
  }

  /** A recorded load balancer other than the declared one trips the guard. */
  lemma GuardRejectsMovedLoadBalancer(l: ListenerDesc, action: ActionDesc, cert: CertificateDesc, c: Config)
    requires l.loadBalancerArn.Some? && l.loadBalancerArn.value != "" && c.loadBalancerArn != l.loadBalancerArn
    ensures Guard(ListenerProps(l, action, cert), c)
  {
  }

  /** A recorded port other than the declared one, after its default, trips the guard. */
  lemma GuardRejectsPortChange(l: ListenerDesc, action: ActionDesc, cert: CertificateDesc, c: Config)
    requires l.port.Some? && l.port.value != 0 && l.port.value != PortOf(c)
    ensures Guard(ListenerProps(l, action, cert), c)
  {
  }

  /**
   * Without a recorded load balancer the `KeyError` leaves the recorded port
   * unread, so a changed port passes the guard.
   */
  lemma PortUncheckedWithoutRecordedLoadBalancer(prev: Dict, c: Config)
    requires "load_balancer_arn" !in prev
    ensures !Guard(prev, c)
  {
  }

  // ---------------------------------------------------------------------------
  // get_listener.

  /** Without a recorded ARN, get_listener enqueues the create and calls nothing. */
  lemma GetCreatesWithoutRecordedArn(attributes: Dict, desiredTags: map<string, string>, region: string, prev: Dict, w: World)
    requires !Truthy(Get(prev, "arn"))
    ensures GetEffect(attributes, desiredTags, region, prev, w) == EnqueueEffect(CreateOp, NoPayload)
  {
  }

  /** A listener AWS does not know, or an empty answer, enqueues exactly the create after the one lookup. */
  lemma GetCreatesWhenMissing(attributes: Dict, desiredTags: map<string, string>, region: string, prev: Dict, w: World)
    requires Truthy(Get(prev, "arn"))
    requires w.describe == Ok([]) || (w.describe.Raised? && w.describe.fault.exception == ListenerNotFound)
    ensures var e := GetEffect(attributes, desiredTags, region, prev, w);
      && e.ops == map[CreateOp := NoPayload] && e.retry.None? && e.failure.None?
      && e.state == map[] && e.props == map[]
      && e.calls == [Request("describe_listeners", map["ListenerArns" := List([Get(prev, "arn")])], NoPayload)]
  {
  }

  /** Any other lookup fault declares a retry at progress 10 and enqueues nothing. */
  lemma GetRetriesOnFault(attributes: Dict, desiredTags: map<string, string>, region: string, prev: Dict, w: World)
    requires Truthy(Get(prev, "arn"))
    requires w.describe.Raised? && w.describe.fault.exception != ListenerNotFound
    ensures var e := GetEffect(attributes, desiredTags, region, prev, w);
      e.ops == map[] && e.retry == Some(Retry(GetTitle, 10, None)) && e.failure.None?
  {
  }

  /**
   * Found: the listener is recorded for the later operations, `update_listener`
   * is enqueued exactly when the attributes other than the tags differ from the
   * current ones, and nothing else but the tag operations is enqueued.
   */
  lemma GetComparesFound(attributes: Dict, desiredTags: map<string, string>, region: string, prev: Dict, w: World,
                         action: ActionDesc, cert: CertificateDesc)
    requires Truthy(Get(prev, "arn")) && w.describe.Ok? && w.describe.value != []
    requires First(w.describe.value[0].actions, NoAction) == Some(action)
    requires First(w.describe.value[0].certificates, NoCertificate) == Some(cert)
    ensures var e := GetEffect(attributes, desiredTags, region, prev, w);
      var l := w.describe.value[0];
      && e.state == map[ArnKey := Str(l.arn), "region" := Str(region)]
      && e.props == ListenerProps(l, action, cert)
      && (UpdateOp in e.ops <==> Without(attributes, {"Tags"}) != CurrentAttributes(l, action, cert))
      && e.ops.Keys <= {UpdateOp, RemoveTagsOp, SetTagsOp}
  {
    var l := w.describe.value[0];
    var tags := TagLookupEffect(l.arn, desiredTags, w.tags, ListenerNotFound, RetryOn(GetTitle, 10));
    TagLookupConfined(l.arn, desiredTags, w.tags, ListenerNotFound, RetryOn(GetTitle, 10));
    var compare := CompareEffect(attributes, l, action, cert, desiredTags, w);
    CompareShape(attributes, CurrentAttributes(l, action, cert), tags);
    var st := map[ArnKey := Str(l.arn), "region" := Str(region)];
    var pr := ListenerProps(l, action, cert);
    var found := FoundEffect(attributes, l, desiredTags, region, w);
    assert found == Then(StateEffect(st), Then(PropsEffect(pr), compare));
    var describe := CallEffect("describe_listeners", map["ListenerArns" := List([Get(prev, "arn")])]);
    assert GetEffect(attributes, desiredTags, region, prev, w) == Then(describe, found);
    RecordShape(describe, st, pr, compare);
  }

  /** The comparison enqueues the update exactly when the attributes differ, and records nothing. */
  lemma CompareShape(attributes: Dict, current: Dict, tags: Effect)
    requires Confined(tags, {RemoveTagsOp, SetTagsOp}, {})
    ensures var e := Then(Nothing.(ops := UpdateOps(attributes, current)), tags);
      && e.state == map[] && e.props == map[]
      && (UpdateOp in e.ops <==> Without(attributes, {"Tags"}) != current)
      && e.ops.Keys <= {UpdateOp, RemoveTagsOp, SetTagsOp}
  {
    MergeEmpty<string, Json>(map[]);
  }

  /** A found listener with an empty action or certificate list crashes once it is recorded in State. */
  lemma GetCrashesOnEmptyList(attributes: Dict, desiredTags: map<string, string>, region: string, prev: Dict, w: World)
    requires Truthy(Get(prev, "arn")) && w.describe.Ok? && w.describe.value != []
    requires w.describe.value[0].actions == Some([]) || w.describe.value[0].certificates == Some([])
    ensures var e := GetEffect(attributes, desiredTags, region, prev, w);
      e.failure == Some(UnexpectedError) && e.ops == map[] && e.props == map[] &&
      e.state == map[ArnKey := Str(w.describe.value[0].arn), "region" := Str(region)]
  {
    var st := map[ArnKey := Str(w.describe.value[0].arn), "region" := Str(region)];
    MergeEmpty(st);
  }

  // ---------------------------------------------------------------------------
  // The comparison of get_listener.

  /** What a live listener must hold for the comparison to find nothing to update. */
  predicate Matches(c: Config, l: ListenerDesc, action: ActionDesc, cert: CertificateDesc)
  {
    && l.loadBalancerArn == c.loadBalancerArn
    && StrOrNone(l.protocol) == Or(c.protocol, DefaultProtocol)
    && l.port == Some(PortOf(c))
    && StrOrNone(l.sslPolicy) == Or(c.sslPolicy, DefaultSslPolicy)
    && action == ActionDesc(Some(Or(c.actionType, "forward")), c.targetGroupArn)
    && (Truthy(FromOption(cert.arn)) <==> Truthy(FromOption(c.certificateArn)))
    && (Truthy(FromOption(c.certificateArn)) ==> cert.arn == c.certificateArn)
  }

  /**
   * get_listener enqueues `update_listener` exactly when the live listener
   * differs from the declaration in its load balancer, protocol, port, SSL
   * policy, default action or certificate.
   */
  lemma UpdateDecision(c: Config, l: ListenerDesc, action: ActionDesc, cert: CertificateDesc)
    ensures Without(Attributes(c), {"Tags"}) == CurrentAttributes(l, action, cert) <==> Matches(c, l, action, cert)
  {
    if Matches(c, l, action, cert) {
      MatchingNeedsNoUpdate(c, l, action, cert);
    }
    if Without(Attributes(c), {"Tags"}) == CurrentAttributes(l, action, cert) {
      EqualMatches(c, l, action, cert);
    }
  }

  lemma MatchingNeedsNoUpdate(c: Config, l: ListenerDesc, action: ActionDesc, cert: CertificateDesc)
    requires Matches(c, l, action, cert)
    ensures Without(Attributes(c), {"Tags"}) == CurrentAttributes(l, action, cert)
  {
    var a := Without(Attributes(c), {"Tags"});
    var b := CurrentAttributes(l, action, cert);
    AttributesDeclared(c);
    assert a.Keys == b.Keys;
    forall k | k in a ensures a[k] == b[k] {
    }
  }

  lemma EqualMatches(c: Config, l: ListenerDesc, action: ActionDesc, cert: CertificateDesc)
    requires Without(Attributes(c), {"Tags"}) == CurrentAttributes(l, action, cert)
    ensures Matches(c, l, action, cert)
  {
    var a := Without(Attributes(c), {"Tags"});
    var b := CurrentAttributes(l, action, cert);
    AttributesDeclared(c);
    assert a["Protocol"] == b["Protocol"] && a["SslPolicy"] == b["SslPolicy"] && a["Port"] == b["Port"];
    ActionsJsonInjective(Str(Or(c.actionType, "forward")), FromOption(c.targetGroupArn),
                         FromOption(action.actionType), FromOption(action.targetGroupArn));
    assert ("LoadBalancerArn" in a <==> "LoadBalancerArn" in b);
    if c.loadBalancerArn.Some? {
      assert a["LoadBalancerArn"] == b["LoadBalancerArn"];
    }
    assert ("Certificates" in a <==> "Certificates" in b);
    if "Certificates" in a {
      assert a["Certificates"].items[0].fields["CertificateArn"] == b["Certificates"].items[0].fields["CertificateArn"];
    }
  }

  /**
   * A listener AWS reports without an SSL policy (a plain HTTP listener) is
   * updated on every pass: its current `SslPolicy` is the string `"None"`,
   * while the declaration always carries one.
   */
  lemma MissingSslPolicyAlwaysUpdates(c: Config, l: ListenerDesc, action: ActionDesc, cert: CertificateDesc)
    requires l.sslPolicy.None? && c.sslPolicy != Some("None")
    ensures Without(Attributes(c), {"Tags"}) != CurrentAttributes(l, action, cert)
  {
    UpdateDecision(c, l, action, cert);
  }

  // ---------------------------------------------------------------------------
  // create_listener, update_listener and delete_listener.

  /** Created: the listener is recorded for the later operations, and only tag operations are enqueued. */
  lemma CreateRecordsCreated(attributes: Dict, desiredTags: map<string, string>, region: string, w: World, props: Dict)
    requires Accepted(attributes, CreateRequired)
    requires w.create.Ok? && w.create.value != []
    requires RecordProps(w.create.value[0]) == Some(props)
    ensures var e := CreateEffect(attributes, desiredTags, region, w);
      && e.state == map[ArnKey := Str(w.create.value[0].arn), "region" := Str(region)]
      && e.props == props
      && e.ops.Keys <= {RemoveTagsOp, SetTagsOp}
      && e.calls[0] == Request("create_listener", attributes, NoPayload)
  {
    var l := w.create.value[0];
    var escape := LadderOn(CreatePermanent, CreateTitle, 20);
    var tags := TagLookupEffect(l.arn, desiredTags, w.tags, ListenerNotFound, escape);
    TagLookupConfined(l.arn, desiredTags, w.tags, ListenerNotFound, escape);
    var st := map[ArnKey := Str(l.arn), "region" := Str(region)];
    var created := CreatedEffect(l, desiredTags, region, w);
    assert created == Then(StateEffect(st), Then(PropsEffect(props), tags));
    var create := CallEffect("create_listener", attributes);
    assert CreateEffect(attributes, desiredTags, region, w) == Then(create, created);
    RecordShape(create, st, props, tags);
  }

  /** A create fault of one of the listed classes fails at progress 20 with the fault's text. */
  lemma CreateFailsOnPermanentFault(attributes: Dict, desiredTags: map<string, string>, region: string, w: World)
    requires Accepted(attributes, CreateRequired)
    requires w.create.Raised? && w.create.fault.exception in CreatePermanent
    ensures var e := CreateEffect(attributes, desiredTags, region, w);
      e.failure == Some(PermanentError(w.create.fault.message, 20)) && e.retry.None? && e.ops == map[] && e.state == map[]
  {
  }

  /** Any other create fault goes to the common handler at progress 20. */
  lemma CreateRetriesOtherFaults(attributes: Dict, desiredTags: map<string, string>, region: string, w: World)
    requires Accepted(attributes, CreateRequired)
    requires w.create.Raised? && w.create.fault.exception !in CreatePermanent
    ensures var e := CreateEffect(attributes, desiredTags, region, w);
      && (w.create.fault.exhausted ==> e.failure == Some(PermanentError(CreateTitle, 20)))
      && (!w.create.fault.exhausted ==> e.retry == Some(Retry(CreateTitle, 20, None)) && e.failure.None?)
      && e.ops == map[]
  {
  }

  /** An answer without listeners makes `response.get("Listeners")[0]` raise. */
  lemma CreateWithoutListenersCrashes(attributes: Dict, desiredTags: map<string, string>, region: string, w: World)
    requires Accepted(attributes, CreateRequired)
    requires w.create == Ok([])
    ensures var e := CreateEffect(attributes, desiredTags, region, w);
      e.failure == Some(UnexpectedError) && e.ops == map[] && e.state == map[]
  {
  }

  /**
   * botocore accepts the `create_listener` request of a declaration exactly
   * when the load balancer and the target group are declared.
   */
  lemma CreateAccepted(c: Config)
    ensures Accepted(Attributes(c), CreateRequired) <==> c.loadBalancerArn.Some? && c.targetGroupArn.Some?
  {
    var a := Attributes(c);
    AttributesDeclared(c);
    ActionsNoNone(Str(Or(c.actionType, "forward")), FromOption(c.targetGroupArn));
    TagListNoNone(c.tags);
    if c.loadBalancerArn.Some? && c.targetGroupArn.Some? {
      forall k | k in a
        ensures NoNone(a[k])
      {
        if k == "LoadBalancerArn" {
          assert a[k] == Str(c.loadBalancerArn.value);
        } else if k == "Certificates" {
          var o := map["CertificateArn" := Str(c.certificateArn.value)];
          assert a[k] == List([Object(o)]);
          assert [Object(o)][0] == Object(o) && NoNone(o["CertificateArn"]);
        } else if k == "Tags" {
          assert a[k] == TagList(c.tags);
        }
      }
    }
  }

  /** A request botocore refuses raises before anything is sent: the pass crashes and records nothing. */
  lemma CreateRefusedCrashes(attributes: Dict, desiredTags: map<string, string>, region: string, w: World)
    requires !Accepted(attributes, CreateRequired)
    ensures var e := CreateEffect(attributes, desiredTags, region, w);
      && e.failure == Some(UnexpectedError) && e.calls == []
      && e.ops == map[] && e.state == map[] && e.props == map[]
  {
  }

  /**
   * botocore refuses the `modify_listener` request of a declaration without a
   * target group, whose `TargetGroupArn` is `None`; the update then crashes
   * before anything is sent.
   */
  lemma UpdateWithoutTargetGroupCrashes(c: Config, state: Dict, out: Outcome<seq<ListenerDesc>>)
    requires c.targetGroupArn.None?
    ensures var e := UpdateEffect(Attributes(c), state, out);
      e.failure == Some(UnexpectedError) && e.calls == [] && e.props == map[]
  {
    AttributesDeclared(c);
    ActionsNoNone(Str(Or(c.actionType, "forward")), FromOption(c.targetGroupArn));
    if ArnKey in state {
      var request := ModifyRequest(Attributes(c), state[ArnKey]);
      assert "DefaultActions" in request && !NoNone(request["DefaultActions"]);
    }
  }

  /**
   * `modify_listener` sends every declared attribute but the tags and the load
   * balancer, addressed to the recorded listener, and records the Props of the
   * answer; it enqueues nothing.
   */
  lemma UpdateSendsDeclared(attributes: Dict, state: Dict, out: Outcome<seq<ListenerDesc>>)
    requires ArnKey in state && Accepted(ModifyRequest(attributes, state[ArnKey]), {"ListenerArn"})
    ensures var e := UpdateEffect(attributes, state, out);
      && |e.calls| == 1 && e.calls[0] == Request("modify_listener", ModifyRequest(attributes, state[ArnKey]), NoPayload)
      && "LoadBalancerArn" !in e.calls[0].params && "Tags" !in e.calls[0].params
      && e.calls[0].params["ListenerArn"] == state[ArnKey]
      && e.ops == map[] && e.state == map[]
      && (out.Ok? && out.value != [] && RecordProps(out.value[0]).Some? ==> e.props == RecordProps(out.value[0]).value)
  {
    var request := ModifyRequest(attributes, state[ArnKey]);
    var call := CallEffect("modify_listener", request);
    var rest: Effect;
    match out {
      case Raised(f) =>
        rest := HandleEffect(f, {}, UpdatePermanent, CreateTitle, 20);
      case Ok(listeners) =>
        rest := if listeners == [] then CrashEffect
                else match RecordProps(listeners[0])
                  case None => CrashEffect
                  case Some(props) => PropsEffect(props);
    }
    assert UpdateEffect(attributes, state, out) == Then(call, rest);
    CallFirst(call, rest);
  }

  /** An update fault of one of the listed classes fails at progress 20; a listener that is gone is one of them there, not in the create. */
  lemma UpdateFailsOnPermanentFault(attributes: Dict, state: Dict, f: Fault)
    requires ArnKey in state && Accepted(ModifyRequest(attributes, state[ArnKey]), {"ListenerArn"})
    requires f.exception in UpdatePermanent
    ensures var e := UpdateEffect(attributes, state, Raised(f));
      e.failure == Some(PermanentError(f.message, 20)) && e.retry.None? && e.props == map[]
    ensures ListenerNotFound in UpdatePermanent && ListenerNotFound !in CreatePermanent
  {
  }

  /** Deleting a listener that is already gone is quiet. */
  lemma DeleteNotFoundIsQuiet(state: Dict, f: Fault)
    requires ArnKey in state && f.exception == ListenerNotFound
    ensures Quiet(DeleteEffect(state, Raised(f)))
  {
  }

  /** A listener in use, and any other fault, go to the common handler at progress 80, under their own titles. */
  lemma DeleteRetriesOtherFaults(state: Dict, f: Fault)
    requires ArnKey in state && f.exception != ListenerNotFound && !f.exhausted
    ensures var e := DeleteEffect(state, Raised(f));
      && (f.exception == ResourceInUse ==> e.retry == Some(Retry(InUseTitle, 80, None)))
      && (f.exception != ResourceInUse ==> e.retry == Some(Retry(DeleteTitle, 80, None)))
      && e.failure.None? && e.ops == map[]
  {
  }
}
