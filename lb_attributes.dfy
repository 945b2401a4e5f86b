/**
 * The pure part of load_balancer/lambda_function.py: how the component
 * definition becomes the `create_load_balancer` attribute map and the special
 * attribute map, the defaults of the special attributes, the merge and reset
 * targets computed from the live attributes, the immutable-field guards, the
 * choice of follow-up operations and the `set_subnets` request.
 */
module LoadBalancerAttributes {

  import opened Wrappers
  import opened PyValue
  import opened KeyValue

  /** A scalar read from the component definition: absent, a boolean, an integer or a string. */
  datatype Setting = Unset | Flag(b: bool) | Number(n: int) | Text(s: string)

  predicate SettingTruthy(v: Setting)
  {
    match v
    case Unset => false
    case Flag(b) => b
    case Number(n) => n != 0
    case Text(s) => s != ""
  }

  /** `str(v)` of a setting. */
  function SettingStr(v: Setting): string
  {
    match v
    case Unset => "None"
    case Flag(b) => BoolStr(b)
    case Number(n) => IntStr(n)
    case Text(s) => s
  }

  /**
   * A value of the `special_attributes` dictionary: the `str(...)` text of a
   * truthy setting, or a falsy setting kept as it was (`False`, `0` or `""`).
   */
  datatype Special = Given(text: string) | Falsy(original: Setting)

  predicate SpecialTruthy(v: Special)
  {
    v.Given? && v.text != ""
  }

  /** The component-definition key of each special attribute. */
  const SettingName: map<string, string> := map[
    "deletion_protection.enabled" := "deletion_protection_enabled",
    "load_balancing.cross_zone.enabled" := "load_balancing_cross_zone_enabled",
    "access_logs.s3.enabled" := "access_logs_s3_enabled",
    "access_logs.s3.bucket" := "access_logs_s3_bucket",
    "access_logs.s3.prefix" := "access_logs_s3_prefix",
    "ipv6.deny_all_igw_traffic" := "ipv6_deny_all_igw_traffic",
    "idle_timeout.timeout_seconds" := "idle_timeout_timeout_seconds",
    "routing.http.desync_mitigation_mode" := "routing_http_desync_mitigation_mode",
    "routing.http.drop_invalid_header_fields.enabled" := "routing_http_drop_invalid_header_fields_enabled",
    "routing.http.preserve_host_header.enabled" := "routing_http_preserve_host_header_enabled",
    "routing.http.x_amzn_tls_version_and_cipher_suite.enabled" := "routing_http_x_amzn_tls_version_and_cipher_suite_enabled",
    "routing.http.xff_client_port.enabled" := "routing_http_xff_client_port_enabled",
    "routing.http.xff_header_processing.mode" := "routing_http_xff_header_processing_mode",
    "routing.http2.enabled" := "routing_http2_enabled",
    "waf.fail_open.enabled" := "waf_fail_open_enabled"
  ]

  /** The special attributes whose text is lower-cased (`str(v).lower()`). */
  const LoweredKeys: set<string> := {
    "deletion_protection.enabled",
    "load_balancing.cross_zone.enabled",
    "access_logs.s3.enabled",
    "routing.http.drop_invalid_header_fields.enabled",
    "routing.http.preserve_host_header.enabled",
    "routing.http.x_amzn_tls_version_and_cipher_suite.enabled",
    "routing.http.xff_client_port.enabled",
    "routing.http2.enabled",
    "waf.fail_open.enabled"
  }

  /** The dictionary literal of `default_special_attributes`, before its `None` values are dropped. */
  const DefaultLiteral: map<string, Option<string>> := map[
    "deletion_protection.enabled" := Some("false"),
    "load_balancing.cross_zone.enabled" := Some("true"),
    "access_logs.s3.enabled" := Some("false"),
    "access_logs.s3.bucket" := None,
    "access_logs.s3.prefix" := None,
    "ipv6.deny_all_igw_traffic" := Some("false"),
    "idle_timeout.timeout_seconds" := Some("60"),
    "routing.http.desync_mitigation_mode" := Some("defensive"),
    "routing.http.drop_invalid_header_fields.enabled" := Some("false"),
    "routing.http.preserve_host_header.enabled" := Some("false"),
    "routing.http.x_amzn_tls_version_and_cipher_suite.enabled" := Some("false"),
    "routing.http.xff_client_port.enabled" := Some("false"),
    "routing.http.xff_header_processing.mode" := Some("append"),
    "routing.http2.enabled" := Some("true"),
    "waf.fail_open.enabled" := Some("false")
  ]

  /** `default_special_attributes`: the literal without its `None` entries. */
  function Defaults(): map<string, string>
  {
    map k | k in DefaultLiteral && DefaultLiteral[k].Some? :: DefaultLiteral[k].value
  }

  /** Every special attribute but the access-log bucket and prefix has a default, the one the literal gives. */
  lemma DefaultsCover()
    ensures Defaults().Keys == SettingName.Keys - {"access_logs.s3.bucket", "access_logs.s3.prefix"}
    ensures forall k | k in Defaults() :: DefaultLiteral[k] == Some(Defaults()[k])
  {
  }

  /** One entry of `special_attributes` before `remove_none_attributes`: `None` drops out. */
  function EncodeSetting(key: string, v: Setting): (r: Option<Special>)
    ensures r.None? <==> v.Unset?
    ensures SettingTruthy(v) ==> r.Some? && r.value.Given? && SpecialTruthy(r.value)
    ensures !SettingTruthy(v) && !v.Unset? ==> r == Some(Falsy(v))
  {
    if SettingTruthy(v) then
      var text := SettingStr(v);
      Some(Given(if key in LoweredKeys then Lower(text) else text))
    else if v.Unset? then None
    else Some(Falsy(v))
  }

  function Lookup(cdef: map<string, Setting>, name: string): Setting
  {
    if name in cdef then cdef[name] else Unset
  }

  /**
   * `special_attributes` from the component definition (keyed by the
   * component-definition names): one entry per special attribute that is set.
   */
  function SpecialAttributes(cdef: map<string, Setting>): map<string, Special>
  {
    map k | k in SettingName && EncodeSetting(k, Lookup(cdef, SettingName[k])).Some? ::
      EncodeSetting(k, Lookup(cdef, SettingName[k])).value
  }

  /** A special attribute is present exactly when its setting is, and is truthy exactly when the setting is. */
  lemma SpecialAttributesOfSettings(cdef: map<string, Setting>)
    ensures SpecialAttributes(cdef).Keys <= SettingName.Keys
    ensures forall k | k in SettingName :: k in SpecialAttributes(cdef) <==> !Lookup(cdef, SettingName[k]).Unset?
    ensures forall k | k in SpecialAttributes(cdef) ::
      SpecialTruthy(SpecialAttributes(cdef)[k]) <==> SettingTruthy(Lookup(cdef, SettingName[k]))
  {
  }

  /**
   * The live special attributes (`{Key: Value}` of `describe_load_balancer_attributes`),
   * without `ipv6.deny_all_igw_traffic` when the load balancer is `ipv4`.
   */
  function LiveSpecial(attrs: seq<KeyValue>, ipAddressType: Option<string>): (live: map<string, string>)
    ensures ipAddressType == Some("ipv4") ==> live == CompressedDict(attrs) - {"ipv6.deny_all_igw_traffic"}
    ensures ipAddressType != Some("ipv4") ==> live == CompressedDict(attrs)
  {
    var all := CompressedDict(attrs);
    if ipAddressType == Some("ipv4") then all - {"ipv6.deny_all_igw_traffic"} else all
  }

  /**
   * Every live attribute other than `ipv6.deny_all_igw_traffic` is compared
   * with the value AWS reported, and that one is compared exactly when AWS
   * reported it and the load balancer is not `ipv4`.
   */
  lemma LiveSpecialKeepsOthers(attrs: seq<KeyValue>, ipAddressType: Option<string>)
    ensures LiveSpecial(attrs, ipAddressType).Keys <= CompressedDict(attrs).Keys
    ensures forall k | k != "ipv6.deny_all_igw_traffic" ::
      (k in LiveSpecial(attrs, ipAddressType) <==> k in CompressedDict(attrs)) &&
      (k in CompressedDict(attrs) ==> LiveSpecial(attrs, ipAddressType)[k] == CompressedDict(attrs)[k])
    ensures "ipv6.deny_all_igw_traffic" in LiveSpecial(attrs, ipAddressType) <==>
      "ipv6.deny_all_igw_traffic" in CompressedDict(attrs) && ipAddressType != Some("ipv4")
  {
  }

  /** `special_attributes.get(key) or default_special_attributes.get(key)` for one live key. */
  function MergedValue(special: map<string, Special>, defaults: map<string, string>, key: string): Option<string>
  {
    if key in special && SpecialTruthy(special[key]) then Some(special[key].text)
    else if key in defaults then Some(defaults[key])
    else None
  }

  /**
   * `update_special_attributes`: for every live key, the declared text when it is
   * truthy and the default otherwise; a key with neither is dropped.
   */
  function MergeTarget(special: map<string, Special>, defaults: map<string, string>, live: map<string, string>)
    : map<string, string>
  {
    map k | k in live && MergedValue(special, defaults, k).Some? :: MergedValue(special, defaults, k).value
  }

  /**
   * The merge target covers only live keys; a live key is kept exactly when it is
   * declared truthy or has a default, and holds the declaration if truthy and the
   * default otherwise.
   */
  lemma MergeTargetChoosesDeclaredOrDefault(special: map<string, Special>, defaults: map<string, string>,
                                            live: map<string, string>)
    ensures var target := MergeTarget(special, defaults, live);
      && target.Keys <= live.Keys
      && (forall k | k in live :: k in target <==> (k in special && SpecialTruthy(special[k])) || k in defaults)
      && (forall k | k in target && k in special && SpecialTruthy(special[k]) :: target[k] == special[k].text)
      && (forall k | k in target && !(k in special && SpecialTruthy(special[k])) :: target[k] == defaults[k])
  {
  }

  /** The payload of `reset_load_balancer_special_attributes`: each recorded live key with a default, set to it. */
  function ResetTarget(defaults: map<string, string>, live: set<string>): map<string, string>
  {
    map k | k in live && k in defaults :: defaults[k]
  }

  /** A reset sends exactly the recorded keys that have a default, each set to its default. */
  lemma ResetTargetIsDefaults(defaults: map<string, string>, live: set<string>)
    ensures ResetTarget(defaults, live).Keys == live * defaults.Keys
    ensures forall k | k in ResetTarget(defaults, live) :: ResetTarget(defaults, live)[k] == defaults[k]
  {
  }

  /** The access-log bucket and prefix have no default, so a reset never sends them. */
  lemma ResetOmitsAccessLogLocation(live: set<string>)
    ensures "access_logs.s3.bucket" !in ResetTarget(Defaults(), live)
    ensures "access_logs.s3.prefix" !in ResetTarget(Defaults(), live)
  {
  }

  /**
   * Because of `or`, a declared falsy setting falls back to the default: declaring
   * `load_balancing_cross_zone_enabled: false` sends `"true"` whenever the key is live.
   */
  lemma FalsyDeclarationFallsBack(cdef: map<string, Setting>, live: map<string, string>)
    requires Lookup(cdef, "load_balancing_cross_zone_enabled") == Flag(false)
    requires "load_balancing.cross_zone.enabled" in live
    ensures var target := MergeTarget(SpecialAttributes(cdef), Defaults(), live);
      "load_balancing.cross_zone.enabled" in target && target["load_balancing.cross_zone.enabled"] == "true"
  {
    assert SettingName["load_balancing.cross_zone.enabled"] == "load_balancing_cross_zone_enabled";
  }

  /** A declared `True` is sent as the lower-cased text `"true"`. */
  lemma TrueDeclarationIsLowered(cdef: map<string, Setting>, live: map<string, string>)
    requires Lookup(cdef, "routing_http2_enabled") == Flag(true)
    requires "routing.http2.enabled" in live
    ensures var target := MergeTarget(SpecialAttributes(cdef), Defaults(), live);
      "routing.http2.enabled" in target && target["routing.http2.enabled"] == "true"
  {
    assert SettingName["routing.http2.enabled"] == "routing_http2_enabled";
    assert Lower("True") == "true";
  }

  /** The component definition fields the attribute map is built from. */
  datatype Config = Config(
    name: Option<string>,
    subnets: Option<seq<string>>,
    securityGroups: Option<seq<string>>,
    scheme: Option<string>,
    tags: Items,
    loadBalancerType: Option<string>,
    ipAddressType: Option<string>,
    special: map<string, Setting>)

  function Scheme(c: Config): string { Or(c.scheme, "internal") }
  function LoadBalancerType(c: Config): string { Or(c.loadBalancerType, "application") }
  function IpAddressType(c: Config): string { Or(c.ipAddressType, "ipv4") }

  /** `eh.props.get("name") or cdef.get("name") or component_safe_name(...)`. */
  function Name(props: Dict, c: Config, generated: string): string
  {
    var recorded := Get(props, "name");
    if recorded.Str? && recorded.s != "" then recorded.s else Or(c.name, generated)
  }

  /** `attributes`: the `create_load_balancer` arguments, without the ones that are `None`. */
  function Attributes(name: string, c: Config): (a: Dict)
    ensures a.Keys <= {"Name", "Subnets", "SecurityGroups", "Scheme", "Tags", "Type", "IpAddressType"}
    ensures {"Name", "Scheme", "Type", "IpAddressType"} <= a.Keys
    ensures a["Name"] == Str(name) && a["Scheme"] == Str(Scheme(c))
    ensures a["Type"] == Str(LoadBalancerType(c)) && a["IpAddressType"] == Str(IpAddressType(c))
    ensures "Tags" in a <==> c.tags != []
    ensures "Subnets" in a <==> c.subnets.Some?
    ensures "SecurityGroups" in a <==> c.securityGroups.Some?
    ensures "Subnets" in a ==> a["Subnets"] == StrList(c.subnets.value)
    ensures "SecurityGroups" in a ==> a["SecurityGroups"] == StrList(c.securityGroups.value)
    ensures "Tags" in a ==> a["Tags"] == TagList(c.tags)
  {
    var a := map["Name" := Str(name)];
    var a := PutUnlessNone(a, "Subnets", OptionalList(c.subnets));
    var a := PutUnlessNone(a, "SecurityGroups", OptionalList(c.securityGroups));
    var a := a["Scheme" := Str(Scheme(c))];
    var a := PutUnlessNone(a, "Tags", if c.tags != [] then TagList(c.tags) else Null);
    a["Type" := Str(LoadBalancerType(c))]["IpAddressType" := Str(IpAddressType(c))]
  }

  /** Unset scheme, type and address family fall back to `internal`, `application` and `ipv4`. */
  lemma AttributeDefaults(name: string, c: Config)
    requires c.scheme.None? && c.loadBalancerType.None? && c.ipAddressType.None?
    ensures var a := Attributes(name, c);
      a["Scheme"] == Str("internal") && a["Type"] == Str("application") && a["IpAddressType"] == Str("ipv4")
  {
  }

  /**
   * The values the upsert guard reads from the previous Props, in order; the
   * first missing key stops the reading, leaving it and the later ones `None`.
   */
  function Recorded(props: Dict, keys: seq<string>): (r: seq<Json>)
    ensures |r| == |keys|
    ensures forall i | 0 <= i < |keys| :: r[i] == if forall j | 0 <= j <= i :: keys[j] in props then props[keys[i]] else Null
  {
    if keys == [] then []
    else if keys[0] in props then [props[keys[0]]] + Recorded(props, keys[1..])
    else seq(|keys|, _ => Null)
  }

  /** `(old and old != new)`: a truthy recorded value that differs from the declared one. */
  predicate Changed(recorded: Json, declared: Json)
  {
    Truthy(recorded) && recorded != declared
  }

  /** The upsert guard of load_balancer/lambda_function.py:192-198: name, scheme or type changed. */
  predicate UpsertGuardFires(props: Dict, name: string, c: Config)
  {
    var prior := Recorded(props, ["name", "scheme", "load_balancer_type"]);
    Changed(prior[0], Str(name)) || Changed(prior[1], Str(Scheme(c))) || Changed(prior[2], Str(LoadBalancerType(c)))
  }

  /** A recorded name that differs from the declared one always trips the guard. */
  lemma UpsertGuardOnName(props: Dict, name: string, c: Config)
    requires "name" in props && Truthy(props["name"]) && props["name"] != Str(name)
    ensures UpsertGuardFires(props, name, c)
  {
  }

  /** So does a recorded scheme or type that differs, as long as a name was recorded before it. */
  lemma UpsertGuardOnSchemeOrType(props: Dict, name: string, c: Config)
    requires "name" in props && "scheme" in props
    requires (Truthy(props["scheme"]) && props["scheme"] != Str(Scheme(c))) ||
             ("load_balancer_type" in props && Truthy(props["load_balancer_type"]) &&
              props["load_balancer_type"] != Str(LoadBalancerType(c)))
    ensures UpsertGuardFires(props, name, c)
  {
    var prior := Recorded(props, ["name", "scheme", "load_balancer_type"]);
    assert prior[1] == props["scheme"];
  }

  /** Without a recorded name the reading stops at once, and the guard never fires. */
  lemma UpsertGuardNeedsName(props: Dict, name: string, c: Config)
    requires "name" !in props
    ensures !UpsertGuardFires(props, name, c)
  {
    var prior := Recorded(props, ["name", "scheme", "load_balancer_type"]);
    assert prior[0] == Null && prior[1] == Null && prior[2] == Null;
  }

  /** The check at the top of `get_load_balancer`: a recorded truthy name that differs. */
  predicate NameChanged(props: Dict, name: string)
  {
    Truthy(Get(props, "name")) && Get(props, "name") != Str(name)
  }

  /** The operations that the follow-up checks of get and create may enqueue, or the `KeyError` they may raise. */
  datatype FollowUps = FollowUps(ipAddressType: bool, subnets: bool, securityGroups: bool) | KeyErrorRaised(ipAddressType: bool)

  /**
   * load_balancer/lambda_function.py:294-303, as written: `attributes` is looked
   * up with snake_case keys, and `attributes["load_balancer_type"]` is evaluated
   * only when the subnets agree and the address families differ.
   */
  function FollowUpChecks(attributes: Dict, prev: Dict): (f: FollowUps)
  {
    var ipDiffers := Get(attributes, "ip_address_type") != Get(prev, "ip_address_type");
    var subnetsDiffer := Get(attributes, "subnets") != Get(prev, "subnets");
    if !subnetsDiffer && ipDiffers && "load_balancer_type" !in attributes then
      KeyErrorRaised(ipDiffers)
    else
      var network := !subnetsDiffer && ipDiffers && attributes["load_balancer_type"] == Str("network");
      FollowUps(ipDiffers, subnetsDiffer || network,
                Get(attributes, "security_groups") != Get(prev, "security_groups"))
  }

  /**
   * What the snake_case lookups amount to: each follow-up is enqueued exactly
   * when the previous Props record a non-`None` value for it, and the check
   * raises `KeyError` when Props record an address family but no subnets.
   */
  lemma FollowUpsFromPreviousProps(name: string, c: Config, prev: Dict)
    ensures var f := FollowUpChecks(Attributes(name, c), prev);
      var ip := Get(prev, "ip_address_type") != Null;
      var subnets := Get(prev, "subnets") != Null;
      var sgs := Get(prev, "security_groups") != Null;
      (if !subnets && ip then f == KeyErrorRaised(true) else f == FollowUps(ip, subnets, sgs))
  {
    var a := Attributes(name, c);
    assert Get(a, "ip_address_type") == Null && Get(a, "subnets") == Null && Get(a, "security_groups") == Null;
  }

  /** On a first deployment (no previous Props) no follow-up operation is enqueued. */
  lemma NoFollowUpsWithoutHistory(name: string, c: Config)
    ensures FollowUpChecks(Attributes(name, c), map[]) == FollowUps(false, false, false)
  {
  }

  /** The `set_subnets` request: the address family is sent only for a network load balancer. */
  function SetSubnetsRequest(arn: Json, subnets: Option<seq<string>>, ipAddressType: string, loadBalancerType: string): (r: Dict)
    ensures "IpAddressType" in r <==> loadBalancerType == "network"
    ensures "IpAddressType" in r ==> r["IpAddressType"] == Str(ipAddressType)
    ensures r.Keys - {"IpAddressType"} == {"LoadBalancerArn", "Subnets"}
    ensures r["LoadBalancerArn"] == arn && r["Subnets"] == OptionalList(subnets)
  {
    var payload := map["LoadBalancerArn" := arn, "Subnets" := OptionalList(subnets)];
    if loadBalancerType == "network" then payload["IpAddressType" := Str(ipAddressType)] else payload
  }
}
