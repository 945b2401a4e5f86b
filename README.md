# ELBv2 reconciliation handlers, modelled in Dafny

Three handlers reconcile an Elastic Load Balancing (v2) resource with its declared component definition:
- a load balancer;
- a listener rule;
- a listener.

Each handler runs as one pass. A pass starts from a fresh event or from a retry that resumes an earlier pass. On a fresh pass, the handler declares a starting point: an upsert enqueues the lookup, and a delete enqueues the delete. It then offers its operations one by one, in a fixed order. An operation runs only when it is enqueued and the pass has not yet declared a retry or a failure. A running operation can do three things. It can make AWS requests. It can enqueue later operations, each with an optional payload. It can merge entries into the pass's State (kept across retries) and Props (returned to the platform).

The model has three layers.

- **The handler (`Extension`).** `Extension.Handler` is a class holding the queue, State, Props, the declared retry or failure, the run record and the request log. Its methods are `add_op`, `add_state`, `add_props`, `retry_error`, `perm_error`, `handle_common_errors`, the `@ext` gate and the top-level `except`.
- **The AWS answers (`World`).** Every answer an operation can receive is an input, written `Ok(value)` or `Raised(fault)`. A fault carries its exception class, its message and whether the bounded retry count is used up.
- **The effects.** Each operation is a pure *effect* function of its inputs and the world. The effect is the operations it enqueues, the State and Props it merges, the retry or failure it declares and the requests it makes. The imperative method running that operation on the handler is proved to apply exactly that effect. Properties are lemmas about the effects and about the pure parts:
  - the tag diff;
  - the special-attribute merge and reset;
  - the attribute maps;
  - the update decisions;
  - the immutable-field guards;
  - the lookup classification;
  - the provisioning poller;
  - the key/value and rule-condition converters.

Python values (`None`, strings, integers, booleans, lists, dictionaries) are the `PyValue.Value` datatype. Dictionaries whose order matters are sequences of pairs:
- the declared tags;
- the query-string values of a rule condition.

The source's own quirks are modelled as written, and lemmas exhibit them:
- the rule's listener guard compares a value with itself;
- the load balancer's follow-up checks read snake_case keys of a PascalCase map;
- a falsy special attribute falls back to its default;
- the listener re-derives a missing protocol or SSL policy as the string `"None"`.

## Model

| member | source | states |
|---|---|---|
| PyValue.RemoveNoneIdempotent | load_balancer/lambda_function.py:153-164 | after `remove_none_attributes` no value is `None`, applying it again changes nothing, and `get` reads the same as on the original |
| PyValue.RemoveNoneFixed | load_balancer/lambda_function.py:153-164 | `remove_none_attributes` leaves a dictionary unchanged exactly when it holds no `None` |
| PyValue.PutUnlessNoneIsRemoveNone | listener/lambda_function.py:95-106 | adding a literal's entries one by one, each unless `None`, is `remove_none_attributes` of the whole literal |
| PyValue.WithoutCompose | listener/lambda_function.py:232-233 | leaving out two key sets in turn is leaving out their union, and leaving out absent keys changes nothing |
| PyValue.WithoutEqual | listener/lambda_function.py:232-234 | two dictionaries agree once `keys` are left out exactly when every other key is in both or neither, with equal values |
| PyValue.StrOrNoneConflates | listener/lambda_function.py:222-224 | `str()` of optional strings tells every two apart except a missing value and the string `"None"` |
| PyValue.FromOption | listener/lambda_function.py:200-215 | a recorded optional string is `None` exactly when absent, and the string itself otherwise |
| PyValue.OrDefault | rule/lambda_function.py:211 | `x or default` is never empty when the default is not, and applying it again changes nothing |
| PyValue.OptionalList | load_balancer/lambda_function.py:670-673 | an optional list is `None` exactly when absent, and the list of its strings otherwise |
| PyValue.OptionalListInjective | load_balancer/lambda_function.py:641-643 | distinct optional lists of strings are distinct values: every string is kept, in order |
| PyValue.AsStrMapReadsStrings | rule/lambda_function.py:73-85 | reading a dictionary back succeeds exactly when every value is a string, and keeps every entry |
| PyValue.StrMapRoundTrip | rule/lambda_function.py:65-85 | a dictionary of strings stored and read back is unchanged |
| PyValue.NatStr | rule/lambda_function.py:343-352 | `str(n)` of a non-negative integer is a non-empty run of decimal digits |
| PyValue.IntStr | rule/lambda_function.py:343-352 | `str(i)` is non-empty, starts with `-` exactly for a negative `i`, and is the digits of `abs(i)` after that sign |
| PyValue.IntStrInjective | rule/lambda_function.py:343-352 | distinct integers have distinct strings |
| PyValue.NatStrValue | rule/lambda_function.py:343-352 | the digits of `str(n)` denote `n` |
| PyValue.ParseInt | rule/lambda_function.py:346 | `int(s)` succeeds exactly on a non-empty run of digits, with a non-negative value |
| PyValue.ParseIntStr | rule/lambda_function.py:346 | `int(str(n)) == n` for every non-negative `n` |
| PyValue.LowerIdempotent | load_balancer/lambda_function.py:118-132 | lowering a lowered string changes nothing and leaves no upper-case ASCII letter |
| KeyValue.CompressedDictKeys | rule/lambda_function.py:80-85 | the compressed dictionary has one key per distinct key of the objects |
| KeyValue.CompressedDictKeepsLast | rule/lambda_function.py:80-85 | each key holds the value of the last object with that key |
| KeyValue.CompressExpandDict | rule/lambda_function.py:65-85 | compressing the expansion of a dictionary gives it back |
| KeyValue.ExpandDictOnePerKey | rule/lambda_function.py:65-71 | the expansion of a dictionary has exactly one object per key, with the same key set |
| KeyValue.ExpandCompressListDict | rule/lambda_function.py:56-78 | expanding the compressed list gives back the objects |
| KeyValue.CompressExpandListDict | rule/lambda_function.py:56-78 | single-key dictionaries survive expansion then compression |
| KeyValue.TagList | load_balancer/lambda_function.py:160 | the `Tags` list holds, at each position, the `{"Key", "Value"}` object of the declared pair there |
| KeyValue.TagListInjective | load_balancer/lambda_function.py:160 | distinct declared tag lists give distinct `Tags` values |
| KeyValue.KeyValueList | rule/lambda_function.py:56-71 | a list of key/value objects as a value holds, at each position, the `{"Key", "Value"}` object of that pair |
| KeyValue.TagListIsExpansion | rule/lambda_function.py:228 | the `Tags` attribute is the expansion of the declared dictionary |
| RuleConditions.QueryValues | rule/lambda_function.py:120-127 | the values of a `query-string` condition expand its list of dictionaries, and raise when absent |
| RuleConditions.FormattingStaysRaised | rule/lambda_function.py:87-137 | once formatting a prefix raises, formatting the whole list raises |
| RuleConditions.FormatConditions | rule/lambda_function.py:87-137 | the appending loop computes the formatted conditions |
| RuleConditions.ReadingStaysRaised | rule/lambda_function.py:139-176 | once reading back a prefix raises, reading the whole list raises |
| RuleConditions.ReadBack | rule/lambda_function.py:139-176 | the appending loop computes the read-back conditions |
| RuleConditions.KnownConditions | rule/lambda_function.py:87-137 | the declared conditions kept are those of the six known fields, in order |
| RuleConditions.KnownRuleConditions | rule/lambda_function.py:139-176 | the formatted conditions kept are those of a known field, in order |
| RuleConditions.FormattingKeepsKnownInOrder | rule/lambda_function.py:87-137 | formatting keeps exactly the known-field conditions, in order, each formatted alone, and fails exactly when one of them cannot be formatted |
| RuleConditions.ReadingKeepsKnownInOrder | rule/lambda_function.py:139-176 | reading back keeps exactly the known-field conditions, in order, each read alone, and fails exactly when one of them cannot be read |
| RuleConditions.UnknownFieldDropped | rule/lambda_function.py:87-137 | a condition of an unknown field leaves no trace |
| RuleConditions.ReadFormat | rule/lambda_function.py:87-176 | one faithful condition formatted and read back is itself |
| RuleConditions.ReadFormatted | rule/lambda_function.py:87-176 | formatting then reading back gives the known-field conditions in order, when each is faithful |
| RuleConditions.FormatReadOne | rule/lambda_function.py:87-176 | one canonical formatted condition read back and formatted again is itself |
| RuleConditions.FormatRead | rule/lambda_function.py:87-176 | reading back then formatting gives canonical formatted conditions unchanged |
| RuleConditions.FormatIsCanonical | rule/lambda_function.py:87-137 | every formatted condition of a known field is canonical |
| RuleConditions.ReformatFormatted | rule/lambda_function.py:87-176 | formatting, reading back and formatting again gives the first result, and reads back nothing exactly when nothing was formatted |
| Tags.CurrentTagsWithoutMatch | load_balancer/lambda_function.py:332-339 | with no description of the resource, the live tags are empty |
| Tags.CurrentTagsOfFirstMatch | load_balancer/lambda_function.py:332-339 | the first description of the resource supplies the live tags |
| Tags.DesiredTags | load_balancer/lambda_function.py:342-345 | the compared declared tags are the declared dictionary |
| Tags.PlanDiff | load_balancer/lambda_function.py:342-357 | removed keys are exactly the live keys not declared, set pairs are exactly the declared pairs that differ, and the two are disjoint |
| Tags.PlanConverges | load_balancer/lambda_function.py:347-353 | removing then setting as planned turns the live tags into the declared ones |
| Tags.PlanIsSymmetricDifference | load_balancer/lambda_function.py:347-353 | the plan touches exactly the keys where live and declared tags disagree |
| Tags.PlanEmptyWhenEqual | load_balancer/lambda_function.py:347-353 | the plan is empty exactly when live and declared tags are equal |
| Tags.PlanUndeclaredRemovesAll | load_balancer/lambda_function.py:355-357 | with no tags declared every live key is removed and nothing is set |
| Tags.PlanExample | load_balancer/lambda_function.py:347-353 | live `{a:1, b:2}` against declared `{b:2, c:3}` removes `a` and sets `c` |
| Tags.PlanOps | load_balancer/lambda_function.py:350-357 | `remove_tags` is enqueued exactly when keys are to be removed, `set_tags` exactly when pairs are to be set, each with its payload |
| Tags.EnqueueTagOps | load_balancer/lambda_function.py:342-357 | the handler's queue gains exactly the plan's operations |
| Tags.TagLookupConfined | load_balancer/lambda_function.py:328-362 | the tag lookup enqueues only tag operations and records nothing |
| Tags.TagLookup | load_balancer/lambda_function.py:328-362 | the tag lookup applies its effect to the handler |
| Tags.RunRemoveTags | listener/lambda_function.py:407-423 | `remove_tags` applies its effect to the handler |
| Tags.RunSetTags | listener/lambda_function.py:426-449 | `set_tags` applies its effect to the handler |
| Tags.RemoveTagsSendsEnqueued | listener/lambda_function.py:407-423 | `remove_tags` sends the enqueued keys to the recorded resource; the ignored class is quiet, other faults go to the common handler at 90 |
| Tags.RemoveTagsWithoutArnCrashes | listener/lambda_function.py:411 | without a recorded ARN `remove_tags` crashes and sends nothing |
| Tags.SetTagsSendsEnqueued | listener/lambda_function.py:426-449 | `set_tags` sends the enqueued tags; not found, duplicate keys and too many tags fail at 90 with the text, others go to the common handler at 90 |
| Tags.SetTagsCrashes | listener/lambda_function.py:429-434 | `set_tags` crashes exactly when no ARN is recorded or the payload is no tag dictionary, and then sends nothing |
| Extension.ClassifyCommon | listener/lambda_function.py:352-404 | a fault reaches the common handler exactly when its class is neither ignored nor listed as permanent |
| Extension.ThenAssoc | load_balancer/lambda_function.py:25-48 | applying two effects in turn is applying their composition |
| Extension.EscapeConfined | listener/lambda_function.py:236-289 | a fault escaping the nested tag lookup only declares a retry or a failure |
| Extension.Handler.constructor | load_balancer/lambda_function.py:65 | `capture_event` loads the carried ledger with no retry, no failure, nothing run and no request |
| Extension.Handler.Result | load_balancer/lambda_function.py:36 | `finish()` reports success exactly when no retry or failure was declared |
| Extension.Handler.Begin | load_balancer/lambda_function.py:33 | `@ext` runs an operation exactly when it is enqueued and the pass is live, and records it |
| Extension.Handler.AddOp | load_balancer/lambda_function.py:27 | `add_op` enqueues the operation with its payload |
| Extension.Handler.AddState | load_balancer/lambda_function.py:38-40 | `add_state` merges, the new entries winning |
| Extension.Handler.AddProps | load_balancer/lambda_function.py:28 | `add_props` merges, the new entries winning |
| Extension.Handler.RetryError | load_balancer/lambda_function.py:30-32 | `retry_error` declares the retry with its progress and callback |
| Extension.Handler.PermError | load_balancer/lambda_function.py:35 | `perm_error` declares the permanent failure with its message and progress |
| Extension.Handler.Unexpected | load_balancer/lambda_function.py:242-247 | the top-level `except` declares the unexpected error |
| Extension.Handler.HandleCommon | load_balancer/lambda_function.py:518 | `handle_common_errors` retries under the title until the retry count is used up, then fails |
| Extension.Handler.Handle | load_balancer/lambda_function.py:478-518 | an `except` ladder ignores, fails with the fault's text, or hands over to the common handler |
| Extension.Handler.Escape | load_balancer/lambda_function.py:324-326 | a fault escaping a nested `try` is handled by the enclosing one |
| Extension.Handler.Call | load_balancer/lambda_function.py:385 | a request is appended to the request log |
| Extension.OrderedInOrder | load_balancer/lambda_function.py:217-234 | the operations run so far are in the fixed order |
| Extension.RunNext | load_balancer/lambda_function.py:217-234 | running an operation ranked above all that ran keeps the order |
| LoadBalancerAttributes.DefaultsCover | load_balancer/lambda_function.py:135-151 | every special attribute but the access-log bucket and prefix has its literal default |
| LoadBalancerAttributes.EncodeSetting | load_balancer/lambda_function.py:117-133 | a setting is kept unless `None`, lower-cased text when truthy, itself when falsy |
| LoadBalancerAttributes.SpecialAttributesOfSettings | load_balancer/lambda_function.py:117-133 | a special attribute is present exactly when its setting is, and truthy exactly when the setting is |
| LoadBalancerAttributes.LiveSpecialKeepsOthers | load_balancer/lambda_function.py:311-313 | every live attribute but `ipv6.deny_all_igw_traffic` is compared with the reported value, and that one exactly when reported and the load balancer is not `ipv4` |
| LoadBalancerAttributes.MergeTargetChoosesDeclaredOrDefault | load_balancer/lambda_function.py:315-319 | the update target covers live keys only, keeps a key exactly when it is declared truthy or has a default, and holds the declaration if truthy and the default otherwise |
| LoadBalancerAttributes.ResetTargetIsDefaults | load_balancer/lambda_function.py:736 | a reset sends exactly the live keys that have a default, each set to it |
| LoadBalancerAttributes.ResetOmitsAccessLogLocation | load_balancer/lambda_function.py:135-151 | a reset never sends the access-log bucket or prefix |
| LoadBalancerAttributes.FalsyDeclarationFallsBack | load_balancer/lambda_function.py:317 | a declared `false` cross-zone setting sends the default `"true"` |
| LoadBalancerAttributes.TrueDeclarationIsLowered | load_balancer/lambda_function.py:131 | a declared `True` is sent as `"true"` |
| LoadBalancerAttributes.Attributes | load_balancer/lambda_function.py:154-164 | name, scheme, type and address family are always present; subnets, security groups and tags exactly when given, each holding the declared value |
| LoadBalancerAttributes.AttributeDefaults | load_balancer/lambda_function.py:154-164 | unset scheme, type and address family become `internal`, `application` and `ipv4` |
| LoadBalancerAttributes.Recorded | load_balancer/lambda_function.py:179-185 | the guard reads the recorded fields in order, and the first missing one leaves it and the later ones `None` |
| LoadBalancerAttributes.UpsertGuardOnName | load_balancer/lambda_function.py:192-198 | a recorded name other than the declared one trips the guard |
| LoadBalancerAttributes.UpsertGuardOnSchemeOrType | load_balancer/lambda_function.py:192-198 | a recorded scheme or type that differs trips the guard when read |
| LoadBalancerAttributes.UpsertGuardNeedsName | load_balancer/lambda_function.py:179-198 | without a recorded name the guard never fires |
| LoadBalancerAttributes.FollowUpsFromPreviousProps | load_balancer/lambda_function.py:294-303 | each follow-up is enqueued exactly when the previous Props record it, and an address family without subnets raises |
| LoadBalancerAttributes.NoFollowUpsWithoutHistory | load_balancer/lambda_function.py:294-303 | a first deployment enqueues no follow-up |
| LoadBalancerAttributes.SetSubnetsRequest | load_balancer/lambda_function.py:670-675 | `set_subnets` sends the address family exactly for a network load balancer |
| LoadBalancer.SpecialStep | load_balancer/lambda_function.py:315-322 | records the update target or the live attributes and enqueues the update or the reset |
| LoadBalancer.Lookups | load_balancer/lambda_function.py:306-362 | the special-attribute and tag lookups apply their effect |
| LoadBalancer.EnqueueFollowUps | load_balancer/lambda_function.py:294-303 | the queue gains exactly the selected follow-ups |
| LoadBalancer.FollowUp | load_balancer/lambda_function.py:291-362 | what lookup and create do once the load balancer is known |
| LoadBalancer.FollowUpsThenCrash | load_balancer/lambda_function.py:298-299 | the follow-ups enqueued before `attributes["load_balancer_type"]` raises |
| LoadBalancer.FollowUpsThenLookups | load_balancer/lambda_function.py:294-362 | the follow-ups, then the lookups |
| LoadBalancer.GetLoadBalancer | load_balancer/lambda_function.py:256-378 | `get_load_balancer` applies its effect |
| LoadBalancer.Found | load_balancer/lambda_function.py:271-362 | records the found load balancer, then the follow-ups and lookups |
| LoadBalancer.CreateLoadBalancer | load_balancer/lambda_function.py:381-518 | `create_load_balancer` applies its effect |
| LoadBalancer.Created | load_balancer/lambda_function.py:385-477 | records the created load balancer, enqueues the poller, then the follow-ups and lookups |
| LoadBalancer.CheckCreateComplete | load_balancer/lambda_function.py:521-555 | the poller applies its effect |
| LoadBalancer.SetIpAddressType | load_balancer/lambda_function.py:603-632 | `set_ip_address_type` applies its effect |
| LoadBalancer.SetSecurityGroups | load_balancer/lambda_function.py:634-663 | `set_security_groups` applies its effect |
| LoadBalancer.SetSubnets | load_balancer/lambda_function.py:665-703 | `set_subnets` applies its effect |
| LoadBalancer.Modify | load_balancer/lambda_function.py:713-728 | `modify_load_balancer_attributes` and its ladder apply their effect |
| LoadBalancer.UpdateSpecial | load_balancer/lambda_function.py:706-728 | the special-attribute update applies its effect |
| LoadBalancer.ResetSpecial | load_balancer/lambda_function.py:730-754 | the special-attribute reset applies its effect |
| LoadBalancer.DeleteLoadBalancer | load_balancer/lambda_function.py:757-773 | `delete_load_balancer` applies its effect |
| LoadBalancer.RunLifecycleOp | load_balancer/lambda_function.py:217-224 | a lifecycle operation's body; the delete enqueues nothing and makes only its request |
| LoadBalancer.RunUpdateOp | load_balancer/lambda_function.py:228-234 | an update operation's body leaves the run record alone |
| LoadBalancer.LifecycleStep | load_balancer/lambda_function.py:217-224 | the gate runs the operation exactly when scheduled, after everything of lower rank |
| LoadBalancer.UpdateStep | load_balancer/lambda_function.py:228-234 | the gate around an update keeps the order, and does nothing unless scheduled |
| LoadBalancer.DispatchLookup | load_balancer/lambda_function.py:217-220 | the lookup runs first when enqueued on a live pass, and a lone delete runs alone |
| LoadBalancer.DispatchCreate | load_balancer/lambda_function.py:223-224 | the create and its poller keep the order |
| LoadBalancer.DispatchLifecycle | load_balancer/lambda_function.py:217-224 | the lookup, delete, create and poller keep the order |
| LoadBalancer.DispatchTags | load_balancer/lambda_function.py:228-229 | the tag updates keep the order |
| LoadBalancer.DispatchNetwork | load_balancer/lambda_function.py:230-232 | the network updates keep the order |
| LoadBalancer.DispatchSpecial | load_balancer/lambda_function.py:233-234 | the special-attribute update and reset keep the order |
| LoadBalancer.DispatchSettings | load_balancer/lambda_function.py:230-234 | the network and special-attribute updates keep the order |
| LoadBalancer.DispatchUpdates | load_balancer/lambda_function.py:228-234 | every update keeps the order |
| LoadBalancer.Dispatch | load_balancer/lambda_function.py:217-234 | operations run in the fixed order, only on a live pass; the lookup runs first when enqueued |
| LoadBalancer.DeleteEnqueuesNothing | load_balancer/lambda_function.py:757-773 | the delete never enqueues and makes at most its one request |
| LoadBalancer.Start | load_balancer/lambda_function.py:167-204 | an upsert enqueues the lookup and fails at progress 10 when the guard fires; a delete enqueues the delete of the recorded ARN or crashes; a resumed pass declares nothing |
| LoadBalancer.Reconcile | load_balancer/lambda_function.py:56-247 | a pass runs its operations in order, starting with the lookup on upsert and the delete alone on delete |
| LoadBalancerProperties.LookupConfined | load_balancer/lambda_function.py:306-362 | the lookups enqueue only updates and record only the special-attribute State |
| LoadBalancerProperties.KnownConfined | load_balancer/lambda_function.py:291-362 | a known load balancer enqueues only updates and records no Props |
| LoadBalancerProperties.GetCreatesWhenNotFound | load_balancer/lambda_function.py:370-373 | not found enqueues exactly the create |
| LoadBalancerProperties.GetRetriesOnFault | load_balancer/lambda_function.py:374-378 | any other fault retries at progress 10 and enqueues nothing |
| LoadBalancerProperties.GetIgnoresEmptyAnswer | load_balancer/lambda_function.py:364-365 | an empty answer does nothing, not even the create |
| LoadBalancerProperties.GetRefusesRename | load_balancer/lambda_function.py:260-264 | a changed name fails at progress 0 before any request |
| LoadBalancerProperties.GetRecordsFound | load_balancer/lambda_function.py:271-303 | a found load balancer is recorded in State and Props, and only updates are enqueued |
| LoadBalancerProperties.CreateRecordsCreated | load_balancer/lambda_function.py:385-404 | a created load balancer and its name are recorded and the poller is enqueued |
| LoadBalancerProperties.CreateAccepted | load_balancer/lambda_function.py:154-164 | botocore always accepts the `create_load_balancer` request: `Name` is present and no value holds `None` |
| LoadBalancerProperties.CreateWithoutLoadBalancersCrashes | load_balancer/lambda_function.py:385-386 | an answer without load balancers makes `[0]` raise: the pass crashes and records nothing |
| LoadBalancerProperties.CreatedRecords | load_balancer/lambda_function.py:390-404 | what the create records about the new load balancer |
| LoadBalancerProperties.CreateFailsOnPermanentFault | load_balancer/lambda_function.py:478-514 | a listed create fault fails at progress 20 with its text |
| LoadBalancerProperties.CreateRetriesOtherFaults | load_balancer/lambda_function.py:516-518 | any other create fault goes to the common handler at progress 20 |
| LoadBalancerProperties.PollActiveSucceeds | load_balancer/lambda_function.py:534-535 | `active` and `active_impaired` end the wait without error |
| LoadBalancerProperties.PollFailedFails | load_balancer/lambda_function.py:536-538 | `failed` fails at progress 20 with the reason |
| LoadBalancerProperties.PollPendingWaits | load_balancer/lambda_function.py:539-541 | any other state retries at progress 30 after 8 seconds |
| LoadBalancerProperties.PollNotFoundIsQuiet | load_balancer/lambda_function.py:543-551 | a vanished load balancer, or an empty answer, ends the poller quietly |
| LoadBalancerProperties.PollWithoutNameCrashes | load_balancer/lambda_function.py:524 | polling with no recorded name crashes |
| LoadBalancerProperties.DeleteNotFoundIsQuiet | load_balancer/lambda_function.py:757-771 | deleting a load balancer already gone is not an error |
| LoadBalancerProperties.DeleteInUseRetries | load_balancer/lambda_function.py:765-766 | a load balancer in use goes to the common handler at progress 80 |
| LoadBalancerProperties.DeleteNotPermittedCrashes | load_balancer/lambda_function.py:767-769 | `OperationNotPermittedException` reaches the unbound `e` and crashes |
| LoadBalancerProperties.SetIpAddressTypeCrashes | load_balancer/lambda_function.py:604-608 | `set_ip_address_type` crashes exactly when no load balancer or region is recorded, sending nothing |
| LoadBalancerProperties.SetIpAddressTypeRecords | load_balancer/lambda_function.py:610-619 | the reported address family is recorded and the pass goes on |
| LoadBalancerProperties.SetIpAddressTypeFaults | load_balancer/lambda_function.py:621-632 | a listed fault fails at 70 with its text, any other goes to the common handler at 70 |
| LoadBalancerProperties.SetSecurityGroupsCrashes | load_balancer/lambda_function.py:635-644 | `set_security_groups` crashes exactly when nothing is recorded or no security groups are declared (botocore refuses `None`), sending nothing |
| LoadBalancerProperties.SetSecurityGroupsRecords | load_balancer/lambda_function.py:641-650 | the declared groups are sent and the reported ones recorded |
| LoadBalancerProperties.SetSecurityGroupsFaults | load_balancer/lambda_function.py:652-663 | a listed fault fails at 70 with its text, any other goes to the common handler at 70 |
| LoadBalancerProperties.SetSubnetsCrashes | load_balancer/lambda_function.py:666-677 | `set_subnets` crashes exactly when no load balancer is recorded or no subnets are declared (botocore refuses `None`), sending nothing |
| LoadBalancerProperties.SetSubnetsRecords | load_balancer/lambda_function.py:677-685 | the request is sent and the reported subnets and address family recorded |
| LoadBalancerProperties.SetSubnetsFaults | load_balancer/lambda_function.py:687-703 | a listed fault fails at 70 with its text, any other goes to the common handler at 70 |
| LoadBalancerProperties.UpdateSendsMergeTarget | load_balancer/lambda_function.py:706-717 | the update sends exactly the target the lookup recorded |
| LoadBalancerProperties.ResetLookupLeavesUpdate | load_balancer/lambda_function.py:315-322 | a lookup without declared special attributes leaves what the special update would send unchanged |
| LoadBalancerProperties.ResetSendsDefaults | load_balancer/lambda_function.py:730-743 | the reset sends every live key that has a default, set to it |
| Rule.ModifyRequest | rule/lambda_function.py:571-572 | `modify_rule` sends the attributes without tags, listener and priority, plus the recorded rule ARN |
| Rule.CurrentOf | rule/lambda_function.py:329-352 | the current attributes computed by reading the conditions back and formatting them again |
| Rule.EnqueueUpdates | rule/lambda_function.py:354-360 | the queue gains exactly the selected updates |
| Rule.Compare | rule/lambda_function.py:343-398 | the comparison and tag lookup apply their effect |
| Rule.Found | rule/lambda_function.py:323-398 | records the found rule, then compares |
| Rule.GetRule | rule/lambda_function.py:309-418 | `get_rule` applies its effect |
| Rule.Created | rule/lambda_function.py:426-479 | records the created rule, then looks up its tags |
| Rule.CreateRule | rule/lambda_function.py:420-521 | `create_rule` applies its effect |
| Rule.Modified | rule/lambda_function.py:575-586 | records the Props of the modified rule |
| Rule.UpdateRule | rule/lambda_function.py:569-617 | `update_rule` applies its effect |
| Rule.UpdateRulePriority | rule/lambda_function.py:619-644 | `update_rule_priority` applies its effect |
| Rule.DeleteRule | rule/lambda_function.py:647-659 | `delete_rule` applies its effect |
| Rule.DeleteEnqueuesNothing | rule/lambda_function.py:647-659 | the delete never enqueues and makes at most its one request |
| Rule.RunLifecycleOp | rule/lambda_function.py:274-280 | a lifecycle operation's body; the delete enqueues nothing and makes only its request |
| Rule.RunUpdateOp | rule/lambda_function.py:281-287 | an update operation's body leaves the run record alone |
| Rule.LifecycleStep | rule/lambda_function.py:274-280 | the gate runs the operation exactly when scheduled, after everything of lower rank |
| Rule.UpdateStep | rule/lambda_function.py:281-287 | the gate around an update keeps the order, and does nothing unless scheduled |
| Rule.DispatchLookup | rule/lambda_function.py:274-277 | the lookup runs first when enqueued on a live pass, and a lone delete runs alone |
| Rule.DispatchChanges | rule/lambda_function.py:280-281 | the create and update keep the order |
| Rule.DispatchSettings | rule/lambda_function.py:282-287 | the priority and tag updates keep the order |
| Rule.DispatchUpdates | rule/lambda_function.py:280-287 | the create and every update keep the order |
| Rule.Dispatch | rule/lambda_function.py:274-287 | operations run in the fixed order, only on a live pass; the lookup runs first when enqueued |
| Rule.Start | rule/lambda_function.py:233-261 | an upsert enqueues the lookup; a delete enqueues the delete of the recorded ARN or crashes; a resumed pass declares nothing |
| Rule.Reconcile | rule/lambda_function.py:179-300 | malformed conditions crash before any starting point; otherwise operations run in order, starting with the lookup or the lone delete |
| RuleProperties.AttributesDeclared | rule/lambda_function.py:206-230 | the action is always declared, `forward` by default; listener, conditions, priority and tags exactly when given, each holding the declared value |
| RuleProperties.ListenerArnGuardNeverFires | rule/lambda_function.py:240-255 | the listener guard compares a value with itself and never fires |
| RuleProperties.GetCreatesWithoutRecordedArn | rule/lambda_function.py:414-417 | with no recorded ARN the lookup only enqueues the create |
| RuleProperties.GetCreatesWhenMissing | rule/lambda_function.py:400-408 | an empty answer or `RuleNotFoundException` enqueues exactly the create |
| RuleProperties.GetRetriesOnFault | rule/lambda_function.py:409-413 | any other fault retries at progress 10 and never enqueues the create |
| RuleProperties.GetComparesFound | rule/lambda_function.py:323-398 | a found rule is recorded; `update_rule` is enqueued exactly when the attributes but tags and priority differ, `update_rule_priority` exactly when the priorities differ |
| RuleProperties.GetCrashesOnUnreadableRule | rule/lambda_function.py:329-352 | an unreadable found rule crashes after it is recorded in State |
| RuleProperties.DeclaredRuleNeedsNoUpdate | rule/lambda_function.py:329-357 | a live rule holding the declaration does not enqueue `update_rule` |
| RuleProperties.ListenerChangeUpdates | rule/lambda_function.py:354-357 | a recorded listener other than the declared one enqueues `update_rule` |
| RuleProperties.ActionChangeUpdates | rule/lambda_function.py:354-357 | a live action other than the declared one enqueues `update_rule` |
| RuleProperties.RecordedPriorityParses | rule/lambda_function.py:346 | the live priority text parses back to its number |
| RuleProperties.DefaultPriorityRaises | rule/lambda_function.py:346 | the `default` priority of a default rule makes `int` raise |
| RuleProperties.PriorityDecision | rule/lambda_function.py:358-360 | with both priorities numbers, the priority update is enqueued exactly when they differ |
| RuleProperties.UndeclaredPriorityAlwaysReapplied | rule/lambda_function.py:358-360 | with no declared priority the priority update is enqueued on every comparison |
| RuleProperties.CreateRecordsCreated | rule/lambda_function.py:426-479 | a created rule is recorded and only tag operations are enqueued |
| RuleProperties.CreateFailsOnPermanentFault | rule/lambda_function.py:481-519 | a listed create fault fails at progress 20 with its text |
| RuleProperties.CreateWithoutRulesCrashes | rule/lambda_function.py:423-425 | an answer without rules crashes |
| RuleProperties.CreateAccepted | rule/lambda_function.py:219-229 | botocore accepts the `create_rule` request exactly when listener, a condition, priority and target group are declared and the conditions hold no `None` |
| Rule.ActionsNoNone | rule/lambda_function.py:223-226 | the `Actions` list holds no `None` exactly when neither its type nor its target group does |
| RuleProperties.CreateRefusedCrashes | rule/lambda_function.py:424 | a refused request crashes before anything is sent, recording nothing |
| RuleProperties.CreateWithoutPriorityCrashes | rule/lambda_function.py:224 | a rule declared without a priority is never created |
| RuleProperties.UpdateWithoutTargetGroupCrashes | rule/lambda_function.py:572-574 | without a declared target group `modify_rule` is refused and the update crashes, sending nothing |
| RuleProperties.UpdateKeepsListener | rule/lambda_function.py:571-586 | `modify_rule` never sends the listener, yet the recorded listener becomes the declared one |
| RuleProperties.UpdateFaults | rule/lambda_function.py:589-617 | a listed update fault fails at progress 20, other faults go to the common handler |
| RuleProperties.PriorityRecordedUnderOtherKey | rule/lambda_function.py:632 | the priority update records the declared number under `Priority`, not the `priority` that lookup and create record |
| RuleProperties.PriorityAccepted | rule/lambda_function.py:624-631 | botocore accepts the `set_rule_priorities` request exactly when a priority is declared and the recorded ARN holds no `None` |
| RuleProperties.PriorityWithoutDeclarationCrashes | rule/lambda_function.py:628 | without a declared priority `'Priority': None` is refused: the pass crashes and nothing is sent or recorded |
| RuleProperties.PriorityFaults | rule/lambda_function.py:634-644 | not found crashes on the unbound `e`; a taken priority or forbidden operation fails at 30; others go to the common handler at 80 |
| RuleProperties.DeleteNotFoundIsQuiet | rule/lambda_function.py:655-657 | deleting a rule already gone is quiet |
| RuleProperties.DeleteRetriesOtherFaults | rule/lambda_function.py:658-659 | any other delete fault goes to the common handler at progress 80 |
| Listener.First | listener/lambda_function.py:218-230 | the first entry of an optional list, the stand-in when absent, none when empty |
| Listener.ModifyRequest | listener/lambda_function.py:454-455 | `modify_listener` sends the attributes without tags and load balancer, plus the recorded listener ARN |
| Listener.EnqueueUpdate | listener/lambda_function.py:232-234 | the queue gains exactly the selected update |
| Listener.Compare | listener/lambda_function.py:218-270 | the comparison and tag lookup apply their effect |
| Listener.Found | listener/lambda_function.py:200-270 | records the found listener, then compares |
| Listener.GetListener | listener/lambda_function.py:187-289 | `get_listener` applies its effect |
| Listener.Created | listener/lambda_function.py:296-350 | records the created listener, then looks up its tags |
| Listener.CreateListener | listener/lambda_function.py:292-404 | `create_listener` applies its effect |
| Listener.UpdateListener | listener/lambda_function.py:452-529 | `update_listener` applies its effect |
| Listener.DeleteListener | listener/lambda_function.py:533-547 | `delete_listener` applies its effect |
| Listener.DeleteEnqueuesNothing | listener/lambda_function.py:533-547 | the delete never enqueues and makes at most its one request |
| Listener.RunLifecycleOp | listener/lambda_function.py:153-159 | a lifecycle operation's body; the delete enqueues nothing and makes only its request |
| Listener.RunUpdateOp | listener/lambda_function.py:160-165 | an update operation's body leaves the run record alone |
| Listener.LifecycleStep | listener/lambda_function.py:153-159 | the gate runs the operation exactly when scheduled, after everything of lower rank |
| Listener.UpdateStep | listener/lambda_function.py:160-165 | the gate around an update keeps the order, and does nothing unless scheduled |
| Listener.DispatchLookup | listener/lambda_function.py:153-156 | the lookup runs first when enqueued on a live pass, and a lone delete runs alone |
| Listener.DispatchChanges | listener/lambda_function.py:159-160 | the create and update keep the order |
| Listener.DispatchTags | listener/lambda_function.py:164-165 | the tag updates keep the order |
| Listener.DispatchUpdates | listener/lambda_function.py:159-165 | the create, the update and the tag updates keep the order |
| Listener.Dispatch | listener/lambda_function.py:153-165 | operations run in the fixed order get, delete, create, update, remove_tags, set_tags, only on a live pass |
| Listener.Start | listener/lambda_function.py:108-140 | an upsert enqueues the lookup and fails at progress 10 when the guard fires; a delete enqueues the delete of the recorded ARN or crashes |
| Listener.Reconcile | listener/lambda_function.py:56-178 | a pass the guard stops runs nothing and makes no request; otherwise operations run in order |
| ListenerProperties.AttributesDeclared | listener/lambda_function.py:84-106 | protocol, port, SSL policy and action always declared with their defaults; certificate, load balancer and tags exactly when given, each holding the declared value |
| ListenerProperties.PortDefaults | listener/lambda_function.py:85 | an undeclared port or port 0 is 443 |
| ListenerProperties.GuardAcceptsDeclared | listener/lambda_function.py:116-134 | Props of a listener on the declared load balancer and port never trip the guard |
| ListenerProperties.GuardRejectsMovedLoadBalancer | listener/lambda_function.py:129-134 | a recorded load balancer other than the declared one trips the guard |
| ListenerProperties.GuardRejectsPortChange | listener/lambda_function.py:129-134 | a recorded port other than the declared one trips the guard |
| ListenerProperties.PortUncheckedWithoutRecordedLoadBalancer | listener/lambda_function.py:119-123 | with no recorded load balancer the port is never read, so the guard never fires |
| ListenerProperties.GetCreatesWithoutRecordedArn | listener/lambda_function.py:286-289 | with no recorded ARN the lookup only enqueues the create |
| ListenerProperties.GetCreatesWhenMissing | listener/lambda_function.py:272-280 | an empty answer or `ListenerNotFoundException` enqueues exactly the create |
| ListenerProperties.GetRetriesOnFault | listener/lambda_function.py:281-285 | any other fault retries at progress 10 and enqueues nothing |
| ListenerProperties.GetComparesFound | listener/lambda_function.py:200-270 | a found listener is recorded; `update_listener` is enqueued exactly when the attributes but tags differ |
| ListenerProperties.GetCrashesOnEmptyList | listener/lambda_function.py:218-230 | an empty action or certificate list crashes after the listener is recorded |
| ListenerProperties.UpdateDecision | listener/lambda_function.py:218-234 | `update_listener` is enqueued exactly when load balancer, protocol, port, SSL policy, action or certificate differ |
| ListenerProperties.MissingSslPolicyAlwaysUpdates | listener/lambda_function.py:224 | a listener without SSL policy is updated on every pass |
| ListenerProperties.CreateRecordsCreated | listener/lambda_function.py:296-350 | a created listener is recorded and only tag operations are enqueued |
| ListenerProperties.CreateFailsOnPermanentFault | listener/lambda_function.py:352-402 | a listed create fault fails at progress 20 with its text |
| ListenerProperties.CreateRetriesOtherFaults | listener/lambda_function.py:403-404 | any other create fault goes to the common handler at progress 20 |
| ListenerProperties.CreateWithoutListenersCrashes | listener/lambda_function.py:296-297 | an answer without listeners crashes |
| ListenerProperties.CreateAccepted | listener/lambda_function.py:95-106 | botocore accepts the `create_listener` request exactly when the load balancer and the target group are declared |
| Listener.ActionsNoNone | listener/lambda_function.py:101-104 | the `DefaultActions` list holds no `None` exactly when neither its type nor its target group does |
| ListenerProperties.CreateRefusedCrashes | listener/lambda_function.py:296 | a refused request crashes before anything is sent, recording nothing |
| ListenerProperties.UpdateWithoutTargetGroupCrashes | listener/lambda_function.py:454-457 | without a declared target group `modify_listener` is refused and the update crashes, sending nothing |
| ListenerProperties.UpdateSendsDeclared | listener/lambda_function.py:454-471 | `modify_listener` sends the declared attributes but tags and load balancer, records the answer and enqueues nothing |
| ListenerProperties.UpdateFailsOnPermanentFault | listener/lambda_function.py:474-527 | a listed update fault fails at progress 20; a missing listener is listed there but not in the create |
| ListenerProperties.DeleteNotFoundIsQuiet | listener/lambda_function.py:543-545 | deleting a listener already gone is quiet |
| ListenerProperties.DeleteRetriesOtherFaults | listener/lambda_function.py:541-547 | a listener in use, or any other fault, goes to the common handler at progress 80 under its title |

## Left out

- Logging (`add_log`), `print`, traceback text and the console links (`add_links`, `gen_*_link`) are not modelled: they do not affect what a pass decides.
- `account_context`, the region and the clock (`current_epoch_time_usec_num`) are inputs.
- Every AWS call is an input answer. The model does not describe how the provider behaves.
- The `extutil` module is not part of this model. `ExtensionHandler`, `ext`, `capture_event`, `finish`, `declare_return` and `handle_common_errors` follow the doc comment of the handlers. The `@ext` gate also stops after a permanent failure. Whether `handle_common_errors` has used up its bounded retry count is a flag of the fault.
- `pass_back_data` resumption is the flag `resumed`. The platform's storage of the ledger between passes is not modelled.
- `remove_none_attributes` is modelled from its name and use: it drops the keys whose value is `None`.
- Exception classes and operation names are enumerations. Messages are strings.
- botocore's client-side parameter check is `Extension.Accepted`: every required parameter is present and no value in the request holds `None`. A refused request raises `ParamValidationError`, which is not a `ClientError`. It reaches the top-level `except` as a crash, before anything is sent.
- That check is applied to the requests built from the declaration: `create_rule`, `modify_rule`, `set_rule_priorities`, `create_listener`, `modify_listener`, `set_security_groups` and `set_subnets`. Requests built only from recorded ARNs, AWS answers and literal defaults are taken to pass it. `create_load_balancer` and `modify_load_balancer_attributes` are built from the declaration too, but always pass. `remove_none_attributes` drops every `None`, `Name` is always present (`LoadBalancerProperties.CreateAccepted`), and the special settings are strings once `EncodeSetting` has run.
- botocore's type checks other than `None` are not modelled: a number sent where a string is expected is accepted.
- Declared tag values are strings. The `f"{value}"` conversion of load_balancer/lambda_function.py:160 and listener/lambda_function.py:105 is therefore the identity, and a non-string tag value is not modelled.
- Declared tags are a sequence of pairs, which may repeat a key while a Python dictionary cannot. The dictionary built from them (`KeyValue.ToMap`) keeps the last value, and the lemmas that need a real dictionary require `DistinctKeys`.
- A declared special attribute is `None`, a boolean, an integer or a string (`LoadBalancerAttributes.Setting`). Float and list values are not modelled.
- The handlers that read an unbound `e` would raise `NameError`, modelled as a crash. These are the load balancer's `OperationNotPermittedException` on delete and the rule's `RuleNotFoundException` on the priority update.
- The order of the `remove_tags` key list is not modelled: the payload is a set of keys.
- `str()` of a recorded value is the value itself: recorded values are the strings AWS returned.
- `int()` is modelled only on strings of decimal digits. A declared priority or port is an integer.
- Listener.Guard: a port declared as a string is not modelled, so a string port compared with the recorded integer is not covered.
- `lower()` is modelled on ASCII letters only.
- Tag and key/value objects missing `Key` or `Value` are not modelled: every object has both.
- Rule conditions absent from an AWS answer are not modelled: a live rule always lists its conditions.
- Concurrency, callback delays and re-invocation after a retry are not modelled.
