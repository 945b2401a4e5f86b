/**
 * The tag reconciliation that get_* and create_* of all three handlers share:
 * read the live tags from `describe_tags`, compare them with the declared
 * ones, and enqueue `remove_tags` with the stale keys and `set_tags` with the
 * new or changed pairs. Declaring no tags means "no tags": every live key is
 * removed.
 */
module Tags {

  import opened Wrappers
  import opened PyValue
  import opened KeyValue
  import opened Extension

  /** One entry of the `TagDescriptions` that `describe_tags` returns. */
  datatype TagDescription = TagDescription(resourceArn: string, tags: seq<KeyValue>)

  /** The operations the diff asks for: the keys to remove and the pairs to set. */
  datatype TagPlan = TagPlan(remove: set<string>, add: map<string, string>)

  /**
   * `current_tags`: the tags of the first description whose `ResourceArn` is
   * `arn`, compressed into a dictionary; empty when there is no such description.
   */
  function CurrentTags(descs: seq<TagDescription>, arn: string): map<string, string>
  {
    if descs == [] then map[]
    else if descs[0].resourceArn == arn then CompressedDict(descs[0].tags)
    else CurrentTags(descs[1..], arn)
  }

  /** No description of `arn` means no live tags. */
  lemma {:induction false} CurrentTagsWithoutMatch(descs: seq<TagDescription>, arn: string)
    requires forall i | 0 <= i < |descs| :: descs[i].resourceArn != arn
    ensures CurrentTags(descs, arn) == map[]
  {
    if descs != [] {
      CurrentTagsWithoutMatch(descs[1..], arn);
    }
  }

  /** The first description of `arn` supplies the live tags; later ones are ignored. */
  lemma {:induction false} CurrentTagsOfFirstMatch(descs: seq<TagDescription>, arn: string, i: nat)
    requires i < |descs| && descs[i].resourceArn == arn
    requires forall j | 0 <= j < i :: descs[j].resourceArn != arn
    ensures CurrentTags(descs, arn) == CompressedDict(descs[i].tags)
  {
    if i > 0 {
      CurrentTagsOfFirstMatch(descs[1..], arn, i - 1);
    }
  }

  /**
   * `formatted_tags`: the declared tags as the dictionary the diff compares.
   * The declared dictionary is expanded into the `Tags` attribute and compressed
   * back; an empty declaration is no `Tags` attribute at all.
   */
  function DesiredTags(declared: Items): (m: map<string, string>)
    ensures m == ToMap(declared)
  {
    CompressExpandDict(declared);
    if declared == [] then map[] else CompressedDict(ExpandDict(declared))
  }

  /**
   * The diff of load_balancer/lambda_function.py:342-357 (and of the same lines
   * in the rule and listener handlers): with tags declared and different from the
   * live ones, the stale keys and the new or changed pairs; with none declared,
   * every live key.
   */
  function Plan(desired: map<string, string>, current: map<string, string>): TagPlan
  {
    if desired != map[] then
      if desired != current then
        TagPlan(set k | k in current && k !in desired,
                map k | k in desired && (k !in current || current[k] != desired[k]) :: desired[k])
      else
        TagPlan({}, map[])
    else
      TagPlan(current.Keys, map[])
  }

  /**
   * Whichever branch the diff takes, the keys to remove are exactly the live keys
   * not declared, the pairs to set are exactly the declared pairs whose live value
   * differs, and the two are disjoint.
   */
  lemma PlanDiff(desired: map<string, string>, current: map<string, string>)
    ensures var p := Plan(desired, current);
      && (forall k :: k in p.remove <==> k in current && k !in desired)
      && (forall k :: k in p.add <==> k in desired && (k !in current || current[k] != desired[k]))
      && (forall k | k in p.add :: p.add[k] == desired[k])
      && p.remove !! p.add.Keys
  {
  }

  /** The live tags after `remove_tags` and then `set_tags` have been applied. */
  function Apply(current: map<string, string>, p: TagPlan): map<string, string>
  {
    (current - p.remove) + p.add
  }

  /** Removing and then adding as planned turns the live tags into the declared ones. */
  lemma PlanConverges(desired: map<string, string>, current: map<string, string>)
    ensures Apply(current, Plan(desired, current)) == desired
  {
    var p := Plan(desired, current);
    var r := Apply(current, p);
    PlanDiff(desired, current);
    forall k ensures k in r <==> k in desired {
    }
    forall k | k in r ensures r[k] == desired[k] {
    }
  }

  /** Every key touched by the plan is one where live and declared tags disagree, and every such key is touched. */
  lemma PlanIsSymmetricDifference(desired: map<string, string>, current: map<string, string>)
    ensures var p := Plan(desired, current);
      p.remove + p.add.Keys == set k | k in current.Keys + desired.Keys && (k !in current || k !in desired || current[k] != desired[k])
  {
    PlanDiff(desired, current);
  }

  /** Nothing is enqueued when the live tags already match the declared ones. */
  lemma PlanEmptyWhenEqual(desired: map<string, string>, current: map<string, string>)
    ensures Plan(desired, current) == TagPlan({}, map[]) <==> desired == current
  {
    if Plan(desired, current) == TagPlan({}, map[]) {
      PlanConverges(desired, current);
    }
  }

  /** With no tags declared, every live key is removed and `set_tags` is not enqueued. */
  lemma PlanUndeclaredRemovesAll(current: map<string, string>)
    ensures Plan(map[], current) == TagPlan(current.Keys, map[])
  {
  }

  /** Live `{a: 1, b: 2}`, declared `{b: 2, c: 3}`: remove `a`, set `c`, leave `b` alone. */
  lemma PlanExample()
    ensures Plan(map["b" := "2", "c" := "3"], map["a" := "1", "b" := "2"]) == TagPlan({"a"}, map["c" := "3"])
  {
    var desired, current := map["b" := "2", "c" := "3"], map["a" := "1", "b" := "2"];
    assert "c" !in current;
    PlanDiff(desired, current);
    var p := Plan(desired, current);
    assert p.remove == {"a"};
    assert p.add == map["c" := "3"];
  }

  /** The operations a plan enqueues: `remove_tags` only with a non-empty key set, `set_tags` only with a non-empty pair map. */
  function PlanOps(p: TagPlan): (ops: map<Op, Payload>)
    ensures ops.Keys <= {RemoveTags, SetTags}
    ensures RemoveTags in ops <==> p.remove != {}
    ensures SetTags in ops <==> p.add != map[]
    ensures RemoveTags in ops ==> ops[RemoveTags] == TagKeys(p.remove)
    ensures SetTags in ops ==> ops[SetTags] == TagPairs(p.add)
  {
    (if p.remove != {} then map[RemoveTags := TagKeys(p.remove)] else map[]) +
    (if p.add != map[] then map[SetTags := TagPairs(p.add)] else map[])
  }

  /** The enqueueing part of the diff, as the handlers run it: one `add_op` per non-empty half of the plan. */
  method EnqueueTagOps(h: Handler, desired: map<string, string>, current: map<string, string>)
    modifies h`ops
    ensures h.ops == old(h.ops) + PlanOps(Plan(desired, current))
  {
    var p := Plan(desired, current);
    var a: map<Op, Payload> := if p.remove != {} then map[RemoveTags := TagKeys(p.remove)] else map[];
    var b: map<Op, Payload> := if p.add != map[] then map[SetTags := TagPairs(p.add)] else map[];
    if p.remove != {} {
      h.AddOp(RemoveTags, TagKeys(p.remove));
    }
    assert h.ops == old(h.ops) + a;
    if p.add != map[] {
      h.AddOp(SetTags, TagPairs(p.add));
    }
    MergeAssoc(old(h.ops), a, b);
  }

  /**
   * The tag lookup that get and create make once the resource is known:
   * `describe_tags` of `arn`, then the diff against the declared tags. The
   * handler's own not-found class is passed over; any other fault leaves the
   * nested `try` and lands where `escape` says.
   */
  function TagLookupEffect(arn: string, desired: map<string, string>, out: Outcome<seq<TagDescription>>,
                           notFound: ErrorCode, escape: Escape): Effect
  {
    var describe := CallEffect("describe_tags", map["ResourceArns" := StrList([arn])]);
    match out
    case Ok(descs) => Then(describe, Nothing.(ops := PlanOps(Plan(desired, CurrentTags(descs, arn)))))
    case Raised(f) => Then(describe, if f.exception == notFound then Nothing else EscapeEffect(escape, f))
  }

  /** The tag lookup enqueues nothing but the two tag operations, and records nothing. */
  lemma TagLookupConfined(arn: string, desired: map<string, string>, out: Outcome<seq<TagDescription>>,
                          notFound: ErrorCode, escape: Escape)
    ensures Confined(TagLookupEffect(arn, desired, out, notFound, escape), {RemoveTags, SetTags}, {})
  {
    var describe := CallEffect("describe_tags", map["ResourceArns" := StrList([arn])]);
    match out
    case Ok(descs) =>
      ThenConfined(describe, Nothing.(ops := PlanOps(Plan(desired, CurrentTags(descs, arn)))), {RemoveTags, SetTags}, {});
    case Raised(f) =>
      EscapeConfined(escape, f);
      ThenConfined(describe, if f.exception == notFound then Nothing else EscapeEffect(escape, f), {RemoveTags, SetTags}, {});
  }

  /** The tag lookup, step by step. */
  method TagLookup(h: Handler, arn: string, desired: map<string, string>, out: Outcome<seq<TagDescription>>,
                   notFound: ErrorCode, escape: Escape)
    modifies h
    ensures h.Applied(TagLookupEffect(arn, desired, out, notFound, escape))
  {
    ghost var s0 := h.Now();
    var describe := CallEffect("describe_tags", map["ResourceArns" := StrList([arn])]);
    h.Call("describe_tags", map["ResourceArns" := StrList([arn])], NoPayload);
    match out {
      case Ok(descs) =>
        ghost var s1 := h.Now();
        EnqueueTagOps(h, desired, CurrentTags(descs, arn));
        OnlyOps(s1, PlanOps(Plan(desired, CurrentTags(descs, arn))));
        ThenAssoc(s0, describe, Nothing.(ops := PlanOps(Plan(desired, CurrentTags(descs, arn)))));
      case Raised(f) =>
        if f.exception != notFound {
          h.Escape(escape, f);
          ThenAssoc(s0, describe, EscapeEffect(escape, f));
        } else {
          ThenAssoc(s0, describe, Nothing);
        }
    }
  }

  /**
   * `remove_tags`: the ARN recorded under `arnKey` (a `KeyError` without it),
   * the keys enqueued with the operation, and the call site's `except` ladder,
   * which passes over the class `ignored`.
   */
  function RemoveTagsEffect(ops: map<Op, Payload>, state: Dict, arnKey: string, ignored: ErrorCode, title: string,
                            out: Outcome<()>): Effect
  {
    if arnKey !in state then CrashEffect
    else
      var call := CallWithEffect("remove_tags", map["ResourceArns" := List([state[arnKey]])], PayloadOf(ops, RemoveTags));
      match out
      case Ok(_) => call
      case Raised(f) => Then(call, HandleEffect(f, {ignored}, {}, title, 90))
  }

  /**
   * `set_tags`: as `remove_tags`, except that a payload that is not a tag
   * dictionary makes `.items()` raise, and that the handler's not-found class,
   * duplicate keys and too many tags fail permanently.
   */
  function SetTagsEffect(ops: map<Op, Payload>, state: Dict, arnKey: string, notFound: ErrorCode, out: Outcome<()>): Effect
  {
    if arnKey !in state || !PayloadOf(ops, SetTags).TagPairs? then CrashEffect
    else
      var call := CallWithEffect("add_tags", map["ResourceArns" := List([state[arnKey]])], PayloadOf(ops, SetTags));
      match out
      case Ok(_) => call
      case Raised(f) => Then(call, HandleEffect(f, {}, {notFound, DuplicateTagKeys, TooManyTags}, "Error Adding Tags", 90))
  }

  /**
   * `remove_tags` sends the keys enqueued with it to the recorded resource and
   * changes nothing else; the class `ignored` leaves the pass going, any other
   * fault goes to the common handler under `title` at progress 90.
   */
  lemma RemoveTagsSendsEnqueued(ops: map<Op, Payload>, state: Dict, arnKey: string, ignored: ErrorCode, title: string,
                                out: Outcome<()>)
    requires arnKey in state
    ensures var e := RemoveTagsEffect(ops, state, arnKey, ignored, title, out);
      && e.calls == [Request("remove_tags", map["ResourceArns" := List([state[arnKey]])], PayloadOf(ops, RemoveTags))]
      && e.ops == map[] && e.state == map[] && e.props == map[]
      && (out.Ok? || out.fault.exception == ignored ==> Quiet(e))
      && (out.Raised? && out.fault.exception != ignored ==>
            (out.fault.exhausted ==> e.failure == Some(PermanentError(title, 90))) &&
            (!out.fault.exhausted ==> e.retry == Some(Retry(title, 90, None)) && e.failure.None?))
  {
  }

  /** Without a recorded ARN, `remove_tags` raises `KeyError` and sends nothing. */
  lemma RemoveTagsWithoutArnCrashes(ops: map<Op, Payload>, state: Dict, arnKey: string, ignored: ErrorCode, title: string,
                                    out: Outcome<()>)
    requires arnKey !in state
    ensures var e := RemoveTagsEffect(ops, state, arnKey, ignored, title, out);
      e.failure == Some(UnexpectedError) && e.calls == []
  {
  }

  /**
   * `set_tags` sends the tag dictionary enqueued with it to the recorded
   * resource and changes nothing else; the handler's not-found class, duplicate
   * keys and too many tags fail at progress 90 with the fault's text, any other
   * fault goes to the common handler at progress 90.
   */
  lemma SetTagsSendsEnqueued(ops: map<Op, Payload>, state: Dict, arnKey: string, notFound: ErrorCode, out: Outcome<()>)
    requires arnKey in state && PayloadOf(ops, SetTags).TagPairs?
    ensures var e := SetTagsEffect(ops, state, arnKey, notFound, out);
      && e.calls == [Request("add_tags", map["ResourceArns" := List([state[arnKey]])], PayloadOf(ops, SetTags))]
      && e.ops == map[] && e.state == map[] && e.props == map[]
      && (out.Ok? ==> Quiet(e))
      && (out.Raised? && out.fault.exception in {notFound, DuplicateTagKeys, TooManyTags} ==>
            e.failure == Some(PermanentError(out.fault.message, 90)) && e.retry.None?)
      && (out.Raised? && out.fault.exception !in {notFound, DuplicateTagKeys, TooManyTags} ==>
            (out.fault.exhausted ==> e.failure == Some(PermanentError("Error Adding Tags", 90))) &&
            (!out.fault.exhausted ==> e.retry == Some(Retry("Error Adding Tags", 90, None)) && e.failure.None?))
  {
  }

  /** `set_tags` crashes exactly when no ARN is recorded or its payload is no tag dictionary, and then sends nothing. */
  lemma SetTagsCrashes(ops: map<Op, Payload>, state: Dict, arnKey: string, notFound: ErrorCode, out: Outcome<()>)
    ensures var e := SetTagsEffect(ops, state, arnKey, notFound, out);
      && (e.failure == Some(UnexpectedError) <==> arnKey !in state || !PayloadOf(ops, SetTags).TagPairs?)
      && (e.failure == Some(UnexpectedError) ==> e.calls == [])
  {
  }

  /** `remove_tags`, step by step. */
  method RunRemoveTags(h: Handler, arnKey: string, ignored: ErrorCode, title: string, out: Outcome<()>)
    modifies h
    ensures h.Applied(RemoveTagsEffect(old(h.ops), old(h.state), arnKey, ignored, title, out))
  {
    if arnKey !in h.state {
      h.Unexpected();
      return;
    }
    ghost var s0 := h.Now();
    var params := map["ResourceArns" := List([h.state[arnKey]])];
    var keys := PayloadOf(h.ops, RemoveTags);
    h.Call("remove_tags", params, keys);
    if out.Raised? {
      h.Handle(out.fault, {ignored}, {}, title, 90);
      ThenAssoc(s0, CallWithEffect("remove_tags", params, keys), HandleEffect(out.fault, {ignored}, {}, title, 90));
    }
  }

  /** `set_tags`, step by step. */
  method RunSetTags(h: Handler, arnKey: string, notFound: ErrorCode, out: Outcome<()>)
    modifies h
    ensures h.Applied(SetTagsEffect(old(h.ops), old(h.state), arnKey, notFound, out))
  {
    var tags := PayloadOf(h.ops, SetTags);
    if arnKey !in h.state || !tags.TagPairs? {
      h.Unexpected();
      return;
    }
    ghost var s0 := h.Now();
    var params := map["ResourceArns" := List([h.state[arnKey]])];
    var permanent := {notFound, DuplicateTagKeys, TooManyTags};
    h.Call("add_tags", params, tags);
    if out.Raised? {
      h.Handle(out.fault, {}, permanent, "Error Adding Tags", 90);
      ThenAssoc(s0, CallWithEffect("add_tags", params, tags), HandleEffect(out.fault, {}, permanent, "Error Adding Tags", 90));
    }
  }
}
