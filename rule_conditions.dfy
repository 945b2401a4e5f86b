/**
 * The two rule-condition converters of rule/lambda_function.py. A rule
 * condition is declared in snake case (`{"field": ..., "values": ...,
 * "http_header_name": ...}`) and sent to elbv2 as a `Field` with one
 * per-field configuration; `query-string` values travel as a list of
 * single-key dictionaries on one side and as `{"Key", "Value"}` objects on the
 * other. Both converters walk their input once, keep the six known fields in
 * order and pass over every other field.
 */
module RuleConditions {

  import opened Wrappers
  import opened PyValue
  import opened KeyValue

  /** The `values` of a condition: absent, a list of strings, or a list of dictionaries. */
  datatype Values =
    | NoValues
    | Strings(strings: seq<string>)
    | Dicts(dicts: seq<Items>)

  /** A condition as declared, and as `formatted_conditions_to_conditions` reads one back. */
  datatype Condition = Condition(field: Option<string>, values: Values, httpHeaderName: Option<string>)

  /** `HttpHeaderConfig`. */
  datatype HeaderConfig = HeaderConfig(name: Option<string>, values: Values)

  /** `HttpRequestMethodConfig`, `HostHeaderConfig`, `PathPatternConfig` and `SourceIpConfig`. */
  datatype ValuesConfig = ValuesConfig(values: Values)

  /** `QueryStringConfig`: its `Values` are `{"Key", "Value"}` objects, or absent. */
  datatype QueryConfig = QueryConfig(values: Option<seq<KeyValue>>)

  /** A condition as elbv2 spells it: the field and whichever configurations it carries. */
  datatype RuleCondition = RuleCondition(
    field: Option<string>,
    httpHeader: Option<HeaderConfig>,
    httpRequestMethod: Option<ValuesConfig>,
    hostHeader: Option<ValuesConfig>,
    pathPattern: Option<ValuesConfig>,
    queryString: Option<QueryConfig>,
    sourceIp: Option<ValuesConfig>)

  const KnownFields: set<string> :=
    {"http-header", "http-request-method", "host-header", "path-pattern", "query-string", "source-ip"}

  /** The converters handle this field; any other is passed over. */
  predicate Known(field: Option<string>)
  {
    field.Some? && field.value in KnownFields
  }

  /** A condition with no configuration at all. */
  function Bare(field: Option<string>): RuleCondition
  {
    RuleCondition(field, None, None, None, None, None, None)
  }

  /**
   * `expand_list_dict_to_key_value_list_obj(values)` of a `query-string`
   * condition; `None` when it raises. Absent values are not iterable; a list of
   * strings iterates over each string's characters and calls `.get` on a
   * string, so it raises unless every string is empty.
   */
  function QueryValues(v: Values): (r: Option<seq<KeyValue>>)
    ensures v.Dicts? ==> r == Some(ExpandListDict(v.dicts))
    ensures v.NoValues? ==> r.None?
  {
    match v
    case NoValues => None
    case Strings(ss) => if forall i | 0 <= i < |ss| :: ss[i] == "" then Some([]) else None
    case Dicts(ds) => Some(ExpandListDict(ds))
  }

  /** The formatted condition of one condition of a known field; `None` when formatting it raises. */
  function Format(c: Condition): Option<RuleCondition>
    requires Known(c.field)
  {
    var f := c.field.value;
    var bare := Bare(c.field);
    if f == "http-header" then Some(bare.(httpHeader := Some(HeaderConfig(c.httpHeaderName, c.values))))
    else if f == "http-request-method" then Some(bare.(httpRequestMethod := Some(ValuesConfig(c.values))))
    else if f == "host-header" then Some(bare.(hostHeader := Some(ValuesConfig(c.values))))
    else if f == "path-pattern" then Some(bare.(pathPattern := Some(ValuesConfig(c.values))))
    else if f == "query-string" then
      match QueryValues(c.values)
      case None => None
      case Some(kvs) => Some(bare.(queryString := Some(QueryConfig(Some(kvs)))))
    else Some(bare.(sourceIp := Some(ValuesConfig(c.values))))
  }

  /**
   * What `conditions_to_formatted_conditions(cs)` returns, told from the last
   * condition back: `None` when it raises.
   */
  function FormattedConditions(cs: seq<Condition>): Option<seq<RuleCondition>>
  {
    if cs == [] then Some([])
    else
      match FormattedConditions(cs[..|cs| - 1])
      case None => None
      case Some(init) =>
        var c := cs[|cs| - 1];
        if !Known(c.field) then Some(init)
        else match Format(c)
          case None => None
          case Some(rc) => Some(init + [rc])
  }

  /** Once a prefix raises, so does the whole list. */
  lemma {:induction false} FormattingStaysRaised(cs: seq<Condition>, i: nat)
    requires i <= |cs| && FormattedConditions(cs[..i]).None?
    ensures FormattedConditions(cs).None?
    decreases |cs| - i
  {
    if i < |cs| {
      assert cs[..i + 1][..i] == cs[..i];
      FormattingStaysRaised(cs, i + 1);
    } else {
      assert cs[..i] == cs;
    }
  }

  /** `conditions_to_formatted_conditions`: one pass, appending the formatted condition of each known field. */
  method FormatConditions(cs: seq<Condition>) returns (r: Option<seq<RuleCondition>>)
    ensures r == FormattedConditions(cs)
  {
    var formatted: seq<RuleCondition> := [];
    var i := 0;
    while i < |cs|
      invariant 0 <= i <= |cs|
      invariant FormattedConditions(cs[..i]) == Some(formatted)
    {
      var c := cs[i];
      assert cs[..i + 1][..i] == cs[..i];
      if Known(c.field) {
        var f := Format(c);
        if f.None? {
          FormattingStaysRaised(cs, i + 1);
          return None;
        }
        formatted := formatted + [f.value];
      }
      i := i + 1;
    }
    assert cs[..i] == cs;
    return Some(formatted);
  }

  /** The values stored in a configuration, or none when the configuration is absent. */
  function ValuesOf(cfg: Option<ValuesConfig>): Values
  {
    if cfg.Some? then cfg.value.values else NoValues
  }

  /**
   * The condition read back from one formatted condition of a known field;
   * `None` when a `query-string` condition has no `Values` to iterate.
   */
  function Read(rc: RuleCondition): Option<Condition>
    requires Known(rc.field)
  {
    var f := rc.field.value;
    if f == "http-header" then
      Some(Condition(rc.field, if rc.httpHeader.Some? then rc.httpHeader.value.values else NoValues,
                     if rc.httpHeader.Some? then rc.httpHeader.value.name else None))
    else if f == "http-request-method" then Some(Condition(rc.field, ValuesOf(rc.httpRequestMethod), None))
    else if f == "host-header" then Some(Condition(rc.field, ValuesOf(rc.hostHeader), None))
    else if f == "path-pattern" then Some(Condition(rc.field, ValuesOf(rc.pathPattern), None))
    else if f == "query-string" then
      if rc.queryString.Some? && rc.queryString.value.values.Some? then
        Some(Condition(rc.field, Dicts(CompressedListDict(rc.queryString.value.values.value)), None))
      else None
    else Some(Condition(rc.field, ValuesOf(rc.sourceIp), None))
  }

  /** What `formatted_conditions_to_conditions(rcs)` returns, told from the last condition back. */
  function ReadConditions(rcs: seq<RuleCondition>): Option<seq<Condition>>
  {
    if rcs == [] then Some([])
    else
      match ReadConditions(rcs[..|rcs| - 1])
      case None => None
      case Some(init) =>
        var rc := rcs[|rcs| - 1];
        if !Known(rc.field) then Some(init)
        else match Read(rc)
          case None => None
          case Some(c) => Some(init + [c])
  }

  lemma {:induction false} ReadingStaysRaised(rcs: seq<RuleCondition>, i: nat)
    requires i <= |rcs| && ReadConditions(rcs[..i]).None?
    ensures ReadConditions(rcs).None?
    decreases |rcs| - i
  {
    if i < |rcs| {
      assert rcs[..i + 1][..i] == rcs[..i];
      ReadingStaysRaised(rcs, i + 1);
    } else {
      assert rcs[..i] == rcs;
    }
  }

  /** `formatted_conditions_to_conditions`: one pass, appending the condition read back from each known field. */
  method ReadBack(rcs: seq<RuleCondition>) returns (r: Option<seq<Condition>>)
    ensures r == ReadConditions(rcs)
  {
    var conditions: seq<Condition> := [];
    var i := 0;
    while i < |rcs|
      invariant 0 <= i <= |rcs|
      invariant ReadConditions(rcs[..i]) == Some(conditions)
    {
      var rc := rcs[i];
      assert rcs[..i + 1][..i] == rcs[..i];
      if Known(rc.field) {
        var c := Read(rc);
        if c.None? {
          ReadingStaysRaised(rcs, i + 1);
          return None;
        }
        conditions := conditions + [c.value];
      }
      i := i + 1;
    }
    assert rcs[..i] == rcs;
    return Some(conditions);
  }

  // ---------------------------------------------------------------------------
  // Filtering: only the known fields survive, in their order.

  /** The declared conditions of a known field, in order. */
  function KnownConditions(cs: seq<Condition>): (r: seq<Condition>)
    ensures forall i | 0 <= i < |r| :: Known(r[i].field)
  {
    if cs == [] then []
    else KnownConditions(cs[..|cs| - 1]) + if Known(cs[|cs| - 1].field) then [cs[|cs| - 1]] else []
  }

  /** The formatted conditions of a known field, in order. */
  function KnownRuleConditions(rcs: seq<RuleCondition>): (r: seq<RuleCondition>)
    ensures forall i | 0 <= i < |r| :: Known(r[i].field)
  {
    if rcs == [] then []
    else KnownRuleConditions(rcs[..|rcs| - 1]) + if Known(rcs[|rcs| - 1].field) then [rcs[|rcs| - 1]] else []
  }

  /** Every condition of `k` can be formatted on its own. */
  predicate AllFormat(k: seq<Condition>)
    requires forall i | 0 <= i < |k| :: Known(k[i].field)
  {
    forall i | 0 <= i < |k| :: Format(k[i]).Some?
  }

  /** `r` holds the formatted condition of each condition of `k`, in order. */
  predicate FormatsEach(k: seq<Condition>, r: seq<RuleCondition>)
    requires forall i | 0 <= i < |k| :: Known(k[i].field)
  {
    |r| == |k| && forall i | 0 <= i < |k| :: Format(k[i]) == Some(r[i])
  }

  /**
   * Formatting keeps exactly the conditions of a known field, in order, each
   * formatted on its own; it raises exactly when one of them cannot be formatted.
   */
  lemma {:induction false} FormattingKeepsKnownInOrder(cs: seq<Condition>)
    ensures FormattedConditions(cs).Some? <==> AllFormat(KnownConditions(cs))
    ensures FormattedConditions(cs).Some? ==> FormatsEach(KnownConditions(cs), FormattedConditions(cs).value)
  {
    if cs != [] {
      var n := |cs| - 1;
      FormattingKeepsKnownInOrder(cs[..n]);
      var k0 := KnownConditions(cs[..n]);
      var k := KnownConditions(cs);
      assert forall i | 0 <= i < |k0| :: k[i] == k0[i];
      if Known(cs[n].field) {
        assert k == k0 + [cs[n]] && k[|k0|] == cs[n];
        if FormattedConditions(cs[..n]).Some? && Format(cs[n]).Some? {
          assert FormattedConditions(cs) == Some(FormattedConditions(cs[..n]).value + [Format(cs[n]).value]);
        } else if FormattedConditions(cs[..n]).None? {
          var j :| 0 <= j < |k0| && Format(k0[j]).None?;
          assert Format(k[j]).None?;
        } else {
          assert Format(k[|k0|]).None?;
        }
      } else {
        assert k == k0;
      }
    }
  }

  /** Every formatted condition of `k` can be read back on its own. */
  predicate AllRead(k: seq<RuleCondition>)
    requires forall i | 0 <= i < |k| :: Known(k[i].field)
  {
    forall i | 0 <= i < |k| :: Read(k[i]).Some?
  }

  /** `r` holds the condition read back from each formatted condition of `k`, in order. */
  predicate ReadsEach(k: seq<RuleCondition>, r: seq<Condition>)
    requires forall i | 0 <= i < |k| :: Known(k[i].field)
  {
    |r| == |k| && forall i | 0 <= i < |k| :: Read(k[i]) == Some(r[i])
  }

  /**
   * Reading back keeps exactly the formatted conditions of a known field, in
   * order, each read on its own; it raises exactly when one of them cannot be read.
   */
  lemma {:induction false} ReadingKeepsKnownInOrder(rcs: seq<RuleCondition>)
    ensures ReadConditions(rcs).Some? <==> AllRead(KnownRuleConditions(rcs))
    ensures ReadConditions(rcs).Some? ==> ReadsEach(KnownRuleConditions(rcs), ReadConditions(rcs).value)
  {
    if rcs != [] {
      var n := |rcs| - 1;
      ReadingKeepsKnownInOrder(rcs[..n]);
      var k0 := KnownRuleConditions(rcs[..n]);
      var k := KnownRuleConditions(rcs);
      assert forall i | 0 <= i < |k0| :: k[i] == k0[i];
      if Known(rcs[n].field) {
        assert k == k0 + [rcs[n]] && k[|k0|] == rcs[n];
        if ReadConditions(rcs[..n]).Some? && Read(rcs[n]).Some? {
          assert ReadConditions(rcs) == Some(ReadConditions(rcs[..n]).value + [Read(rcs[n]).value]);
        } else if ReadConditions(rcs[..n]).None? {
          var j :| 0 <= j < |k0| && Read(k0[j]).None?;
          assert Read(k[j]).None?;
        } else {
          assert Read(k[|k0|]).None?;
        }
      } else {
        assert k == k0;
      }
    }
  }

  /** A condition of an unknown field is passed over without a trace. */
  lemma UnknownFieldDropped(cs: seq<Condition>, c: Condition)
    requires !Known(c.field)
    ensures FormattedConditions(cs + [c]) == FormattedConditions(cs)
  {
    assert (cs + [c])[..|cs|] == cs;
  }

  // ---------------------------------------------------------------------------
  // Round trips.

  /**
   * A declared condition that reads back as itself: its field is known, a
   * header name is given only for `http-header`, and `query-string` values are
   * single-key dictionaries.
   */
  predicate Faithful(c: Condition)
  {
    && Known(c.field)
    && (c.field != Some("http-header") ==> c.httpHeaderName.None?)
    && (c.field == Some("query-string") ==> c.values.Dicts? && forall i | 0 <= i < |c.values.dicts| :: |c.values.dicts[i]| == 1)
  }

  /** Formatting one faithful condition and reading it back gives the condition. */
  lemma ReadFormat(c: Condition)
    requires Faithful(c)
    ensures Format(c).Some? && Known(Format(c).value.field) && Read(Format(c).value) == Some(c)
  {
    if c.field == Some("query-string") {
      CompressExpandListDict(c.values.dicts);
    }
  }

  /**
   * `formatted_conditions_to_conditions(conditions_to_formatted_conditions(cs))`
   * gives back the conditions of a known field, in order, when each of them is faithful.
   */
  lemma {:induction false} ReadFormatted(cs: seq<Condition>)
    requires forall i | 0 <= i < |cs| :: Known(cs[i].field) ==> Faithful(cs[i])
    ensures FormattedConditions(cs).Some?
    ensures ReadConditions(FormattedConditions(cs).value) == Some(KnownConditions(cs))
  {
    if cs != [] {
      var n := |cs| - 1;
      ReadFormatted(cs[..n]);
      var init := FormattedConditions(cs[..n]).value;
      if Known(cs[n].field) {
        ReadFormat(cs[n]);
        var rc := Format(cs[n]).value;
        assert FormattedConditions(cs).value == init + [rc];
        assert (init + [rc])[..|init|] == init;
        assert KnownConditions(cs) == KnownConditions(cs[..n]) + [cs[n]];
        assert ReadConditions(init + [rc]) == Some(KnownConditions(cs[..n]) + [cs[n]]);
      } else {
        assert FormattedConditions(cs) == FormattedConditions(cs[..n]);
        assert KnownConditions(cs) == KnownConditions(cs[..n]);
      }
    }
  }

  /**
   * A formatted condition as `conditions_to_formatted_conditions` builds one:
   * a known field and exactly its own configuration, with `query-string`
   * values present.
   */
  predicate Canonical(rc: RuleCondition)
  {
    && Known(rc.field)
    && var f := rc.field.value;
    && rc.httpHeader.Some? == (f == "http-header")
    && rc.httpRequestMethod.Some? == (f == "http-request-method")
    && rc.hostHeader.Some? == (f == "host-header")
    && rc.pathPattern.Some? == (f == "path-pattern")
    && rc.queryString.Some? == (f == "query-string")
    && rc.sourceIp.Some? == (f == "source-ip")
    && (f == "query-string" ==> rc.queryString.value.values.Some?)
  }

  /** Reading back one canonical condition and formatting it again gives the condition. */
  lemma FormatReadOne(rc: RuleCondition)
    requires Canonical(rc)
    ensures Read(rc).Some? && Known(Read(rc).value.field) && Format(Read(rc).value) == Some(rc)
  {
    if rc.field == Some("query-string") {
      ExpandCompressListDict(rc.queryString.value.values.value);
    }
  }

  /**
   * `conditions_to_formatted_conditions(formatted_conditions_to_conditions(rcs))`
   * gives back canonical conditions unchanged: a live rule whose conditions
   * were written by this handler compares equal to them.
   */
  lemma {:induction false} FormatRead(rcs: seq<RuleCondition>)
    requires forall i | 0 <= i < |rcs| :: Canonical(rcs[i])
    ensures ReadConditions(rcs).Some?
    ensures FormattedConditions(ReadConditions(rcs).value) == Some(rcs)
  {
    if rcs != [] {
      var n := |rcs| - 1;
      FormatRead(rcs[..n]);
      var back := ReadConditions(rcs[..n]).value;
      FormatReadOne(rcs[n]);
      var c := Read(rcs[n]).value;
      assert ReadConditions(rcs).value == back + [c];
      assert (back + [c])[..|back|] == back;
      assert rcs == rcs[..n] + [rcs[n]];
    }
  }

  /** Every formatted condition of a faithful declaration is canonical. */
  lemma FormatIsCanonical(c: Condition)
    requires Known(c.field) && Format(c).Some?
    ensures Canonical(Format(c).value)
  {
  }

  /**
   * Formatting a declaration and reading the result back gives conditions that
   * format to the same result again, and reads back nothing exactly when
   * nothing was formatted.
   */
  lemma ReformatFormatted(cs: seq<Condition>)
    requires FormattedConditions(cs).Some?
    ensures ReadConditions(FormattedConditions(cs).value).Some?
    ensures FormattedConditions(ReadConditions(FormattedConditions(cs).value).value) == FormattedConditions(cs)
    ensures ReadConditions(FormattedConditions(cs).value).value == [] <==> FormattedConditions(cs).value == []
  {
    FormattingKeepsKnownInOrder(cs);
    var k := KnownConditions(cs);
    var r := FormattedConditions(cs).value;
    forall i | 0 <= i < |r| ensures Canonical(r[i]) {
      FormatIsCanonical(k[i]);
    }
    FormatRead(r);
  }

  // ---------------------------------------------------------------------------
  // The conditions as the values stored in the attribute map and in Props.

  /** A dictionary of strings in insertion order, as a value. */
  function ItemsJson(d: Items): Json
  {
    Object(StrMap(ToMap(d)))
  }

  function ValuesJson(v: Values): Json
  {
    match v
    case NoValues => Null
    case Strings(ss) => StrList(ss)
    case Dicts(ds) => List(seq(|ds|, i requires 0 <= i < |ds| => ItemsJson(ds[i])))
  }

  function ValuesConfigJson(cfg: ValuesConfig): Json
  {
    Object(map["Values" := ValuesJson(cfg.values)])
  }

  /** One configuration entry, when the configuration is present. */
  function ConfigEntry<T>(key: string, cfg: Option<T>, render: T -> Json): Dict
  {
    if cfg.Some? then map[key := render(cfg.value)] else map[]
  }

  /** A formatted condition as the dictionary sent to elbv2. */
  function RuleConditionJson(rc: RuleCondition): Json
  {
    Object(map["Field" := FromOption(rc.field)]
      + ConfigEntry("HttpHeaderConfig", rc.httpHeader,
                    (h: HeaderConfig) => Object(map["HttpHeaderName" := FromOption(h.name), "Values" := ValuesJson(h.values)]))
      + ConfigEntry("HttpRequestMethodConfig", rc.httpRequestMethod, ValuesConfigJson)
      + ConfigEntry("HostHeaderConfig", rc.hostHeader, ValuesConfigJson)
      + ConfigEntry("PathPatternConfig", rc.pathPattern, ValuesConfigJson)
      + ConfigEntry("QueryStringConfig", rc.queryString,
                    (q: QueryConfig) => Object(map["Values" := if q.values.Some? then KeyValueList(q.values.value) else Null]))
      + ConfigEntry("SourceIpConfig", rc.sourceIp, ValuesConfigJson))
  }

  /** The `Conditions` attribute. */
  function RuleConditionsJson(rcs: seq<RuleCondition>): Json
  {
    List(seq(|rcs|, i requires 0 <= i < |rcs| => RuleConditionJson(rcs[i])))
  }

  /**
   * A condition read back, as the dictionary `formatted_conditions_to_conditions`
   * builds: only an `http-header` condition carries `http_header_name`.
   */
  function ConditionJson(c: Condition): Json
  {
    Object(map["field" := FromOption(c.field), "values" := ValuesJson(c.values)]
      + if c.field == Some("http-header") then map["http_header_name" := FromOption(c.httpHeaderName)] else map[])
  }

  /** The `conditions` recorded in Props. */
  function ConditionsJson(cs: seq<Condition>): Json
  {
    List(seq(|cs|, i requires 0 <= i < |cs| => ConditionJson(cs[i])))
  }
}
