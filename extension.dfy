/**
 * The per-invocation handler (`eh = ExtensionHandler()`) that all three
 * handlers share: a queue of named operations with optional payloads, the
 * State and Props maps that `add_state` and `add_props` merge into, and the
 * retry or failure declared so far (console links are not modelled). An operation wrapped in `@ext` runs only
 * when it is enqueued and the pass has not been halted by a retry or a
 * failure. Every AWS call is abstracted to an `Outcome` supplied by the caller.
 */
module Extension {

  import opened Wrappers
  import opened PyValue

  /** What `add_op` stores with an operation name. */
  datatype Payload =
    | NoPayload
    | TagKeys(keys: set<string>)
    | TagPairs(pairs: map<string, string>)
    | AttributePairs(pairs: map<string, string>)

  /** The operations the three handlers schedule, named after their `@ext(op=...)` functions. */
  datatype Op =
    | GetLoadBalancer | DeleteLoadBalancer | CreateLoadBalancer | CheckLoadBalancerCreateComplete
    | SetIpAddressType | SetSecurityGroups | SetSubnets
    | UpdateLoadBalancerSpecialAttributes | ResetLoadBalancerSpecialAttributes
    | RemoveTags | SetTags
    | GetRule | CreateRule | UpdateRule | UpdateRulePriority | DeleteRule
    | GetListener | CreateListener | UpdateListener | DeleteListener

  /** A declared wait: `retry_error(id, progress, callback_sec)`. */
  datatype Retry = Retry(id: string, progress: int, callbackSeconds: Option<nat>)

  /** A declared failure: `perm_error(message, progress)`, or an exception caught at the top level. */
  datatype Failure =
    | PermanentError(message: string, progress: int)
    | UnexpectedError

  /**
   * The `client.exceptions` classes (each named without its `Exception` suffix)
   * that some handler catches by name; every other `ClientError` is `OtherClientError`.
   */
  datatype ErrorCode =
    | AvailabilityZoneNotSupported | CertificateNotFound | DuplicateListener
    | DuplicateLoadBalancerName | DuplicateTagKeys | IncompatibleProtocols
    | InvalidConfigurationRequest | InvalidLoadBalancerAction | InvalidScheme
    | InvalidSecurityGroup | InvalidSubnet | ListenerNotFound | LoadBalancerNotFound
    | OperationNotPermitted | PriorityInUse | ResourceInUse | RuleNotFound | SSLPolicyNotFound
    | SubnetNotFound | TargetGroupAssociationLimit | TargetGroupNotFound | TooManyActions
    | TooManyCertificates | TooManyListeners | TooManyLoadBalancers
    | TooManyRegistrationsForTargetId | TooManyRules | TooManyTags | TooManyTargetGroups
    | TooManyTargets | TooManyUniqueTargetGroupsPerLoadBalancer | UnsupportedProtocol
    | OtherClientError

  /**
   * A `ClientError` raised by AWS: its exception class, its text, and whether
   * the common error handler has used up its bounded number of retries.
   */
  datatype Fault = Fault(exception: ErrorCode, message: string, exhausted: bool)

  /** The outcome of one AWS call. */
  datatype Outcome<T> = Ok(value: T) | Raised(fault: Fault)

  /** An AWS request issued during the pass, with the operation payload it carries (if any). */
  datatype Request = Request(api: string, params: Dict, data: Payload)

  /** How one pass ends: `finish()` (progress 100), a retry, or a failure. */
  datatype PassResult =
    | Finished
    | RetryLater(retryProgress: int, callbackSeconds: Option<nat>)
    | Failed(failure: Failure)

  /** How a call site treats a fault: ignore it, fail permanently with its text, or call the common handler. */
  datatype Verdict = Ignore | Permanent | Common

  /**
   * The per-call-site `except` ladder: the classes in `ignored` are logged and
   * passed over, those in `permanent` end in `perm_error(str(e), ...)`, and every
   * other `ClientError` goes to `handle_common_errors`.
   */
  function Classify(f: Fault, ignored: set<ErrorCode>, permanent: set<ErrorCode>): (v: Verdict)
    requires ignored !! permanent
    ensures v == Ignore <==> f.exception in ignored
    ensures v == Permanent <==> f.exception in permanent
  {
    if f.exception in ignored then Ignore
    else if f.exception in permanent then Permanent
    else Common
  }

  /** A fault reaches the common handler exactly when its class is neither ignored nor permanent. */
  lemma ClassifyCommon(f: Fault, ignored: set<ErrorCode>, permanent: set<ErrorCode>)
    requires ignored !! permanent
    ensures Classify(f, ignored, permanent) == Common <==> f.exception !in ignored + permanent
  {
  }

  /**
   * What one operation does to the handler, as a value: the operations it
   * enqueues, what it merges into State and Props, the retry or failure
   * it declares, and the AWS requests it issues.
   */
  datatype Effect = Effect(
    ops: map<Op, Payload>,
    state: Dict,
    props: Dict,
    retry: Option<Retry>,
    failure: Option<Failure>,
    calls: seq<Request>)

  const Nothing: Effect := Effect(map[], map[], map[], None, None, [])

  /** `a` followed by `b`: later merges win, a later declaration replaces an earlier one. */
  function Then(a: Effect, b: Effect): Effect
  {
    Effect(a.ops + b.ops, a.state + b.state, a.props + b.props,
           if b.retry.Some? then b.retry else a.retry,
           if b.failure.Some? then b.failure else a.failure,
           a.calls + b.calls)
  }

  /** Merging is associative. */
  lemma MergeAssoc<K, V>(x: map<K, V>, a: map<K, V>, b: map<K, V>)
    ensures (x + a) + b == x + (a + b)
  {
  }

  /** The empty map is neutral for merging. */
  lemma MergeEmpty<K, V>(m: map<K, V>)
    ensures map[] + m == m && m + map[] == m
  {
  }

  /** Applying `a` and then `b` is applying their composition. */
  lemma ThenAssoc(x: Effect, a: Effect, b: Effect)
    ensures Then(Then(x, a), b) == Then(x, Then(a, b))
  {
    MergeAssoc(x.ops, a.ops, b.ops);
    MergeAssoc(x.state, a.state, b.state);
    MergeAssoc(x.props, a.props, b.props);
    assert (x.calls + a.calls) + b.calls == x.calls + (a.calls + b.calls);
  }

  /** Three and four effects applied one after another. */
  lemma Chain3(x: Effect, a: Effect, b: Effect, c: Effect)
    ensures Then(Then(Then(x, a), b), c) == Then(x, Then(a, Then(b, c)))
  {
    ThenAssoc(x, a, b);
    ThenAssoc(x, Then(a, b), c);
    ThenAssoc(a, b, c);
  }

  lemma Chain4(x: Effect, a: Effect, b: Effect, c: Effect, d: Effect)
    ensures Then(Then(Then(Then(x, a), b), c), d) == Then(x, Then(a, Then(b, Then(c, d))))
  {
    calc {
      Then(Then(Then(Then(x, a), b), c), d);
      { Chain3(x, a, b, c); }
      Then(Then(x, Then(a, Then(b, c))), d);
      { ThenAssoc(x, Then(a, Then(b, c)), d); }
      Then(x, Then(Then(a, Then(b, c)), d));
      { ThenAssoc(a, Then(b, c), d); ThenAssoc(b, c, d); }
      Then(x, Then(a, Then(b, Then(c, d))));
    }
  }

  /** An effect that only enqueues adds its operations and leaves the rest alone. */
  lemma OnlyOps(x: Effect, m: map<Op, Payload>)
    ensures Then(x, Nothing.(ops := m)) == x.(ops := x.ops + m)
  {
    assert x.state + map[] == x.state;
    assert x.props + map[] == x.props;
    assert x.calls + [] == x.calls;
  }

  function EnqueueEffect(op: Op, payload: Payload): Effect
  {
    Nothing.(ops := map[op := payload])
  }

  function StateEffect(m: Dict): Effect { Nothing.(state := m) }
  function PropsEffect(m: Dict): Effect { Nothing.(props := m) }
  function RetryEffect(id: string, progress: int, callbackSeconds: Option<nat>): Effect
  {
    Nothing.(retry := Some(Retry(id, progress, callbackSeconds)))
  }
  function FailEffect(message: string, progress: int): Effect
  {
    Nothing.(failure := Some(PermanentError(message, progress)))
  }
  const CrashEffect: Effect := Nothing.(failure := Some(UnexpectedError))
  function CallEffect(api: string, params: Dict): Effect { Nothing.(calls := [Request(api, params, NoPayload)]) }
  function CallWithEffect(api: string, params: Dict, data: Payload): Effect { Nothing.(calls := [Request(api, params, data)]) }

  /**
   * botocore's check of a request before it is sent: the parameters the
   * operation requires are present and no value in it holds `None`. A request
   * that fails it raises `ParamValidationError`, which is no `ClientError`: it
   * reaches the top-level `except` and nothing is sent.
   */
  predicate Accepted(params: Dict, required: set<string>)
  {
    required <= params.Keys && forall k | k in params :: NoNone(params[k])
  }

  /** The effect of `handle_common_errors`. */
  function CommonEffect(f: Fault, title: string, progress: int): Effect
  {
    if f.exhausted then FailEffect(title, progress) else RetryEffect(title, progress, None)
  }

  /** The effect of an `except` ladder; see `Classify`. */
  function HandleEffect(f: Fault, ignored: set<ErrorCode>, permanent: set<ErrorCode>, title: string, progress: int): Effect
    requires ignored !! permanent
  {
    match Classify(f, ignored, permanent)
    case Ignore => Nothing
    case Permanent => FailEffect(f.message, progress)
    case Common => CommonEffect(f, title, progress)
  }

  /**
   * Where a `ClientError` lands when it leaves a nested `try` and reaches the
   * enclosing one: a plain `retry_error(id, progress)`, or that call site's `except` ladder.
   */
  datatype Escape =
    | RetryOn(id: string, progress: int)
    | LadderOn(permanent: set<ErrorCode>, title: string, progress: int)

  function EscapeEffect(x: Escape, f: Fault): Effect
  {
    match x
    case RetryOn(id, progress) => RetryEffect(id, progress, None)
    case LadderOn(permanent, title, progress) => HandleEffect(f, {}, permanent, title, progress)
  }

  /** The payload stored with `op`, or none. */
  function PayloadOf(ops: map<Op, Payload>, op: Op): Payload
  {
    if op in ops then ops[op] else NoPayload
  }

  /** An effect that enqueues nothing and declares neither a retry nor a failure. */
  predicate Quiet(e: Effect)
  {
    e.ops == map[] && e.retry.None? && e.failure.None?
  }

  /** `e` enqueues only operations in `ops`, writes only State keys in `keys`, and records no Props. */
  predicate Confined(e: Effect, ops: set<Op>, keys: set<string>)
  {
    e.ops.Keys <= ops && e.state.Keys <= keys && e.props == map[]
  }

  lemma ThenConfined(a: Effect, b: Effect, ops: set<Op>, keys: set<string>)
    requires Confined(a, ops, keys) && Confined(b, ops, keys)
    ensures Confined(Then(a, b), ops, keys)
  {
    assert Then(a, b).props == map[] + map[];
  }

  /** A fault that escapes a nested `try` only declares a retry or a failure. */
  lemma EscapeConfined(x: Escape, f: Fault)
    ensures Confined(EscapeEffect(x, f), {}, {})
  {
  }

  /** A call that records nothing leaves what follows it as it is. */
  lemma CallFirst(call: Effect, e: Effect)
    requires call.ops == map[] && call.state == map[] && call.props == map[]
    ensures Then(call, e).ops == e.ops && Then(call, e).state == e.state && Then(call, e).props == e.props
  {
  }

  /** A call, the State, the Props and then what records neither. */
  lemma RecordShape(call: Effect, st: Dict, pr: Dict, rest: Effect)
    requires call.ops == map[] && call.state == map[] && call.props == map[]
    requires rest.state == map[] && rest.props == map[]
    ensures var e := Then(call, Then(StateEffect(st), Then(PropsEffect(pr), rest)));
      e.state == st && e.props == pr && e.ops == rest.ops
  {
    MergeEmpty(st);
    MergeEmpty(pr);
    MergeEmpty(rest.ops);
  }

  class Handler {
    var ops: map<Op, Payload>
    var state: Dict
    var props: Dict
    var retry: Option<Retry>
    var failure: Option<Failure>
    /** The operations that ran in this pass, in order. */
    var ran: seq<Op>
    /** The AWS requests issued in this pass, in order. */
    var calls: seq<Request>

    /** `capture_event`: the ledger carried over by the platform (empty on a fresh pass). */
    constructor (ops0: map<Op, Payload>, state0: Dict, props0: Dict)
      ensures ops == ops0 && state == state0 && props == props0
      ensures retry.None? && failure.None? && ran == [] && calls == []
    {
      ops, state, props := ops0, state0, props0;
      retry, failure := None, None;
      ran, calls := [], [];
    }

    /** The ledger's contents, as an effect applied to an empty ledger. */
    function Now(): Effect
      reads this
    {
      Effect(ops, state, props, retry, failure, calls)
    }

    /** The handler now holds its old contents with `e` applied; the record of operations run is untouched. */
    twostate predicate Applied(e: Effect)
      reads this
    {
      Now() == Then(old(Now()), e) && ran == old(ran)
    }

    /** Neither a retry nor a failure has been declared: later operations may still run. */
    predicate Live()
      reads this
    {
      retry.None? && failure.None?
    }

    /** `@ext(op=...)` lets the operation run: it is enqueued and the pass is live. */
    predicate Scheduled(op: Op)
      reads this
    {
      op in ops && Live()
    }

    /** How the pass ends when `finish()` is reached now. */
    function Result(): (r: PassResult)
      reads this
      ensures r == Finished <==> Live()
      ensures r.Failed? <==> failure.Some?
    {
      if failure.Some? then Failed(failure.value)
      else if retry.Some? then RetryLater(retry.value.progress, retry.value.callbackSeconds)
      else Finished
    }

    /** The `@ext` gate: decides whether `op` runs and records it when it does. */
    method Begin(op: Op) returns (run: bool)
      modifies this`ran
      ensures run == Scheduled(op)
      ensures ran == old(ran) + if run then [op] else []
    {
      run := op in ops && retry.None? && failure.None?;
      if run {
        ran := ran + [op];
      }
    }

    /** `add_op(op, payload)`. */
    method AddOp(op: Op, payload: Payload)
      modifies this`ops
      ensures ops == old(ops)[op := payload]
      ensures Applied(EnqueueEffect(op, payload))
    {
      ops := ops[op := payload];
    }

    /** `add_state(m)`: merge, the new entries winning. */
    method AddState(m: Dict)
      modifies this`state
      ensures state == old(state) + m
      ensures Applied(StateEffect(m))
    {
      state := state + m;
    }

    /** `add_props(m)`: merge, the new entries winning. */
    method AddProps(m: Dict)
      modifies this`props
      ensures props == old(props) + m
      ensures Applied(PropsEffect(m))
    {
      props := props + m;
    }

    /** `retry_error(id, progress, callback_sec)`. */
    method RetryError(id: string, progress: int, callbackSeconds: Option<nat>)
      modifies this`retry
      ensures retry == Some(Retry(id, progress, callbackSeconds))
      ensures Applied(RetryEffect(id, progress, callbackSeconds))
    {
      retry := Some(Retry(id, progress, callbackSeconds));
    }

    /** `perm_error(message, progress)`. */
    method PermError(message: string, progress: int)
      modifies this`failure
      ensures failure == Some(PermanentError(message, progress))
      ensures Applied(FailEffect(message, progress))
    {
      failure := Some(PermanentError(message, progress));
    }

    /** The top-level `except Exception`: `declare_return(200, 0, error_code=str(e))`. */
    method Unexpected()
      modifies this`failure
      ensures failure == Some(UnexpectedError)
      ensures Applied(CrashEffect)
    {
      failure := Some(UnexpectedError);
    }

    /** `handle_common_errors(e, eh, title, progress)`: a retry until the bounded count is used up, then a failure. */
    method HandleCommon(f: Fault, title: string, progress: int)
      modifies this`retry, this`failure
      ensures !f.exhausted ==> retry == Some(Retry(title, progress, None)) && failure == old(failure)
      ensures f.exhausted ==> failure == Some(PermanentError(title, progress)) && retry == old(retry)
      ensures Applied(CommonEffect(f, title, progress))
    {
      if f.exhausted {
        PermError(title, progress);
      } else {
        RetryError(title, progress, None);
      }
    }

    /** An `except` ladder at one call site; see `Classify`. */
    method Handle(f: Fault, ignored: set<ErrorCode>, permanent: set<ErrorCode>, title: string, progress: int)
      requires ignored !! permanent
      modifies this`retry, this`failure
      ensures f.exception in ignored ==> retry == old(retry) && failure == old(failure)
      ensures f.exception in permanent ==> failure == Some(PermanentError(f.message, progress)) && retry == old(retry)
      ensures Classify(f, ignored, permanent) == Common ==>
        (!f.exhausted ==> retry == Some(Retry(title, progress, None)) && failure == old(failure)) &&
        (f.exhausted ==> failure == Some(PermanentError(title, progress)) && retry == old(retry))
      ensures Applied(HandleEffect(f, ignored, permanent, title, progress))
    {
      var v := Classify(f, ignored, permanent);
      if v == Permanent {
        PermError(f.message, progress);
      } else if v == Common {
        HandleCommon(f, title, progress);
      }
    }

    /** The enclosing `try`'s handling of a fault that escaped a nested one. */
    method Escape(x: Escape, f: Fault)
      modifies this`retry, this`failure
      ensures Applied(EscapeEffect(x, f))
    {
      match x {
        case RetryOn(id, progress) =>
          RetryError(id, progress, None);
        case LadderOn(permanent, title, progress) =>
          Handle(f, {}, permanent, title, progress);
      }
    }

    /** Records an AWS request. */
    method Call(api: string, params: Dict, data: Payload)
      modifies this`calls
      ensures calls == old(calls) + [Request(api, params, data)]
      ensures Applied(CallWithEffect(api, params, data))
    {
      calls := calls + [Request(api, params, data)];
    }
  }

  // ---------------------------------------------------------------------------
  // The order in which a pass offers its operations. Each handler fixes a
  // `rank` for its operations; an operation offered later has a higher rank.

  /** Each operation appears at most once, in increasing rank. */
  predicate InOrder(s: seq<Op>, rank: Op -> nat)
  {
    forall i, j | 0 <= i < j < |s| :: rank(s[i]) < rank(s[j])
  }

  /** `s` is in increasing rank, told from its last entry back, and everything in it ranks below `below`. */
  predicate Ordered(s: seq<Op>, below: nat, rank: Op -> nat)
    decreases |s|
  {
    s == [] || (rank(s[|s| - 1]) < below && Ordered(s[..|s| - 1], rank(s[|s| - 1]), rank))
  }

  /** The recursive reading and the pairwise one agree. */
  lemma {:induction false} OrderedInOrder(s: seq<Op>, below: nat, rank: Op -> nat)
    requires Ordered(s, below, rank)
    ensures InOrder(s, rank)
    ensures forall i | 0 <= i < |s| :: rank(s[i]) < below
  {
    if s != [] {
      var n := |s| - 1;
      OrderedInOrder(s[..n], rank(s[n]), rank);
      assert forall i | 0 <= i < n :: s[i] == s[..n][i];
    }
  }

  lemma OrderedWeaken(s: seq<Op>, below: nat, above: nat, rank: Op -> nat)
    requires Ordered(s, below, rank) && below <= above
    ensures Ordered(s, above, rank)
  {
  }

  /**
   * Since the pass began with `base` recorded, the operations that ran are in
   * increasing rank and all rank below `below`.
   */
  predicate Progress(ran: seq<Op>, base: seq<Op>, below: nat, rank: Op -> nat)
  {
    |base| <= |ran| && ran[..|base|] == base && Ordered(ran[|base|..], below, rank)
  }

  /** Running one more operation, ranked above all that ran, keeps the record in order. */
  lemma RunNext(ran: seq<Op>, base: seq<Op>, op: Op, rank: Op -> nat)
    requires Progress(ran, base, rank(op), rank)
    ensures Progress(ran + [op], base, rank(op) + 1, rank)
  {
    var s := ran[|base|..];
    assert (ran + [op])[..|base|] == ran[..|base|];
    assert (ran + [op])[|base|..] == s + [op];
    assert (s + [op])[..|s|] == s;
  }

  /** Nothing a later operation can see has changed: none ran, no request, nothing enqueued, no retry or failure. */
  twostate predicate Idle(h: Handler)
    reads h
  {
    h.ran == old(h.ran) && h.calls == old(h.calls) && h.ops == old(h.ops) && h.state == old(h.state) &&
    h.failure == old(h.failure) && h.retry == old(h.retry)
  }

  /** `ran` begins with `before`. */
  predicate Extends(ran: seq<Op>, before: seq<Op>)
  {
    |before| <= |ran| && ran[..|before|] == before
  }
}
