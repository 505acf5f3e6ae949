/** `MultiArmedBanditExperiment.get_items`: validate the request, pick a
    variation by Thompson sampling, count the exposure, fetch that
    variation's items, stamp them, and report the exposure to the tracker.

    The call is a pure function of the experiment, the request and an
    environment that supplies everything the source takes from outside:
    the random draw, the fate of the snapshot write, the opaque correlation
    ids, the config after the opaque increment, and the clock. The side
    effects the source performs are returned, in order, as `effects`. */
module Bandit {
  import opened Outcomes
  import opened Values
  import opened Experiments
  import opened Sampling
  import opened Annotation

  const ExposureEventType: string := "Experiment Exposure"

  /** The event handed to `tracker.log_exposure`; the timestamp is in
      milliseconds since the epoch. */
  datatype ExposureEvent = ExposureEvent(
    eventType: string,
    eventTimestamp: int,
    userId: Value,
    experiment: Identity,
    variationIndex: nat,
    variation: Config)

  /** `tracker.log_exposure(event)`: `Some(reason)` when it raises. */
  type Tracker = ExposureEvent -> Option<string>

  /** The arguments of `get_items`; the timestamp is already in milliseconds. */
  datatype Request = Request(
    userId: Value,
    currentItemId: Value,
    itemList: Value,
    numResults: Value,
    tracker: Option<Tracker>,
    filterValues: Value,
    context: Value,
    timestampMillis: Option<int>,
    promotion: Value)

  /** What the source takes from outside itself. */
  datatype Env = Env(
    theta: seq<real>,                     // the draw `np.random.beta` returns, one per variation
    snapshotWrite: LogOutcome,            // how the snapshot write ends
    correlationId: CorrelationIds,        // `_create_correlation_id`
    configAfterIncrement: Config -> Config, // a variation's config once `_increment_exposure_count` ran
    nowMillis: int)                       // `datetime.now()` in milliseconds

  /** The side effects of a call, in the order they happen. */
  datatype Effect =
    | SnapshotWrite(snapshot: Snapshot, outcome: LogOutcome)
    | IncrementExposure(variation: nat)
    | Resolve(variation: nat, params: ResolveParams)
    | TrackExposure(event: ExposureEvent)

  datatype Response = Response(result: Result<seq<Item>, Error>, effects: seq<Effect>)

  /** The request fields forwarded to the resolver. */
  function ParamsOf(req: Request): ResolveParams {
    ResolveParams(req.userId, req.currentItemId, req.itemList, req.numResults,
                  req.filterValues, req.context, req.promotion)
  }

  /** The variations whose exposure count was incremented, in order. */
  function Increments(effects: seq<Effect>): seq<nat> {
    if |effects| == 0 then []
    else (if effects[0].IncrementExposure? then [effects[0].variation] else []) + Increments(effects[1..])
  }

  /** The exposure events handed to the tracker, in order. */
  function TrackedEvents(effects: seq<Effect>): seq<ExposureEvent> {
    if |effects| == 0 then []
    else (if effects[0].TrackExposure? then [effects[0].event] else []) + TrackedEvents(effects[1..])
  }

  /** Counting increments distributes over concatenating traces. */
  lemma {:induction false} IncrementsAppend(a: seq<Effect>, b: seq<Effect>)
    ensures Increments(a + b) == Increments(a) + Increments(b)
    decreases |a|
  {
    if |a| > 0 {
      assert (a + b)[1..] == a[1..] + b;
      assert (a + b)[0] == a[0];
      IncrementsAppend(a[1..], b);
    } else {
      assert a + b == b;
    }
  }

  /** Collecting exposure events distributes over concatenating traces. */
  lemma {:induction false} TrackedEventsAppend(a: seq<Effect>, b: seq<Effect>)
    ensures TrackedEvents(a + b) == TrackedEvents(a) + TrackedEvents(b)
    decreases |a|
  {
    if |a| > 0 {
      assert (a + b)[1..] == a[1..] + b;
      assert (a + b)[0] == a[0];
      TrackedEventsAppend(a[1..], b);
    } else {
      assert a + b == b;
    }
  }

  /** The selection `get_items` makes once validation has passed. */
  function Select(e: Experiment, env: Env): (r: Result<Selection, Error>)
    requires |e.variations| > 0 && |env.theta| == |e.variations|
  {
    SelectVariationIndex(e.identity.id, Configs(e.variations), env.theta)
  }

  /** The exposure event for a call that chose variation `k`. */
  function ExposureEventFor(e: Experiment, req: Request, env: Env, k: nat): (ev: ExposureEvent)
    requires k < |e.variations|
    ensures ev.eventType == ExposureEventType
    ensures ev.userId == req.userId && ev.experiment == e.identity && ev.variationIndex == k
    ensures req.timestampMillis.Some? ==> ev.eventTimestamp == req.timestampMillis.value
    ensures req.timestampMillis.None? ==> ev.eventTimestamp == env.nowMillis
    ensures ev.variation == env.configAfterIncrement(e.variations[k].config)
  {
    ExposureEvent(
      ExposureEventType,
      match req.timestampMillis case Some(t) => t case None => env.nowMillis,
      req.userId,
      e.identity,
      k,
      env.configAfterIncrement(e.variations[k].config))
  }

  /** The trace up to the resolver call holds one increment and no event. */
  lemma ServedTrace(snapshot: Snapshot, outcome: LogOutcome, k: nat, params: ResolveParams)
    ensures Increments([SnapshotWrite(snapshot, outcome), IncrementExposure(k), Resolve(k, params)]) == [k]
    ensures TrackedEvents([SnapshotWrite(snapshot, outcome), IncrementExposure(k), Resolve(k, params)]) == []
  {
    var served := [SnapshotWrite(snapshot, outcome), IncrementExposure(k), Resolve(k, params)];
    var last := [Resolve(k, params)];
    assert last[1..] == [];
    assert Increments(last) == [] && TrackedEvents(last) == [];
    assert served[1..][1..] == last;
    assert Increments(served[1..]) == [k] && TrackedEvents(served[1..]) == [];
  }

  /** What the resolver of variation `k` returns for the request's arguments. */
  function Resolved(e: Experiment, req: Request, k: nat): Result<seq<Item>, string>
    requires k < |e.variations|
  {
    e.variations[k].resolver(ParamsOf(req))
  }

  /** `get_items` once variation `sel.index` has been selected: write the
      snapshot, count the exposure, call that variation's resolver, stamp its
      items, and report the exposure when there is a tracker. */
  function Serve(e: Experiment, req: Request, env: Env, sel: Selection): (r: Response)
    requires sel.index < |e.variations|
    // the whole trace: one snapshot write, one increment, one resolver call, and the event when items came back
    ensures r.effects
      == [SnapshotWrite(sel.snapshot, env.snapshotWrite), IncrementExposure(sel.index), Resolve(sel.index, ParamsOf(req))]
         + (if req.tracker.Some? && Resolved(e, req, sel.index).Ok?
            then [TrackExposure(ExposureEventFor(e, req, env, sel.index))] else [])
    ensures Increments(r.effects) == [sel.index]
    ensures r.result.Ok? ==>
      && Resolved(e, req, sel.index).Ok?
      && IsAnnotationOf(r.result.value, Resolved(e, req, sel.index).value,
                        e.identity, sel.index, req.userId, env.correlationId)
    ensures Resolved(e, req, sel.index).Err? ==>
      r.result == Err(Raised(Resolved(e, req, sel.index).error))
    ensures req.tracker.None? ==> TrackedEvents(r.effects) == []
    ensures |TrackedEvents(r.effects)| <= 1
    ensures req.tracker.Some? && Resolved(e, req, sel.index).Ok? ==>
      TrackedEvents(r.effects) == [ExposureEventFor(e, req, env, sel.index)]
    // a resolver that returns items, with no tracker or one that accepts the event, serves them annotated
    ensures Resolved(e, req, sel.index).Ok? &&
            (req.tracker.None? || req.tracker.value(ExposureEventFor(e, req, env, sel.index)).None?) ==>
      r.result == Ok(Annotate(Resolved(e, req, sel.index).value,
                              e.identity, sel.index, req.userId, env.correlationId))
    // a tracker exception reaches the caller
    ensures Resolved(e, req, sel.index).Ok? && req.tracker.Some? &&
            req.tracker.value(ExposureEventFor(e, req, env, sel.index)).Some? ==>
      r.result == Err(Raised(req.tracker.value(ExposureEventFor(e, req, env, sel.index)).value))
  {
    var k := sel.index;
    var params := ParamsOf(req);
    var served := [SnapshotWrite(sel.snapshot, env.snapshotWrite), IncrementExposure(k), Resolve(k, params)];
    ServedTrace(sel.snapshot, env.snapshotWrite, k, params);
    match e.variations[k].resolver(params)
    case Err(reason) =>
      assert served + [] == served;
      Response(Err(Raised(reason)), served)
    case Ok(items) =>
      var annotated := Annotate(items, e.identity, k, req.userId, env.correlationId);
      match req.tracker
      case None =>
        assert served + [] == served;
        Response(Ok(annotated), served)
      case Some(tracker) =>
        var event := ExposureEventFor(e, req, env, k);
        var tracked := served + [TrackExposure(event)];
        IncrementsAppend(served, [TrackExposure(event)]);
        TrackedEventsAppend(served, [TrackExposure(event)]);
        match tracker(event)
        case None => Response(Ok(annotated), tracked)
        case Some(reason) => Response(Err(Raised(reason)), tracked)
  }

  /** `get_items`. */
  function GetItems(e: Experiment, req: Request, env: Env): (r: Response)
    requires |env.theta| == |e.variations|
    // validation: a falsy user id, then too few variations, raise before any side effect
    ensures !Truthy(req.userId) <==> r.result == Err(UserIdRequired)
    ensures Truthy(req.userId) && |e.variations| < 2 <==> r.result == Err(TooFewVariations(e.identity.id))
    ensures !Truthy(req.userId) || |e.variations| < 2 ==> r.effects == []
    // a count that cannot be read, or a negative one, raises before any side effect
    ensures Truthy(req.userId) && |e.variations| >= 2 && Select(e, env).Err? ==>
      r == Response(Err(Select(e, env).error), [])
    // once a variation is selected: the whole trace is one snapshot write, one increment of the
    // argmax variation, one call of its resolver, and the exposure event when items came back
    ensures r.effects != [] ==>
      && |e.variations| >= 2
      && Select(e, env).Ok?
      && Select(e, env).value.index == ArgMax(env.theta)
      && r.effects
         == [SnapshotWrite(Select(e, env).value.snapshot, env.snapshotWrite),
             IncrementExposure(ArgMax(env.theta)),
             Resolve(ArgMax(env.theta), ParamsOf(req))]
            + (if req.tracker.Some? && Resolved(e, req, ArgMax(env.theta)).Ok?
               then [TrackExposure(ExposureEventFor(e, req, env, ArgMax(env.theta)))] else [])
      && Increments(r.effects) == [ArgMax(env.theta)]
    // a successful call incremented exactly once, and its items are the chosen resolver's output annotated
    ensures r.result.Ok? ==>
      && |e.variations| >= 2
      && r.effects != []
      && Resolved(e, req, ArgMax(env.theta)).Ok?
      && IsAnnotationOf(r.result.value, Resolved(e, req, ArgMax(env.theta)).value,
                        e.identity, ArgMax(env.theta), req.userId, env.correlationId)
    // a resolver exception reaches the caller unchanged, after the increment
    ensures r.effects != [] && Resolved(e, req, ArgMax(env.theta)).Err? ==>
      r.result == Err(Raised(Resolved(e, req, ArgMax(env.theta)).error)) && |r.effects| == 3
    // at most one exposure event, and only with a tracker
    ensures req.tracker.None? ==> TrackedEvents(r.effects) == []
    ensures |TrackedEvents(r.effects)| <= 1
    ensures req.tracker.Some? && r.effects != [] && Resolved(e, req, ArgMax(env.theta)).Ok? ==>
      TrackedEvents(r.effects) == [ExposureEventFor(e, req, env, ArgMax(env.theta))]
    // a valid request whose counts are readable and non-negative selects, and so increments and resolves
    ensures Truthy(req.userId) && |e.variations| >= 2 && Select(e, env).Ok? ==> r.effects != []
    // the chosen resolver's items, with no tracker or one that accepts the event, are served annotated
    ensures r.effects != [] && Resolved(e, req, ArgMax(env.theta)).Ok? &&
            (req.tracker.None? || req.tracker.value(ExposureEventFor(e, req, env, ArgMax(env.theta))).None?) ==>
      r.result == Ok(Annotate(Resolved(e, req, ArgMax(env.theta)).value,
                              e.identity, ArgMax(env.theta), req.userId, env.correlationId))
    // a tracker exception reaches the caller
    ensures r.effects != [] && Resolved(e, req, ArgMax(env.theta)).Ok? && req.tracker.Some? &&
            req.tracker.value(ExposureEventFor(e, req, env, ArgMax(env.theta))).Some? ==>
      r.result == Err(Raised(req.tracker.value(ExposureEventFor(e, req, env, ArgMax(env.theta))).value))
  {
    if !Truthy(req.userId) then Response(Err(UserIdRequired), [])
    else if |e.variations| < 2 then Response(Err(TooFewVariations(e.identity.id)), [])
    else
      match Select(e, env)
      case Err(err) => Response(Err(err), [])
      case Ok(sel) =>
        FirstMaxIsArgMax(env.theta, sel.index);
        Serve(e, req, env, sel)
  }

  /** Whatever happens to the snapshot write, the caller sees the same
      result, and the trace differs only in the recorded outcome. */
  lemma SnapshotOutcomeIsolated(e: Experiment, req: Request, env: Env, w: LogOutcome)
    requires |env.theta| == |e.variations|
    ensures GetItems(e, req, env.(snapshotWrite := w)).result == GetItems(e, req, env).result
    ensures |GetItems(e, req, env.(snapshotWrite := w)).effects| == |GetItems(e, req, env).effects|
    ensures forall i :: 0 <= i < |GetItems(e, req, env).effects| ==>
      GetItems(e, req, env.(snapshotWrite := w)).effects[i]
        == (if i == 0 then GetItems(e, req, env).effects[i].(outcome := w) else GetItems(e, req, env).effects[i])
  {
  }

  /** The tracker only adds the exposure event: with a tracker that accepts
      the event, the items and the other effects are those of the same call
      without a tracker. */
  lemma TrackerOnlyAddsEvent(e: Experiment, req: Request, env: Env)
    requires |env.theta| == |e.variations|
    requires req.tracker.Some?
    requires |e.variations| >= 2 ==> req.tracker.value(ExposureEventFor(e, req, env, ArgMax(env.theta))).None?
    ensures GetItems(e, req, env).result == GetItems(e, req.(tracker := None), env).result
    ensures GetItems(e, req, env).effects
      == GetItems(e, req.(tracker := None), env).effects
         + (if GetItems(e, req, env).result.Ok? then [TrackExposure(ExposureEventFor(e, req, env, ArgMax(env.theta)))] else [])
  {
  }

  /** `tracker.log_exposure` is called outside any handler, so its exception
      reaches the caller, after the increment and the annotation. */
  lemma TrackerErrorReachesCaller(e: Experiment, req: Request, env: Env, reason: string)
    requires |env.theta| == |e.variations|
    requires Truthy(req.userId) && |e.variations| >= 2 && Select(e, env).Ok?
    requires e.variations[ArgMax(env.theta)].resolver(ParamsOf(req)).Ok?
    requires req.tracker.Some? && req.tracker.value(ExposureEventFor(e, req, env, ArgMax(env.theta))) == Some(reason)
    ensures GetItems(e, req, env).result == Err(Raised(reason))
    ensures Increments(GetItems(e, req, env).effects) == [ArgMax(env.theta)]
    ensures TrackedEvents(GetItems(e, req, env).effects) == [ExposureEventFor(e, req, env, ArgMax(env.theta))]
  {
  }

  /** The arguments of a call that passes only a user id. */
  function DefaultRequest(userId: Value): (req: Request)
    ensures req.userId == userId && req.numResults == VInt(10) && req.tracker.None?
    ensures req.timestampMillis.None?
    ensures ParamsOf(req) == ResolveParams(userId, VNone, VNone, VInt(10), VNone, VNone, VNone)
  {
    Request(userId, VNone, VNone, VInt(10), None, VNone, VNone, None, VNone)
  }

  /** The experiment of the two-variation scenario below. */
  function ScenarioExperiment(identity: Identity, x: Item, y: Item, z: Item): Experiment {
    var resolver: Resolver := _ => Ok([x, y, z]);
    Experiment(identity, [
      Variation(map[Exposures := VInt(10), Conversions := VInt(9)], resolver),
      Variation(map[Exposures := VInt(10), Conversions := VInt(1)], resolver)])
  }

  /** Two variations, A with 10 exposures and 9 conversions and B with 10
      and 1, both resolving to `[x, y, z]`, asked for 3 results by user "u1":
      whichever variation the draw favours, the response holds three items
      ranked 1, 2, 3, all stamped with that variation, whose exposure count
      was incremented once. */
  lemma TwoVariationScenario(identity: Identity, x: Item, y: Item, z: Item, env: Env)
    requires |env.theta| == 2
    ensures
      var r := GetItems(ScenarioExperiment(identity, x, y, z), DefaultRequest(VStr("u1")).(numResults := VInt(3)), env);
      var k := if env.theta[1] > env.theta[0] then 1 else 0;
      && r.result.Ok?
      && |r.result.value| == 3
      && (forall i :: 0 <= i < 3 ==>
            StampOf(r.result.value[i][ExperimentKey]) == Some(StampAt(identity, k, VStr("u1"), env.correlationId, i + 1)))
      && Increments(r.effects) == [k]
      && TrackedEvents(r.effects) == []
  {
  }
}
