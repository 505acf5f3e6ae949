/** Thompson sampling over the variations: read each variation's counts,
    form the Beta shape parameters, and pick the first index of the largest
    posterior draw. The draw itself is random and is taken as an input. */
module Sampling {
  import opened Outcomes
  import opened Values
  import opened Experiments

  const Exposures: string := "exposures"
  const Conversions: string := "conversions"

  /** `int(config.get(key, 0))`: an absent key reads as 0. */
  function ReadCount(config: Config, key: string): (r: Result<int, ConversionError>)
    ensures key !in config ==> r == Ok(0)
    ensures key in config ==> r == ToInt(config[key])
  {
    if key in config then ToInt(config[key]) else Ok(0)
  }

  /** Both counts of a config convert without raising. */
  predicate Readable(config: Config) {
    ReadCount(config, Exposures).Ok? && ReadCount(config, Conversions).Ok?
  }

  /** The exposure and conversion counts, one entry per variation. */
  datatype Counts = Counts(exposures: seq<int>, conversions: seq<int>)

  /** The loop that fills the `exposures` and `conversions` arrays from
      variation `i` on, reading `exposures` before `conversions` for each
      variation in order; the first `int()` call that raises ends it. */
  function ReadCountsFrom(configs: seq<Config>, i: nat): (r: Result<Counts, Error>)
    requires i <= |configs|
    ensures r.Ok? <==> forall j :: i <= j < |configs| ==> Readable(configs[j])
    ensures r.Ok? ==>
      && |r.value.exposures| == |configs| - i
      && |r.value.conversions| == |configs| - i
      && (forall j :: i <= j < |configs| ==>
            && r.value.exposures[j - i] == ReadCount(configs[j], Exposures).value
            && r.value.conversions[j - i] == ReadCount(configs[j], Conversions).value)
    ensures r.Err? ==>
      && r.error.BadCount?
      && i <= r.error.variation < |configs|
      && !Readable(configs[r.error.variation])
      && (forall j :: i <= j < r.error.variation ==> Readable(configs[j]))
      && r.error.key == (if ReadCount(configs[r.error.variation], Exposures).Err?
                         then Exposures else Conversions)
      && r.error.cause == ReadCount(configs[r.error.variation], r.error.key).error
    decreases |configs| - i
  {
    if i == |configs| then Ok(Counts([], []))
    else
      match ReadCount(configs[i], Exposures)
      case Err(why) => Err(BadCount(i, Exposures, why))
      case Ok(x) =>
        match ReadCount(configs[i], Conversions)
        case Err(why) => Err(BadCount(i, Conversions, why))
        case Ok(y) =>
          match ReadCountsFrom(configs, i + 1)
          case Err(e) => Err(e)
          case Ok(c) => Ok(Counts([x] + c.exposures, [y] + c.conversions))
  }

  /** The counts of all variations: one entry of each per variation, or the
      error of the first variation whose counts cannot be read. */
  function ReadCounts(configs: seq<Config>): (r: Result<Counts, Error>)
    ensures r.Ok? <==> forall i :: 0 <= i < |configs| ==> Readable(configs[i])
    ensures r.Ok? ==>
      && |r.value.exposures| == |configs|
      && |r.value.conversions| == |configs|
      && (forall i :: 0 <= i < |configs| ==>
            && r.value.exposures[i] == ReadCount(configs[i], Exposures).value
            && r.value.conversions[i] == ReadCount(configs[i], Conversions).value)
    ensures r.Err? ==>
      && r.error.BadCount?
      && r.error.variation < |configs|
      && !Readable(configs[r.error.variation])
      && (forall j :: 0 <= j < r.error.variation ==> Readable(configs[j]))
      && r.error.key == (if ReadCount(configs[r.error.variation], Exposures).Err?
                         then Exposures else Conversions)
      && r.error.cause == ReadCount(configs[r.error.variation], r.error.key).error
  {
    ReadCountsFrom(configs, 0)
  }

  /** The shape parameters of one variation's Beta posterior. */
  datatype Shape = Shape(alpha: int, beta: int)

  /** `(conversions + 1, exposures + 1)`, index-aligned with the variations. */
  function Shapes(c: Counts): (s: seq<Shape>)
    requires |c.exposures| == |c.conversions|
    ensures |s| == |c.exposures|
  {
    seq(|c.exposures|, i requires 0 <= i < |c.exposures| => Shape(c.conversions[i] + 1, c.exposures[i] + 1))
  }

  /** The counts `np.random.beta` accepts: every shape parameter positive,
      that is, no negative count. */
  predicate NonNegative(c: Counts) {
    && (forall i :: 0 <= i < |c.exposures| ==> c.exposures[i] >= 0)
    && (forall i :: 0 <= i < |c.conversions| ==> c.conversions[i] >= 0)
  }

  /** `np.random.beta(a, b)` raises `a <= 0` when some first shape parameter
      is not positive, else `b <= 0` when some second one is not. */
  function CheckShapes(s: seq<Shape>): (r: Option<Error>)
    ensures r.None? <==> forall i :: 0 <= i < |s| ==> s[i].alpha > 0 && s[i].beta > 0
    ensures r.Some? ==>
      r.value == BetaParamNotPositive(
        if exists i :: 0 <= i < |s| && s[i].alpha <= 0 then "a" else "b")
  {
    if exists i :: 0 <= i < |s| && s[i].alpha <= 0 then Some(BetaParamNotPositive("a"))
    else if exists i :: 0 <= i < |s| && s[i].beta <= 0 then Some(BetaParamNotPositive("b"))
    else None
  }

  /** Each variation's shape parameters are its conversions and exposures,
      each plus one; a variation whose config has neither count gets the
      uniform prior Beta(1, 1). */
  lemma ShapesOfConfigs(configs: seq<Config>)
    requires ReadCounts(configs).Ok?
    ensures |Shapes(ReadCounts(configs).value)| == |configs|
    ensures forall i :: 0 <= i < |configs| ==>
      Shapes(ReadCounts(configs).value)[i]
        == Shape(ReadCount(configs[i], Conversions).value + 1, ReadCount(configs[i], Exposures).value + 1)
    ensures forall i :: 0 <= i < |configs| && Exposures !in configs[i] && Conversions !in configs[i] ==>
      Shapes(ReadCounts(configs).value)[i] == Shape(1, 1)
  {
    ShapesOfReadCounts(configs, ReadCounts(configs).value);
  }

  /** `ShapesOfConfigs` for counts already known to be the configs' counts. */
  lemma ShapesOfReadCounts(configs: seq<Config>, c: Counts)
    requires |c.exposures| == |configs| && |c.conversions| == |configs|
    requires forall i :: 0 <= i < |configs| ==>
      && Readable(configs[i])
      && c.exposures[i] == ReadCount(configs[i], Exposures).value
      && c.conversions[i] == ReadCount(configs[i], Conversions).value
    ensures |Shapes(c)| == |configs|
    ensures forall i :: 0 <= i < |configs| ==>
      Readable(configs[i]) &&
      Shapes(c)[i] == Shape(ReadCount(configs[i], Conversions).value + 1, ReadCount(configs[i], Exposures).value + 1)
  {
  }

  /** The Beta draw is possible exactly when no count is negative. */
  lemma ShapesValidIffNonNegative(c: Counts)
    requires |c.exposures| == |c.conversions|
    ensures CheckShapes(Shapes(c)).None? <==> NonNegative(c)
  {
    var s := Shapes(c);
    if CheckShapes(s).None? {
      forall i | 0 <= i < |c.exposures| ensures c.exposures[i] >= 0 && c.conversions[i] >= 0 {
        assert s[i].alpha > 0 && s[i].beta > 0;
      }
    }
  }

  /** `k` is where `np.argmax` lands: a largest entry, and the first one. */
  predicate IsFirstMax(theta: seq<real>, k: int) {
    && 0 <= k < |theta|
    && (forall j :: 0 <= j < |theta| ==> theta[j] <= theta[k])
    && (forall j :: 0 <= j < k ==> theta[j] < theta[k])
  }

  /** `np.argmax`: a left-to-right scan that moves only on a strictly larger entry. */
  function ArgMax(theta: seq<real>): (k: nat)
    requires |theta| > 0
    ensures IsFirstMax(theta, k)
    decreases |theta|
  {
    if |theta| == 1 then 0
    else
      var k := ArgMax(theta[..|theta| - 1]);
      if theta[|theta| - 1] > theta[k] then |theta| - 1 else k
  }

  /** The first maximum is unique, so `ArgMax` is the only index with that property. */
  lemma FirstMaxIsArgMax(theta: seq<real>, k: int)
    requires |theta| > 0
    ensures IsFirstMax(theta, k) <==> k == ArgMax(theta)
  {
  }

  /** The sampling snapshot `_log_experiment_data` tries to store. The ISO
      timestamp is not modelled. */
  datatype Snapshot = Snapshot(experimentId: string, exposures: seq<int>, conversions: seq<int>, theta: seq<real>)

  /** How the attempt to store the snapshot ends. Every failure is logged and
      swallowed: by the `ClientError` handler, by the catch-all handler
      around `put_item`, or by the caller's handler. */
  datatype LogOutcome = Stored | ClientErrorLogged | UnexpectedErrorLogged | CallerLogged

  /** The chosen variation and the snapshot of the data that chose it. */
  datatype Selection = Selection(index: nat, snapshot: Snapshot)

  /** The draw and the choice, once the counts are read: the draw raises
      on a negative count (reporting `a`, the conversions side, first);
      otherwise the first largest draw wins. */
  function Choose(experimentId: string, c: Counts, theta: seq<real>): (r: Result<Selection, Error>)
    requires |theta| > 0 && |c.exposures| == |theta| && |c.conversions| == |theta|
    ensures r.Ok? <==> NonNegative(c)
    ensures r.Ok? ==>
      && IsFirstMax(theta, r.value.index)
      && r.value.snapshot == Snapshot(experimentId, c.exposures, c.conversions, theta)
    ensures r.Err? ==>
      r.error == BetaParamNotPositive(
        if exists i :: 0 <= i < |c.conversions| && c.conversions[i] < 0 then "a" else "b")
  {
    var s := Shapes(c);
    ShapesValidIffNonNegative(c);
    assert (exists i :: 0 <= i < |s| && s[i].alpha <= 0)
       <==> (exists i :: 0 <= i < |c.conversions| && c.conversions[i] < 0) by {
      if exists i :: 0 <= i < |c.conversions| && c.conversions[i] < 0 {
        var i :| 0 <= i < |c.conversions| && c.conversions[i] < 0;
        assert s[i].alpha <= 0;
      }
    }
    match CheckShapes(s)
    case Some(e) => Err(e)
    case None => Ok(Selection(ArgMax(theta), Snapshot(experimentId, c.exposures, c.conversions, theta)))
  }

  /** `_select_variation_index`, with `theta` the draw `np.random.beta`
      returned for the shape parameters. The snapshot write that follows the
      draw is recorded by the caller; its outcome cannot reach the result. */
  function SelectVariationIndex(experimentId: string, configs: seq<Config>, theta: seq<real>): (r: Result<Selection, Error>)
    requires |configs| > 0 && |theta| == |configs|
    ensures r.Ok? <==> ReadCounts(configs).Ok? && NonNegative(ReadCounts(configs).value)
    ensures r.Ok? ==>
      && r.value.index < |configs|
      && IsFirstMax(theta, r.value.index)
      && r.value.snapshot == Snapshot(experimentId, ReadCounts(configs).value.exposures,
                                      ReadCounts(configs).value.conversions, theta)
    ensures ReadCounts(configs).Err? ==> r == Err(ReadCounts(configs).error)
    ensures r.Err? && ReadCounts(configs).Ok? ==> r.error.BetaParamNotPositive?
  {
    match ReadCounts(configs)
    case Err(e) => Err(e)
    case Ok(c) => Choose(experimentId, c, theta)
  }
}
