/** The experiment as the bandit sees it: identity fields and an ordered
    list of variations, each with a config map and an item resolver. The
    experiment itself is owned elsewhere; the bandit only reads it. */
module Experiments {
  import opened Outcomes
  import opened Values

  /** A variation's configuration; `exposures` and `conversions` are the
      counts the sampler reads. */
  type Config = map<string, Value>

  /** A recommended item as the resolver returns it: a Python dict. */
  type Item = map<string, Value>

  /** The identity fields of an experiment (`kind` is the `type` field). */
  datatype Identity = Identity(id: string, feature: string, name: string, kind: string)

  /** The keyword arguments forwarded to a variation's resolver. */
  datatype ResolveParams = ResolveParams(
    userId: Value,
    productId: Value,
    productList: Value,
    numResults: Value,
    filterValues: Value,
    context: Value,
    promotion: Value)

  /** A variation's recommendation algorithm: it returns items or raises
      with some reason. */
  type Resolver = ResolveParams -> Result<seq<Item>, string>

  datatype Variation = Variation(config: Config, resolver: Resolver)

  datatype Experiment = Experiment(identity: Identity, variations: seq<Variation>)

  /** The ways a call to `get_items` can raise. */
  datatype Error =
    | UserIdRequired
      /** fewer than two variations; carries the experiment id of the message */
    | TooFewVariations(experimentId: string)
      /** `int(config.get(key, 0))` raised for variation `variation` */
    | BadCount(variation: nat, key: string, cause: ConversionError)
      /** `np.random.beta` raised because a shape parameter (`a` or `b`) is not positive */
    | BetaParamNotPositive(param: string)
      /** an exception raised by the resolver or the tracker, passed on unchanged */
    | Raised(reason: string)

  /** The configs of the variations, in variation order. */
  function Configs(vs: seq<Variation>): (cs: seq<Config>)
    ensures |cs| == |vs|
    ensures forall i :: 0 <= i < |vs| ==> cs[i] == vs[i].config
  {
    seq(|vs|, i requires 0 <= i < |vs| => vs[i].config)
  }
}
