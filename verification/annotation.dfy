/** The `experiment` record stamped onto every recommended item, so that a
    later conversion can be attributed to this exposure. */
module Annotation {
  import opened Outcomes
  import opened Values
  import opened Experiments

  /** The item key the stamp is stored under. */
  const ExperimentKey: string := "experiment"

  /** The stamp's contents: experiment identity, chosen variation, the
      item's 1-based rank in the response and its correlation id. */
  datatype Stamp = Stamp(identity: Identity, variationIndex: nat, resultRank: nat, correlationId: string)

  /** The stamp as the dict that is written into the item. */
  function StampValue(s: Stamp): Value {
    VMap(map[
      "id" := VStr(s.identity.id),
      "feature" := VStr(s.identity.feature),
      "name" := VStr(s.identity.name),
      "type" := VStr(s.identity.kind),
      "variationIndex" := VInt(s.variationIndex),
      "resultRank" := VInt(s.resultRank),
      "correlationId" := VStr(s.correlationId)])
  }

  function StrField(m: map<string, Value>, key: string): Option<string> {
    if key in m && m[key].VStr? then Some(m[key].s) else None
  }

  function NatField(m: map<string, Value>, key: string): Option<nat> {
    if key in m && m[key].VInt? && m[key].i >= 0 then Some(m[key].i) else None
  }

  /** Reads a stamp back from an item's `experiment` value, as an
      attribution consumer would; `None` if the value is not a stamp. */
  function StampOf(v: Value): Option<Stamp> {
    if !v.VMap? then None
    else
      var m := v.fields;
      match (StrField(m, "id"), StrField(m, "feature"), StrField(m, "name"), StrField(m, "type"))
      case (Some(id), Some(feature), Some(name), Some(kind)) =>
        (match (NatField(m, "variationIndex"), NatField(m, "resultRank"), StrField(m, "correlationId"))
         case (Some(vi), Some(rank), Some(cid)) => Some(Stamp(Identity(id, feature, name, kind), vi, rank, cid))
         case _ => None)
      case _ => None
  }

  /** Every stamp written into an item can be read back unchanged. */
  lemma StampRoundTrip(s: Stamp)
    ensures StampOf(StampValue(s)) == Some(s)
  {
  }

  /** `_create_correlation_id(user_id, variation_idx, rank)`, an opaque call. */
  type CorrelationIds = (Value, nat, nat) -> string

  /** The stamp for the item at rank `rank`. */
  function StampAt(identity: Identity, variation: nat, userId: Value, corr: CorrelationIds, rank: nat): Stamp {
    Stamp(identity, variation, rank, corr(userId, variation, rank))
  }

  /** The annotation loop from rank `rank` on: each item gets
      `item.update({'experiment': stamp})` and the rank goes up by one. */
  function AnnotateFrom(items: seq<Item>, identity: Identity, variation: nat, userId: Value,
                        corr: CorrelationIds, rank: nat): (r: seq<Item>)
    ensures |r| == |items|
    ensures forall k :: 0 <= k < |items| ==>
      r[k] == items[k][ExperimentKey := StampValue(StampAt(identity, variation, userId, corr, rank + k))]
    decreases |items|
  {
    if |items| == 0 then []
    else
      [items[0][ExperimentKey := StampValue(StampAt(identity, variation, userId, corr, rank))]]
        + AnnotateFrom(items[1..], identity, variation, userId, corr, rank + 1)
  }

  /** `out` is `items` annotated: same length and order, item `k` stamped
      with rank `k + 1`, and no key but `experiment` added or changed. */
  predicate IsAnnotationOf(out: seq<Item>, items: seq<Item>, identity: Identity, variation: nat,
                           userId: Value, corr: CorrelationIds) {
    && |out| == |items|
    && (forall k :: 0 <= k < |out| ==>
          && ExperimentKey in out[k]
          && out[k][ExperimentKey] == StampValue(StampAt(identity, variation, userId, corr, k + 1)))
    && (forall k :: 0 <= k < |out| ==> out[k].Keys == items[k].Keys + {ExperimentKey})
    && (forall k, key :: 0 <= k < |out| && key in items[k] && key != ExperimentKey ==>
          out[k][key] == items[k][key])
  }

  /** The annotation loop over the resolver output, ranks starting at 1.
      Each stamp reads back with the item's rank, so ranks run 1, 2, ... in
      resolver order. */
  function Annotate(items: seq<Item>, identity: Identity, variation: nat, userId: Value,
                    corr: CorrelationIds): (r: seq<Item>)
    ensures IsAnnotationOf(r, items, identity, variation, userId, corr)
    ensures forall k :: 0 <= k < |r| ==>
      StampOf(r[k][ExperimentKey]) == Some(Stamp(identity, variation, k + 1, corr(userId, variation, k + 1)))
  {
    var r := AnnotateFrom(items, identity, variation, userId, corr, 1);
    StampsReadBack(items, identity, variation, userId, corr, r);
    r
  }

  lemma StampsReadBack(items: seq<Item>, identity: Identity, variation: nat, userId: Value,
                       corr: CorrelationIds, r: seq<Item>)
    requires r == AnnotateFrom(items, identity, variation, userId, corr, 1)
    ensures forall k :: 0 <= k < |r| ==>
      && ExperimentKey in r[k]
      && StampOf(r[k][ExperimentKey]) == Some(Stamp(identity, variation, k + 1, corr(userId, variation, k + 1)))
  {
    forall k | 0 <= k < |r|
      ensures ExperimentKey in r[k]
      ensures StampOf(r[k][ExperimentKey]) == Some(Stamp(identity, variation, k + 1, corr(userId, variation, k + 1)))
    {
      StampRoundTrip(StampAt(identity, variation, userId, corr, 1 + k));
    }
  }

  /** The annotation property pins the response down completely: the loop's
      output is the only sequence that has it. */
  lemma AnnotationIsUnique(out: seq<Item>, items: seq<Item>, identity: Identity, variation: nat,
                           userId: Value, corr: CorrelationIds)
    ensures IsAnnotationOf(out, items, identity, variation, userId, corr)
        <==> out == Annotate(items, identity, variation, userId, corr)
  {
    if IsAnnotationOf(out, items, identity, variation, userId, corr) {
      var r := Annotate(items, identity, variation, userId, corr);
      forall k | 0 <= k < |out| ensures out[k] == r[k] {
        assert out[k].Keys == r[k].Keys;
        forall key | key in out[k] ensures out[k][key] == r[k][key] {
          if key != ExperimentKey {
            assert key in items[k];
          }
        }
      }
    }
  }
}
