# Thompson-sampling bandit experiment, modelled in Dafny

This project models `MultiArmedBanditExperiment` from the retail demo store's
recommendation service. It picks one of an experiment's variations (arms)
for each recommendation request by Thompson sampling. It then counts the
exposure, fetches that variation's items, and stamps each item with
experiment provenance so that a later conversion can be attributed to this
exposure. If the caller passes a tracker, it also reports the exposure there.

The model is functional. `Bandit.GetItems(experiment, request, env)` returns
a `Response`. The response holds the call's result (items, or the exception
it raises) and the side effects it performs, in order:

- the sampling-snapshot write;
- the exposure increment;
- the resolver call;
- the tracker call.

Everything the source takes from outside is a field of `env`:

- the Beta draw `theta`;
- how the snapshot write ends;
- the opaque correlation ids;
- the config as the opaque increment leaves it;
- the clock.

Modules:

- `Outcomes`: `Option` and `Result`. A Python call that raises is modelled as an `Err`.
- `Values`: Python values, truthiness (`if not user_id`), and `int()` as applied to stored counts.
- `Experiments`: experiment identity, variations, configs, items, resolver arguments and the error kinds.
- `Sampling`: count reading with absent keys read as 0, Beta shape parameters, the shape check `np.random.beta` makes, `np.argmax`, and `_select_variation_index`.
- `Annotation`: the `experiment` stamp, reading it back, and the annotation loop.
- `Bandit`: `get_items`, its effect trace, the exposure event, and the lemmas that relate several calls.

## Behaviour worth noting

Two points where the code is less forgiving than an exposure-serving path might be expected to be. The model follows the code.

- Counts are not clamped to be non-negative (lines 105-106 apply only `int()`). A negative count makes a Beta shape parameter non-positive, and `np.random.beta` then raises. The model returns `BetaParamNotPositive` in that case, before any side effect (`Sampling.CheckShapes`, `Sampling.ShapesValidIffNonNegative`).
- `tracker.log_exposure` (line 93) is outside any handler, so its exception reaches the caller and the already annotated items are not returned. The exposure increment has already happened by then (`Bandit.TrackerErrorReachesCaller`). Only the snapshot write is isolated (`Bandit.SnapshotOutcomeIsolated`).

The tie-break on equal draws is first-index-wins, as in `np.argmax` (`Sampling.ArgMax`, `Sampling.FirstMaxIsArgMax`).

## Model

| member | source | states |
|---|---|---|
| `Values.ToInt` | src/recommendations/src/recommendations-service/experimentation/experiment_mab.py:105-106 | `int()` of a stored count succeeds exactly for ints, bools, numbers and integer literals. An int is returned as is and a bool as 1 or 0. A float or Decimal is truncated toward zero. A literal gives its signed digit value, so leading zeros and a `+` sign are accepted. Text that is not a literal raises a `ValueError` carrying that text. `None`, a list or a dict raises a `TypeError`. |
| `Values.Trunc` | src/recommendations/src/recommendations-service/experimentation/experiment_mab.py:105-106 | `int()` of a float truncates toward zero: the result is at most the value and greater than value − 1 for non-negative values, and symmetrically for negative values. |
| `Values.ParseShowInt` | src/recommendations/src/recommendations-service/experimentation/experiment_mab.py:105-106 | A count stored as its decimal text reads back as that count (round trip through `str` and `int`). |
| `Values.ToIntOfCount` | src/recommendations/src/recommendations-service/experimentation/experiment_mab.py:105-106 | A count stored as an int, a whole number or decimal text converts to exactly that count. |
| `Sampling.ReadCounts` | src/recommendations/src/recommendations-service/experimentation/experiment_mab.py:99-106 | One exposures entry and one conversions entry per variation, index-aligned, each equal to that config's value (absent key reads as 0). Reading succeeds iff every config is readable. On failure the error names the first unreadable variation, and `exposures` is named if that read failed, else `conversions`. The error carries the exception that `int()` raised on that key. |
| `Sampling.ReadCountsFrom` | src/recommendations/src/recommendations-service/experimentation/experiment_mab.py:103-106 | The reading loop from variation i on. It yields one count of each kind per remaining variation, aligned with their positions, or the error of the first unreadable one at or after i. That error names the key whose read failed and carries the exception `int()` raised on it. |
| `Sampling.ShapesOfConfigs` | src/recommendations/src/recommendations-service/experimentation/experiment_mab.py:103-109 | When every count is readable, variation i's Beta shape parameters are (conversions[i] + 1, exposures[i] + 1), one per variation, as read from its config. A config with neither count gets the uniform prior Beta(1, 1). |
| `Sampling.CheckShapes` | src/recommendations/src/recommendations-service/experimentation/experiment_mab.py:109 | The draw raises iff some shape parameter is not positive. It reports `a` when some first parameter is bad, else `b`. |
| `Sampling.ShapesValidIffNonNegative` | src/recommendations/src/recommendations-service/experimentation/experiment_mab.py:105-109 | The Beta draw is possible exactly when no exposure or conversion count is negative. |
| `Sampling.ArgMax` | src/recommendations/src/recommendations-service/experimentation/experiment_mab.py:117 | The chosen index is in range, its draw is at least every other draw, and every earlier draw is strictly smaller (first maximum wins). |
| `Sampling.FirstMaxIsArgMax` | src/recommendations/src/recommendations-service/experimentation/experiment_mab.py:117 | An index is the first maximum iff it is the one `ArgMax` returns, so the tie-break is fully determined. |
| `Sampling.Choose` | src/recommendations/src/recommendations-service/experimentation/experiment_mab.py:108-117 | Given the counts, the draw succeeds iff no count is negative. The error names `a` iff some conversion count is negative, else `b`. On success the chosen index is the first maximum of the draw, and the snapshot carries the counts and the draw. |
| `Sampling.SelectVariationIndex` | src/recommendations/src/recommendations-service/experimentation/experiment_mab.py:97-117 | Selection succeeds iff all counts are readable and non-negative. Then it returns the first maximum of the draw, and the snapshot carries the experiment id, the counts read and the draw. A count error is passed on unchanged; any other failure is the Beta-parameter error. |
| `Annotation.StampRoundTrip` | src/recommendations/src/recommendations-service/experimentation/experiment_mab.py:60-68 | The stamp dict written into an item reads back as the same identity, variation index, rank and correlation id. |
| `Annotation.AnnotateFrom` | src/recommendations/src/recommendations-service/experimentation/experiment_mab.py:56-72 | The rank-counting loop keeps length and order. The item at position k becomes the original item with only `experiment` set, stamped with rank `rank + k`. |
| `Annotation.Annotate` | src/recommendations/src/recommendations-service/experimentation/experiment_mab.py:56-72 | The response has the resolver's length and order, and item k carries rank k + 1, so ranks are contiguous from 1. Every stamp has the experiment identity and the chosen variation. Keys are the item's keys plus `experiment`, and every other key keeps its value. |
| `Annotation.AnnotationIsUnique` | src/recommendations/src/recommendations-service/experimentation/experiment_mab.py:56-72 | A sequence meets the annotation property iff it is the loop's output. |
| `Bandit.ExposureEventFor` | src/recommendations/src/recommendations-service/experimentation/experiment_mab.py:74-91 | The event has type "Experiment Exposure", the caller's user id, the experiment identity and the selected index. Its timestamp is the caller's when given, else the clock's. It carries the chosen variation's config as the increment left it. |
| `Bandit.Serve` | src/recommendations/src/recommendations-service/experimentation/experiment_mab.py:35-93 | After selecting index k, the whole effect trace is the snapshot write, one increment of k, and the call of k's resolver with the request's arguments. An exposure event for k follows exactly when there is a tracker and the resolver returned items; nothing else happens. Success means the resolver's output annotated. A resolver exception passes through unchanged with no further effect. With a tracker and a successful resolver there is exactly one exposure event, for k. Without a tracker there is none. When the resolver returns items and there is no tracker, or the tracker accepts the event, the result is exactly those items annotated. A tracker exception reaches the caller. |
| `Bandit.GetItems` | src/recommendations/src/recommendations-service/experimentation/experiment_mab.py:26-95 | A falsy user id raises `UserIdRequired` (iff), and otherwise fewer than two variations raise `TooFewVariations` (iff). Either way, and on a count or shape error, nothing happens first. Once a variation is selected, the whole effect trace is: snapshot write, one increment of the argmax variation, then that variation's resolver called with the request's arguments, followed by one exposure event exactly when there is a tracker and the resolver returned items. On success the items are that resolver's output annotated. A resolver exception reaches the caller unchanged, after the increment. At most one exposure event is emitted, none without a tracker. With a tracker and a successful resolver, exactly one event is emitted, for the selected index. Conversely, a valid request whose counts are readable and non-negative does select, increment and resolve. If the resolver then returns items and there is no tracker, or the tracker accepts the event, the call returns exactly those items annotated. A tracker exception reaches the caller. |
| `Bandit.SnapshotOutcomeIsolated` | src/recommendations/src/recommendations-service/experimentation/experiment_mab.py:111-134 | Whether the snapshot write succeeds or fails at any handler, the caller sees the same result. The effects differ only in the recorded write outcome. |
| `Bandit.TrackerOnlyAddsEvent` | src/recommendations/src/recommendations-service/experimentation/experiment_mab.py:74-93 | With a tracker that accepts the event, the result equals the call's without a tracker. The effects are the same plus one exposure event after them when the call succeeds. |
| `Bandit.TrackerErrorReachesCaller` | src/recommendations/src/recommendations-service/experimentation/experiment_mab.py:93 | An exception from `log_exposure` reaches the caller unchanged, after one increment and one emitted event. |
| `Bandit.DefaultRequest` | src/recommendations/src/recommendations-service/experimentation/experiment_mab.py:26-28 | A call with only a user id asks for 10 results, has no tracker and no timestamp. It forwards `None` for the current item, item list, filter values, context and promotion. |
| `Bandit.TwoVariationScenario` | src/recommendations/src/recommendations-service/experimentation/experiment_mab.py:26-95 | Setup: variations with (10 exposures, 9 conversions) and (10, 1), a resolver returning three items, and user "u1". The call succeeds with three items ranked 1, 2, 3, all stamped with the variation the draw favours. That variation is incremented once and no event is emitted. |

## Left out

- The Beta draw `np.random.beta` is random and works in floating point. The model takes `theta` as an input, one real per variation, and proves nothing about selection frequencies. Reals have no NaN, so `np.argmax`'s handling of NaN is not modelled.
- Counts are stored into `float64` arrays. Counts are unbounded integers here, so neither precision loss for large counts nor the `OverflowError` raised for a count too large for `float64` is modelled.
- The DynamoDB resource and table setup in `__init__`, the `put_item` call, and all `log.*` calls are I/O. The snapshot write is an outcome taken from the environment, and its ISO-8601 `utcnow()` timestamp is left out.
- The exposure-event timestamp is taken in milliseconds. The `datetime.now()` call and the `timestamp() * 1000` rounding are wall-clock and floating point.
- `_increment_exposure_count` is defined in the `BuiltInExperiment` base class, which this model does not cover. The model records the call and its index, and takes the config it leaves behind from the environment. It makes no claim about the new count and does not model the call raising.
- `_create_correlation_id` is defined in the `BuiltInExperiment` base class, which this model does not cover. It is an opaque function of (user id, variation index, rank), so nothing is claimed about correlation-id uniqueness.
- `_getClassName` and the `BuiltInExperiment` base class are not part of this model. The experiment is a plain record of identity fields and variations.
- The resolver and the tracker are external collaborators. Each is a function that returns a value or raises with a reason.
- Concurrent exposure increments are not modelled: the source has no synchronisation.
- Items are values. If a resolver returns the same dict object twice, the source's in-place `item.update` leaves both entries with the later stamp. The model does not represent that aliasing.
- Values.ToInt: `int()` on text is modelled for an optional sign followed by ASCII digits only. Surrounding whitespace, underscores between digits and non-ASCII digits, which Python also accepts, read as errors here. `int()` raising on an infinite or NaN float or `Decimal` is not modelled: numbers are reals.
