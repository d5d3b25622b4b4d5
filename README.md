# Layer configuration and bookkeeping of the juice network framework

This project models the configuration and bookkeeping part of the layer
core of `juice`, a small neural-network framework written in Rust. A
layer is built from a `LayerConfig`, which holds the layer's name, its
type, the names of its top (output) and bottom (input) blobs, its
`ParamConfig`s and a per-bottom propagate-down mask. The runtime `Layer`
holds the worker selected by the layer type. It also keeps three vectors:

- a loss weight for each top,
- the parameter blobs,
- a flag for each parameter saying whether that parameter's gradient is
  computed.

There are three modules:

- `Wrappers` (`wrappers.dfy`): Rust's `Option` and `Result`, and `Vec::get`
  as `Get`.
- `LayerConfigs` (`layer_config.dfy`): `Blob` (a shape, plus an element
  count kept as a separate value), `DimCheckMode`, `LayerType`,
  `ParamConfig` with its multiplier getters and its dimension check for
  parameter sharing, and `LayerConfig` with its bounds-checked accessors
  and its propagate-down mask check.
- `Layers` (`layer.dfy`): the worker's default capability queries, the
  `Layer` class, and the functions that specify its flag vector:
  - `Resize` stands for `Vec::resize`.
  - `SetFlag` is one configuration call.
  - `ApplyWrites` is a series of configuration calls.

`Layer` is a class because its methods update it in place. Its
`SetParamPropagateDown` method grows the flag vector and then assigns one
slot. The method's postcondition ties the new vector to `SetFlag` of the
old one and says that `loss` and `blobs` do not change. The lemmas about
`SetFlag` and `ApplyWrites` state what a caller can rely on across
several calls: idempotence, last write wins, and writes to different ids
commute. They also show that a flag reads `false` only if some call set
it to `false`. Everything else in the core is expression-only, so it is
modelled with datatypes and functions.

The f32 values (learning-rate and decay multipliers, loss weights) are
modelled as `real`. They are only stored and returned, so no rounding is
involved. `usize` indices are modelled as `nat`.

The loss vector follows the code, not its field comment. The comment on
`loss` (src/layer.rs:22-23) describes it as holding one entry per top blob,
saying whether that top has a non-zero weight in the objective. In
`src/layer.rs`, however, the vector is empty after `from_config`, and no
code in the file ever fills it. In this model, therefore, `Layer.Loss`
returns `None` for every id on a freshly built layer, and no operation
makes it return anything else.

## Model

| member | source | states |
|---|---|---|
| `Wrappers.Get` | src/layer.rs:67-69 | `Vec::get`: `None` exactly when the index is at least the length, otherwise `Some` of the element at that index |
| `LayerConfigs.ParamConfig.LrMult` | src/layer.rs:327-332 | the configured learning-rate multiplier when one is set, 1.0 when it is unset |
| `LayerConfigs.ParamConfig.DecayMult` | src/layer.rs:335-340 | the configured decay multiplier when one is set, 1.0 when it is unset |
| `LayerConfigs.ParamConfig.CheckDimensions` | src/layer.rs:286-324 | `Ok` iff (Strict and the two shapes are equal as sequences) or (Permissive and the two element counts are equal); an error reports the parameter name, the owner and sharing layer names, and the owner's shape and then the sharer's shape, and it is a shape mismatch exactly in Strict mode |
| `LayerConfigs.DefaultParamConfig` | src/layer.rs:272-281 | `ParamConfig::default()`: an empty (unshared) name, Strict mode, and neither multiplier set |
| `LayerConfigs.DefaultParamConfigReadsAsOne` | src/layer.rs:272-281 | the default parameter has an empty name and Strict mode, and both of its multiplier getters return 1.0 |
| `LayerConfigs.CheckDimensionsReflexive` | src/layer.rs:293-323 | a blob can always share with itself, in either mode |
| `LayerConfigs.CheckDimensionsSymmetric` | src/layer.rs:293-323 | swapping the owner's and the sharer's blob (and their layer names) does not change whether the check passes, and only swaps the two shapes and the two names in the error |
| `LayerConfigs.PermissiveAcceptsReshape` | src/layer.rs:293-323 | Permissive accepts a 2x3 blob against a flat blob with the same six elements; Strict rejects the same pair with a shape mismatch |
| `LayerConfigs.LayerConfig.TopsLen` | src/layer.rs:214-216 | the number of declared top blobs |
| `LayerConfigs.LayerConfig.BottomsLen` | src/layer.rs:224-226 | the number of declared bottom blobs |
| `LayerConfigs.LayerConfig.ParamsLen` | src/layer.rs:234-236 | the number of parameter configurations |
| `LayerConfigs.LayerConfig.Top` | src/layer.rs:209-211 | `None` iff the index is at least `TopsLen()`, otherwise the name of that top |
| `LayerConfigs.LayerConfig.Bottom` | src/layer.rs:219-221 | `None` iff the index is at least `BottomsLen()`, otherwise the name of that bottom |
| `LayerConfigs.LayerConfig.Param` | src/layer.rs:229-231 | `None` iff the index is at least `ParamsLen()`, otherwise that parameter's configuration |
| `LayerConfigs.NewLayerConfig` | src/layer.rs:195-206 | `LayerConfig::new` keeps the given name and type and starts the tops, bottoms, params and propagate-down mask empty |
| `LayerConfigs.NewLayerConfigIsEmpty` | src/layer.rs:195-206 | a new configuration keeps its name and type, has an empty mask, answers `None` for every top, bottom and parameter index, and passes the mask check |
| `LayerConfigs.LayerConfig.CheckPropagateDownLen` | src/layer.rs:239-241 | true iff the propagate-down mask is empty or has exactly `BottomsLen()` entries |
| `LayerConfigs.PropagateDownAlignedWithBottoms` | src/layer.rs:239-241 | the mask check passes iff the mask is empty or its indices are exactly the indices for which `Bottom` returns a name (one entry per bottom) |
| `LayerConfigs.PropagateDownExamples` | src/layer.rs:239-241 | with three bottoms, a two-entry mask fails the check, and a three-entry mask or an empty mask passes it |
| `Layers.WorkerFor` | src/layer.rs:50-54 | the Sigmoid layer type selects the Sigmoid worker |
| `Layers.Worker.AutoTopBlobs` | src/layer.rs:118-120 | by default, no anonymous top blobs are created |
| `Layers.Worker.MinTopBlobs` | src/layer.rs:126-128 | by default, no minimum number of tops is required (0) |
| `Layers.Worker.ExactNumTopBlobs` | src/layer.rs:134-136 | by default, no exact number of tops is required (0) |
| `Layers.Worker.ExactNumBottomBlobs` | src/layer.rs:142-144 | by default, no exact number of bottoms is required (0) |
| `Layers.Worker.AllowForceBackward` | src/layer.rs:150-152 | by default, force-backward is allowed for every bottom index |
| `Layers.Resize` | src/layer.rs:60 | `Vec::resize`: the result has length `n`, keeps the old elements below `n`, and fills every new slot with the fill value |
| `Layers.SetFlag` | src/layer.rs:58-64 | after one configuration call, the length is `max(old length, id + 1)`, the slot at `id` holds the value, every other old slot is unchanged, and every other new slot is `true` |
| `Layers.SetFlagIdempotent` | src/layer.rs:58-64 | making the same call twice gives the same vector as making it once |
| `Layers.SetFlagLastWriteWins` | src/layer.rs:58-64 | of two calls on the same id, only the second one's value remains |
| `Layers.SetFlagCommutes` | src/layer.rs:58-64 | calls on two different ids give the same vector in either order |
| `Layers.ApplyWritesAt` | src/layer.rs:58-64 | after any series of calls, each slot holds the value of the last call that named it; a slot that no call named keeps its old value, or is `true` if it is new |
| `Layers.ApplyWritesSnoc` | src/layer.rs:58-64 | a series of calls followed by one more call is that call applied to the series' result |
| `Layers.ApplyWritesLength` | src/layer.rs:59-61 | calls never shrink the flag vector |
| `Layers.LastWriteBeyondEnd` | src/layer.rs:59-62 | no call in a series names a slot past the end of the resulting vector |
| `Layers.FreshFlagsFalseOnlyIfSet` | src/layer.rs:39-64 | starting from a fresh layer's empty vector, a flag that reads `false` was set to `false` by some call |
| `Layers.LastWriteFalseIsWritten` | src/layer.rs:58-64 | if the last write to a slot (default `true`) is `false`, then some call stored `false` at that slot |
| `Layers.Layer.FromConfig` | src/layer.rs:36-48 | `from_config` keeps the configuration, selects the worker for the layer type, and leaves `loss`, `blobs` and the flag vector empty, so `Loss` is `None` for every id |
| `Layers.Layer.SetParamPropagateDown` | src/layer.rs:58-64 | the new flag vector is `SetFlag` of the old one (length, target slot, old slots unchanged, new slots `true`), and `loss` and `blobs` do not change |
| `Layers.Layer.Loss` | src/layer.rs:67-69 | `None` iff `id` is at least the length of the loss vector, otherwise `Some` of the weight at `id` |
| `Layers.SetTwiceIsSetOnce` | src/layer.rs:58-64 | two identical calls of the method on a layer leave the state one call leaves: the flag vector is `SetFlag` of the old one, and `loss` and `blobs` are unchanged (the method may modify only the flag vector) |

## Left out

- `ILayer::forward` (src/layer.rs:83-111) is not modelled. It takes read and write locks on shared blobs, unwraps poisoned locks, and sums f32 dot products through an external math routine. This is concurrency and floating-point behaviour. The code sums `dot(data, diff)` over every top; it has no rule that skips zero-weight tops.
- `forward_cpu` and `backward_cpu` (src/layer.rs:76, 80) are declarations without a body. The `Sigmoid` worker that implements them lives in the `layers` module, which is not part of this model.
- The Sigmoid worker may override the capability queries. That module is not part of this model, so `Worker`'s queries give the trait's default answers.
- `worker_from_config` (src/layer.rs:50-54) is modelled by `Layers.WorkerFor` as a choice of worker value. Allocating the boxed worker object is not modelled.
- Blobs: their storage, their `capacity` and their shape string come from external crates. `Blob` keeps only the shape and an independent element count, and `Layer.blobs` holds such values. Shared ownership, aliasing and locking (`ArcLock`) are not modelled.
- `CheckDimensions` records the parameter name, the two layer names and the two shapes of an error, but not the formatted message text.
- The `fmt::Debug` impl for `ILayer` (src/layer.rs:155-159) is not modelled. It is a placeholder printer.
- The `Layers.Layer.SetParamPropagateDown` contract ignores `usize` limits: `param_id + 1` overflows at `usize::MAX`, and allocation can fail. Indices are unbounded `nat`s in the model.
- f32 semantics (NaN, rounding) are not modelled: the multipliers and loss weights are `real`, and they are only passed through.
- The public `propagate_down` field and the public `blobs` field may be assigned directly by a caller. The model only covers the operations that `src/layer.rs` defines.
