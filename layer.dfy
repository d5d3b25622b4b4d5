/**
 * The runtime layer: the worker chosen from the layer type, the worker's
 * default capability answers, and the layer's own bookkeeping (loss
 * weights, parameter blobs and the per-parameter backpropagation flags).
 */
module Layers {
  import opened Wrappers
  import opened LayerConfigs

  /**
   * The computation behind a layer, one per layer type. Its capability
   * queries give the trait's default answers: no anonymous tops, no arity
   * requirement (0 stands for "none"), force-backward allowed on every bottom.
   */
  datatype Worker = SigmoidWorker
  {
    /** Anonymous top blobs are not created for the layer. */
    function AutoTopBlobs(): (auto: bool)
      ensures !auto
    {
      false
    }

    /** No minimum number of top blobs. */
    function MinTopBlobs(): (n: nat)
      ensures n == 0
    {
      0
    }

    /** No exact number of top blobs. */
    function ExactNumTopBlobs(): (n: nat)
      ensures n == 0
    {
      0
    }

    /** No exact number of bottom blobs. */
    function ExactNumBottomBlobs(): (n: nat)
      ensures n == 0
    {
      0
    }

    /** A global force-backward setting is honoured on every bottom. */
    function AllowForceBackward(bottomId: nat): (allowed: bool)
      ensures allowed
    {
      true
    }
  }

  /** The worker that a layer type selects. */
  function WorkerFor(layerType: LayerType): (w: Worker)
    ensures layerType == Sigmoid ==> w == SigmoidWorker
  {
    match layerType
    case Sigmoid => SigmoidWorker
  }

  /**
   * `Vec::resize(n, fill)`: cut the vector down to `n` elements, or pad it
   * with copies of `fill` up to `n`.
   */
  function Resize<T>(v: seq<T>, n: nat, fill: T): (r: seq<T>)
    ensures |r| == n
    ensures forall i :: 0 <= i < n && i < |v| ==> r[i] == v[i]
    ensures forall i :: |v| <= i < n ==> r[i] == fill
  {
    if n <= |v| then v[..n] else v + seq(n - |v|, _ => fill)
  }

  /**
   * The flag vector after writing `value` at `paramId`: first grown to
   * `paramId + 1` slots with `true` in every new one when it is too short,
   * then the slot at `paramId` overwritten.
   */
  function SetFlag(flags: seq<bool>, paramId: nat, value: bool): (r: seq<bool>)
    ensures |r| == if paramId < |flags| then |flags| else paramId + 1
    ensures r[paramId] == value
    ensures forall i :: 0 <= i < |flags| && i != paramId ==> r[i] == flags[i]
    ensures forall i :: |flags| <= i < |r| && i != paramId ==> r[i]
  {
    var grown := if |flags| <= paramId then Resize(flags, paramId + 1, true) else flags;
    grown[paramId := value]
  }

  /** Writing the same flag twice leaves what writing it once leaves. */
  lemma {:induction false} SetFlagIdempotent(flags: seq<bool>, paramId: nat, value: bool)
    ensures SetFlag(SetFlag(flags, paramId, value), paramId, value) == SetFlag(flags, paramId, value)
  {
    SetFlagLastWriteWins(flags, paramId, value, value);
  }

  /** Of two writes to the same flag, only the second one shows. */
  lemma {:induction false} SetFlagLastWriteWins(flags: seq<bool>, paramId: nat, first: bool, second: bool)
    ensures SetFlag(SetFlag(flags, paramId, first), paramId, second) == SetFlag(flags, paramId, second)
  {
    var a := SetFlag(SetFlag(flags, paramId, first), paramId, second);
    var b := SetFlag(flags, paramId, second);
    assert |a| == |b|;
    forall i | 0 <= i < |a| ensures a[i] == b[i] {
    }
  }

  /** Writes to two different flags may be made in either order. */
  lemma {:induction false} SetFlagCommutes(flags: seq<bool>, i: nat, a: bool, j: nat, b: bool)
    requires i != j
    ensures SetFlag(SetFlag(flags, i, a), j, b) == SetFlag(SetFlag(flags, j, b), i, a)
  {
    var x := SetFlag(SetFlag(flags, i, a), j, b);
    var y := SetFlag(SetFlag(flags, j, b), i, a);
    assert |x| == |y|;
    forall k | 0 <= k < |x| ensures x[k] == y[k] {
    }
  }

  /** One call of the configuration method: set flag `paramId` to `value`. */
  datatype FlagWrite = FlagWrite(paramId: nat, value: bool)

  /** The flag vector after a series of configuration calls, in order. */
  function ApplyWrites(flags: seq<bool>, writes: seq<FlagWrite>): seq<bool>
    decreases |writes|
  {
    if writes == [] then flags
    else ApplyWrites(SetFlag(flags, writes[0].paramId, writes[0].value), writes[1..])
  }

  /** The value the last write to slot `i` stored, or `otherwise` when no write names `i`. */
  function LastWrite(writes: seq<FlagWrite>, i: nat, otherwise: bool): bool
    decreases |writes|
  {
    if writes == [] then otherwise
    else if writes[|writes| - 1].paramId == i then writes[|writes| - 1].value
    else LastWrite(writes[..|writes| - 1], i, otherwise)
  }

  /**
   * After any series of calls, slot `i` holds what the last call naming
   * `i` wrote; a slot no call named keeps its old value, or is `true` when
   * it did not exist before. So a flag never reads `false` unless a call
   * set it so.
   */
  lemma {:induction false} ApplyWritesAt(flags: seq<bool>, writes: seq<FlagWrite>, i: nat)
    requires i < |ApplyWrites(flags, writes)|
    ensures ApplyWrites(flags, writes)[i] == LastWrite(writes, i, if i < |flags| then flags[i] else true)
    decreases |writes|
  {
    if writes != [] {
      var last := writes[|writes| - 1];
      var init := writes[..|writes| - 1];
      ApplyWritesSnoc(flags, init, last);
      assert init + [last] == writes;
      var mid := ApplyWrites(flags, init);
      assert ApplyWrites(flags, writes) == SetFlag(mid, last.paramId, last.value);
      if last.paramId != i {
        if i < |mid| {
          ApplyWritesAt(flags, init, i);
        } else {
          ApplyWritesLength(flags, init);
          LastWriteBeyondEnd(flags, init, i, true);
        }
      }
    }
  }

  /** The series of calls ends with one more call. */
  lemma {:induction false} ApplyWritesSnoc(flags: seq<bool>, writes: seq<FlagWrite>, w: FlagWrite)
    ensures ApplyWrites(flags, writes + [w]) == SetFlag(ApplyWrites(flags, writes), w.paramId, w.value)
    decreases |writes|
  {
    if writes == [] {
      assert [] + [w] == [w];
    } else {
      assert (writes + [w])[1..] == writes[1..] + [w];
      ApplyWritesSnoc(SetFlag(flags, writes[0].paramId, writes[0].value), writes[1..], w);
    }
  }

  /** Calls only ever grow the vector: a slot that existed still exists. */
  lemma {:induction false} ApplyWritesLength(flags: seq<bool>, writes: seq<FlagWrite>)
    ensures |ApplyWrites(flags, writes)| >= |flags|
    decreases |writes|
  {
    if writes != [] {
      ApplyWritesLength(SetFlag(flags, writes[0].paramId, writes[0].value), writes[1..]);
    }
  }

  /** No call names a slot past the end of the resulting vector. */
  lemma {:induction false} LastWriteBeyondEnd(flags: seq<bool>, writes: seq<FlagWrite>, i: nat, otherwise: bool)
    requires i >= |ApplyWrites(flags, writes)|
    ensures LastWrite(writes, i, otherwise) == otherwise
    decreases |writes|
  {
    if writes != [] {
      var last := writes[|writes| - 1];
      var init := writes[..|writes| - 1];
      ApplyWritesSnoc(flags, init, last);
      assert init + [last] == writes;
      LastWriteBeyondEnd(flags, init, i, otherwise);
    }
  }

  /**
   * Starting from the empty vector of a fresh layer, a flag that reads
   * `false` was set to `false` by the last call that named it.
   */
  lemma FreshFlagsFalseOnlyIfSet(writes: seq<FlagWrite>, i: nat)
    requires i < |ApplyWrites([], writes)| && !ApplyWrites([], writes)[i]
    ensures exists k :: 0 <= k < |writes| && writes[k] == FlagWrite(i, false)
  {
    ApplyWritesAt([], writes, i);
    LastWriteFalseIsWritten(writes, i);
  }

  /** `LastWrite` can only answer `false` by default `true` if some write stored `false` at `i`. */
  lemma {:induction false} LastWriteFalseIsWritten(writes: seq<FlagWrite>, i: nat)
    requires !LastWrite(writes, i, true)
    ensures exists k :: 0 <= k < |writes| && writes[k] == FlagWrite(i, false)
    decreases |writes|
  {
    var n := |writes| - 1;
    if writes[n].paramId == i {
      assert writes[n] == FlagWrite(i, false);
    } else {
      LastWriteFalseIsWritten(writes[..n], i);
      var k :| 0 <= k < n && writes[..n][k] == FlagWrite(i, false);
      assert writes[k] == FlagWrite(i, false);
    }
  }

  /**
   * A runtime layer: its configuration and worker, fixed at construction,
   * and the state its own configuration methods update.
   */
  class Layer {
    const config: LayerConfig
    const worker: Worker

    /** Per top blob, its weight in the objective function. */
    var loss: seq<real>

    /** The parameter blobs. Their shared, locked storage is not modelled. */
    var blobs: seq<Blob>

    /** Per parameter blob, whether its gradient is computed. */
    var paramPropagateDown: seq<bool>

    /** `Layer::from_config`: the worker matching the type, every vector empty. */
    constructor FromConfig(config: LayerConfig)
      ensures this.config == config
      ensures worker == WorkerFor(config.layerType)
      ensures loss == [] && blobs == [] && paramPropagateDown == []
      ensures forall id: nat :: Loss(id) == None
    {
      this.config := config;
      worker := WorkerFor(config.layerType);
      loss := [];
      blobs := [];
      paramPropagateDown := [];
    }

    /**
     * Turn gradient computation for parameter `paramId` on or off, growing
     * the flag vector (new slots on) when `paramId` is past its end.
     */
    method SetParamPropagateDown(paramId: nat, value: bool)
      modifies this`paramPropagateDown
      ensures paramPropagateDown == SetFlag(old(paramPropagateDown), paramId, value)
      ensures |paramPropagateDown| == if paramId < |old(paramPropagateDown)| then |old(paramPropagateDown)| else paramId + 1
      ensures paramPropagateDown[paramId] == value
      ensures forall i :: 0 <= i < |old(paramPropagateDown)| && i != paramId ==>
        paramPropagateDown[i] == old(paramPropagateDown)[i]
      ensures forall i :: |old(paramPropagateDown)| <= i < |paramPropagateDown| && i != paramId ==>
        paramPropagateDown[i]
      ensures loss == old(loss) && blobs == old(blobs)
    {
      if |paramPropagateDown| <= paramId {
        paramPropagateDown := Resize(paramPropagateDown, paramId + 1, true);
      }
      paramPropagateDown := paramPropagateDown[paramId := value];
    }

    /** The loss weight of top `id`, or `None` when there is none. */
    function Loss(id: nat): (r: Option<real>)
      reads this
      ensures r.None? <==> id >= |loss|
      ensures r.Some? ==> r.value == loss[id]
    {
      Get(loss, id)
    }
  }

  /** Configuring the same parameter twice in a row changes nothing the second time. */
  method SetTwiceIsSetOnce(layer: Layer, paramId: nat, value: bool)
    modifies layer`paramPropagateDown
    ensures layer.paramPropagateDown == SetFlag(old(layer.paramPropagateDown), paramId, value)
    ensures layer.loss == old(layer.loss) && layer.blobs == old(layer.blobs)
  {
    layer.SetParamPropagateDown(paramId, value);
    layer.SetParamPropagateDown(paramId, value);
    SetFlagIdempotent(old(layer.paramPropagateDown), paramId, value);
  }
}
