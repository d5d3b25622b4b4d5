/**
 * The configuration side of a layer: the description of one layer
 * (`LayerConfig`) and of one of its learnable parameters (`ParamConfig`),
 * with the dimension check run when two layers share a parameter.
 */
module LayerConfigs {
  import opened Wrappers

  /**
   * What the parameter-sharing check sees of a blob: its shape and its
   * element count. The count comes from the blob type itself and is kept
   * as a value of its own; nothing here assumes it is the product of the
   * shape.
   */
  datatype Blob = Blob(shape: seq<nat>, capacity: nat)

  /** How strictly two shared parameter blobs must agree. */
  datatype DimCheckMode =
    | Strict      // the shapes must be equal, dimension by dimension
    | Permissive  // only the element counts must be equal

  /** The closed set of layer types; each selects one worker. */
  datatype LayerType = Sigmoid

  /** Which comparison rejected a shared parameter. */
  datatype Mismatch = CountMismatch | ShapeMismatch

  /**
   * Why a parameter cannot be shared: the parameter's name, the owning
   * layer, the sharing layer, the owner's shape and the sharer's shape.
   * The wording of the message is not modelled, only what it reports.
   */
  datatype ShareError = ShareError(
    kind: Mismatch,
    paramName: string,
    ownerName: string,
    layerName: string,
    ownerShape: seq<nat>,
    sharerShape: seq<nat>)

  /**
   * Training settings of one learnable parameter. An empty name means the
   * parameter is not shared. The multipliers are f32 values in the Rust
   * code; they are only stored and handed back, so `real` stands for them.
   */
  datatype ParamConfig = ParamConfig(
    name: string,
    shareMode: DimCheckMode,
    lrMult: Option<real>,
    decayMult: Option<real>)
  {
    /** The learning-rate multiplier; 1.0 when none is configured. */
    function LrMult(): (m: real)
      ensures lrMult.Some? ==> m == lrMult.value
      ensures lrMult.None? ==> m == 1.0
    {
      match lrMult
      case Some(v) => v
      case None => 1.0
    }

    /** The weight-decay multiplier; 1.0 when none is configured. */
    function DecayMult(): (m: real)
      ensures decayMult.Some? ==> m == decayMult.value
      ensures decayMult.None? ==> m == 1.0
    {
      match decayMult
      case Some(v) => v
      case None => 1.0
    }

    /**
     * Whether `blobOne` (the sharing layer's parameter) may share storage
     * with `blobTwo` (the owning layer's parameter) under this share mode.
     * A rejection reports both layer names and both shapes, the owner's
     * first.
     */
    function CheckDimensions(blobOne: Blob, blobTwo: Blob, paramName: string,
                             ownerName: string, layerName: string): (r: Result<(), ShareError>)
      ensures r.Ok? <==>
        (shareMode == Strict && blobOne.shape == blobTwo.shape) ||
        (shareMode == Permissive && blobOne.capacity == blobTwo.capacity)
      ensures r.Err? ==>
        r.error.paramName == paramName && r.error.ownerName == ownerName &&
        r.error.layerName == layerName &&
        r.error.ownerShape == blobTwo.shape && r.error.sharerShape == blobOne.shape &&
        (r.error.kind == ShapeMismatch <==> shareMode == Strict)
    {
      match shareMode
      case Permissive =>
        if blobOne.capacity != blobTwo.capacity then
          Err(ShareError(CountMismatch, paramName, ownerName, layerName, blobTwo.shape, blobOne.shape))
        else
          Ok(())
      case Strict =>
        if blobOne.shape != blobTwo.shape then
          Err(ShareError(ShapeMismatch, paramName, ownerName, layerName, blobTwo.shape, blobOne.shape))
        else
          Ok(())
    }
  }

  /** `ParamConfig::default()`: unshared, strict, no multipliers set. */
  function DefaultParamConfig(): (p: ParamConfig)
    ensures p.name == "" && p.shareMode == Strict
    ensures p.lrMult == None && p.decayMult == None
  {
    ParamConfig("", Strict, None, None)
  }

  /** The default parameter is unshared and strict, and both multipliers read as 1.0. */
  lemma DefaultParamConfigReadsAsOne()
    ensures DefaultParamConfig().name == "" && DefaultParamConfig().shareMode == Strict
    ensures DefaultParamConfig().LrMult() == 1.0 && DefaultParamConfig().DecayMult() == 1.0
  {
  }

  /**
   * A blob may always share with itself, whatever the mode: the check is
   * reflexive.
   */
  lemma CheckDimensionsReflexive(p: ParamConfig, blob: Blob, paramName: string,
                                 ownerName: string, layerName: string)
    ensures p.CheckDimensions(blob, blob, paramName, ownerName, layerName) == Ok(())
  {
  }

  /**
   * Whether the check passes does not depend on which blob is the owner's;
   * swapping them only swaps the two shapes and the two layer names the
   * error reports.
   */
  lemma CheckDimensionsSymmetric(p: ParamConfig, blobOne: Blob, blobTwo: Blob,
                                 paramName: string, ownerName: string, layerName: string)
    ensures p.CheckDimensions(blobOne, blobTwo, paramName, ownerName, layerName).Ok? ==
            p.CheckDimensions(blobTwo, blobOne, paramName, layerName, ownerName).Ok?
    ensures p.CheckDimensions(blobOne, blobTwo, paramName, ownerName, layerName).Err? ==>
            var e := p.CheckDimensions(blobOne, blobTwo, paramName, ownerName, layerName).error;
            p.CheckDimensions(blobTwo, blobOne, paramName, layerName, ownerName) ==
              Err(ShareError(e.kind, paramName, layerName, ownerName, e.sharerShape, e.ownerShape))
  {
  }

  /**
   * Permissive sharing ignores the shape: a 2x3 blob and a flat blob of
   * six elements are accepted, while strict sharing rejects the same pair
   * and reports a shape mismatch.
   */
  lemma PermissiveAcceptsReshape(paramName: string, ownerName: string, layerName: string)
    ensures
      var owner := Blob([6], 6);
      var sharer := Blob([2, 3], 6);
      ParamConfig(paramName, Permissive, None, None).CheckDimensions(sharer, owner, paramName, ownerName, layerName).Ok? &&
      ParamConfig(paramName, Strict, None, None).CheckDimensions(sharer, owner, paramName, ownerName, layerName) ==
        Err(ShareError(ShapeMismatch, paramName, ownerName, layerName, [6], [2, 3]))
  {
  }

  /**
   * Description of one layer: its name, its type, the names of its top
   * (output) and bottom (input) blobs, its parameters (index-aligned with
   * the layer's parameter blobs) and the per-bottom backpropagation mask.
   */
  datatype LayerConfig = LayerConfig(
    name: string,
    layerType: LayerType,
    tops: seq<string>,
    bottoms: seq<string>,
    params: seq<ParamConfig>,
    propagateDown: seq<bool>)
  {
    /** The number of top blobs. */
    function TopsLen(): (n: nat)
      ensures n == |tops|
    {
      |tops|
    }

    /** The number of bottom blobs. */
    function BottomsLen(): (n: nat)
      ensures n == |bottoms|
    {
      |bottoms|
    }

    /** The number of parameters. */
    function ParamsLen(): (n: nat)
      ensures n == |params|
    {
      |params|
    }

    /** The name of top blob `topId`, or `None` past the last top. */
    function Top(topId: nat): (r: Option<string>)
      ensures r.None? <==> topId >= TopsLen()
      ensures r.Some? ==> r.value == tops[topId]
    {
      Get(tops, topId)
    }

    /** The name of bottom blob `bottomId`, or `None` past the last bottom. */
    function Bottom(bottomId: nat): (r: Option<string>)
      ensures r.None? <==> bottomId >= BottomsLen()
      ensures r.Some? ==> r.value == bottoms[bottomId]
    {
      Get(bottoms, bottomId)
    }

    /** The configuration of parameter `paramId`, or `None` past the last one. */
    function Param(paramId: nat): (r: Option<ParamConfig>)
      ensures r.None? <==> paramId >= ParamsLen()
      ensures r.Some? ==> r.value == params[paramId]
    {
      Get(params, paramId)
    }

    /**
     * The mask is usable: either empty (propagate to every bottom) or
     * carrying exactly one entry per bottom.
     */
    predicate CheckPropagateDownLen(): (ok: bool)
      ensures ok <==> (propagateDown == [] || |propagateDown| == BottomsLen())
    {
      |propagateDown| == 0 || |propagateDown| == |bottoms|
    }
  }

  /** `LayerConfig::new`: a named layer of the given type with every list empty. */
  function NewLayerConfig(name: string, layerType: LayerType): (c: LayerConfig)
    ensures c.name == name && c.layerType == layerType
    ensures c.tops == [] && c.bottoms == [] && c.params == [] && c.propagateDown == []
  {
    LayerConfig(name, layerType, [], [], [], [])
  }

  /**
   * A fresh configuration keeps its name and type, answers `None` for
   * every top, bottom and parameter index, and its (empty) mask is valid.
   */
  lemma NewLayerConfigIsEmpty(name: string, layerType: LayerType, id: nat)
    ensures NewLayerConfig(name, layerType).name == name
    ensures NewLayerConfig(name, layerType).layerType == layerType
    ensures NewLayerConfig(name, layerType).Top(id) == None
    ensures NewLayerConfig(name, layerType).Bottom(id) == None
    ensures NewLayerConfig(name, layerType).Param(id) == None
    ensures NewLayerConfig(name, layerType).propagateDown == []
    ensures NewLayerConfig(name, layerType).CheckPropagateDownLen()
  {
  }

  /**
   * The mask check, read through the bottom accessor: the mask passes
   * exactly when it is empty or when its indices are exactly the indices
   * for which `Bottom` answers a name.
   */
  lemma {:induction false} PropagateDownAlignedWithBottoms(cfg: LayerConfig)
    ensures cfg.CheckPropagateDownLen() <==>
      (cfg.propagateDown == [] ||
       forall i: nat :: cfg.Bottom(i).Some? <==> i < |cfg.propagateDown|)
  {
    var n := |cfg.propagateDown|;
    var m := |cfg.bottoms|;
    if n != 0 && n != m {
      // the first index at which the mask and the bottoms disagree
      var k := if n < m then n else m;
      assert cfg.Bottom(k).Some? != (k < n);
    }
  }

  /** Three bottoms: a two-entry mask is refused, a three-entry or empty mask is accepted. */
  lemma PropagateDownExamples()
    ensures !LayerConfig("l", Sigmoid, [], ["a", "b", "c"], [], [true, false]).CheckPropagateDownLen()
    ensures LayerConfig("l", Sigmoid, [], ["a", "b", "c"], [], [true, false, true]).CheckPropagateDownLen()
    ensures LayerConfig("l", Sigmoid, [], ["a", "b", "c"], [], []).CheckPropagateDownLen()
  {
  }
}
