/**
 * plmfit/models/downstream_heads.py: the layer structure of the task-specific heads.
 * Layers are kept as kinds with their dimensions; what a layer computes stays an
 * uninterpreted function `apply`, so `forward` is modelled as the order in which layers
 * are applied, and weight initialisation as which rule each layer receives.
 */
module Heads {
  import opened Results
  import opened PyText

  /** A layer of a head: `nn.Linear(in, out)`, `nn.Dropout(p)`, an activation function
      named in the config, or `nn.LayerNorm(dim)`. */
  datatype Layer = Linear(inDim: nat, outDim: nat) | Dropout(p: real) | Activation(name: string) | LayerNorm(dim: nat)

  /** The initialisation rule a layer receives: none (PyTorch's default stays), a normal
      distribution near zero with zero bias, or Xavier uniform with zero bias. */
  datatype Init = Untouched | NearZero | Xavier

  /** The width of a vector after passing through `layers`, from width `w`, or None when a
      Linear or LayerNorm layer expects another width. */
  function ChainWidth(layers: seq<Layer>, w: nat): Option<nat>
    decreases |layers|
  {
    if layers == [] then Some(w)
    else
      match layers[0]
      case Linear(a, b) => if a == w then ChainWidth(layers[1..], b) else None
      case LayerNorm(d) => if d == w then ChainWidth(layers[1..], w) else None
      case Dropout(_) => ChainWidth(layers[1..], w)
      case Activation(_) => ChainWidth(layers[1..], w)
  }

  /** `for layer in layers: x = layer(x)`: the layers applied in list order. */
  function Forward<X>(layers: seq<Layer>, apply: (Layer, X) -> X, x: X): X
    decreases |layers|
  {
    if layers == [] then x else Forward(layers[1..], apply, apply(layers[0], x))
  }

  /** Running two lists one after the other is running their concatenation: the fold
      never reorders layers. */
  lemma {:induction false} ForwardAppend<X>(a: seq<Layer>, b: seq<Layer>, apply: (Layer, X) -> X, x: X)
    ensures Forward(a + b, apply, x) == Forward(b, apply, Forward(a, apply, x))
    decreases |a|
  {
    if a == [] {
      assert a + b == b;
    } else {
      assert (a + b)[0] == a[0] && (a + b)[1..] == a[1..] + b;
      ForwardAppend(a[1..], b, apply, apply(a[0], x));
    }
  }

  /** Widths compose: a list followed by another passes a width on from the first part to
      the second. */
  lemma {:induction false} ChainWidthAppend(a: seq<Layer>, b: seq<Layer>, w: nat)
    ensures ChainWidth(a + b, w) == (if ChainWidth(a, w).Some? then ChainWidth(b, ChainWidth(a, w).value) else None)
    decreases |a|
  {
    if a == [] {
      assert a + b == b;
    } else {
      assert (a + b)[0] == a[0] && (a + b)[1..] == a[1..] + b;
      match a[0]
      case Linear(i, o) =>
        if i == w {
          ChainWidthAppend(a[1..], b, o);
        }
      case LayerNorm(d) =>
        if d == w {
          ChainWidthAppend(a[1..], b, w);
        }
      case Dropout(_) =>
        ChainWidthAppend(a[1..], b, w);
      case Activation(_) =>
        ChainWidthAppend(a[1..], b, w);
    }
  }

  /** One layer on its own. */
  lemma ChainWidthOne(l: Layer, w: nat)
    ensures ChainWidth([l], w) ==
      match l
      case Linear(a, b) => if a == w then Some(b) else None
      case LayerNorm(d) => if d == w then Some(w) else None
      case _ => Some(w)
  {
    assert [l][0] == l && [l][1..] == [];
  }

  /** Activations and dropout keep the width. */
  lemma {:induction false} ChainWidthNeutral(layers: seq<Layer>, w: nat)
    requires forall i :: 0 <= i < |layers| ==> layers[i].Activation? || layers[i].Dropout?
    ensures ChainWidth(layers, w) == Some(w)
    decreases |layers|
  {
    if layers != [] {
      ChainWidthNeutral(layers[1..], w);
    }
  }

  /** The output is the last layer applied to what the layers before it produce. */
  lemma ForwardLast<X>(layers: seq<Layer>, apply: (Layer, X) -> X, x: X)
    requires layers != []
    ensures Forward(layers, apply, x) == apply(layers[|layers| - 1], Forward(layers[..|layers| - 1], apply, x))
  {
    var n := |layers| - 1;
    assert layers == layers[..n] + [layers[n]];
    ForwardAppend(layers[..n], [layers[n]], apply, x);
  }

  // ---------------------------------------------------------------------------
  // MLP
  // ---------------------------------------------------------------------------

  /** The entries of the MLP config: `task`, the three widths, `hidden_dropout`, and the
      two optional activation names. */
  datatype MLPConfig = MLPConfig(task: string, inputDim: nat, hiddenDim: nat, outputDim: nat, hiddenDropout: real,
                                 hiddenActivation: Option<string>, outputActivation: Option<string>)

  /** `'classification' in task`: a substring test. */
  predicate IsClassification(task: string) {
    Contains(task, "classification")
  }

  /** The layer list `MLP.__init__` builds: Linear, Dropout, the optional hidden
      activation, Linear, and, for a classification task, the output activation twice;
      reading a missing `output_activation` raises a KeyError. */
  function MLPLayers(c: MLPConfig): Result<seq<Layer>> {
    var hidden := [Linear(c.inputDim, c.hiddenDim), Dropout(c.hiddenDropout)]
      + (if c.hiddenActivation.Some? then [Activation(c.hiddenActivation.value)] else [])
      + [Linear(c.hiddenDim, c.outputDim)];
    if !IsClassification(c.task) then Ok(hidden)
    else if c.outputActivation.None? then Err(KeyError("output_activation"))
    else Ok(hidden + [Activation(c.outputActivation.value), Activation(c.outputActivation.value)])
  }

  /** `init_weights`: near-zero for a Linear at index `len - 2`, Xavier for every other
      Linear, nothing for other layers. */
  function InitPlan(layers: seq<Layer>): (plan: seq<Init>)
    ensures |plan| == |layers|
  {
    seq(|layers|, i requires 0 <= i < |layers| => if !layers[i].Linear? then Untouched else if i == |layers| - 2 then NearZero else Xavier)
  }

  /** The list is built exactly when a classification task names its output activation;
      it then has `3 + [hidden activation] + 2·[classification]` layers. */
  lemma MLPLayersShape(c: MLPConfig)
    ensures MLPLayers(c).Err? <==> IsClassification(c.task) && c.outputActivation.None?
    ensures MLPLayers(c).Err? ==> MLPLayers(c).error == KeyError("output_activation")
    ensures MLPLayers(c).Ok? ==>
      |MLPLayers(c).value| == 3 + (if c.hiddenActivation.Some? then 1 else 0) + (if IsClassification(c.task) then 2 else 0)
  {
  }

  /** The two Linear layers meet at `hidden_dim`: a vector of width `input_dim` leaves the
      MLP with width `output_dim`. */
  lemma MLPWidths(c: MLPConfig)
    requires MLPLayers(c).Ok?
    ensures ChainWidth(MLPLayers(c).value, c.inputDim) == Some(c.outputDim)
  {
    var layers := MLPLayers(c).value;
    var first := [Linear(c.inputDim, c.hiddenDim)];
    var middle := [Dropout(c.hiddenDropout)] + (if c.hiddenActivation.Some? then [Activation(c.hiddenActivation.value)] else []);
    var output := [Linear(c.hiddenDim, c.outputDim)];
    var tail := layers[|first + middle + output|..];
    assert layers == first + middle + output + tail;
    ChainWidthOne(first[0], c.inputDim);
    ChainWidthNeutral(middle, c.hiddenDim);
    ChainWidthOne(output[0], c.hiddenDim);
    ChainWidthNeutral(tail, c.outputDim);
    ChainWidthAppend(first, middle, c.inputDim);
    ChainWidthAppend(first + middle, output, c.inputDim);
    ChainWidthAppend(first + middle + output, tail, c.inputDim);
  }

  /** Index `len - 2` is Dropout or an activation in every list `MLP.__init__` builds, so
      no Linear layer, the output layer included, is initialised near zero: every Linear
      gets Xavier. */
  lemma NoNearZeroInit(c: MLPConfig)
    requires MLPLayers(c).Ok?
    ensures var layers := MLPLayers(c).value;
      !layers[|layers| - 2].Linear?
      && forall i :: 0 <= i < |layers| ==> InitPlan(layers)[i] == (if layers[i].Linear? then Xavier else Untouched)
  {
  }

  /** An `nn.Module` holding the task and the `nn.ModuleList` of layers, with the rule
      `init_weights` applied to each layer. */
  class MLP {
    var task: string
    var layers: seq<Layer>
    var inits: seq<Init>

    constructor (task: string)
      ensures this.task == task && layers == [] && inits == []
    {
      this.task := task;
      layers := [];
      inits := [];
    }

    /** `self.layers.append(layer)` */
    method Append(layer: Layer)
      modifies this
      ensures layers == old(layers) + [layer] && task == old(task) && inits == old(inits)
    {
      layers := layers + [layer];
    }

    /** `init_weights`: the loop over `enumerate(self.layers)`. */
    method InitWeights()
      modifies this
      ensures inits == InitPlan(layers) && layers == old(layers) && task == old(task)
    {
      var plan: seq<Init> := [];
      var i := 0;
      while i < |layers|
        invariant 0 <= i <= |layers|
        invariant plan == InitPlan(layers)[..i]
      {
        var init := Untouched;
        if layers[i].Linear? {
          init := if i == |layers| - 2 then NearZero else Xavier;
        }
        plan := plan + [init];
        i := i + 1;
      }
      inits := plan;
    }

    /** `forward(x)` */
    function Run<X>(apply: (Layer, X) -> X, x: X): X
      reads this
    {
      Forward(layers, apply, x)
    }
  }

  /** `MLP(config)`: the layers appended one by one, then `init_weights`. */
  method NewMLP(c: MLPConfig) returns (r: Result<MLP>)
    ensures r.Err? <==> MLPLayers(c).Err?
    ensures r.Err? ==> r.error == MLPLayers(c).error
    ensures r.Ok? ==> fresh(r.value)
    ensures r.Ok? ==> r.value.task == c.task && r.value.layers == MLPLayers(c).value && r.value.inits == InitPlan(r.value.layers)
  {
    var m := new MLP(c.task);
    m.Append(Linear(c.inputDim, c.hiddenDim));
    m.Append(Dropout(c.hiddenDropout));
    if c.hiddenActivation.Some? {
      m.Append(Activation(c.hiddenActivation.value));
    }
    m.Append(Linear(c.hiddenDim, c.outputDim));
    if IsClassification(m.task) {
      if c.outputActivation.None? {
        return Err(KeyError("output_activation"));
      }
      m.Append(Activation(c.outputActivation.value));
    }
    if IsClassification(m.task) {
      m.Append(Activation(c.outputActivation.value));
    }
    m.InitWeights();
    return Ok(m);
  }

  /** On a classification task the MLP's output is the output activation applied twice
      to the output Linear layer's result. */
  lemma {:induction false} MLPClassificationOutput<X>(c: MLPConfig, apply: (Layer, X) -> X, x: X)
    requires IsClassification(c.task) && c.outputActivation.Some?
    ensures MLPLayers(c).Ok?
    ensures
      var layers := MLPLayers(c).value;
      var act := Activation(c.outputActivation.value);
      Forward(layers, apply, x) == apply(act, apply(act, Forward(layers[..|layers| - 2], apply, x)))
  {
    var layers := MLPLayers(c).value;
    var n := |layers|;
    var act := Activation(c.outputActivation.value);
    assert layers == layers[..n - 2] + [act, act];
    ForwardAppend(layers[..n - 2], [act, act], apply, x);
    var y := Forward(layers[..n - 2], apply, x);
    assert [act, act][0] == act && [act, act][1..] == [act];
    assert [act][0] == act && [act][1..] == [];
    assert Forward([act, act], apply, y) == Forward([act], apply, apply(act, y));
  }

  // ---------------------------------------------------------------------------
  // LinearHead
  // ---------------------------------------------------------------------------

  /** The entries of the LinearHead config. */
  datatype LinearConfig = LinearConfig(task: string, inputDim: nat, outputDim: nat, outputActivation: Option<string>)

  /** A `LinearHead`: its Linear layer, the init rule it receives, the task and the
      activation, which `__init__` assigns only for the task 'classification'. */
  datatype LinearHead = LinearHead(linear: Layer, init: Init, task: string, activation: Option<string>)

  /** `LinearHead(config)` */
  function NewLinearHead(c: LinearConfig): (h: LinearHead)
    ensures h.linear == Linear(c.inputDim, c.outputDim)
    ensures h.init == (if c.task == "classification" then NearZero else Untouched)
    ensures h.activation.Some? <==> c.task == "classification" && c.outputActivation.Some?
    ensures h.activation.Some? ==> h.activation == c.outputActivation
  {
    if c.task == "classification" then LinearHead(Linear(c.inputDim, c.outputDim), NearZero, c.task, c.outputActivation)
    else LinearHead(Linear(c.inputDim, c.outputDim), Untouched, c.task, None)
  }

  /** `LinearHead.forward(x)` */
  function LinearForward<X>(h: LinearHead, apply: (Layer, X) -> X, x: X): X {
    var y := apply(h.linear, x);
    if h.task == "classification" && h.activation.Some? then apply(Activation(h.activation.value), y) else y
  }

  /** The activation is applied exactly when the task is 'classification' and an output
      activation was configured; otherwise the raw Linear output comes back. Unlike the
      MLP's substring test, a task such as 'binary_classification' gets no activation. */
  lemma LinearHeadActivation<X>(c: LinearConfig, apply: (Layer, X) -> X, x: X)
    ensures c.task == "classification" && c.outputActivation.Some? ==>
      LinearForward(NewLinearHead(c), apply, x) == apply(Activation(c.outputActivation.value), apply(Linear(c.inputDim, c.outputDim), x))
    ensures !(c.task == "classification" && c.outputActivation.Some?) ==>
      LinearForward(NewLinearHead(c), apply, x) == apply(Linear(c.inputDim, c.outputDim), x)
    ensures ChainWidth([NewLinearHead(c).linear], c.inputDim) == Some(c.outputDim)
  {
  }

  /** The two heads read the task differently: 'binary_classification' makes the MLP
      append its output activation, but not the LinearHead apply one. */
  lemma TaskTestsDiffer(a: string)
    ensures IsClassification("binary_classification")
    ensures NewLinearHead(LinearConfig("binary_classification", 1, 1, Some(a))).activation == None
  {
    var t := "binary_classification";
    assert t[7..][..14] == "classification";
    ContainsIff(t, "classification");
    assert OccursAt(t, "classification", 7);
  }

  // ---------------------------------------------------------------------------
  // AdapterLayer
  // ---------------------------------------------------------------------------

  /** The layers `AdapterLayer.forward` runs, in order: LayerNorm, the down projection,
      relu, the up projection, dropout. */
  function AdapterLayers(inFeatures: nat, bottleneck: nat, dropout: real): (layers: seq<Layer>)
    ensures |layers| == 5 && layers[0] == LayerNorm(inFeatures)
  {
    [LayerNorm(inFeatures), Linear(inFeatures, bottleneck), Activation("relu"), Linear(bottleneck, inFeatures), Dropout(dropout)]
  }

  /** The adapter maps width `in_features` back to `in_features` through the bottleneck. */
  lemma AdapterKeepsWidth(inFeatures: nat, bottleneck: nat, dropout: real)
    ensures ChainWidth(AdapterLayers(inFeatures, bottleneck, dropout), inFeatures) == Some(inFeatures)
    ensures ChainWidth(AdapterLayers(inFeatures, bottleneck, dropout)[..2], inFeatures) == Some(bottleneck)
  {
    var layers := AdapterLayers(inFeatures, bottleneck, dropout);
    var down := [LayerNorm(inFeatures), Linear(inFeatures, bottleneck)];
    var up := [Activation("relu"), Linear(bottleneck, inFeatures), Dropout(dropout)];
    assert layers == down + up && layers[..2] == down;
    assert down == [down[0]] + [down[1]];
    ChainWidthOne(down[0], inFeatures);
    ChainWidthOne(down[1], inFeatures);
    ChainWidthAppend([down[0]], [down[1]], inFeatures);
    assert up == [up[0]] + [up[1]] + [up[2]];
    ChainWidthOne(up[0], bottleneck);
    ChainWidthOne(up[1], bottleneck);
    ChainWidthOne(up[2], inFeatures);
    ChainWidthAppend([up[0]], [up[1]], bottleneck);
    ChainWidthAppend([up[0]] + [up[1]], [up[2]], bottleneck);
    ChainWidthAppend(down, up, inFeatures);
  }

  /** There is no residual add: the output depends on the input only through the
      LayerNorm, so two inputs that normalise alike give the same output. */
  lemma AdapterHasNoResidual<X>(inFeatures: nat, bottleneck: nat, dropout: real, apply: (Layer, X) -> X, x: X, x': X)
    requires apply(LayerNorm(inFeatures), x) == apply(LayerNorm(inFeatures), x')
    ensures Forward(AdapterLayers(inFeatures, bottleneck, dropout), apply, x) == Forward(AdapterLayers(inFeatures, bottleneck, dropout), apply, x')
  {
  }
}
