/**
 * The custom-gradient wrapper `_fn_with_custom_grad` (tefla/core/special_fn.py):
 * how the argument list of the black-box `identity` op is assembled and cut
 * apart again, what the op passes forward, and how the gradient tuple is built.
 *
 * Tensors are an abstract type `T`, gradients an abstract type `G`, and the
 * user's `grad_fn` an arbitrary function over lists of them.
 */
module CustomGradient {
  import opened Wrappers

  /** What the wrapped `fn` returns: a lone tensor, or a list or tuple of them. */
  datatype FnOutputs<T> = Single(tensor: T) | Sequence(tensors: seq<T>)

  /** The user's gradient rule: from the inputs, variables, outputs and output gradients to the gradients of the inputs and of the variables; any of these may be None. */
  type GradFn<!T, !G> = (seq<T>, seq<T>, seq<T>, seq<G>) -> (seq<Option<G>>, seq<Option<G>>)

  /** The two assertions of `custom_grad_fn` (lines 75-76). */
  datatype GradError = OutputCountMismatch | GradientCountMismatch

  // ---------------------------------------------------------------------------
  // Python list primitives

  /** Python's `s[lo:hi]` with non-negative bounds: both are clamped to len(s), and lo >= hi gives []. */
  function Slice<T>(s: seq<T>, lo: nat, hi: nat): (r: seq<T>)
    ensures lo <= hi <= |s| ==> r == s[lo..hi]
    ensures hi <= lo || |s| <= lo ==> r == []
    ensures lo <= hi && |s| <= hi ==> r == s[if lo < |s| then lo else |s|..]
  {
    var l := if lo < |s| then lo else |s|;
    var h := if hi < |s| then hi else |s|;
    if l <= h then s[l..h] else []
  }

  /** Python's `[x] * n`. */
  function Repeat<X>(x: X, n: nat): (r: seq<X>)
    ensures |r| == n
    ensures forall i :: 0 <= i < n ==> r[i] == x
  {
    if n == 0 then [] else Repeat(x, n - 1) + [x]
  }

  /** Lines 61-63: a lone tensor becomes a one-element list, a tuple becomes a list. */
  function AsList<T>(o: FnOutputs<T>): (r: seq<T>)
    ensures o.Single? ==> r == [o.tensor]
    ensures o.Sequence? ==> r == o.tensors
  {
    match o
    case Single(t) => [t]
    case Sequence(ts) => ts
  }

  // ---------------------------------------------------------------------------
  // The pieces of `_fn_with_custom_grad`

  /**
   * Lines 72-74: `op.inputs` cut at len(inputs) and len(inputs) + len(train_vars).
   * The three parts always put back together to the whole list.
   */
  function Split<T>(args: seq<T>, nInputs: nat, nVars: nat): (parts: (seq<T>, seq<T>, seq<T>))
    ensures parts.0 + parts.1 + parts.2 == args
    ensures |args| >= nInputs + nVars ==> |parts.0| == nInputs && |parts.1| == nVars
    ensures |parts.2| == if |args| >= nInputs + nVars then |args| - nInputs - nVars else 0
  {
    var inputs := Slice(args, 0, nInputs);
    var vars := Slice(args, nInputs, nInputs + nVars);
    var outputs := Slice(args, nInputs + nVars, |args|);
    var i := if nInputs < |args| then nInputs else |args|;
    var j := if nInputs + nVars < |args| then nInputs + nVars else |args|;
    assert inputs == args[..i] && vars == args[i..j] && outputs == args[j..];
    assert args[..i] + args[i..j] + args[j..] == args;
    (inputs, vars, outputs)
  }

  /** Lines 92-94: the `identity` Defun passes on only the arguments after the inputs and variables. */
  function Identity<T>(args: seq<T>, nInputs: nat, nVars: nat): (outs: seq<T>)
    ensures |args| >= nInputs + nVars ==> args == args[..nInputs + nVars] + outs
    ensures |args| < nInputs + nVars ==> outs == []
  {
    Slice(args, nInputs + nVars, |args|)
  }

  /**
   * `custom_grad_fn(op, *dys)` for a node built with nInputs inputs, nVars
   * variables and nOutputs outputs: cut `op.inputs`, check both counts, call
   * `grad_fn` and append one None per output (lines 69-81).
   */
  function CustomGradFn<T, G>(nInputs: nat, nVars: nat, nOutputs: nat, gradFn: GradFn<T, G>,
                              opInputs: seq<T>, dys: seq<G>): (r: Result<seq<Option<G>>, GradError>)
    ensures r.Ok? <==>
      && (|opInputs| == nInputs + nVars + nOutputs || (nOutputs == 0 && |opInputs| <= nInputs + nVars))
      && |dys| == nOutputs
    ensures r.Err? ==> (r.error == OutputCountMismatch <==> |Split(opInputs, nInputs, nVars).2| != nOutputs)
    ensures r.Ok? ==>
      var (fnInputs, fnVars, fnOutputs) := Split(opInputs, nInputs, nVars);
      var (gradInputs, gradVars) := gradFn(fnInputs, fnVars, fnOutputs, dys);
      && |r.value| == |gradInputs| + |gradVars| + nOutputs
      && r.value[..|gradInputs|] == gradInputs
      && r.value[|gradInputs|..|gradInputs| + |gradVars|] == gradVars
      && forall i :: |gradInputs| + |gradVars| <= i < |r.value| ==> r.value[i] == None
  {
    var (fnInputs, fnVars, fnOutputs) := Split(opInputs, nInputs, nVars);
    if |fnOutputs| != nOutputs then Err(OutputCountMismatch)
    else if |fnOutputs| != |dys| then Err(GradientCountMismatch)
    else
      var (gradInputs, gradVars) := gradFn(fnInputs, fnVars, fnOutputs, dys);
      var gradOutputs := Repeat(None, |fnOutputs|);
      Ok(gradInputs + gradVars + gradOutputs)
  }

  /** The `identity` node of lines 87-96: its argument list, the counts it was built with and the `grad_fn` it carries. */
  datatype IdentityNode<!T, !G> = IdentityNode(nInputs: nat, nVars: nat, nOutputs: nat, args: seq<T>, gradFn: GradFn<T, G>)

  /** With no `grad_fn`, fn's result itself; otherwise the node and the tensors it yields. */
  datatype Wrapped<!T, !G> = Plain(result: FnOutputs<T>) | Overridden(node: IdentityNode<T, G>, outputs: seq<T>)

  /** The variables the wrapper captures: global ones or trainable ones (lines 53-56). */
  function CapturedVars<T>(globalVars: seq<T>, trainableVars: seq<T>, useGlobalVars: bool): (r: seq<T>)
    ensures useGlobalVars ==> r == globalVars
    ensures !useGlobalVars ==> r == trainableVars
  {
    if useGlobalVars then globalVars else trainableVars
  }

  /**
   * `_fn_with_custom_grad(fn, inputs, grad_fn, use_global_vars)` once `fn(*inputs)`
   * has returned `fnOutputs` and the scope holds `globalVars` and `trainableVars`.
   * The forward result is what fn computed, in both cases.
   */
  function FnWithCustomGrad<T, G>(inputs: seq<T>, fnOutputs: FnOutputs<T>, globalVars: seq<T>, trainableVars: seq<T>,
                                  useGlobalVars: bool, gradFn: Option<GradFn<T, G>>): (w: Wrapped<T, G>)
    ensures gradFn.None? ==> w.Plain? && w.result == fnOutputs
    ensures gradFn.Some? ==> w.Overridden? && w.outputs == AsList(fnOutputs)
    ensures w.Overridden? ==>
      && w.node.gradFn == gradFn.value
      && w.node.nOutputs == |w.outputs|
      && Split(w.node.args, w.node.nInputs, w.node.nVars) ==
           (inputs, CapturedVars(globalVars, trainableVars, useGlobalVars), w.outputs)
  {
    var trainVars := CapturedVars(globalVars, trainableVars, useGlobalVars);
    if gradFn.None? then Plain(fnOutputs)
    else
      var outputs := AsList(fnOutputs);
      var node := IdentityNode(|inputs|, |trainVars|, |outputs|, inputs + trainVars + outputs, gradFn.value);
      IdentityReturnsOutputs(inputs, trainVars, outputs);
      SplitConcat(inputs, trainVars, outputs);
      Overridden(node, Identity(node.args, node.nInputs, node.nVars))
  }

  /** The gradient the framework gets for a node: its `custom_grad_fn` applied to the node's own arguments. */
  function Backward<T, G>(node: IdentityNode<T, G>, dys: seq<G>): (r: Result<seq<Option<G>>, GradError>)
    ensures |node.args| == node.nInputs + node.nVars + node.nOutputs ==>
      && (r.Ok? <==> |dys| == node.nOutputs)
      && (r.Err? ==> r.error == GradientCountMismatch)
  {
    CustomGradFn(node.nInputs, node.nVars, node.nOutputs, node.gradFn, node.args, dys)
  }

  // ---------------------------------------------------------------------------
  // Properties

  /** Cutting `inputs + vars + outputs` at len(inputs) and len(inputs) + len(vars) gives back the three lists. */
  lemma SplitConcat<T>(inputs: seq<T>, vars: seq<T>, outputs: seq<T>)
    ensures Split(inputs + vars + outputs, |inputs|, |vars|) == (inputs, vars, outputs)
  {
  }

  /** `identity` applied to `inputs + vars + outputs` yields exactly `outputs`. */
  lemma IdentityReturnsOutputs<T>(inputs: seq<T>, vars: seq<T>, outputs: seq<T>)
    ensures Identity(inputs + vars + outputs, |inputs|, |vars|) == outputs
  {
  }

  /**
   * On the argument list the wrapper itself builds, both assertions hold exactly
   * when one output gradient arrives per output, and the result is grad_fn's
   * gradients for the original inputs and variables followed by one None per output.
   */
  lemma GradientOfOwnArguments<T, G>(inputs: seq<T>, vars: seq<T>, outputs: seq<T>, gradFn: GradFn<T, G>, dys: seq<G>)
    ensures var r := CustomGradFn(|inputs|, |vars|, |outputs|, gradFn, inputs + vars + outputs, dys);
            && (r.Ok? <==> |dys| == |outputs|)
            && (r.Err? ==> r.error == GradientCountMismatch)
            && (r.Ok? ==>
                  var (gradInputs, gradVars) := gradFn(inputs, vars, outputs, dys);
                  r.value == gradInputs + gradVars + Repeat(None, |outputs|))
  {
  }

  /**
   * The wrapped function's gradient is whatever `grad_fn` says for the original
   * inputs and captured variables, whatever fn computed internally; it fails only
   * when the number of output gradients differs from the number of outputs.
   */
  lemma BackwardReplacesGradient<T, G>(inputs: seq<T>, fnOutputs: FnOutputs<T>, globalVars: seq<T>,
                                       trainableVars: seq<T>, useGlobalVars: bool, gradFn: GradFn<T, G>, dys: seq<G>)
    ensures var w := FnWithCustomGrad(inputs, fnOutputs, globalVars, trainableVars, useGlobalVars, Some(gradFn));
            var vars := CapturedVars(globalVars, trainableVars, useGlobalVars);
            var outputs := AsList(fnOutputs);
            var r := Backward(w.node, dys);
            && (r.Ok? <==> |dys| == |outputs|)
            && (r.Ok? ==>
                  var (gradInputs, gradVars) := gradFn(inputs, vars, outputs, dys);
                  && |r.value| == |gradInputs| + |gradVars| + |outputs|
                  && r.value[..|gradInputs| + |gradVars|] == gradInputs + gradVars
                  && r.value[|gradInputs| + |gradVars|..] == Repeat(None, |outputs|))
  {
  }

  /** A lone tensor returned by fn comes out of the identity node as a one-element list holding it. */
  lemma SingleOutputIsWrapped<T, G>(inputs: seq<T>, t: T, globalVars: seq<T>, trainableVars: seq<T>,
                                    useGlobalVars: bool, gradFn: GradFn<T, G>)
    ensures var w := FnWithCustomGrad(inputs, Single(t), globalVars, trainableVars, useGlobalVars, Some(gradFn));
            w.outputs == [t] && w.node.nOutputs == 1
  {
  }
}
