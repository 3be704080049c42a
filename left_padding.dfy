/**
 * Causal ("LEFT") padding for 2-D convolutions: `format_input_left_padding` and
 * the dispatch in `conv2d_v2` (tefla/core/special_fn.py).
 *
 * A tensor is modelled by its shape only: the static shape known while the graph
 * is built, and the sizes it has when the graph runs. Keyword arguments are a map
 * from names to a small universe of Python values.
 */
module LeftPadding {
  import opened Wrappers

  /** One axis of a static shape: a known size, or None when unknown. */
  type Dim = Option<nat>

  /** `staticShape` is None when even the rank is unknown; `dims` are the runtime sizes. */
  datatype Shape = Shape(staticShape: Option<seq<Dim>>, dims: seq<nat>)

  /** A static shape describes the runtime shape: same rank, and every known size is the real one. */
  predicate Consistent(s: Shape) {
    s.staticShape.Some? ==>
      |s.staticShape.value| == |s.dims| &&
      forall i :: 0 <= i < |s.dims| && s.staticShape.value[i].Some? ==> s.staticShape.value[i].value == s.dims[i]
  }

  /** Every tensor the framework hands out has a static shape that agrees with its runtime shape. */
  type Tensor = s: Shape | Consistent(s) witness Shape(None, [])

  /** The Python values a keyword argument can hold; lists and tuples are both `ListValue`. */
  datatype Value =
    | NoneValue
    | IntValue(i: int)
    | StrValue(s: string)
    | ListValue(items: seq<Value>)
    | OtherValue(tag: nat)

  type Kwargs = map<string, Value>

  /** The exceptions `format_input_left_padding` and the `tf.pad` it calls can raise. */
  datatype PadError =
    | RankNot4             // ValueError: static shape unknown or not of rank 4
    | FilterSizeMissing    // KeyError on kwargs['filter_size']
    | FilterSizeIsNone     // AssertionError: filter_size is None
    | FilterSizeMalformed  // TypeError or IndexError reading filter_size[0] or [1]
    | FilterSizeEven       // AssertionError: a filter dimension is even
    | DilationMalformed    // TypeError or IndexError reading dilation_rate[0] or [1]
    | NegativePadding      // tf.pad refuses negative padding amounts

  /** The static shape is known and has exactly four axes, which line 102 demands. */
  predicate StaticRank4(t: Tensor) {
    t.staticShape.Some? && |t.staticShape.value| == 4
  }

  /** Python's `x % 2 == 1`; for a positive divisor Dafny's `%` agrees with Python's. */
  predicate Odd(x: int) {
    x % 2 == 1
  }

  // ---------------------------------------------------------------------------
  // Python primitives and the framework calls the method makes

  /** Python's `v[k]` for k >= 0: defined on lists, tuples and strings when k is in range. */
  function Subscript(v: Value, k: nat): (r: Option<Value>)
    ensures r.Some? <==> (v.ListValue? && k < |v.items|) || (v.StrValue? && k < |v.s|)
    ensures v.ListValue? && k < |v.items| ==> r == Some(v.items[k])
  {
    match v
    case ListValue(items) => if k < |items| then Some(items[k]) else None
    case StrValue(s) => if k < |s| then Some(StrValue([s[k]])) else None
    case _ => None
  }

  /** `v[k]` when it exists and is an int, which is what `%` and `*` on it need here. */
  function IntAt(v: Value, k: nat): (r: Option<int>)
    ensures r.Some? <==> v.ListValue? && k < |v.items| && v.items[k].IntValue?
    ensures r.Some? ==> r.value == v.items[k].i
  {
    match Subscript(v, k)
    case Some(IntValue(i)) => Some(i)
    case _ => None
  }

  /** Every padding amount in the table is non-negative. */
  predicate NonNegative(paddings: seq<(int, int)>) {
    forall i :: 0 <= i < |paddings| ==> paddings[i].0 >= 0 && paddings[i].1 >= 0
  }

  /**
   * `tf.pad(t, paddings)`: axis i grows by paddings[i].0 before the data and
   * paddings[i].1 after it; negative amounts are refused. The model keeps the
   * rank but no static sizes of the result.
   */
  function Pad(t: Tensor, paddings: seq<(int, int)>): (r: Result<Tensor, PadError>)
    requires |paddings| == |t.dims|
    ensures r.Ok? <==> NonNegative(paddings)
    ensures r.Err? ==> r.error == NegativePadding
    ensures r.Ok? ==> |r.value.dims| == |t.dims|
    ensures r.Ok? ==> forall i :: 0 <= i < |t.dims| ==> r.value.dims[i] == t.dims[i] + paddings[i].0 + paddings[i].1
  {
    if !NonNegative(paddings) then Err(NegativePadding)
    else
      var dims := seq(|t.dims|, i requires 0 <= i < |t.dims| => (t.dims[i] + paddings[i].0 + paddings[i].1) as nat);
      Ok(Shape(Some(seq(|t.dims|, _ => None)), dims))
  }

  /**
   * `t.set_shape(shape)`: the given static sizes are merged into t's static shape;
   * None leaves an axis as it was. The source always passes sizes t really has.
   */
  function SetShape(t: Tensor, shape: seq<Dim>): (r: Tensor)
    requires |shape| == |t.dims|
    requires forall i :: 0 <= i < |shape| && shape[i].Some? ==> shape[i].value == t.dims[i]
    ensures r.dims == t.dims
    ensures r.staticShape.Some? && |r.staticShape.value| == |shape|
    ensures forall i :: 0 <= i < |shape| && shape[i].Some? ==> r.staticShape.value[i] == shape[i]
    ensures t.staticShape.Some? ==> forall i :: 0 <= i < |shape| && shape[i].None? ==> r.staticShape.value[i] == t.staticShape.value[i]
    ensures t.staticShape.None? ==> r.staticShape == Some(shape)
  {
    match t.staticShape
    case None => Shape(Some(shape), t.dims)
    case Some(known) =>
      Shape(Some(seq(|shape|, i requires 0 <= i < |shape| => if shape[i].Some? then shape[i] else known[i])), t.dims)
  }

  // ---------------------------------------------------------------------------
  // Reference definitions of what the padding computes

  /**
   * The filter size the padding uses: an int f stands for [f, f], a list or tuple
   * gives its first two items, and both must be odd. The errors are those the
   * source raises first, in the order it evaluates lines 106-112.
   */
  function FilterSpec(kwargs: Kwargs): (r: Result<(int, int), PadError>)
    ensures "filter_size" !in kwargs ==> r == Err(FilterSizeMissing)
    ensures "filter_size" in kwargs && kwargs["filter_size"] == NoneValue ==> r == Err(FilterSizeIsNone)
    ensures r.Ok? ==> Odd(r.value.0) && Odd(r.value.1)
    ensures forall f :: "filter_size" in kwargs && kwargs["filter_size"] == IntValue(f) ==>
      r == (if Odd(f) then Ok((f, f)) else Err(FilterSizeEven))
    ensures "filter_size" in kwargs && kwargs["filter_size"].ListValue? ==>
      var items := kwargs["filter_size"].items;
      && (r.Ok? <==> |items| >= 2 && items[0].IntValue? && items[1].IntValue? && Odd(items[0].i) && Odd(items[1].i))
      && (r.Ok? ==> r.value == (items[0].i, items[1].i))
      && (|items| == 0 || !items[0].IntValue? ==> r == Err(FilterSizeMalformed))
      && (|items| >= 1 && items[0].IntValue? && !Odd(items[0].i) ==> r == Err(FilterSizeEven))
      && (|items| >= 1 && items[0].IntValue? && Odd(items[0].i) && (|items| == 1 || !items[1].IntValue?) ==>
            r == Err(FilterSizeMalformed))
      && (|items| >= 2 && items[0].IntValue? && Odd(items[0].i) && items[1].IntValue? && !Odd(items[1].i) ==>
            r == Err(FilterSizeEven))
    ensures "filter_size" in kwargs && (kwargs["filter_size"].StrValue? || kwargs["filter_size"].OtherValue?) ==>
      r == Err(FilterSizeMalformed)
  {
    if "filter_size" !in kwargs then Err(FilterSizeMissing)
    else match kwargs["filter_size"]
      case NoneValue => Err(FilterSizeIsNone)
      case IntValue(f) => if Odd(f) then Ok((f, f)) else Err(FilterSizeEven)
      case ListValue(items) =>
        if |items| == 0 || !items[0].IntValue? then Err(FilterSizeMalformed)
        else if !Odd(items[0].i) then Err(FilterSizeEven)
        else if |items| == 1 || !items[1].IntValue? then Err(FilterSizeMalformed)
        else if !Odd(items[1].i) then Err(FilterSizeEven)
        else Ok((items[0].i, items[1].i))
      case _ => Err(FilterSizeMalformed)
  }

  /** The dilation the padding uses: (1, 1) unless the key "dilation_rate" gives a list or tuple of two ints. */
  function DilationSpec(kwargs: Kwargs): (r: Option<(int, int)>)
    ensures "dilation_rate" !in kwargs ==> r == Some((1, 1))
    ensures "dilation_rate" in kwargs && kwargs["dilation_rate"].IntValue? ==> r.None?
    ensures "dilation_rate" in kwargs ==>
      var v := kwargs["dilation_rate"];
      && (r.Some? <==> v.ListValue? && |v.items| >= 2 && v.items[0].IntValue? && v.items[1].IntValue?)
      && (r.Some? ==> r.value == (v.items[0].i, v.items[1].i))
  {
    if "dilation_rate" !in kwargs then Some((1, 1))
    else match kwargs["dilation_rate"]
      case ListValue(items) =>
        if |items| >= 2 && items[0].IntValue? && items[1].IntValue? then Some((items[0].i, items[1].i)) else None
      case _ => None
  }

  /** The padding a dilated filter of size f needs in front of the data: (f - 1) * d. */
  function LeadingPad(f: int, d: int): int {
    (f - 1) * d
  }

  /** What `format_input_left_padding` hands back: the returned tensor and kwargs, and the table given to `tf.pad`. */
  datatype LeftPadded = LeftPadded(paddings: seq<(int, int)>, output: Tensor, kwargs: Kwargs)

  /** The table pads height and width in front only, and leaves batch and channels alone. */
  predicate LeadingOnly(paddings: seq<(int, int)>) {
    |paddings| == 4 && paddings[0] == (0, 0) && paddings[3] == (0, 0) &&
    paddings[1].1 == 0 && paddings[2].1 == 0
  }

  /** The whole transformation, stated with (f - 1) * d and the runtime width. */
  function LeftPadSpec(inputs: Tensor, kwargs: Kwargs): (r: Result<LeftPadded, PadError>)
    ensures r == Err(RankNot4) <==> !StaticRank4(inputs)
    ensures r.Ok? <==>
      && StaticRank4(inputs)
      && FilterSpec(kwargs).Ok?
      && DilationSpec(kwargs).Some?
      && LeadingPad(FilterSpec(kwargs).value.0, DilationSpec(kwargs).value.0) >= 0
      && (inputs.dims[2] == 1 || LeadingPad(FilterSpec(kwargs).value.1, DilationSpec(kwargs).value.1) >= 0)
    ensures StaticRank4(inputs) && FilterSpec(kwargs).Err? ==> r == Err(FilterSpec(kwargs).error)
    ensures StaticRank4(inputs) && FilterSpec(kwargs).Ok? && DilationSpec(kwargs).None? ==> r == Err(DilationMalformed)
    ensures StaticRank4(inputs) && FilterSpec(kwargs).Ok? && DilationSpec(kwargs).Some? && r.Err? ==>
      r == Err(NegativePadding)
    ensures r.Ok? ==> LeadingOnly(r.value.paddings) && NonNegative(r.value.paddings)
    ensures r.Ok? ==> Pad(inputs, r.value.paddings).Ok? && Pad(inputs, r.value.paddings).value.dims == r.value.output.dims
    ensures r.Ok? ==>
      && |r.value.output.dims| == 4
      && r.value.output.dims[0] == inputs.dims[0]
      && r.value.output.dims[3] == inputs.dims[3]
    ensures r.Ok? ==> (inputs.dims[2] == 1 ==> r.value.paddings[2].0 == 0)
    ensures r.Ok? ==> r.value.output.staticShape == Some([inputs.staticShape.value[0], None, None, inputs.staticShape.value[3]])
    ensures r.Ok? ==> r.value.kwargs.Keys == kwargs.Keys + {"padding"} && r.value.kwargs["padding"] == StrValue("VALID")
    ensures r.Ok? ==> forall k :: k in kwargs && k != "padding" ==> r.value.kwargs[k] == kwargs[k]
  {
    if !StaticRank4(inputs) then Err(RankNot4)
    else match FilterSpec(kwargs)
      case Err(e) => Err(e)
      case Ok((f0, f1)) =>
        match DilationSpec(kwargs)
        case None => Err(DilationMalformed)
        case Some((d0, d1)) =>
          var h := LeadingPad(f0, d0);
          var w := if inputs.dims[2] == 1 then 0 else LeadingPad(f1, d1);
          if h < 0 || w < 0 then Err(NegativePadding)
          else
            var s := inputs.staticShape.value;
            var d := inputs.dims;
            Ok(LeftPadded([(0, 0), (h, 0), (w, 0), (0, 0)],
                          Shape(Some([s[0], None, None, s[3]]), [d[0], d[1] + h, d[2] + w, d[3]]),
                          kwargs["padding" := StrValue("VALID")]))
  }

  // ---------------------------------------------------------------------------
  // The operations

  /**
   * `format_input_left_padding(inputs, **kwargs)`, step by step as the source
   * runs it: the source's own formula 2 * (f // 2) * d, the rebinding of
   * `filter_size` and `dilation_rate`, the static-width test in front of the
   * runtime `tf.cond`, `tf.pad`, `set_shape` and the update of kwargs["padding"].
   */
  method FormatInputLeftPadding(inputs: Tensor, kwargs: Kwargs) returns (r: Result<LeftPadded, PadError>)
    ensures r == LeftPadSpec(inputs, kwargs)
  {
    var staticShape := inputs.staticShape;
    if staticShape.None? || |staticShape.value| != 4 {
      return Err(RankNot4);
    }
    var dilationRate := ListValue([IntValue(1), IntValue(1)]);
    if "filter_size" !in kwargs {
      return Err(FilterSizeMissing);
    }
    if kwargs["filter_size"] == NoneValue {
      return Err(FilterSizeIsNone);
    }
    var filterSize := kwargs["filter_size"];
    if filterSize.IntValue? {
      filterSize := ListValue([filterSize, filterSize]);
    }
    if "dilation_rate" in kwargs {
      dilationRate := kwargs["dilation_rate"];
    }
    // both filter dimensions must be odd (line 112); the second is read only when the first is
    var f0 := IntAt(filterSize, 0);
    if f0.None? {
      return Err(FilterSizeMalformed);
    }
    if f0.value % 2 != 1 {
      return Err(FilterSizeEven);
    }
    var f1 := IntAt(filterSize, 1);
    if f1.None? {
      return Err(FilterSizeMalformed);
    }
    if f1.value % 2 != 1 {
      return Err(FilterSizeEven);
    }
    var d0 := IntAt(dilationRate, 0);
    if d0.None? {
      return Err(DilationMalformed);
    }
    var heightPadding := 2 * (f0.value / 2) * d0.value;
    // both branches of tf.cond are built, so dilation_rate[1] is always read
    var d1 := IntAt(dilationRate, 1);
    if d1.None? {
      return Err(DilationMalformed);
    }
    var condPadding := if inputs.dims[2] == 1 then 0 else 2 * (f1.value / 2) * d1.value;
    var widthPadding := if staticShape.value[2] == Some(1) then 0 else condPadding;
    var padding := [(0, 0), (heightPadding, 0), (widthPadding, 0), (0, 0)];
    var padded := Pad(inputs, padding);
    if padded.Err? {
      SourceFormulaIsLeadingPad(f0.value, d0.value);
      SourceFormulaIsLeadingPad(f1.value, d1.value);
      return Err(padded.error);
    }
    var shaped := SetShape(padded.value, [staticShape.value[0], None, None, staticShape.value[3]]);
    var newKwargs := kwargs["padding" := StrValue("VALID")];
    SourceFormulaIsLeadingPad(f0.value, d0.value);
    SourceFormulaIsLeadingPad(f1.value, d1.value);
    assert shaped.staticShape.value == [staticShape.value[0], None, None, staticShape.value[3]];
    assert shaped.dims == [inputs.dims[0], inputs.dims[1] + heightPadding, inputs.dims[2] + widthPadding, inputs.dims[3]];
    r := Ok(LeftPadded(padding, shaped, newKwargs));
  }

  /** The padding keyword is present and is the string "LEFT" (line 188). */
  predicate IsLeftPadding(kwargs: Kwargs) {
    "padding" in kwargs && kwargs["padding"] == StrValue("LEFT")
  }

  /** The arguments `conv2d_v2` passes on to `dilated_conv2d`. */
  datatype ConvCall = ConvCall(inputs: Tensor, nOutputChannels: int, isTraining: bool, reuse: bool, kwargs: Kwargs)

  /**
   * `conv2d_v2`: LEFT padding is turned into an explicit pad followed by a VALID
   * convolution; any other padding mode reaches the convolution untouched.
   * `dilated_conv2d` is not part of this model, so the result is the call it receives.
   */
  method Conv2dV2(inputs: Tensor, nOutputChannels: int, isTraining: bool, reuse: bool, kwargs: Kwargs)
    returns (r: Result<ConvCall, PadError>)
    ensures !IsLeftPadding(kwargs) ==> r == Ok(ConvCall(inputs, nOutputChannels, isTraining, reuse, kwargs))
    ensures IsLeftPadding(kwargs) ==> (r.Ok? <==> LeftPadSpec(inputs, kwargs).Ok?)
    ensures IsLeftPadding(kwargs) && r.Err? ==> r.error == LeftPadSpec(inputs, kwargs).error
    ensures IsLeftPadding(kwargs) && r.Ok? ==>
      var p := LeftPadSpec(inputs, kwargs).value;
      r.value == ConvCall(p.output, nOutputChannels, isTraining, reuse, p.kwargs)
    ensures r.Ok? ==> !IsLeftPadding(r.value.kwargs)
  {
    var x, kw := inputs, kwargs;
    if "padding" in kwargs && kwargs["padding"] == StrValue("LEFT") {
      var padded := FormatInputLeftPadding(inputs, kwargs);
      if padded.Err? {
        return Err(padded.error);
      }
      x, kw := padded.value.output, padded.value.kwargs;
    }
    r := Ok(ConvCall(x, nOutputChannels, isTraining, reuse, kw));
  }

  // ---------------------------------------------------------------------------
  // Properties

  /** For an odd filter size the source's 2 * (f // 2) * d is the (f - 1) * d a causal filter needs. */
  lemma SourceFormulaIsLeadingPad(f: int, d: int)
    requires Odd(f)
    ensures 2 * (f / 2) * d == LeadingPad(f, d)
  {
  }

  /**
   * The exact output size: height H + (f0 - 1) * d0, and width W + (f1 - 1) * d1,
   * or W itself when W is 1.
   */
  lemma PaddedSize(inputs: Tensor, kwargs: Kwargs)
    requires LeftPadSpec(inputs, kwargs).Ok?
    ensures FilterSpec(kwargs).Ok? && DilationSpec(kwargs).Some?
    ensures var (f0, f1) := FilterSpec(kwargs).value;
            var (d0, d1) := DilationSpec(kwargs).value;
            var out := LeftPadSpec(inputs, kwargs).value.output.dims;
            && out[1] == inputs.dims[1] + (f0 - 1) * d0
            && out[2] == (if inputs.dims[2] == 1 then 1 else inputs.dims[2] + (f1 - 1) * d1)
  {
  }

  /** An int filter size f with no "dilation_rate" pads f - 1 rows, and f - 1 columns unless the width is 1. */
  lemma IntFilterDefaultDilation(inputs: Tensor, kwargs: Kwargs, f: int)
    requires StaticRank4(inputs)
    requires "filter_size" in kwargs && kwargs["filter_size"] == IntValue(f)
    requires "dilation_rate" !in kwargs
    ensures Odd(f) && f >= 1 ==>
      && LeftPadSpec(inputs, kwargs).Ok?
      && LeftPadSpec(inputs, kwargs).value.paddings ==
           [(0, 0), (f - 1, 0), (if inputs.dims[2] == 1 then 0 else f - 1, 0), (0, 0)]
    ensures !Odd(f) ==> LeftPadSpec(inputs, kwargs) == Err(FilterSizeEven)
  {
  }

  /**
   * A rank-4 input with a list or tuple of two odd positive filter sizes and a
   * list or tuple of two non-negative dilations is always padded, in front only,
   * by (f0 - 1) * d0 rows and (f1 - 1) * d1 columns (no columns when the width is 1).
   */
  lemma OddFilterAccepted(inputs: Tensor, kwargs: Kwargs, f0: int, f1: int, d0: int, d1: int)
    requires StaticRank4(inputs)
    requires Odd(f0) && Odd(f1) && f0 >= 1 && f1 >= 1 && d0 >= 0 && d1 >= 0
    requires "filter_size" in kwargs && kwargs["filter_size"] == ListValue([IntValue(f0), IntValue(f1)])
    requires "dilation_rate" in kwargs && kwargs["dilation_rate"] == ListValue([IntValue(d0), IntValue(d1)])
    ensures LeftPadSpec(inputs, kwargs).Ok?
    ensures LeftPadSpec(inputs, kwargs).value.paddings ==
      [(0, 0), ((f0 - 1) * d0, 0), (if inputs.dims[2] == 1 then 0 else (f1 - 1) * d1, 0), (0, 0)]
  {
  }

  /** `filter_size=[3, 5]` with `dilation_rate=[2, 3]` pads 4 rows and 12 columns (none when the width is 1). */
  lemma DilatedExample(inputs: Tensor, kwargs: Kwargs)
    requires StaticRank4(inputs)
    requires "filter_size" in kwargs && kwargs["filter_size"] == ListValue([IntValue(3), IntValue(5)])
    requires "dilation_rate" in kwargs && kwargs["dilation_rate"] == ListValue([IntValue(2), IntValue(3)])
    ensures LeftPadSpec(inputs, kwargs).Ok?
    ensures LeftPadSpec(inputs, kwargs).value.paddings ==
      [(0, 0), (4, 0), (if inputs.dims[2] == 1 then 0 else 12, 0), (0, 0)]
    ensures LeftPadSpec(inputs, kwargs).value.output.dims[1] == inputs.dims[1] + 4
  {
  }

  /** Writing the filter size as an int f or as the pair [f, f] makes no difference to the padding. */
  lemma IntFilterIsPair(inputs: Tensor, kwargs: Kwargs, f: int)
    ensures var r1 := LeftPadSpec(inputs, kwargs["filter_size" := IntValue(f)]);
            var r2 := LeftPadSpec(inputs, kwargs["filter_size" := ListValue([IntValue(f), IntValue(f)])]);
            && (r1.Err? <==> r2.Err?)
            && (r1.Err? ==> r1.error == r2.error)
            && (r1.Ok? ==> r1.value.paddings == r2.value.paddings && r1.value.output == r2.value.output)
  {
  }

  /**
   * `conv2d_gru` and `conv2d_lstm` pass the dilation as `dilation=`, but the padding
   * reads only "dilation_rate": whatever "dilation" holds, the padding is the one
   * without it, so with no "dilation_rate" it is the one for dilation (1, 1).
   */
  lemma DilationKeywordIgnored(inputs: Tensor, kwargs: Kwargs, v: Value)
    ensures var r1 := LeftPadSpec(inputs, kwargs);
            var r2 := LeftPadSpec(inputs, kwargs["dilation" := v]);
            && (r1.Err? <==> r2.Err?)
            && (r1.Err? ==> r1.error == r2.error)
            && (r1.Ok? ==> r1.value.paddings == r2.value.paddings && r1.value.output == r2.value.output)
    ensures DilationSpec(kwargs["dilation" := v]) == DilationSpec(kwargs)
    ensures "dilation_rate" !in kwargs ==> DilationSpec(kwargs["dilation" := v]) == Some((1, 1))
  {
  }

  /** The spatial size a stride-1 VALID convolution with filter size f and dilation d leaves. */
  function ValidOutputSize(n: int, f: int, d: int): int {
    n - (f - 1) * d
  }

  /**
   * Padding then convolving with VALID, using the same filter size and dilation,
   * gives back the input's height, and its width when that is not 1: the
   * convolution is causal and size-preserving.
   */
  lemma CausalConvolutionKeepsSize(inputs: Tensor, kwargs: Kwargs)
    requires LeftPadSpec(inputs, kwargs).Ok?
    ensures FilterSpec(kwargs).Ok? && DilationSpec(kwargs).Some?
    ensures var (f0, f1) := FilterSpec(kwargs).value;
            var (d0, d1) := DilationSpec(kwargs).value;
            var out := LeftPadSpec(inputs, kwargs).value.output.dims;
            && ValidOutputSize(out[1], f0, d0) == inputs.dims[1]
            && (inputs.dims[2] != 1 ==> ValidOutputSize(out[2], f1, d1) == inputs.dims[2])
  {
  }
}
