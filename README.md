# tefla `special_fn`: causal padding and the custom-gradient wrapper

This project models the two parts of `tefla/core/special_fn.py` that are not
floating-point tensor arithmetic. Both are shape and bookkeeping code.

- **Causal ("LEFT") padding.** `format_input_left_padding` checks that the input's
  static shape has rank 4. It then reads `filter_size`, which may be an int or a
  list or tuple, and `dilation_rate`, which defaults to (1, 1). Both filter
  dimensions must be odd. It pads the height and the width in front of the data
  only. It rewrites the keyword `padding` to `"VALID"`. `conv2d_v2` applies this
  transform exactly when `padding` is `"LEFT"`.
  Module `LeftPadding` (`left_padding.dfy`):
  - A tensor is its static shape (`Option<seq<Option<nat>>>`, None when the rank
    is unknown) plus its runtime sizes. The subset type `Tensor` keeps the two in
    agreement.
  - Keyword arguments are a `map<string, Value>`.
  - Every exception the source raises, taking integers as unbounded and its
    `assert`s as enabled, is a `PadError` value returned in a `Result`. Int32
    overflow and `python -O` are listed under Left out.
  - `FormatInputLeftPadding` follows the code step by step. That includes the
    source's own formula `2 * (f // 2) * d`, the rebinding of `filter_size` and
    `dilation_rate`, and the static-width test in front of the runtime `tf.cond`.
    It is proved equal to `LeftPadSpec`, a reference definition written with
    `(f - 1) * d`.
  - The properties are `LeftPadSpec`'s postconditions and the lemmas after it.
- **Custom gradients.** `_fn_with_custom_grad` runs `fn` and captures the scope's
  variables. When a `grad_fn` is given, it feeds `inputs + vars + outputs` to a
  black-box `identity` op. That op passes the outputs through. Its gradient
  function cuts the list back into its three parts, checks two counts, and
  returns `grad_inputs + grad_vars + [None] * len(outputs)`.
  Module `CustomGradient` (`custom_gradient.dfy`):
  - Tensors and gradients are type parameters.
  - `grad_fn` is an arbitrary function value.
  - Python's clamping slice and `[x] * n` are written out.
  - The lemmas prove the round trips: concatenate then cut, and identity on
    the concatenation. They also prove the shape of the gradient tuple.

`wrappers.dfy` holds the `Option` and `Result` datatypes.

Where the code and its documentation differ, the model follows the code:
- `grad_fn`'s result lengths are never checked by the wrapper. Only the two
  output counts on lines 75-76 are asserted.
- The docstring promises `fn(*inputs)` (line 48). With a `grad_fn`, what the
  caller really gets is the result of calling the `identity` op, and its form
  depends on how `function.Defun` returns results; see Left out.
- The padding's dilation comes only from the key `"dilation_rate"` (line 110).
  The callers on lines 235 and 288 pass `dilation=`. On those paths the padding
  therefore uses dilation (1, 1), unless the caller's extra kwargs carry a
  `dilation_rate`. `DilationKeywordIgnored` states this.

## Model

| member | source | states |
|---|---|---|
| `LeftPadding.FormatInputLeftPadding` | tefla/core/special_fn.py:100-123 | The step-by-step transformation yields exactly `LeftPadSpec`. This covers every error, in the order the source raises them, as well as the padding table, the padded tensor and the new kwargs. The source's `2*(f//2)*d` and static-width shortcut agree with the reference `(f-1)*d` and runtime-width rule. |
| `LeftPadding.LeftPadSpec` | tefla/core/special_fn.py:100-123 | Fails with `RankNot4` exactly when the static shape is unknown or not of rank 4. It succeeds exactly when the rank is 4, the filter size is accepted, the dilation is readable, and the height amount `(f0-1)*d0` and (unless the width is 1) the width amount `(f1-1)*d1` are non-negative. On a rank-4 input, a rejected filter size gives that filter error, an unreadable dilation gives `DilationMalformed`, and any other failure is `NegativePadding`. On success: the table pads only in front of height and width, batch and channel rows are `(0, 0)`, and all amounts are ≥ 0. No width padding happens when the width is 1. `tf.pad` with the table gives the output sizes. Batch and channel sizes are unchanged. The static shape is `[batch, None, None, channels]`. The kwargs are the input kwargs plus `padding = "VALID"`, with every other key unchanged. |
| `LeftPadding.FilterSpec` | tefla/core/special_fn.py:105-112 | A missing `filter_size` is a KeyError. A None one is an assertion failure. An accepted filter size has two odd dimensions. An int `f` is read as `(f, f)` and is accepted exactly when it is odd. A list or tuple is accepted exactly when its first two items are odd ints, and it then gives `(items[0], items[1])`. A missing or non-int first item is malformed. An even first item is rejected as even, whatever follows it. After an odd first item, a missing or non-int second item is malformed and an even one is rejected as even. A string is malformed, because its one-character items cannot be taken modulo 2 on line 112. So is a value that cannot be subscripted, such as a float. The other values the model folds into this case are listed under Left out. |
| `LeftPadding.DilationSpec` | tefla/core/special_fn.py:105-111 | Without a `"dilation_rate"` key the dilation is (1, 1). A present `dilation_rate` is accepted exactly when it is a list or tuple whose first two items are ints, and it then gives `(d0, d1)`. An int dilation cannot be subscripted, so it is rejected. |
| `LeftPadding.Pad` | tefla/core/special_fn.py:119 | `tf.pad` succeeds exactly when no amount is negative. On success each axis grows by its two amounts, and the rank is kept. |
| `LeftPadding.SetShape` | tefla/core/special_fn.py:121 | `set_shape` keeps the runtime sizes. It takes on every static size it is given and keeps the previous static size wherever it is given None. |
| `LeftPadding.Conv2dV2` | tefla/core/special_fn.py:188-190 | Without `padding == "LEFT"`, the inputs and kwargs reach `dilated_conv2d` unchanged. With it, the convolution receives the left-padded tensor and kwargs, or the padding's error is raised. The convolution never sees `"LEFT"`. |
| `LeftPadding.SourceFormulaIsLeadingPad` | tefla/core/special_fn.py:113-116 | For an odd filter size, `2 * (f // 2) * d` equals `(f - 1) * d`. |
| `LeftPadding.PaddedSize` | tefla/core/special_fn.py:113-119 | After padding, the height is `H + (f0 - 1) * d0`. The width is `W + (f1 - 1) * d1`, or `W` when `W == 1`. |
| `LeftPadding.IntFilterDefaultDilation` | tefla/core/special_fn.py:105-118 | Take an int filter size `f` and no `"dilation_rate"`. An odd positive `f` gives the table `[(0,0), (f-1,0), (f-1 or 0 when W is 1, 0), (0,0)]`. An even `f` is rejected. |
| `LeftPadding.OddFilterAccepted` | tefla/core/special_fn.py:105-119 | Take a rank-4 input, filter sizes `[f0, f1]` odd and positive, and dilations `[d0, d1]` non-negative. The input is always padded, with the table `[(0,0), ((f0-1)*d0, 0), ((f1-1)*d1 or 0 when the width is 1, 0), (0,0)]`. |
| `LeftPadding.DilatedExample` | tefla/core/special_fn.py:105-119 | `filter_size=[3, 5]` with `dilation_rate=[2, 3]` pads 4 rows and 12 columns in front, or no columns when the width is 1. The height grows by 4. |
| `LeftPadding.IntFilterIsPair` | tefla/core/special_fn.py:107-109 | `filter_size=f` and `filter_size=[f, f]` give the same error, or the same table and output. |
| `LeftPadding.DilationKeywordIgnored` | tefla/core/special_fn.py:110-111 | The key `"dilation"`, which `conv2d_gru` and `conv2d_lstm` pass (lines 235, 288), never has any effect on the padding or the dilation it uses, whatever the other kwargs hold. Without a `"dilation_rate"`, the dilation is (1, 1). |
| `LeftPadding.CausalConvolutionKeepsSize` | tefla/core/special_fn.py:113-122 | Pad, then run a stride-1 VALID convolution with the same filter size and dilation. The height comes back unchanged. So does the width, unless it is 1. |
| `CustomGradient.Repeat` | tefla/core/special_fn.py:80 | `[x] * n` has length `n` and every entry is `x`. |
| `CustomGradient.Split` | tefla/core/special_fn.py:72-74 | The three slices of `op.inputs` always concatenate back to `op.inputs`. When the list is long enough, they have lengths `len(inputs)` and `len(train_vars)` plus the rest. |
| `CustomGradient.Identity` | tefla/core/special_fn.py:92-94 | `identity` yields the arguments after the first `len(inputs) + len(train_vars)`, or nothing when there are fewer. |
| `CustomGradient.CustomGradFn` | tefla/core/special_fn.py:69-81 | Succeeds exactly when the slice of outputs has `len(outputs)` entries and one output gradient arrives per output. Otherwise the error is `OutputCountMismatch` exactly when the output slice has the wrong length, which is the first assertion, and `GradientCountMismatch` in every other case. On success the tuple is `grad_inputs`, then `grad_vars`, then `len(outputs)` Nones. |
| `CustomGradient.FnWithCustomGrad` | tefla/core/special_fn.py:50-97 | With `grad_fn` None, fn's result is returned unchanged. Otherwise the forward result is fn's outputs as a list, with a lone tensor wrapped. The node carries `grad_fn` and the output count. Its argument list cuts back into the inputs, the captured (global or trainable) variables and the outputs. |
| `CustomGradient.Slice` | tefla/core/special_fn.py:72-74 | Python's slice `s[lo:hi]` is `s[lo..hi]` when the bounds are in order and in range. It is empty when `hi <= lo` or when `lo` is past the end. An `hi` past the end gives the rest of the list. |
| `CustomGradient.AsList` | tefla/core/special_fn.py:61-63 | A lone tensor becomes the one-element list holding it. A list or tuple gives its items in order. |
| `CustomGradient.CapturedVars` | tefla/core/special_fn.py:53-56 | The captured variables are the scope's global variables when `use_global_vars` is set, and its trainable variables otherwise. |
| `CustomGradient.Backward` | tefla/core/special_fn.py:87-90 | Take a node whose argument list has the length it was built with. The gradient the framework obtains through `python_grad_func` then succeeds exactly when one output gradient arrives per output. Otherwise the error is the second assertion. |
| `LeftPadding.Subscript` | tefla/core/special_fn.py:112-116 | Python's `v[k]` on the filter size or dilation exists exactly for a list, tuple or string with more than `k` items. On a list it is the k-th item. |
| `LeftPadding.IntAt` | tefla/core/special_fn.py:112-116 | The `k`-th filter or dilation item is usable as a number exactly when the value is a list or tuple whose `k`-th item is an int. It is then that int. |
| `CustomGradient.SplitConcat` | tefla/core/special_fn.py:72-74 | Cutting `inputs + vars + outputs` at `len(inputs)` and `len(inputs) + len(vars)` recovers the three lists. |
| `CustomGradient.IdentityReturnsOutputs` | tefla/core/special_fn.py:92-96 | `identity(*(inputs + vars + outputs))` is exactly `outputs`. |
| `CustomGradient.GradientOfOwnArguments` | tefla/core/special_fn.py:69-81 | Take the list the wrapper itself builds. Both assertions hold exactly when `len(dys) == len(outputs)`. The result is then `grad_inputs + grad_vars + [None] * len(outputs)`. |
| `CustomGradient.BackwardReplacesGradient` | tefla/core/special_fn.py:83-96 | The wrapped function's gradient is `grad_fn`'s answer for the original inputs and the captured variables, whatever `fn` computed. Its length is `len(grad_inputs) + len(grad_vars) + len(outputs)`. The last `len(outputs)` entries are None. |
| `CustomGradient.SingleOutputIsWrapped` | tefla/core/special_fn.py:61-63 | A lone tensor returned by `fn` becomes a one-element output list. |

## Left out

- `saturating_sigmoid`, `conv2d_gru`, `conv2d_lstm` (lines 126-291): floating-point and transcendental tensor arithmetic. `conv2d_lstm` also refers to the undefined names `n_ouput_channels` and `x` (lines 289-290), so as written it cannot run.
- `dilated_conv2d` and `layer_norm` are not part of this model. `Conv2dV2` returns the call it would make to `dilated_conv2d`. `ValidOutputSize` is the standard stride-1 VALID size formula and is not taken from the source.
- `fn_with_custom_grad` (lines 7-32): a decorator that only curries `_fn_with_custom_grad`. The model uses `FnWithCustomGrad` directly.
- Running `fn` inside `tf.variable_scope` and collecting the scope's variables (lines 50-56) are framework calls. `FnWithCustomGrad` takes fn's result and the scope's global and trainable variables as parameters.
- The dtype lists (lines 65-67), the `shape_func` (line 91) and the `function.Defun` registration are framework mechanics and are not modelled.
- The random op name (line 89) is nondeterministic naming with no stateable behaviour.
- The value a `Defun` call returns is modelled as the list of its outputs. The framework may unwrap a single output or turn several into a tuple. That foreign behaviour is not modelled, so neither is the caller-visible return type.
- `tf.cond` (lines 114-116) is an ordinary conditional on the runtime width. Both of its branches are built, so `dilation_rate[1]` is always read.
- `Pad` keeps the rank of the padded tensor but no static sizes. The static sizes TensorFlow's shape inference might recover for the padded axes are lost, and `set_shape` then supplies batch and channels.
- FilterSpec, DilationSpec: Python values are limited to None, ints, strings, lists or tuples, and opaque others (floats, bools, dicts, ranges and the rest). Where the source and the model then differ:
  - A bool is an `int` in Python. So the source accepts `filter_size=True` and bool items such as `dilation_rate=[True, True]`, reading them as 1. The model rejects them as malformed.
  - A subscriptable value that is neither a list nor a tuple, such as `range(3, 6, 2)` or `{0: 3, 1: 5}`, is indexed on lines 112-116 without error, and the source pads with it. The model rejects it with `FilterSizeMalformed` or `DilationMalformed`.
  - Float items such as `[3.0, 5.0]` pass the oddness test on line 112. The source fails only later, when `tf.cond` or `tf.pad` meets a float amount. The model rejects them as malformed straight away.
  - A lone float filter size is rejected by both, since a float cannot be subscripted. So is a string filter size, whose one-character items cannot be taken modulo 2.
- LeftPadSpec (and so FormatInputLeftPadding and Conv2dV2): padding amounts are unbounded integers. In the source the width amount is an int32 `tf.constant` (line 116), and `tf.pad` takes the table as int32 paddings (line 119). An amount beyond int32, such as the one from `filter_size=2**31+1`, fails while the graph is built, but the model accepts it.
- FilterSpec (and so LeftPadSpec and FormatInputLeftPadding): the checks on lines 106 and 112 are Python `assert`s, which `python -O` strips. A None or even filter size then gets through. An even `f` would pad `2*(f//2)*d = f*d`. The model always applies the checks.
- CustomGradFn: the two count checks on lines 75-76 are `assert`s too. Under `python -O` they vanish, and mismatched counts reach `grad_fn`. The model always reports them.
- Backward: TensorFlow's own check that a gradient function returns exactly one entry per op input (`len(op.inputs)`) is not modelled. So a `grad_fn` whose lists have the wrong lengths fails in the framework, while `Backward` returns `Ok`. TensorFlow also always supplies one `dy` per op output, so through the framework the assertions on lines 75-76 cannot fail. The model keeps them as `CustomGradFn` states them.
- `FormatInputLeftPadding`, `Conv2dV2`: graph-construction and runtime errors are merged into one kind of failure. The model does not say which phase raises them.
