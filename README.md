# Grouped 2-D convolutional layer, modelled in Dafny

This project models the CPU core of darknet's convolutional layer
(`src/convolutional_layer.c`). The layer convolves a batch of `c`-channel
`h x w` images with `n` filters of `size x size`. The channels and the filters
are split into `groups`, and every group of filters sees only its own group of
channels. The layer owns its weights, biases, output and delta buffers, plus
the optional binary, batch-normalization and xnor buffers. It updates them in
place.

Buffer values are `real`. The integer arithmetic is exact: C's truncating
division is written out as `CInt.Div`, and `/` on naturals is used where
both operands are non-negative.

The modules follow the source:

- `ConvGeometry`: the output height and width, and the counts and workspace
  size derived from a layer's shape.
- `Slices`: the offsets the forward and backward loops compute for
  sample `i` and group `j`.
- `Binarize`: binarize_weights, binarize_cpu and binarize_input. Each kernel
  is a method over arrays, proved against a function on sequences.
- `Bias`: add_bias, scale_bias and backward_bias, as triple loops over the
  `batch x n x size` layout.
- `Blas`: the contracts of the collaborators the layer calls. gemm is a pure
  reference function; fill, axpy, scal and sum_array are loops.
- `Patches`: the contracts of im2col and col2im, and the `size == 1` shortcut
  in both its as-written and corrected forms.
- `Tiling`: a buffer cut into (sample, group) tiles, and the state of a loop
  that rewrites it tile by tile.
- `Passes`: forward_convolutional_layer and backward_convolutional_layer, as
  nested batch × group loops over arrays, proved against the specification
  functions `ForwardOutput`, `WeightGrad` and `InputGradient`.
- `Training`: what update_convolutional_layer and
  denormalize_convolutional_layer compute, and lemmas about it.
- `Buffers`: which buffers make_convolutional_layer allocates, with which
  lengths, and what resize_convolutional_layer reallocates.
- `ConvLayer`: the class `Layer`. Its fields are the input size, the derived
  counts and the buffer references. Its methods are the constructor (make),
  `Resize`, `SwapBinary`, `Update`, `Denormalize`, `Forward` and `Backward`.
  `Valid()` says the counts match the shape, the buffers have make's lengths
  and no two buffers alias.

## Model

| member | source | states |
|---|---|---|
| ConvGeometry.OutDimBounds | src/convolutional_layer.c:71-84 | `(len + 2*pad - size)/stride + 1` with truncating division: when the window fits the padded input, the result is at least 1, the last window fits, and one more would not; an overhang of less than one stride still gives 1; otherwise the result is at most 0 |
| ConvGeometry.OutDimExamples | src/convolutional_layer.c:71-74 | a 5-wide input with a 3-wide window gives 3 positions, both unpadded at stride 1 and padded by 1 at stride 2 |
| ConvGeometry.UnitKernelKeepsPlane | src/convolutional_layer.c:71-84 | a 1x1 window with stride 1 and no padding keeps the input's height and width |
| ConvGeometry.WeightsAreFilterBlocks | src/convolutional_layer.c:221-227 | `nweights = c/groups*n*size*size` (division first) is `n` blocks of one filter's `c/groups*size*size` weights |
| ConvGeometry.WorkspaceCount | src/convolutional_layer.c:128 | with the division after all the multiplications, the workspace count is at least `(size*size*c/groups)*plane`; the two agree when `groups` divides `c` |
| ConvGeometry.WorkspaceHoldsPatchMatrix | src/convolutional_layer.c:128 | the CPU workspace always holds the forward pass's patch matrix of `size*size*c/groups` rows and `out_h*out_w` columns |
| ConvGeometry.WorkspaceMatchesFilters | src/convolutional_layer.c:128 | when `groups` divides `c`, the patch rows equal one filter's length, and the workspace is exactly one filter length times `out_h*out_w` floats |
| ConvGeometry.PatchRowsAreFilterLen | src/convolutional_layer.c:523 | when `groups` divides `c`, `size*size*c/groups` equals `c/groups*size*size` |
| Slices.OutputOffsetIsBlock | src/convolutional_layer.c:535 | the offset `(i*groups + j)*n*m` is tile `i*groups + j` of `m*out_h*out_w` floats |
| Slices.OutputsAreGroupBlocks | src/convolutional_layer.c:241 | one sample's outputs are `groups` tiles of `m*out_h*out_w` floats |
| Slices.OutputSliceInBounds | src/convolutional_layer.c:535 | for `i < batch` and `j < groups`, the output (and delta) slice lies within `batch*outputs` |
| Slices.OutputSlicesDisjoint | src/convolutional_layer.c:525-535 | slices of distinct (sample, group) pairs share no element |
| Slices.OutputSlicesCover | src/convolutional_layer.c:525-535 | every element of `batch*outputs` lies in the slice of some (sample, group) pair |
| Slices.WeightSliceInBounds | src/convolutional_layer.c:531 | `j*nweights/groups` equals `j` times one group's weights, and that slice lies within `nweights` |
| Slices.InputsAreGroupBlocks | src/convolutional_layer.c:242 | one sample's inputs are `groups` tiles of `c/groups*h*w` floats |
| Slices.InputSliceInBounds | src/convolutional_layer.c:537 | the input slice `(i*groups + j)*c/groups*h*w` is that tile, and it lies within `batch*inputs` |
| Passes.OffsetsAreTiles | src/convolutional_layer.c:531-537 | the weight, input and output offsets the loop computes are the starts of the matching tiles, and each tile fits its buffer |
| Passes.Sizes | src/convolutional_layer.c:522-524 | the gemm dimensions `m`, `k` and `n` match the tiles, the im2col window and the buffer lengths |
| Binarize.BinarizeWeights | src/convolutional_layer.c:28-41 | the first `n*size` floats of `binary` become the binarized weights; the floats after them and `weights` are unchanged |
| Binarize.BinarizeFilter | src/convolutional_layer.c:31-40 | one iteration of the filter loop writes filter `f`'s block with its own mean and leaves every other float alone |
| Binarize.SumAbsBlock | src/convolutional_layer.c:32-35 | the `mean +=` loop returns the block's sum of absolute values |
| Binarize.SignScaleBlock | src/convolutional_layer.c:37-39 | each float of the block becomes `+mean` if its weight is positive, else `-mean`; nothing else changes |
| Binarize.BinarizeWeightsAt | src/convolutional_layer.c:28-41 | `binary[f*size + i]` is `+m_f` or `-m_f` by the sign of `weights[f*size + i]`, with `m_f` the mean absolute weight of filter `f` |
| Binarize.ZeroWeightTakesNegativeMean | src/convolutional_layer.c:38 | a weight of exactly 0 maps to `-m_f` |
| Binarize.BinarizedBlock | src/convolutional_layer.c:31-40 | filter `f`'s block of the result is its block of weights sign-scaled by `m_f` |
| Binarize.BinarizeWeightsFilterLocal | src/convolutional_layer.c:31-40 | a filter's binarized block depends only on that filter's weights |
| Binarize.BinarizeWeightsKeepsL1Norm | src/convolutional_layer.c:32-39 | binarizing keeps each filter's sum of absolute values |
| Binarize.ScaleSignsByMeanKeepsL1 | src/convolutional_layer.c:32-39 | sign-scaling a non-empty block by its own mean magnitude keeps its sum of absolute values |
| Binarize.ScaleSignsIdempotent | src/convolutional_layer.c:38 | sign-scaling an already sign-scaled block by the same non-negative level changes nothing |
| Binarize.BinarizeWeightsIdempotent | src/convolutional_layer.c:28-41 | binarizing binarized weights changes nothing |
| Binarize.BinarizeCpu | src/convolutional_layer.c:43-49 | `binary[i]` becomes 1 where `input[i] > 0` and -1 otherwise, for `i < n`; the rest of `binary` and `input` are unchanged |
| Binarize.BinarizeSignIdempotent | src/convolutional_layer.c:43-49 | applying binarize_cpu to its own result changes nothing |
| Binarize.BinarizeInput | src/convolutional_layer.c:51-64 | the first `n*size` floats of `binary` become the binarized input; the rest and `input` are unchanged |
| Binarize.BinarizeColumn | src/convolutional_layer.c:54-63 | one iteration of the column loop writes column `s` with its own mean and leaves every other float alone |
| Binarize.SumAbsColumn | src/convolutional_layer.c:55-58 | the `mean +=` loop down column `s` returns the column's sum of absolute values |
| Binarize.BinarizeInputAt | src/convolutional_layer.c:51-64 | `binary[i*size + s]` is plus or minus the mean absolute value of column `s` over the `n` rows, by the sign of `input[i*size + s]` |
| Binarize.BinarizeInputIsTransposedWeights | src/convolutional_layer.c:28-64 | binarize_input is binarize_weights applied to the transposed matrix, with the result transposed back |
| Bias.AddBias | src/convolutional_layer.c:447-457 | the output becomes `PerFilterSpec(Shift, …)`: `biases[i]` is added to the elements of filter `i` of every sample |
| Bias.ScaleBias | src/convolutional_layer.c:469-479 | the output becomes `PerFilterSpec(Scale, …)`: the elements of filter `i` of every sample are multiplied by `scales[i]` |
| Bias.ApplyPerFilter | src/convolutional_layer.c:449-456 | the sample loop shared by both kernels yields exactly the per-filter specification; the parameter array is unchanged |
| Bias.ApplyToSample | src/convolutional_layer.c:450-455 | the filter loop changes exactly sample `b`'s `n*size` floats, each by its own filter's parameter |
| Bias.ApplyToBlock | src/convolutional_layer.c:451-453 | the innermost loop changes exactly `[lo, lo + len)` |
| Bias.PerFilterAt | src/convolutional_layer.c:452 | element `(b*n + i)*size + j` receives exactly filter `i`'s parameter |
| Bias.LayoutIndexInRange | src/convolutional_layer.c:449-453 | every index `(b*n + i)*size + j` the loops visit is below `batch*n*size` |
| Bias.LayoutIndexInjective | src/convolutional_layer.c:449-453 | distinct (sample, filter, element) triples visit distinct indices, so no element is changed twice |
| Bias.LayoutIndexOnto | src/convolutional_layer.c:449-453 | every index below `batch*n*size` is visited |
| Bias.AddBiasInverse | src/convolutional_layer.c:447-457 | add_bias with the negated biases undoes add_bias |
| Bias.ScaleBiasInverse | src/convolutional_layer.c:469-479 | scale_bias with the inverted scales undoes scale_bias when no scale is zero |
| Bias.BackwardBias | src/convolutional_layer.c:491-500 | `bias_updates[i]` grows by the sum over every sample of filter `i`'s `size` deltas; `delta` is unchanged |
| Bias.BackwardBiasSample | src/convolutional_layer.c:494-498 | for sample `b`, each filter's update grows by that sample's block sum; the floats past `n` are unchanged |
| Bias.BiasGradStep | src/convolutional_layer.c:497 | the block read by `sum_array(delta + size*(i + b*n), size)` lies in `delta`, and adding it extends the gradient by one sample |
| Bias.BackwardBiasConserves | src/convolutional_layer.c:491-500 | together, the increments to all `n` bias updates sum to the whole `batch*n*size` of `delta` |
| Bias.GradTotalIsPrefixSum | src/convolutional_layer.c:491-500 | over the first `samples` samples, the increments sum to the first `samples*n*size` deltas |
| Blas.SumArray | src/convolutional_layer.c:497 | `sum_array` returns the sum of its `len` floats |
| Blas.Fill | src/convolutional_layer.c:513 | `fill_cpu` sets the first `count` floats to `v` and leaves the rest |
| Blas.Axpy | src/convolutional_layer.c:654 | `axpy_cpu` adds `alpha*x[k]` to `y[k]` for `k < count`; `x` is unchanged |
| Blas.Scal | src/convolutional_layer.c:655 | `scal_cpu` multiplies the first `count` floats by `alpha` |
| Blas.GemmAt | src/convolutional_layer.c:562 | entry `(r, col)` of gemm's result is `beta*C[r, col]` plus `alpha` times the dot product of row `r` of `op(A)` and column `col` of `op(B)` |
| Blas.GemmBetaOneAccumulates | src/convolutional_layer.c:622 | with `beta = 1` the product is added to `C` |
| Blas.GemmBetaZeroOverwrites | src/convolutional_layer.c:636 | with `beta = 0` the old contents of `C` do not matter |
| Patches.Im2ColUnitIsIdentity | src/convolutional_layer.c:540-545 | under a 1x1 window with stride 1 and no padding, im2col copies the image unchanged |
| Patches.Col2ImUnitIsAdd | src/convolutional_layer.c:638-640 | under that window, col2im adds the matrix to the image elementwise |
| Patches.UnitWindowSource | src/convolutional_layer.c:540-545 | under that window the patch matrix has the image's shape, and entry `idx` copies pixel `idx` |
| Patches.ShortcutWrongUnderStride | src/convolutional_layer.c:540-545 | with `size == 1` and stride 2 over a 4x4 image, the shortcut reads `im[1]` where im2col reads `im[2]` |
| Patches.ShortcutOverReadsUnderPadding | src/convolutional_layer.c:540-545 | with `size == 1` and padding 1 around one pixel, the shortcut reads 9 floats from an image of 1 |
| Patches.PatchIsIm2Col | src/convolutional_layer.c:540-545 | the corrected shortcut, taken only for a unit window, always yields im2col's matrix |
| Patches.InputGradShortcutOverwrites | src/convolutional_layer.c:630-640 | with `size == 1`, the `beta = 0` gemm leaves 2 where col2im would leave 1 + 2 = 3 |
| Patches.InputGradIsCol2Im | src/convolutional_layer.c:630-640 | the corrected shortcut, which accumulates, always agrees with col2im |
| Passes.ConvolveGroup | src/convolutional_layer.c:526-562 | one iteration of the group loop advances the output by exactly tile `(i, j)` of the convolution, whose patch matrix is read through the corrected 1x1 shortcut `Patch` |
| Passes.ConvolveSample | src/convolutional_layer.c:526-563 | the group loop of sample `i` advances the output by that sample's row of tiles of the convolution with the corrected 1x1 shortcut |
| Passes.ConvolveBatch | src/convolutional_layer.c:525-564 | after the batch × group loop, the output is `Convolved(weights, input, old output)`, the convolution with the corrected 1x1 shortcut |
| Passes.GroupGemm | src/convolutional_layer.c:531-562 | the gemm of pair `(i, j)` reads group `j`'s weights and the patch matrix of the pair's input tile, built by the corrected 1x1 shortcut (im2col unless the window is 1x1 with stride 1 and no padding) |
| Passes.ConvolvedTile | src/convolutional_layer.c:525-564 | every (sample, group) tile of the convolved output is that pair's gemm |
| Passes.ConvolvedAt | src/convolutional_layer.c:522-564 | over a zeroed output, output `p` of filter `f` in sample `b` is the dot product of `f`'s row of its group's weights with column `p` of the im2col patch matrix of the sample's group input (the source reads the raw input instead for a 1x1 kernel with stride or padding) |
| Passes.GroupConvOverZero | src/convolutional_layer.c:562 | over a zeroed tile, gemm entry `(r, p)` is the dot product of row `r` with column `p` |
| Passes.ForwardAt | src/convolutional_layer.c:509-574 | without batch-normalize, every output is the activation of its filter's bias plus that dot product, computed on the binarized weights and input when xnor is set; the dot product uses im2col's column, which the source replaces by the raw input for a 1x1 kernel with stride or padding |
| Passes.ForwardPass | src/convolutional_layer.c:509-574 | the output becomes `ForwardOutput`: zeroed, convolved tile by tile with the corrected 1x1 shortcut (on binarized weights and input with xnor), then normalized or biased, then activated; with xnor the binary buffers hold the binarized weights and input |
| Passes.BinarizeBoth | src/convolutional_layer.c:515-519 | the binary weights hold binarize_weights of the weights, and the binary input holds binarize_cpu of `c*h*w*batch` input floats |
| Passes.Finish | src/convolutional_layer.c:566-572 | the convolved output is normalized (batch-normalize) or shifted by the biases, then activated |
| Passes.Activate | src/convolutional_layer.c:572 | each of the first `outputs*batch` floats becomes its activation |
| Passes.Gradient | src/convolutional_layer.c:591 | each delta is multiplied by the activation's gradient at its output |
| Passes.WeightGemm | src/convolutional_layer.c:603-622 | the weight gemm of pair `(i, j)` extends group `j`'s accumulated gradient by sample `i`, with the patch matrix of the corrected 1x1 shortcut |
| Passes.AccumulateWeights | src/convolutional_layer.c:603-622 | one iteration advances the weight updates by exactly group `j`'s tile of `WeightGrad`, built on the corrected 1x1 shortcut |
| Passes.InputGemm | src/convolutional_layer.c:624-640 | the input-gradient gemm of pair `(i, j)` gives the transposed weights times the delta tile, scattered by col2im and added to the pair's tile; for a 1x1 kernel it is added as col2im would, where the source overwrites the tile |
| Passes.AccumulateInput | src/convolutional_layer.c:611-640 | one iteration advances the network's delta by exactly tile `(i, j)` of the input gradient, accumulated as col2im does (the source overwrites for a 1x1 kernel) |
| Passes.BackwardSample | src/convolutional_layer.c:599-642 | the group loop of sample `i` adds sample `i` to the weight gradient and writes its row of input-gradient tiles, both with the corrected 1x1 shortcuts |
| Passes.BackwardBatch | src/convolutional_layer.c:599-643 | after the batch × group loop, the weight updates are `WeightGrad(…, batch)`; when the network has a delta, it is `InputGradient`; both are built on the corrected 1x1 shortcuts |
| Passes.WeightGradTileOf | src/convolutional_layer.c:606-622 | group `j`'s tile of the weight updates is that group's accumulated gradient |
| Passes.WeightGradStart | src/convolutional_layer.c:606-622 | before any sample, the weight updates are unchanged |
| Passes.WeightGradAccumulates | src/convolutional_layer.c:622 | each sample adds its own delta × patchesᵀ product to its group's weight updates (`beta = 1`) |
| Passes.InputGradientTile | src/convolutional_layer.c:611-640 | every (sample, group) tile of `InputGradient` is col2im of that pair's product added to what the tile held; for a 1x1 kernel this is the corrected, accumulating shortcut, not the source's overwrite |
| Passes.SourcePatchAgrees | src/convolutional_layer.c:540-545 | the source's patch matrix, here and again in the backward pass (the raw slice for `size == 1`, im2col otherwise), equals the one the passes use whenever the kernel is not 1x1, or is 1x1 with stride 1 and no padding |
| Passes.SourceInputGradAgrees | src/convolutional_layer.c:629-640 | the source's input gradient (the `beta = 0` overwrite for `size == 1`, col2im otherwise) equals the one the passes use whenever the kernel is not 1x1, or is 1x1 with stride 1, no padding and a tile still holding zeros |
| Passes.BackwardPass | src/convolutional_layer.c:583-644 | the delta is chained through the activation's gradient (and normalized back with batch-normalize); without batch-normalize the bias updates gain their per-filter sums; the weight updates become `WeightGrad` and the network's delta `InputGradient`, both built on the corrected 1x1 shortcuts |
| Training.WeightStepClosedForm | src/convolutional_layer.c:661-662 | each weight becomes `(1 - lr*decay)*w + (lr/batch)*wu`; weights past `nweights` are kept |
| Training.MomentumClosedForm | src/convolutional_layer.c:661-663 | each weight update becomes `momentum*(wu - decay*batch*w)` |
| Training.DecayEntersSameStep | src/convolutional_layer.c:661-662 | because decay is added to the updates before the step, each weight ends `lr*decay*w` below a plain step along the updates |
| Training.ZeroRateScaleFreezes | src/convolutional_layer.c:648-662 | with learning-rate scale 0 (a freshly made layer), the weights and biases do not move |
| Training.NoMomentumClears | src/convolutional_layer.c:663 | with momentum 0, the weight updates are cleared |
| Training.ScaleFiltersBlock | src/convolutional_layer.c:359-362 | every weight of filter `i`'s block is multiplied by `f[i]` |
| Training.FilterOffset | src/convolutional_layer.c:361 | the offset `i*c/groups*size*size` is `i` filter lengths when `groups` divides `c` |
| Training.FoldKeepsResponse | src/convolutional_layer.c:356-369 | the folded filter plus its folded bias responds to every patch as batch normalization did before folding: `f*(w·x - mean) + b` |
| Training.NeutralFoldKeeps | src/convolutional_layer.c:356-369 | with every factor 1 and every mean 0, folding changes nothing |
| Buffers.MadeLayerFitsForward | src/convolutional_layer.c:244-257 | a freshly made layer has room for everything its forward pass writes; in particular `inputs*batch == c*h*w*batch` |
| Buffers.ResizeAsWrittenOverflowsBinaryInput | src/convolutional_layer.c:396-435 | an xnor layer resized to a larger input keeps its old binary input, which is then too small for the forward pass |
| Buffers.ResizeAgreesWithMake | src/convolutional_layer.c:396-435 | with the binary input reallocated too, resize leaves exactly the buffers make would allocate for the new size, so the forward pass fits |
| Buffers.ResizeKeepsParameters | src/convolutional_layer.c:396-435 | resize keeps the lengths of the weights, the biases and every per-filter buffer |
| Buffers.BinaryLayerUpdateAsWrittenUnsafe | src/convolutional_layer.c:250-262 | a binary layer without batch-normalize has scales but no scale updates, so update as written reads through NULL |
| Buffers.UpdateGuardSafe | src/convolutional_layer.c:651-658 | with the guard `scales && scale_updates`, the update of any made layer reads only allocated buffers, and it trains the scales exactly when the layer is batch-normalized |
| ConvLayer.Realloc | src/convolutional_layer.c:409-413 | realloc gives a new buffer of the new length that starts with the old contents |
| ConvLayer.Reallocations | src/convolutional_layer.c:409-413 | output and delta, and with batch-normalize `x` and `x_norm`, become new buffers of `batch*outputs` floats with their prefixes kept; as corrected (the source never does this), the binary input, when there is one, becomes a new buffer of `inputs*batch` floats; the new buffers are distinct |
| ConvLayer.RegrowDisjoint | src/convolutional_layer.c:409-413 | replacing buffers with new, distinct ones keeps the layer's buffers pairwise disjoint |
| ConvLayer.NewStorage | src/convolutional_layer.c:221-276 | make allocates every buffer with its length, zero-filled except the initial weights and the batch-normalize scales of 1; no two buffers alias |
| ConvLayer.StepParams | src/convolutional_layer.c:654-660 | axpy then scal: the parameters step along their updates, which then decay by momentum |
| ConvLayer.StepWeights | src/convolutional_layer.c:661-663 | the three weight steps yield `NewWeights` and `NewWeightUpdates` |
| ConvLayer.ScaleBlock | src/convolutional_layer.c:360-362 | the inner loop multiplies exactly filter `i`'s block by its factor |
| ConvLayer.ScaleNextFilter | src/convolutional_layer.c:359-362 | with the offset computed as the source does, one more filter's block is scaled |
| ConvLayer.ResetFilter | src/convolutional_layer.c:364-367 | filter `i`'s bias loses `mean*scale`, and its scale, mean and variance become 1, 0 and 1; no other entry changes |
| ConvLayer.FoldBatchNorm | src/convolutional_layer.c:357-368 | the weights become `ScaleFilters(old, factors)` and the biases `FoldMean(old biases, old means, factors)`; every scale is 1, mean 0 and variance 1 |
| ConvLayer.Layer.constructor | src/convolutional_layer.c:193-354 | the made layer is `Valid` with the given shape and switches; the weights hold the initial values; every other buffer is zero except batch-normalize scales of 1; learning-rate scale 0 |
| ConvLayer.Layer.Resize | src/convolutional_layer.c:396-435 | new width and height; counts recomputed by make's formulas; with the binary input reallocated as well (a correction: the source keeps the old one), buffer lengths equal make's for the new size; weights, biases and per-filter buffers untouched; reallocated prefixes kept; still `Valid` |
| ConvLayer.Layer.SwapBinary | src/convolutional_layer.c:15-26 | the weights and binary-weights references trade places; nothing else changes, and the layer stays `Valid` |
| ConvLayer.Layer.Update | src/convolutional_layer.c:646-664 | with the corrected guard `scales && scale_updates` (the source tests `scales` alone), the biases (and, for a batch-normalized layer, the scales) step by `lr/batch` along their updates, which decay by momentum; the weights follow `NewWeights` and their updates `NewWeightUpdates` |
| ConvLayer.Layer.Denormalize | src/convolutional_layer.c:356-369 | each filter's weights are multiplied by its factor and its bias loses `rolling_mean*factor`; scales and variances become 1 and means 0 |
| ConvLayer.Layer.Forward | src/convolutional_layer.c:509-574 | the output buffer becomes `ForwardOutput` of the layer's weights, biases and the network input, convolved with the corrected 1x1 shortcut; with xnor the binary buffers hold the binarized weights and input; with batch-normalize `x`, `x_norm` and the rolling statistics may change, to unstated contents |
| ConvLayer.Layer.Backward | src/convolutional_layer.c:583-644 | delta, bias updates (without batch-normalize), weight updates and the network's delta become `BackwardDelta`, `BackwardBiasSpec`, `WeightGrad` and `InputGradient`, the last two built on the corrected 1x1 shortcuts; with batch-normalize the bias and scale updates may change, to unstated contents |

## Left out

- GPU and CUDNN code (`cudnn_convolutional_setup`, the CUDNN branch of `get_workspace_size`, `cuda_make_array`/`cuda_free`): foreign accelerator calls and global handle state.
- The bodies of gemm, im2col_cpu, col2im_cpu, activate_array, gradient_array, forward_batchnorm_layer and backward_batchnorm_layer live in other files. gemm, im2col and col2im are reference functions of their documented meaning. The activation, its gradient and both batch-norm passes are function parameters.
- Floating-point rounding, `fabs`, and the `sqrt(rolling_variance + .00001)` in the fold factor. Values are reals, and the fold factor is a parameter `fold(scale, variance)`.
- The random initial weights (`scale*rand_normal()`) are the constructor's `init` parameter. The `fprintf` summary and calloc/realloc failure are not modelled.
- `cweights`, `mean`, `variance`, `mean_delta`, `variance_delta` and the Adam buffers (`m`, `v`, `bias_m`, …) are allocated by make but never read by the modelled operations, so they are not tracked.
- The image and visualisation helpers (`get_convolutional_image`, `get_convolutional_delta`, `get_convolutional_weight`, `rgbgr_weights`, `rescale_weights`, `get_weights`, `visualize_convolutional_layer`) and `test_convolutional_layer`: thin wrappers over the image library, which is not part of this model.
- ConvLayer.Realloc: the floats past the old length are unspecified in C; here they are zero.
- ConvLayer.Layer.Resize: the binary input is reallocated to the new `inputs*batch`, which the source never does (see "## Findings"). The model promises make's lengths for the new size; the source leaves an xnor layer's binary input at its old length.
- ConvLayer.Reallocations: same correction as ConvLayer.Layer.Resize: it also reallocates the binary input.
- ConvLayer.Layer.Update: the scales branch is taken only when `scale_updates` is set as well as `scales`, where the source tests `scales` alone (see "## Findings"). For a binary layer without batch-normalize the source reads through a NULL `scale_updates`; the model leaves the scales alone.
- ConvLayer.Layer.Resize: new sizes whose `out_h` or `out_w` would fall below 1 are excluded (`WellFormed` of the resized shape is required), which the source accepts.
- ConvLayer.Layer.Resize: the workspace itself belongs to the network, so only its size (`counts.workspaceSize`) is modelled.
- ConvLayer.Layer.constructor: shapes whose `groups` does not divide both `c` and `n` are excluded (`Valid` requires it), and so is a kernel smaller than 1x1. `WellFormed` also excludes shapes whose `out_h` or `out_w` is below 1, which make accepts. The slice arithmetic of the passes is only meaningful for such shapes.
- ConvLayer.Layer.Denormalize: requires a batch-normalized layer. Other layers have no rolling statistics, and the source would read through NULL.
- ConvLayer.Layer.Forward: with batch-normalize, what forward_batchnorm_layer writes into `x`, `x_norm` and the rolling statistics is not modelled. Those buffers are in the method's frame and their new contents are left unconstrained; only the normalization's effect on the output (a parameter) is stated.
- ConvLayer.Layer.Backward: with batch-normalize, what backward_batchnorm_layer adds to the bias and scale updates is not stated. Both buffers are in the method's frame and their new contents are left unconstrained; only the normalization's effect on the delta (a parameter) is modelled.
- Passes.BackwardPass: same omission for batch-normalize as ConvLayer.Layer.Backward: the bias updates are left unconstrained, and the scale updates are not among its parameters.
- Passes.ForwardPass: the workspace is a scratch value (the patch matrix is computed as a sequence), so its contents after the pass are not modelled.
- Passes.ForwardPass: the closing `swap_binary(&l)` acts on the by-value copy of the layer, so the model does not show it.
- Passes.ForwardPass: every patch matrix comes from the corrected 1x1 shortcut (`Patch`: the raw input only for a 1x1 kernel with stride 1 and no padding, im2col otherwise), not from the source's `b = im` for every `size == 1` (see "## Findings"). For a 1x1 kernel with stride above 1 the output differs from the source's, and with padding the source over-reads. Passes.SourcePatchAgrees proves the two agree on every other layer.
- ConvLayer.Layer.Forward: same corrected 1x1 shortcut as Passes.ForwardPass.
- Passes.GroupGemm: same corrected 1x1 shortcut as Passes.ForwardPass.
- Passes.ConvolveGroup: same corrected 1x1 shortcut as Passes.ForwardPass.
- Passes.ConvolveSample: same corrected 1x1 shortcut as Passes.ForwardPass.
- Passes.ConvolveBatch: same corrected 1x1 shortcut as Passes.ForwardPass.
- Passes.ConvolvedAt: same corrected 1x1 shortcut as Passes.ForwardPass.
- Passes.ForwardAt: same corrected 1x1 shortcut as Passes.ForwardPass.
- Passes.BackwardPass: the weight gradient uses the same corrected 1x1 patch matrix as Passes.ForwardPass. The input gradient is added into the network's delta for every kernel, where the source's `size == 1` gemm overwrites the tile with `beta = 0` (see "## Findings"). Passes.SourceInputGradAgrees proves the two agree unless the kernel is 1x1 and the tile already holds a nonzero gradient, or the 1x1 window has stride or padding.
- ConvLayer.Layer.Backward: same corrected 1x1 shortcuts as Passes.BackwardPass.
- Passes.BackwardBatch: same corrected 1x1 shortcuts as Passes.BackwardPass.
- Passes.BackwardSample: same corrected 1x1 shortcuts as Passes.BackwardPass.
- Passes.WeightGemm: same corrected 1x1 patch matrix as Passes.ForwardPass.
- Passes.AccumulateWeights: same corrected 1x1 patch matrix as Passes.ForwardPass.
- Passes.InputGemm: adds the input gradient for a 1x1 kernel, as in Passes.BackwardPass, where the source overwrites.
- Passes.AccumulateInput: same accumulating 1x1 shortcut as Passes.InputGemm.
- Passes.InputGradientTile: same accumulating 1x1 shortcut as Passes.InputGemm.
- 32-bit integer overflow in the size arithmetic is not modelled: counts are unbounded naturals.

## Findings

| source | as written | input that shows it | evidently intended | confidence | as-written member | corrected member |
|---|---|---|---|---|---|---|
| src/convolutional_layer.c:540-545, 613-620 | with `size == 1` the raw input slice is used as the patch matrix whatever the stride and padding | stride 2, 4x4 single-channel image: matrix entry 1 is `im[1]`, but im2col gives `im[2]`; padding 1 on a 1x1 image reads 9 floats from 1 | take the shortcut only for stride 1 and no padding, otherwise im2col | not executed | Patches.ShortcutWrongUnderStride | Patches.PatchIsIm2Col |
| src/convolutional_layer.c:629-640 | with `size == 1` the input-gradient gemm writes into `net.delta` with `beta = 0`, overwriting it, while the `size != 1` path adds through col2im | a 1x1 pixel whose delta already holds 1 (from another consumer of the input) and receives 2 ends at 2, not 3 | accumulate in both paths, as col2im does | not executed | Patches.InputGradShortcutOverwrites | Patches.InputGradIsCol2Im |
| src/convolutional_layer.c:250-262, 656-657 | update tests `l.scales` and then reads `l.scale_updates`; a binary layer without batch-normalize has scales but no scale updates | make with binary = 1, batch_normalize = 0, then update | take the scales branch only when `scale_updates` is set too | not executed | Buffers.BinaryLayerUpdateAsWrittenUnsafe | Buffers.UpdateGuardSafe |
| src/convolutional_layer.c:396-435, 518 | resize never reallocates `binary_input`, but the next forward pass binarizes `c*h*w*batch` floats into it | an xnor layer made for 1x1 inputs and resized to 2x2, with batch 1 | reallocate `binary_input` to `inputs*batch`, as make sizes it | not executed | Buffers.ResizeAsWrittenOverflowsBinaryInput | Buffers.ResizeAgreesWithMake |
