# Verified models of ollama's conversion cores

This project models the self-contained algorithms of the repository that are easy
to get subtly wrong, and proves what they promise. Every file is one module; a
module follows one source file or one component of it. Code that works step by
step (odometers, running offsets, buffers, compaction in place, state machines)
is modelled by methods and classes with loops, each proved against a
specification function; code made of expressions is modelled by functions. The
main theorems are about those specifications: inverses, partitions, round trips,
refinements, conservation, agreement of two implementations.

## What is modelled

- **Tensor layout** (`Shapes`, `Permutations`, `TensorLayout`, `SliceConcat`):
  row-major tensors of any rank, the odometer that permutes axes without
  recomputing strides, slices and concatenations along any dimension. The
  hand-written repackers (`PixtralRepack`, `PatchRepack`, `GlmKvSplit`) are
  proved to be those generic operations.
- **FP8 decoding** (`MlxArrays`, `Fp8Decode`, `ExpertStack`, `ExpertImport`): the
  array operations with their numpy meaning over opaque elements; pad, reshape,
  broadcast, slice is one elementwise definition, also for stacked experts, from
  the planned sources to the decoded stack.
- **Anthropic streaming** (`StreamTypes`, `StreamConverter`, `StreamClient`,
  `StreamAgreement`, `StreamThinking`): the converter as a class, a client that accepts only
  well-formed event streams, and the agreement with the non-streaming converter.
- **Import planner** (`PlanNames`, `LayerNames`, `PlanTypes`, `PlanExperts`,
  `ExpertConservation`, `PlanGroups`, `FloatPlan`, `PlanCheck`, `Fp8Plan`,
  `Fp8Conservation`, `PrequantMatch`, `PrequantPlan`, `PrequantConservation`,
  `PrequantUse`, `Planner`, `PlanSlots`, `TwinExample`): float, block-FP8 and
  prequantized plans, in how many output positions each inventory tensor is a
  source, and the order of the experts in every stack.
- **GGUF** (`Bytes`, `KeyOrder`, `GgufFormat`, `GgufLayout`, `GgufWriter`,
  `GgufReader`): the writer of
  the format of the GGUF specification (ggml docs/gguf.md), section "File
  Structure", against an independent parser, its data section's layout, and where
  the repository's own reader looks for that section.
- **Tensor rows** (`QuantBlocks`, `QuantRows`): closed forms of Q8_0, Q5_0,
  Q4_K and Q6_K blocks and of float elements, packing bijections, rows and whole
  tensors.
- **Speech** (`Strings`, `Utf8`, `Speech`): cutting streamed bytes into pieces to
  be spoken, with UTF-8 (Unicode Standard, section 3.9) decoded as Go does.
- **Smaller cores** (`PositionEmbedding`, `PositionLayouts`, `BackendCopies`,
  `Confidence`).

## Where the code does not do what one would expect

- A prequantized plan uses each kept tensor exactly once if and only if no scaled
  Flint expert is also shipped as `.weight_packed`
  (`PrequantUse.PrequantConservesIff`). Otherwise the expert's block scale is a
  source both of the expert bank and of the packed weight's blob, and no output
  name clashes; `TwinExample.ScaleUsedTwice` is such a model, with the layer
  prefixes of the code's own regular expression.
- The streamed message agrees with the non-streaming one if and only if thinking
  comes before text, text before tool calls, tool ids are distinct and arguments
  encode (`StreamAgreement.StreamAgreesIffInOrder`);
  `StreamAgreement.SpeaksThenThinks` is a stream on which they differ.
- The header repeats a key if and only if some unqualified key is also present
  with the architecture's prefix (`GgufWriter.KeysDistinctIff`);
  `GgufWriter.KeyWrittenTwice` is such metadata.
- The repository's reader takes the alignment that the writer used if and only if
  `general.alignment` is missing, a positive unsigned 32-bit or 64-bit number, or 32
  of another integer type; and for the architecture `general`, whose key `alignment`
  is written under that name first, if that key has the writer's alignment
  (`GgufReader.AlignmentReadIff`). With a signed 64
  (`GgufReader.SignedAlignment`) the writer aligns to 32 and the reader to 64.
- The four layouts of a position embedding do not always give one output. A
  [positions, length] matrix is read as itself, whatever its elements, if and only
  if its length is no square, or it is a single number
  (`PositionLayouts.ReadsEveryMatrixIff`). With the length given, as the import
  does, such a matrix is refused if its length is a square other than its number of
  positions, and silently transposed if the two are equal
  (`PositionLayouts.LayoutsAgreeIff`, `FourByFour`); without one, it is taken for a
  grid of another size (`NineByFour`).

## Model

| member | source | states |
|---|---|---|
| `TensorLayout.TensorSize` | compatmigrate/tensor_layout.go:19-25 | the product loop yields the number of multi-indices of the shape |
| `TensorLayout.CheckTensorDims` | compatmigrate/tensor_layout.go:27-37 | accepts exactly nonnegative dimensions whose product is the data length, and says which of the two fails |
| `TensorLayout.ReorderAxes` | compatmigrate/tensor_layout.go:122-132 | the `seen` check succeeds exactly on permutations of the axes, and gives reordered dimensions and strides |
| `TensorLayout.RowMajorStrides` | compatmigrate/tensor_layout.go:115-120 | the strides loop yields the products of the later dimensions |
| `TensorLayout.DotIsRavel` | compatmigrate/tensor_layout.go:115-120 | an index's dot product with the strides is its row-major position |
| `TensorLayout.OdometerStep` | compatmigrate/tensor_layout.go:139-147 | incrementing an axis and clearing those behind it that are at their maximum is the next row-major position |
| `TensorLayout.Tick` | compatmigrate/tensor_layout.go:139-147 | one carry of the odometer moves to the next index in row-major order and keeps `src` equal to the dot product of index and strides |
| `TensorLayout.PermuteTensor` | compatmigrate/tensor_layout.go:107-150 | for every rank, dimensions and permutation: the tensor with element idx taken from the source at s where s[perm[i]] = idx[i]; which error on which bad input |
| `TensorLayout.PermuteCompose` | compatmigrate/tensor_layout.go:107-150 | permuting by p and then q is permuting once by i -> p[q[i]], data and dimensions |
| `TensorLayout.PermuteInverse` | compatmigrate/tensor_layout.go:107-150 | permuting by the inverse restores data and dimensions |
| `TensorLayout.PermuteIdentity` | compatmigrate/tensor_layout.go:107-150 | the identity permutation changes nothing |
| `SliceConcat.SliceTensorDim` | compatmigrate/tensor_layout.go:41-61 | the block copy equals the multi-index slice; which error on which bad input |
| `SliceConcat.ConcatTensorDim` | compatmigrate/tensor_layout.go:69-103 | the interleaved block copy equals the multi-index join; accepts exactly parts of equal rank, equal other dimensions and matching data |
| `SliceConcat.SliceOfJoined` | compatmigrate/tensor_layout.go:41-103 | slicing a join at the cumulative offset of part k returns part k |
| `SliceConcat.JoinedOfPieces` | compatmigrate/tensor_layout.go:41-103 | cutting a tensor into consecutive pieces and joining them returns the tensor |
| `SliceConcat.SplitSourceTensorDim` | compatmigrate/tensor_ops.go:11-52 | equal, consecutive ranges that cover the dimension, one a name; which error otherwise |
| `SliceConcat.SplitPiecesRejoin` | compatmigrate/tensor_ops.go:11-52 | the equal pieces concatenate back to the tensor |
| `PixtralRepack.VisionQKRepack` | compatmigrate/mistral_pixtral.go:186-214 | the triple loop equals permuting [heads, 2, inner, rows] by (0, 2, 1, 3); the exact error conditions |
| `PatchRepack.SplitTemporal` | compatmigrate/qwen3vl.go:233-265 | with the running `dst`, every output element is the one at the stated source; on a full kernel the result is the temporal slice; fails exactly when a source is out of range or the shape is wrong |
| `PatchRepack.HalfIsSlice` | compatmigrate/qwen3vl.go:233-265 | on a full kernel, half t is the slice [t, t + 1) along the temporal dimension of [flat, temporal, height, width], and every source is in range |
| `PatchRepack.ReshapePatchEmbedding` | compatmigrate/nemotron3.go:401-434 | the four nested loops return the data unchanged on every path that does not fail; fails exactly on a wrong length |
| `GlmKvSplit.RepackKVB` | compatmigrate/glm47_flash.go:243-269 | either part of attn_kv_b in both source orders, for every success; succeeds exactly when the data fits the head shape and, if the rank comes first, the source is a matrix of the declared shape; which error if it is not |
| `GlmKvSplit.KeyEntry` | compatmigrate/glm47_flash.go:243-269 | K[h][r][q] = D[h][q][r] |
| `GlmKvSplit.ValueEntry` | compatmigrate/glm47_flash.go:243-269 | V[h][v][r] = D[h][qkNope + v][r] |
| `GlmKvSplit.KeysAndValuesRejoin` | compatmigrate/glm47_flash.go:243-269 | keys swapped back and values, joined, are the source: a partition of it |
| `GlmKvSplit.FlipBack` | compatmigrate/glm47_flash.go:243-269 | the file's own order comes back in both kvFirst cases |
| `GlmKvSplit.PlanFits` | compatmigrate/glm47_flash.go:199-241 | the declared shapes hold exactly the repacked elements, and together the source's |
| `Fp8Decode.Blocks` | create/quantize.go:235-236 | the fewest 128-wide blocks that cover n |
| `Fp8Decode.DecodeAt` | create/quantize.go:247-274 | padding, block reshape, broadcast, restore and slice give the element times the scale of the block at (row / 128, column / 128) |
| `Fp8Decode.DecodeIsElementwise` | create/quantize.go:221-275 | succeeds exactly for rank 2 or 3 with one scale a block, and then every element is as above, whether or not the sides are multiples of 128 |
| `ExpertStack.StackExpertTensors` | create/transform.go:66-80 | concatenates the payloads in order; fails exactly on no sources or a differing dtype |
| `ExpertStack.StackedInput` | create/writer.go:132-169 | the first half of the sources stacks to the weight, the second half to its scale |
| `ExpertStack.StackedAt` | create/transform.go:66-80 | element [e] + idx of the stack is element idx of part e |
| `ExpertStack.DecodeStacked` | create/quantize.go:221-275 | decoding stacked experts with stacked scales is stacking the per-expert decodes |
| `ExpertImport.LoadedStack` | create/transform.go:66-80 | payloads one after the other, in any element width, load as the stack of the arrays that each loads as |
| `ExpertImport.DecodeInput` | create/writer.go:146-160 | the sources of a planned FP8 stack always stack, and the stacked weight and scale decode to the stack of what each expert decodes to by itself |
| `StreamTypes.UsageFromMetrics` | anthropic/anthropic.go:227-239 | uncached and cached tokens are non-negative and add up to the prompt tokens |
| `StreamConverter.Converter.Process` | anthropic/anthropic.go:780-1017 | new state and events of one call are those of the step function |
| `StreamConverter.Converter.constructor` | anthropic/anthropic.go:748-778 | a new converter is in the initial state |
| `StreamClient.FeedConcat` | anthropic/anthropic.go:780-1017 | a client sees a concatenation of event lists as one after the other |
| `StreamClient.RunInStep` | anthropic/anthropic.go:780-1017 | after any chunks that are not the last, the client is inside the message, its open block is the converter's, and its blocks are the reference builder's |
| `StreamClient.CompleteStreamIsWellFormed` | anthropic/anthropic.go:780-1017 | every stream whose last chunk alone is done is accepted from message_start to message_stop, blocks numbered 0, 1, 2, ..., each opened, fed deltas of its type and closed, and leaves exactly the reference blocks, stop reason and usage |
| `StreamAgreement.ToMessagesResponse` | anthropic/anthropic.go:689-726 | thinking, text, then tool calls, with stop reason and usage |
| `StreamAgreement.StreamKeepsText` | anthropic/anthropic.go:780-1017 | in any order of chunks the text blocks concatenate to all content, each tool id has one block at most, and there is one thinking block at most |
| `StreamThinking.StreamKeepsThinking` | anthropic/anthropic.go:780-1017 | in any order of chunks the thinking kept is all that comes before the first text or new call that follows some thinking; later thinking is dropped |
| `StreamThinking.ThinkingStopsOnce` | anthropic/anthropic.go:840-990 | every run has exactly one such place |
| `StreamAgreement.CanonicalIffInOrder` | anthropic/anthropic.go:840-990 | the streamed blocks are one of thinking, one of text and one a call exactly when the model produced them in that order with distinct ids and encoding arguments |
| `StreamAgreement.StreamAgreesIffInOrder` | anthropic/anthropic.go:689-1017 | the client ends with the non-streaming response of the concatenated message exactly under that condition |
| `StreamAgreement.SpeaksThenThinks` | anthropic/anthropic.go:689-1017 | a complete stream with text before thinking, on which the two differ |
| `PlanNames.ParseIsName` | create/plan.go:257-278 | a name parses to (index, projection) exactly if it is the name made of them, so no two names parse alike |
| `PlanNames.AtoiItoa` | create/plan.go:271-277 | a printed index reads back |
| `LayerNames.PerExpertGroupIs` | create/plan.go:309-326 | a name is a weight of group g exactly if g is a layer prefix of the regular expression (create/create.go:248) and a marker, a number and more follow, and it ends in .weight; so no name has two groups |
| `PlanNames.SortedKeys` | create/plan.go:328-339 | the keys in increasing order, each once |
| `PlanExperts.ByProjectionFiles` | create/plan.go:184-197 | filing by projection and index succeeds exactly if every name parses and none repeats, and files each tensor where its name says |
| `PlanExperts.ValidateExpertProjections` | create/plan.go:283-301 | succeeds exactly if every projection covers the same experts 0 to N - 1, and returns N |
| `PlanExperts.HomogeneousExpertBlobs` | create/plan.go:235-252 | one blob for one quantization, otherwise one a tensor |
| `PlanExperts.HomogeneousUses` | create/plan.go:235-252 | either way each tensor is used as often as by the stacks |
| `PlanExperts.PlanExpertGroup` | create/plan.go:183-233 | succeeds exactly if names parse without repeats, indices are contiguous with equal counts, and layouts match; then the stacks of the sorted projections |
| `ExpertConservation.ExpertGroupUses` | create/plan.go:183-233 | a planned group uses each of its tensors once and no other |
| `ExpertConservation.ExpertsInSlots` | create/plan.go:183-233 | every stack of a group has the same number of experts, expert i at slot i |
| `PlanGroups.PlanPlainPart` | create/plan.go:157-167 | one blob for each plain tensor, in order |
| `PlanGroups.PlanGroupPart` | create/plan.go:169-176 | succeeds exactly if every group stacks; the blobs of the groups in order of their names |
| `PlanGroups.GroupPartUses` | create/plan.go:145-177 | the groups use each grouped tensor once and nothing else |
| `FloatPlan.PlanFloat` | create/plan.go:145-177 | the plan is the plain blobs followed by the groups' blobs; fails exactly if a group does not stack |
| `FloatPlan.FloatConserves` | create/plan.go:145-177 | a float plan uses every inventory tensor in exactly one output position |
| `PlanCheck.CheckOutputCollisions` | create/plan.go:124-140 | rejects exactly the plans in which two blobs or two output tensors share a name |
| `Fp8Plan.ScaleUnique` | create/blockfp8.go:173-180 | a block scale belongs to one weight, and is none itself |
| `Fp8Plan.ConsumedScales` | create/blockfp8.go:15-24 | exactly the scales of FP8 weights |
| `Fp8Plan.PlanFp8ExpertGroup` | create/blockfp8.go:94-158 | succeeds exactly if the weights have scales, stack, and match in weight and in scale layout |
| `Fp8Plan.PlanBlockFp8` | create/blockfp8.go:14-87 | own blobs, float groups, FP8 groups, in that order; fails exactly if a group does |
| `Fp8Conservation.Fp8GroupUses` | create/blockfp8.go:94-158 | a decoded group uses its weights and their scales once each |
| `Fp8Conservation.Fp8ExpertsInSlots` | create/blockfp8.go:123-155 | N weights then N scales in the same expert order: expert i's weight at slot i, its scale at slot N + i |
| `Fp8Conservation.Fp8Conserves` | create/blockfp8.go:14-158 | a block-FP8 plan uses every inventory tensor in exactly one output position |
| `PrequantMatch.MatchIs` | create/prequant.go:258-325 | a match fuses the weight and its companions, each once, all sharing the weight's base |
| `PrequantMatch.CompanionsShareBase` | create/prequant.go:48-87 | weights that share a companion share the output name; a stored companion is never a dropped one |
| `PrequantMatch.CompanionIsNoWeight` | create/prequant.go:48-87 | a companion is not matched and does not end in .weight |
| `PrequantPlan.PlanBank` | create/prequant.go:194-249 | succeeds exactly if every expert is a packed NVFP4 weight of one layout and metadata |
| `PrequantPlan.PlanPrequantExpertGroup` | create/prequant.go:184-252 | the bank of words, scales and global scales; fails exactly if the group does not stack or a bank differs |
| `PrequantPlan.PlanPackedOrPlain` | create/prequant.go:145-171 | a group is packed or plain throughout, otherwise rejected |
| `PrequantPlan.PlanPrequantized` | create/prequant.go:94-182 | the groups' blobs, then a blob for each name not consumed; fails exactly if the embedding bits or a group do |
| `PrequantConservation.RestBlobUses` | create/prequant.go:274-323 | a fused blob uses its weight and each stored companion once |
| `PrequantConservation.BankPlanUses` | create/prequant.go:184-252 | a bank uses each expert, its scale and its global scale once |
| `PrequantConservation.BankInSlots` | create/prequant.go:194-249 | the scale and global scale at slot i are those fused with expert i |
| `PrequantUse.PrequantUses` | create/prequant.go:94-182 | in a plan without clashes: dropped activation scales are used never, the scale of a Flint expert with a packed twin twice, every other tensor once |
| `PrequantUse.PrequantConservesIff` | create/prequant.go:94-182 | each kept tensor is used exactly once if and only if no scaled Flint expert has a packed twin |
| `TwinExample.ScaleUsedTwice` | create/prequant.go:132-182 | a model of the names that the regular expression admits, whose plan succeeds without clashes and uses one scale twice |
| `Planner.Plan` | create/plan.go:96-118 | succeeds exactly if the kind's plan exists and no output names collide |
| `Planner.PlanConservesIff` | create/plan.go:96-118 | over all three kinds: every expected tensor is used in exactly one output position if and only if there is no such twin |
| `PlanSlots.PlanInSlots` | create/plan.go:96-118 | in every stack of a successful plan of any kind expert i is at slot i, its scale at slot N + i of a decoded stack, and at slot i of a bank the scale or global scale that its own fused blob stores |
| `GgufFormat.LERoundTrip` | compatmigrate/writer.go:249-255 | little-endian numbers of any width read back |
| `GgufFormat.ValueRoundTrip` | compatmigrate/writer.go:167-297 | every scalar, string, array of scalars and array of strings reads back, whatever follows it |
| `GgufFormat.HeaderRoundTrip` | compatmigrate/writer.go:86-134 | parsing the printed header returns the entries, the tensor infos and the rest |
| `GgufLayout.StableSortSorts` | compatmigrate/writer.go:114-122 | the written order is a permutation sorted by layer and name |
| `GgufLayout.StableSortStable` | compatmigrate/writer.go:114-122 | tensors of one key keep their order |
| `GgufLayout.StableSortUnique` | compatmigrate/writer.go:114-122 | any sorted, stable order is this one |
| `GgufLayout.Padding` | compatmigrate/writer.go:299-301 | the fewest bytes that reach a multiple of the alignment |
| `GgufLayout.OffsetsAligned` | compatmigrate/writer.go:126-134 | every offset is a multiple of the alignment, and each gap is smaller than it |
| `GgufLayout.RangesDisjoint` | compatmigrate/writer.go:126-146 | the tensors' ranges increase and never overlap |
| `GgufWriter.WriteKV` | compatmigrate/writer.go:167-221 | one entry under its full key; fails exactly on an unsupported value, after writing the key |
| `GgufWriter.WriteTensorInfo` | compatmigrate/writer.go:223-247 | one tensor info |
| `GgufWriter.WriteInfos` | compatmigrate/writer.go:126-134 | all tensor infos, with the accumulated offsets |
| `GgufWriter.WritePayloads` | compatmigrate/writer.go:136-146 | every payload stands at the data start plus its offset, and earlier bytes stay |
| `GgufWriter.WriteGGUF` | compatmigrate/writer.go:86-149 | fails exactly without an architecture or on an unsupported value; otherwise the file starts with the header and holds every payload in place |
| `GgufWriter.FileRoundTrip` | compatmigrate/writer.go:86-149 | parsing a written file gives the entries in key order and the infos in sorted order |
| `GgufReader.AlignmentReadIff` | fs/gguf/gguf.go:120-135 | the reader takes the alignment that was written with exactly if the key is missing, a positive unsigned 32-bit or 64-bit number, or 32 of another integer type, or is shadowed by a key of that alignment |
| `GgufReader.SignedAlignment` | compatmigrate/writer.go:42-50 | writable metadata with a signed alignment 64: written with 32, read with 64 |
| `GgufReader.TensorsReadBack` | fs/gguf/gguf.go:103-135 | from any file the writer leaves under that condition, opening it by its own header and reading the range of each tensor that is not empty returns its bytes |
| `GgufWriter.KeysDistinctIff` | compatmigrate/writer.go:167-176 | full keys are distinct unless an unqualified key is also there with the architecture's prefix |
| `GgufWriter.KeyWrittenTwice` | compatmigrate/writer.go:167-176 | architecture "a" with the keys "x" and "a.x", all writable: the header has the key "a.x" twice |
| `GgufWriter.MetadataRoundTrip` | compatmigrate/writer.go:108-112 | with distinct full keys the parsed entries are the metadata under its full keys |
| `QuantBlocks.ScalesUnpackPack` | compatmigrate/tensor_row.go:200-205 | unpacking the sixteen six-bit scales and minimums of any twelve bytes and packing them returns the bytes |
| `QuantBlocks.ScalesPackUnpack` | compatmigrate/tensor_row.go:200-205 | every eight pairs of six-bit numbers are what some twelve bytes unpack to |
| `QuantBlocks.SixUnpackPack` | compatmigrate/tensor_row.go:217-243 | the 192 bytes of a Q6_K block are recovered from its 256 six-bit numbers |
| `QuantBlocks.SixPackUnpack` | compatmigrate/tensor_row.go:217-243 | and any 256 six-bit numbers from the bytes that pack them |
| `QuantBlocks.FiveUnpackPack` | compatmigrate/tensor_row.go:142-153 | the high-bit word and nibbles of a Q5_0 block are recovered from its 32 five-bit numbers |
| `QuantBlocks.FivePackUnpack` | compatmigrate/tensor_row.go:142-153 | and any 32 five-bit numbers from the word and nibbles that pack them |
| `QuantBlocks.WordBytes` | compatmigrate/tensor_row.go:144-144 | four little-endian bytes of a word give the word back |
| `QuantBlocks.BytesOfWord` | compatmigrate/tensor_row.go:144-144 | and a word gives its four bytes back |
| `QuantRows.DecodeQ8_0Block` | compatmigrate/tensor_row.go:121-128 | every output of the block is the closed form; nothing outside it changes |
| `QuantRows.DecodeQ5_0Block` | compatmigrate/tensor_row.go:141-154 | the same, low and high halves with their high bits |
| `QuantRows.DecodeQ4KBlock` | compatmigrate/tensor_row.go:167-196 | the same, with running scale and byte offsets |
| `QuantRows.DecodeQ6KBlock` | compatmigrate/tensor_row.go:216-245 | the same, four interleaved quarters a half |
| `QuantRows.DecodeRow` | compatmigrate/tensor_row.go:112-247 | the row decoders: fail exactly on a partial block or a wrong length; element k is the closed form of its block |
| `QuantRows.DecodeFloatTensor` | compatmigrate/source_tensor.go:265-292 | one element for each whole width of bytes, by its own bytes; a rest is ignored |
| `QuantRows.DecodeTensorRow` | compatmigrate/tensor_row.go:88-110 | float rows succeed exactly with the wanted number of elements, quantized ones exactly with the wanted bytes; other types are refused |
| `QuantRows.DecodeTensorData` | compatmigrate/tensor_ops.go:341-379 | decoding a quantized tensor row by row equals decoding all the bytes as one row, with the exact error conditions; floats element by element, whatever the shape |
| `QuantRows.ElementOfRow` | compatmigrate/tensor_ops.go:366-375 | element k of a row is the tensor's element at row * cols + k |
| `QuantRows.ExtractRow` | compatmigrate/tensor_row.go:30-80 | fetching one row by its offset, of float or quantized tensors, succeeds exactly if the row exists, its blocks are whole and the file reaches its end |
| `QuantRows.RowOfWhole` | compatmigrate/tensor_row.go:46-80 | a row fetched by offset equals that row of the whole decoded tensor |
| `PositionEmbedding.SquareSide` | compatmigrate/nemotron3.go:436-445 | the side of a square, or 0 for a number that is none |
| `PositionEmbedding.Normalize` | compatmigrate/nemotron3.go:353-373 | the grid vector by vector, whatever its layout |
| `PositionEmbedding.Downsample` | compatmigrate/nemotron3.go:283-351 | fails exactly on an unsupported shape, length or data size; otherwise the one resampled grid, also through the equal-side shortcut |
| `PositionLayouts.ReadsMatrix` | compatmigrate/nemotron3.go:310-325 | a matrix stored in [length, positions], [1, positions, length] or [length, positions, 1] is read as that matrix, and in [positions, length] if its length is no square |
| `PositionLayouts.ReadsEveryMatrixIff` | compatmigrate/nemotron3.go:263-281 | a storage is read as the matrix in it, for every matrix, exactly unless it is [positions, length] with a square length and more than one number |
| `PositionLayouts.LayoutsAgreeIff` | compatmigrate/nemotron3.go:283-351 | two accepted storages give one output, for every matrix, exactly if neither is [positions, length], or the length is no square, or there is one number, or a wanted length other than the number of positions has [positions, length] refused |
| `PositionLayouts.FourByFour` | compatmigrate/nemotron3.go:263-281 | a matrix whose two [4, 4] storages are both accepted at length 4, with different outputs at every target side |
| `PositionLayouts.NineByFour` | compatmigrate/nemotron3.go:263-281 | without a length, [9, 4] and [4, 9] of every matrix are accepted, with outputs of different sizes |
| `PositionEmbedding.AlignBound` | compatmigrate/nemotron3.go:375-380 | source coordinates stay on the grid; first on first, last on last |
| `PositionEmbedding.BetweenNeighbours` | compatmigrate/nemotron3.go:327-349 | each output lies between the least and greatest of its four neighbours |
| `PositionEmbedding.CornersKept` | compatmigrate/nemotron3.go:327-349 | grid corners are kept exactly |
| `PositionEmbedding.SameSideKept` | compatmigrate/nemotron3.go:306-308 | at the same side the interpolation changes nothing |
| `BackendCopies.SameAnswer` | discover/backend_copies.go:74-85 | on the partly compacted array every test answers as on the original list |
| `BackendCopies.OnePerGPU` | discover/backend_copies.go:74-76 | compacting in place leaves the order-preserving filter over the original list and clears the rest |
| `BackendCopies.BackendCopiesOf` | discover/backend_copies.go:98-109 | exactly the dropped copies, in order |
| `BackendCopies.KeptAndCopies` | discover/backend_copies.go:72-109 | kept devices and copies partition the list |
| `BackendCopies.KeptIsOnePerGPU` | discover/backend_copies.go:72-85 | no two kept devices are copies of one GPU, each dropped device has its GPU kept, and filtering again changes nothing |
| `Utf8.CutAtStart` | cmd/speech.go:204-214 | bytes decode as their two parts wherever the second starts with no continuation byte, well-formed or not |
| `Utf8.EndCuts` | cmd/speech.go:211-214 | the bytes of the first k decoded runes decode to exactly those |
| `Utf8.LastIsLast` | cmd/speech.go:206-206 | the last rune as trimming finds it, from the end, is the last of those decoded from the start |
| `Speech.LastSentenceEnd` | cmd/speech.go:229-236 | the last sentence end, or -1 |
| `Speech.SpeechCutIs` | cmd/speech.go:189-196 | text is cut exactly if it has a paragraph end, or a sentence end after at least 100 runes, and then at the last of either |
| `Speech.CutBetweenRunes` | cmd/speech.go:167-175 | whatever is read later, the runes of all the text are those before the cut and those behind it, even if what was read ends inside a rune |
| `Speech.NothingMoreToCut` | cmd/speech.go:170-175 | what is held back after a cut would not be cut again |
| `Speech.ChunkEndIs` | cmd/speech.go:207-220 | a chunk takes whole runes, at least one and at most limit |
| `Speech.SpeechChunks` | cmd/speech.go:203-225 | the cutting loop terminates and yields the chunks of each paragraph |
| `Speech.ChunksCarry` | cmd/speech.go:203-225 | chunks are nonempty, trimmed and within the limit in runes, and carry exactly the text's non-blank runes in order |
| `Speech.SpeechPieces` | cmd/speech.go:152-184 | for all bytes and every way they are read, also ending inside a rune, the pieces are fit and carry exactly the non-blank runes of the whole input in order |
| `Confidence.Reordered` | decision/systemone.go:316-322 | logits scored in another order go back to their choices |
| `Confidence.Probabilities` | decision/systemone.go:323-337 | positive probabilities that sum to one, and the expected position |
| `Confidence.WinnerIsTopLogit` | decision/systemone.go:367-385 | the winner is the first maximal logit |
| `Confidence.ScoreInRange` | decision/systemone.go:333-337 | the expected score lies between 0 and n - 1 |
| `Confidence.KevConfidence` | decision/kev.go:240-261 | the lead of the first mode over uniform, or the focus around it; 1 for a single choice |
| `Confidence.PplxConfidence` | decision/systemone.go:366-384 | the clamped lead or the focus around the first winner; as a formula no number for a one-level score, which no accepted request has |
| `Confidence.ModeAboveUniform` | decision/kev.go:250-253 | the mode has at least probability 1 / n, so kev needs no clamp |
| `Confidence.BothConfidences` | decision/systemone.go:362-384 | on every distribution kev lies in [0, 1], and on every request that pplx accepts (for a score 2 to 10 levels, decision/systemone.go:46-54) the two are the same number; the formulas differ exactly for a one-level score |

## Left out

- Go's integer widths in shapes, sizes, offsets and expert indices: numbers are unbounded, except in the block decoders, which use bit-vectors.
- Floating point: element arithmetic is uninterpreted; position embeddings and confidences are over the reals, so rounding, overflow, NaN logits and `roundKev` are not modelled.
- `StreamConverter.Converter.Process`: HTTP and server-sent-event framing; tool arguments encode by an arbitrary partial function.
- `GgufWriter.WriteGGUF`: a tensor's layer index is given, not read from its name; the list and the offsets in its tensors are values, so sorting and assigning them in place is not captured; payload writers write exactly their size, one after the other instead of concurrently; a failing write is not modelled; a zero alignment, which divides by zero, is excluded.
- `GgufFormat.ValueRoundTrip`: nested arrays, which the writer never produces.
- `GgufReader.TensorsReadBack`: the reader's limits on strings, arrays and dimensions, its older versions and big-endian files, and looking tensors up by name; a tensor's size is an arbitrary function of its kind and shape.
- `Planner.Plan`: the plans are modelled for any predicate of layer prefixes, of which the regular expression is one; inventories in which a key differs from its tensor's name, the unsupported-kind error, and the quantization policy, which is an arbitrary function; error messages are reduced to their kind.
- `PrequantMatch.MatchIs`: case folding covers the letters A to Z, all that the compared dtypes contain.
- `PrequantPlan.PlanPrequantized`: parsing config.json; its results are parameters.
- `Fp8Decode.DecodeIsElementwise`: MLX arrays, their dtypes and threads; the array operations have their numpy meaning.
- `ExpertImport.DecodeInput`: the safetensors wrapping between writer and decoder; loading reads each element from its own bytes.
- `QuantRows.DecodeRow`: the four row decoders share one loop over blocks, and the three float decoders one over elements; the block bodies are separate methods.
- `PositionEmbedding.SquareSide`: the floating-point square root, taken to be correct.
- `PatchRepack.SplitTemporal`: a channel count of zero, by which the code would divide.
- `BackendCopies.OnePerGPU`: parsing PCI IDs, which is an arbitrary partial function; locking and discovery.
- `Speech.SpeechPieces`: the channel and cancellation, and a limit below 1, for which the loop would not end.
- `Confidence.Probabilities`: the noul answers, legends and the entropy-based confidence of System One.
- File and blob storage, model metadata tables, capability inference, HTTP clients, the command line and device probing.
