# gf-layers core, modelled in Dafny

gf-layers is a set of Vulkan layers (an Amber-file "scoop" layer that captures
draw calls, a frame counter, a shader fuzzer) plus the Python scripts that
generate their build artifacts. This project models the parts of it that hold
logic rather than plumbing, and proves what they promise.

- **Artifact generators.** `generate_files.py` reads a layer's identity from
  tagged comments in its C++ sources and its exported entry points. It renders
  three JSON loader manifests (Unix, Darwin, Windows) and four export lists
  (MSVC `.def`, Apple `.exports`, GNU ld `.lds` and its Android variant). It
  either writes them or, with `--check_only`, compares them with the files on
  disk (modules `LayerManifests`, `LinkerScripts`, `GenerateFiles`).
  `generate_open_cl.py` walks the OpenCL command registry. It renders
  function-pointer typedefs, struct fields, `LoadFunction` lines, forwarding
  wrappers and a Linux version script (module `GenerateOpenCl`). The file
  system is a map from path to contents. XML elements and the matches of the
  export regex are inputs, decoded by total functions that fail where the
  script's assertions fail.
- **Amber-scoop data logic.** The Vulkan format-name parser (`VulkanFormats`).
  The element writer, whose file is a byte sequence (`BufferToFile`). The
  descriptor-write spill-over rule (`DescriptorSetData`). The command-buffer
  reset-on-reuse state machine (`CommandBufferData`, `VulkanCommands`). The
  draw-call capture window, file name and RUN line (`DrawCallTracker`). The
  layer's submit replay, shader-module map and layer enumeration
  (`AmberScoopLayer`, `VulkanLayer`). Also the shader-module lifetime
  (`ShaderModuleData`), `CopyArray` (`VkDeepCopy`) and the memory-type search
  (`BufferCopy`).
- **Utilities.** The SPIR-V version word (`Spirv`). The two keyed maps of
  `util.h` (`Util`). The frame counter's present-counting state machine and
  report (`FrameCounterLayer`).
- **Helpers.** `Wrappers` holds `Option` and `Result`. `Text` holds Python's
  `strip`, `join` and `split`, decimal rendering and parsing, and the
  space-collapsing substitution.

Objects whose fields the source updates in place are classes with `modifies`
clauses: `LayerProperties`, the file system, the writer, the maps, the
trackers and the layers' global data. Their methods are proved against
specification functions, and the lemmas state what those functions promise.

## Model

| member | source | states |
|---|---|---|
| Spirv.VersionWord | src/gf_layers_layer_util/src/spirv.cc:23-26 | the low and the high byte of the word are zero; bits 16–23 hold the major part and bits 8–15 the minor part |
| Spirv.PartsOfVersionWord | src/gf_layers_layer_util/src/spirv.cc:23-36 | round trip: the major and the minor part read back out of a packed word are the parts packed in, for every pair of bytes |
| Spirv.VersionWordOfParts | src/gf_layers_layer_util/src/spirv.cc:23-36 | converse round trip: a word whose outer bytes are zero is the version word of its own major and minor parts |
| Spirv.MajorPart | src/gf_layers_layer_util/src/spirv.cc:28-31 | the major part is bits 16–23 of the version word |
| Spirv.MinorPart | src/gf_layers_layer_util/src/spirv.cc:33-36 | the minor part is bits 8–15 of the version word |
| VkDeepCopy.AsWrittenZeroOffsetInBounds | src/VkLayer_GF_amber_scoop/include/VkLayer_GF_amber_scoop/vk_deep_copy.h:43-46 | with offset zero, the only form the layer uses, every read and write of the loop as written stays inside both arrays |
| VkDeepCopy.AsWrittenOffsetOverruns | src/VkLayer_GF_amber_scoop/include/VkLayer_GF_amber_scoop/vk_deep_copy.h:34-38 | with any positive offset, the loop as written (bound `num_elements`) writes past the end of the `num_elements - offset` result |
| VkDeepCopy.CopyArray | src/VkLayer_GF_amber_scoop/include/VkLayer_GF_amber_scoop/vk_deep_copy.h:24-40 | a null source gives null; otherwise a fresh array of `num_elements` elements, element `i` copied from source element `i + offset`, as the header comment documents |
| VkDeepCopy.CopyWholeArray | src/VkLayer_GF_amber_scoop/include/VkLayer_GF_amber_scoop/vk_deep_copy.h:43-46 | a null source gives null; otherwise a fresh copy of the first `num_elements` elements |
| VkDeepCopy.AsWrittenAccessesInBounds | src/VkLayer_GF_amber_scoop/include/VkLayer_GF_amber_scoop/vk_deep_copy.h:34-38 | the copy loop as written (`i` from 0 to `num_elements - 1`, reading `i + offset`, writing `i` into `num_elements - offset` elements) stays inside both arrays |
| VkDeepCopy.IterationInBounds | src/VkLayer_GF_amber_scoop/include/VkLayer_GF_amber_scoop/vk_deep_copy.h:35-37 | iteration `i` writes inside the result and reads inside the source |
| BufferCopy.FindMemoryType | src/VkLayer_GF_amber_scoop/src/buffer_copy.cc:195-204 | the result is the smallest index allowed by `memory_type_bits` whose flags include every required flag; `None` (where the source aborts) exactly when no index below `memoryTypeCount` qualifies |
| BufferCopy.Suitable | src/VkLayer_GF_amber_scoop/src/buffer_copy.cc:195-199 | memory type `idx` is allowed by `memory_type_bits` and its property flags include every required flag |
| Util.ProtectedMap.constructor | src/gf_layers_layer_util/include/gf_layers_layer_util/util.h:106 | a new map is empty |
| Util.ProtectedMap.Count | src/gf_layers_layer_util/include/gf_layers_layer_util/util.h:117-120 | `count` is at most 1, and is 1 exactly when the key is present |
| Util.ProtectedMap.Get | src/gf_layers_layer_util/include/gf_layers_layer_util/util.h:122-130 | the stored value for a present key; null exactly when the key is absent |
| Util.ProtectedMap.Put | src/gf_layers_layer_util/include/gf_layers_layer_util/util.h:132-135 | inserts exactly when the key is absent and says so; an existing value is never replaced |
| Util.ProtectedMap.Update | src/VkLayer_GF_amber_scoop/src/amber_scoop_layer.cc:88-100 | writing through the pointer `get` returned replaces that key's value and no other entry |
| Util.ProtectedMap.Erase | src/VkLayer_GF_amber_scoop/src/amber_scoop_layer.cc:266-271 | erasing through `access()` removes that key and leaves every other entry |
| Util.FirstPutWins | src/gf_layers_layer_util/include/gf_layers_layer_util/util.h:132-135 | a second `put` for the same key reports no insertion, and `get` still returns the first value |
| Util.ProtectedTinyStaleMap.constructor | src/gf_layers_layer_util/include/gf_layers_layer_util/util.h:101-106 | the map is empty and the cache holds the value-initialised key with a null pointer |
| Util.ProtectedTinyStaleMap.Get | src/gf_layers_layer_util/include/gf_layers_layer_util/util.h:52-93 | a key equal to the cached key returns the cached pointer without looking in the map and leaves the cache alone; any other key is looked up and cached with its result, null included; a non-null result is the stored value; the map never changes |
| Util.ProtectedTinyStaleMap.Put | src/gf_layers_layer_util/include/gf_layers_layer_util/util.h:95-98 | `put` overwrites the key's value and changes nothing else; a cached non-null pointer stays valid because nothing is removed |
| Util.StaleMissAfterPut | src/gf_layers_layer_util/include/gf_layers_layer_util/util.h:74-92 | a cached miss persists: `get` then `put` then `get` of the same key returns null both times |
| Util.PutVisibleAfterOtherLookup | src/gf_layers_layer_util/include/gf_layers_layer_util/util.h:74-92 | looking up a different key in between refreshes the cache, so the stored value becomes visible |
| ShaderModuleData.ShaderModuleData.constructor | src/VkLayer_GF_amber_scoop/include/VkLayer_GF_amber_scoop/shader_module_data.h:35-36 | a new record has no pipelines, is not destroyed and is not in use |
| ShaderModuleData.ShaderModuleData.AddPipeline | src/VkLayer_GF_amber_scoop/include/VkLayer_GF_amber_scoop/shader_module_data.h:47-50 | the pipeline set grows by exactly that pipeline (set insertion, so adding twice is adding once) and loses nothing |
| ShaderModuleData.ShaderModuleData.IsInUse | src/VkLayer_GF_amber_scoop/include/VkLayer_GF_amber_scoop/shader_module_data.h:56-59 | in use exactly when some pipeline uses the module and it is not destroyed; a destroyed module is never in use |
| ShaderModuleData.ShaderModuleData.SetDestroyed | src/VkLayer_GF_amber_scoop/include/VkLayer_GF_amber_scoop/shader_module_data.h:63 | the module is destroyed and no longer in use; no operation clears the flag |
| ShaderModuleData.ShaderModuleData.InUse | src/VkLayer_GF_amber_scoop/include/VkLayer_GF_amber_scoop/shader_module_data.h:56-59 | a module is in use when some pipeline uses it and it has not been destroyed |
| CommandBufferData.AddedKeepsConsistent | src/VkLayer_GF_amber_scoop/src/command_buffer_data.cc:24-37 | after `AddCommand` the buffer is not submitted, the command is last, preceded by the list since the last reset (empty after a submit), and the draw flag says whether the list has a draw call |
| CommandBufferData.RecordedIntoFresh | src/VkLayer_GF_amber_scoop/src/command_buffer_data.cc:24-37 | recording a list of commands into a fresh tracker holds exactly that list, in order, with the draw flag set exactly when one of them is a draw call |
| CommandBufferData.AddAfterSubmitStartsOver | src/VkLayer_GF_amber_scoop/src/command_buffer_data.cc:27-31 | after a submit, the next command starts a new one-element list |
| CommandBufferData.CommandBufferData.constructor | src/VkLayer_GF_amber_scoop/include/VkLayer_GF_amber_scoop/command_buffer_data.h:61-66 | a new tracker is not submitted, has no draw calls and an empty list |
| CommandBufferData.CommandBufferData.AddCommand | src/VkLayer_GF_amber_scoop/src/command_buffer_data.cc:24-37 | the new state is the reset-then-append state `Added` of the old one, and the draw flag stays in step with the list |
| CommandBufferData.CommandBufferData.SetSubmitted | src/VkLayer_GF_amber_scoop/include/VkLayer_GF_amber_scoop/command_buffer_data.h:52 | only the submitted flag changes |
| CommandBufferData.CommandBufferData.ContainsDrawCalls | src/VkLayer_GF_amber_scoop/include/VkLayer_GF_amber_scoop/command_buffer_data.h:42 | true exactly when a command in the list is a draw call |
| CommandBufferData.Consistent | src/VkLayer_GF_amber_scoop/src/command_buffer_data.cc:24-37 | the draw-call flag says whether the recorded list holds a draw call |
| CommandBufferData.Added | src/VkLayer_GF_amber_scoop/src/command_buffer_data.cc:24-37 | `AddCommand` on a state: a submitted buffer is cleared first, then the command is appended and the flag raised for a draw call |
| CommandBufferData.Submitted | src/VkLayer_GF_amber_scoop/include/VkLayer_GF_amber_scoop/command_buffer_data.h:52 | `SetSubmitted` on a state sets the submitted flag only |
| CommandBufferData.Recorded | src/VkLayer_GF_amber_scoop/src/command_buffer_data.cc:24-37 | the state after `AddCommand` of each command of a list, in order |
| VulkanCommands.HasDrawCallSome | src/VkLayer_GF_amber_scoop/src/command_buffer_data.cc:32-35 | the recursive draw-call test holds exactly when some command of the list is a `kDraw` or `kDrawIndexed` |
| VulkanCommands.DrawArgsOf | src/VkLayer_GF_amber_scoop/src/vulkan_commands.cc:41-51 | a non-indexed draw passes zero for the index pair and its own vertex pair; an indexed draw passes zero for the vertex pair and its own index pair; both pass their instance pair |
| VulkanCommands.DrawCallsOf | src/VkLayer_GF_amber_scoop/src/amber_scoop_layer.cc:326-330 | replaying a list yields at most one draw per command, and none exactly when the list has no draw call |
| VulkanCommands.DrawCallsOfAppend | src/VkLayer_GF_amber_scoop/src/amber_scoop_layer.cc:326-330 | the draws replayed from two lists in a row are those of the first followed by those of the second |
| VulkanCommands.IsDrawCall | src/VkLayer_GF_amber_scoop/include/VkLayer_GF_amber_scoop/vulkan_commands.h:43-44 | the command kinds that count as draw calls are `kDraw` and `kDrawIndexed` |
| VulkanCommands.HasDrawCall | src/VkLayer_GF_amber_scoop/src/command_buffer_data.cc:32-35 | whether some command of a list is a draw call; the flag `AddCommand` keeps is tied to it |
| BufferToFile.AsWrittenCheck | src/VkLayer_GF_amber_scoop/src/buffer_to_file.cc:41-45 | the bounds check as written (a 64-bit sum) rejects only reads that really reach past the data, and agrees with the exact check whenever the sum is below 2^64 |
| BufferToFile.AsWrittenCheckWraps | src/VkLayer_GF_amber_scoop/src/buffer_to_file.cc:41-45 | an offset of 2^64 - 1 with a one-byte element wraps the sum to zero, so the check as written passes a read of empty data |
| BufferToFile.ElementBytes | src/VkLayer_GF_amber_scoop/src/buffer_to_file.cc:37-39 | the bytes per element are the total width in bits divided by 8, rounded down |
| BufferToFile.Vec3ElementWrittenAsVec4 | src/VkLayer_GF_amber_scoop/src/buffer_to_file.cc:50-56 | a three-component element of equal whole-byte widths takes the room of four components once its padding is written |
| BufferToFile.Writer.constructor | src/VkLayer_GF_amber_scoop/src/buffer_to_file.cc:25-31 | the file starts empty (opened with truncation) |
| BufferToFile.Writer.WriteComponents | src/VkLayer_GF_amber_scoop/src/buffer_to_file.cc:33-57 | fails, writing nothing, exactly when the element reaches past the data; otherwise the stream grows by exactly the element's bytes copied from the read offset followed by `GetPaddingBytes` zero bytes, and what was written before is kept |
| BufferToFile.ReadsOutside | src/VkLayer_GF_amber_scoop/src/buffer_to_file.cc:41-45 | the intended bounds check: an element of `bytes` bytes at `read_offset` reaches past the end of the data |
| BufferToFile.ReadsOutsideAsWritten | src/VkLayer_GF_amber_scoop/src/buffer_to_file.cc:41-45 | the bounds check as written: the offset plus the element size, summed modulo 2^64, exceeds the data size |
| DescriptorSetData.GetFlattenedDescriptorType | src/VkLayer_GF_amber_scoop/src/descriptor_set_data.cc:31-67 | the five image/sampler types give `IMAGE_SAMPLER`, the two texel-buffer types `TEXEL_BUFFER`, the four buffer types `BUFFER`, the rest `UNSUPPORTED`, and `MAX_ENUM` fails; each as an if-and-only-if against the Vulkan rule for which array a write reads |
| DescriptorSetData.Counts | src/VkLayer_GF_amber_scoop/src/descriptor_set_data.cc:139-141 | one `descriptorCount` per binding, in binding order |
| DescriptorSetData.Positions | src/VkLayer_GF_amber_scoop/src/descriptor_set_data.cc:130-155 | the walk of a write of `n` descriptors, when it stays within the bindings, visits exactly `n` slots |
| DescriptorSetData.SlotsFrom | src/VkLayer_GF_amber_scoop/src/descriptor_set_data.cc:122-129 | every slot of binding-then-element order from a binding on names an existing element of an existing binding |
| DescriptorSetData.PositionsAreSlotRun | src/VkLayer_GF_amber_scoop/src/descriptor_set_data.cc:122-155 | spill-over rule: the loop fills the `n` slots that follow the start slot in binding-then-element order, skipping bindings with no elements |
| DescriptorSetData.PositionsIncrease | src/VkLayer_GF_amber_scoop/src/descriptor_set_data.cc:132-155 | the filled slots are strictly increasing from the start slot on and all exist, so no slot is written twice |
| DescriptorSetData.SkipExhausted | src/VkLayer_GF_amber_scoop/src/descriptor_set_data.cc:139-149 | the inner loop stops at an element that exists, and the slots still to be filled are unchanged |
| DescriptorSetData.StoreDescriptors | src/VkLayer_GF_amber_scoop/src/descriptor_set_data.cc:130-155 | the loop's result is the bindings with `pBufferInfo[i]` stored at the `i`-th slot of the walk |
| DescriptorSetData.WrittenSlots | src/VkLayer_GF_amber_scoop/src/descriptor_set_data.cc:150-154 | when no slot repeats, each written slot holds its descriptor and every other element keeps its value |
| DescriptorSetData.DescriptorSetData.constructor | src/VkLayer_GF_amber_scoop/src/descriptor_set_data.cc:70-98 | exactly the `BUFFER` bindings get a vector, of `descriptorCount` default descriptors |
| DescriptorSetData.DescriptorSetData.WriteDescriptorSet | src/VkLayer_GF_amber_scoop/src/descriptor_set_data.cc:100-165 | image/sampler and texel-buffer writes fail; an unsupported write changes nothing; a buffer write leaves the bindings of `Written` over the walk's slots; the bindings keep their shape |
| DescriptorSetData.DescriptorSetData.WriteBuffers | src/VkLayer_GF_amber_scoop/src/descriptor_set_data.cc:121-157 | the `BUFFER` case: the bindings become `Written` over the walk's slots |
| DescriptorSetData.BufferWriteEffect | src/VkLayer_GF_amber_scoop/src/descriptor_set_data.cc:121-157 | after a buffer write the `i`-th descriptor sits in the `i`-th slot after the start in binding-then-element order, and every other element is unchanged |
| DescriptorSetData.ReadsImageInfo | src/VkLayer_GF_amber_scoop/src/descriptor_set_data.cc:34-42 | the types whose writes read `pImageInfo`: sampler, combined image sampler, sampled image, storage image, input attachment |
| DescriptorSetData.ReadsTexelBufferView | src/VkLayer_GF_amber_scoop/src/descriptor_set_data.cc:44-49 | the types whose writes read `pTexelBufferView`: uniform and storage texel buffers |
| DescriptorSetData.ReadsBufferInfo | src/VkLayer_GF_amber_scoop/src/descriptor_set_data.cc:51-58 | the types whose writes read `pBufferInfo`: uniform and storage buffers, dynamic or not |
| DescriptorSetData.IsBufferBinding | src/VkLayer_GF_amber_scoop/src/descriptor_set_data.cc:85-89 | a binding whose type flattens to `BUFFER`: the only kind the constructor gives a descriptor vector |
| DescriptorSetData.PositionsStep | src/VkLayer_GF_amber_scoop/src/descriptor_set_data.cc:150-154 | from an element inside its binding, the walk's first slot is that element, and the rest of the walk starts at the next element |
| DescriptorSetData.Before | src/VkLayer_GF_amber_scoop/src/descriptor_set_data.cc:132-155 | binding-then-element order on slots: an earlier binding, or the same binding and an earlier element |
| DescriptorSetData.SlotsIn | src/VkLayer_GF_amber_scoop/src/descriptor_set_data.cc:150-152 | every slot names an element that exists in a buffer binding's vector |
| DescriptorSetData.Written | src/VkLayer_GF_amber_scoop/src/descriptor_set_data.cc:150-154 | the buffer bindings after `infos[i]` was stored at slot `i`, one slot after another. The same bindings stay, each with its length. `WrittenSlots` states what each element then holds |
| DescriptorSetData.WrittenStep | src/VkLayer_GF_amber_scoop/src/descriptor_set_data.cc:150-152 | storing one more descriptor changes only the element at that slot, which gets `infos[i]` |
| DescriptorSetData.WriteSlot | src/VkLayer_GF_amber_scoop/src/descriptor_set_data.cc:150-154 | storing the `i`-th descriptor of the walk at its slot, then moving one element on, keeps the rest of the walk and gives the bindings written over the first `i + 1` slots |
| DescriptorSetData.DescriptorSetData.BufferWriteFits | src/VkLayer_GF_amber_scoop/src/descriptor_set_data.cc:130-155 | what the buffer loop needs to stay defined: the walk stays inside the layout (the debug assertion at lines 145-148), every binding it reaches is a buffer binding, and `pBufferInfo` has `descriptorCount` entries |
| DescriptorSetData.DescriptorSetData.FitsInBindings | src/VkLayer_GF_amber_scoop/src/descriptor_set_data.cc:130-155 | a write that fits names only existing elements of the buffer bindings, and has a descriptor for each slot |
| VulkanFormats.VkFormatToAmberFormatName | src/VkLayer_GF_amber_scoop/src/vulkan_formats.cc:38-429 | a format maps only to an Amber-supported name, which is the enumerator's name with `VK_FORMAT_` removed; any other format fails |
| VulkanFormats.AmberNameOfFormat | src/VkLayer_GF_amber_scoop/src/vulkan_formats.cc:38-425 | conversely, every format of the table maps to its Amber name |
| VulkanFormats.Letter | src/VkLayer_GF_amber_scoop/src/vulkan_formats.cc:533-559 | the letter written for a component name is recognised by the backward scan as that name |
| VulkanFormats.StrToUll | src/VkLayer_GF_amber_scoop/src/vulkan_formats.cc:570-572 | `strtoull` always yields a 64-bit value |
| VulkanFormats.StrToUllOfDecimal | src/VkLayer_GF_amber_scoop/src/vulkan_formats.cc:570-572 | a decimal number followed by a non-digit reads back as itself |
| VulkanFormats.DigitRunOfDecimal | src/VkLayer_GF_amber_scoop/src/vulkan_formats.cc:570-572 | reading the digits of the decimal rendering of `n` gives `n` |
| VulkanFormats.ScanBack | src/VkLayer_GF_amber_scoop/src/vulkan_formats.cc:533-559 | the inner scan stops at a component letter at or before the start position, or runs off the front |
| VulkanFormats.ComponentsUpToAborts | src/VkLayer_GF_amber_scoop/src/vulkan_formats.cc:560-577 | a chunk with no letter left to the left aborts with "Format not supported."; a width that reads as 0 aborts with "Unable to parse color component width." |
| VulkanFormats.ComponentsUpToFound | src/VkLayer_GF_amber_scoop/src/vulkan_formats.cc:567-581 | a letter found with a non-zero width adds one component (its width cut to 16 bits, `format_mode` left zero) in front of those parsed so far, and the parse goes on to the left of the letter |
| VulkanFormats.ComponentsOfRendered | src/VkLayer_GF_amber_scoop/src/vulkan_formats.cc:525-582 | round trip: parsing a component chunk such as `A2B10G10R10` gives back its components in left-to-right order |
| VulkanFormats.ChunkStepOfRendered | src/VkLayer_GF_amber_scoop/src/vulkan_formats.cc:467-582 | a component chunk puts its components in front of those already parsed and leaves the pack size and the current type alone |
| VulkanFormats.ChunkStepOfComponents | src/VkLayer_GF_amber_scoop/src/vulkan_formats.cc:525-582 | a chunk starting with a component letter is parsed as components and nothing else |
| VulkanFormats.TypeName | src/VkLayer_GF_amber_scoop/src/vulkan_formats.cc:487-523 | each type chunk (`UINT` … `SRGB`, `S8`) sets the current type and nothing else, so the `S8` of `S8_UINT` is a type, not a component |
| VulkanFormats.NoSeparatorInRendered | src/VkLayer_GF_amber_scoop/src/vulkan_formats.cc:455-457 | a component chunk holds no `_`, so the split on `_` keeps it whole |
| VulkanFormats.NameLayoutOfComponentsAndType | src/VkLayer_GF_amber_scoop/src/vulkan_formats.cc:455-465 | round trip: a name made of a component chunk and a type chunk parses, right to left, to those components, that type and no pack size |
| VulkanFormats.SumWidths16 | src/VkLayer_GF_amber_scoop/src/vulkan_formats.cc:437-439 | the total width kept in a `uint16_t` stays below 2^16 |
| VulkanFormats.SumWidths16Exact | src/VkLayer_GF_amber_scoop/src/vulkan_formats.cc:437-439 | below 2^16 bits in all, the 16-bit total is the sum of the component widths |
| VulkanFormats.PaddingBytes | src/VkLayer_GF_amber_scoop/src/vulkan_formats.cc:442-453 | padding fits a `uint8_t` and is non-zero only for an unpacked three-component format |
| VulkanFormats.Vec3PaddedToVec4 | src/VkLayer_GF_amber_scoop/src/vulkan_formats.cc:442-453 | for a vec3 of equal whole-byte widths, the element's bytes and the padding make four components (e.g. `R32G32B32_SFLOAT` pads 4) |
| VulkanFormats.VulkanFormat.constructor | src/VkLayer_GF_amber_scoop/src/vulkan_formats.cc:431 | the fields start zero: no pack size, no width, no components |
| VulkanFormats.VulkanFormat.IsPackedFormat | src/VkLayer_GF_amber_scoop/include/VkLayer_GF_amber_scoop/vulkan_formats.h:60 | packed exactly when the pack size is non-zero |
| VulkanFormats.VulkanFormat.Create | src/VkLayer_GF_amber_scoop/src/vulkan_formats.cc:431-440 | succeeds exactly when the format has an Amber name and the name parses; the result holds that name, the parsed pack size and components, and the 16-bit sum of the widths |
| VulkanFormats.VulkanFormat.AddWidths | src/VkLayer_GF_amber_scoop/src/vulkan_formats.cc:437-439 | the loop leaves the 16-bit sum of the component widths in the total |
| VulkanFormats.VulkanFormat.ParseName | src/VkLayer_GF_amber_scoop/src/vulkan_formats.cc:455-465 | succeeds exactly when the name's chunks, parsed right to left from `kSInt`, all parse; the pack size and components are then that parse's |
| VulkanFormats.VulkanFormat.ParseChunk | src/VkLayer_GF_amber_scoop/src/vulkan_formats.cc:467-523 | `PACK8/16/32` set the pack size, `U…`/`S…` chunks the current type, an unknown `P`/`U`/`S` chunk fails; anything else is a component chunk; the new fields and type are those of `ChunkStep` |
| VulkanFormats.VulkanFormat.ParseComponents | src/VkLayer_GF_amber_scoop/src/vulkan_formats.cc:525-582 | the backward loop inserts the chunk's components at the front in left-to-right order, or fails as `ComponentsUpTo` does |
| VulkanFormats.IsAmberFormatName | src/VkLayer_GF_amber_scoop/src/vulkan_formats.cc:38-429 | the Amber names of the formats the table knows, each the enumerator's name without its `VK_FORMAT_` prefix. `AmberNameOfFormat` proves every such name is found |
| VulkanFormats.ComponentName | src/VkLayer_GF_amber_scoop/src/vulkan_formats.cc:533-559 | the component a letter names: `X`, `D`, `R`, `G`, `B` or `A`; `None` for any other character. `Letter` proves it inverts the letter of each component |
| VulkanFormats.IsCSpace | src/VkLayer_GF_amber_scoop/src/vulkan_formats.cc:572 | C's `isspace` in the "C" locale: the space and tab through carriage return |
| VulkanFormats.DropCSpace | src/VkLayer_GF_amber_scoop/src/vulkan_formats.cc:572 | what `strtoull` skips before the number: leading C white space |
| VulkanFormats.DigitRun | src/VkLayer_GF_amber_scoop/src/vulkan_formats.cc:572 | the value of the run of digits at the start of the text, read left to right. `DigitRunOfDecimal` proves it reads a decimal rendering back |
| VulkanFormats.DigitRunStops | src/VkLayer_GF_amber_scoop/src/vulkan_formats.cc:572 | the run stops at the first character that is not a digit |
| VulkanFormats.DigitRunSnoc | src/VkLayer_GF_amber_scoop/src/vulkan_formats.cc:572 | one more digit at the end multiplies the value by ten and adds that digit |
| VulkanFormats.StrToUllOfDigitLed | src/VkLayer_GF_amber_scoop/src/vulkan_formats.cc:572 | text that starts with a digit is read with no skipping and no sign |
| VulkanFormats.ComponentsUpTo | src/VkLayer_GF_amber_scoop/src/vulkan_formats.cc:527-582 | the backward loop over a component chunk. Each component is the nearest letter to the left with the number `strtoull` reads after it, cut to 16 bits, and it goes in front of those found so far. The loop aborts when no letter is left or a width reads as 0. `ComponentsUpToAborts`, `ComponentsUpToFound` and `ComponentsOfRendered` state its results |
| VulkanFormats.ComponentsUpToStep | src/VkLayer_GF_amber_scoop/src/vulkan_formats.cc:527-582 | a letter found at `q` with a width that reads as non-zero puts its component after the components parsed in front of `q` |
| VulkanFormats.Then | src/VkLayer_GF_amber_scoop/src/vulkan_formats.cc:581 | a parse result followed by components parsed earlier: an error stays the error; a success has those components appended |
| VulkanFormats.ThenNothing | src/VkLayer_GF_amber_scoop/src/vulkan_formats.cc:581 | following a result with no components leaves it unchanged |
| VulkanFormats.RenderComponents | src/VkLayer_GF_amber_scoop/src/vulkan_formats.cc:525 | a component chunk as a format name writes it, such as `A1R5G5B5`: each component's letter, then its width in decimal. `ComponentsOfRendered` proves the loop reads it back |
| VulkanFormats.WellFormed | src/VkLayer_GF_amber_scoop/src/vulkan_formats.cc:574-578 | components a format name can produce: each width is non-zero and fits 16 bits, and each format mode has its zero value |
| VulkanFormats.WellFormedPrefix | src/VkLayer_GF_amber_scoop/src/vulkan_formats.cc:574-578 | the components before the last are well formed too, and the last has a width that is non-zero and fits 16 bits |
| VulkanFormats.ScanBackOverDigits | src/VkLayer_GF_amber_scoop/src/vulkan_formats.cc:533-559 | from any position inside a component's digits, the backward scan stops at that component's letter |
| VulkanFormats.RenderedInit | src/VkLayer_GF_amber_scoop/src/vulkan_formats.cc:527-582 | the rendering of all components but the last ends just before the last one's letter |
| VulkanFormats.RenderedLast | src/VkLayer_GF_amber_scoop/src/vulkan_formats.cc:527-582 | once the components in front of it parse back, the last component parses back too |
| VulkanFormats.LastComponent | src/VkLayer_GF_amber_scoop/src/vulkan_formats.cc:527-582 | a letter and its width followed by another letter or the end of the chunk parse as one more component after the front ones |
| VulkanFormats.RenderedSplit | src/VkLayer_GF_amber_scoop/src/vulkan_formats.cc:525 | where the last component of a rendering sits in the chunk: its letter, then its width |
| VulkanFormats.DigitsBetween | src/VkLayer_GF_amber_scoop/src/vulkan_formats.cc:533-559 | when only digits lie between a letter and position `n - 1`, the backward scan from there finds that letter |
| VulkanFormats.WidthBetween | src/VkLayer_GF_amber_scoop/src/vulkan_formats.cc:570-572 | the width written after a letter reads back when the next letter or the end of the chunk follows it |
| VulkanFormats.LetterIsNoDigit | src/VkLayer_GF_amber_scoop/src/vulkan_formats.cc:467-525 | a component letter is not a digit and is not `P`, `U` or `S`, so a component chunk is not taken for a pack size or a type |
| VulkanFormats.FirstOfRendered | src/VkLayer_GF_amber_scoop/src/vulkan_formats.cc:525 | a rendered chunk starts with its first component's letter |
| VulkanFormats.ChunkStep | src/VkLayer_GF_amber_scoop/src/vulkan_formats.cc:467-525 | `ParseChunk`, told apart by the chunk's first character. `PACK8`, `PACK16` and `PACK32` set the pack size. The `U` and `S` chunks (`S8` among them) set the current type. Any other `P`, `U` or `S` chunk is an unknown format. Anything else is parsed as components placed in front of those already found. `ChunkStepOfRendered`, `ChunkStepOfComponents` and `TypeName` state its cases |
| VulkanFormats.ParseChunks | src/VkLayer_GF_amber_scoop/src/vulkan_formats.cc:459-464 | the chunks parsed from the last to the first; the first error stops the parse |
| VulkanFormats.NameLayout | src/VkLayer_GF_amber_scoop/src/vulkan_formats.cc:455-465 | `ParseName`: the name split on `_`, its chunks parsed right to left, starting from type `SInt`, no pack size and no components. `NameLayoutOfComponentsAndType` proves the round trip |
| VulkanFormats.SumWidths | src/VkLayer_GF_amber_scoop/src/vulkan_formats.cc:437-439 | the true sum of the component widths. `SumWidths16Exact` relates it to the 16-bit total |
| VulkanFormats.SumWidths16Step | src/VkLayer_GF_amber_scoop/src/vulkan_formats.cc:437-439 | one more component adds its width to the 16-bit total, wrapping at 2^16 |
| DrawCallTracker.AmberFileNameInjective | src/VkLayer_GF_amber_scoop/src/draw_call_tracker.cc:57-59 | distinct draw-call numbers give distinct `<prefix>_<n>.amber` file names |
| DrawCallTracker.ParseRunLineOfRunLine | src/VkLayer_GF_amber_scoop/src/draw_call_tracker.cc:84-98 | round trip: reading the RUN line back gives `INDEXED START_IDX <first> COUNT <count>` exactly when the index count is positive and `START_INSTANCE <first> INSTANCE_COUNT <count>` exactly when the instance count is positive, with the draw's own numbers |
| DrawCallTracker.RunLineWordsHaveNoSpace | src/VkLayer_GF_amber_scoop/src/draw_call_tracker.cc:87-97 | no word of the RUN line contains a space, so the line splits back into its words |
| DrawCallTracker.ParseRunWordsOfRunLineWords | src/VkLayer_GF_amber_scoop/src/draw_call_tracker.cc:87-97 | the words of a RUN line read back as the draw's index and instance ranges |
| DrawCallTracker.ReplayAppend | src/VkLayer_GF_amber_scoop/src/amber_scoop_layer.cc:313-330 | handling two lists of draws in turn is handling their concatenation |
| DrawCallTracker.CapturedNumbers | src/VkLayer_GF_amber_scoop/src/draw_call_tracker.cc:42-48 | every number listed as captured lies inside the inclusive window |
| DrawCallTracker.ReplayEffect | src/VkLayer_GF_amber_scoop/src/draw_call_tracker.cc:42-62 | after a run of draws the counter has advanced by one per draw (modulo 2^64), and the files are the old ones plus exactly one per captured draw number |
| DrawCallTracker.ReplayCounter | src/VkLayer_GF_amber_scoop/src/draw_call_tracker.cc:42-49 | the counter rises by exactly one per draw, captured or not |
| DrawCallTracker.CapturedFilesOfNumbers | src/VkLayer_GF_amber_scoop/src/draw_call_tracker.cc:57-59 | the files gathered draw by draw are the names of the captured numbers |
| DrawCallTracker.ReplayFiles | src/VkLayer_GF_amber_scoop/src/draw_call_tracker.cc:42-62 | the files after a run of draws are the old ones plus those of the captured draws |
| DrawCallTracker.DrawStepEffect | src/VkLayer_GF_amber_scoop/src/draw_call_tracker.cc:42-62 | one draw advances the counter by one and adds the file of its number exactly when that number is captured |
| DrawCallTracker.CapturedFromZero | src/VkLayer_GF_amber_scoop/src/draw_call_tracker.cc:42-49 | counting from zero past the window, exactly `last - start + 1` draws are captured, numbered `start` to `last` |
| DrawCallTracker.CapturedPrefix | src/VkLayer_GF_amber_scoop/src/draw_call_tracker.cc:42-49 | after any number of draws from zero, the captured numbers are `start, start + 1, …` cut at the window's end |
| DrawCallTracker.WindowWidth | src/VkLayer_GF_amber_scoop/src/amber_scoop_layer.cc:79 | with `last = start + count`, the inclusive window captures `count + 1` draws |
| DrawCallTracker.GlobalData.constructor | src/VkLayer_GF_amber_scoop/include/VkLayer_GF_amber_scoop/amber_scoop_layer.h:86-112 | default settings (not initialised, window 0–0, prefix `amber_scoop_output`), counter zero, no files |
| DrawCallTracker.DrawCallTracker.constructor | src/VkLayer_GF_amber_scoop/src/amber_scoop_layer.cc:320-323 | a tracker for one command buffer and queue with no render pass, subpass 0 and no pipeline |
| DrawCallTracker.DrawCallTracker.HandleDrawCall | src/VkLayer_GF_amber_scoop/src/draw_call_tracker.cc:28-99 | with `n` the counter before the call, the counter becomes `n + 1`; when `start <= n <= last` the file `<prefix>_<n>.amber` is (re)written; the settings do not change |
| DrawCallTracker.DrawCallTracker.ProcessSubmittedCommand | src/VkLayer_GF_amber_scoop/src/vulkan_commands.cc:25-51 | a render pass begin sets the render pass and subpass 0; a graphics bind sets the pipeline and other bind points are ignored; a draw is one `HandleDrawCall` with its arguments; nothing else changes |
| DrawCallTracker.Captured | src/VkLayer_GF_amber_scoop/src/draw_call_tracker.cc:44-45 | draw number `n` is captured exactly when `start_draw_call <= n <= last_draw_call`: both ends are inclusive |
| DrawCallTracker.AmberFileName | src/VkLayer_GF_amber_scoop/src/draw_call_tracker.cc:57-59 | the file of draw `n`: `<output_file_prefix>_<n>.amber`, with `n` in decimal. `AmberFileNameInjective` proves distinct draws write distinct files |
| DrawCallTracker.RunLineWords | src/VkLayer_GF_amber_scoop/src/draw_call_tracker.cc:84-97 | the words of the RUN line: `RUN pipeline DRAW_ARRAY AS TODO`, then `INDEXED START_IDX <first_index> COUNT <index_count>` only when the index count is positive, then `START_INSTANCE <first_instance> INSTANCE_COUNT <instance_count>` only when the instance count is positive |
| DrawCallTracker.RunLine | src/VkLayer_GF_amber_scoop/src/draw_call_tracker.cc:84-97 | the RUN line: its words separated by single spaces. `ParseRunLineOfRunLine` proves it reads back as the draw's ranges |
| DrawCallTracker.RunFieldsOf | src/VkLayer_GF_amber_scoop/src/draw_call_tracker.cc:87-97 | what a RUN line should say about a draw: the index range only when the index count is positive, the instance range only when the instance count is positive |
| DrawCallTracker.ParseRunLine | src/VkLayer_GF_amber_scoop/src/draw_call_tracker.cc:84-97 | reads a RUN line back into its optional index and instance ranges; `None` for any other line |
| DrawCallTracker.ParseRunWords | src/VkLayer_GF_amber_scoop/src/draw_call_tracker.cc:84-97 | the same reading on the line's words: the fixed five-word head, an optional indexed group, an optional instance group, and nothing more |
| DrawCallTracker.AmberFile | src/VkLayer_GF_amber_scoop/src/draw_call_tracker.cc:64-98 | the Amber file of a captured draw: the fixed placeholder text of lines 64-82 (`#!amber`, two `TODO` shaders, the `PIPELINE` section whose second `ATTACH` line runs into `END`), then the RUN line and a newline |
| DrawCallTracker.DrawStep | src/VkLayer_GF_amber_scoop/src/draw_call_tracker.cc:42-98 | one `HandleDrawCall`: the counter advances by one modulo 2^64 whether or not the draw is captured; a captured draw also (over)writes the file named after the counter's old value. `DrawStepEffect` states its effect on the files |
| DrawCallTracker.Replay | src/VkLayer_GF_amber_scoop/src/draw_call_tracker.cc:42-98 | a sequence of draws, one `DrawStep` each, in order. `ReplayAppend`, `ReplayCounter` and `ReplayEffect` state what it does |
| DrawCallTracker.CapturedFiles | src/VkLayer_GF_amber_scoop/src/draw_call_tracker.cc:44-59 | the file names of the captured numbers among `k` draws counted from `c`, gathered draw by draw |
| DrawCallTracker.CounterStep | src/VkLayer_GF_amber_scoop/src/draw_call_tracker.cc:46-49 | advancing a 64-bit counter once more after `k` advances is advancing it `k + 1` times |
| DrawCallTracker.CapturedNamesStep | src/VkLayer_GF_amber_scoop/src/draw_call_tracker.cc:44-59 | one more draw adds its file name exactly when its number is captured |
| DrawCallTracker.GlobalData.Capture | src/VkLayer_GF_amber_scoop/src/draw_call_tracker.cc:42-62 | the counter and the files written, as one state value |
| AmberScoopLayer.IsThisLayer | src/VkLayer_GF_amber_scoop/src/amber_scoop_layer.cc:60-63 | true exactly when a name is given and it is `VkLayer_GF_amber_scoop` |
| AmberScoopLayer.EnumerateInstanceLayerProperties | src/VkLayer_GF_amber_scoop/src/amber_scoop_layer.cc:347-366 | a null array sets the count to 1 and succeeds; a count of 0 returns `VK_INCOMPLETE` with the count unchanged; otherwise the count becomes 1, entry 0 is the layer's own properties, the rest of the array is untouched, and it succeeds |
| AmberScoopLayer.Flatten | src/VkLayer_GF_amber_scoop/src/amber_scoop_layer.cc:291-299 | a command buffer is visited exactly when it appears in some submit |
| AmberScoopLayer.MarkSubmitted | src/VkLayer_GF_amber_scoop/src/amber_scoop_layer.cc:301-310 | only tracked buffers are touched; a tracked buffer is marked submitted exactly when it was submitted (or already was), and its list and draw flag stay |
| AmberScoopLayer.NoDrawNoReplay | src/VkLayer_GF_amber_scoop/src/amber_scoop_layer.cc:312-315 | when no tracked buffer has a draw call, nothing is replayed |
| AmberScoopLayer.ReplayedFromDrawBuffers | src/VkLayer_GF_amber_scoop/src/amber_scoop_layer.cc:301-330 | every replayed command belongs to a submitted, tracked buffer that contains a draw call |
| AmberScoopLayer.AmberScoopLayer.constructor | src/VkLayer_GF_amber_scoop/include/VkLayer_GF_amber_scoop/amber_scoop_layer.h:67-112 | default settings, counter zero, no files, no tracked command buffers or shader modules |
| AmberScoopLayer.AmberScoopLayer.InitSettingsIfNeeded | src/VkLayer_GF_amber_scoop/src/amber_scoop_layer.cc:65-82 | settings already initialised stay as they are; otherwise each setting that is present replaces its default, `last = start + count` in 64-bit arithmetic with `count` defaulting to 1, and `init` becomes true |
| AmberScoopLayer.AmberScoopLayer.AddCommand | src/VkLayer_GF_amber_scoop/src/amber_scoop_layer.cc:88-100 | the buffer's tracker (a fresh one when it was untracked) receives the command as `CommandBufferData::AddCommand` does; every other tracker is unchanged |
| AmberScoopLayer.AmberScoopLayer.CreateShaderModule | src/VkLayer_GF_amber_scoop/src/amber_scoop_layer.cc:236-252 | the next layer's result is returned; only a `VK_SUCCESS` creation of an untracked handle adds a fresh lifetime record, and every other record stays |
| AmberScoopLayer.AmberScoopLayer.DestroyShaderModule | src/VkLayer_GF_amber_scoop/src/amber_scoop_layer.cc:257-272 | the module's entry is erased and nothing else |
| AmberScoopLayer.AmberScoopLayer.QueueSubmit | src/VkLayer_GF_amber_scoop/src/amber_scoop_layer.cc:277-339 | every tracked submitted buffer is marked submitted; the capture is the replay, in submit order, of the draws of the submitted buffers that contain draw calls; the next layer's result is returned unchanged |
| AmberScoopLayer.AmberScoopLayer.ProcessSubmittedBuffer | src/VkLayer_GF_amber_scoop/src/amber_scoop_layer.cc:297-330 | one buffer: skipped when untracked, otherwise marked submitted and, when it has a draw call, its commands are replayed in order |
| AmberScoopLayer.AmberScoopLayer.SubmitBuffers | src/VkLayer_GF_amber_scoop/src/amber_scoop_layer.cc:293-331 | the buffers of one submit, one after another, continue the marking and the replay of the buffers before them |
| AmberScoopLayer.AmberScoopLayer.ReplayCommands | src/VkLayer_GF_amber_scoop/src/amber_scoop_layer.cc:321-330 | a new tracker processes the buffer's commands in recorded order: the capture advances by the draws among them |
| AmberScoopLayer.SingleSubmit | src/VkLayer_GF_amber_scoop/src/amber_scoop_layer.cc:301-330 | one submitted buffer: a tracked one is marked submitted and replays its list when it has a draw call; an untracked one changes nothing |
| AmberScoopLayer.SubmitStepCaptured | src/VkLayer_GF_amber_scoop/src/amber_scoop_layer.cc:291-331 | processing one more buffer after the ones done gives the marking and the capture of the longer list |
| AmberScoopLayer.ReplayPrefixStep | src/VkLayer_GF_amber_scoop/src/amber_scoop_layer.cc:327-330 | replaying one more command is one more `HandleDrawCall` when it is a draw, and nothing otherwise |
| AmberScoopLayer.SubmitStep | src/VkLayer_GF_amber_scoop/src/amber_scoop_layer.cc:301-315 | marking buffer by buffer is marking them all at once, and marking does not change what a buffer replays |
| AmberScoopLayer.ReplayedCommandsAppend | src/VkLayer_GF_amber_scoop/src/amber_scoop_layer.cc:291-331 | the commands replayed for two runs of buffers are those of the first followed by those of the second |
| AmberScoopLayer.ReplayedCommands | src/VkLayer_GF_amber_scoop/src/amber_scoop_layer.cc:312-330 | the commands the replay walks through: the lists of the submitted, tracked buffers that contain draw calls, in submission order, a buffer submitted twice replayed twice |
| AmberScoopLayer.FlattenSnoc | src/VkLayer_GF_amber_scoop/src/amber_scoop_layer.cc:291-299 | the buffers of the first `i + 1` submits are those of the first `i`, then those of submit `i` |
| AmberScoopLayer.PrefixEmpty | src/VkLayer_GF_amber_scoop/src/amber_scoop_layer.cc:293-296 | before the inner loop starts, the buffers handled so far are those of earlier submits |
| AmberScoopLayer.PrefixSnoc | src/VkLayer_GF_amber_scoop/src/amber_scoop_layer.cc:293-296 | one more turn of the inner loop adds buffer `i` to the buffers handled |
| AmberScoopLayer.PrefixWhole | src/VkLayer_GF_amber_scoop/src/amber_scoop_layer.cc:293-296 | when the inner loop ends, every buffer of the submit has been handled |
| VulkanLayer.MakeVersion | src/VkLayer_GF_frame_counter/src/frame_counter_layer.cc:108 | `VK_MAKE_VERSION` packs major, minor and patch so that each reads back from its bit field |
| VulkanLayer.IsThisLayer | src/VkLayer_GF_frame_counter/src/frame_counter_layer.cc:113-116 | true exactly when a name is given and equals the layer's own |
| VulkanLayer.EnumerateInstanceLayerProperties | src/VkLayer_GF_frame_counter/src/frame_counter_layer.cc:220-238 | the two-call count protocol: null array gives count 1 and success; count 0 gives `VK_INCOMPLETE` with nothing written; otherwise count 1, entry 0 is the layer, the rest untouched, success |
| FrameCounterLayer.IsThisLayer | src/VkLayer_GF_frame_counter/src/frame_counter_layer.cc:113-116 | true exactly when a name is given and it is `VkLayer_GF_frame_counter` |
| FrameCounterLayer.EnumerateInstanceLayerProperties | src/VkLayer_GF_frame_counter/src/frame_counter_layer.cc:220-238 | the count protocol, with entry 0 the frame-counter layer's own properties |
| FrameCounterLayer.SplitReport | src/VkLayer_GF_frame_counter/src/frame_counter_layer.cc:187-195 | the report splits on newlines into exactly its four lines and an empty tail |
| FrameCounterLayer.LabelledLine | src/VkLayer_GF_frame_counter/src/frame_counter_layer.cc:187-195 | a report line made of a label, a value and a suffix gives the value back |
| FrameCounterLayer.ParseReportOfReport | src/VkLayer_GF_frame_counter/src/frame_counter_layer.cc:187-195 | round trip: the report reads back as the start frame, the end frame, the frame count `end - start` wrapped to 64 bits, and the duration; the count is the plain difference when `start <= end` |
| FrameCounterLayer.NumberAfterLabel | src/VkLayer_GF_frame_counter/src/frame_counter_layer.cc:188-193 | a labelled number reads back as itself |
| FrameCounterLayer.NothingWhenStartIsEnd | src/VkLayer_GF_frame_counter/src/frame_counter_layer.cc:146-148 | with equal start and end frames no present changes anything |
| FrameCounterLayer.CountedPresents | src/VkLayer_GF_frame_counter/src/frame_counter_layer.cc:143-151 | before the end frame the counter equals the number of presents that returned `VK_SUCCESS` or `VK_SUBOPTIMAL_KHR`, and no file is written |
| FrameCounterLayer.CountOf | src/VkLayer_GF_frame_counter/src/frame_counter_layer.cc:143 | no more presents are counted than were made |
| FrameCounterLayer.Successes | src/VkLayer_GF_frame_counter/src/frame_counter_layer.cc:140-143 | one successful present per clock reading, in order |
| FrameCounterLayer.BeforeEndFrame | src/VkLayer_GF_frame_counter/src/frame_counter_layer.cc:151-163 | after `k` successful presents short of the end frame the counter is `k` and the start time is the clock reading of the start frame's present (or still unset) |
| FrameCounterLayer.PresentBeforeEnd | src/VkLayer_GF_frame_counter/src/frame_counter_layer.cc:151-163 | one successful present before the end frame advances the counter by one and records the time exactly at the start frame |
| FrameCounterLayer.MeasuredWindow | src/VkLayer_GF_frame_counter/src/frame_counter_layer.cc:143-209 | from the initial state, the present of the end frame writes the report of `start`, `end` and the time since the start frame's present (0 when the start time was never set) to the output file |
| FrameCounterLayer.FrameCounterLayer.constructor | src/VkLayer_GF_frame_counter/src/frame_counter_layer.cc:68-89 | default settings, counter zero, start time unset, no files |
| FrameCounterLayer.FrameCounterLayer.InitSettingsIfNeeded | src/VkLayer_GF_frame_counter/src/frame_counter_layer.cc:118-132 | settings already initialised stay; otherwise each setting that is present replaces its default and `init` becomes true; the two frame numbers stay below 2^64, as `uint64_t` settings |
| FrameCounterLayer.FrameCounterLayer.QueuePresent | src/VkLayer_GF_frame_counter/src/frame_counter_layer.cc:134-212 | the next layer's result is returned unchanged, and the counter, start time and files become `PresentStep` of the old ones |
| FrameCounterLayer.Counted | src/VkLayer_GF_frame_counter/src/frame_counter_layer.cc:143 | a present is counted exactly when the next layer returned `VK_SUCCESS` or `VK_SUBOPTIMAL_KHR` |
| FrameCounterLayer.Report | src/VkLayer_GF_frame_counter/src/frame_counter_layer.cc:185-195 | the report text: its four lines, each ended by a newline. `ParseReportOfReport` proves it reads back as what was measured |
| FrameCounterLayer.ReportLines | src/VkLayer_GF_frame_counter/src/frame_counter_layer.cc:187-195 | `Start frame: <start>`, `End frame: <end>`, `Frame count: <end - start>` wrapped to 64 bits, `Duration: <duration>ns`, then the empty piece after the last newline |
| FrameCounterLayer.ParseReport | src/VkLayer_GF_frame_counter/src/frame_counter_layer.cc:185-195 | reads a report back: exactly four newline-ended lines, each its label and a number (the duration may be negative and ends in `ns`), and `None` for any other text |
| FrameCounterLayer.ParseReportLines | src/VkLayer_GF_frame_counter/src/frame_counter_layer.cc:187-195 | the same reading on the text already split at newlines: five pieces, the last one empty |
| FrameCounterLayer.NumberAfter | src/VkLayer_GF_frame_counter/src/frame_counter_layer.cc:188-193 | the number after a line's label; `None` when the label or the number is missing |
| FrameCounterLayer.NumberLineNoBreak | src/VkLayer_GF_frame_counter/src/frame_counter_layer.cc:187-195 | a label, a rendered number and a suffix contain no line break |
| FrameCounterLayer.PresentStep | src/VkLayer_GF_frame_counter/src/frame_counter_layer.cc:140-209 | one present. An uncounted result, or equal start and end frames, changes nothing. Otherwise the counter advances by one modulo 2^64. At the start frame the present's time is recorded. At the end frame the report is written to the output file, with a duration of 0 when no start time was recorded. `PresentBeforeEnd` and `MeasuredWindow` state its effect |
| FrameCounterLayer.Presents | src/VkLayer_GF_frame_counter/src/frame_counter_layer.cc:134-212 | a run of presents, one `PresentStep` each, in order. `NothingWhenStartIsEnd`, `CountedPresents`, `BeforeEndFrame` and `MeasuredWindow` state what a run does |
| FrameCounterLayer.SuccessesSnoc | src/VkLayer_GF_frame_counter/src/frame_counter_layer.cc:140-143 | adding one more clock reading adds one more successful present at the end |
| LayerManifests.Marker | scripts/generate_files.py:69-76 | every field marker is a `// ` comment tag |
| LayerManifests.Tagged | scripts/generate_files.py:69-76 | a line sets the first field of the `elif` chain whose marker it contains, none of the earlier markers occurs in it, and a line with no marker sets nothing |
| LayerManifests.LineUpdate | scripts/generate_files.py:69-77 | a line changes nothing exactly when it has no marker, sets the tagged field when the field's pattern matches, and fails exactly when it is tagged but the pattern does not match |
| LayerManifests.Set | scripts/generate_files.py:70-77 | assigning one field gives it the new value and leaves the other three unchanged |
| LayerManifests.ScanLines | scripts/generate_files.py:68-77 | the scan of a file fails exactly when one of its lines is a tagged line whose pattern fails |
| LayerManifests.ScanLinesAppend | scripts/generate_files.py:66-77 | scanning two runs of lines one after the other is scanning the first and continuing from its result over the second |
| LayerManifests.ScanFilesFlat | scripts/generate_files.py:65-77 | the fields read from a layer's source files equal those read from all their lines as one stream, so file boundaries do not matter |
| LayerManifests.UntouchedFieldKept | scripts/generate_files.py:68-77 | a field that no line sets keeps the value it had before the scan |
| LayerManifests.LastOccurrenceWins | scripts/generate_files.py:68-77 | the last line that sets a field decides its value |
| LayerManifests.LayerNameLine | scripts/generate_files.py:69-70 | a `"<name>",  // layerName` line sets the layer name to the quoted text |
| LayerManifests.SpecVersionLine | scripts/generate_files.py:71-73 | a `VK_MAKE_VERSION(aU, bU, cU)  // specVersion` line sets the spec version to `a.b.c` |
| LayerManifests.ImplementationVersionLine | scripts/generate_files.py:74-75 | a ` d,  // implementationVersion` line sets the implementation version to the digits `d` |
| LayerManifests.DescriptionLine | scripts/generate_files.py:76-77 | a `"<text>"  // description` line sets the description to the quoted text |
| LayerManifests.VersionRoundTrip | scripts/generate_files.py:71-73 | the `a.b.c` spec version splits on its dots into exactly three pieces that parse back to the three numbers |
| LayerManifests.LayerProperties.constructor | scripts/generate_files.py:54-59 | a new set of properties has all four fields unset |
| LayerManifests.LayerProperties.Assign | scripts/generate_files.py:70-77 | assigns one field in place; the new value is `Set` of the old one |
| LayerManifests.LayerProperties.ExtractProperties | scripts/generate_files.py:65-77 | reads every line of every source in order; succeeds exactly when the scan of the sources does, and then holds the fields the scan computes |
| LayerManifests.JsonUnescape | scripts/generate_files.py:86-89 | reading a JSON string's escapes never makes it longer |
| LayerManifests.WindowsLibraryPathJson | scripts/generate_files.py:85-89 | the Windows library path, read back as JSON, is `.\<name>.dll` with a single backslash |
| LayerManifests.UnixLibraryPathJson | scripts/generate_files.py:81-84 | the Unix and Darwin library paths hold no escape and read back unchanged |
| LayerManifests.ManifestLines | scripts/generate_files.py:95-119 | the manifest template has 24 lines |
| LayerManifests.RenderManifest | scripts/generate_files.py:80-119 | a manifest is produced exactly when all four fields were found; otherwise the `not_none` assertion fails |
| LayerManifests.ManifestAroundLibraryPath | scripts/generate_files.py:95-119 | the three platforms' manifests share the text before and after the `library_path` line and differ only in that line |
| LayerManifests.Contains | scripts/generate_files.py:69 | Python's `marker in s`: the marker occurs somewhere in the text |
| LayerManifests.OccursAt | scripts/generate_files.py:70-77 | the pattern occurs in the line starting at position `k` |
| LayerManifests.NextQuote | scripts/generate_files.py:70 | the first `"` at or after `i`: no quote lies between `i` and it, and `None` when there is none |
| LayerManifests.DigitCount | scripts/generate_files.py:75 | the length of the run of ASCII digits starting at `i`; the character after it is not a digit |
| LayerManifests.QuotedCommaFrom | scripts/generate_files.py:70 | `re.search(r'"([^"]*)",', line)` tried from position `i` on. The group holds no quote, and `"<group>",` occurs in the line at or after `i` |
| LayerManifests.QuotedComma | scripts/generate_files.py:70 | the same search from the start of the line. `QuotedCommaOf` proves it finds the first quoted text that is followed by a comma |
| LayerManifests.QuotedCommaSkip | scripts/generate_files.py:70 | a search cannot start inside a stretch with no quote, so it can skip that stretch |
| LayerManifests.QuoteAfter | scripts/generate_files.py:70 | the next quote after a quote-free text is the one right after it |
| LayerManifests.QuotedCommaAt | scripts/generate_files.py:70 | `"v",` at position `i` matches there with group `v` |
| LayerManifests.QuotedCommaOf | scripts/generate_files.py:70 | a line made of quote-free text, `"v",` and anything else gives `v` |
| LayerManifests.Quoted | scripts/generate_files.py:77 | `re.search(r'"([^"]*)"', line)`: the text between the first quote and the next. It holds no quote and occurs in the line between two quotes; `None` with fewer than two quotes |
| LayerManifests.QuotedOf | scripts/generate_files.py:77 | a line made of quote-free text, `"v"` and anything else gives `v` |
| LayerManifests.SpaceNumberCommaFrom | scripts/generate_files.py:75 | `re.search(r' (\d+),', line)` tried from position `i` on. The group is one or more digits, and ` <group>,` occurs at or after `i` |
| LayerManifests.SpaceNumberComma | scripts/generate_files.py:75 | the same search from the start of the line. `SpaceNumberCommaOf` proves it finds the first space-led number followed by a comma |
| LayerManifests.SpaceNumberCommaSkip | scripts/generate_files.py:75 | a stretch with no space before a digit cannot start a match, so the search can skip it |
| LayerManifests.SpaceNumberCommaAt | scripts/generate_files.py:75 | ` d,` at position `i` matches there with group `d` |
| LayerManifests.SpaceNumberCommaOf | scripts/generate_files.py:75 | a line with ` d,` and no earlier space before a digit gives `d` |
| LayerManifests.DigitCountOf | scripts/generate_files.py:75 | digits ended by a non-digit are counted exactly |
| LayerManifests.NumberThen | scripts/generate_files.py:72 | one or more digits at `i` followed by `sep`: the digits, and the position just after `sep` |
| LayerManifests.NumberThenOf | scripts/generate_files.py:72 | digits followed by a separator that does not start with a digit are read exactly |
| LayerManifests.MakeVersionAtPos | scripts/generate_files.py:72 | the pattern `VK_MAKE_VERSION\((\d+)U, (\d+)U, (\d+)U\)` matched exactly at `i`: three runs of digits, and `VK_MAKE_VERSION(` occurs at `i` |
| LayerManifests.MakeVersionFrom | scripts/generate_files.py:72 | the same pattern searched from position `i` on: the first position where it matches gives the three digit runs |
| LayerManifests.MakeVersion | scripts/generate_files.py:72 | the same search from the start of the line. `MakeVersionOf` proves it reads a `VK_MAKE_VERSION(aU, bU, cU)` line |
| LayerManifests.MakeVersionSkip | scripts/generate_files.py:72 | a stretch with no `V` cannot start a match, so the search can skip it |
| LayerManifests.MakeVersionAt | scripts/generate_files.py:72 | `VK_MAKE_VERSION(aU, bU, cU)` at position `i` matches there with groups `a`, `b`, `c` |
| LayerManifests.MakeVersionOf | scripts/generate_files.py:72 | a line with `VK_MAKE_VERSION(aU, bU, cU)` and no earlier `V` gives `a`, `b`, `c` |
| LayerManifests.MakeVersionIn | scripts/generate_files.py:72 | the same, for a line written as text before the macro and the arguments after it |
| LayerManifests.MakeVersionFound | scripts/generate_files.py:72 | the search from the macro's own position finds its three arguments |
| LayerManifests.Rank | scripts/generate_files.py:69-76 | the order of the `if`/`elif` chain: `layerName`, `specVersion`, `implementationVersion`, `description` |
| LayerManifests.FieldValue | scripts/generate_files.py:69-77 | what a tagged line sets its field to. The layer name is the first quoted text before a comma. The spec version is the three `VK_MAKE_VERSION` numbers joined by dots. The implementation version is the first space-led number before a comma. The description is the first quoted text. `None` when the pattern does not match |
| LayerManifests.Sets | scripts/generate_files.py:69-77 | reading a line sets field `f`: it is tagged with `f`'s marker and its pattern matches |
| LayerManifests.Get | scripts/generate_files.py:54-59 | the value of one of the four attributes of `LayerProperties` |
| LayerManifests.ContainsSuffix | scripts/generate_files.py:69 | a marker found in the end of a line is found in the whole line |
| LayerManifests.Continue | scripts/generate_files.py:65-77 | once one file is read, a failure stops the run and a success goes on with the remaining files |
| LayerManifests.ScanFiles | scripts/generate_files.py:65-77 | every source file read in order, each line by line from the fields the earlier files left. `ScanFilesFlat` proves this is one scan over all the lines |
| LayerManifests.NoDotInNumber | scripts/generate_files.py:73 | a decimal number holds no `.` |
| LayerManifests.SplitThree | scripts/generate_files.py:73 | three dot-free texts joined by `.` split back into the three |
| LayerManifests.PlatformName | scripts/generate_files.py:80 | the platforms' names in the file names: `unix`, `darwin`, `windows` |
| LayerManifests.LibraryPath | scripts/generate_files.py:80-91 | the `library_path` value as it appears in the JSON text: `./lib<name>.so` on Unix, `./lib<name>.dylib` on Darwin, `.\\<name>.dll` on Windows. `WindowsLibraryPathJson` and `UnixLibraryPathJson` state how JSON reads each |
| LayerManifests.JsonUnescapePlain | scripts/generate_files.py:86-89 | text with no backslash is read by JSON as itself |
| LayerManifests.JsonUnescapeEscaped | scripts/generate_files.py:86-89 | a backslash followed by a character is read as that character |
| LayerManifests.JsonUnescapeNone | scripts/generate_files.py:86-89 | text with no backslash reads back unchanged |
| LayerManifests.WindowsPathShape | scripts/generate_files.py:89 | the Windows path is `.`, two backslashes, then the backslash-free `<name>.dll` |
| LayerManifests.HeadLines | scripts/generate_files.py:95-100 | the six manifest lines before `library_path`: the opening brace, `file_format_version` `1.1.2`, the `layers` list, the layer's `name` and `type` `GLOBAL` |
| LayerManifests.TailLines | scripts/generate_files.py:102-118 | the seventeen lines after `library_path`: `api_version`, `implementation_version`, `description`, the three entry-point names made from the layer name, the closing of the layer list, and the enable and disable variables `<name>_V<impl>_ENABLE` and `_DISABLE` |
| LayerManifests.LibraryLine | scripts/generate_files.py:101 | the `library_path` line with the platform's path |
| LayerManifests.Manifest | scripts/generate_files.py:95-119 | a platform's manifest text: its 24 template lines, each followed by a newline |
| LayerManifests.Complete | scripts/generate_files.py:45-47 | all four fields were found, so no `not_none` fails |
| LayerManifests.ManifestPath | scripts/generate_files.py:93 | the manifest's file: `<layer dir>/<layer name>_<platform>.json` |
| LinkerScripts.Generic | scripts/generate_files.py:153-155 | no kept name is one of the four introspection functions, and filtering never adds names |
| LinkerScripts.GenericAppend | scripts/generate_files.py:147-155 | the filter works name by name, so filtering the names of several files is filtering each file and concatenating |
| LinkerScripts.GenericCounts | scripts/generate_files.py:153-155 | an introspection function never survives the filter, and every other name is kept exactly as many times as it was found |
| LinkerScripts.CollectExports | scripts/generate_files.py:145-155 | the collection loop over all source files yields the filtered names of all files, in the order found |
| LinkerScripts.CollectFile | scripts/generate_files.py:153-155 | the inner loop over one file's names extends the filtered list by the filtered names of that file |
| LinkerScripts.Each | scripts/generate_files.py:166-167 | one line per name, in order, each the name between the fixed prefix and suffix |
| LinkerScripts.AndroidInsertion | scripts/generate_files.py:208-223 | the Android script is the Linux script under its own title line, with the comment and the four introspection exports inserted right before `local:` |
| LinkerScripts.NoIntrospectionInGeneric | scripts/generate_files.py:215-220 | no generic line of a version script exports an introspection function, so the Android script exports each of them once |
| LinkerScripts.ScriptsEndWithClose | scripts/generate_files.py:198-223 | both version scripts end with the closing `};` line |
| LinkerScripts.AddLine | scripts/generate_files.py:162-165 | appending a line and its newline to the text keeps it the newline-terminated join of the lines written so far |
| LinkerScripts.AddEach | scripts/generate_files.py:166-167 | the per-name loop appends exactly the lines of `Each`, each newline-terminated |
| LinkerScripts.RenderDef | scripts/generate_files.py:159-167 | the `.def` text is the title, the notice, `LIBRARY <layer>`, `EXPORTS` and one indented line per kept name |
| LinkerScripts.RenderExports | scripts/generate_files.py:175-181 | the `.exports` text is the title, the notice and one `_`-prefixed line per kept name |
| LinkerScripts.AddScriptHead | scripts/generate_files.py:192-195 | a version script starts with its title, the notice, `{` and `global:` |
| LinkerScripts.AddScriptFoot | scripts/generate_files.py:198-200 | a version script ends with `local:`, `    *;` and `};` |
| LinkerScripts.RenderLds | scripts/generate_files.py:189-200 | the `.lds` text is the script head, one `    <name>;` line per kept name and the foot |
| LinkerScripts.RenderAndroidLds | scripts/generate_files.py:208-223 | the `_android.lds` text is the Android head, the kept names, the comment, the four introspection exports and the foot |
| LinkerScripts.DefHead | scripts/generate_files.py:162-165 | the four header lines of the `.def` file: two comment lines, `LIBRARY <layer>` and `EXPORTS` |
| LinkerScripts.DefLines | scripts/generate_files.py:159-167 | the `.def` file: its header, then one indented line per exported name |
| LinkerScripts.ExportsLines | scripts/generate_files.py:175-181 | the `.exports` file: two comment lines, then each exported name with a leading `_` |
| LinkerScripts.ScriptHead | scripts/generate_files.py:192-195 | a version script's head: its comment line, the generated-file line, `{` and `global:` |
| LinkerScripts.LdsLines | scripts/generate_files.py:189-200 | the `.lds` file: the Linux head, one indented `<name>;` line per exported name, then `local:`, `    *;` and `};` |
| LinkerScripts.AndroidLdsLines | scripts/generate_files.py:208-223 | the `_android.lds` file: the Android head, the exported names, the introspection comment and the four introspection functions, then the same foot |
| LinkerScripts.GenericSnoc | scripts/generate_files.py:153-155 | one more found name is appended to the filtered list unless it is an introspection function |
| LinkerScripts.GenericMultisetStep | scripts/generate_files.py:153-155 | the last found name adds one to its count in the filtered list unless it is an introspection function |
| LinkerScripts.WrappedDiffer | scripts/generate_files.py:196-197 | two different names give two different script lines under the same prefix and suffix |
| GenerateFiles.EmitOne | scripts/generate_files.py:122-128 | check mode leaves the files alone; write mode always passes |
| GenerateFiles.CheckModeOnly | scripts/generate_files.py:122-126 | check mode never writes, and passes exactly when every artifact's file exists and already holds its contents |
| GenerateFiles.WriteModeWrites | scripts/generate_files.py:127-128 | write mode always passes, and each artifact not overwritten by a later one ends up on disk |
| GenerateFiles.WriteModeKeepsOthers | scripts/generate_files.py:127-128 | write mode leaves every file that no artifact names unchanged |
| GenerateFiles.FileSystem.constructor | scripts/generate_files.py:255-257 | the file system starts with the given files |
| GenerateFiles.FileSystem.Emit | scripts/generate_files.py:122-128 | one check-or-write block: the new files and the verdict are those of `EmitOne` |
| GenerateFiles.ManifestArtifacts | scripts/generate_files.py:80-93 | one manifest per platform |
| GenerateFiles.GenerateManifests | scripts/generate_files.py:62-130 | reads the fields from the sources; fails and writes nothing when a pattern fails or a field is missing; otherwise emits the three manifests in platform order and returns their combined verdict |
| GenerateFiles.WriteManifests | scripts/generate_files.py:79-130 | the platform loop succeeds exactly when all four fields were found, and then emits the three manifests in order; on failure no file changes |
| GenerateFiles.ScriptArtifacts | scripts/generate_files.py:159-230 | four export lists, written to `<layer>.def`, `<layer>.exports`, `<layer>.lds` and `<layer>_android.lds` in that order |
| GenerateFiles.GenerateLinkerScripts | scripts/generate_files.py:141-232 | collects the exported names of all sources and emits the four export lists built from them, in order, returning their combined verdict |
| GenerateFiles.Identity | scripts/generate_files.py:263-264 | a layer's identity, when it can be read, has all four fields |
| GenerateFiles.ExitStatus | scripts/generate_files.py:267-268 | the process exits with zero exactly when the run completed |
| GenerateFiles.LayerArtifacts | scripts/generate_files.py:262-265 | a layer emits its three manifests and then its four export lists |
| GenerateFiles.PlanOf | scripts/generate_files.py:262-265 | a layer can be handled exactly when its identity can be read |
| GenerateFiles.Step | scripts/generate_files.py:262-265 | an aborted run stays aborted and unchanged; one more layer aborts the run exactly when it cannot be read; a completed run after the step was completed before it |
| GenerateFiles.Run | scripts/generate_files.py:259-268 | the loop over the layer directories leaves the files and the outcome given by the specification of the whole run over the layers' plans |
| GenerateFiles.RunLayer | scripts/generate_files.py:263-265 | one turn of the loop changes the files and the outcome as one step of the run specification for that layer's plan |
| GenerateFiles.EmitLayerManifests | scripts/generate_files.py:263-264 | a fresh set of properties read from the layer; succeeds exactly when the scan succeeds with all fields found, and then emits the layer's manifests |
| GenerateFiles.FinishLayer | scripts/generate_files.py:264-265 | after the manifests, emitting the export lists completes the layer's step of the run specification |
| GenerateFiles.ReadableStep | scripts/generate_files.py:262-265 | a readable layer's step emits its manifests, then its export lists, and combines both verdicts with the prior one |
| GenerateFiles.UnreadableStep | scripts/generate_files.py:45-47 | a layer whose identity cannot be read aborts the run and writes nothing |
| GenerateFiles.AbortIsFinal | scripts/generate_files.py:262-268 | once a layer aborts the run, later layers change nothing |
| GenerateFiles.AbortEndsRun | scripts/generate_files.py:262-268 | a run that aborts after some prefix of the layers ends with the state of that prefix |
| GenerateFiles.AbortsIffUnreadable | scripts/generate_files.py:262-268 | a run aborts exactly when some layer cannot be read |
| GenerateFiles.CheckRunNeverWrites | scripts/generate_files.py:244-249 | a `--check_only` run never changes a file |
| GenerateFiles.WriteRunNeverFailsChecks | scripts/generate_files.py:259-268 | a run that writes never reports failed checks |
| GenerateFiles.WriteModePasses | scripts/generate_files.py:127-128 | writing a list of artifacts always passes |
| GenerateFiles.CheckRunVerdict | scripts/generate_files.py:259-268 | when every layer can be read, a check-mode run does not abort, and passes exactly when every artifact of every layer is already on disk |
| GenerateFiles.UpToDate | scripts/generate_files.py:122-126 | a file is up to date when it exists on disk and its text equals the artifact's contents; anything else fails the check |
| GenerateFiles.EmitAll | scripts/generate_files.py:122-130 | the files and the `result` flag after the check-or-write blocks of `items` run in order, each starting from the files the previous one left; `result` stays true only while every block passes |
| GenerateFiles.EmitAllSnoc | scripts/generate_files.py:122-128 | one more artifact is one more check-or-write block on the files left by the earlier ones, and `result` is and-ed with its outcome |
| GenerateFiles.EmitAllConcat | scripts/generate_files.py:264-265 | emitting two lists in turn (the manifests, then the linker scripts) is emitting their concatenation |
| GenerateFiles.AllUpToDate | scripts/generate_files.py:122-126 | every artifact of a list is up to date on disk |
| GenerateFiles.ManifestArtifact | scripts/generate_files.py:93-119 | a platform's manifest goes to `<dir>/<layer>_<platform>.json` and holds the rendered template for that platform |
| GenerateFiles.ManifestArtifactAt | scripts/generate_files.py:80-93 | the manifests of the first `i + 1` platforms are those of the first `i`, then the manifest of platform `i` |
| GenerateFiles.EmitManifest | scripts/generate_files.py:121-128 | one platform's check-or-write block extends the emitted manifests by that platform's manifest and leaves files and `result` as `EmitAll` of them says |
| GenerateFiles.EmitNext | scripts/generate_files.py:168-173 | one linker script's check-or-write block extends the emitted list by that artifact and leaves files and `result` as `EmitAll` of the longer list says |
| GenerateFiles.FourInOrder | scripts/generate_files.py:159-230 | the four linker scripts are emitted in the order `.def`, `.exports`, `.lds`, `_android.lds` |
| GenerateFiles.LinesOf | scripts/generate_files.py:63-68 | the lines of each source file, one list per file in directory order |
| GenerateFiles.ExportsOf | scripts/generate_files.py:146-152 | the names the export pattern matches in each source file, one list per file in directory order |
| GenerateFiles.RunSpec | scripts/generate_files.py:259-268 | the files and the outcome after the layer loop: layers are handled in order, a failed check does not stop later layers, and an unreadable layer ends the run keeping what earlier layers wrote |
| GenerateFiles.RunSpecSnoc | scripts/generate_files.py:262-265 | one more layer is one more `Step` after the run over the earlier layers |
| GenerateFiles.RunNext | scripts/generate_files.py:262-265 | one turn of the layer loop extends the handled layers by one and leaves files and outcome as `RunSpec` of them says |
| GenerateFiles.PlansOf | scripts/generate_files.py:257-265 | what each layer directory amounts to, one plan per directory, in the order the loop visits them |
| GenerateFiles.PlansOfSnoc | scripts/generate_files.py:262-265 | the plans of the first `i + 1` layers are those of the first `i`, then the plan of layer `i` |
| GenerateFiles.PlansOfAppend | scripts/generate_files.py:262-265 | the plans of two runs of layers, one after the other, are the plans of each, concatenated |
| GenerateFiles.PlansOfAt | scripts/generate_files.py:262-265 | the plan at each position is the plan of the layer at that position |
| GenerateFiles.PlansOfSplit | scripts/generate_files.py:262-265 | the plans of all layers are those of the first `n`, then those of the rest |
| GenerateFiles.TakeDrop | scripts/generate_files.py:262-265 | the first `n` layers followed by the rest are all the layers |
| GenerateFiles.PlanReadable | scripts/generate_files.py:263-265 | a layer whose identity scan succeeds with all four fields emits its manifests and then its linker scripts |
| Text.StripIsSlice | scripts/generate_open_cl.py:33-36 | what `text.strip()` keeps is a slice of the text with only whitespace before and after it |
| Text.StripEnds | scripts/generate_open_cl.py:33-36 | the stripped text is empty or neither starts nor ends with whitespace |
| Text.StripAllSpace | scripts/generate_open_cl.py:33-36 | text made only of whitespace strips to the empty string |
| Text.StripIdempotent | scripts/generate_open_cl.py:33-36 | stripping twice is stripping once |
| Text.Split | scripts/generate_open_cl.py:359-379 | splitting always gives at least one piece |
| Text.SplitJoin | scripts/generate_open_cl.py:359-379 | splitting a `"\n".join` on the separator gives the parts back when no part contains it |
| Text.Terminated | scripts/generate_files.py:162-167 | text written line by line ends with a newline unless no line was written |
| Text.TerminatedConcat | scripts/generate_files.py:162-167 | writing two runs of lines one after the other writes their concatenation |
| Text.SplitTerminated | scripts/generate_files.py:162-167 | reading such text back line by line gives the lines followed by one empty piece |
| Text.NatToString | src/VkLayer_GF_amber_scoop/src/draw_call_tracker.cc:56-59 | the decimal rendering of a number is one or more digits with no leading zero |
| Text.ParseNatToString | src/VkLayer_GF_amber_scoop/src/draw_call_tracker.cc:56-59 | the decimal rendering of a number reads back as that number |
| Text.ParseNat | src/VkLayer_GF_amber_scoop/src/draw_call_tracker.cc:56-59 | a text reads as a number exactly when it is one or more digits |
| Text.NatToStringInjective | src/VkLayer_GF_amber_scoop/src/draw_call_tracker.cc:56-59 | different numbers render differently |
| Text.IntToString | src/VkLayer_GF_frame_counter/src/frame_counter_layer.cc:194-195 | a signed rendering starts with `-` exactly for a negative number, and has digits after its first character |
| Text.ParseIntToString | src/VkLayer_GF_frame_counter/src/frame_counter_layer.cc:194-195 | the signed rendering of a number reads back as that number |
| Text.CollapseSpaces | scripts/generate_open_cl.py:182-183 | `re.sub(" +", " ", …)` never lengthens the text, leaves no two spaces in a row, and starts with a space exactly when the input does |
| Text.CollapseSpacesKeepsOthers | scripts/generate_open_cl.py:182-183 | collapsing spaces keeps every other character, as many times as it occurs |
| Text.IsSpace | scripts/generate_open_cl.py:36 | Python's `str.isspace` for one character: the space, the controls from tab to carriage return and from `\x1c` to `\x1f`, and the Unicode spaces and separators |
| Text.AllSpace | scripts/generate_open_cl.py:36 | a text made only of whitespace (the empty text included) |
| Text.AllSpaceConcat | scripts/generate_open_cl.py:36 | two texts joined are all whitespace exactly when each is |
| Text.Strip | scripts/generate_open_cl.py:36 | Python's `text.strip()`: drops whitespace from both ends. `StripIsSlice`, `StripEnds`, `StripAllSpace` and `StripIdempotent` state what it keeps |
| Text.SpaceFramed | scripts/generate_open_cl.py:36 | `s[i..j]` is `s` with a whitespace-only prefix and suffix removed |
| Text.Concat | scripts/generate_open_cl.py:215 | Python's `"".join(parts)`: the parts' texts one after another, in order |
| Text.ConcatAppend | scripts/generate_open_cl.py:215 | joining two part lists one after the other gives the two joins concatenated |
| Text.Join | scripts/generate_open_cl.py:359-362 | Python's `sep.join(parts)`: the parts in order with `sep` between neighbours; nothing for no parts |
| Text.JoinAppend | scripts/generate_open_cl.py:359-362 | adding one more part to a non-empty list adds the separator and that part at the end of the join |
| Text.SplitNoSeparator | scripts/generate_open_cl.py:359-379 | a text with no separator splits into itself alone |
| Text.SplitAtSeparator | scripts/generate_open_cl.py:359-379 | the first separator ends the first piece; the rest of the text splits on its own |
| Text.Flatten | scripts/generate_files.py:65-68 | all lines of all files, in reading order: the first file's lines, then the rest |
| Text.FlattenSnoc | scripts/generate_files.py:65-68 | reading one more file appends its lines at the end |
| Text.TerminatedAppend | scripts/generate_files.py:162-167 | writing one more line adds that line and a newline at the end |
| Text.DigitChar | src/VkLayer_GF_amber_scoop/src/draw_call_tracker.cc:56-59 | the character of one decimal digit: a digit whose distance from `0` is the digit's value |
| Text.DigitsValue | src/VkLayer_GF_amber_scoop/src/draw_call_tracker.cc:56-59 | the value of a run of decimal digits read most significant first. `ParseNatToString` proves it inverts `NatToString` |
| Text.ParseInt | src/VkLayer_GF_frame_counter/src/frame_counter_layer.cc:194-195 | reads back a signed number: an optional `-` then one or more digits, and `None` otherwise. A negative result needs a leading `-`. `ParseIntToString` proves it inverts `IntToString` |
| Text.DropSpaces | scripts/generate_open_cl.py:183 | drops the leading spaces: the result is no longer than the text and does not start with a space |
| Text.DropSpacesCount | scripts/generate_open_cl.py:183 | what is dropped is a prefix made only of spaces, so every other character keeps its count |
| GenerateOpenCl.AppendSpaceOfBlank | scripts/generate_open_cl.py:33-43 | a non-empty all-whitespace text is still appended, as an empty part (plus the space for `append_space`) |
| GenerateOpenCl.AppendText | scripts/generate_open_cl.py:33-36 | `append` adds nothing for a missing or empty text and otherwise the stripped text to the joined result |
| GenerateOpenCl.AppendSpaceText | scripts/generate_open_cl.py:39-43 | `append_space` adds the same followed by one space |
| GenerateOpenCl.StripEmptyIffBlank | scripts/generate_open_cl.py:318 | `text.strip()` is empty exactly when the text is all whitespace |
| GenerateOpenCl.RawText | scripts/generate_open_cl.py:182-183 | the dumped text of a parameter the script cannot take apart holds no two spaces in a row |
| GenerateOpenCl.DecodeParams | scripts/generate_open_cl.py:157-211 | the accepted parameters are no more than the elements, and only the last can be the `void` marker |
| GenerateOpenCl.DecodeCommand | scripts/generate_open_cl.py:112-142 | an accepted command whose return type is `void` has a return tail, so the wrapper pass's `strip()` on it cannot fail |
| GenerateOpenCl.DecodeCommands | scripts/generate_open_cl.py:87-90 | all commands are accepted in order exactly when each one is, and the run fails exactly when one fails |
| GenerateOpenCl.FindCommands | scripts/generate_open_cl.py:72-76 | the first child tagged `commands`, or none when no child has that tag |
| GenerateOpenCl.Decode | scripts/generate_open_cl.py:72-78 | the registry decodes exactly when it has a non-empty `commands` child whose commands all decode |
| GenerateOpenCl.FirstPass | scripts/generate_open_cl.py:87-110 | the first pass yields one struct line, one load line and one name per command, in registry order |
| GenerateOpenCl.Lines | scripts/generate_open_cl.py:87-110 | one entry per command |
| GenerateOpenCl.LinesAt | scripts/generate_open_cl.py:87-110 | entry `k` is the rendering of command `k` |
| GenerateOpenCl.Names | scripts/generate_open_cl.py:105-110 | the function names, one per command and in order |
| GenerateOpenCl.TypedefHeadParts | scripts/generate_open_cl.py:134-153 | the opening of a typedef line joins to the typedef head |
| GenerateOpenCl.WrapperHeadParts | scripts/generate_open_cl.py:242-255 | the opening of a wrapper joins to the wrapper head |
| GenerateOpenCl.AppendParam | scripts/generate_open_cl.py:172-211 | each parameter that is not the `void` marker adds exactly its rendering for the pass |
| GenerateOpenCl.AppendParams | scripts/generate_open_cl.py:155-211 | a parameter loop adds exactly the specified parameter text: separators between parameters, stopping at a `void` marker |
| GenerateOpenCl.VoidEndsParams | scripts/generate_open_cl.py:167-170 | nothing after a `void` marker is rendered; the marker leaves only its separator |
| GenerateOpenCl.ParamsTextJoin | scripts/generate_open_cl.py:155-165 | without a `void` marker, a loop is the parameters' texts joined by `, ` |
| GenerateOpenCl.CallArgsAreNames | scripts/generate_open_cl.py:327-348 | a forwarding call passes the parameters' names in order, separated by `, ` |
| GenerateOpenCl.NameLineBreakStripped | scripts/generate_open_cl.py:255 | the line break after the wrapper's `(` is stripped away with the rest of the whitespace |
| GenerateOpenCl.ReturnStatement | scripts/generate_open_cl.py:318-321 | the wrapper returns the call's value exactly when the return type is not `void` or something other than whitespace follows it |
| GenerateOpenCl.RenderTypedef | scripts/generate_open_cl.py:134-215 | the second pass's part list joins to the command's typedef line |
| GenerateOpenCl.AppendWrapperBody | scripts/generate_open_cl.py:313-323 | the wrapper body adds the closing of the signature, the log line, the optional `return` and the call target |
| GenerateOpenCl.RenderWrapper | scripts/generate_open_cl.py:242-352 | the third pass's part list joins to the command's wrapper text |
| GenerateOpenCl.SecondPass | scripts/generate_open_cl.py:112-215 | one typedef line per command, in registry order |
| GenerateOpenCl.ThirdPass | scripts/generate_open_cl.py:217-352 | one wrapper text per command, in registry order |
| GenerateOpenCl.LinkerScriptLines | scripts/generate_open_cl.py:367-377 | the version script has seven lines around the names |
| GenerateOpenCl.LinkerScript | scripts/generate_open_cl.py:367-377 | the version script is built as the head, one `    <name>;` line per function name, and the foot |
| GenerateOpenCl.LinkerScriptLinesRoundTrip | scripts/generate_open_cl.py:367-379 | the written version script reads back line by line as built, and line `4 + i` exports name `i` |
| GenerateOpenCl.Outputs | scripts/generate_open_cl.py:354-379 | the script writes exactly its five files |
| GenerateOpenCl.WriteFiles | scripts/generate_open_cl.py:359-379 | writing the five files one after the other is overlaying the outputs on the file system |
| GenerateOpenCl.Generate | scripts/generate_open_cl.py:46-379 | the script fails exactly when the registry fails a check, and otherwise leaves the file system with the five outputs written over it |
| GenerateOpenCl.Present | scripts/generate_open_cl.py:34-35 | Python's truth test on an optional text: false for `None` and for `""`, true for any other text |
| GenerateOpenCl.Show | scripts/generate_open_cl.py:108-110 | an optional text inside an f-string: the text itself, or `None` when it is missing |
| GenerateOpenCl.Append | scripts/generate_open_cl.py:33-36 | `append`: a missing or empty text leaves the list as it is; any other text is added as one part, stripped. `AppendText` proves what this adds to the joined parts |
| GenerateOpenCl.AppendSpace | scripts/generate_open_cl.py:39-43 | `append_space`: the same as `append`, then a `" "` part. `AppendSpaceText` and `AppendSpaceOfBlank` state its effect |
| GenerateOpenCl.Str | scripts/generate_open_cl.py:33-36 | the text `append` adds to the joined parts: the stripped text, or nothing for a missing or empty one |
| GenerateOpenCl.SpaceStr | scripts/generate_open_cl.py:39-43 | the text `append_space` adds to the joined parts: the stripped text and a space, or nothing |
| GenerateOpenCl.AppendStep | scripts/generate_open_cl.py:33-36 | one `append` call on a part list: the result is `Append(parts, t)`, and its join gains exactly `Str(t)` |
| GenerateOpenCl.AppendSpaceStep | scripts/generate_open_cl.py:39-43 | one `append_space` call: the result is `AppendSpace(parts, t)`, and its join gains exactly `SpaceStr(t)` |
| GenerateOpenCl.PushStep | scripts/generate_open_cl.py:151 | a literal `parts.append(x)`: the list gains `x` at the end, and so does its join |
| GenerateOpenCl.StripClean | scripts/generate_open_cl.py:36 | `text.strip()` leaves a non-empty text unchanged when neither end is whitespace |
| GenerateOpenCl.IterText | scripts/generate_open_cl.py:182 | `param.itertext()`: the element's own text, then each child's pieces followed by that child's tail, in document order, with missing and empty pieces left out |
| GenerateOpenCl.StructLine | scripts/generate_open_cl.py:108 | the struct field for one command: `  PFN_<name> <name> = nullptr;` |
| GenerateOpenCl.LoadLine | scripts/generate_open_cl.py:109 | the loader line for one command: `LoadFunction(<name>);` |
| GenerateOpenCl.ParamText | scripts/generate_open_cl.py:172-348 | what each pass adds for one parameter. Typedef: qualifier and space, type, pointer tail, array tail, a space, then `/*name`, the array tail and `*/`. Wrapper: qualifier and space, type, pointer tail, a space, the name and the array tail. Call: the name only. A parameter that cannot be taken apart adds its collapsed text, or its name in a call |
| GenerateOpenCl.Sep | scripts/generate_open_cl.py:160-163 | the separator before a parameter: none before the first, `", "` before every later one |
| GenerateOpenCl.ParamsText | scripts/generate_open_cl.py:155-211 | a whole parameter loop: each parameter preceded by its separator; a lone `<type>void</type>` stops the loop after its separator is added, so later parameters are not rendered. The wrapper and call loops at lines 257-348 run the same way. `ParamsTextJoin` and `VoidEndsParams` state its properties |
| GenerateOpenCl.ParamTexts | scripts/generate_open_cl.py:155-211 | one rendered text per parameter, in order, the same number as the parameters |
| GenerateOpenCl.ParamsTextAt | scripts/generate_open_cl.py:157-211 | the loop from position `i`: a `void` marker there gives only the separator; any other parameter gives the separator, that parameter's text, then the rest without a leading first |
| GenerateOpenCl.ParamTextsCons | scripts/generate_open_cl.py:160-161 | the joined texts of two or more parameters are the first text, `", "`, then the rest joined |
| GenerateOpenCl.ParamStep | scripts/generate_open_cl.py:157-211 | one round of a parameter loop: it stops exactly at the `void` marker, and the parts so far plus the rest of the loop always join to the whole loop's text |
| GenerateOpenCl.AppendDecomposedTypedef | scripts/generate_open_cl.py:187-211 | the parts the typedef loop adds for a parameter it takes apart join to that parameter's typedef text |
| GenerateOpenCl.AppendDecomposedWrapper | scripts/generate_open_cl.py:289-311 | the parts the wrapper loop adds for a parameter it takes apart join to that parameter's wrapper text |
| GenerateOpenCl.TypedefHead | scripts/generate_open_cl.py:134-153 | the typedef up to its parameters: `using `, `PFN_<name> `, `= `, `std::add_pointer<CL_API_ENTRY `, the proto's leading text with a space, the return type and its tail, a space, then `CL_API_CALL( ` |
| GenerateOpenCl.TypedefLine | scripts/generate_open_cl.py:134-215 | one line of `opencl_typedefs_gen.txt`: the head, the typedef parameter loop, then `)>::type;`. `RenderTypedef` is proved to build this line |
| GenerateOpenCl.WrapperHead | scripts/generate_open_cl.py:242-255 | the wrapper up to its parameters: `CL_API_ENTRY `, the proto's text with a space, the return type and tail, a space, `CL_API_CALL `, then `<name>(` with the line break stripped away (see `NameLineBreakStripped`) |
| GenerateOpenCl.NeedsReturn | scripts/generate_open_cl.py:318-321 | a `return` is needed unless the return type is `void` with nothing but whitespace after it. `ReturnStatement` proves this reading |
| GenerateOpenCl.ReturnKeyword | scripts/generate_open_cl.py:318-321 | `return ` when a return is needed, otherwise nothing |
| GenerateOpenCl.LogLine | scripts/generate_open_cl.py:315 | the logging statement on its own line: `LOG("<name>");` |
| GenerateOpenCl.CallTarget | scripts/generate_open_cl.py:323 | the forwarding call through the loaded pointer, up to its arguments: `gf_layers::opencl_capture::GetGlobalData()->opencl_pointers.<name>(` |
| GenerateOpenCl.WrapperBody | scripts/generate_open_cl.py:313-323 | between the wrapper's parameters and the call's arguments: `) {`, the `LOG` line, a new line with two spaces of indentation, the return keyword when needed, and the call target |
| GenerateOpenCl.WrapperText | scripts/generate_open_cl.py:242-352 | one entry of `opencl_prototypes_gen.txt`: head, wrapper parameter loop, body, call argument loop, then `);`, `}` and a blank line. `RenderWrapper` is proved to build this text |

## Left out

- Loader plumbing is not modelled: `vkCreateInstance`/`vkCreateDevice` chain walking, the `Get*ProcAddr` tables, interface negotiation, the dispatch-key casts and the `pNext` search in `util.cc`. The next layer's results are parameters.
- The shader fuzzer layer is not modelled. It is a thin wrapper over an external fuzzer, protobuf JSON and file writes.
- The OpenCL capture shim (`opencl_capture.cc`, `opencl_gen.h`) is not modelled. It is generated output plus dynamic loading, and it is not in step with the current generator.
- `BufferCopy` apart from `FindMemoryType` is not modelled. Its constructor and destructor record commands, wait on fences and map memory, which is GPU I/O.
- `DeepCopy`/`DeepDelete` and the create-info wrappers are not modelled. They only allocate and free memory.
- Settings lookup is not modelled. Environment variables, Android properties and `istringstream` parsing become `Option` inputs to `InitSettingsIfNeeded`. Logging is dropped.
- A failed write of the frame counter's report is not modelled. The source only logs it (`frame_counter_layer.cc` lines 198-206), for example when `output_file` is empty or cannot be opened. The model records every report as written to `output_file`.
- Concurrency is not modelled. Mutexes, atomics and the thread-local cache are modelled single-threaded. Clock readings in the frame counter are parameters.
- Util.ProtectedTinyStaleMap: the source's cache is a function-local `static thread_local` (`util.h` lines 101-104). It is therefore shared by every map of the same key and value types on one thread, and each thread has its own. The model gives each map its own cache, so a lookup in one map never refreshes or stales the cache of another map of the same type. The layers create one map per key and value type, so the two agree for them.
- Generator I/O is abstracted. `os.chdir`, `GF_LAYERS_REPO_ROOT`, argument parsing, globbing, reads and writes become a map from path to contents. The layer directories and their sources are inputs. The discovery glob `src/VK_LAYER_*/` is therefore not evaluated, and the model does not say which directories it matches.
- The `read_text`/`write_text` calls use `errors="ignore"`. Text is modelled as sequences of characters, with no encoding step.
- Regular expressions and XML parsing are decoders. The four identity patterns of `generate_files.py` are written out as string matchers, with `\d` as the ASCII digits. The export pattern's matches are inputs (`SourceFile.exports`). ElementTree output is an `Element` datatype.
- `--check_only` of `generate_open_cl.py` is parsed but never used. The model always writes, as the script does.
- GenerateFiles.ExitStatus: the `--check_only` help text promises exit status 2 for files that would change. The code raises `AssertionError`, which exits with 1. The model follows the code.
- LayerManifests.RenderManifest: the manifest is a fixed template, stated as its 24 lines. No JSON parser is modelled, so the key order and the function-name entries are the template itself rather than a read-back.
- BufferToFile.Writer.WriteComponents: it requires the padding to fit the eight zero bytes it is copied from. Padding of at most 8 bytes for every format in the conversion table is not proved.
- The body of the Amber file is still placeholder text in the source: `TODO` shader text, a fixed `PIPELINE` section and a `TODO` topology. The model writes that fixed text as it is (`DrawCallTracker.AmberFile`). The `BUFFER ...` stream built at lines 52-55 is never written and is not modelled.
- The headers under `include/vk_layer_amber_scoop/` are stale duplicates and are not modelled. Where the shown headers and the `.cc` files disagree, the `.cc` files are followed, and "is a draw call" means `kDraw` or `kDrawIndexed`.
- ShaderModuleData.ShaderModuleData.IsInUse: follows the code, so a destroyed module is never in use. The class comment says a destroyed module stays alive while pipelines use it.
- VulkanFormats.VulkanFormat.Create: no component's `format_mode` is ever assigned, so every component keeps the zero value. The header comment says otherwise; the model follows the code.

## Findings

| source | as written | input that shows it | evidently intended | confidence | as-written member | corrected member |
|---|---|---|---|---|---|---|
| src/VkLayer_GF_amber_scoop/include/VkLayer_GF_amber_scoop/vk_deep_copy.h:34-38 | the copy loop runs `i` up to `num_elements` into a result of `num_elements - offset` elements | any `offset > 0`, e.g. `num_elements = 2, offset = 1`: the last iteration writes `result[1]` of a one-element array | allocate `num_elements` elements, as the header comment at lines 24-27 documents; the loop already copies source elements `offset .. offset + num_elements - 1`. Looping only to `num_elements - offset` would also remove the overrun, but it contradicts that comment | high (not executed; the layer calls only the zero-offset form) | VkDeepCopy.AsWrittenOffsetOverruns | VkDeepCopy.CopyArray |
| src/VkLayer_GF_amber_scoop/src/buffer_to_file.cc:41-45 | `read_offset + bytes_to_write > data.size()` is a 64-bit unsigned sum, which wraps | `read_offset = 2^64 - 1`, a one-byte element and empty data: the sum wraps to 0 and the check passes | reject every read that reaches past the data | medium (not executed; such offsets do not arise from real buffers) | BufferToFile.AsWrittenCheckWraps | BufferToFile.Writer.WriteComponents |
