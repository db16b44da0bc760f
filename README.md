# vkwh compositor, frame driver and label stack in Dafny

This project models the core of vkwh, a small Vulkan rendering toolkit in Rust.
It covers three parts:

- **The layer compositor** (`compositor.dfy`, with `gpu.dfy` for the GPU vocabulary).
  It keeps an ordered list of layer objects. A live object renders straight into the swapchain image of the frame. A cached object renders into its own off-screen image, only when it is damaged, and that image is then copied whole into the frame.
  Each frame records three passes into one command buffer:
  1. the damage pass re-renders the damaged caches;
  2. the background clear;
  3. the merge pass, which walks the objects in order. It copies caches and renders live layers, and wraps each run of consecutive copies in one pair of layout barriers on the frame image.
- **The vulkano frame driver** (`frame_driver.dfy`). Each frame it:
  - recreates the swapchain when that was requested, skipping the frame for an empty window or an unsupported extent;
  - acquires an image;
  - lets every registered renderer record, in registration order;
  - executes, presents and flushes, and keeps the future of the frame.
- **The monospaced label stack** (`label_line.dfy`, `label_stack.dfy`). Named lines of coloured bytes become six vertices per byte. Each vertex's texture cell is looked up in a 1024 x 1024 glyph atlas.

The GPU is modelled as a command trace: barriers, clears, whole-image copies and layer renders.
- A layer render names the object's index and a target index. It resolves through the binding its layer holds now: the images of the last `set_output` made on that layer. A layer is shared (`LayerRef` is a reference-counted handle), so registering one layer twice rebinds it for every object that holds it. The compositor's `bindings` map, keyed by layer identity, models that shared state. A render whose target index the binding does not have fails (the layer indexes its framebuffers out of range).
- `TrackTarget` follows the frame image's layout along a trace. It fails on a barrier whose old layout is not the current one, on a copy into the image outside TRANSFER_DST, on an unresolvable render, and on a direct render outside PRESENT_SRC. The layers' render passes end in PRESENT_SRC but start from UNDEFINED, so the source would accept a direct render in any layout. Requiring PRESENT_SRC is this model's own, stricter discipline, and the compositor meets it.

Results the program gets from outside are parameters of the model:
- the acquired index and whether presentation succeeded;
- the window size;
- the results of swapchain recreation, acquisition and flushing.

A panic (`unwrap`, `panic!`, an out-of-range index, a division by zero) is a result value.

Two behaviours of the code worth knowing:
- `LayerCompositor::render` does not recover from an out-of-date surface. It unwraps both `acquire_next_image` and `queue_present`, so there it panics (`AcquirePanicked`, `presented == false`). Only `Vkr::render` handles out-of-date, by raising the recreate flag and skipping the frame.
- `LabelStack::to_vertices` always computes `1024 / font_size[0]`, so a zero font width panics even when there is no text. A width above 1024 gives zero cells per row, which panics at the first byte and nowhere else.

## Model

| member | source | states |
|---|---|---|
| Compositor.NewObject | src/compositor.rs:20-26 | A new object holds its layer and no cache. It does not touch the layer's binding. |
| Compositor.BuildInstant | src/compositor.rs:28-31 | The object is unchanged, and its layer is rebound to exactly the presentation images, in slot order. Every other layer keeps its binding. |
| Compositor.BuildCache | src/compositor.rs:33-74 | The object gets a cache that owns the image and memory and starts damaged, so the first frame renders it. Its layer is rebound to that single image, and every other layer keeps its binding. |
| Compositor.Teardown | src/compositor.rs:77-85 | Dropping an object first waits for the device to be idle. It then destroys exactly its cache image and frees exactly its memory, the memory after the image. An uncached object releases nothing. |
| Compositor.TeardownAllDrained | src/compositor.rs:77-85 | Dropping the whole object list never destroys or frees anything before a device-idle wait. |
| Compositor.TeardownAllDestroys | src/compositor.rs:77-85 | Dropping the list destroys an image if and only if it is the cache image of some object. |
| Compositor.TeardownAllFrees | src/compositor.rs:77-85 | Dropping the list frees a memory if and only if it backs the cache of some object. |
| Compositor.TeardownAllOrdered | src/compositor.rs:77-85 | When no two caches share memory, each cache's memory is freed only after its image has been destroyed. |
| Compositor.LastBindingWins | src/compositor.rs:28-74 | The last `set_output` on a layer wins: every object sharing the layer of the last object registered with it renders into that object's binding. |
| Compositor.DistinctLayersOwnOutputs | src/compositor.rs:143-151 | When no layer is registered twice, every object renders into the binding its own registration gave it. |
| Compositor.SharedAlikeOutputs | src/compositor.rs:143-151 | When objects sharing a layer were registered alike, live objects render into the presentation images and cached objects into one cache image. |
| Compositor.LiveThenCachedSameLayer | src/compositor.rs:143-273 | A layer registered live and then cached is bound to the cache image alone. The live object's direct render into slot 1 then has no output, so that frame is rejected. |
| Compositor.CachedThenLiveSameLayer | src/compositor.rs:143-273 | A layer registered cached and then live is bound to the presentation images, so on every slot nothing draws the cache image: the damage pass draws the cached object into presentation image 0 instead. On slot 0 the frame is also rejected, but only by this model's PRESENT_SRC rule for direct renders. |
| Compositor.RegisteredTeardownOrdered | src/compositor.rs:148-151 | Objects registered through the compositor own distinct memories, so the whole teardown frees each memory after its image. |
| Compositor.RegisteredWithDamage | src/compositor.rs:153-165 | Setting or clearing one damage flag keeps every cache image and memory, so the list stays registered. Every layer's binding is unchanged. |
| Compositor.LayerCompositor.constructor | src/compositor.rs:136-141 | A new compositor has one presentation image per slot and no objects. |
| Compositor.LayerCompositor.NewLayer | src/compositor.rs:143-146 | Appends one uncached object and rebinds its layer to every presentation image, which affects every earlier object sharing that layer. Other layers and the handle counter are unchanged. |
| Compositor.LayerCompositor.NewCachedLayer | src/compositor.rs:148-151 | Appends one damaged cached object with a fresh image and memory, distinct from every earlier cache. Its layer is rebound to that image alone, for every object sharing the layer. |
| Compositor.LayerCompositor.UpdateAll | src/compositor.rs:153-159 | Marks every cached object damaged. Uncached objects and all bindings are unchanged. |
| Compositor.LayerCompositor.MarkUpdate | src/compositor.rs:161-165 | Marks object `idx` damaged if it is cached and changes no other object. An index past the end panics and changes nothing. |
| Compositor.LayerCompositor.RecordDamagePass | src/compositor.rs:188-196 | Records the damage pass of the initial list, and leaves every object with its damage flag cleared. |
| Compositor.DamagePassRenders | src/compositor.rs:188-196 | The damage pass renders only damaged caches, always into target 0. It renders every damaged cache, in strictly increasing object order, so each at most once. |
| Compositor.DamagePassRendersIff | src/compositor.rs:188-196 | Object k is rendered into target 0 if and only if it is cached and damaged. |
| Compositor.DamagePassIdempotent | src/compositor.rs:188-196 | After a damage pass no cache is damaged, so a second pass records nothing. |
| Compositor.NoDamageNoRenders | src/compositor.rs:188-196 | With no damaged cache the damage pass is empty. |
| Compositor.UpdateAllRendersEveryCache | src/compositor.rs:153-159 | After update_all the next damage pass renders object k if and only if k is cached, in order. |
| Compositor.ClearPassLayout | src/compositor.rs:197-217 | The background clear takes the frame image from UNDEFINED through TRANSFER_DST back to PRESENT_SRC. |
| Compositor.RecordMergeStep | src/compositor.rs:231-266 | One iteration of the merge loop records that object's step given prev_copy. Afterwards prev_copy says whether the object was cached. |
| Compositor.LayerCompositor.RecordMergePass | src/compositor.rs:230-273 | Records the merge loop over all objects, and one closing barrier when the last object was a copy. |
| Compositor.MergeVisitsInOrder | src/compositor.rs:230-273 | Without barriers, the merge pass is one entry per object, in order. A cached object, damaged or not, gives a whole copy of its cache into the frame. An uncached object gives a direct render into the acquired slot. |
| Compositor.MergeLoopVisits | src/compositor.rs:231-266 | The same one-entry-per-object order holds at every prefix of the merge loop. |
| Compositor.MergeStepVisits | src/compositor.rs:232-265 | One merge step contributes exactly one copy or render. |
| Compositor.MergeSourceBarriers | src/compositor.rs:241-253 | In the merge pass every copy into the frame comes right after its source's PRESENT_SRC to TRANSFER_SRC barrier. Every barrier on a cache image comes right before that image's copy. |
| Compositor.MergeLoopSourceBarriers | src/compositor.rs:241-253 | The same pairing holds for the merge loop at every prefix. |
| Compositor.MergeStepPaired | src/compositor.rs:241-253 | One merge step pairs its source barrier with its copy. |
| Compositor.CopyRunsStep | src/compositor.rs:232-240 | Appending an object adds one run of consecutive cached objects exactly when it is cached and the object before it is not. |
| Compositor.MergeLoopBarrierCount | src/compositor.rs:230-266 | The loop records one PRESENT_SRC to TRANSFER_DST barrier per run of cached objects. It records one barrier back per run that an uncached object closes. |
| Compositor.MergeStepCount | src/compositor.rs:232-265 | A step opens a run exactly when it copies after a non-copy. It closes one exactly when it renders after a copy. |
| Compositor.MergeBarrierPairsPerRun | src/compositor.rs:230-273 | Over the whole merge pass both frame-image barriers occur exactly once per run of consecutive cached objects. |
| Compositor.DamagePassLeavesTarget | src/compositor.rs:188-196 | When every cached object's layer draws target 0 somewhere other than the frame image, the damage pass leaves the frame image's layout unchanged. |
| Compositor.MergeStepLayout | src/compositor.rs:232-265 | Every merge step is legal for the frame image and leaves it in TRANSFER_DST after a copy and PRESENT_SRC after a render. |
| Compositor.MergeLoopLayout | src/compositor.rs:230-266 | After the merge loop the frame image is in TRANSFER_DST exactly when the loop ended on a copy, otherwise PRESENT_SRC; no step is illegal. |
| Compositor.ClearDamageKeepsBinding | src/compositor.rs:188-196 | Clearing damage flags keeps every object's layer, mode and cache image, so the merge pass sees the same bindings. |
| Compositor.FrameLayoutDiscipline | src/compositor.rs:188-273 | Suppose cached objects' layers draw off the frame image, cache images are not the frame image, and live layers draw the acquired slot into it. Then every barrier, copy and render of the frame is layout-legal, and the frame image ends in PRESENT_SRC, ready to present. |
| Compositor.RegisteredFrameLayout | src/compositor.rs:143-288 | Every frame recorded for a registered list is layout-correct for any acquired slot, provided objects that share a layer were all registered live or all cached. This holds in particular when no layer is registered twice. |
| Compositor.LayerCompositor.Render | src/compositor.rs:167-288 | A failed acquire panics before anything is recorded. Otherwise the submitted buffer is the frame recording: damage pass, clear, merge pass. Every damage flag is cleared, and whether presentation succeeded is reported. When shared layers were registered alike, the recording is layout-correct under the layers' current bindings. |
| Compositor.CachedUnderLiveRecording | src/compositor.rs:188-273 | A damaged cache under a live layer gives, in order: one re-render, the clear, one barrier-wrapped copy, and the direct render. |
| Compositor.TwoCachesOneMarkedRecording | src/compositor.rs:161-273 | With two caches and only the first marked, only the first is re-rendered, yet both are copied inside a single barrier pair. |
| FrameDriver.Vkr.constructor | src/vkr.rs:25-39 | A new driver has no renderers, no pending recreation, a zero viewport, and the `now` future. |
| FrameDriver.Vkr.PushVkl | src/vkr.rs:41-43 | Appends one renderer and changes nothing else. |
| FrameDriver.Vkr.RecreateSwapchain | src/vkr.rs:45-47 | Only raises the recreate flag. |
| FrameDriver.Vkr.Recreate | src/vkr.rs:60-76 | An unsupported extent returns with the flag still set, and a failed recreation panics; neither changes anything. A successful one installs the new swapchain and images, calls update_images on every renderer, and clears the flag. |
| FrameDriver.Vkr.RenderEach | src/vkr.rs:101-104 | Every renderer records, in push order, with the acquired image and the current viewport. |
| FrameDriver.Vkr.Render | src/vkr.rs:49-130 | Covers every path of render. A flagged frame with an empty window only stores the viewport; an unsupported extent keeps the flag; out-of-date sets the flag and skips; suboptimal sets the flag for the next frame. A submitted frame calls the renderers in order and keeps its future, or `now` after a failed flush. |
| LabelLine.Default | src/layer/monotext/label_stack/line.rs:7-10 | The default line holds no characters. |
| LabelLine.NewColored | src/layer/monotext/label_stack/line.rs:13-19 | A colored line is one colour change to `color` followed by every byte of the text in order. It holds exactly one colour change. |
| LabelStack.AtlasCell | src/layer/monotext/label_stack/mod.rs:61-62 | The atlas cell of a byte is the unique (x, y) with x below the row width and y * width + x equal to the byte. |
| LabelStack.LabelStack.constructor | src/layer/monotext/label_stack/mod.rs:18-25 | A new stack has no lines and no keys, scaler 1.0, and the given font size. |
| LabelStack.LabelStack.SetScaler | src/layer/monotext/label_stack/mod.rs:27-29 | Replaces the scaler only. |
| LabelStack.LabelStack.AddText | src/layer/monotext/label_stack/mod.rs:31-41 | A known key's line is replaced in place and keeps its row. A new key gets the next row and its line is appended. Either way the key now shows the new line, every other key keeps its text, and keys and rows stay in bijection. |
| LabelStack.KeyOrderBijection | src/layer/monotext/label_stack/mod.rs:31-41 | The names map is a bijection between keys and line indices. |
| LabelStack.KeyOrderPush | src/layer/monotext/label_stack/mod.rs:36-40 | Inserting a fresh key at the current length keeps that bijection. (The insertion's `is_none` assertion cannot fire because the lookup just before it found no entry.) |
| LabelStack.LabelsOnReplace | src/layer/monotext/label_stack/mod.rs:32-35 | Replacing a known key's line changes what that key shows and nothing else. |
| LabelStack.LabelsOnPush | src/layer/monotext/label_stack/mod.rs:36-40 | Appending a line under a new key shows it under that key and changes nothing else. |
| LabelStack.LabelStack.PushGlyph | src/layer/monotext/label_stack/mod.rs:63-81 | The corner loop appends the six vertices of one glyph in the source's corner order. |
| LabelStack.LabelStack.ToVertices | src/layer/monotext/label_stack/mod.rs:43-85 | The result is the vertex list of all lines in order, or the division-by-zero panic exactly when the font width is zero or a byte meets zero cells per row. |
| LabelStack.BytesReachTotal | src/layer/monotext/label_stack/mod.rs:58-61 | Any byte in any line makes the stack's byte count positive, so the modulo by zero is reached. |
| LabelStack.LineVertexCount | src/layer/monotext/label_stack/mod.rs:50-82 | A line yields six vertices per byte and none for a colour change. |
| LabelStack.StackVertexCount | src/layer/monotext/label_stack/mod.rs:47-83 | The stack yields six vertices per byte over all lines. |
| LabelStack.LineVertexAt | src/layer/monotext/label_stack/mod.rs:48-82 | The byte at position p is drawn by the six vertices right after those of the earlier bytes. They use the colour in force there, the column counting earlier bytes only, and that byte's atlas cell. |
| LabelStack.ColorOfLast | src/layer/monotext/label_stack/mod.rs:48-55 | The colour in force is that of the last colour change before the byte. |
| LabelStack.ColorOfNone | src/layer/monotext/label_stack/mod.rs:48 | A line with no colour change is drawn white. |
| LabelStack.StackLineAt | src/layer/monotext/label_stack/mod.rs:47-83 | Line i is drawn on row i, by the vertices right after those of the lines above it. |
| LabelStack.ColoredLineVertices | src/layer/monotext/label_stack/line.rs:13-19 | A colored line yields six vertices per byte of its text, all in its colour. |
| LabelStack.ColoredPrefix | src/layer/monotext/label_stack/line.rs:13-19 | The same holds for every prefix of a colored line. |
| LabelStack.ByteAtCounts | src/layer/monotext/label_stack/mod.rs:56-58 | A byte at position j is counted: more bytes in the line than before j. |
| LabelStack.LineBytesInTotal | src/layer/monotext/label_stack/mod.rs:47-50 | No line holds more bytes than the whole stack. |
| LabelStack.TexgenAgreement | utils/font_texgen.py:6-30 | With the generator's 16 x 32 cells, the atlas is 64 cells wide and 32 rows high. Every byte falls inside it, in the cell where the generator drew character y * 64 + x, so the lookup is the inverse of the generator's layout. |
| LabelStack.TwoLinesVertices | src/layer/monotext/label_stack/mod.rs:43-85 | A two-byte colored line above a one-byte line gives eighteen vertices. |

## Left out

- LabelStack.LabelStack.ToVertices: vertex coordinates are kept as integer numerators. The f32 divisions by the viewport and by 1024, the `-1.0` offset and the scaler are not modelled, because the model does no float arithmetic. Colours are opaque f32 bit patterns.
- LabelStack.LabelStack.ToVertices: the numerators are unbounded integers, so u32 overflow (a panic in debug builds, wrap-around in release builds) is not modelled, and the model's vertices are the source's only while every product fits in 32 bits. The column numerator `(idx + 1) * width` (src/layer/monotext/label_stack/mod.rs:71) overflows at about 2^22 bytes in one line when the width is 1024. The row numerator `(idy + 1) * height` (mod.rs:73) overflows once the number of lines times the height reaches 2^32, so tall fonts overflow with few lines. The atlas row numerator `(uy + 1) * height` (mod.rs:68) overflows for very tall fonts, e.g. height 2^30 with width 16 at any byte of 192 or more. The i32 column counter and the `idy as u32` truncation fail past 2^31 bytes and 2^32 lines. Only the atlas column numerator `(ux + 1) * width` stays within 1024.
- FrameDriver.Vkr.Render: `cleanup_finished`, the f32 viewport conversion and its depth range, and the log lines are left out. So is the possible failure of creating and building the command buffer: the builder's creation fails when memory runs out, and `build()` also fails when a renderer leaves a render pass or a query open. Those unwraps would panic; the model's renderers always record successfully.
- FrameDriver.Vkr.Render: the GPU future chain is a value (`Now`, or a frame joined onto the previous future); fences and waiting are not modelled.
- Compositor.LayerCompositor.Render: semaphores, the reuse fence and the submission inside `record_submit_commandbuffer` are not modelled.
- Compositor.LayerCompositor.Render: Vulkan guarantees that the acquired index names a swapchain slot, so the model takes that as a precondition.
- Compositor.LayerCompositor.NewCachedLayer: failures of image creation, memory-type lookup, allocation and binding, all unwrapped in the source, are not modelled. Device handles are modelled as a counter of issued handles.
- Compositor.LayerCompositor.Render: the layout of cache images between frames is not tracked; only the frame image's layout is checked. The source moves a cache image from PRESENT_SRC to TRANSFER_SRC before each copy and never moves it back. Whether the next render of that layer accepts this depends on the layer's own render pass, which is not part of this model.
- Compositor.Teardown: `device_wait_idle().unwrap()` (compositor.rs:79) panics when the wait fails, on device loss or when host or device memory runs out. The model's wait always succeeds.
- Compositor.LayerCompositor.Render: a barrier is modelled by its image and its two layouts only. The stage masks that `BarrierBuilder::build` fixes (BOTTOM_OF_PIPE to TRANSFER), its TRANSFER_WRITE destination access and its empty source access are not modelled, so the frame lemmas prove layout-legality and say nothing about synchronisation.
- Compositor.LayerCompositor.constructor: `bindings` starts empty. A binding a layer held before registration is not modelled, because registration always rebinds the layer before any frame renders it.
- Compositor: a layer's own drawing (`Layer::render`, `set_output` beyond the binding it records) is an abstract `RenderLayer` command. The layers in `src/layer/` (clear, triangles, image viewer) are not part of this model.
- Compositor: the read/write locks around the base and the layers are not modelled. Their `unwrap`s only fail on a poisoned lock, and the model is single-threaded.
- The window system, the device and swapchain setup (`src/vks.rs`) and the sample program (`src/bin/test.rs`) are not part of this model. The renderers behind `Vkr` (`src/vkl/`) appear only through the `update_images` and `render` calls made on them.
