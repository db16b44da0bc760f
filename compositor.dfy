/**
 * The layer compositor: an ordered list of layer objects, each either live
 * (rendered straight into the frame's presentation image) or cached (rendered
 * into an off-screen image only when damaged, then copied whole into the frame).
 * The GPU is an abstract command trace; the presentation image's layout is
 * followed by a checker over that trace.
 */
module Compositor {
  import opened Wrappers
  import opened Gpu

  // ---------------------------------------------------------------------------
  // Data model
  // ---------------------------------------------------------------------------

  /** An owned off-screen image, its memory, and whether it must be re-rendered. */
  datatype LayerCache = LayerCache(image: Image, memory: Memory, damage: bool)

  /** A registered layer: the layer's identity and its cache when it was registered as cached. */
  datatype LayerObject = LayerObject(layer: nat, cache: Option<LayerCache>)

  /**
   * The images each layer was last given with `set_output`, keyed by the
   * layer's identity. The binding lives in the layer, which is shared: every
   * object registered with the same layer sees the binding set last.
   */
  type Bindings = map<nat, seq<Image>>

  predicate IsCached(lo: LayerObject) { lo.cache.Some? }

  predicate IsDamaged(lo: LayerObject) { lo.cache.Some? && lo.cache.value.damage }

  /** The object with its damage flag set to `d`; an uncached object is unchanged. */
  function WithDamage(lo: LayerObject, d: bool): LayerObject
  {
    match lo.cache
    case None => lo
    case Some(c) => lo.(cache := Some(c.(damage := d)))
  }

  /** The presentation images of a swapchain with `n` slots. */
  function Slots(n: nat): seq<Image>
  {
    seq(n, s requires 0 <= s < n => PresentImage(s))
  }

  /** The images layer `layer` renders into: its binding, or none while it was never bound. */
  function Resolve(b: Bindings, layer: nat): seq<Image>
  {
    if layer in b then b[layer] else []
  }

  /** The images every object renders into, by position, through its layer's binding. */
  function Outputs(los: seq<LayerObject>, b: Bindings): seq<seq<Image>>
  {
    seq(|los|, k requires 0 <= k < |los| => Resolve(b, los[k].layer))
  }

  // ---------------------------------------------------------------------------
  // LayerObject construction and teardown
  // ---------------------------------------------------------------------------

  /** LayerObject::new: no cache yet; the layer's binding is not touched. */
  function NewObject(layer: nat): (lo: LayerObject)
    ensures lo.layer == layer && !IsCached(lo)
  {
    LayerObject(layer, None)
  }

  /**
   * build_instant: the layer is rebound to every presentation image; the object
   * keeps its cache. Every other layer keeps its binding.
   */
  function BuildInstant(lo: LayerObject, b: Bindings, presentImages: seq<Image>): (r: (LayerObject, Bindings))
    ensures r.0 == lo
    ensures Resolve(r.1, lo.layer) == presentImages
    ensures forall l :: l != lo.layer ==> Resolve(r.1, l) == Resolve(b, l)
  {
    (lo, b[lo.layer := presentImages])
  }

  /**
   * build_cache: the layer is rebound to the single cache image (render target
   * index 0), and the new cache starts damaged so the first frame renders it.
   * Every other layer keeps its binding.
   */
  function BuildCache(lo: LayerObject, b: Bindings, image: Image, memory: Memory): (r: (LayerObject, Bindings))
    ensures r.0.layer == lo.layer && IsDamaged(r.0)
    ensures r.0.cache.value.image == image && r.0.cache.value.memory == memory
    ensures Resolve(r.1, lo.layer) == [image]
    ensures forall l :: l != lo.layer ==> Resolve(r.1, l) == Resolve(b, l)
  {
    (lo.(cache := Some(LayerCache(image, memory, true))), b[lo.layer := [image]])
  }

  /** Every destroy or free is preceded by a wait for device idle. */
  predicate DrainedBeforeRelease(ops: seq<DeviceOp>)
  {
    forall j :: 0 <= j < |ops| && !ops[j].WaitIdle? ==>
      exists i :: 0 <= i < j && ops[i] == WaitIdle
  }

  /** Memory `m` is freed only after image `img` has been destroyed. */
  predicate FreedAfterDestroyed(ops: seq<DeviceOp>, img: Image, m: Memory)
  {
    forall j :: 0 <= j < |ops| && ops[j] == FreeMemory(m) ==>
      exists i :: 0 <= i < j && ops[i] == DestroyImage(img)
  }

  /** Drop for LayerObject: the device calls the destructor makes, in order. */
  function Teardown(lo: LayerObject): (ops: seq<DeviceOp>)
    ensures |ops| > 0 && ops[0] == WaitIdle
    ensures DrainedBeforeRelease(ops)
    ensures forall img :: DestroyImage(img) in ops <==> lo.cache.Some? && img == lo.cache.value.image
    ensures forall m :: FreeMemory(m) in ops <==> lo.cache.Some? && m == lo.cache.value.memory
    ensures lo.cache.Some? ==> FreedAfterDestroyed(ops, lo.cache.value.image, lo.cache.value.memory)
  {
    [WaitIdle] +
    match lo.cache
    case None => []
    case Some(c) => [DestroyImage(c.image), FreeMemory(c.memory)]
  }

  /** No two cached objects share backing memory. */
  predicate DistinctMemories(los: seq<LayerObject>)
  {
    forall j, k :: 0 <= j < k < |los| && IsCached(los[j]) && IsCached(los[k]) ==>
      los[j].cache.value.memory != los[k].cache.value.memory
  }

  /** Dropping the object vector: each element is dropped in turn, front to back. */
  function TeardownAll(los: seq<LayerObject>): seq<DeviceOp>
  {
    if los == [] then [] else TeardownAll(los[..|los| - 1]) + Teardown(los[|los| - 1])
  }

  lemma DrainedAppend(a: seq<DeviceOp>, b: seq<DeviceOp>)
    requires DrainedBeforeRelease(a) && DrainedBeforeRelease(b)
    ensures DrainedBeforeRelease(a + b)
  {
    forall j | 0 <= j < |a + b| && !(a + b)[j].WaitIdle?
      ensures exists i :: 0 <= i < j && (a + b)[i] == WaitIdle
    {
      if j < |a| {
        var i :| 0 <= i < j && a[i] == WaitIdle;
        assert (a + b)[i] == WaitIdle;
      } else {
        assert b[j - |a|] == (a + b)[j];
        var i :| 0 <= i < j - |a| && b[i] == WaitIdle;
        assert (a + b)[|a| + i] == WaitIdle;
      }
    }
  }

  /** Dropping the compositor's objects waits for device idle before any destroy or free. */
  lemma {:induction false} TeardownAllDrained(los: seq<LayerObject>)
    ensures DrainedBeforeRelease(TeardownAll(los))
  {
    if los != [] {
      var n := |los| - 1;
      TeardownAllDrained(los[..n]);
      DrainedAppend(TeardownAll(los[..n]), Teardown(los[n]));
    }
  }

  /** Dropping the compositor's objects destroys exactly the cache images... */
  lemma {:induction false} TeardownAllDestroys(los: seq<LayerObject>)
    ensures forall img :: DestroyImage(img) in TeardownAll(los) <==>
      exists k :: 0 <= k < |los| && IsCached(los[k]) && los[k].cache.value.image == img
  {
    if los != [] {
      var n := |los| - 1;
      var init := los[..n];
      TeardownAllDestroys(init);
      var a, b := TeardownAll(init), Teardown(los[n]);
      forall img ensures DestroyImage(img) in a + b <==>
        exists k :: 0 <= k < |los| && IsCached(los[k]) && los[k].cache.value.image == img
      {
        if DestroyImage(img) in a {
          var k :| 0 <= k < |init| && IsCached(init[k]) && init[k].cache.value.image == img;
          assert los[k] == init[k];
        }
        if exists k :: 0 <= k < |los| && IsCached(los[k]) && los[k].cache.value.image == img {
          var k :| 0 <= k < |los| && IsCached(los[k]) && los[k].cache.value.image == img;
          if k < n { assert init[k] == los[k]; }
        }
      }
    }
  }

  /** ...and frees exactly their memories. */
  lemma {:induction false} TeardownAllFrees(los: seq<LayerObject>)
    ensures forall m :: FreeMemory(m) in TeardownAll(los) <==>
      exists k :: 0 <= k < |los| && IsCached(los[k]) && los[k].cache.value.memory == m
  {
    if los != [] {
      var n := |los| - 1;
      var init := los[..n];
      TeardownAllFrees(init);
      var a, b := TeardownAll(init), Teardown(los[n]);
      forall m ensures FreeMemory(m) in a + b <==>
        exists k :: 0 <= k < |los| && IsCached(los[k]) && los[k].cache.value.memory == m
      {
        if FreeMemory(m) in a {
          var k :| 0 <= k < |init| && IsCached(init[k]) && init[k].cache.value.memory == m;
          assert los[k] == init[k];
        }
        if exists k :: 0 <= k < |los| && IsCached(los[k]) && los[k].cache.value.memory == m {
          var k :| 0 <= k < |los| && IsCached(los[k]) && los[k].cache.value.memory == m;
          if k < n { assert init[k] == los[k]; }
        }
      }
    }
  }

  /** With distinct memories, dropping the objects frees each cache's memory only after its image is destroyed. */
  lemma {:induction false} TeardownAllOrdered(los: seq<LayerObject>)
    requires DistinctMemories(los)
    ensures forall k :: 0 <= k < |los| && IsCached(los[k]) ==>
      FreedAfterDestroyed(TeardownAll(los), los[k].cache.value.image, los[k].cache.value.memory)
  {
    if los != [] {
      var n := |los| - 1;
      var init := los[..n];
      TeardownAllOrdered(init);
      TeardownAllFrees(init);
      var a, b := TeardownAll(init), Teardown(los[n]);
      forall k | 0 <= k < |los| && IsCached(los[k])
        ensures FreedAfterDestroyed(a + b, los[k].cache.value.image, los[k].cache.value.memory)
      {
        var img, m := los[k].cache.value.image, los[k].cache.value.memory;
        if k < n {
          assert init[k] == los[k];
          assert FreeMemory(m) !in b;
        } else {
          if FreeMemory(m) in a {
            assert false;
          }
        }
        FreedAppend(a, b, img, m);
      }
    }
  }

  lemma FreedAppend(a: seq<DeviceOp>, b: seq<DeviceOp>, img: Image, m: Memory)
    requires FreedAfterDestroyed(a, img, m) && FreedAfterDestroyed(b, img, m)
    ensures FreedAfterDestroyed(a + b, img, m)
  {
    forall j | 0 <= j < |a + b| && (a + b)[j] == FreeMemory(m)
      ensures exists i :: 0 <= i < j && (a + b)[i] == DestroyImage(img)
    {
      if j < |a| {
        assert a[j] == FreeMemory(m);
        var i :| 0 <= i < j && a[i] == DestroyImage(img);
        assert (a + b)[i] == DestroyImage(img);
      } else {
        assert b[j - |a|] == FreeMemory(m);
        var i :| 0 <= i < j - |a| && b[i] == DestroyImage(img);
        assert (a + b)[|a| + i] == DestroyImage(img);
      }
    }
  }

  // ---------------------------------------------------------------------------
  // Registration invariant
  // ---------------------------------------------------------------------------

  /** A registered cache: its image and memory are the handles with one id, handed out before `issued`. */
  predicate CacheIssued(lo: LayerObject, issued: nat)
  {
    match lo.cache
    case None => true
    case Some(c) => c.image.CacheImage? && c.image.id < issued && c.memory == Memory(c.image.id)
  }

  /** Every cache was issued by the compositor, and cache images are pairwise distinct. */
  predicate Registered(los: seq<LayerObject>, issued: nat)
  {
    (forall k :: 0 <= k < |los| ==> CacheIssued(los[k], issued)) &&
    (forall j, k :: 0 <= j < k < |los| && IsCached(los[j]) && IsCached(los[k]) ==>
       los[j].cache.value.image != los[k].cache.value.image)
  }

  /** The binding that registering `lo` gives its layer. */
  function OwnBinding(lo: LayerObject, presentImages: seq<Image>): seq<Image>
  {
    match lo.cache
    case None => presentImages
    case Some(c) => [c.image]
  }

  /** The bindings after registering `los` in order, each registration rebinding its layer. */
  function BindingsOf(los: seq<LayerObject>, presentImages: seq<Image>): Bindings
  {
    if los == [] then map[]
    else
      var n := |los| - 1;
      BindingsOf(los[..n], presentImages)[los[n].layer := OwnBinding(los[n], presentImages)]
  }

  /**
   * The last set_output wins: when object `j` is the last one registered with
   * its layer, every object sharing that layer renders into `j`'s binding.
   */
  lemma {:induction false} LastBindingWins(los: seq<LayerObject>, presentImages: seq<Image>, j: nat)
    requires j < |los| && forall m :: j < m < |los| ==> los[m].layer != los[j].layer
    ensures forall k :: 0 <= k < |los| && los[k].layer == los[j].layer ==>
      Outputs(los, BindingsOf(los, presentImages))[k] == OwnBinding(los[j], presentImages)
  {
    var n := |los| - 1;
    var init := los[..n];
    if j < n {
      forall m | j < m < n ensures init[m].layer != init[j].layer {
        assert init[m] == los[m] && init[j] == los[j];
      }
      LastBindingWins(init, presentImages, j);
      assert Outputs(init, BindingsOf(init, presentImages))[j] == OwnBinding(los[j], presentImages);
    }
  }

  /** The layers of `los` are pairwise distinct: no layer is registered twice. */
  predicate DistinctLayers(los: seq<LayerObject>)
  {
    forall j, k :: 0 <= j < k < |los| ==> los[j].layer != los[k].layer
  }

  /** With no layer registered twice, every object renders into its own binding. */
  lemma DistinctLayersOwnOutputs(los: seq<LayerObject>, presentImages: seq<Image>)
    requires DistinctLayers(los)
    ensures forall k :: 0 <= k < |los| ==>
      Outputs(los, BindingsOf(los, presentImages))[k] == OwnBinding(los[k], presentImages)
  {
    forall k | 0 <= k < |los|
      ensures Outputs(los, BindingsOf(los, presentImages))[k] == OwnBinding(los[k], presentImages)
    {
      LastBindingWins(los, presentImages, k);
    }
  }

  /** Lists with the same layers and the same registration bindings give the same bindings. */
  lemma {:induction false} BindingsOfAlike(a: seq<LayerObject>, b: seq<LayerObject>, presentImages: seq<Image>)
    requires |a| == |b|
    requires forall k :: 0 <= k < |a| ==>
      a[k].layer == b[k].layer && OwnBinding(a[k], presentImages) == OwnBinding(b[k], presentImages)
    ensures BindingsOf(a, presentImages) == BindingsOf(b, presentImages)
  {
    if a != [] {
      var n := |a| - 1;
      forall k | 0 <= k < n
        ensures a[..n][k].layer == b[..n][k].layer
        ensures OwnBinding(a[..n][k], presentImages) == OwnBinding(b[..n][k], presentImages)
      {
        assert a[..n][k] == a[k] && b[..n][k] == b[k];
      }
      BindingsOfAlike(a[..n], b[..n], presentImages);
    }
  }

  // ---------------------------------------------------------------------------
  /**
   * Registered objects own pairwise distinct memories, so dropping them frees
   * every cache's memory only after destroying its image.
   */
  lemma RegisteredTeardownOrdered(los: seq<LayerObject>, issued: nat)
    requires Registered(los, issued)
    ensures DistinctMemories(los)
    ensures forall k :: 0 <= k < |los| && IsCached(los[k]) ==>
      FreedAfterDestroyed(TeardownAll(los), los[k].cache.value.image, los[k].cache.value.memory)
  {
    forall j, k | 0 <= j < k < |los| && IsCached(los[j]) && IsCached(los[k])
      ensures los[j].cache.value.memory != los[k].cache.value.memory
    {
      assert CacheIssued(los[j], issued) && CacheIssued(los[k], issued);
    }
    TeardownAllOrdered(los);
  }

  /** Setting or clearing one object's damage flag keeps the list registered and every binding. */
  lemma RegisteredWithDamage(los: seq<LayerObject>, i: nat, d: bool, presentImages: seq<Image>, issued: nat)
    requires i < |los| && Registered(los, issued)
    ensures Registered(los[i := WithDamage(los[i], d)], issued)
    ensures BindingsOf(los[i := WithDamage(los[i], d)], presentImages) == BindingsOf(los, presentImages)
  {
    var los' := los[i := WithDamage(los[i], d)];
    forall k | 0 <= k < |los|
      ensures IsCached(los'[k]) == IsCached(los[k]) && los'[k].layer == los[k].layer
      ensures OwnBinding(los'[k], presentImages) == OwnBinding(los[k], presentImages)
      ensures IsCached(los[k]) ==> los'[k].cache.value.image == los[k].cache.value.image &&
                                   los'[k].cache.value.memory == los[k].cache.value.memory
      ensures CacheIssued(los'[k], issued)
    {
      assert CacheIssued(los[k], issued);
    }
    BindingsOfAlike(los', los, presentImages);
  }

  // The recording of one frame, as functions of the object list
  // ---------------------------------------------------------------------------

  /** Every object with its damage flag cleared (the state after a damage pass). */
  function ClearDamage(los: seq<LayerObject>): seq<LayerObject>
  {
    seq(|los|, k requires 0 <= k < |los| => WithDamage(los[k], false))
  }

  /** Every cached object marked damaged (update_all). */
  function MarkAll(los: seq<LayerObject>): seq<LayerObject>
  {
    seq(|los|, k requires 0 <= k < |los| => WithDamage(los[k], true))
  }

  /**
   * Damage pass: walking the objects in order, one render into target 0 (the
   * object's cache image) for every cached object whose cache is damaged.
   */
  function DamagePass(los: seq<LayerObject>): seq<Cmd>
  {
    if los == [] then []
    else
      var n := |los| - 1;
      DamagePass(los[..n]) + (if IsDamaged(los[n]) then [RenderLayer(n, 0)] else [])
  }

  lemma DamagePassUnfold(los: seq<LayerObject>, i: nat)
    requires i < |los|
    ensures DamagePass(los[..i + 1]) == DamagePass(los[..i]) + (if IsDamaged(los[i]) then [RenderLayer(i, 0)] else [])
  {
    assert los[..i + 1][..i] == los[..i];
  }

  /** The unconditional background clear of the target image `t`. */
  function ClearPass(t: Image): seq<Cmd>
  {
    [Barrier(t, Undefined, TransferDst), ClearColor(t), Barrier(t, TransferDst, PresentSrc)]
  }

  /** The value of prev_copy after visiting `los`: the last object visited was copied. */
  predicate EndsCopied(los: seq<LayerObject>)
  {
    |los| > 0 && IsCached(los[|los| - 1])
  }

  /** The commands the merge loop emits for object `k`, given prev_copy. */
  function MergeStep(lo: LayerObject, k: nat, prevCopy: bool, t: Image, presentIndex: nat): seq<Cmd>
  {
    match lo.cache
    case Some(c) =>
      (if prevCopy then [] else [Barrier(t, PresentSrc, TransferDst)]) +
      [Barrier(c.image, PresentSrc, TransferSrc), CopyWhole(c.image, t)]
    case None =>
      (if prevCopy then [Barrier(t, TransferDst, PresentSrc)] else []) +
      [RenderLayer(k, presentIndex)]
  }

  /** The merge loop over `los`, before the closing barrier. */
  function MergeLoop(los: seq<LayerObject>, t: Image, presentIndex: nat): seq<Cmd>
  {
    if los == [] then []
    else
      var n := |los| - 1;
      MergeLoop(los[..n], t, presentIndex) + MergeStep(los[n], n, EndsCopied(los[..n]), t, presentIndex)
  }

  lemma MergeLoopUnfold(los: seq<LayerObject>, i: nat, t: Image, presentIndex: nat)
    requires i < |los|
    ensures MergeLoop(los[..i + 1], t, presentIndex) ==
      MergeLoop(los[..i], t, presentIndex) + MergeStep(los[i], i, EndsCopied(los[..i]), t, presentIndex)
    ensures EndsCopied(los[..i + 1]) == IsCached(los[i])
  {
    assert los[..i + 1][..i] == los[..i];
  }

  /** One iteration of the merge loop: the pushes for object `k`, and prev_copy after it. */
  method RecordMergeStep(cmds: seq<Cmd>, prevCopy: bool, lo: LayerObject, k: nat, image: Image, presentIndex: nat)
    returns (cmds': seq<Cmd>, prevCopy': bool)
    ensures cmds' == cmds + MergeStep(lo, k, prevCopy, image, presentIndex)
    ensures prevCopy' == IsCached(lo)
  {
    cmds' := cmds;
    ghost var pushed: seq<Cmd> := [];
    assert cmds + pushed == cmds;
    match lo.cache {
      case Some(c) =>
        if !prevCopy {
          PushOnto(cmds, pushed, Barrier(image, PresentSrc, TransferDst));
          cmds', pushed := cmds' + [Barrier(image, PresentSrc, TransferDst)], pushed + [Barrier(image, PresentSrc, TransferDst)];
        }
        prevCopy' := true;
        PushOnto(cmds, pushed, Barrier(c.image, PresentSrc, TransferSrc));
        cmds', pushed := cmds' + [Barrier(c.image, PresentSrc, TransferSrc)], pushed + [Barrier(c.image, PresentSrc, TransferSrc)];
        PushOnto(cmds, pushed, CopyWhole(c.image, image));
        cmds', pushed := cmds' + [CopyWhole(c.image, image)], pushed + [CopyWhole(c.image, image)];
      case None =>
        if prevCopy {
          PushOnto(cmds, pushed, Barrier(image, TransferDst, PresentSrc));
          cmds', pushed := cmds' + [Barrier(image, TransferDst, PresentSrc)], pushed + [Barrier(image, TransferDst, PresentSrc)];
        }
        prevCopy' := false;
        PushOnto(cmds, pushed, RenderLayer(k, presentIndex));
        cmds', pushed := cmds' + [RenderLayer(k, presentIndex)], pushed + [RenderLayer(k, presentIndex)];
    }
    assert pushed == MergeStep(lo, k, prevCopy, image, presentIndex);
  }

  /** Pushing one command after `pushed`, all after `done`. */
  lemma PushOnto(done: seq<Cmd>, pushed: seq<Cmd>, c: Cmd)
    ensures done + pushed + [c] == done + (pushed + [c])
  {
  }

  /** The merge pass: the loop and, when it ended on a copy, the barrier back to PRESENT_SRC. */
  function MergePass(los: seq<LayerObject>, t: Image, presentIndex: nat): seq<Cmd>
  {
    MergeLoop(los, t, presentIndex) + (if EndsCopied(los) then [Barrier(t, TransferDst, PresentSrc)] else [])
  }

  /** Everything recorded for one frame into target `t`, acquired as slot `presentIndex`. */
  function Recording(los: seq<LayerObject>, t: Image, presentIndex: nat): seq<Cmd>
  {
    DamagePass(los) + ClearPass(t) + MergePass(ClearDamage(los), t, presentIndex)
  }

  // ---------------------------------------------------------------------------
  // Damage pass and idempotence
  // ---------------------------------------------------------------------------

  /**
   * The damage pass renders, in registration order and each at most once, exactly
   * the damaged cached objects, always into target index 0.
   */
  lemma {:induction false} DamagePassRenders(los: seq<LayerObject>)
    ensures forall j :: 0 <= j < |DamagePass(los)| ==>
      DamagePass(los)[j].RenderLayer? && DamagePass(los)[j].target == 0 &&
      DamagePass(los)[j].obj < |los| && IsDamaged(los[DamagePass(los)[j].obj])
    ensures forall k :: 0 <= k < |los| && IsDamaged(los[k]) ==> RenderLayer(k, 0) in DamagePass(los)
    ensures forall i, j :: 0 <= i < j < |DamagePass(los)| ==> DamagePass(los)[i].obj < DamagePass(los)[j].obj
  {
    if los != [] {
      var n := |los| - 1;
      var init := los[..n];
      DamagePassRenders(init);
      var d := DamagePass(init);
      assert DamagePass(los) == d + (if IsDamaged(los[n]) then [RenderLayer(n, 0)] else []);
      forall k | 0 <= k < |los| && IsDamaged(los[k]) ensures RenderLayer(k, 0) in DamagePass(los) {
        if k < n { assert init[k] == los[k]; }
      }
    }
  }

  /** A render into target 0 of object k happens exactly when k is cached and damaged. */
  lemma DamagePassRendersIff(los: seq<LayerObject>, k: nat)
    ensures RenderLayer(k, 0) in DamagePass(los) <==> k < |los| && IsDamaged(los[k])
  {
    DamagePassRenders(los);
    if RenderLayer(k, 0) in DamagePass(los) {
      var j :| 0 <= j < |DamagePass(los)| && DamagePass(los)[j] == RenderLayer(k, 0);
    }
  }

  /** After a damage pass no cache is damaged, so a second pass renders nothing. */
  lemma DamagePassIdempotent(los: seq<LayerObject>)
    ensures forall k :: 0 <= k < |ClearDamage(los)| ==> !IsDamaged(ClearDamage(los)[k])
    ensures DamagePass(ClearDamage(los)) == []
  {
    NoDamageNoRenders(ClearDamage(los));
  }

  /** With no damaged cache, the damage pass records nothing. */
  lemma {:induction false} NoDamageNoRenders(los: seq<LayerObject>)
    requires forall k :: 0 <= k < |los| ==> !IsDamaged(los[k])
    ensures DamagePass(los) == []
  {
    if los != [] {
      var n := |los| - 1;
      assert forall k :: 0 <= k < n ==> los[..n][k] == los[k];
      NoDamageNoRenders(los[..n]);
    }
  }

  /** After update_all, one frame re-renders every cached object, each exactly once, in order. */
  lemma UpdateAllRendersEveryCache(los: seq<LayerObject>)
    ensures forall k: nat :: RenderLayer(k, 0) in DamagePass(MarkAll(los)) <==> k < |los| && IsCached(los[k])
    ensures forall j :: 0 <= j < |DamagePass(MarkAll(los))| ==> DamagePass(MarkAll(los))[j].RenderLayer?
    ensures forall i, j :: 0 <= i < j < |DamagePass(MarkAll(los))| ==>
      DamagePass(MarkAll(los))[i].obj < DamagePass(MarkAll(los))[j].obj
  {
    DamagePassRenders(MarkAll(los));
    forall k: nat ensures RenderLayer(k, 0) in DamagePass(MarkAll(los)) <==> k < |los| && IsCached(los[k]) {
      DamagePassRendersIff(MarkAll(los), k);
    }
  }

  // ---------------------------------------------------------------------------
  // Merge pass: order, copies, barriers
  // ---------------------------------------------------------------------------

  /** What the merge contributes for object `k`: a whole-image copy of its cache, or its direct render. */
  function Contribution(lo: LayerObject, k: nat, t: Image, presentIndex: nat): Cmd
  {
    match lo.cache
    case Some(c) => CopyWhole(c.image, t)
    case None => RenderLayer(k, presentIndex)
  }

  /** The copies and renders of a trace, in order; barriers and clears dropped. */
  function Visits(cmds: seq<Cmd>): seq<Cmd>
  {
    if cmds == [] then []
    else (if cmds[0].CopyWhole? || cmds[0].RenderLayer? then [cmds[0]] else []) + Visits(cmds[1..])
  }

  lemma {:induction false} VisitsAppend(a: seq<Cmd>, b: seq<Cmd>)
    ensures Visits(a + b) == Visits(a) + Visits(b)
  {
    if a == [] {
      assert a + b == b;
    } else {
      var ab := a + b;
      var head: seq<Cmd> := if a[0].CopyWhole? || a[0].RenderLayer? then [a[0]] else [];
      assert ab[0] == a[0];
      assert ab[1..] == a[1..] + b;
      VisitsAppend(a[1..], b);
      assert Visits(ab) == head + (Visits(a[1..]) + Visits(b));
      assert Visits(a) == head + Visits(a[1..]);
    }
  }

  /**
   * The merge pass visits the objects in registration order, each exactly once:
   * a cached object by a whole-image copy of its cache (damaged or not), an
   * uncached one by a direct render into the acquired slot.
   */
  lemma {:induction false} MergeVisitsInOrder(los: seq<LayerObject>, t: Image, presentIndex: nat)
    ensures |Visits(MergePass(los, t, presentIndex))| == |los|
    ensures forall k :: 0 <= k < |los| ==>
      Visits(MergePass(los, t, presentIndex))[k] == Contribution(los[k], k, t, presentIndex)
  {
    MergeLoopVisits(los, t, presentIndex);
    var closing := if EndsCopied(los) then [Barrier(t, TransferDst, PresentSrc)] else [];
    VisitsAppend(MergeLoop(los, t, presentIndex), closing);
    assert Visits(closing) == [];
  }

  lemma {:induction false} MergeLoopVisits(los: seq<LayerObject>, t: Image, presentIndex: nat)
    ensures |Visits(MergeLoop(los, t, presentIndex))| == |los|
    ensures forall k :: 0 <= k < |los| ==>
      Visits(MergeLoop(los, t, presentIndex))[k] == Contribution(los[k], k, t, presentIndex)
  {
    if los != [] {
      var n := |los| - 1;
      var init := los[..n];
      MergeLoopVisits(init, t, presentIndex);
      var a := MergeLoop(init, t, presentIndex);
      var b := MergeStep(los[n], n, EndsCopied(init), t, presentIndex);
      MergeStepVisits(los[n], n, EndsCopied(init), t, presentIndex);
      VisitsAppend(a, b);
      var va := Visits(a);
      var v := va + [Contribution(los[n], n, t, presentIndex)];
      assert Visits(MergeLoop(los, t, presentIndex)) == v;
      forall k | 0 <= k < |los|
        ensures v[k] == Contribution(los[k], k, t, presentIndex)
      {
        if k < n {
          assert v[k] == va[k];
          assert init[k] == los[k];
        }
      }
    }
  }

  lemma MergeStepVisits(lo: LayerObject, k: nat, prevCopy: bool, t: Image, presentIndex: nat)
    ensures Visits(MergeStep(lo, k, prevCopy, t, presentIndex)) == [Contribution(lo, k, t, presentIndex)]
  {
    var step := MergeStep(lo, k, prevCopy, t, presentIndex);
    match lo.cache
    case Some(c) =>
      var last := [CopyWhole(c.image, t)];
      var first := step[..|step| - 1];
      assert step == first + last;
      VisitsAppend(first, last);
      if !prevCopy { assert Visits(first) == Visits(first[1..]); }
    case None =>
      if prevCopy {
        assert step == [Barrier(t, TransferDst, PresentSrc)] + [RenderLayer(k, presentIndex)];
        VisitsAppend([Barrier(t, TransferDst, PresentSrc)], [RenderLayer(k, presentIndex)]);
      }
  }

  /**
   * Each copy reads a cache image that was just transitioned PRESENT_SRC to
   * TRANSFER_SRC, and each barrier on an image other than `t` is that source
   * barrier, followed at once by the copy of that image into `t`.
   */
  predicate SourceBarriersPaired(cmds: seq<Cmd>, t: Image)
  {
    (forall j :: 0 <= j < |cmds| && cmds[j].CopyWhole? ==>
       cmds[j].dst == t && 0 < j && cmds[j - 1] == Barrier(cmds[j].src, PresentSrc, TransferSrc)) &&
    (forall j :: 0 <= j < |cmds| && cmds[j].Barrier? && cmds[j].image != t ==>
       cmds[j].from == PresentSrc && cmds[j].to == TransferSrc &&
       j + 1 < |cmds| && cmds[j + 1] == CopyWhole(cmds[j].image, t))
  }

  lemma PairedAppend(a: seq<Cmd>, b: seq<Cmd>, t: Image)
    requires SourceBarriersPaired(a, t) && SourceBarriersPaired(b, t)
    ensures SourceBarriersPaired(a + b, t)
  {
    forall j | |a| <= j < |a + b| ensures (a + b)[j] == b[j - |a|] { }
  }

  /** One step of the merge loop pairs its source barrier with its copy. */
  lemma MergeStepPaired(lo: LayerObject, k: nat, prevCopy: bool, t: Image, presentIndex: nat)
    requires IsCached(lo) ==> lo.cache.value.image != t
    ensures SourceBarriersPaired(MergeStep(lo, k, prevCopy, t, presentIndex), t)
  {
    match lo.cache
    case Some(c) =>
      var tail := [Barrier(c.image, PresentSrc, TransferSrc), CopyWhole(c.image, t)];
      if prevCopy {
        assert MergeStep(lo, k, prevCopy, t, presentIndex) == tail;
      } else {
        assert MergeStep(lo, k, prevCopy, t, presentIndex) == [Barrier(t, PresentSrc, TransferDst)] + tail;
      }
    case None =>
  }

  /** Cache images are never the target image. */
  predicate CachesApart(los: seq<LayerObject>, t: Image)
  {
    forall k :: 0 <= k < |los| && IsCached(los[k]) ==> los[k].cache.value.image != t
  }

  /** In the merge pass every copy is preceded by its own source barrier, and vice versa. */
  lemma {:induction false} MergeSourceBarriers(los: seq<LayerObject>, t: Image, presentIndex: nat)
    requires CachesApart(los, t)
    ensures SourceBarriersPaired(MergePass(los, t, presentIndex), t)
  {
    MergeLoopSourceBarriers(los, t, presentIndex);
    PairedAppend(MergeLoop(los, t, presentIndex), if EndsCopied(los) then [Barrier(t, TransferDst, PresentSrc)] else [], t);
  }

  lemma {:induction false} MergeLoopSourceBarriers(los: seq<LayerObject>, t: Image, presentIndex: nat)
    requires CachesApart(los, t)
    ensures SourceBarriersPaired(MergeLoop(los, t, presentIndex), t)
  {
    if los != [] {
      var n := |los| - 1;
      var init := los[..n];
      assert CachesApart(init, t) by {
        forall k | 0 <= k < n ensures init[k] == los[k] { }
      }
      MergeLoopSourceBarriers(init, t, presentIndex);
      var step := MergeStep(los[n], n, EndsCopied(init), t, presentIndex);
      MergeStepPaired(los[n], n, EndsCopied(init), t, presentIndex);
      PairedAppend(MergeLoop(init, t, presentIndex), step, t);
    }
  }

  /** Object `k` starts a maximal run of consecutive cached objects. */
  predicate RunStart(los: seq<LayerObject>, k: int)
  {
    0 <= k < |los| && IsCached(los[k]) && (k == 0 || !IsCached(los[k - 1]))
  }

  /** The positions where a run of cached objects starts. */
  function RunStarts(los: seq<LayerObject>): set<nat>
  {
    set k: nat | k < |los| && RunStart(los, k)
  }

  /** The number of maximal runs of consecutive cached objects. */
  function CopyRuns(los: seq<LayerObject>): nat
  {
    |RunStarts(los)|
  }

  lemma CopyRunsStep(los: seq<LayerObject>)
    requires los != []
    ensures CopyRuns(los) == CopyRuns(los[..|los| - 1]) +
      (if IsCached(los[|los| - 1]) && !EndsCopied(los[..|los| - 1]) then 1 else 0)
  {
    var n := |los| - 1;
    var init := los[..n];
    var added: set<nat> := if RunStart(los, n) then {n} else {};
    forall k: nat
      ensures k in RunStarts(los) <==> k in RunStarts(init) + added
    {
      assert k in RunStarts(los) <==> k < |los| && RunStart(los, k);
      assert k in RunStarts(init) <==> k < n && RunStart(init, k);
      if k < n {
        assert los[k] == init[k];
        if k > 0 { assert los[k - 1] == init[k - 1]; }
        assert RunStart(los, k) == RunStart(init, k);
      }
    }
    assert RunStarts(los) == RunStarts(init) + added;
    assert n !in RunStarts(init);
  }

  /** Count of `c` in a trace. */
  function Count(cmds: seq<Cmd>, c: Cmd): nat
  {
    multiset(cmds)[c]
  }

  /**
   * The merge loop emits one PRESENT_SRC to TRANSFER_DST barrier on the target
   * per run of cached objects, and one TRANSFER_DST to PRESENT_SRC barrier per
   * run that is closed by an uncached object.
   */
  lemma {:induction false} MergeLoopBarrierCount(los: seq<LayerObject>, t: Image, presentIndex: nat)
    ensures Count(MergeLoop(los, t, presentIndex), Barrier(t, PresentSrc, TransferDst)) == CopyRuns(los)
    ensures Count(MergeLoop(los, t, presentIndex), Barrier(t, TransferDst, PresentSrc)) ==
      CopyRuns(los) - (if EndsCopied(los) then 1 else 0)
  {
    if los == [] {
      assert RunStarts(los) == {};
    } else {
      var n := |los| - 1;
      var init := los[..n];
      MergeLoopBarrierCount(init, t, presentIndex);
      CopyRunsStep(los);
      MergeStepCount(los[n], n, EndsCopied(init), t, presentIndex);
      if EndsCopied(init) { RunEndsHasStart(init); }
      var a, b := MergeLoop(init, t, presentIndex), MergeStep(los[n], n, EndsCopied(init), t, presentIndex);
      assert MergeLoop(los, t, presentIndex) == a + b;
      assert multiset(a + b) == multiset(a) + multiset(b);
    }
  }

  lemma MergeStepCount(lo: LayerObject, k: nat, prevCopy: bool, t: Image, presentIndex: nat)
    ensures Count(MergeStep(lo, k, prevCopy, t, presentIndex), Barrier(t, PresentSrc, TransferDst)) ==
      if IsCached(lo) && !prevCopy then 1 else 0
    ensures Count(MergeStep(lo, k, prevCopy, t, presentIndex), Barrier(t, TransferDst, PresentSrc)) ==
      if !IsCached(lo) && prevCopy then 1 else 0
  {
    match lo.cache
    case Some(c) =>
      var tail := [Barrier(c.image, PresentSrc, TransferSrc), CopyWhole(c.image, t)];
      assert multiset(tail)[Barrier(t, PresentSrc, TransferDst)] == 0;
      assert multiset(tail)[Barrier(t, TransferDst, PresentSrc)] == 0;
      if !prevCopy {
        assert MergeStep(lo, k, prevCopy, t, presentIndex) == [Barrier(t, PresentSrc, TransferDst)] + tail;
      }
    case None =>
      if prevCopy {
        assert MergeStep(lo, k, prevCopy, t, presentIndex) == [Barrier(t, TransferDst, PresentSrc)] + [RenderLayer(k, presentIndex)];
      }
  }

  /** A list ending on a cached object has at least one run. */
  lemma {:induction false} RunEndsHasStart(los: seq<LayerObject>)
    requires EndsCopied(los)
    ensures CopyRuns(los) >= 1
  {
    var n := |los| - 1;
    if RunStart(los, n) {
      assert n in RunStarts(los);
    } else {
      var init := los[..n];
      assert EndsCopied(init);
      RunEndsHasStart(init);
      CopyRunsStep(los);
    }
  }

  /**
   * Barrier bound: the merge pass emits exactly one PRESENT_SRC to TRANSFER_DST
   * and one TRANSFER_DST to PRESENT_SRC barrier on the target per maximal run of
   * cached objects, however long the runs and however many uncached objects.
   */
  lemma MergeBarrierPairsPerRun(los: seq<LayerObject>, t: Image, presentIndex: nat)
    ensures Count(MergePass(los, t, presentIndex), Barrier(t, PresentSrc, TransferDst)) == CopyRuns(los)
    ensures Count(MergePass(los, t, presentIndex), Barrier(t, TransferDst, PresentSrc)) == CopyRuns(los)
  {
    MergeLoopBarrierCount(los, t, presentIndex);
    if EndsCopied(los) { RunEndsHasStart(los); }
  }

  // ---------------------------------------------------------------------------
  // Layout of the target image
  // ---------------------------------------------------------------------------

  /** The image that `RenderLayer(obj, target)` draws into, through the outputs its layer resolves to. */
  function RenderTarget(outputs: seq<seq<Image>>, obj: nat, target: nat): Option<Image>
  {
    if obj < |outputs| && target < |outputs[obj]| then Some(outputs[obj][target]) else None
  }

  /**
   * One command's effect on the layout of image `t`, or None when the command
   * finds `t` in the wrong layout: a barrier must name the current layout as
   * its old layout, a clear or a copy into `t` needs TRANSFER_DST, a copy out of
   * `t` needs TRANSFER_SRC, and a render pass drawing into `t` needs PRESENT_SRC
   * and leaves it there, its final layout. The layers' render passes start from
   * UNDEFINED and so accept any layout: demanding PRESENT_SRC is this model's own,
   * stricter discipline. A render whose object or output index does not exist is
   * an error too (indexing the layer's framebuffers out of range panics).
   */
  function Next(outputs: seq<seq<Image>>, t: Image, cur: Layout, c: Cmd): Option<Layout>
  {
    match c
    case Barrier(img, from, to) =>
      if img != t then Some(cur) else if from == cur then Some(to) else None
    case ClearColor(img) =>
      if img == t && cur != TransferDst then None else Some(cur)
    case CopyWhole(src, dst) =>
      if (dst == t && cur != TransferDst) || (src == t && cur != TransferSrc) then None else Some(cur)
    case RenderLayer(obj, target) =>
      match RenderTarget(outputs, obj, target)
      case None => None
      case Some(img) => if img == t && cur != PresentSrc then None else Some(cur)
  }

  /** The layout of `t` after the whole trace, or None at the first command that finds it wrong. */
  function TrackTarget(outputs: seq<seq<Image>>, t: Image, cur: Layout, cmds: seq<Cmd>): Option<Layout>
    decreases |cmds|
  {
    if cmds == [] then Some(cur)
    else
      match Next(outputs, t, cur, cmds[0])
      case None => None
      case Some(l) => TrackTarget(outputs, t, l, cmds[1..])
  }

  lemma {:induction false} TrackAppend(outputs: seq<seq<Image>>, t: Image, cur: Layout, a: seq<Cmd>, b: seq<Cmd>)
    ensures TrackTarget(outputs, t, cur, a + b) ==
      match TrackTarget(outputs, t, cur, a)
      case None => None
      case Some(l) => TrackTarget(outputs, t, l, b)
    decreases |a|
  {
    if a == [] {
      assert a + b == b;
    } else {
      assert (a + b)[0] == a[0];
      assert (a + b)[1..] == a[1..] + b;
      var nx := Next(outputs, t, cur, a[0]);
      if nx.Some? { TrackAppend(outputs, t, nx.value, a[1..], b); }
    }
  }

  /** Uncached objects draw slot `presentIndex` into `t`. */
  predicate DirectInto(o: seq<seq<Image>>, los: seq<LayerObject>, t: Image, presentIndex: nat)
  {
    forall k :: 0 <= k < |los| && !IsCached(los[k]) ==>
      k < |o| && presentIndex < |o[k]| && o[k][presentIndex] == t
  }

  /** Cached objects draw their render target 0 into some image other than `t`. */
  predicate CachesDrawOffTarget(o: seq<seq<Image>>, los: seq<LayerObject>, t: Image)
  {
    forall k :: 0 <= k < |los| && IsCached(los[k]) ==> k < |o| && 0 < |o[k]| && o[k][0] != t
  }

  /** The damage pass never touches the target image: its layout is whatever it was. */
  lemma {:induction false} DamagePassLeavesTarget(o: seq<seq<Image>>, all: seq<LayerObject>, n: nat, t: Image, cur: Layout)
    requires n <= |all| && CachesDrawOffTarget(o, all, t)
    ensures TrackTarget(o, t, cur, DamagePass(all[..n])) == Some(cur)
  {
    if n > 0 {
      var init := all[..n][..n - 1];
      assert init == all[..n - 1];
      DamagePassLeavesTarget(o, all, n - 1, t, cur);
      var tail := if IsDamaged(all[n - 1]) then [RenderLayer(n - 1, 0)] else [];
      TrackAppend(o, t, cur, DamagePass(init), tail);
      if IsDamaged(all[n - 1]) {
        assert TrackTarget(o, t, cur, tail) == Next(o, t, cur, tail[0]);
      }
    }
  }

  /** The target's layout after one merge step: TRANSFER_DST after a copy, PRESENT_SRC after a render. */
  lemma MergeStepLayout(o: seq<seq<Image>>, all: seq<LayerObject>, k: nat, t: Image, presentIndex: nat)
    requires k < |all| && CachesApart(all, t) && DirectInto(o, all, t, presentIndex)
    ensures TrackTarget(o, t, if EndsCopied(all[..k]) then TransferDst else PresentSrc,
                        MergeStep(all[k], k, EndsCopied(all[..k]), t, presentIndex)) ==
            Some(if IsCached(all[k]) then TransferDst else PresentSrc)
  {
    var prev := EndsCopied(all[..k]);
    var cur := if prev then TransferDst else PresentSrc;
    var step := MergeStep(all[k], k, prev, t, presentIndex);
    match all[k].cache
    case Some(c) =>
      var tail := [Barrier(c.image, PresentSrc, TransferSrc), CopyWhole(c.image, t)];
      assert TrackTarget(o, t, TransferDst, tail[1..]) == Some(TransferDst);
      assert TrackTarget(o, t, TransferDst, tail) == Some(TransferDst);
      if !prev {
        assert step == [Barrier(t, PresentSrc, TransferDst)] + tail;
        assert TrackTarget(o, t, PresentSrc, [Barrier(t, PresentSrc, TransferDst)]) == Some(TransferDst);
        TrackAppend(o, t, cur, [Barrier(t, PresentSrc, TransferDst)], tail);
      } else {
        assert step == tail;
      }
    case None =>
      assert RenderTarget(o, k, presentIndex) == Some(t);
      if prev {
        assert step == [Barrier(t, TransferDst, PresentSrc)] + [RenderLayer(k, presentIndex)];
        TrackAppend(o, t, cur, [Barrier(t, TransferDst, PresentSrc)], [RenderLayer(k, presentIndex)]);
      }
  }

  /** Through the merge loop every check passes; it ends in TRANSFER_DST exactly when the last object was copied. */
  lemma {:induction false} MergeLoopLayout(o: seq<seq<Image>>, all: seq<LayerObject>, n: nat, t: Image, presentIndex: nat)
    requires n <= |all| && CachesApart(all, t) && DirectInto(o, all, t, presentIndex)
    ensures TrackTarget(o, t, PresentSrc, MergeLoop(all[..n], t, presentIndex)) ==
      Some(if EndsCopied(all[..n]) then TransferDst else PresentSrc)
  {
    if n > 0 {
      var init := all[..n][..n - 1];
      assert init == all[..n - 1];
      assert all[..n][n - 1] == all[n - 1];
      MergeLoopLayout(o, all, n - 1, t, presentIndex);
      MergeStepLayout(o, all, n - 1, t, presentIndex);
      TrackAppend(o, t, PresentSrc, MergeLoop(init, t, presentIndex),
                  MergeStep(all[n - 1], n - 1, EndsCopied(init), t, presentIndex));
    }
  }

  /**
   * Target-layout discipline for a whole frame: starting from UNDEFINED (the
   * clear's first barrier discards the old contents), every barrier on the
   * target names its current layout, copies land only in TRANSFER_DST, direct
   * renders happen only in PRESENT_SRC, and the recording leaves the target in
   * PRESENT_SRC, ready to present. `o` is what every object's layer resolves to.
   */
  lemma FrameLayoutDiscipline(o: seq<seq<Image>>, los: seq<LayerObject>, t: Image, presentIndex: nat)
    requires CachesDrawOffTarget(o, los, t) && CachesApart(los, t) && DirectInto(o, los, t, presentIndex)
    ensures TrackTarget(o, t, Undefined, Recording(los, t, presentIndex)) == Some(PresentSrc)
  {
    var cleared := ClearDamage(los);
    ClearDamageKeepsBinding(o, los, t, presentIndex);
    assert los[..|los|] == los;
    assert cleared[..|cleared|] == cleared;
    DamagePassLeavesTarget(o, los, |los|, t, Undefined);
    MergeLoopLayout(o, cleared, |cleared|, t, presentIndex);
    var closing := if EndsCopied(cleared) then [Barrier(t, TransferDst, PresentSrc)] else [];
    TrackAppend(o, t, PresentSrc, MergeLoop(cleared, t, presentIndex), closing);
    ClearPassLayout(o, t);
    TrackAppend(o, t, Undefined, DamagePass(los), ClearPass(t));
    TrackAppend(o, t, Undefined, DamagePass(los) + ClearPass(t), MergePass(cleared, t, presentIndex));
  }

  /** Clearing damage flags keeps every object's layer, mode and cache image, so the hypotheses still hold. */
  lemma ClearDamageKeepsBinding(o: seq<seq<Image>>, los: seq<LayerObject>, t: Image, presentIndex: nat)
    requires CachesDrawOffTarget(o, los, t) && CachesApart(los, t) && DirectInto(o, los, t, presentIndex)
    ensures forall k :: 0 <= k < |los| ==> ClearDamage(los)[k].layer == los[k].layer
    ensures CachesDrawOffTarget(o, ClearDamage(los), t) && CachesApart(ClearDamage(los), t)
    ensures DirectInto(o, ClearDamage(los), t, presentIndex)
  {
    var cleared := ClearDamage(los);
    forall k | 0 <= k < |los|
      ensures IsCached(cleared[k]) == IsCached(los[k]) && cleared[k].layer == los[k].layer
      ensures IsCached(los[k]) ==> cleared[k].cache.value.image == los[k].cache.value.image
    {
    }
  }

  /** The background clear takes the target from UNDEFINED to PRESENT_SRC. */
  lemma ClearPassLayout(o: seq<seq<Image>>, t: Image)
    ensures TrackTarget(o, t, Undefined, ClearPass(t)) == Some(PresentSrc)
  {
    var clear := ClearPass(t);
    assert TrackTarget(o, t, TransferDst, clear[2..]) == Some(PresentSrc);
    assert TrackTarget(o, t, TransferDst, clear[1..]) == Some(PresentSrc);
  }

  /** Objects sharing a layer are either all cached or all live (so in particular when no layer is registered twice). */
  predicate SharedAlike(los: seq<LayerObject>)
  {
    forall j, k :: 0 <= j < k < |los| && los[j].layer == los[k].layer ==> IsCached(los[j]) == IsCached(los[k])
  }

  /**
   * When objects sharing a layer are registered alike, every live object
   * renders into the presentation images and every cached object into a single
   * cache image.
   */
  lemma {:induction false} SharedAlikeOutputs(los: seq<LayerObject>, presentImages: seq<Image>, issued: nat)
    requires Registered(los, issued) && SharedAlike(los)
    ensures forall k :: 0 <= k < |los| && !IsCached(los[k]) ==>
      Outputs(los, BindingsOf(los, presentImages))[k] == presentImages
    ensures forall k :: 0 <= k < |los| && IsCached(los[k]) ==>
      |Outputs(los, BindingsOf(los, presentImages))[k]| == 1 &&
      Outputs(los, BindingsOf(los, presentImages))[k][0].CacheImage?
  {
    if los != [] {
      var n := |los| - 1;
      var init := los[..n];
      assert Registered(init, issued) && SharedAlike(init) by {
        forall k | 0 <= k < n ensures init[k] == los[k] { }
      }
      SharedAlikeOutputs(init, presentImages, issued);
      var b, bi := BindingsOf(los, presentImages), BindingsOf(init, presentImages);
      forall k | 0 <= k < |los|
        ensures !IsCached(los[k]) ==> Outputs(los, b)[k] == presentImages
        ensures IsCached(los[k]) ==> |Outputs(los, b)[k]| == 1 && Outputs(los, b)[k][0].CacheImage?
      {
        assert Outputs(los, b)[k] == Resolve(b, los[k].layer);
        if los[k].layer == los[n].layer {
          assert Resolve(b, los[k].layer) == OwnBinding(los[n], presentImages);
          assert CacheIssued(los[n], issued);
        } else {
          assert init[k] == los[k];
          assert Outputs(init, bi)[k] == Resolve(bi, los[k].layer);
        }
      }
    }
  }

  /**
   * Every frame the compositor records for a registered object list is
   * layout-correct, for any acquired slot, as long as objects sharing a layer
   * were registered alike (in particular when no layer is registered twice).
   */
  lemma RegisteredFrameLayout(los: seq<LayerObject>, slots: nat, issued: nat, presentIndex: nat)
    requires Registered(los, issued) && SharedAlike(los) && presentIndex < slots
    ensures TrackTarget(Outputs(los, BindingsOf(los, Slots(slots))), PresentImage(presentIndex), Undefined,
                        Recording(los, PresentImage(presentIndex), presentIndex)) == Some(PresentSrc)
  {
    var o, t := Outputs(los, BindingsOf(los, Slots(slots))), PresentImage(presentIndex);
    SharedAlikeOutputs(los, Slots(slots), issued);
    assert CachesApart(los, t) by {
      forall k | 0 <= k < |los| && IsCached(los[k]) ensures los[k].cache.value.image != t {
        assert CacheIssued(los[k], issued);
      }
    }
    FrameLayoutDiscipline(o, los, t, presentIndex);
  }

  /**
   * One layer registered live and then cached: the second registration rebinds
   * the layer to its single cache image, so the live object's render into slot
   * 1 names an output that does not exist and the frame is rejected; the source
   * indexes the layer's one-element framebuffer list out of range and panics.
   */
  lemma LiveThenCachedSameLayer(live: LayerObject, cached: LayerObject)
    requires live == LayerObject(7, None)
    requires cached == LayerObject(7, Some(LayerCache(CacheImage(0), Memory(0), true)))
    ensures Registered([live, cached], 1) && !SharedAlike([live, cached])
    ensures Outputs([live, cached], BindingsOf([live, cached], Slots(2))) == [[CacheImage(0)], [CacheImage(0)]]
    ensures TrackTarget(Outputs([live, cached], BindingsOf([live, cached], Slots(2))), PresentImage(1), Undefined,
                        Recording([live, cached], PresentImage(1), 1)) == None
  {
    var los := [live, cached];
    var t, o := PresentImage(1), [[CacheImage(0)], [CacheImage(0)]];
    assert los[..1] == [live] && [live][..0] == [];
    assert BindingsOf([live], Slots(2)) == map[7 := Slots(2)];
    assert BindingsOf(los, Slots(2)) == map[7 := Slots(2)][7 := [CacheImage(0)]];
    assert BindingsOf(los, Slots(2)) == map[7 := [CacheImage(0)]];
    assert Outputs(los, BindingsOf(los, Slots(2))) == o;
    assert DamagePass([live]) == [];
    assert DamagePass(los) == [RenderLayer(1, 0)];
    assert TrackTarget(o, t, Undefined, DamagePass(los)) == Some(Undefined);
    ClearPassLayout(o, t);
    TrackAppend(o, t, Undefined, DamagePass(los), ClearPass(t));
    var cleared := ClearDamage(los);
    assert cleared == [live, WithDamage(cached, false)];
    assert cleared[..1] == [live];
    assert MergeLoop([live], t, 1) == [RenderLayer(0, 1)];
    var merge := MergePass(cleared, t, 1);
    assert merge[0] == RenderLayer(0, 1);
    assert TrackTarget(o, t, PresentSrc, merge) == None;
    TrackAppend(o, t, Undefined, DamagePass(los) + ClearPass(t), merge);
  }

  /**
   * One layer registered cached and then live: the layer is rebound to the
   * presentation images, so nothing ever draws into the cache image, whatever
   * the slot: the damage pass draws the cached object into presentation image 0
   * instead. On slot 0 the frame is also rejected, but only by this model's rule
   * that a direct render finds the frame image in PRESENT_SRC (the render then
   * finds it UNDEFINED).
   */
  lemma CachedThenLiveSameLayer(cached: LayerObject, live: LayerObject)
    requires cached == LayerObject(7, Some(LayerCache(CacheImage(0), Memory(0), true)))
    requires live == LayerObject(7, None)
    ensures Outputs([cached, live], BindingsOf([cached, live], Slots(2))) == [Slots(2), Slots(2)]
    ensures DamagePass([cached, live]) == [RenderLayer(0, 0)]
    ensures RenderTarget(Outputs([cached, live], BindingsOf([cached, live], Slots(2))), 0, 0) == Some(PresentImage(0))
    ensures TrackTarget(Outputs([cached, live], BindingsOf([cached, live], Slots(2))), PresentImage(0), Undefined,
                        Recording([cached, live], PresentImage(0), 0)) == None
  {
    var los := [cached, live];
    var t, o := PresentImage(0), [Slots(2), Slots(2)];
    assert los[..1] == [cached] && [cached][..0] == [];
    assert BindingsOf([cached], Slots(2)) == map[7 := [CacheImage(0)]];
    assert BindingsOf(los, Slots(2)) == map[7 := [CacheImage(0)]][7 := Slots(2)];
    assert BindingsOf(los, Slots(2)) == map[7 := Slots(2)];
    assert Outputs(los, BindingsOf(los, Slots(2))) == o;
    assert DamagePass([cached]) == [RenderLayer(0, 0)];
    assert DamagePass(los) == [RenderLayer(0, 0)];
    assert TrackTarget(o, t, Undefined, DamagePass(los)) == None;
    TrackAppend(o, t, Undefined, DamagePass(los), ClearPass(t));
    TrackAppend(o, t, Undefined, DamagePass(los) + ClearPass(t), MergePass(ClearDamage(los), t, 0));
  }

  // ---------------------------------------------------------------------------
  // The compositor object
  // ---------------------------------------------------------------------------

  /** The swapchain's answer to acquire_next_image. */
  datatype AcquireResult = Acquired(index: nat, suboptimal: bool) | AcquireFailed

  /** What one call to render did. */
  datatype FrameOutcome =
    | AcquirePanicked                                                   // acquire_next_image(..).unwrap() on an error
    | Submitted(presentIndex: nat, recording: seq<Cmd>, presented: bool)  // presented == false: queue_present(..).unwrap() panicked

  class LayerCompositor {
    /** base.present_images: one image per swapchain slot. */
    const presentImages: seq<Image>
    /** The registered objects, in registration (and compositing) order. */
    var los: seq<LayerObject>
    /** How many cache images and memories the device has handed out. */
    var issued: nat
    /**
     * The output of every layer registered here, as the shared layers hold it:
     * the images of the last set_output on each layer.
     */
    var bindings: Bindings

    ghost predicate Valid()
      reads this
    {
      presentImages == Slots(|presentImages|) && Registered(los, issued) &&
      bindings == BindingsOf(los, presentImages)
    }

    /** LayerCompositor::new: no objects yet. */
    constructor (imageCount: nat)
      ensures Valid() && presentImages == Slots(imageCount) && los == [] && issued == 0
    {
      presentImages := Slots(imageCount);
      los := [];
      issued := 0;
      bindings := map[];
    }

    /**
     * new_layer: append one uncached object and rebind its layer to every
     * presentation image, for every object already sharing that layer too.
     */
    method NewLayer(layer: nat)
      requires Valid()
      modifies this`los, this`bindings
      ensures Valid() && issued == old(issued)
      ensures los == old(los) + [LayerObject(layer, None)]
      ensures bindings == old(bindings)[layer := presentImages]
    {
      var built := BuildInstant(NewObject(layer), bindings, presentImages);
      assert (los + [built.0])[..|los|] == los;
      los := los + [built.0];
      bindings := built.1;
    }

    /**
     * new_cached_layer: allocate a fresh cache image and memory, rebind the layer
     * to that single image (for every object already sharing the layer too), and
     * append the object with its cache damaged.
     */
    method NewCachedLayer(layer: nat)
      requires Valid()
      modifies this`los, this`issued, this`bindings
      ensures Valid() && issued == old(issued) + 1
      ensures los == old(los) + [LayerObject(layer, Some(LayerCache(CacheImage(old(issued)), Memory(old(issued)), true)))]
      ensures bindings == old(bindings)[layer := [CacheImage(old(issued))]]
    {
      var image, memory := CacheImage(issued), Memory(issued);
      issued := issued + 1;
      var built := BuildCache(NewObject(layer), bindings, image, memory);
      assert (los + [built.0])[..|los|] == los;
      los := los + [built.0];
      bindings := built.1;
    }

    /** update_all: every cached object becomes damaged; nothing else changes. */
    method UpdateAll()
      requires Valid()
      modifies this`los
      ensures Valid() && los == MarkAll(old(los))
    {
      var i := 0;
      while i < |los|
        invariant 0 <= i <= |los| == |old(los)|
        invariant forall k :: 0 <= k < i ==> los[k] == WithDamage(old(los)[k], true)
        invariant forall k :: i <= k < |los| ==> los[k] == old(los)[k]
        invariant Registered(los, issued) && bindings == BindingsOf(los, presentImages)
      {
        match los[i].cache {
          case Some(c) =>
            RegisteredWithDamage(los, i, true, presentImages, issued);
            los := los[i := los[i].(cache := Some(c.(damage := true)))];
          case None =>
        }
        i := i + 1;
      }
    }

    /**
     * mark_update: object `idx` becomes damaged if it has a cache; no other
     * object changes. Indexing past the end panics in the source, changing nothing.
     */
    method MarkUpdate(idx: nat) returns (panicked: bool)
      requires Valid()
      modifies this`los
      ensures Valid()
      ensures panicked <==> idx >= |old(los)|
      ensures panicked ==> los == old(los)
      ensures !panicked ==> los == old(los)[idx := WithDamage(old(los)[idx], true)]
    {
      if idx >= |los| {
        return true;
      }
      match los[idx].cache {
        case Some(c) =>
          RegisteredWithDamage(los, idx, true, presentImages, issued);
          los := los[idx := los[idx].(cache := Some(c.(damage := true)))];
        case None =>
      }
      return false;
    }

    /**
     * The first half of the recording closure: re-render every damaged cache into
     * its own image (target index 0), in order, clearing its flag.
     */
    method RecordDamagePass() returns (cmds: seq<Cmd>)
      requires Valid()
      modifies this`los
      ensures Valid() && los == ClearDamage(old(los))
      ensures cmds == DamagePass(old(los))
    {
      var all := los;
      cmds := [];
      var i := 0;
      while i < |los|
        invariant 0 <= i <= |los| == |all|
        invariant forall k :: 0 <= k < i ==> los[k] == WithDamage(all[k], false)
        invariant forall k :: i <= k < |los| ==> los[k] == all[k]
        invariant Registered(los, issued) && bindings == BindingsOf(los, presentImages)
        invariant cmds == DamagePass(all[..i])
      {
        DamagePassUnfold(all, i);
        match los[i].cache {
          case Some(c) =>
            if c.damage {
              cmds := cmds + [RenderLayer(i, 0)];
              RegisteredWithDamage(los, i, false, presentImages, issued);
              los := los[i := los[i].(cache := Some(c.(damage := false)))];
            }
          case None =>
        }
        i := i + 1;
      }
      assert all[..|los|] == all;
    }

    /**
     * The merge loop of the recording closure: walk the objects in order, copying
     * caches into `image` and rendering live layers into slot `presentIndex`,
     * with prev_copy coalescing the target barriers around each run of copies.
     */
    method RecordMergePass(image: Image, presentIndex: nat) returns (cmds: seq<Cmd>)
      ensures cmds == MergePass(los, image, presentIndex)
    {
      var objs := los;
      cmds := [];
      var prevCopy := false;
      var i := 0;
      while i < |objs|
        invariant 0 <= i <= |objs|
        invariant prevCopy == EndsCopied(objs[..i])
        invariant cmds == MergeLoop(objs[..i], image, presentIndex)
      {
        MergeLoopUnfold(objs, i, image, presentIndex);
        cmds, prevCopy := RecordMergeStep(cmds, prevCopy, objs[i], i, image, presentIndex);
        i := i + 1;
      }
      assert objs[..|objs|] == objs;
      if prevCopy {
        cmds := cmds + [Barrier(image, TransferDst, PresentSrc)];
      }
    }

    /**
     * render: acquire a slot, record the damage pass, the background clear and
     * the merge pass, submit, and present. Every cache is undamaged afterwards.
     */
    method Render(acquire: AcquireResult, presentOk: bool) returns (outcome: FrameOutcome)
      requires Valid()
      requires acquire.Acquired? ==> acquire.index < |presentImages|
      modifies this`los
      ensures Valid()
      ensures acquire.AcquireFailed? ==> outcome == AcquirePanicked && los == old(los)
      ensures acquire.Acquired? ==>
        los == ClearDamage(old(los)) &&
        outcome == Submitted(acquire.index,
                             Recording(old(los), PresentImage(acquire.index), acquire.index),
                             presentOk)
      ensures acquire.Acquired? ==> forall k :: 0 <= k < |los| ==> !IsDamaged(los[k])
      ensures acquire.Acquired? && SharedAlike(old(los)) ==>
        TrackTarget(Outputs(old(los), bindings), PresentImage(acquire.index), Undefined, outcome.recording) == Some(PresentSrc)
    {
      if acquire.AcquireFailed? {
        return AcquirePanicked;
      }
      var presentIndex := acquire.index;
      var cmds := RecordDamagePass();
      var image := presentImages[presentIndex];
      cmds := cmds + [Barrier(image, Undefined, TransferDst)];
      cmds := cmds + [ClearColor(image)];
      cmds := cmds + [Barrier(image, TransferDst, PresentSrc)];
      var merge := RecordMergePass(image, presentIndex);
      cmds := cmds + merge;
      outcome := Submitted(presentIndex, cmds, presentOk);
      if SharedAlike(old(los)) {
        RegisteredFrameLayout(old(los), |presentImages|, issued, presentIndex);
      }
    }
  }

  /**
   * One cached clear layer under one live shape layer, update_all, then a frame:
   * the cache is re-rendered once, copied once, the shape renders directly once,
   * and one barrier pair surrounds the single run of copies.
   */
  method CachedUnderLiveScenario()
  {
    var c := new LayerCompositor(3);
    c.NewCachedLayer(7);
    c.NewLayer(8);
    c.UpdateAll();
    var t, cache := PresentImage(1), CacheImage(0);
    var clear := LayerObject(7, Some(LayerCache(cache, Memory(0), true)));
    var shape := LayerObject(8, None);
    assert c.los == [clear, shape];
    assert c.bindings == map[7 := [cache], 8 := Slots(3)];
    var out := c.Render(Acquired(1, false), true);
    CachedUnderLiveRecording(clear, shape);
    assert out.recording ==
      [RenderLayer(0, 0),
       Barrier(t, Undefined, TransferDst), ClearColor(t), Barrier(t, TransferDst, PresentSrc),
       Barrier(t, PresentSrc, TransferDst), Barrier(cache, PresentSrc, TransferSrc), CopyWhole(cache, t),
       Barrier(t, TransferDst, PresentSrc), RenderLayer(1, 1)];
  }

  /** The recording of the frame in CachedUnderLiveScenario. */
  lemma CachedUnderLiveRecording(clear: LayerObject, shape: LayerObject)
    requires clear == LayerObject(7, Some(LayerCache(CacheImage(0), Memory(0), true)))
    requires shape == LayerObject(8, None)
    ensures Recording([clear, shape], PresentImage(1), 1) ==
      [RenderLayer(0, 0),
       Barrier(PresentImage(1), Undefined, TransferDst), ClearColor(PresentImage(1)),
       Barrier(PresentImage(1), TransferDst, PresentSrc),
       Barrier(PresentImage(1), PresentSrc, TransferDst),
       Barrier(CacheImage(0), PresentSrc, TransferSrc), CopyWhole(CacheImage(0), PresentImage(1)),
       Barrier(PresentImage(1), TransferDst, PresentSrc), RenderLayer(1, 1)]
  {
    var t, cache := PresentImage(1), CacheImage(0);
    assert [clear, shape][..1] == [clear] && [clear][..0] == [];
    assert DamagePass([clear]) == [RenderLayer(0, 0)];
    assert DamagePass([clear, shape]) == [RenderLayer(0, 0)];
    var clear' := WithDamage(clear, false);
    assert ClearDamage([clear, shape]) == [clear', shape];
    assert [clear', shape][..1] == [clear'] && [clear'][..0] == [];
    assert MergeLoop([clear'], t, 1) ==
      [Barrier(t, PresentSrc, TransferDst), Barrier(cache, PresentSrc, TransferSrc), CopyWhole(cache, t)];
  }

  /**
   * Two cached layers, only the first marked after a warm-up frame: the frame
   * re-renders only the first and still copies both.
   */
  method TwoCachesOneMarkedScenario()
  {
    var c := new LayerCompositor(2);
    c.NewCachedLayer(0);
    c.NewCachedLayer(1);
    var warmup := c.Render(Acquired(0, false), true);
    var panicked := c.MarkUpdate(0);
    var a, b := CacheImage(0), CacheImage(1);
    var first := LayerObject(0, Some(LayerCache(a, Memory(0), true)));
    var second := LayerObject(1, Some(LayerCache(b, Memory(1), false)));
    assert c.los == [first, second];
    var out := c.Render(Acquired(0, false), true);
    TwoCachesOneMarkedRecording(first, second);
    assert out.recording ==
      [RenderLayer(0, 0),
       Barrier(PresentImage(0), Undefined, TransferDst), ClearColor(PresentImage(0)),
       Barrier(PresentImage(0), TransferDst, PresentSrc),
       Barrier(PresentImage(0), PresentSrc, TransferDst),
       Barrier(a, PresentSrc, TransferSrc), CopyWhole(a, PresentImage(0)),
       Barrier(b, PresentSrc, TransferSrc), CopyWhole(b, PresentImage(0)),
       Barrier(PresentImage(0), TransferDst, PresentSrc)];
  }

  /** The recording of the frame in TwoCachesOneMarkedScenario. */
  lemma TwoCachesOneMarkedRecording(first: LayerObject, second: LayerObject)
    requires first == LayerObject(0, Some(LayerCache(CacheImage(0), Memory(0), true)))
    requires second == LayerObject(1, Some(LayerCache(CacheImage(1), Memory(1), false)))
    ensures Recording([first, second], PresentImage(0), 0) ==
      [RenderLayer(0, 0),
       Barrier(PresentImage(0), Undefined, TransferDst), ClearColor(PresentImage(0)),
       Barrier(PresentImage(0), TransferDst, PresentSrc),
       Barrier(PresentImage(0), PresentSrc, TransferDst),
       Barrier(CacheImage(0), PresentSrc, TransferSrc), CopyWhole(CacheImage(0), PresentImage(0)),
       Barrier(CacheImage(1), PresentSrc, TransferSrc), CopyWhole(CacheImage(1), PresentImage(0)),
       Barrier(PresentImage(0), TransferDst, PresentSrc)]
  {
    var t, a := PresentImage(0), CacheImage(0);
    assert [first, second][..1] == [first] && [first][..0] == [];
    assert DamagePass([first]) == [RenderLayer(0, 0)];
    assert DamagePass([first, second]) == [RenderLayer(0, 0)];
    var first' := WithDamage(first, false);
    assert ClearDamage([first, second]) == [first', second];
    assert [first', second][..1] == [first'] && [first'][..0] == [];
    assert MergeLoop([first'], t, 0) ==
      [Barrier(t, PresentSrc, TransferDst), Barrier(a, PresentSrc, TransferSrc), CopyWhole(a, t)];
  }

  /**
   * One layer registered live and then cached, then a frame on slot 1: the
   * layer ends up bound to the cache image alone, so the frame is rejected.
   */
  method SharedLayerScenario()
  {
    var c := new LayerCompositor(2);
    c.NewLayer(7);
    c.NewCachedLayer(7);
    var live := LayerObject(7, None);
    var cached := LayerObject(7, Some(LayerCache(CacheImage(0), Memory(0), true)));
    assert c.los == [live, cached];
    assert c.bindings == map[7 := [CacheImage(0)]];
    var out := c.Render(Acquired(1, false), true);
    LiveThenCachedSameLayer(live, cached);
    assert TrackTarget(Outputs([live, cached], c.bindings), PresentImage(1), Undefined, out.recording) == None;
  }
}
