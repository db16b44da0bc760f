/**
 * The vulkano-based frame driver: each frame it recreates the swapchain when
 * flagged, acquires an image, lets every pushed renderer record into one
 * command buffer, then executes, presents and flushes, keeping the future of
 * the last frame. The window size and the results of recreation, acquisition
 * and flushing come from outside and are parameters.
 */
module FrameDriver {
  import opened Wrappers

  /** A renderer registered with push_vkl, by identity. */
  type VklId = nat

  /** A swapchain image, by identity. */
  type SwapImage = nat

  datatype Swapchain = Swapchain(id: nat)

  /** The window's inner size in pixels; the viewport takes the same two numbers. */
  datatype Extent = Extent(width: nat, height: nat)

  /** What swapchain.recreate returned. */
  datatype RecreateResult =
    | Recreated(swapchain: Swapchain, images: seq<SwapImage>)
    | ImageExtentNotSupported
    | RecreateFailed

  /** What acquire_next_image returned. */
  datatype AcquireResult = Acquired(imageNum: nat, suboptimal: bool) | OutOfDate | AcquireFailed

  /** How the execute / present / signal-fence-and-flush chain ended. */
  datatype FlushResult = Flushed | FlushFailed | ExecuteFailed

  /** The GPU future chain: `sync::now`, or one more frame joined onto the previous future. */
  datatype Future = Now | FramePresented(previous: Future, imageNum: nat)

  /** A call the driver makes on one of its renderers. */
  datatype VklCall =
    | UpdateImages(vkl: VklId, images: seq<SwapImage>)
    | RenderFrame(vkl: VklId, imageNum: nat, viewport: Extent)

  /** How one call to render ended. */
  datatype RenderOutcome =
    | ZeroExtentSkipped         // flagged, window minimised: returned before recreating
    | ExtentUnsupportedSkipped  // recreation refused the extent: returned, flag kept
    | OutOfDateSkipped          // acquisition found the swapchain out of date: flag set, returned
    | Submitted                 // the frame was recorded and handed to the queue
    | Panicked                  // an unwrap or panic! in the source

  predicate IsZero(e: Extent) { e.width == 0 || e.height == 0 }

  /** update_images(new_images) on every renderer, in push order. */
  function UpdateCalls(vkls: seq<VklId>, images: seq<SwapImage>): seq<VklCall>
  {
    seq(|vkls|, i requires 0 <= i < |vkls| => UpdateImages(vkls[i], images))
  }

  /** render(builder, image_num, viewport) on every renderer, in push order. */
  function RenderCalls(vkls: seq<VklId>, imageNum: nat, viewport: Extent): seq<VklCall>
  {
    seq(|vkls|, i requires 0 <= i < |vkls| => RenderFrame(vkls[i], imageNum, viewport))
  }

  class Vkr {
    var vkls: seq<VklId>
    var finish: Option<Future>
    var recreateSwapchain: bool
    var viewport: Extent
    var swapchain: Swapchain
    var images: seq<SwapImage>
    /** Every call made on the renderers so far, in order. */
    ghost var calls: seq<VklCall>

    /** Between frames the previous future is always present. */
    ghost predicate Valid()
      reads this
    {
      finish.Some?
    }

    /** Vkr::new over a freshly created swapchain: no renderers, flag clear, zero viewport. */
    constructor (swapchain: Swapchain, images: seq<SwapImage>)
      ensures Valid() && finish == Some(Now)
      ensures vkls == [] && !recreateSwapchain && viewport == Extent(0, 0)
      ensures this.swapchain == swapchain && this.images == images && calls == []
    {
      vkls := [];
      finish := Some(Now);
      recreateSwapchain := false;
      viewport := Extent(0, 0);
      this.swapchain := swapchain;
      this.images := images;
      calls := [];
    }

    /** push_vkl: append one renderer; nothing else changes. */
    method PushVkl(vkl: VklId)
      modifies this`vkls
      ensures vkls == old(vkls) + [vkl]
    {
      vkls := vkls + [vkl];
    }

    /** recreate_swapchain: only raise the flag. */
    method RecreateSwapchain()
      modifies this`recreateSwapchain
      ensures recreateSwapchain
    {
      recreateSwapchain := true;
    }

    /** The recreation step of render, when the flag is set and the window is not empty. */
    method Recreate(window: Extent, recreate: RecreateResult) returns (outcome: Option<RenderOutcome>)
      requires recreateSwapchain && !IsZero(window)
      modifies this`swapchain, this`images, this`calls, this`recreateSwapchain
      ensures recreate.ImageExtentNotSupported? ==>
        outcome == Some(ExtentUnsupportedSkipped) && recreateSwapchain && unchanged(this)
      ensures recreate.RecreateFailed? ==> outcome == Some(Panicked) && unchanged(this)
      ensures recreate.Recreated? ==>
        outcome == None && !recreateSwapchain &&
        swapchain == recreate.swapchain && images == recreate.images &&
        calls == old(calls) + UpdateCalls(vkls, recreate.images)
    {
      match recreate {
        case ImageExtentNotSupported =>
          return Some(ExtentUnsupportedSkipped);
        case RecreateFailed =>
          return Some(Panicked);
        case Recreated(newSwapchain, newImages) =>
          swapchain := newSwapchain;
          images := newImages;
          var i := 0;
          while i < |vkls|
            invariant 0 <= i <= |vkls|
            invariant calls == old(calls) + UpdateCalls(vkls[..i], newImages)
            invariant swapchain == newSwapchain && images == newImages && recreateSwapchain
          {
            assert UpdateCalls(vkls[..i + 1], newImages) == UpdateCalls(vkls[..i], newImages) + [UpdateImages(vkls[i], newImages)];
            calls := calls + [UpdateImages(vkls[i], newImages)];
            i := i + 1;
          }
          assert vkls[..|vkls|] == vkls;
          recreateSwapchain := false;
          return None;
      }
    }

    /** The loop of render that lets every renderer record, in push order. */
    method RenderEach(imageNum: nat)
      modifies this`calls
      ensures calls == old(calls) + RenderCalls(vkls, imageNum, viewport)
    {
      var i := 0;
      while i < |vkls|
        invariant 0 <= i <= |vkls|
        invariant calls == old(calls) + RenderCalls(vkls[..i], imageNum, viewport)
      {
        assert RenderCalls(vkls[..i + 1], imageNum, viewport) ==
          RenderCalls(vkls[..i], imageNum, viewport) + [RenderFrame(vkls[i], imageNum, viewport)];
        calls := calls + [RenderFrame(vkls[i], imageNum, viewport)];
        i := i + 1;
      }
      assert vkls[..|vkls|] == vkls;
    }

    /**
     * render: recreate the swapchain when flagged (skipping the frame for an
     * empty window or an unsupported extent), acquire an image (skipping the
     * frame when the swapchain is out of date, flagging recreation when it is
     * suboptimal), let every renderer record in push order, then execute,
     * present and flush.
     */
    method Render(window: Extent, recreate: RecreateResult, acquire: AcquireResult, flush: FlushResult)
      returns (outcome: RenderOutcome)
      requires Valid()
      modifies this
      ensures outcome != Panicked ==> Valid()
      ensures vkls == old(vkls)
      // A flagged frame with an empty window: only the viewport changes.
      ensures old(recreateSwapchain) && IsZero(window) ==>
        outcome == ZeroExtentSkipped && recreateSwapchain && viewport == window &&
        swapchain == old(swapchain) && images == old(images) && calls == old(calls) && finish == old(finish)
      // A flagged frame whose extent the surface refuses: the flag stays set.
      ensures old(recreateSwapchain) && !IsZero(window) && recreate.ImageExtentNotSupported? ==>
        outcome == ExtentUnsupportedSkipped && recreateSwapchain && viewport == window &&
        swapchain == old(swapchain) && images == old(images) && calls == old(calls) && finish == old(finish)
      ensures old(recreateSwapchain) && !IsZero(window) && recreate.RecreateFailed? ==> outcome == Panicked
      // Otherwise the frame goes on to acquisition, over the recreated swapchain if it was flagged.
      ensures Proceeds(old(recreateSwapchain), window, recreate) ==>
        swapchain == (if old(recreateSwapchain) then recreate.swapchain else old(swapchain)) &&
        images == (if old(recreateSwapchain) then recreate.images else old(images)) &&
        viewport == (if old(recreateSwapchain) then window else old(viewport))
      ensures Proceeds(old(recreateSwapchain), window, recreate) && acquire.OutOfDate? ==>
        outcome == OutOfDateSkipped && recreateSwapchain && finish == old(finish) &&
        calls == old(calls) + Recreation(old(recreateSwapchain), old(vkls), recreate)
      ensures Proceeds(old(recreateSwapchain), window, recreate) && acquire.AcquireFailed? ==> outcome == Panicked
      ensures Proceeds(old(recreateSwapchain), window, recreate) && acquire.Acquired? ==>
        (flush.ExecuteFailed? ==> outcome == Panicked) &&
        (!flush.ExecuteFailed? ==>
           outcome == Submitted && recreateSwapchain == acquire.suboptimal &&
           calls == old(calls) + Recreation(old(recreateSwapchain), old(vkls), recreate) +
                    RenderCalls(old(vkls), acquire.imageNum, viewport) &&
           finish == Some(if flush.Flushed? then FramePresented(old(finish).value, acquire.imageNum) else Now))
    {
      // cleanup_finished on the previous future releases finished GPU resources; not modelled.
      if recreateSwapchain {
        viewport := window;
        if IsZero(window) {
          return ZeroExtentSkipped;
        }
        var stop := Recreate(window, recreate);
        if stop.Some? {
          return stop.value;
        }
      }
      match acquire {
        case OutOfDate =>
          recreateSwapchain := true;
          return OutOfDateSkipped;
        case AcquireFailed =>
          return Panicked;
        case Acquired(_, _) =>
      }
      var imageNum := acquire.imageNum;
      if acquire.suboptimal {
        recreateSwapchain := true;
      }
      RenderEach(imageNum);
      var previous := finish.value;
      finish := None;
      match flush {
        case ExecuteFailed =>
          return Panicked;
        case Flushed =>
          finish := Some(FramePresented(previous, imageNum));
        case FlushFailed =>
          finish := Some(Now);
      }
      outcome := Submitted;
    }
  }

  /** Whether render goes on to acquisition: no flag, or a flagged recreation that succeeded. */
  predicate Proceeds(flagged: bool, window: Extent, recreate: RecreateResult)
  {
    !flagged || (!IsZero(window) && recreate.Recreated?)
  }

  /** The renderer calls a successful recreation makes, if there was one. */
  function Recreation(flagged: bool, vkls: seq<VklId>, recreate: RecreateResult): seq<VklCall>
  {
    if flagged && recreate.Recreated? then UpdateCalls(vkls, recreate.images) else []
  }

  /**
   * A recreate request while the window is minimised: render returns before any
   * acquire, submit or present (whatever those would have answered), makes no
   * renderer call, and keeps the flag for the next frame.
   */
  method MinimisedScenario()
  {
    var v := new Vkr(Swapchain(0), [0, 1]);
    v.PushVkl(5);
    v.RecreateSwapchain();
    var out := v.Render(Extent(0, 600), RecreateFailed, AcquireFailed, ExecuteFailed);
    assert out == ZeroExtentSkipped && v.calls == [] && v.recreateSwapchain;
    assert v.finish == Some(Now);
  }
}
