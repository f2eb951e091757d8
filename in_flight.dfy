/**
 The in-flight queue of the upload context: finished command buffers tagged with the frame they
 were submitted on, and the drain `clear` performs on it, as functions with their properties.
 */
module InFlightQueue {
  import opened Hal

  /** A submitted command buffer and the frame tag it carries. */
  datatype InFlight = InFlight(buffer: CommandBuffer, frame: nat)

  /** What one `clear` does to the queue: the buffers it recycles (in order) and the queue it leaves. */
  datatype Drained = Drained(recycled: seq<CommandBuffer>, retained: seq<InFlight>)

  /** Frame tags do not decrease from front to back. */
  predicate Ordered(used: seq<InFlight>) {
    forall i, j :: 0 <= i < j < |used| ==> used[i].frame <= used[j].frame
  }

  function Buffers(used: seq<InFlight>): seq<CommandBuffer> {
    seq(|used|, i requires 0 <= i < |used| => used[i].buffer)
  }

  /**
   The loop of `clear(ongoing)` as written: pop entries from the front while their tag is below
   `ongoing`; the first entry whose tag is not is pushed back with its tag replaced by `ongoing`.
   */
  function Drain(used: seq<InFlight>, ongoing: nat): (r: Drained)
    ensures |r.recycled| + |r.retained| == |used|
    ensures r.retained != [] ==> r.retained[0].frame == ongoing
  {
    if used == [] then Drained([], [])
    else if used[0].frame >= ongoing then Drained([], [InFlight(used[0].buffer, ongoing)] + used[1..])
    else
      var rest := Drain(used[1..], ongoing);
      Drained([used[0].buffer] + rest.recycled, rest.retained)
  }

  /**
   `clear` recycles exactly the longest front prefix of the queue whose tags are below the
   watermark, in queue order. If an entry with a tag at or above the watermark stops it, that entry
   stays at the front with its tag replaced by the watermark and everything after it is untouched.
   */
  lemma {:induction false} DrainIsRetiredPrefix(used: seq<InFlight>, ongoing: nat)
    ensures var d := Drain(used, ongoing);
      && |d.recycled| <= |used|
      && (forall i :: 0 <= i < |d.recycled| ==> used[i].frame < ongoing && d.recycled[i] == used[i].buffer)
      && (|d.recycled| < |used| ==>
            used[|d.recycled|].frame >= ongoing
            && d.retained == [InFlight(used[|d.recycled|].buffer, ongoing)] + used[|d.recycled| + 1..])
      && (|d.recycled| == |used| ==> d.retained == [])
  {
    if used != [] && used[0].frame < ongoing {
      DrainIsRetiredPrefix(used[1..], ongoing);
    }
  }

  /** No buffer is lost or duplicated: the recycled buffers followed by the retained ones are the queue's. */
  lemma DrainConservesBuffers(used: seq<InFlight>, ongoing: nat)
    ensures var d := Drain(used, ongoing);
      Buffers(used) == d.recycled + Buffers(d.retained) && |d.recycled| + |d.retained| == |used|
  {
    DrainIsRetiredPrefix(used, ongoing);
    var d := Drain(used, ongoing);
    var k := |d.recycled|;
    assert Buffers(used) == d.recycled + Buffers(d.retained) by {
      forall i | 0 <= i < |used|
        ensures Buffers(used)[i] == (d.recycled + Buffers(d.retained))[i]
      {
        if i > k {
          assert d.retained[i - k] == used[i];
        }
      }
    }
  }

  /** A queue ordered by tag stays ordered: the rewritten tag is never above the one it replaces. */
  lemma {:induction false} DrainPreservesOrder(used: seq<InFlight>, ongoing: nat)
    requires Ordered(used)
    ensures Ordered(Drain(used, ongoing).retained)
  {
    DrainIsRetiredPrefix(used, ongoing);
    var d := Drain(used, ongoing);
    var k := |d.recycled|;
    if k < |used| {
      forall i, j | 0 <= i < j < |d.retained|
        ensures d.retained[i].frame <= d.retained[j].frame
      {
        assert d.retained[j] == used[k + j];
        if i > 0 {
          assert d.retained[i] == used[k + i];
        }
      }
    }
  }

  /**
   On an ordered queue `clear` recycles a buffer exactly when its tag is below the watermark: it
   never recycles one tagged at or above it, and it leaves none tagged below it behind.
   */
  lemma {:induction false} DrainRecyclesExactlyRetired(used: seq<InFlight>, ongoing: nat)
    requires Ordered(used)
    ensures forall i :: 0 <= i < |used| ==> (i < |Drain(used, ongoing).recycled| <==> used[i].frame < ongoing)
  {
    DrainIsRetiredPrefix(used, ongoing);
  }

  /**
   The consequence of the tag rewrite: once the front entry has been kept back by a watermark
   `first`, any later, higher watermark recycles it, whatever frame it was really submitted on.
   */
  lemma RewrittenTagRecycledEarly(used: seq<InFlight>, first: nat, second: nat)
    requires used != [] && first <= used[0].frame && first < second
    ensures var again := Drain(Drain(used, first).retained, second);
      again.recycled != [] && again.recycled[0] == used[0].buffer
  {
  }

  /** The same drain with the kept entry's tag left as it was. */
  function DrainKeepingTags(used: seq<InFlight>, ongoing: nat): Drained {
    if used == [] then Drained([], [])
    else if used[0].frame >= ongoing then Drained([], used)
    else
      var rest := DrainKeepingTags(used[1..], ongoing);
      Drained([used[0].buffer] + rest.recycled, rest.retained)
  }

  /** Keeping the tag recycles exactly the same buffers in the same order; only the tag differs. */
  lemma {:induction false} DrainKeepingTagsRecyclesTheSame(used: seq<InFlight>, ongoing: nat)
    ensures DrainKeepingTags(used, ongoing).recycled == Drain(used, ongoing).recycled
  {
    if used != [] && used[0].frame < ongoing {
      DrainKeepingTagsRecyclesTheSame(used[1..], ongoing);
    }
  }

  /** The drain keeping tags recycles a tag-below-watermark prefix and leaves the rest of the queue as it was. */
  lemma {:induction false} DrainKeepingTagsLeavesSuffix(used: seq<InFlight>, ongoing: nat)
    ensures var d := DrainKeepingTags(used, ongoing);
      && |d.recycled| <= |used|
      && (forall i :: 0 <= i < |d.recycled| ==> used[i].frame < ongoing && d.recycled[i] == used[i].buffer)
      && d.retained == used[|d.recycled|..]
  {
    if used != [] && used[0].frame < ongoing {
      DrainKeepingTagsLeavesSuffix(used[1..], ongoing);
    }
  }

  /**
   With tags kept, two successive clears never recycle a buffer whose submission frame is at or
   above the watermark in force when it is recycled.
   */
  lemma DrainKeepingTagsNeverRecyclesEarly(used: seq<InFlight>, first: nat, second: nat)
    ensures var once := DrainKeepingTags(used, first);
      var again := DrainKeepingTags(once.retained, second);
      |once.recycled| + |again.recycled| <= |used| &&
      forall i :: 0 <= i < |again.recycled| ==>
        again.recycled[i] == used[|once.recycled| + i].buffer && used[|once.recycled| + i].frame < second
  {
    DrainKeepingTagsLeavesSuffix(used, first);
    var once := DrainKeepingTags(used, first);
    DrainKeepingTagsLeavesSuffix(once.retained, second);
  }

  /**
   The tag rewrite recycles a buffer while its own frame is still ongoing: an entry submitted on a
   frame at or above both watermarks is kept back by the first clear and recycled by the second,
   whereas the drain keeping its tag keeps it back both times.
   */
  lemma RewrittenTagRecycledBeforeItsFrame(used: seq<InFlight>, first: nat, second: nat)
    requires used != [] && first < second <= used[0].frame
    ensures var again := Drain(Drain(used, first).retained, second);
      again.recycled != [] && again.recycled[0] == used[0].buffer
    ensures DrainKeepingTags(DrainKeepingTags(used, first).retained, second).recycled == []
  {
  }

  /** One such input: a buffer submitted on frame 7, cleared with watermarks 6 and then 7. */
  lemma FrameSevenRecycledAtWatermarkSeven(b: CommandBuffer)
    ensures Drain(Drain([InFlight(b, 7)], 6).retained, 7).recycled == [b]
    ensures DrainKeepingTags(DrainKeepingTags([InFlight(b, 7)], 6).retained, 7).recycled == []
  {
    RewrittenTagRecycledBeforeItsFrame([InFlight(b, 7)], 6, 7);
  }
}
