/**
 * Sprite: a sprite sheet of `numFrames` frames played through a frame
 * sequence. The sequence is either the basic one (every frame in order) or
 * a custom one; the sprite remembers where in the sequence it is and which
 * frame it shows.
 */
module Sprites {
  import opened Base

  /** How long a frame of a sequence stays up: some seconds, or forever (Float.POSITIVE_INFINITY). */
  datatype Duration = Seconds(s: real) | Forever

  /** Sprite.SequencePoint: a frame of the sheet and how long it stays up. */
  datatype SequencePoint = SequencePoint(frameIndex: int, duration: Duration)

  /** The basic sequence of doSetBasicFrameSequence: position `i` shows frame `i`, for every frame of the sheet. */
  function Basic(numFrames: nat, duration: Duration): (r: seq<SequencePoint>)
    ensures |r| == numFrames
    ensures forall i :: 0 <= i < numFrames ==> r[i] == SequencePoint(i, duration)
  {
    seq(numFrames, i => SequencePoint(i, duration))
  }

  /**
   * What setFrameSequence accepts: a non-null, non-empty array with no null
   * element and no frame index past the sheet. A null array or element
   * raises the NullPointerException it catches; negative indices pass.
   */
  predicate Acceptable(a: Option<seq<Option<SequencePoint>>>, numFrames: int)
  {
    a.Some? && |a.value| >= 1 && forall i :: 0 <= i < |a.value| ==> a.value[i].Some? && a.value[i].value.frameIndex < numFrames
  }

  /** The points of an array that has no null element. */
  function Points(a: seq<Option<SequencePoint>>): (r: seq<SequencePoint>)
    requires forall i :: 0 <= i < |a| ==> a[i].Some?
    ensures |r| == |a| && forall i :: 0 <= i < |a| ==> r[i] == a[i].value
  {
    seq(|a|, i requires 0 <= i < |a| => a[i].value)
  }

  /** The position doNextFrame moves to in a sequence of `n` points: one on, back to 0 after the last. */
  function NextIndex(i: int, n: int): int
  {
    if i + 1 >= n then 0 else i + 1
  }

  /** The position prevFrame moves to, as written: one back, but to the last point whenever that would reach 0 or below. */
  function PrevIndex(i: int, n: int): int
  {
    if i - 1 <= 0 then n - 1 else i - 1
  }

  /** Stepping on and back stay within a sequence of `n` points, for any position within it. */
  lemma StepsInRange(i: int, n: int)
    requires 0 <= i < n
    ensures 0 <= NextIndex(i, n) < n && 0 <= PrevIndex(i, n) < n
  {
  }

  /** `k` steps on from position `i`. */
  function Advance(i: int, n: int, k: nat): int
  {
    if k == 0 then i else NextIndex(Advance(i, n, k - 1), n)
  }

  /** After k steps on from 0, for k < n, the sprite stands at position k. */
  lemma {:induction false} AdvanceFromStart(n: int, k: nat)
    requires k < n
    ensures Advance(0, n, k) == k
  {
    if k > 0 {
      AdvanceFromStart(n, k - 1);
    }
  }

  /** The sequence is a cycle: n steps on from the start come back to it. */
  lemma AdvanceCycles(n: int)
    requires n >= 1
    ensures Advance(0, n, n) == 0
  {
    AdvanceFromStart(n, n - 1);
  }

  /** As written, with more than one point, prevFrame never lands on position 0. */
  lemma PrevSkipsFirst(i: int, n: int)
    requires n > 1
    ensures PrevIndex(i, n) != 0
  {
  }

  /** As written, stepping back from position 1 and then on again does not return to position 1. */
  lemma PrevFromOne(n: int)
    requires n > 2
    ensures PrevIndex(1, n) == n - 1 && NextIndex(PrevIndex(1, n), n) == 0
  {
  }

  /** prevFrame as evidently intended: one back, to the last point only from position 0. */
  function PrevIndexIntended(i: int, n: int): (r: int)
    requires 0 <= i < n
    ensures 0 <= r < n
  {
    if i - 1 < 0 then n - 1 else i - 1
  }

  /** The intended prevFrame undoes doNextFrame and is undone by it. */
  lemma PrevIntendedInverts(i: int, n: int)
    requires 0 <= i < n
    ensures NextIndex(PrevIndexIntended(i, n), n) == i
    ensures PrevIndexIntended(NextIndex(i, n), n) == i
  {
  }

  class Sprite {
    const numFrames: nat
    var sequence: seq<SequencePoint>
    var isCustomSequence: bool
    var currentFrameIndex: int
    var currentFrameSequenceIndex: int
    var currentFrameTime: real

    /**
     * What every method keeps: a custom sequence is not empty, the basic
     * one has one point per frame in order, no point names a frame past the
     * sheet, and the position is within the sequence (or, in an empty one,
     * at 0 or at -1, where a prevFrame leaves it).
     */
    ghost predicate Valid()
      reads this
    {
      (isCustomSequence ==> |sequence| >= 1) &&
      (!isCustomSequence ==> |sequence| == numFrames && forall i :: 0 <= i < |sequence| ==> sequence[i].frameIndex == i) &&
      (forall i :: 0 <= i < |sequence| ==> sequence[i].frameIndex < numFrames) &&
      (if |sequence| > 0 then 0 <= currentFrameSequenceIndex < |sequence| else -1 <= currentFrameSequenceIndex <= 0)
    }

    /**
     * Sprite(image, duration, frameWidth, frameHeight), with `numFrames`
     * the frames the sheet cuts the image into: the basic sequence, every
     * frame staying up `duration`, shown from its start.
     */
    constructor (numFrames: nat, duration: Duration)
      ensures this.numFrames == numFrames && Valid()
      ensures sequence == Basic(numFrames, duration) && !isCustomSequence
      ensures currentFrameSequenceIndex == 0 && currentFrameIndex == 0 && currentFrameTime == 0.0
    {
      this.numFrames := numFrames;
      sequence := [];
      isCustomSequence := false;
      currentFrameIndex := 0;
      currentFrameSequenceIndex := 0;
      currentFrameTime := 0.0;
      new;
      DoSetBasicFrameSequence(duration);
    }

    /** getFrameIndex: the frame shown. */
    function GetFrameIndex(): (r: int)
      reads this
      ensures r == currentFrameIndex
    {
      currentFrameIndex
    }

    /** setFrameIndex: any index short of the sheet's frame count is shown, a negative one included; a larger one is refused. */
    method SetFrameIndex(i: int) returns (r: bool)
      requires Valid()
      modifies this
      ensures Valid() && (r <==> i < numFrames)
      ensures currentFrameIndex == (if r then i else old(currentFrameIndex))
      ensures sequence == old(sequence) && isCustomSequence == old(isCustomSequence)
      ensures currentFrameSequenceIndex == old(currentFrameSequenceIndex) && currentFrameTime == old(currentFrameTime)
    {
      if numFrames > i {
        currentFrameIndex := i;
        return true;
      } else {
        return false;
      }
    }

    /**
     * setFrameSequence: an acceptable array becomes the custom sequence,
     * shown from its start; anything else is refused and changes nothing.
     * The validation is the loop over the array's points.
     */
    method SetFrameSequence(a: Option<seq<Option<SequencePoint>>>) returns (r: bool)
      requires Valid()
      modifies this
      ensures Valid() && (r <==> Acceptable(a, numFrames))
      ensures r ==> sequence == Points(a.value) && isCustomSequence && currentFrameSequenceIndex == 0 &&
                    currentFrameIndex == a.value[0].value.frameIndex && currentFrameTime == 0.0
      ensures !r ==> sequence == old(sequence) && isCustomSequence == old(isCustomSequence) &&
                     currentFrameSequenceIndex == old(currentFrameSequenceIndex) &&
                     currentFrameIndex == old(currentFrameIndex) && currentFrameTime == old(currentFrameTime)
    {
      if a.None? {
        return false;
      }
      var points := a.value;
      if |points| < 1 {
        return false;
      }
      var k := 0;
      while k < |points|
        invariant 0 <= k <= |points|
        invariant forall j :: 0 <= j < k ==> points[j].Some? && points[j].value.frameIndex < numFrames
      {
        if points[k].None? || points[k].value.frameIndex >= numFrames {
          return false;
        }
        k := k + 1;
      }
      sequence := Points(points);
      isCustomSequence := true;
      ResetSequenceIndex();
      return true;
    }

    /** resetSequenceIndex: back to the start of the sequence, showing its first frame, or frame 0 if it is empty. */
    method ResetSequenceIndex()
      requires (isCustomSequence ==> |sequence| >= 1)
      requires (!isCustomSequence ==> |sequence| == numFrames && forall i :: 0 <= i < |sequence| ==> sequence[i].frameIndex == i)
      requires forall i :: 0 <= i < |sequence| ==> sequence[i].frameIndex < numFrames
      modifies this
      ensures Valid() && sequence == old(sequence) && isCustomSequence == old(isCustomSequence)
      ensures currentFrameTime == 0.0 && currentFrameSequenceIndex == 0
      ensures currentFrameIndex == (if |sequence| > 0 then sequence[0].frameIndex else 0)
    {
      currentFrameTime := 0.0;
      currentFrameSequenceIndex := 0;
      if |sequence| > 0 {
        currentFrameIndex := sequence[currentFrameSequenceIndex].frameIndex;
      } else {
        currentFrameIndex := 0;
      }
    }

    /** doSetBasicFrameSequence: the basic sequence is filled in, point by point, and shown from its start. */
    method DoSetBasicFrameSequence(duration: Duration)
      modifies this
      ensures Valid() && sequence == Basic(numFrames, duration) && !isCustomSequence
      ensures currentFrameTime == 0.0 && currentFrameSequenceIndex == 0 && currentFrameIndex == 0
    {
      var s: seq<SequencePoint> := [];
      for i := 0 to numFrames
        invariant |s| == i && forall j :: 0 <= j < i ==> s[j] == SequencePoint(j, duration)
      {
        s := s + [SequencePoint(i, duration)];
      }
      sequence := s;
      isCustomSequence := false;
      ResetSequenceIndex();
    }

    /** setFrameSequenceIndex: a position within the sequence is moved to and its frame shown; any other is refused. */
    method SetFrameSequenceIndex(i: int) returns (r: bool)
      requires Valid()
      modifies this
      ensures Valid() && (r <==> 0 <= i < |sequence|)
      ensures r ==> currentFrameSequenceIndex == i && currentFrameIndex == sequence[i].frameIndex
      ensures !r ==> currentFrameSequenceIndex == old(currentFrameSequenceIndex) && currentFrameIndex == old(currentFrameIndex)
      ensures sequence == old(sequence) && isCustomSequence == old(isCustomSequence) && currentFrameTime == old(currentFrameTime)
    {
      if 0 <= i < |sequence| {
        currentFrameIndex := sequence[i].frameIndex;
        currentFrameSequenceIndex := i;
        return true;
      }
      return false;
    }

    /** nextFrame: the frame time restarts and the sprite steps on, as doNextFrame says. */
    method NextFrame() returns (threw: bool)
      requires Valid()
      modifies this
      ensures Valid() && currentFrameTime == 0.0
      ensures threw <==> |sequence| == 0
      ensures currentFrameSequenceIndex == NextIndex(old(currentFrameSequenceIndex), |sequence|)
      ensures !threw ==> currentFrameIndex == sequence[currentFrameSequenceIndex].frameIndex
      ensures threw ==> currentFrameIndex == old(currentFrameIndex)
      ensures sequence == old(sequence) && isCustomSequence == old(isCustomSequence)
    {
      currentFrameTime := 0.0;
      threw := DoNextFrame();
    }

    /**
     * doNextFrame: one position on, back to 0 after the last, showing the
     * frame there. On an empty sequence the read of point 0 throws
     * ArrayIndexOutOfBoundsException, `threw`, once the position is set.
     */
    method DoNextFrame() returns (threw: bool)
      requires Valid()
      modifies this
      ensures Valid() && (threw <==> |sequence| == 0)
      ensures currentFrameSequenceIndex == NextIndex(old(currentFrameSequenceIndex), |sequence|)
      ensures !threw ==> currentFrameIndex == sequence[currentFrameSequenceIndex].frameIndex
      ensures threw ==> currentFrameIndex == old(currentFrameIndex)
      ensures sequence == old(sequence) && isCustomSequence == old(isCustomSequence) && currentFrameTime == old(currentFrameTime)
    {
      currentFrameSequenceIndex := currentFrameSequenceIndex + 1;
      if currentFrameSequenceIndex >= |sequence| {
        currentFrameSequenceIndex := 0;
      }
      if |sequence| == 0 {
        return true;
      }
      currentFrameIndex := sequence[currentFrameSequenceIndex].frameIndex;
      return false;
    }

    /**
     * prevFrame: the frame time restarts and the sprite steps back as
     * PrevIndex says, showing the frame there. On an empty sequence the
     * position becomes -1 and the read throws, `threw`.
     */
    method PrevFrame() returns (threw: bool)
      requires Valid()
      modifies this
      ensures Valid() && currentFrameTime == 0.0
      ensures threw <==> |sequence| == 0
      ensures currentFrameSequenceIndex == PrevIndex(old(currentFrameSequenceIndex), |sequence|)
      ensures !threw ==> currentFrameIndex == sequence[currentFrameSequenceIndex].frameIndex
      ensures threw ==> currentFrameIndex == old(currentFrameIndex)
      ensures sequence == old(sequence) && isCustomSequence == old(isCustomSequence)
    {
      currentFrameTime := 0.0;
      currentFrameSequenceIndex := currentFrameSequenceIndex - 1;
      if currentFrameSequenceIndex <= 0 {
        currentFrameSequenceIndex := |sequence| - 1;
      }
      if |sequence| == 0 {
        return true;
      }
      currentFrameIndex := sequence[currentFrameSequenceIndex].frameIndex;
      return false;
    }
  }
}
