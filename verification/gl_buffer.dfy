/**
 * Byte (or vertex) regions of an OpenGL buffer object and the effect of
 * glBufferSubData on its contents.  Shared by the example windows, which all
 * pack several client arrays back to back into one array buffer and draw
 * consecutive vertex ranges.
 */
module GlBuffer {

  /** A half-open range [offset, offset + size). */
  datatype Region = Region(offset: nat, size: nat)
  {
    function End(): nat { offset + size }

    predicate Contains(p: int) { offset <= p < offset + size }
  }

  /** The regions follow each other from `start` with no gap and no overlap and stop exactly at `end`. */
  predicate Tiles(rs: seq<Region>, start: nat, end: nat)
    decreases |rs|
  {
    if rs == [] then start == end
    else rs[0].offset == start && Tiles(rs[1..], rs[0].End(), end)
  }

  /** Some region of `rs` contains position `p`. */
  predicate Covered(rs: seq<Region>, p: int)
  {
    exists k :: 0 <= k < |rs| && rs[k].Contains(p)
  }

  /** Sum of the sizes of the regions. */
  function TotalSize(rs: seq<Region>): nat
    decreases |rs|
  {
    if rs == [] then 0 else rs[0].size + TotalSize(rs[1..])
  }

  /**
   * Regions that tile [start, end) add up to its length, lie inside it, come
   * in increasing order without overlapping, and cover every position of it.
   */
  lemma {:induction false} TilesPartition(rs: seq<Region>, start: nat, end: nat)
    requires Tiles(rs, start, end)
    ensures start + TotalSize(rs) == end
    ensures forall k :: 0 <= k < |rs| ==> start <= rs[k].offset && rs[k].End() <= end
    ensures forall j, k :: 0 <= j < k < |rs| ==> rs[j].End() <= rs[k].offset
    ensures forall p :: start <= p < end ==> Covered(rs, p)
  {
    if rs != [] {
      var rest := rs[1..];
      TilesPartition(rest, rs[0].End(), end);
      forall k | 0 <= k < |rs|
        ensures start <= rs[k].offset && rs[k].End() <= end
      {
        if k > 0 { assert rs[k] == rest[k - 1]; }
      }
      forall j, k | 0 <= j < k < |rs|
        ensures rs[j].End() <= rs[k].offset
      {
        assert rs[k] == rest[k - 1];
        if j > 0 { assert rs[j] == rest[j - 1]; }
      }
      forall p | start <= p < end
        ensures Covered(rs, p)
      {
        if rs[0].Contains(p) {
          assert rs[0].Contains(p);
        } else {
          assert rs[0].End() <= p;
          assert Covered(rest, p);
          var k :| 0 <= k < |rest| && rest[k].Contains(p);
          assert rs[k + 1] == rest[k];
        }
      }
    }
  }

  /**
   * The contents of a buffer after writing `data` at position `at`
   * (glBufferSubData): the written range holds `data`, the rest is unchanged.
   */
  function Splice<T>(buf: seq<T>, at: nat, data: seq<T>): (r: seq<T>)
    requires at + |data| <= |buf|
    ensures |r| == |buf|
    ensures forall i :: 0 <= i < |r| ==> r[i] == if at <= i < at + |data| then data[i - at] else buf[i]
  {
    buf[..at] + data + buf[at + |data|..]
  }
}
