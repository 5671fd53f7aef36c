/** The ten-point sliding window of the two live charts. The simulation page writes it
    as `[...prev, p].slice(-10)`, the upload panel as `[...prev.slice(-9), p]`. */
module ChartWindow {
  import opened Sequences

  const Capacity: int := 10

  /** The simulation page's form: append, then keep the last ten. */
  function Slide<T>(prev: seq<T>, p: T): seq<T>
  {
    Slice(prev + [p], -Capacity)
  }

  /** One update: at most ten points, the new point last, and the rest the most
      recent earlier points in their order. */
  lemma SlideShape<T>(prev: seq<T>, p: T)
    ensures |Slide(prev, p)| == if |prev| + 1 <= Capacity then |prev| + 1 else Capacity
    ensures Slide(prev, p)[|Slide(prev, p)| - 1] == p
    ensures Slide(prev, p) == (prev + [p])[|prev| + 1 - |Slide(prev, p)|..]
  {
  }

  /** The upload panel's form: keep the last nine, then append. It computes the same
      window as `Slide`. */
  function ShiftIn<T>(prev: seq<T>, p: T): (w: seq<T>)
    ensures w == Slide(prev, p)
  {
    Slice(prev, -(Capacity - 1)) + [p]
  }

  /** Feeding the points `ps` to the window one at a time. */
  function SlideAll<T>(w: seq<T>, ps: seq<T>): seq<T>
    decreases |ps|
  {
    if ps == [] then w else SlideAll(Slide(w, ps[0]), ps[1..])
  }

  /** After any run of updates the window holds the last ten points of the whole
      history, in arrival order. */
  lemma {:induction false} SlideAllKeepsLast<T>(w: seq<T>, ps: seq<T>)
    requires |w| <= Capacity
    ensures SlideAll(w, ps) == Slice(w + ps, -Capacity)
    decreases |ps|
  {
    if ps == [] {
      SliceLast(w, Capacity);
    } else {
      var h := w + [ps[0]];
      SlideShape(w, ps[0]);
      SlideAllKeepsLast(Slide(w, ps[0]), ps[1..]);
      assert w + ps == h + ps[1..];
      TrimThenExtend(h, ps[1..]);
    }
  }

  /** Trimming a history first and then extending it keeps the same last ten. */
  lemma TrimThenExtend<T>(h: seq<T>, rest: seq<T>)
    ensures Slice(Slice(h, -Capacity) + rest, -Capacity) == Slice(h + rest, -Capacity)
  {
  }

  /** Starting from an empty chart, N updates leave exactly min(N, 10) points: the
      last ones received, in the order received. */
  lemma UploadsFromEmpty<T>(ps: seq<T>)
    ensures |SlideAll([], ps)| == if |ps| <= Capacity then |ps| else Capacity
    ensures SlideAll([], ps) == ps[|ps| - |SlideAll([], ps)|..]
  {
    SlideAllKeepsLast([], ps);
    assert [] + ps == ps;
    SliceLast(ps, Capacity);
  }
}
