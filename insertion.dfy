/**
 * What the set-up sequence does to the coordinate array, as functions on
 * sequences: zeroing, the two writes that centre particle 0, and the
 * insertion steps. The insertion steps write through `PIndex` under the
 * active count left by the previous step, so the y-coordinates land where
 * that count puts them; `Settled` says in closed form which value each
 * offset holds after any number of steps.
 */
module Insertion {
  import opened Layout

  /** A placement: the x and y a step writes for its new particle. */
  datatype Point = Point(x: real, y: real)

  /** The active count in force while step `p` writes: 1 for the first step, then p - 1. */
  function CountBefore(p: int): (c: int)
    requires p >= 1
    ensures 1 <= c <= p
    ensures c == p <==> p == 1
  {
    if p == 1 then 1 else p - 1
  }

  /** Where step `p` writes its x-coordinate. */
  function XTarget(p: int): (r: int)
    requires p >= 1
    ensures r == p
  {
    PIndex(CountBefore(p), 0, p)
  }

  /**
   * Where step `p` writes its y-coordinate: offset 2 for the first step,
   * 2p - 1 afterwards; always past the x-write and inside the room of
   * p + 1 particles.
   */
  function YTarget(p: int): (r: int)
    requires p >= 1
    ensures r == (if p == 1 then 2 else 2 * p - 1)
    ensures p < r < 2 * (p + 1)
  {
    PIndex(CountBefore(p), 1, p)
  }

  /** The zeroing loop over `m` particles: offsets below 2m become 0.0. */
  function Zeroed(s: seq<real>, m: int): (r: seq<real>)
    requires 0 <= m && 2 * m <= |s|
    ensures |r| == |s|
  {
    seq(|s|, i requires 0 <= i < |s| => if i < 2 * m then 0.0 else s[i])
  }

  /** The zeroing loop followed by the two writes that centre particle 0. */
  function Prepared(s: seq<real>, m: int): (r: seq<real>)
    requires 0 <= m && 2 * m <= |s| && 2 <= |s|
    ensures |r| == |s|
    ensures forall i :: 0 <= i < |s| ==> r[i] == if i < 2 * m || i < 2 then 0.0 else s[i]
  {
    Zeroed(s, m)[PIndex(m, 0, 0) := 0.0][PIndex(m, 0, 1) := 0.0]
  }

  /**
   * One insertion step: the new particle's x, then its y. The two target
   * offsets get the new values and every other offset keeps its value.
   */
  function Step(s: seq<real>, p: int, pt: Point): (r: seq<real>)
    requires 1 <= p && 2 * (p + 1) <= |s|
    ensures |r| == |s|
    ensures r[p] == pt.x && r[YTarget(p)] == pt.y
    ensures forall i :: 0 <= i < |s| && i != p && i != YTarget(p) ==> r[i] == s[i]
  {
    s[XTarget(p) := pt.x][YTarget(p) := pt.y]
  }

  /** The array after insertion steps 1 .. k - 1, step p using `place[p - 1]`. */
  function Steps(s: seq<real>, place: seq<Point>, k: int): (r: seq<real>)
    requires 1 <= k && 2 * k <= |s| && k - 1 <= |place|
    ensures |r| == |s|
    decreases k
  {
    if k == 1 then s else Step(Steps(s, place, k - 1), k - 1, place[k - 2])
  }

  /** The loop bound at exit: the insertion loop runs while p < m, from p = 1. */
  function LastStep(m: int): (k: int)
    ensures k >= 1
    ensures m >= 1 ==> k == m
  {
    if m >= 1 then m else 1
  }

  /** The whole effect of the set-up sequence on a coordinate array of `m` active particles. */
  function Run(s: seq<real>, m: int, place: seq<Point>): (r: seq<real>)
    requires 0 <= m && 2 * m <= |s| && 2 <= |s| && m - 1 <= |place|
    ensures |r| == |s|
  {
    Steps(Prepared(s, m), place, LastStep(m))
  }

  /**
   * Closed form of offset `i` after steps 1 .. k - 1: the x of particle i
   * if it has been inserted; otherwise the y that some step aimed at i
   * (offset 2 from the first step, an odd offset 2q - 1 from step q);
   * otherwise what was there before the loop.
   */
  function Settled(s: seq<real>, place: seq<Point>, k: int, i: int): real
    requires 0 <= i < |s| && 1 <= k && k - 1 <= |place|
  {
    if 1 <= i < k then place[i - 1].x
    else if i == 2 && 1 < k then place[0].y
    else if i % 2 == 1 && 3 <= i && (i + 1) / 2 < k then place[(i + 1) / 2 - 1].y
    else s[i]
  }

  /** The closed form after one more step differs only at that step's two targets. */
  lemma SettledNext(s: seq<real>, place: seq<Point>, p: int, i: int)
    requires 1 <= p && p <= |place| && 0 <= i < |s|
    ensures Settled(s, place, p + 1, i)
         == if i == YTarget(p) then place[p - 1].y
            else if i == p then place[p - 1].x
            else Settled(s, place, p, i)
  {
  }

  /** The step-by-step definition and the closed form agree at every offset. */
  lemma {:induction false} StepsAt(s: seq<real>, place: seq<Point>, k: int, i: int)
    requires 1 <= k && 2 * k <= |s| && k - 1 <= |place|
    requires 0 <= i < |s|
    ensures Steps(s, place, k)[i] == Settled(s, place, k, i)
    decreases k
  {
    if k > 1 {
      var p := k - 1;
      StepsAt(s, place, p, i);
      SettledNext(s, place, p, i);
    }
  }

  /** An offset no step aims at keeps its value. */
  lemma {:induction false} UnwrittenKept(s: seq<real>, place: seq<Point>, k: int, i: int)
    requires 1 <= k && 2 * k <= |s| && k - 1 <= |place|
    requires 0 <= i < |s|
    requires forall q :: 1 <= q < k ==> XTarget(q) != i && YTarget(q) != i
    ensures Steps(s, place, k)[i] == s[i]
    decreases k
  {
    if k > 1 {
      UnwrittenKept(s, place, k - 1, i);
    }
  }

  /** Particle 0 stays at the centre: its x offset is never written after zeroing. */
  lemma OriginKept(s: seq<real>, m: int, place: seq<Point>)
    requires 0 <= m && 2 * m <= |s| && 2 <= |s| && m - 1 <= |place|
    ensures Run(s, m, place)[0] == 0.0
  {
    UnwrittenKept(Prepared(s, m), place, LastStep(m), 0);
  }

  /**
   * Offsets past the zeroed region and the two centring writes keep what
   * they held before: no write of the set-up sequence reaches them.
   */
  lemma BeyondActiveKept(s: seq<real>, m: int, place: seq<Point>, i: int)
    requires 0 <= m && 2 * m <= |s| && 2 <= |s| && m - 1 <= |place|
    requires 2 * m <= i < |s| && 2 <= i
    ensures Run(s, m, place)[i] == s[i]
  {
    StepsAt(Prepared(s, m), place, LastStep(m), i);
  }

  /**
   * Three particles: the second step's x overwrites the first step's y, and
   * the second step's y lands at offset 3, so both y-values of the inserted
   * particles are missing from offsets 4 and 5.
   */
  lemma ThreeParticles(s: seq<real>, a: Point, b: Point)
    requires |s| == 6
    ensures Run(s, 3, [a, b]) == [0.0, a.x, b.x, b.y, 0.0, 0.0]
  {
  }
}
