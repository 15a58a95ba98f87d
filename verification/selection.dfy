/** The exercise-selection procedure (`generateWorkout` in src/App.js): a
    duration fixes how many exercises are drawn, and each draw picks one entry
    of the category's list, uniformly and with replacement.

    `Math.random()` is not modelled as a source of floating-point numbers: the
    caller passes the values it would return, in order, as `draws`, each in
    [0, 1). A seeded generator is any particular choice of that sequence. */
module Selection {
  import opened Catalog

  /** `Math.ceil(duration / 2)`: the least integer n with duration / 2 <= n. */
  function Count(duration: int): (n: int)
    ensures duration <= 2 * n < duration + 2
  {
    (duration + 1) / 2
  }

  /** How many times the `for` loop body runs: `Count(duration)` when that is
      positive, zero otherwise. */
  function Passes(duration: int): (n: nat)
    ensures duration > 0 ==> n == Count(duration)
    ensures duration <= 0 ==> n == 0
  {
    if Count(duration) > 0 then Count(duration) else 0
  }

  /** The durations the view offers, in minutes. */
  const OfferedDurations: seq<int> := [5, 10, 15]

  /** 5, 10 and 15 minutes give 3, 5 and 8 exercises; every offered duration
      gives a non-empty workout. */
  lemma OfferedCounts()
    ensures Count(5) == 3 && Count(10) == 5 && Count(15) == 8
    ensures forall d :: d in OfferedDurations ==> Passes(d) == Count(d) >= 1
  {
  }

  /** A value `Math.random()` can return. */
  predicate IsRandom(r: real)
  {
    0.0 <= r < 1.0
  }

  predicate AllRandom(rs: seq<real>)
  {
    forall k :: 0 <= k < |rs| ==> IsRandom(rs[k])
  }

  /** `Math.floor(r * len)`: always a valid index of a non-empty list. */
  function PickIndex(r: real, len: nat): (i: nat)
    requires IsRandom(r) && len > 0
    ensures i < len
    ensures i as real <= r * len as real < i as real + 1.0
  {
    assert r * len as real < len as real;
    (r * len as real).Floor
  }

  /** Index i is picked exactly by the draws in [i / len, (i + 1) / len): each
      index owns an interval of width 1 / len, so the pick is uniform. */
  lemma PickIndexInterval(r: real, len: nat, i: nat)
    requires IsRandom(r) && len > 0
    ensures PickIndex(r, len) == i <==> i as real / len as real <= r < (i + 1) as real / len as real
  {
  }

  /** Dividing by a positive scale keeps comparisons: x / L <= r exactly when
      x <= r * L, and r <= x / L exactly when r * L <= x. */
  lemma ScaleBound(x: real, r: real, L: real)
    requires L > 0.0
    ensures x / L <= r <==> x <= r * L
    ensures r <= x / L <==> r * L <= x
  {
    var q := x / L;
    assert q * L == x;
    if q <= r {
      MulMono(q, r, L);
    } else {
      MulMono(r, q, L);
    }
  }

  lemma MulMono(a: real, b: real, L: real)
    requires L > 0.0 && a <= b
    ensures a * L <= b * L && (a < b ==> a * L < b * L)
  {
  }

  /** The workout that the given draws produce from `list`: one pick per draw,
      appended in draw order. It has one entry per draw, and every entry
      belongs to `list`. */
  function Draws(list: seq<Exercise>, rs: seq<real>): (w: seq<Exercise>)
    requires |list| > 0 && AllRandom(rs)
    ensures |w| == |rs|
    ensures forall e :: e in w ==> e in list
  {
    if rs == [] then []
    else Draws(list, rs[..|rs| - 1]) + [list[PickIndex(rs[|rs| - 1], |list|)]]
  }

  /** One entry per draw, and entry k is what draw k picks. */
  lemma {:induction false} DrawsAt(list: seq<Exercise>, rs: seq<real>, k: nat)
    requires |list| > 0 && AllRandom(rs) && k < |rs|
    ensures |Draws(list, rs)| == |rs|
    ensures Draws(list, rs)[k] == list[PickIndex(rs[k], |list|)]
  {
    if k < |rs| - 1 {
      DrawsAt(list, rs[..|rs| - 1], k);
    }
  }

  /** Drawing `a` and then `b` gives the workout of `a` followed by that of `b`:
      earlier draws are never reordered or replaced by later ones. */
  lemma {:induction false} DrawsAppend(list: seq<Exercise>, a: seq<real>, b: seq<real>)
    requires |list| > 0 && AllRandom(a) && AllRandom(b)
    ensures AllRandom(a + b)
    ensures Draws(list, a + b) == Draws(list, a) + Draws(list, b)
  {
    if b == [] {
      assert a + b == a;
    } else {
      var b' := b[..|b| - 1];
      assert (a + b)[..|a + b| - 1] == a + b';
      DrawsAppend(list, a, b');
    }
  }

  /** The position of `e` in `list`. */
  function IndexOf(list: seq<Exercise>, e: Exercise): (i: nat)
    requires e in list
    ensures i < |list| && list[i] == e
  {
    if list[0] == e then 0 else 1 + IndexOf(list[1..], e)
  }

  /** A draw that picks index i: the left end of i's interval. */
  function DrawFor(i: nat, len: nat): (r: real)
    requires i < len
    ensures IsRandom(r) && PickIndex(r, len) == i
  {
    var r := i as real / len as real;
    ScaleBound(i as real, 0.0, len as real);
    ScaleBound(i as real, 1.0, len as real);
    PickIndexInterval(r, len, i);
    r
  }

  /** Draws that produce `w` from `list`. */
  function DrawsFor(list: seq<Exercise>, w: seq<Exercise>): (rs: seq<real>)
    requires forall e :: e in w ==> e in list
    ensures |rs| == |w| && AllRandom(rs)
  {
    if w == [] then []
    else DrawsFor(list, w[..|w| - 1]) + [DrawFor(IndexOf(list, w[|w| - 1]), |list|)]
  }

  /** Selection is with replacement and without a distinctness check: EVERY
      sequence of entries of the list, repeats and any order included, is the
      workout of some draws. */
  lemma {:induction false} DrawsCover(list: seq<Exercise>, w: seq<Exercise>)
    requires forall e :: e in w ==> e in list
    requires |list| > 0
    ensures Draws(list, DrawsFor(list, w)) == w
  {
    if w != [] {
      var rs := DrawsFor(list, w);
      var w' := w[..|w| - 1];
      assert rs[..|rs| - 1] == DrawsFor(list, w');
      DrawsCover(list, w');
    }
  }

  /** `generateWorkout` for `EXERCISES[category]`: the loop appends one pick per
      pass to `selectedExercises`. The result has exactly `Passes(duration)`
      entries, all from the category's list, and is the workout of the first
      `Passes(duration)` draws. */
  method GenerateWorkout(category: string, duration: int, draws: seq<real>) returns (w: seq<Exercise>)
    requires category in Exercises
    requires AllRandom(draws) && Passes(duration) <= |draws|
    ensures |w| == Passes(duration)
    ensures forall e :: e in w ==> e in Exercises[category]
    ensures w == Draws(Exercises[category], draws[..Passes(duration)])
  {
    var categoryExercises := Exercises[category];
    CatalogShape();
    var numExercises := Count(duration);
    w := [];
    var i := 0;
    while i < numExercises
      invariant 0 <= i <= Passes(duration)
      invariant |w| == i
      invariant forall e :: e in w ==> e in categoryExercises
      invariant w == Draws(categoryExercises, draws[..i])
    {
      var randomExercise := categoryExercises[PickIndex(draws[i], |categoryExercises|)];
      assert draws[..i + 1][..i] == draws[..i];
      w := w + [randomExercise];
      i := i + 1;
    }
  }

  /** A cardio workout holds only Jumping Jacks and High Knees. */
  lemma CardioOnly(rs: seq<real>)
    requires AllRandom(rs)
    ensures forall e :: e in Draws(Exercises["cardio"], rs) ==> e.name in {"Jumping Jacks", "High Knees"}
  {
  }
}
