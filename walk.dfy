/** `brownian` of lib/index.ts: a walk on the plane that starts at a given
    point and, at every step, moves one unit in the direction of an angle
    drawn with `rand(0, 2 * Math.PI)`. `Math.cos`, `Math.sin`, `Math.PI` and
    the word each `rand` call draws are parameters. */
module Walk {
  import opened Random
  import Units

  /** `BrownianOptions`. Only `start_x`, `start_y` and `steps` are read. */
  datatype BrownianOptions = BrownianOptions(
    start_x: real,
    start_y: real,
    steps: int,
    step_size: real,
    distance: Units.DistanceUnit)

  /** `BrownianOutput` as `brownian` builds it: the `[x, y]` points. */
  datatype BrownianOutput = BrownianOutput(path: seq<seq<real>>)

  /** `Math.cos`, `Math.sin` and `Math.PI`. */
  datatype Trig = Trig(cos: real -> real, sin: real -> real, pi: real)

  /** `cos(a) ** 2 + sin(a) ** 2 == 1` for every angle. */
  ghost predicate Pythagorean(trig: Trig)
  {
    forall a :: trig.cos(a) * trig.cos(a) + trig.sin(a) * trig.sin(a) == 1.0
  }

  /** The angle `rand(0, 2 * Math.PI)` for the drawn word `w`. */
  function Theta(w: Uint32, pi: real): (theta: real)
    ensures IsWhole(theta)
    ensures 2.0 * pi + 1.0 >= 0.0 ==> 0.0 <= theta
  {
    Rand(0.0, 2.0 * pi, w)
  }

  /** How many times `for (let i = 1; i < steps; i++)` runs its body. */
  function Moves(steps: int): nat
  {
    if steps <= 1 then 0 else steps - 1
  }

  /** The point reached after `i` moves; move `i` uses the word drawn in the
      loop iteration whose counter is `i`. */
  function Position(o: BrownianOptions, words: nat -> Uint32, trig: Trig, i: nat): (p: seq<real>)
    ensures |p| == 2
  {
    if i == 0 then [o.start_x, o.start_y]
    else
      var q := Position(o, words, trig, i - 1);
      var theta := Theta(words(i), trig.pi);
      [q[0] + trig.cos(theta), q[1] + trig.sin(theta)]
  }

  /** The points after `0, 1, ..., n` moves. */
  function Positions(o: BrownianOptions, words: nat -> Uint32, trig: Trig, n: nat): (path: seq<seq<real>>)
    ensures |path| == n + 1
    ensures forall i :: 0 <= i <= n ==> path[i] == Position(o, words, trig, i)
  {
    if n == 0 then [Position(o, words, trig, 0)]
    else Positions(o, words, trig, n - 1) + [Position(o, words, trig, n)]
  }

  /** `brownian(options)`: pushes the start, then one point per iteration. */
  method Brownian(options: BrownianOptions, words: nat -> Uint32, trig: Trig) returns (output: BrownianOutput)
    ensures output.path == Positions(options, words, trig, Moves(options.steps))
  {
    var x := options.start_x;
    var y := options.start_y;
    var positions := [[x, y]];
    var i := 1;
    while i < options.steps
      invariant 1 <= i && i - 1 <= Moves(options.steps)
      invariant positions == Positions(options, words, trig, i - 1)
      invariant [x, y] == Position(options, words, trig, i - 1)
    {
      var theta := Theta(words(i), trig.pi);
      x := x + trig.cos(theta);
      y := y + trig.sin(theta);
      positions := positions + [[x, y]];
      i := i + 1;
    }
    output := BrownianOutput(positions);
  }

  /** The walk starts at `[start_x, start_y]`. */
  lemma PathStartsAtStart(o: BrownianOptions, words: nat -> Uint32, trig: Trig)
    ensures Positions(o, words, trig, Moves(o.steps))[0] == [o.start_x, o.start_y]
  {
  }

  /** The walk has `steps` points when `steps >= 1`, and the start alone
      otherwise; every point is a pair. */
  lemma PathLength(o: BrownianOptions, words: nat -> Uint32, trig: Trig)
    ensures |Positions(o, words, trig, Moves(o.steps))| == if o.steps >= 1 then o.steps else 1
    ensures forall i :: 0 <= i < |Positions(o, words, trig, Moves(o.steps))| ==>
      |Positions(o, words, trig, Moves(o.steps))[i]| == 2
  {
  }

  /** Point `i` is point `i - 1` moved by `(cos θ, sin θ)`, with θ the angle
      drawn in iteration `i`. */
  lemma PathStep(o: BrownianOptions, words: nat -> Uint32, trig: Trig, n: nat, i: nat)
    requires 1 <= i <= n
    ensures Positions(o, words, trig, n)[i][0]
      == Positions(o, words, trig, n)[i - 1][0] + trig.cos(Theta(words(i), trig.pi))
    ensures Positions(o, words, trig, n)[i][1]
      == Positions(o, words, trig, n)[i - 1][1] + trig.sin(Theta(words(i), trig.pi))
  {
  }

  /** Squared distance between two points. */
  function SquaredDistance(p: seq<real>, q: seq<real>): real
    requires |p| == 2 && |q| == 2
  {
    (q[0] - p[0]) * (q[0] - p[0]) + (q[1] - p[1]) * (q[1] - p[1])
  }

  /** With `cos² + sin² = 1`, consecutive points are exactly one unit apart,
      whatever the `step_size` option says. */
  lemma UnitSteps(o: BrownianOptions, words: nat -> Uint32, trig: Trig, n: nat, i: nat)
    requires Pythagorean(trig) && 1 <= i <= n
    ensures SquaredDistance(Positions(o, words, trig, n)[i - 1], Positions(o, words, trig, n)[i]) == 1.0
  {
    PythagoreanAt(trig, Theta(words(i), trig.pi));
    UnitStepAt(o, words, trig, n, i);
  }

  /** The step to point `i` is one unit long when its own angle satisfies
      the identity. */
  lemma UnitStepAt(o: BrownianOptions, words: nat -> Uint32, trig: Trig, n: nat, i: nat)
    requires 1 <= i <= n
    requires var theta := Theta(words(i), trig.pi);
      trig.cos(theta) * trig.cos(theta) + trig.sin(theta) * trig.sin(theta) == 1.0
    ensures SquaredDistance(Positions(o, words, trig, n)[i - 1], Positions(o, words, trig, n)[i]) == 1.0
  {
    var theta := Theta(words(i), trig.pi);
    PathStep(o, words, trig, n, i);
    var path := Positions(o, words, trig, n);
    UnitMove(path[i - 1], path[i], trig.cos(theta), trig.sin(theta));
  }

  lemma PythagoreanAt(trig: Trig, a: real)
    requires Pythagorean(trig)
    ensures trig.cos(a) * trig.cos(a) + trig.sin(a) * trig.sin(a) == 1.0
  {
  }

  /** A move by a unit vector `(c, s)` covers a squared distance of 1. */
  lemma UnitMove(p: seq<real>, q: seq<real>, c: real, s: real)
    requires |p| == 2 && |q| == 2
    requires q[0] == p[0] + c && q[1] == p[1] + s && c * c + s * s == 1.0
    ensures SquaredDistance(p, q) == 1.0
  {
    assert q[0] - p[0] == c && q[1] - p[1] == s;
  }

  /** Since `rand` floors, the angle is a whole number of radians between 0
      and 7, not an arbitrary angle in `[0, 2π)`. */
  lemma ThetaIsWholeUpToSeven(w: Uint32, pi: real)
    requires 3.14159 < pi < 3.1416
    ensures IsWhole(Theta(w, pi))
    ensures 0.0 <= Theta(w, pi) <= 7.0
  {
    var width := 2.0 * pi - 0.0 + 1.0;
    RandOffsetIsFlooredScale(0.0, 2.0 * pi, w);
    assert Scaled(w, width) < width < 8.0;
    FloorBelowWhole(Scaled(w, width), 8.0);
  }

  /** The angle 7 is drawn, and it exceeds 2π: the word 4200000000 gives
      `floor(0.977... * (2π + 1)) = 7`. */
  lemma ThetaCanExceedTwoPi(pi: real)
    requires 3.14159 < pi < 3.1416
    ensures Theta(4200000000, pi) == 7.0
    ensures Theta(4200000000, pi) > 2.0 * pi
  {
    var width := 2.0 * pi + 1.0;
    var n := Normalize(4200000000);
    assert 0.97 < n < 1.0;
    ScaleStrict(width, 0.97, n);
    ScaleStrict(width, n, 1.0);
    assert 7.0 < 0.97 * width < n * width < width < 8.0;
  }

  /** Earlier points never change: the walk of `n` moves is a prefix of the
      walk of `m >= n` moves. */
  lemma {:induction false} PathsGrowByAppending(o: BrownianOptions, words: nat -> Uint32, trig: Trig, n: nat, m: nat)
    requires n <= m
    ensures Positions(o, words, trig, m)[..n + 1] == Positions(o, words, trig, n)
    decreases m
  {
    if n < m {
      PathsGrowByAppending(o, words, trig, n, m - 1);
      assert Positions(o, words, trig, m)[..m] == Positions(o, words, trig, m - 1);
    }
  }
}
