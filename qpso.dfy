/**
 * The quantum-behaved particle swarm optimiser (class `QPSO` in
 * `scripts/run_qpso.py`): a population of real-valued position vectors, each
 * encoded to a test ordering by `ArgSort` and scored by `Fitness`, with
 * personal and global bests updated in place.
 *
 * Every random draw numpy makes (the initial uniform positions, and per
 * particle update `phi`, `u` and the draw behind the sign vector) is a
 * parameter; `np.log` is the parameter `ln`, `math.cos` the parameter `cos`.
 */
module Qpso {
  import opened Reals
  import opened Amplitudes
  import opened Permutation
  import opened InterferenceFitness

  const PopulationSize: nat := 20
  const MaxIterations: nat := 50
  /** The contraction-expansion coefficient. */
  const Alpha: real := 0.5
  /** A sign draw above this gives +1, otherwise -1 (`np.where(rand > 0.2, 1, -1)`). */
  const SignThreshold: real := 0.2

  /** The draws one particle update consumes, one entry per dimension. */
  datatype ParticleDraw = ParticleDraw(phi: seq<real>, u: seq<real>, signDraw: seq<real>)

  /** The draws fit a vector of `dim` components, and every `u` is a valid argument of `1 / u`. */
  predicate DrawFits(draw: ParticleDraw, dim: nat) {
    && |draw.phi| == dim && |draw.u| == dim && |draw.signDraw| == dim
    && forall k :: 0 <= k < dim ==> draw.u[k] > 0.0
  }

  /** Every component lies in `[0, dim]`. */
  predicate InBox(v: seq<real>, dim: nat) {
    forall k :: 0 <= k < |v| ==> 0.0 <= v[k] <= dim as real
  }

  function Sign(r: real): (s: real)
    ensures s == 1.0 || s == -1.0
  {
    if r > SignThreshold then 1.0 else -1.0
  }

  /** The local attractor `phi * pbest + (1 - phi) * gbest` of one component. */
  function Attractor(phi: real, pbest: real, gbest: real): (p: real)
    ensures p - gbest == phi * (pbest - gbest)
  {
    phi * pbest + (1.0 - phi) * gbest
  }

  /** For `phi` in `[0, 1]` the attractor lies between the personal and the global best. */
  lemma AttractorBetween(phi: real, pbest: real, gbest: real)
    requires 0.0 <= phi <= 1.0
    ensures Min(pbest, gbest) <= Attractor(phi, pbest, gbest) <= Max(pbest, gbest)
  {
    // The attractor is `gbest + phi * (pbest - gbest)`, a step of a fraction of the gap.
    var d := pbest - gbest;
    if d >= 0.0 {
      assert 0.0 <= phi * d <= d;
    } else {
      assert d <= phi * d <= 0.0;
    }
  }

  /**
   * One component of the update `p + sign * L * ln(1 / u)` with
   * `L = alpha * |mbest - x|`, clipped to `[0, dim]`.
   */
  function NewComponent(ln: real -> real, dim: nat, phi: real, u: real, signDraw: real,
                        pbest: real, gbest: real, mbest: real, x: real): (c: real)
    requires u > 0.0
    ensures 0.0 <= c <= dim as real
  {
    var p := Attractor(phi, pbest, gbest);
    var l := Alpha * Abs(mbest - x);
    Clip(p + Sign(signDraw) * l * ln(1.0 / u), 0.0, dim as real)
  }

  /**
   * A particle that sits at the mean best has a zero characteristic length,
   * so it moves to its attractor (clipped), whatever the sign and `u`.
   */
  lemma AtMeanBestMovesToAttractor(ln: real -> real, dim: nat, phi: real, u: real, signDraw: real,
                                   pbest: real, gbest: real, x: real)
    requires u > 0.0
    ensures NewComponent(ln, dim, phi, u, signDraw, pbest, gbest, x, x)
         == Clip(Attractor(phi, pbest, gbest), 0.0, dim as real)
  {
    var l := Alpha * Abs(x - x);
    assert l == 0.0;
    assert Sign(signDraw) * l * ln(1.0 / u) == 0.0;
  }

  /** The whole position update of one particle. */
  function NewPosition(ln: real -> real, dim: nat, draw: ParticleDraw,
                       pbest: seq<real>, gbest: seq<real>, mbest: seq<real>, x: seq<real>): (r: seq<real>)
    requires DrawFits(draw, dim) && |pbest| == dim && |gbest| == dim && |mbest| == dim && |x| == dim
    ensures |r| == dim && InBox(r, dim)
  {
    seq(dim, k requires 0 <= k < dim =>
      NewComponent(ln, dim, draw.phi[k], draw.u[k], draw.signDraw[k], pbest[k], gbest[k], mbest[k], x[k]))
  }

  /** One particle as the swarm holds it: its position, its personal best and that best's fitness. */
  datatype Particle = Particle(x: seq<real>, pbest: seq<real>, pbestFitness: real)

  /** The global best position and its fitness. */
  datatype Best = Best(position: seq<real>, fitness: real)

  /** Everything `optimize` updates: the particles, in order, and the global best. */
  datatype Swarm = Swarm(particles: seq<Particle>, best: Best)

  /** Every vector of the swarm has `dim` components. */
  predicate Shaped(s: Swarm, dim: nat) {
    && |s.best.position| == dim
    && forall i :: 0 <= i < |s.particles| ==> |s.particles[i].x| == dim && |s.particles[i].pbest| == dim
  }

  /** Every particle's draws of one round fit. */
  predicate RoundDrawsFit(roundDraws: seq<ParticleDraw>, dim: nat) {
    forall i :: 0 <= i < |roundDraws| ==> DrawFits(roundDraws[i], dim)
  }

  /** The sum of component `k` of the first `m` personal bests. */
  function ColumnSum(ps: seq<Particle>, k: nat, m: nat): (r: real)
    requires m <= |ps| && forall i :: 0 <= i < m ==> k < |ps[i].pbest|
    ensures (forall i :: 0 <= i < m ==> ps[i].pbest[k] >= 0.0) ==> r >= 0.0
  {
    if m == 0 then 0.0 else ColumnSum(ps, k, m - 1) + ps[m - 1].pbest[k]
  }

  /** A column sum of components in `[0, dim]` lies in `[0, m * dim]`. */
  lemma {:induction false} ColumnSumBounds(ps: seq<Particle>, k: nat, m: nat, dim: nat)
    requires m <= |ps| && forall i :: 0 <= i < m ==> k < |ps[i].pbest|
    requires forall i :: 0 <= i < m ==> 0.0 <= ps[i].pbest[k] <= dim as real
    ensures 0.0 <= ColumnSum(ps, k, m) <= m as real * dim as real
  {
    if m > 0 {
      ColumnSumBounds(ps, k, m - 1, dim);
      assert m as real * dim as real == (m - 1) as real * dim as real + dim as real;
    }
  }

  /** `np.mean(Pbest, axis=0)`: the component-wise mean of the personal bests. */
  function MeanOfBests(ps: seq<Particle>, dim: nat): (m: seq<real>)
    requires |ps| > 0 && forall i :: 0 <= i < |ps| ==> |ps[i].pbest| == dim
    ensures |m| == dim
    ensures forall k :: 0 <= k < dim ==> m[k] * |ps| as real == ColumnSum(ps, k, |ps|)
  {
    seq(dim, k requires 0 <= k < dim => ColumnSum(ps, k, |ps|) / |ps| as real)
  }

  /** A mean of `n` values in `[0, dim]` lies in `[0, dim]`. */
  lemma MeanBounds(sum: real, n: real, dim: real)
    requires n >= 1.0 && 0.0 <= sum <= n * dim
    ensures 0.0 <= sum / n <= dim
  {
    var q := sum / n;
    assert q * n == sum;
    if q > dim {
      assert (q - dim) * n > 0.0;
    }
  }

  /** The mean of personal bests inside the box is inside the box. */
  lemma MeanOfBestsInBox(ps: seq<Particle>, dim: nat)
    requires |ps| > 0 && forall i :: 0 <= i < |ps| ==> |ps[i].pbest| == dim && InBox(ps[i].pbest, dim)
    ensures InBox(MeanOfBests(ps, dim), dim)
  {
    var m := MeanOfBests(ps, dim);
    forall k | 0 <= k < dim ensures 0.0 <= m[k] <= dim as real {
      ColumnSumBounds(ps, k, |ps|, dim);
      MeanBounds(ColumnSum(ps, k, |ps|), |ps| as real, dim as real);
    }
  }

  /**
   * One particle's turn in a round: it moves to `NewPosition` (reading its
   * own personal best and the global best as they stand), is scored by
   * `objective`, and a strict improvement on its personal best replaces
   * that best and then, if it also beats it, the global best.
   */
  function Turn(objective: seq<real> -> real, ln: real -> real, dim: nat, mbest: seq<real>, draw: ParticleDraw,
                p: Particle, g: Best): (r: (Particle, Best))
    requires DrawFits(draw, dim) && |mbest| == dim && |p.x| == dim && |p.pbest| == dim && |g.position| == dim
    ensures r.0.x == NewPosition(ln, dim, draw, p.pbest, g.position, mbest, p.x)
    ensures r.0.pbestFitness == Max(p.pbestFitness, objective(r.0.x))
    ensures r.0.pbest == if objective(r.0.x) > p.pbestFitness then r.0.x else p.pbest
    ensures r.1 == g || r.1 == Best(r.0.x, r.0.pbestFitness)
    ensures g.fitness <= r.1.fitness
    ensures p.pbestFitness <= g.fitness ==> r.1.fitness == Max(g.fitness, objective(r.0.x))
  {
    var x := NewPosition(ln, dim, draw, p.pbest, g.position, mbest, p.x);
    var fit := objective(x);
    if fit > p.pbestFitness then
      (Particle(x, x, fit), if fit > g.fitness then Best(x, fit) else g)
    else
      (Particle(x, p.pbest, p.pbestFitness), g)
  }

  /**
   * The rest of a round from particle `i` on: each particle in order takes
   * its `Turn`, seeing the global best the turns before it left, with
   * `mbest` fixed for the whole round.
   */
  function RoundFrom(objective: seq<real> -> real, ln: real -> real, dim: nat, mbest: seq<real>,
                     roundDraws: seq<ParticleDraw>, s: Swarm, i: nat): (r: Swarm)
    requires i <= |s.particles| == |roundDraws| && |mbest| == dim && Shaped(s, dim) && RoundDrawsFit(roundDraws, dim)
    ensures |r.particles| == |s.particles| && Shaped(r, dim)
    decreases |s.particles| - i
  {
    if i == |s.particles| then s
    else
      var t := Turn(objective, ln, dim, mbest, roundDraws[i], s.particles[i], s.best);
      RoundFrom(objective, ln, dim, mbest, roundDraws, Swarm(s.particles[i := t.0], t.1), i + 1)
  }

  /**
   * The rest of a round leaves the particles before `i` alone and lowers no
   * personal best fitness and not the global best fitness.
   */
  lemma {:induction false} RoundFromMonotone(objective: seq<real> -> real, ln: real -> real, dim: nat, mbest: seq<real>,
                                             roundDraws: seq<ParticleDraw>, s: Swarm, i: nat)
    requires i <= |s.particles| == |roundDraws| && |mbest| == dim && Shaped(s, dim) && RoundDrawsFit(roundDraws, dim)
    ensures var r := RoundFrom(objective, ln, dim, mbest, roundDraws, s, i);
      && (forall j :: 0 <= j < i ==> r.particles[j] == s.particles[j])
      && (forall j :: i <= j < |s.particles| ==> s.particles[j].pbestFitness <= r.particles[j].pbestFitness)
      && s.best.fitness <= r.best.fitness
    decreases |s.particles| - i
  {
    if i < |s.particles| {
      var t := Turn(objective, ln, dim, mbest, roundDraws[i], s.particles[i], s.best);
      RoundFromMonotone(objective, ln, dim, mbest, roundDraws, Swarm(s.particles[i := t.0], t.1), i + 1);
    }
  }

  /**
   * The main loop from round `t` on: each round takes `mbest` from the
   * personal bests the previous round left, then runs every particle's turn.
   */
  function RoundsFrom(objective: seq<real> -> real, ln: real -> real, dim: nat,
                      draws: seq<seq<ParticleDraw>>, s: Swarm, t: nat): (r: Swarm)
    requires t <= |draws| && |s.particles| > 0 && Shaped(s, dim)
    requires forall u :: 0 <= u < |draws| ==> |draws[u]| == |s.particles| && RoundDrawsFit(draws[u], dim)
    ensures |r.particles| == |s.particles| && Shaped(r, dim)
    decreases |draws| - t
  {
    if t == |draws| then s
    else
      var mbest := MeanOfBests(s.particles, dim);
      RoundsFrom(objective, ln, dim, draws, RoundFrom(objective, ln, dim, mbest, draws[t], s, 0), t + 1)
  }

  /** Over the remaining rounds no personal best fitness and not the global best fitness decreases. */
  lemma {:induction false} RoundsFromMonotone(objective: seq<real> -> real, ln: real -> real, dim: nat,
                                              draws: seq<seq<ParticleDraw>>, s: Swarm, t: nat)
    requires t <= |draws| && |s.particles| > 0 && Shaped(s, dim)
    requires forall u :: 0 <= u < |draws| ==> |draws[u]| == |s.particles| && RoundDrawsFit(draws[u], dim)
    ensures var r := RoundsFrom(objective, ln, dim, draws, s, t);
      && (forall j :: 0 <= j < |s.particles| ==> s.particles[j].pbestFitness <= r.particles[j].pbestFitness)
      && s.best.fitness <= r.best.fitness
    decreases |draws| - t
  {
    if t < |draws| {
      var mbest := MeanOfBests(s.particles, dim);
      var next := RoundFrom(objective, ln, dim, mbest, draws[t], s, 0);
      RoundFromMonotone(objective, ln, dim, mbest, draws[t], s, 0);
      RoundsFromMonotone(objective, ln, dim, draws, next, t + 1);
    }
  }

  /**
   * The initial evaluation from particle `i` on: each particle in turn is
   * scored at its position, the score becomes its personal best fitness,
   * and a particle strictly better than the global best so far becomes the
   * global best.
   */
  function ScoreFrom(objective: seq<real> -> real, s: Swarm, i: nat): (r: Swarm)
    requires i <= |s.particles|
    ensures |r.particles| == |s.particles|
    decreases |s.particles| - i
  {
    if i == |s.particles| then s
    else
      var p := s.particles[i];
      var fit := objective(p.x);
      var best := if fit > s.best.fitness then Best(p.x, fit) else s.best;
      ScoreFrom(objective, Swarm(s.particles[i := Particle(p.x, p.pbest, fit)], best), i + 1)
  }
  /**
   * What the initial evaluation does: the particles before `i` are left
   * alone; every later one keeps its position and personal best position
   * and gets the fitness of its position as personal best fitness, which is
   * then at most the global best fitness; the global best fitness never
   * decreases, and the global best is the old one or one of the scored
   * positions with its fitness.
   */
  lemma {:induction false} ScoreFromSpec(objective: seq<real> -> real, s: Swarm, i: nat)
    requires i <= |s.particles|
    ensures var r := ScoreFrom(objective, s, i);
      && (forall j :: 0 <= j < i ==> r.particles[j] == s.particles[j])
      && (forall j :: i <= j < |s.particles| ==>
            r.particles[j] == Particle(s.particles[j].x, s.particles[j].pbest, objective(s.particles[j].x)))
      && (forall j :: i <= j < |s.particles| ==> r.particles[j].pbestFitness <= r.best.fitness)
      && s.best.fitness <= r.best.fitness
      && (r.best == s.best || exists j :: i <= j < |s.particles| && r.best == Best(s.particles[j].x, objective(s.particles[j].x)))
    decreases |s.particles| - i
  {
    if i < |s.particles| {
      var p := s.particles[i];
      var fit := objective(p.x);
      var best := if fit > s.best.fitness then Best(p.x, fit) else s.best;
      ScoreFromSpec(objective, Swarm(s.particles[i := Particle(p.x, p.pbest, fit)], best), i + 1);
    }
  }

  /** The initial evaluation keeps every vector's length. */
  lemma ScoreFromShaped(objective: seq<real> -> real, s: Swarm, i: nat, dim: nat)
    requires i <= |s.particles| && Shaped(s, dim)
    ensures Shaped(ScoreFrom(objective, s, i), dim)
  {
    ScoreFromSpec(objective, s, i);
  }

  /**
   * The whole of `optimize` on values: the initial evaluation, then every
   * round of `draws`.
   */
  function Run(objective: seq<real> -> real, ln: real -> real, dim: nat, draws: seq<seq<ParticleDraw>>, s: Swarm): (r: Swarm)
    requires |s.particles| > 0 && Shaped(s, dim)
    requires forall u :: 0 <= u < |draws| ==> |draws[u]| == |s.particles| && RoundDrawsFit(draws[u], dim)
    ensures |r.particles| == |s.particles| && Shaped(r, dim)
  {
    ScoreFromShaped(objective, s, 0, dim);
    RoundsFrom(objective, ln, dim, draws, ScoreFrom(objective, s, 0), 0)
  }

  /**
   * Over a whole run, no personal best fitness falls below the fitness of
   * the initial position, and the global best fitness is at least the old
   * one and every initial position's fitness.
   */
  lemma RunImproves(objective: seq<real> -> real, ln: real -> real, dim: nat, draws: seq<seq<ParticleDraw>>, s: Swarm)
    requires |s.particles| > 0 && Shaped(s, dim)
    requires forall u :: 0 <= u < |draws| ==> |draws[u]| == |s.particles| && RoundDrawsFit(draws[u], dim)
    ensures var r := Run(objective, ln, dim, draws, s);
      && (forall j :: 0 <= j < |s.particles| ==> objective(s.particles[j].x) <= r.particles[j].pbestFitness)
      && (forall j :: 0 <= j < |s.particles| ==> objective(s.particles[j].x) <= r.best.fitness)
      && s.best.fitness <= r.best.fitness
  {
    ScoreFromSpec(objective, s, 0);
    ScoreFromShaped(objective, s, 0, dim);
    var scored := ScoreFrom(objective, s, 0);
    RoundsFromMonotone(objective, ln, dim, draws, scored, 0);
  }


  /** Row `i` of a matrix, as numpy's `a[i]` reads it. */
  function Row(a: array2<real>, i: nat): (r: seq<real>)
    reads a
    requires i < a.Length0
    ensures |r| == a.Length1
    ensures forall k :: 0 <= k < a.Length1 ==> r[k] == a[i, k]
  {
    seq(a.Length1, k requires 0 <= k < a.Length1 reads a => a[i, k])
  }

  /** `a[i].copy()`: a fresh array holding row `i`. */
  method CopyRow(a: array2<real>, i: nat) returns (r: array<real>)
    requires i < a.Length0
    ensures fresh(r) && r[..] == Row(a, i)
  {
    r := new real[a.Length1](k requires 0 <= k < a.Length1 reads a => a[i, k]);
  }

  /** A fresh matrix holding `rows`. */
  method Matrix(rows: seq<seq<real>>, n: nat) returns (a: array2<real>)
    requires forall i :: 0 <= i < |rows| ==> |rows[i]| == n
    ensures fresh(a) && a.Length0 == |rows| && a.Length1 == n
    ensures forall i :: 0 <= i < |rows| ==> Row(a, i) == rows[i]
  {
    a := new real[|rows|, n]((i, k) requires 0 <= i < |rows| && 0 <= k < n => rows[i][k]);
  }

  /** `interference_aware_fitness(get_permutation(v), testCases)` as a function of the position `v`. */
  method MakeObjective(cos: real -> real, testCases: seq<TcaRecord>) returns (f: seq<real> -> real)
    ensures forall v {:trigger Fitness(cos, ArgSort(v), testCases)} :: |v| == |testCases| ==>
      f(v) == Fitness(cos, ArgSort(v), testCases)
  {
    f := v => if |v| == |testCases| then Fitness(cos, ArgSort(v), testCases) else 0.0;
  }

  class Optimizer {
    const testCases: seq<TcaRecord>
    const dim: nat
    const popSize: nat
    const cos: real -> real
    const ln: real -> real
    /**
     * The objective the swarm maximises; `Valid` ties it to the fitness of
     * the ordering a position encodes.
     */
    const objective: seq<real> -> real

    /** Particle positions, one row per particle. */
    var X: array2<real>
    /** Personal best positions and their fitness. */
    var Pbest: array2<real>
    var PbestFitness: array<real>
    /** Global best position and its fitness. */
    var Gbest: array<real>
    var GbestFitness: real
    /** The particle whose personal best the global best copies. */
    ghost var bestParticle: nat

    /** Shapes, distinct buffers, and every position inside `[0, dim]`. */
    ghost predicate Valid()
      reads this, X, Pbest, PbestFitness, Gbest
    {
      && dim == |testCases| && popSize == PopulationSize
      && X.Length0 == popSize && X.Length1 == dim
      && Pbest.Length0 == popSize && Pbest.Length1 == dim
      && PbestFitness.Length == popSize && Gbest.Length == dim
      && X != Pbest && PbestFitness != Gbest
      && (forall i, k :: 0 <= i < popSize && 0 <= k < dim ==> 0.0 <= X[i, k] <= dim as real)
      && (forall i, k :: 0 <= i < popSize && 0 <= k < dim ==> 0.0 <= Pbest[i, k] <= dim as real)
      && InBox(Gbest[..], dim)
      && ScoresFitness()
    }

    /** `objective` is `interference_aware_fitness` after `get_permutation`. */
    ghost predicate ScoresFitness() {
      forall v {:trigger Fitness(cos, ArgSort(v), testCases)} :: |v| == |testCases| ==>
        objective(v) == Fitness(cos, ArgSort(v), testCases)
    }

    /** The state the constructor leaves. */
    ghost predicate Pristine()
      reads this, X, Pbest, PbestFitness, Gbest
      requires Valid()
    {
      && (forall i :: 0 <= i < popSize ==> Row(Pbest, i) == Row(X, i))
      && (forall i :: 0 <= i < popSize ==> PbestFitness[i] == 0.0)
      && (forall k :: 0 <= k < dim ==> Gbest[k] == 0.0)
      && GbestFitness == -1.0
    }

    /**
     * Best tracking: every stored fitness is the fitness of its stored
     * position, the global best fitness is the largest personal best
     * fitness, and the global best copies the personal best it came from.
     */
    ghost predicate Tracking()
      reads this, Pbest, PbestFitness, Gbest
    {
      && Pbest.Length0 == popSize && PbestFitness.Length == popSize && Pbest.Length1 == Gbest.Length
      && bestParticle < popSize
      && Row(Pbest, bestParticle) == Gbest[..]
      && PbestFitness[bestParticle] == GbestFitness
      && (forall i :: 0 <= i < popSize ==> PbestFitness[i] <= GbestFitness)
      && (forall i :: 0 <= i < popSize ==> PbestFitness[i] == objective(Row(Pbest, i)))
    }

    /** Particle `j` as the arrays hold it. */
    ghost function ParticleAt(j: nat): Particle
      reads this, X, Pbest, PbestFitness
      requires j < X.Length0 && j < Pbest.Length0 && j < PbestFitness.Length
    {
      Particle(Row(X, j), Row(Pbest, j), PbestFitness[j])
    }

    /** The whole swarm the arrays and fields hold. */
    ghost function State(): (s: Swarm)
      reads this, X, Pbest, PbestFitness, Gbest
      requires Valid()
      ensures |s.particles| == popSize && Shaped(s, dim)
      ensures forall j :: 0 <= j < popSize ==> s.particles[j] == ParticleAt(j)
      ensures s.best == Best(Gbest[..], GbestFitness)
    {
      Swarm(seq(popSize, j requires 0 <= j < X.Length0 && j < Pbest.Length0 && j < PbestFitness.Length
                             reads this, X, Pbest, PbestFitness => ParticleAt(j)),
            Best(Gbest[..], GbestFitness))
    }

    /**
     * `QPSO.__init__`: positions from the uniform draw `init` over `[0, dim]`,
     * personal bests a copy of them with fitness 0, global best all zeros
     * with fitness -1.
     */
    constructor (testCases: seq<TcaRecord>, cos: real -> real, ln: real -> real, init: seq<seq<real>>)
      requires |init| == PopulationSize
      requires forall i :: 0 <= i < |init| ==> |init[i]| == |testCases| && InBox(init[i], |testCases|)
      ensures Valid() && Pristine()
      ensures this.testCases == testCases && this.cos == cos && this.ln == ln
      ensures forall i :: 0 <= i < PopulationSize ==> Row(X, i) == init[i]
      ensures fresh(X) && fresh(Pbest) && fresh(PbestFitness) && fresh(Gbest)
    {
      this.testCases := testCases;
      this.cos := cos;
      this.ln := ln;
      var f := MakeObjective(cos, testCases);
      objective := f;
      var n := |testCases|;
      dim := n;
      popSize := PopulationSize;
      var x := Matrix(init, n);
      var pbest := Matrix(init, n);
      X := x;
      Pbest := pbest;
      PbestFitness := new real[PopulationSize](_ => 0.0);
      Gbest := new real[n](_ => 0.0);
      GbestFitness := -1.0;
      bestParticle := 0;
      new;
      forall i, k | 0 <= i < popSize && 0 <= k < dim
        ensures 0.0 <= X[i, k] <= dim as real && 0.0 <= Pbest[i, k] <= dim as real
      {
        assert X[i, k] == Row(X, i)[k] && Pbest[i, k] == Row(Pbest, i)[k];
      }
    }

    /** Encode a position to an ordering and score it. */
    method Evaluate(position: seq<real>) returns (fit: real)
      requires Valid() && |position| == dim
      ensures fit == objective(position) && fit >= 0.0
    {
      var perm := ArgSort(position);
      fit := InterferenceAwareFitness(cos, perm, testCases);
    }

    /**
     * The initial evaluation at the top of `optimize`: every particle's
     * fitness becomes its personal best fitness, and a particle strictly
     * better than the global best so far becomes the global best (so the
     * first of equally good particles wins).
     */
    method EvaluateInitial()
      requires Valid()
      modifies this, PbestFitness
      ensures Valid()
      ensures X == old(X) && Pbest == old(Pbest) && PbestFitness == old(PbestFitness)
      ensures unchanged(X, Pbest)
      ensures forall i :: 0 <= i < popSize ==> PbestFitness[i] == objective(Row(X, i))
      ensures forall i :: 0 <= i < popSize ==> 0.0 <= PbestFitness[i] <= GbestFitness
      ensures old(GbestFitness) <= GbestFitness
      ensures GbestFitness == old(GbestFitness) ==> Gbest == old(Gbest)
      ensures GbestFitness != old(GbestFitness) ==>
        && bestParticle < popSize && fresh(Gbest)
        && PbestFitness[bestParticle] == GbestFitness && Gbest[..] == Row(X, bestParticle)
        && forall i :: 0 <= i < bestParticle ==> PbestFitness[i] < GbestFitness
      ensures old(Pristine()) ==> Tracking()
      ensures State() == ScoreFrom(objective, old(State()), 0)
    {
      var i := 0;
      while i < popSize
        invariant 0 <= i <= popSize
        invariant Valid()
        invariant X == old(X) && Pbest == old(Pbest) && PbestFitness == old(PbestFitness)
        invariant ScoreFrom(objective, State(), i) == ScoreFrom(objective, old(State()), 0)
        invariant forall j :: 0 <= j < i ==> PbestFitness[j] == objective(Row(X, j))
        invariant forall j :: 0 <= j < i ==> 0.0 <= PbestFitness[j] <= GbestFitness
        invariant old(GbestFitness) <= GbestFitness
        invariant GbestFitness == old(GbestFitness) ==> Gbest == old(Gbest)
        invariant GbestFitness != old(GbestFitness) ==>
          && bestParticle < i && fresh(Gbest)
          && PbestFitness[bestParticle] == GbestFitness && Gbest[..] == Row(X, bestParticle)
          && forall j :: 0 <= j < bestParticle ==> PbestFitness[j] < GbestFitness
        invariant old(Pristine()) && i > 0 ==> GbestFitness != old(GbestFitness)
      {
        ScoreInitial(i);
        i := i + 1;
      }
    }

    /** One particle of the initial evaluation. */
    method ScoreInitial(i: nat)
      requires Valid() && i < popSize
      modifies this, PbestFitness
      ensures Valid()
      ensures X == old(X) && Pbest == old(Pbest) && PbestFitness == old(PbestFitness) && unchanged(X, Pbest)
      ensures PbestFitness[i] == objective(Row(X, i)) && PbestFitness[i] >= 0.0
      ensures forall j :: 0 <= j < popSize && j != i ==> PbestFitness[j] == old(PbestFitness[j])
      ensures if PbestFitness[i] > old(GbestFitness)
        then GbestFitness == PbestFitness[i] && Gbest[..] == Row(X, i) && bestParticle == i && fresh(Gbest)
        else GbestFitness == old(GbestFitness) && Gbest == old(Gbest) && bestParticle == old(bestParticle)
      ensures ScoreFrom(objective, State(), i + 1) == ScoreFrom(objective, old(State()), i)
    {
      ghost var before := State();
      var fit := Evaluate(Row(X, i));
      PbestFitness[i] := fit;
      if fit > GbestFitness {
        GbestFitness := fit;
        Gbest := CopyRow(X, i);
        bestParticle := i;
      }
      ghost var p := before.particles[i];
      assert State() == Swarm(before.particles[i := Particle(p.x, p.pbest, fit)],
                              if fit > before.best.fitness then Best(p.x, fit) else before.best);
    }

    /** `np.mean(self.Pbest, axis=0)`: the column means of the personal bests. */
    method MeanBest() returns (mbest: seq<real>)
      requires Valid()
      ensures mbest == MeanOfBests(State().particles, dim)
      ensures InBox(mbest, dim)
    {
      ghost var ps := State().particles;
      mbest := [];
      var k := 0;
      while k < dim
        invariant 0 <= k <= dim && |mbest| == k
        invariant forall c :: 0 <= c < k ==> mbest[c] == ColumnSum(ps, c, popSize) / popSize as real
      {
        var sum := 0.0;
        var i := 0;
        while i < popSize
          invariant 0 <= i <= popSize && sum == ColumnSum(ps, k, i)
        {
          assert Pbest[i, k] == Row(Pbest, i)[k] == ps[i].pbest[k];
          sum := sum + Pbest[i, k];
          i := i + 1;
        }
        mbest := mbest + [sum / popSize as real];
        k := k + 1;
      }
      forall i | 0 <= i < popSize ensures InBox(ps[i].pbest, dim) {
        assert forall c :: 0 <= c < dim ==> ps[i].pbest[c] == Pbest[i, c];
      }
      MeanOfBestsInBox(ps, dim);
    }

    /**
     * The position update of particle `i` inside the main loop: attractor,
     * characteristic length, signed logarithmic step, then clipping to
     * `[0, dim]`, reading the personal and the global best as they are now.
     */
    method Move(i: nat, mbest: seq<real>, draw: ParticleDraw)
      requires Valid() && i < popSize && |mbest| == dim && DrawFits(draw, dim)
      modifies X
      ensures Valid()
      ensures Row(X, i) == NewPosition(ln, dim, draw, Row(Pbest, i), Gbest[..], mbest, old(Row(X, i)))
      ensures forall j :: 0 <= j < popSize && j != i ==> Row(X, j) == old(Row(X, j))
    {
      var k := 0;
      while k < dim
        invariant 0 <= k <= dim
        invariant Valid()
        invariant forall c :: 0 <= c < k ==>
          X[i, c] == NewComponent(ln, dim, draw.phi[c], draw.u[c], draw.signDraw[c], Pbest[i, c], Gbest[c], mbest[c], old(X[i, c]))
        invariant forall j, c :: 0 <= j < popSize && 0 <= c < dim && (j != i || k <= c) ==> X[j, c] == old(X[j, c])
      {
        X[i, k] := NewComponent(ln, dim, draw.phi[k], draw.u[k], draw.signDraw[k], Pbest[i, k], Gbest[k], mbest[k], X[i, k]);
        k := k + 1;
      }
      forall j | 0 <= j < popSize && j != i ensures Row(X, j) == old(Row(X, j)) {
        assert forall c :: 0 <= c < dim ==> Row(X, j)[c] == old(Row(X, j))[c];
      }
    }

    /** `self.Pbest[i] = self.X[i].copy()`: row `i` of the personal bests becomes the position. */
    method SetPersonalBest(i: nat)
      requires Valid() && i < popSize
      modifies Pbest
      ensures Valid()
      ensures Row(Pbest, i) == Row(X, i)
      ensures forall j :: 0 <= j < popSize && j != i ==> Row(Pbest, j) == old(Row(Pbest, j))
    {
      var k := 0;
      while k < dim
        invariant 0 <= k <= dim
        invariant Valid()
        invariant forall c :: 0 <= c < k ==> Pbest[i, c] == X[i, c]
        invariant forall j, c :: 0 <= j < popSize && 0 <= c < dim && (j != i || k <= c) ==> Pbest[j, c] == old(Pbest[j, c])
      {
        Pbest[i, k] := X[i, k];
        k := k + 1;
      }
      assert forall c :: 0 <= c < dim ==> Row(Pbest, i)[c] == Row(X, i)[c];
      forall j | 0 <= j < popSize && j != i ensures Row(Pbest, j) == old(Row(Pbest, j)) {
        assert forall c :: 0 <= c < dim ==> Row(Pbest, j)[c] == old(Row(Pbest, j))[c];
      }
    }

    /**
     * The best update after evaluating particle `i` with fitness `fit`: a
     * strict improvement on its personal best replaces that best, and only
     * then may a strict improvement on the global best replace it too.
     */
    method UpdateBests(i: nat, fit: real)
      requires Valid() && i < popSize
      modifies this, Pbest, PbestFitness
      ensures Valid()
      ensures X == old(X) && Pbest == old(Pbest) && PbestFitness == old(PbestFitness) && unchanged(X)
      ensures fit > old(PbestFitness[i]) ==> PbestFitness[i] == fit && Row(Pbest, i) == Row(X, i)
      ensures fit <= old(PbestFitness[i]) ==> PbestFitness[i] == old(PbestFitness[i]) && Row(Pbest, i) == old(Row(Pbest, i))
      ensures forall j :: 0 <= j < popSize && j != i ==>
        PbestFitness[j] == old(PbestFitness[j]) && Row(Pbest, j) == old(Row(Pbest, j))
      ensures if fit > old(PbestFitness[i]) && fit > old(GbestFitness)
        then GbestFitness == fit && Gbest[..] == Row(X, i) && bestParticle == i && fresh(Gbest)
        else GbestFitness == old(GbestFitness) && Gbest == old(Gbest) && bestParticle == old(bestParticle)
      ensures old(Tracking()) && fit == objective(Row(X, i)) ==> Tracking()
    {
      if fit > PbestFitness[i] {
        PbestFitness[i] := fit;
        SetPersonalBest(i);
        if fit > GbestFitness {
          GbestFitness := fit;
          Gbest := CopyRow(X, i);
          bestParticle := i;
        }
      }
    }

    /**
     * Particle `i`'s turn inside the main loop: move, evaluate, update the
     * bests. The particle and the global best become exactly `Turn` of what
     * they were; no other particle changes.
     */
    method Step(i: nat, mbest: seq<real>, draw: ParticleDraw)
      requires Valid() && i < popSize && |mbest| == dim && DrawFits(draw, dim)
      modifies this, X, Pbest, PbestFitness
      ensures Valid()
      ensures X == old(X) && Pbest == old(Pbest) && PbestFitness == old(PbestFitness)
      ensures (ParticleAt(i), Best(Gbest[..], GbestFitness))
           == Turn(objective, ln, dim, mbest, draw, old(ParticleAt(i)), old(Best(Gbest[..], GbestFitness)))
      ensures forall j :: 0 <= j < popSize && j != i ==> ParticleAt(j) == old(ParticleAt(j))
      ensures old(Tracking()) ==> Tracking()
    {
      Move(i, mbest, draw);
      var fit := Evaluate(Row(X, i));
      UpdateBests(i, fit);
    }

    /**
     * `optimize`: the initial evaluation, then `MaxIterations` rounds in
     * which every particle in turn moves, is evaluated and updates the
     * bests; the result is the ordering the global best encodes.
     * `draws[t][i]` are the draws of particle `i` in round `t`.
     */
    method Optimize(draws: seq<seq<ParticleDraw>>) returns (order: seq<nat>)
      requires Valid()
      requires |draws| == MaxIterations
      requires forall t :: 0 <= t < |draws| ==> |draws[t]| == PopulationSize && RoundDrawsFit(draws[t], |testCases|)
      modifies this, X, Pbest, PbestFitness
      ensures Valid()
      ensures X == old(X) && Pbest == old(Pbest) && PbestFitness == old(PbestFitness)
      ensures State() == Run(objective, ln, dim, draws, old(State()))
      ensures old(GbestFitness) <= GbestFitness
      ensures order == ArgSort(Gbest[..]) && IsIndexPermutation(order, |testCases|)
      ensures old(Pristine()) ==> Tracking()
      ensures old(Pristine()) ==> forall i :: 0 <= i < popSize ==> old(PbestFitness[i]) <= PbestFitness[i]
    {
      EvaluateInitial();
      MainLoop(draws);
      order := ArgSort(Gbest[..]);
    }

    /**
     * The `MaxIterations` rounds of `optimize`: each takes `mbest` from the
     * personal bests as they stand and runs one `Round`; the swarm becomes
     * exactly `RoundsFrom` of what it was.
     */
    method MainLoop(draws: seq<seq<ParticleDraw>>)
      requires Valid()
      requires |draws| == MaxIterations
      requires forall t :: 0 <= t < |draws| ==> |draws[t]| == PopulationSize && RoundDrawsFit(draws[t], |testCases|)
      modifies this, X, Pbest, PbestFitness
      ensures Valid()
      ensures X == old(X) && Pbest == old(Pbest) && PbestFitness == old(PbestFitness)
      ensures State() == RoundsFrom(objective, ln, dim, draws, old(State()), 0)
      ensures old(GbestFitness) <= GbestFitness
      ensures forall j :: 0 <= j < popSize ==> old(PbestFitness[j]) <= PbestFitness[j]
      ensures old(Tracking()) ==> Tracking()
    {
      ghost var target := RoundsFrom(objective, ln, dim, draws, State(), 0);
      var t := 0;
      while t < MaxIterations
        invariant 0 <= t <= MaxIterations
        invariant Valid()
        invariant X == old(X) && Pbest == old(Pbest) && PbestFitness == old(PbestFitness)
        invariant RoundsFrom(objective, ln, dim, draws, State(), t) == target
        invariant old(Tracking()) ==> Tracking()
      {
        Iterate(draws, t);
        t := t + 1;
      }
      RoundsFromMonotone(objective, ln, dim, draws, old(State()), 0);
      forall j | 0 <= j < popSize ensures old(PbestFitness[j]) <= PbestFitness[j] {
        assert old(State()).particles[j].pbestFitness == old(PbestFitness[j]);
        assert State().particles[j].pbestFitness == PbestFitness[j];
      }
    }

    /** Round `t` of the main loop: `mbest` from the personal bests, then the `Round`. */
    method Iterate(draws: seq<seq<ParticleDraw>>, t: nat)
      requires Valid() && t < |draws|
      requires forall u :: 0 <= u < |draws| ==> |draws[u]| == PopulationSize && RoundDrawsFit(draws[u], |testCases|)
      modifies this, X, Pbest, PbestFitness
      ensures Valid()
      ensures X == old(X) && Pbest == old(Pbest) && PbestFitness == old(PbestFitness)
      ensures State() == RoundFrom(objective, ln, dim, MeanOfBests(old(State()).particles, dim), draws[t], old(State()), 0)
      ensures RoundsFrom(objective, ln, dim, draws, State(), t + 1) == RoundsFrom(objective, ln, dim, draws, old(State()), t)
      ensures old(Tracking()) ==> Tracking()
    {
      var mbest := MeanBest();
      Round(mbest, draws[t]);
    }

    /**
     * One round of the main loop: every particle in turn takes its `Turn`,
     * seeing the bests the particles before it left; the swarm becomes
     * exactly `RoundFrom` of what it was.
     */
    method Round(mbest: seq<real>, roundDraws: seq<ParticleDraw>)
      requires Valid() && |mbest| == dim && |roundDraws| == popSize && RoundDrawsFit(roundDraws, dim)
      modifies this, X, Pbest, PbestFitness
      ensures Valid()
      ensures X == old(X) && Pbest == old(Pbest) && PbestFitness == old(PbestFitness)
      ensures State() == RoundFrom(objective, ln, dim, mbest, roundDraws, old(State()), 0)
      ensures old(GbestFitness) <= GbestFitness
      ensures forall j :: 0 <= j < popSize ==> old(PbestFitness[j]) <= PbestFitness[j]
      ensures old(Tracking()) ==> Tracking()
    {
      var i := 0;
      while i < popSize
        invariant 0 <= i <= popSize
        invariant Valid()
        invariant X == old(X) && Pbest == old(Pbest) && PbestFitness == old(PbestFitness)
        invariant RoundFrom(objective, ln, dim, mbest, roundDraws, State(), i)
               == RoundFrom(objective, ln, dim, mbest, roundDraws, old(State()), 0)
        invariant old(Tracking()) ==> Tracking()
      {
        ghost var before := State();
        Step(i, mbest, roundDraws[i]);
        ghost var t := Turn(objective, ln, dim, mbest, roundDraws[i], before.particles[i], before.best);
        assert State() == Swarm(before.particles[i := t.0], t.1);
        i := i + 1;
      }
      RoundFromMonotone(objective, ln, dim, mbest, roundDraws, old(State()), 0);
      forall j | 0 <= j < popSize ensures old(PbestFitness[j]) <= PbestFitness[j] {
        assert old(State()).particles[j].pbestFitness == old(PbestFitness[j]);
        assert State().particles[j].pbestFitness == PbestFitness[j];
      }
    }

    /**
     * Under best tracking the ordering `Optimize` returns scores exactly the
     * global best fitness, and no personal best scores more.
     */
    lemma ReportedOrderIsBest()
      requires Valid() && Tracking()
      ensures Fitness(cos, ArgSort(Gbest[..]), testCases) == GbestFitness
      ensures forall i :: 0 <= i < popSize ==> Fitness(cos, ArgSort(Row(Pbest, i)), testCases) <= GbestFitness
    {
    }
  }
}
