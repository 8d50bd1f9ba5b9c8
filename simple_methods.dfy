/** The three concrete strategies: weighted selection, uniform crossover and
    per-gene mutation. Each consumes draws from the shared generator. */
module SimpleMethods {
  import opened Errors
  import opened Random
  import opened Chromosomes

  function Min(x: nat, y: nat): nat
  {
    if x <= y then x else y
  }

  function Abs(x: real): real
  {
    if x < 0.0 then -x else x
  }

  /** For u in [0, 1), |u * x| stays within |x|. */
  lemma UnitScaleBound(u: real, x: real)
    requires 0.0 <= u < 1.0
    ensures Abs(u * x) <= Abs(x)
  {
  }

  // ---------------------------------------------------------------------------
  // Selection

  /** The population index a selection draw u lands on among n individuals. The
      program weights the choice by fitness; only the index range is modelled. */
  function PickIndex(u: real, n: nat): (k: nat)
    requires 0.0 <= u < 1.0 && n > 0
    ensures k < n
  {
    var x := u * n as real;
    assert 0.0 <= x < n as real by {
      var v := 1.0 - u;
      assert 0.0 < v * n as real;
      assert x + v * n as real == n as real;
    }
    x.Floor
  }

  /** `SimpleSelection::select`: one member of the population, by index; an empty
      population fails before any draw is taken. */
  method Select<I>(rng: Rng, population: seq<I>) returns (r: Result<nat>)
    modifies rng
    ensures r.Err? <==> |population| == 0
    ensures r.Err? ==> r.error == EmptyPopulation && rng.pos == old(rng.pos)
    ensures r.Ok? ==> r.value < |population| && rng.pos == old(rng.pos) + 1
    ensures r.Ok? ==> r.value == PickIndex(rng.draws(old(rng.pos)), |population|)
  {
    if |population| == 0 {
      return Err(EmptyPopulation);
    }
    var u := rng.NextUnit();
    r := Ok(PickIndex(u, |population|));
  }

  // ---------------------------------------------------------------------------
  // Crossover

  /** Uniform crossover of a and b with coins read from s at pos: the zip of the
      two stops at the shorter one, and each position takes a's gene when its coin
      `gen_bool(0.5)` comes up true, b's otherwise. */
  function CrossoverGenes(a: seq<real>, b: seq<real>, s: Stream, pos: nat): (r: Drawn<seq<real>>)
    ensures |r.value| == Min(|a|, |b|)
    ensures r.next == pos + Min(|a|, |b|)
    decreases |a|
  {
    var n := Min(|a|, |b|);
    if n == 0 then Drawn([], pos)
    else
      var done := CrossoverGenes(a[..n - 1], b[..n - 1], s, pos);
      var gene := if Bernoulli(s(done.next), 0.5) then a[n - 1] else b[n - 1];
      Drawn(done.value + [gene], done.next + 1)
  }

  /** Position i of the child is decided by draw pos + i alone. */
  lemma {:induction false} CrossoverGenesAt(a: seq<real>, b: seq<real>, s: Stream, pos: nat, i: nat)
    requires i < Min(|a|, |b|)
    ensures CrossoverGenes(a, b, s, pos).value[i] == if s(pos + i) < 0.5 then a[i] else b[i]
    decreases |a|
  {
    var n := Min(|a|, |b|);
    if i < n - 1 {
      CrossoverGenesAt(a[..n - 1], b[..n - 1], s, pos, i);
    }
  }

  /** `SimpleCrossover::crossover`: a new chromosome; a and b are only read. */
  method Crossover(rng: Rng, a: Chromosome, b: Chromosome) returns (child: Chromosome)
    modifies rng
    ensures var d := CrossoverGenes(a.genes, b.genes, rng.draws, old(rng.pos));
      child.genes == d.value && rng.pos == d.next
  {
    var n := Min(|a.genes|, |b.genes|);
    var genes := [];
    for i := 0 to n
      invariant CrossoverGenes(a.genes[..i], b.genes[..i], rng.draws, old(rng.pos)) == Drawn(genes, rng.pos)
    {
      var heads := rng.NextBool(0.5);
      genes := genes + [if heads then a.genes[i] else b.genes[i]];
      assert a.genes[..i + 1][..i] == a.genes[..i];
      assert b.genes[..i + 1][..i] == b.genes[..i];
    }
    if n > 0 {
      assert a.genes[..n][..n - 1] == a.genes[..n - 1];
      assert b.genes[..n][..n - 1] == b.genes[..n - 1];
    }
    child := Chromosome(genes);
  }

  // ---------------------------------------------------------------------------
  // Mutation

  /** `SimpleMutation`: the chance that a gene mutates and the scale of a change. */
  datatype Mutation = Mutation(chance: real, coeff: real) {
    predicate Valid()
    {
      0.0 <= chance <= 1.0
    }
  }

  /** `SimpleMutation::new`: refuses a chance outside [0, 1]; coeff is taken as given. */
  function NewMutation(chance: real, coeff: real): (r: Result<Mutation>)
    ensures r.Ok? <==> 0.0 <= chance <= 1.0
    ensures r.Ok? ==> r.value.Valid() && r.value.chance == chance && r.value.coeff == coeff
    ensures r.Err? ==> r.error == ChanceOutOfRange
  {
    if 0.0 <= chance <= 1.0 then Ok(Mutation(chance, coeff)) else Err(ChanceOutOfRange)
  }

  /** One gene g mutated from draw pos on: a sign coin (true means -1), then the
      mutation trial, then, only when the trial succeeds, the magnitude draw. */
  function MutateGene(m: Mutation, g: real, s: Stream, pos: nat): (r: Drawn<real>)
    ensures r.next == pos + 2 || r.next == pos + 3
    ensures r.next == pos + 2 ==> r.value == g
  {
    var sign := if Bernoulli(s(pos), 0.5) then -1.0 else 1.0;
    if Bernoulli(s(pos + 1), m.chance) then Drawn(g + sign * m.coeff * s(pos + 2), pos + 3)
    else Drawn(g, pos + 2)
  }

  /** A gene takes two draws, or three when its trial succeeds; it changes only
      then, by coeff times a draw in [0, 1) in either direction, so by at most |coeff|. */
  lemma MutateGeneEffect(m: Mutation, g: real, s: Stream, pos: nat)
    ensures var r := MutateGene(m, g, s, pos);
      && (r.next == pos + 2 <==> !Bernoulli(s(pos + 1), m.chance))
      && (r.next == pos + 2 || r.next == pos + 3)
      && (r.next == pos + 2 ==> r.value == g)
      && (r.next == pos + 3 ==> r.value == g + m.coeff * s(pos + 2) || r.value == g - m.coeff * s(pos + 2))
      && Abs(r.value - g) <= Abs(m.coeff)
  {
    var u := s(pos + 2);
    UnitScaleBound(u, m.coeff);
    assert Abs(-1.0 * m.coeff * u) == Abs(u * m.coeff);
    assert Abs(1.0 * m.coeff * u) == Abs(u * m.coeff);
  }

  /** The sign coin decides the direction: for a non-negative coeff, a gene that
      mutates after a true coin moves down, and after a false coin moves up. */
  lemma MutateGeneDirection(m: Mutation, g: real, s: Stream, pos: nat)
    requires m.coeff >= 0.0 && Bernoulli(s(pos + 1), m.chance)
    ensures Bernoulli(s(pos), 0.5) ==> MutateGene(m, g, s, pos).value <= g
    ensures !Bernoulli(s(pos), 0.5) ==> MutateGene(m, g, s, pos).value >= g
  {
    var u := s(pos + 2);
    assert 0.0 <= m.coeff * u;
  }

  /** The genes after `SimpleMutation::mutate`, front to back, from draw pos on. */
  function MutateGenes(m: Mutation, genes: seq<real>, s: Stream, pos: nat): (r: Drawn<seq<real>>)
    ensures |r.value| == |genes|
    decreases |genes|
  {
    if genes == [] then Drawn([], pos)
    else
      var done := MutateGenes(m, genes[..|genes| - 1], s, pos);
      var last := MutateGene(m, genes[|genes| - 1], s, done.next);
      Drawn(done.value + [last.value], last.next)
  }

  /** Every gene takes two or three draws. */
  lemma {:induction false} MutateGenesDraws(m: Mutation, genes: seq<real>, s: Stream, pos: nat)
    ensures var r := MutateGenes(m, genes, s, pos);
      pos + 2 * |genes| <= r.next <= pos + 3 * |genes|
    decreases |genes|
  {
    if genes != [] {
      var n := |genes|;
      MutateGenesDraws(m, genes[..n - 1], s, pos);
      MutateGeneEffect(m, genes[n - 1], s, MutateGenes(m, genes[..n - 1], s, pos).next);
    }
  }

  /** Gene i is mutated on its own, with the draws right after those of genes[..i]. */
  lemma {:induction false} MutateGenesAt(m: Mutation, genes: seq<real>, s: Stream, pos: nat, i: nat)
    requires i < |genes|
    ensures MutateGenes(m, genes, s, pos).value[i]
         == MutateGene(m, genes[i], s, MutateGenes(m, genes[..i], s, pos).next).value
    decreases |genes|
  {
    var n := |genes|;
    if i < n - 1 {
      MutateGenesAt(m, genes[..n - 1], s, pos, i);
      assert genes[..n - 1][..i] == genes[..i];
    } else {
      assert genes[..i] == genes[..n - 1];
    }
  }

  /** No gene moves by more than |coeff|. */
  lemma MutateGenesBounded(m: Mutation, genes: seq<real>, s: Stream, pos: nat)
    ensures var r := MutateGenes(m, genes, s, pos).value;
      forall i :: 0 <= i < |genes| ==> Abs(r[i] - genes[i]) <= Abs(m.coeff)
  {
    forall i | 0 <= i < |genes|
      ensures Abs(MutateGenes(m, genes, s, pos).value[i] - genes[i]) <= Abs(m.coeff)
    {
      MutateGenesAt(m, genes, s, pos, i);
      MutateGeneEffect(m, genes[i], s, MutateGenes(m, genes[..i], s, pos).next);
    }
  }

  /** With chance 0 every trial fails: the genes are unchanged and each gene costs
      exactly two draws. */
  lemma {:induction false} MutateGenesNever(m: Mutation, genes: seq<real>, s: Stream, pos: nat)
    requires m.chance == 0.0
    ensures MutateGenes(m, genes, s, pos) == Drawn(genes, pos + 2 * |genes|)
    decreases |genes|
  {
    if genes != [] {
      var n := |genes|;
      MutateGenesNever(m, genes[..n - 1], s, pos);
      assert genes[..n - 1] + [genes[n - 1]] == genes;
    }
  }

  /** With chance 1 every trial succeeds and each gene costs exactly three draws. */
  lemma {:induction false} MutateGenesAlways(m: Mutation, genes: seq<real>, s: Stream, pos: nat)
    requires m.chance == 1.0
    ensures MutateGenes(m, genes, s, pos).next == pos + 3 * |genes|
    decreases |genes|
  {
    if genes != [] {
      MutateGenesAlways(m, genes[..|genes| - 1], s, pos);
    }
  }

  /** The body of the loop in `SimpleMutation::mutate`, for the gene g. */
  method MutateStep(m: Mutation, rng: Rng, g: real) returns (mutated: real)
    requires m.Valid()
    modifies rng
    ensures Drawn(mutated, rng.pos) == MutateGene(m, g, rng.draws, old(rng.pos))
  {
    ghost var p, sd := rng.pos, rng.draws;
    var negative := rng.NextBool(0.5);
    var sign := if negative then -1.0 else 1.0;
    mutated := g;
    var mutates := rng.NextBool(m.chance);
    assert negative == Bernoulli(sd(p), 0.5) && mutates == Bernoulli(sd(p + 1), m.chance);
    if mutates {
      var u := rng.NextUnit();
      mutated := mutated + sign * m.coeff * u;
      assert u == sd(p + 2) && rng.pos == p + 3;
      assert MutateGene(m, g, sd, p).value == g + sign * m.coeff * sd(p + 2);
    } else {
      assert MutateGene(m, g, sd, p) == Drawn(g, p + 2);
    }
    assert MutateGene(m, g, sd, p).value == mutated && MutateGene(m, g, sd, p).next == rng.pos;
  }

  /** `SimpleMutation::mutate`: updates the genes in place, one at a time. */
  method Mutate(m: Mutation, rng: Rng, genes: array<real>)
    requires m.Valid()
    modifies rng, genes
    ensures var d := MutateGenes(m, old(genes[..]), rng.draws, old(rng.pos));
      genes[..] == d.value && rng.pos == d.next
  {
    ghost var before, start := genes[..], rng.pos;
    for i := 0 to genes.Length
      invariant forall j :: i <= j < genes.Length ==> genes[j] == before[j]
      invariant var d := MutateGenes(m, before[..i], rng.draws, start);
        genes[..i] == d.value && rng.pos == d.next
    {
      assert before[..i + 1][..i] == before[..i];
      genes[i] := MutateStep(m, rng, genes[i]);
    }
    assert before[..genes.Length] == before;
  }
}
