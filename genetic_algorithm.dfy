/** The generation step: `GeneticAlgorithm::evolve` breeds a whole new population
    of the same size, one child per slot, from the fixed strategies and one generator. */
module Evolution {
  import opened Random
  import opened Chromosomes
  import opened SimpleMethods

  /** What the engine asks of an individual: `create` builds one from a chromosome
      and `chromosome` reads its chromosome back. Both are functions, so `create`
      is deterministic. */
  datatype IndividualOps<!I> = IndividualOps(create: Chromosome -> I, chromosome: I -> Chromosome)

  /** Crossover of the parents a and b followed by mutation of the child, reading
      draws from pos on. */
  function Recombine(m: Mutation, a: Chromosome, b: Chromosome, s: Stream, pos: nat): (r: Drawn<Chromosome>)
    ensures |r.value.genes| == Min(|a.genes|, |b.genes|)
  {
    var crossed := CrossoverGenes(a.genes, b.genes, s, pos);
    var mutated := MutateGenes(m, crossed.value, s, crossed.next);
    Drawn(Chromosome(mutated.value), mutated.next)
  }

  /** The chromosome handed to `create` for one output slot, reading draws from pos
      on: parent A from draw pos, parent B from draw pos + 1, then the crossover
      coins and the mutation draws. */
  function Offspring<I>(population: seq<I>, ops: IndividualOps<I>, m: Mutation, s: Stream, pos: nat): (r: Drawn<Chromosome>)
    requires |population| > 0
    ensures exists ia, ib :: 0 <= ia < |population| && 0 <= ib < |population| &&
              |r.value.genes| == Min(|ops.chromosome(population[ia]).genes|, |ops.chromosome(population[ib]).genes|)
  {
    var a := ops.chromosome(population[PickIndex(s(pos), |population|)]);
    var b := ops.chromosome(population[PickIndex(s(pos + 1), |population|)]);
    Recombine(m, a, b, s, pos + 2)
  }

  /** `count` steps run one after another, each starting at the draw position the
      previous one left, with their values collected in order. */
  function Iterate<T>(step: nat --> Drawn<T>, pos: nat, count: nat): (r: Drawn<seq<T>>)
    requires count > 0 ==> forall p :: step.requires(p)
    ensures |r.value| == count
  {
    if count == 0 then Drawn([], pos)
    else
      var done := Iterate(step, pos, count - 1);
      var last := step(done.next);
      Drawn(done.value + [last.value], last.next)
  }

  /** Value k is what step k yields from the position the first k steps left. */
  lemma {:induction false} IterateAt<T>(step: nat --> Drawn<T>, pos: nat, count: nat, k: nat)
    requires forall p :: step.requires(p)
    requires k < count
    ensures Iterate(step, pos, count).value[k] == step(Iterate(step, pos, k).next).value
  {
    if k < count - 1 {
      IterateAt(step, pos, count - 1, k);
    }
  }

  /** One output slot: the individual `create` builds from the bred chromosome. */
  function Slot<I>(population: seq<I>, ops: IndividualOps<I>, m: Mutation, s: Stream): (step: nat --> Drawn<I>)
    ensures |population| > 0 ==> forall p :: step.requires(p)
  {
    (pos: nat) requires |population| > 0 =>
      var child := Offspring(population, ops, m, s, pos);
      Drawn(ops.create(child.value), child.next)
  }

  /** The first `slots` children of a generation, in slot order. */
  function Generation<I>(population: seq<I>, ops: IndividualOps<I>, m: Mutation, s: Stream, pos: nat, slots: nat)
    : (r: Drawn<seq<I>>)
    requires slots <= |population|
    ensures |r.value| == slots
    ensures slots == 0 ==> r.next == pos
  {
    Iterate(Slot(population, ops, m, s), pos, slots)
  }

  /** Slot k holds the child bred from the generator state the first k slots left. */
  lemma GenerationAt<I>(population: seq<I>, ops: IndividualOps<I>, m: Mutation, s: Stream,
                        pos: nat, slots: nat, k: nat)
    requires k < slots <= |population|
    ensures |Generation(population, ops, m, s, pos, slots).value| == slots
    ensures Generation(population, ops, m, s, pos, slots).value[k]
         == ops.create(Offspring(population, ops, m, s, Generation(population, ops, m, s, pos, k).next).value)
  {
    IterateAt(Slot(population, ops, m, s), pos, slots, k);
  }

  /** A child is built from two members of the population (possibly the same one):
      its length is the shorter parent's, each gene lies within |coeff| of the gene
      at the same position of one parent, and with chance 0 it is exactly one of them.
      The slot takes two selection draws, one coin per gene, then two or three
      draws per gene. */
  lemma OffspringFromParents<I>(population: seq<I>, ops: IndividualOps<I>, m: Mutation, s: Stream, pos: nat)
    requires |population| > 0
    ensures var ia, ib := PickIndex(s(pos), |population|), PickIndex(s(pos + 1), |population|);
      var a, b := ops.chromosome(population[ia]).genes, ops.chromosome(population[ib]).genes;
      var r := Offspring(population, ops, m, s, pos);
      var n := Min(|a|, |b|);
      && |r.value.genes| == n
      && pos + 2 + 3 * n <= r.next <= pos + 2 + 4 * n
      && (forall i :: 0 <= i < n ==>
            Abs(r.value.genes[i] - a[i]) <= Abs(m.coeff) || Abs(r.value.genes[i] - b[i]) <= Abs(m.coeff))
      && (m.chance == 0.0 ==> forall i :: 0 <= i < n ==> r.value.genes[i] == a[i] || r.value.genes[i] == b[i])
  {
    var ia, ib := PickIndex(s(pos), |population|), PickIndex(s(pos + 1), |population|);
    var a, b := ops.chromosome(population[ia]).genes, ops.chromosome(population[ib]).genes;
    var crossed := CrossoverGenes(a, b, s, pos + 2);
    forall i | 0 <= i < |crossed.value|
      ensures crossed.value[i] == a[i] || crossed.value[i] == b[i]
    {
      CrossoverGenesAt(a, b, s, pos + 2, i);
    }
    MutateGenesBounded(m, crossed.value, s, crossed.next);
    MutateGenesDraws(m, crossed.value, s, crossed.next);
    if m.chance == 0.0 {
      MutateGenesNever(m, crossed.value, s, crossed.next);
    }
  }

  /** Both selections of a one-member population pick that member, so it is
      crossed with itself. */
  lemma OneMemberBreedsWithItself<I>(population: seq<I>, ops: IndividualOps<I>, m: Mutation, s: Stream, pos: nat)
    requires |population| == 1
    ensures PickIndex(s(pos), 1) == 0 && PickIndex(s(pos + 1), 1) == 0
    ensures var c := ops.chromosome(population[0]);
      Offspring(population, ops, m, s, pos) == Recombine(m, c, c, s, pos + 2)
  {
  }

  /** When `chromosome` gives back what `create` was given, a population whose
      members all have genome length L breeds children that all have length L. */
  lemma GenerationKeepsLength<I>(population: seq<I>, ops: IndividualOps<I>, m: Mutation, s: Stream, pos: nat, len: nat)
    requires forall c :: ops.chromosome(ops.create(c)) == c
    requires forall x :: x in population ==> |ops.chromosome(x).genes| == len
    ensures var next := Generation(population, ops, m, s, pos, |population|).value;
      forall y :: y in next ==> |ops.chromosome(y).genes| == len
  {
    var next := Generation(population, ops, m, s, pos, |population|).value;
    forall y | y in next
      ensures |ops.chromosome(y).genes| == len
    {
      var k :| 0 <= k < |next| && next[k] == y;
      GenerationAt(population, ops, m, s, pos, |population|, k);
      OffspringFromParents(population, ops, m, s, Generation(population, ops, m, s, pos, k).next);
    }
  }

  /** `GeneticAlgorithm`: the generator it owns and the mutation strategy it was
      built with. Selection and crossover carry no configuration. */
  class GeneticAlgorithm {
    const rng: Rng
    const mutation: Mutation

    /** `GeneticAlgorithm::new`: the generator is seeded with the default seed;
        `seeded` stands for the draws that seed yields. */
    constructor (seeded: Stream, mutation: Mutation)
      requires mutation.Valid()
      ensures this.mutation == mutation
      ensures fresh(rng) && rng.draws == seeded && rng.pos == 0
    {
      this.mutation := mutation;
      rng := new Rng(seeded);
    }

    /** The two `select` calls at the head of each slot. */
    method SelectParents<I>(population: seq<I>, ops: IndividualOps<I>) returns (a: Chromosome, b: Chromosome)
      requires |population| > 0
      modifies rng
      ensures a == ops.chromosome(population[PickIndex(rng.draws(old(rng.pos)), |population|)])
      ensures b == ops.chromosome(population[PickIndex(rng.draws(old(rng.pos) + 1), |population|)])
      ensures rng.pos == old(rng.pos) + 2
    {
      var first := Select(rng, population);
      var second := Select(rng, population);
      a, b := ops.chromosome(population[first.value]), ops.chromosome(population[second.value]);
    }

    /** Crossover of the parents, then mutation of the child in place. */
    method CrossAndMutate(a: Chromosome, b: Chromosome) returns (child: Chromosome)
      requires mutation.Valid()
      modifies rng
      ensures Drawn(child, rng.pos) == Recombine(mutation, a, b, rng.draws, old(rng.pos))
    {
      var crossed := Crossover(rng, a, b);
      var genes := new real[|crossed.genes|](i requires 0 <= i < |crossed.genes| => crossed.genes[i]);
      assert genes[..] == crossed.genes;
      Mutate(mutation, rng, genes);
      child := Chromosome(genes[..]);
    }

    /** The body of the loop in `GeneticAlgorithm::evolve`: select, select,
        crossover, then mutate the child in place. */
    method Breed<I>(population: seq<I>, ops: IndividualOps<I>) returns (child: Chromosome)
      requires mutation.Valid() && |population| > 0
      modifies rng
      ensures Drawn(child, rng.pos) == Offspring(population, ops, mutation, rng.draws, old(rng.pos))
    {
      var a, b := SelectParents(population, ops);
      child := CrossAndMutate(a, b);
    }

    /** `GeneticAlgorithm::evolve`: a new generation of the same size; the
        population is only read. */
    method Evolve<I>(population: seq<I>, ops: IndividualOps<I>) returns (individuals: seq<I>)
      requires mutation.Valid()
      modifies rng
      ensures var g := Generation(population, ops, mutation, rng.draws, old(rng.pos), |population|);
        individuals == g.value && rng.pos == g.next
      ensures |individuals| == |population|
      ensures |population| == 0 ==> individuals == [] && rng.pos == old(rng.pos)
    {
      ghost var start := rng.pos;
      individuals := [];
      for k := 0 to |population|
        invariant var g := Generation(population, ops, mutation, rng.draws, start, k);
          individuals == g.value && rng.pos == g.next
      {
        ghost var done := Generation(population, ops, mutation, rng.draws, start, k);
        var child := Breed(population, ops);
        individuals := individuals + [ops.create(child)];
        assert Generation(population, ops, mutation, rng.draws, start, k + 1)
            == Drawn(done.value + [ops.create(child)], rng.pos);
      }
    }
  }

  /** Two engines built the same way and run side by side over the same starting
      population give identical populations after every generation. */
  method SeededRunsAgree<I>(seeded: Stream, mutation: Mutation, population: seq<I>, ops: IndividualOps<I>,
                            generations: nat)
    returns (first: seq<I>, second: seq<I>)
    requires mutation.Valid()
    ensures first == second && |first| == |population|
  {
    var x := new GeneticAlgorithm(seeded, mutation);
    var y := new GeneticAlgorithm(seeded, mutation);
    first, second := population, population;
    for g := 0 to generations
      invariant x.rng != y.rng && x.mutation == y.mutation == mutation
      invariant x.rng.draws == y.rng.draws && x.rng.pos == y.rng.pos
      invariant first == second && |first| == |population|
    {
      first := x.Evolve(first, ops);
      second := y.Evolve(second, ops);
    }
  }
}
