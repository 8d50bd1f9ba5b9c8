# Generation step of a small genetic algorithm, in Dafny

This project models the engine that breeds one generation of a real-valued genetic
algorithm, and proves facts about it:

- the gene container `Chromosome`, a thin wrapper over a vector of genes, and its
  constructor that fills a given length with random draws;
- the three concrete strategies: weighted selection of one member of the population,
  uniform crossover of two parents, and per-gene mutation that works in place;
- `GeneticAlgorithm::new` and `GeneticAlgorithm::evolve`, which builds a new
  population the same size as the old one. Each slot runs select, select, crossover,
  mutate, then `create`.

Randomness is an explicit stream of draws, each in [0, 1), held by the class
`Random.Rng` together with the position of the next draw. Every primitive takes
exactly one draw:

- `gen_bool(p)` is true when the draw is below `p`;
- `gen::<f32>()` is the draw itself;
- `gen_range(lo..=hi)` is `lo + u·(hi − lo)`.

Crossover, mutation and the engine's operations each have two parts: a method on the
`Rng` object, and a pure function of the stream and a start position. The function
returns the result together with the position of the first draw left unread
(`Drawn`). Each method's `ensures` ties it to its function, and the lemmas are stated
over the functions. There are two exceptions. `Chromosome::new` has only the
function `New`, because it draws from a generator of its own. Selection's function
`PickIndex` takes the single draw `u`, not a stream and a position.
Because the functions are deterministic, so is `evolve`: it depends only on the
population and the generator state.

Genes are `real`. An individual is any type `I` with a pair of functions
(`IndividualOps`): `create` builds an individual from a chromosome, and `chromosome`
reads the chromosome back. Since both are functions, `create` is deterministic.

Modules, leaves first:

- `errors.dfy` has `Option` and `Result`, plus the three panics the model keeps (the
  others are listed under "## Left out").
- `random.dfy` has the draw stream and `Rng`.
- `chromosome.dfy` has `Chromosome`, `Range` and `New`.
- `simple_methods.dfy` has selection, crossover and mutation.
- `genetic_algorithm.dfy` has the engine.

Two behaviours of the code are kept as written. Crossover zips the parents, so the
child has the shorter parent's length (`CrossoverGenes`). `SimpleMutation::new`
checks only `chance`, so any `coeff` is accepted (`NewMutation`).

## Model

| member | source | states |
|---|---|---|
| `Random.Rng.constructor` | src/lib.rs:41 | a generator seeded with a given stream of draws starts at its first draw |
| `Random.Rng.NextBool` | src/simple_methods.rs:36-38 | `gen_bool(p)` for p in [0, 1] takes exactly one draw and is true iff the draw is below p; p = 0 always gives false and p = 1 always gives true |
| `Random.Rng.NextUnit` | src/simple_methods.rs:39 | `gen::<f32>()` takes exactly one draw and returns it, a value in [0, 1) |
| `Chromosomes.Chromosome.Update` | src/chromosome.rs:12-14 | an element-wise update through the mutable view keeps the length and replaces every gene i by f(genes[i]) |
| `Chromosomes.Sample` | src/chromosome.rs:20-21 | one gene from draw u: `gen()` gives u itself; `gen_range(lo..=hi)` gives lo for u = 0 and always gives lo for a one-point range lo..=lo |
| `Chromosomes.SampleBounds` | src/chromosome.rs:20-21 | a gene drawn with a range `lo..=hi` (lo ≤ hi) lies in [lo, hi]; without a range it lies in [0, 1) |
| `Chromosomes.New` | src/chromosome.rs:17-25 | `Chromosome::new(length, range)` fails exactly when a gene is wanted (length > 0) and the range is empty (lo > hi); otherwise it returns exactly `length` genes, including none for length 0. It takes exactly one draw per gene, gene i comes from draw pos + i, and every gene lies in the range, or in [0, 1) without one |
| `Chromosomes.ViewAndUpdateExample` | src/chromosome.rs:41-57 | for genes [3, 1, 2], the length is 3, indexing and iteration read 3, 1, 2 in order, and adding 1.0 to each gene gives [4, 2, 3] |
| `SimpleMethods.PickIndex` | src/simple_methods.rs:8-11 | a selection draw always lands on an index below the population size |
| `SimpleMethods.Select` | src/simple_methods.rs:6-12 | `select` fails with EmptyPopulation exactly when the population is empty, and then takes no draw; otherwise it takes one draw and returns the index of a member of the population, which it only reads |
| `SimpleMethods.CrossoverGenes` | src/simple_methods.rs:17-22 | the child has min(\|a\|, \|b\|) genes, because of `zip`, and crossover takes exactly one coin per child gene |
| `SimpleMethods.CrossoverGenesAt` | src/simple_methods.rs:18-20 | child gene i is a[i] when coin i (draw pos + i) is true and b[i] otherwise, never any other value |
| `SimpleMethods.Crossover` | src/simple_methods.rs:17-22 | the method builds the child that `CrossoverGenes` describes and advances the generator past its coins; both parents are only read |
| `SimpleMethods.NewMutation` | src/simple_methods.rs:27-30 | `SimpleMutation::new` succeeds iff 0 ≤ chance ≤ 1, fails with ChanceOutOfRange otherwise, and keeps chance and coeff as given, with coeff unchecked |
| `SimpleMethods.MutateGeneEffect` | src/simple_methods.rs:36-39 | a gene takes a sign draw and a trial draw, then a magnitude draw only if the trial succeeds (2 or 3 draws). It changes only then, by +coeff·u or −coeff·u with u the magnitude draw, so by at most \|coeff\| |
| `SimpleMethods.MutateGene` | src/simple_methods.rs:36-40 | one gene takes a sign draw and a trial draw, plus a magnitude draw only when the trial succeeds, so 2 or 3 draws; with 2 draws the gene is unchanged |
| `SimpleMethods.MutateGeneDirection` | src/simple_methods.rs:36-39 | for coeff ≥ 0, a gene that mutates after a true sign coin (sign −1) does not increase, and after a false coin (sign +1) does not decrease |
| `SimpleMethods.MutateGenes` | src/simple_methods.rs:35-41 | mutation keeps the number of genes |
| `SimpleMethods.MutateGenesDraws` | src/simple_methods.rs:35-41 | mutating n genes takes between 2n and 3n draws |
| `SimpleMethods.MutateGenesAt` | src/simple_methods.rs:35-41 | gene i is mutated on its own, from the draws that directly follow those used for genes 0..i−1 (genes are visited in index order) |
| `SimpleMethods.MutateGenesBounded` | src/simple_methods.rs:36-39 | no gene moves by more than \|coeff\| |
| `SimpleMethods.MutateGenesNever` | src/simple_methods.rs:38-40 | with chance 0 the genes are unchanged and each gene takes exactly two draws |
| `SimpleMethods.MutateGenesAlways` | src/simple_methods.rs:38-40 | with chance 1 every gene takes exactly three draws |
| `SimpleMethods.MutateStep` | src/simple_methods.rs:36-40 | one pass of the mutation loop gives the gene and generator position that `MutateGene` describes |
| `SimpleMethods.Mutate` | src/simple_methods.rs:34-42 | `mutate` updates the gene array in place to exactly the genes `MutateGenes` gives for the old genes, and advances the generator by the draws it took |
| `Evolution.Iterate` | src/lib.rs:46-56 | running `count` loop passes one after another, each from the position the previous one left, collects exactly `count` values |
| `Evolution.Recombine` | src/lib.rs:51-53 | crossover then mutation gives a child with as many genes as the shorter parent |
| `Evolution.Offspring` | src/lib.rs:48-53 | one slot's select, select, crossover and mutate give a child whose length is the shorter of two members of the population |
| `Evolution.Slot` | src/lib.rs:48-54 | one pass of the `evolve` loop, ending in `create`, can run from any generator position whenever the population is non-empty |
| `Evolution.Generation` | src/lib.rs:46-56 | the first `slots` passes of the `evolve` loop give exactly `slots` individuals; no passes give none and take no draw |
| `Evolution.IterateAt` | src/lib.rs:47-54 | the children are appended in slot order, and slot k is bred from the generator state that the first k slots left |
| `Evolution.GenerationAt` | src/lib.rs:47-54 | a generation of n slots has n individuals, and slot k is `create(mutate(crossover(pA, pB)))`, where pA and pB come from the two select draws at the position slot k starts from |
| `Evolution.OffspringFromParents` | src/lib.rs:48-53 | a child comes from two members of the population, which may be the same one (`OneMemberBreedsWithItself`). Its length is the shorter parent's, and each gene lies within \|coeff\| of the same position in one parent, or equals it exactly when chance is 0. A slot takes two selection draws, one coin per gene, then 2 or 3 draws per gene |
| `Evolution.OneMemberBreedsWithItself` | src/lib.rs:48-52 | in a one-member population both `select` calls pick that member, so the child is its crossover with itself |
| `Evolution.GenerationKeepsLength` | src/lib.rs:44-57 | when `chromosome` returns what `create` was given, a population whose genomes all have length L breeds a generation whose genomes all have length L |
| `Evolution.GeneticAlgorithm.constructor` | src/lib.rs:40-43 | `new` keeps the mutation strategy and owns a freshly seeded generator positioned at its first draw |
| `Evolution.GeneticAlgorithm.SelectParents` | src/lib.rs:48-50 | the two `select` calls take draws pos and pos + 1, in that order, and give the chromosomes of the members they pick |
| `Evolution.GeneticAlgorithm.CrossAndMutate` | src/lib.rs:51-53 | crossover, then in-place mutation of the child, as `Recombine` describes |
| `Evolution.GeneticAlgorithm.Breed` | src/lib.rs:48-54 | one slot uses the stream in the fixed order select, select, crossover, mutate, and yields the chromosome `Offspring` describes |
| `Evolution.GeneticAlgorithm.Evolve` | src/lib.rs:44-57 | `evolve` returns exactly `population.len()` individuals, namely the generation `Generation` describes, and only reads the population. On an empty population it returns an empty vector and takes no draw, so it never calls `select` |
| `Evolution.SeededRunsAgree` | src/lib.rs:40-57 | two engines built by `new` with the same strategies, each evolving the same starting population for the same number of generations, produce identical populations of the original size |

## Left out

- `SimpleMethods.Select`: the fitness weighting of `choose_weighted` is not modelled. `PickIndex` maps the draw u to the index ⌊u·n⌋, and only "an index below n" is claimed. `choose_weighted`'s other failures (all weights zero, a negative or NaN weight) belong to the `rand` library and are not modelled either. The model fails only on an empty population.
- `Random.Rng.NextBool`: every `gen_bool` call takes one draw. The `rand` library answers `gen_bool(1.0)` without consuming a draw, and the model does not capture that shortcut. The draw counts for chance 1 (`SimpleMethods.MutateGenesAlways`) are stated under the one-draw rule.
- `Chromosomes.New`: `Chromosome::new` draws from the thread-local generator. Here the stream and a start position are parameters. `gen_range` on floats is modelled as `lo + u·(hi − lo)`. `rand`'s own float sampling and its finiteness checks are not modelled.
- `Evolution.GeneticAlgorithm.constructor`: the draws that `StdRng` produces from the default seed cannot be computed here, so they are a parameter (`seeded`).
- `Individual::fitness` is not modelled, since its only use is the selection weighting above.
- `f32` arithmetic is modelled as exact `real` arithmetic, without rounding, NaN or infinity.
- The `SelectionMethod`, `CrossoverMethod` and `MutationMethod` traits and their generic dispatch are not modelled. The engine calls the three concrete strategies directly, and selection and crossover carry no configuration.
- The statistics module, `Debug` printing and the reporting loop of the test are not part of this model. The test at src/lib.rs:79-103 only prints statistics after each generation and asserts nothing about fitness, so no lemma corresponds to it.
