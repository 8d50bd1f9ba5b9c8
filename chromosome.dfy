/** The gene container: a thin wrapper over a vector of genes. Reading,
    indexing and iterating a chromosome reach straight through to `genes`. */
module Chromosomes {
  import opened Errors
  import opened Random

  /** The inclusive range `lo..=hi`. */
  datatype Range = Range(lo: real, hi: real)

  datatype Chromosome = Chromosome(genes: seq<real>) {

    /** Applies f to every gene, front to back, the way an element-wise update
        through the mutable view of the vector does. */
    function Update(f: real -> real): (r: Chromosome)
      ensures |r.genes| == |genes|
      ensures forall i :: 0 <= i < |genes| ==> r.genes[i] == f(genes[i])
      decreases |genes|
    {
      if genes == [] then this
      else
        var done := Chromosome(genes[..|genes| - 1]).Update(f);
        Chromosome(done.genes + [f(genes[|genes| - 1])])
    }
  }

  /** One gene drawn from draw u: `gen_range(lo..=hi)` for a range, else `gen()`. */
  function Sample(range: Option<Range>, u: real): (v: real)
    ensures range.None? ==> v == u
    ensures range.Some? && u == 0.0 ==> v == range.value.lo
    ensures range.Some? && range.value.lo == range.value.hi ==> v == range.value.lo
  {
    match range
    case None => u
    case Some(r) => r.lo + u * (r.hi - r.lo)
  }

  lemma SampleBounds(range: Option<Range>, u: real)
    requires 0.0 <= u < 1.0
    requires range.Some? ==> range.value.lo <= range.value.hi
    ensures range.None? ==> 0.0 <= Sample(range, u) < 1.0
    ensures range.Some? ==> range.value.lo <= Sample(range, u) <= range.value.hi
  {
    if range.Some? {
      var d := range.value.hi - range.value.lo;
      var v := 1.0 - u;
      assert 0.0 <= u * d && 0.0 <= v * d;
      assert u * d + v * d == d;
    }
  }

  /** `Chromosome::new(length, range)` reading its draws from s at pos: one draw per
      gene, taken lazily, so an empty range only fails once a gene is wanted. */
  function New(length: nat, range: Option<Range>, s: Stream, pos: nat): (r: Result<Drawn<Chromosome>>)
    ensures r.Err? <==> length > 0 && range.Some? && range.value.lo > range.value.hi
    ensures r.Err? ==> r.error == EmptyRange
    ensures r.Ok? ==> |r.value.value.genes| == length && r.value.next == pos + length
    ensures r.Ok? ==> forall i :: 0 <= i < length ==> r.value.value.genes[i] == Sample(range, s(pos + i))
    ensures r.Ok? && range.None? ==> forall i :: 0 <= i < length ==> 0.0 <= r.value.value.genes[i] < 1.0
    ensures r.Ok? && range.Some? ==>
      forall i :: 0 <= i < length ==> range.value.lo <= r.value.value.genes[i] <= range.value.hi
    decreases length
  {
    if length == 0 then Ok(Drawn(Chromosome([]), pos))
    else if range.Some? && range.value.lo > range.value.hi then Err(EmptyRange)
    else
      var rest := New(length - 1, range, s, pos + 1);
      var first := Sample(range, s(pos));
      SampleBounds(range, s(pos));
      var genes := [first] + rest.value.value.genes;
      assert forall i :: 1 <= i < length ==> genes[i] == Sample(range, s(pos + 1 + (i - 1)));
      Ok(Drawn(Chromosome(genes), rest.value.next))
  }

  /** Length, indexing, iteration and an element-wise `+= 1.0` on the genes [3, 1, 2]. */
  lemma ViewAndUpdateExample()
    ensures var c := Chromosome([3.0, 1.0, 2.0]);
      |c.genes| == 3 && c.genes[0] == 3.0 && c.genes[1] == 1.0 && c.genes[2] == 2.0 &&
      c.Update(g => g + 1.0) == Chromosome([4.0, 2.0, 3.0])
  {
    var c := Chromosome([3.0, 1.0, 2.0]);
    var r := c.Update(g => g + 1.0);
    assert r.genes == [4.0, 2.0, 3.0];
  }
}
