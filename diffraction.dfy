/**
  The composite indicator (`pyfso/diffraction/core.py`): a list of
  processors run one after another over a dataset.  A processor is a total
  function from a dataset and the shared keyword arguments to a new
  dataset; the dataset type `D` and the argument type `K` are left open.
*/
module Diffraction {
  import opened Wrappers

  /** The dataset after the processors `ps` have run in list order, each on
      the output of the one before, all with the same arguments `k`: the
      last processor is applied to what the others produced. */
  function Pipeline<D, K>(ps: seq<(D, K) -> D>, k: K, d: D): D
  {
    if |ps| == 0 then d else ps[|ps| - 1](Pipeline(ps[..|ps| - 1], k, d), k)
  }

  /** The same run read from the front: the first processor is applied to
      the input, and the rest run on its output. */
  function RunFrom<D, K>(ps: seq<(D, K) -> D>, k: K, d: D): D
  {
    if |ps| == 0 then d else RunFrom(ps[1..], k, ps[0](d, k))
  }

  /** Running `ps + qs` is running `ps`, then `qs` on the result. */
  lemma {:induction false} PipelineAppend<D, K>(ps: seq<(D, K) -> D>, qs: seq<(D, K) -> D>, k: K, d: D)
    ensures Pipeline(ps + qs, k, d) == Pipeline(qs, k, Pipeline(ps, k, d))
    decreases |qs|
  {
    if |qs| == 0 {
      assert ps + qs == ps;
    } else {
      var n := |qs| - 1;
      assert (ps + qs)[..|ps + qs| - 1] == ps + qs[..n];
      PipelineAppend(ps, qs[..n], k, d);
    }
  }

  /** Both readings of the run agree. */
  lemma {:induction false} PipelineIsRunFrom<D, K>(ps: seq<(D, K) -> D>, k: K, d: D)
    ensures Pipeline(ps, k, d) == RunFrom(ps, k, d)
    decreases |ps|
  {
    if |ps| > 0 {
      var first, rest := ps[..1], ps[1..];
      assert ps == first + rest;
      PipelineAppend(first, rest, k, d);
      assert Pipeline(first, k, d) == ps[0](d, k) by {
        assert first[..0] == [];
      }
      PipelineIsRunFrom(rest, k, ps[0](d, k));
    }
  }

  /** No processors: the input comes back unchanged; one processor: it is
      called once, on the input, with the shared arguments. */
  lemma PipelineBaseCases<D, K>(p: (D, K) -> D, k: K, d: D)
    ensures Pipeline([], k, d) == d
    ensures Pipeline([p], k, d) == p(d, k)
  {
    assert [p][..0] == [];
  }

  /** A composite indicator: its processors, their keyword arguments, and
      the dataset that the last `build` produced (`None` before). */
  class CompositeIndicator<D, K> {
    var processors: seq<(D, K) -> D>
    var kwargs: K
    var dataset: Option<D>

    constructor (processors: seq<(D, K) -> D>, kwargs: K)
      ensures this.processors == processors && this.kwargs == kwargs && dataset == None
    {
      this.processors := processors;
      this.kwargs := kwargs;
      dataset := None;
    }

    /** `build`: passes the dataset through every processor in list order,
        stores the result in `dataset` and returns it. */
    method Build(input: D) returns (r: D)
      modifies this
      ensures processors == old(processors) && kwargs == old(kwargs)
      ensures r == Pipeline(processors, kwargs, input) && r == RunFrom(processors, kwargs, input)
      ensures dataset == Some(r)
    {
      var d := input;
      for i := 0 to |processors|
        invariant d == Pipeline(processors[..i], kwargs, input)
      {
        assert processors[..i + 1][..i] == processors[..i];
        d := processors[i](d, kwargs);
      }
      assert processors[..|processors|] == processors;
      PipelineIsRunFrom(processors, kwargs, input);
      dataset := Some(d);
      r := d;
    }

    /** `export` does nothing. */
    method Export()
      ensures unchanged(this)
    {
    }

    /** `plot` does nothing. */
    method Plot()
      ensures unchanged(this)
    {
    }
  }
}
