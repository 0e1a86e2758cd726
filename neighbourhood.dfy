/**
 * The random neighbour graph (pso.js:66-76): what a particle's list of links
 * must look like, and why a particle cannot have `size` or more of them.
 */
module Neighbourhood {

  /** No value occurs twice (the source rejects a link `indexOf` already finds). */
  predicate Distinct(es: seq<int>) {
    forall i, j :: 0 <= i < j < |es| ==> es[i] != es[j]
  }

  /** `es` is a valid link list for particle `n` of a swarm of `size`: indices, not `n`, no repeats. */
  predicate IsNeighbourhood(es: seq<int>, n: int, size: int) {
    (forall i :: 0 <= i < |es| ==> 0 <= es[i] < size && es[i] != n) && Distinct(es)
  }

  /** Every particle of a swarm of `size` has exactly `degree` valid links. */
  predicate Neighbourhoods(edges: seq<seq<int>>, size: nat, degree: nat) {
    |edges| == size &&
    forall n :: 0 <= n < size ==> |edges[n]| == degree && IsNeighbourhood(edges[n], n, size)
  }

  /** `Math.floor(size * r)` for a draw `r` of Math.random is an index of the swarm. */
  lemma LinkInRange(size: nat, r: real)
    requires size > 0
    requires 0.0 <= r < 1.0
    ensures 0 <= (size as real * r).Floor < size
  {
    assert 0.0 <= size as real * r < size as real;
  }

  lemma {:induction false} DistinctCardinality(es: seq<int>)
    requires Distinct(es)
    ensures |set x | x in es| == |es|
  {
    if es != [] {
      var rest := es[1..];
      assert Distinct(rest) by {
        forall i, j | 0 <= i < j < |rest| ensures rest[i] != rest[j] {
          assert rest[i] == es[i + 1] && rest[j] == es[j + 1];
        }
      }
      DistinctCardinality(rest);
      assert (set x | x in es) == {es[0]} + (set x | x in rest) by {
        forall x | x in es ensures x == es[0] || x in rest {
          var k :| 0 <= k < |es| && es[k] == x;
          if k > 0 { assert rest[k - 1] == x; }
        }
      }
      assert es[0] !in (set x | x in rest) by {
        forall k | 0 <= k < |rest| ensures rest[k] != es[0] {
          assert rest[k] == es[k + 1];
        }
      }
    }
  }

  /** The indices `0 .. size - 1` of a swarm of `size` particles. */
  function Indices(size: nat): (r: set<int>)
    ensures forall x :: x in r <==> 0 <= x < size
    ensures |r| == size
  {
    if size == 0 then {} else Indices(size - 1) + {size - 1}
  }

  lemma SubsetCardinality(a: set<int>, b: set<int>)
    requires a <= b
    ensures |a| <= |b|
  {
    assert b == a + (b - a);
    assert a * (b - a) == {};
  }

  /**
   * Pigeonhole: a valid link list of particle `n` has fewer than `size`
   * entries. So when `degree >= size` the rejection loop can never accept the
   * last link it needs and the source never returns from initialisation.
   */
  lemma NeighbourhoodBound(es: seq<int>, n: int, size: nat)
    requires 0 <= n < size
    requires IsNeighbourhood(es, n, size)
    ensures |es| < size
  {
    var links := set x | x in es;
    var swarm := Indices(size);
    DistinctCardinality(es);
    assert n !in links;
    assert links + {n} <= swarm;
    SubsetCardinality(links + {n}, swarm);
  }
}
