/**
 * The best-tracking rules of replaceParticlesBests (pso.js:126-154) as
 * functions of the fitness values: the personal best as a running minimum,
 * the neighbourhood best and the global best as left-to-right scans that
 * replace their candidate only on a strict improvement.
 */
module Bests {

  /**
   * The personal best after one evaluation (pso.js:130-131): the fitness just
   * measured replaces the recorded best only when it is strictly lower.
   */
  function PersonalBest(best: real, actual: real): (r: real)
    ensures r <= best && r <= actual
    ensures r == best || r == actual
    ensures best <= actual ==> r == best
  {
    if actual < best then actual else best
  }

  /**
   * The scan of pso.js:140-148 over the links `es` of particle `n`: start from
   * `n` itself and move to a neighbour only when its fitness is strictly lower
   * than the best seen so far.
   */
  function LocalBestOf(fit: seq<real>, n: nat, es: seq<int>): (k: int)
    requires n < |fit|
    requires forall i :: 0 <= i < |es| ==> 0 <= es[i] < |fit|
    ensures 0 <= k < |fit|
    decreases |es|
  {
    if es == [] then n
    else
      var k := LocalBestOf(fit, n, es[..|es| - 1]);
      var e := es[|es| - 1];
      if fit[e] < fit[k] then e else k
  }

  /**
   * The neighbourhood best is the particle itself or one of its links, and
   * no particle of the neighbourhood is fitter. It leaves `n` only for a
   * strictly fitter link, so it stays `n` exactly when no link is fitter.
   */
  lemma {:induction false} LocalBestIsBest(fit: seq<real>, n: nat, es: seq<int>)
    requires n < |fit|
    requires forall i :: 0 <= i < |es| ==> 0 <= es[i] < |fit|
    ensures var k := LocalBestOf(fit, n, es);
      (k == n || k in es) &&
      fit[k] <= fit[n] &&
      (forall i :: 0 <= i < |es| ==> fit[k] <= fit[es[i]]) &&
      (k != n ==> fit[k] < fit[n]) &&
      (k == n <==> forall i :: 0 <= i < |es| ==> fit[n] <= fit[es[i]])
    decreases |es|
  {
    if es != [] {
      var prefix := es[..|es| - 1];
      LocalBestIsBest(fit, n, prefix);
      assert forall i :: 0 <= i < |prefix| ==> prefix[i] == es[i];
      assert es == prefix + [es[|es| - 1]];
    }
  }

  /**
   * Ties among neighbours go to the one met first: the neighbourhood best,
   * when it is not `n`, occurs in `es` at a position before which every link
   * has a strictly worse fitness.
   */
  lemma {:induction false} LocalBestFirstSeen(fit: seq<real>, n: nat, es: seq<int>)
    requires n < |fit|
    requires forall i :: 0 <= i < |es| ==> 0 <= es[i] < |fit|
    ensures var k := LocalBestOf(fit, n, es);
      k != n ==> exists j :: 0 <= j < |es| && es[j] == k && forall i :: 0 <= i < j ==> fit[k] < fit[es[i]]
    decreases |es|
  {
    if es != [] {
      var prefix := es[..|es| - 1];
      var k' := LocalBestOf(fit, n, prefix);
      var e := es[|es| - 1];
      LocalBestIsBest(fit, n, prefix);
      if fit[e] < fit[k'] {
        assert es[|es| - 1] == e;
        forall i | 0 <= i < |es| - 1 ensures fit[e] < fit[es[i]] {
          assert es[i] == prefix[i];
        }
      } else if k' != n {
        LocalBestFirstSeen(fit, n, prefix);
        var j :| 0 <= j < |prefix| && prefix[j] == k' && forall i :: 0 <= i < j ==> fit[k'] < fit[prefix[i]];
        assert es[j] == k';
        forall i | 0 <= i < j ensures fit[k'] < fit[es[i]] {
          assert es[i] == prefix[i];
        }
      }
    }
  }

  /**
   * The incremental global best of pso.js:150-152 after particles
   * `0 .. count - 1` have been visited, starting from particle `start`.
   */
  function GlobalBestOf(fit: seq<real>, start: nat, count: nat): (b: nat)
    requires start < |fit| && count <= |fit|
    ensures b < |fit|
  {
    if count == 0 then start
    else
      var b := GlobalBestOf(fit, start, count - 1);
      if fit[count - 1] < fit[b] then count - 1 else b
  }

  /**
   * The global best is the starting particle or one already visited, and no
   * visited particle (nor the start) is fitter; it leaves the start only for
   * a strictly fitter particle.
   */
  lemma {:induction false} GlobalBestIsBest(fit: seq<real>, start: nat, count: nat)
    requires start < |fit| && count <= |fit|
    ensures var b := GlobalBestOf(fit, start, count);
      (b == start || b < count) &&
      fit[b] <= fit[start] &&
      (forall m :: 0 <= m < count ==> fit[b] <= fit[m]) &&
      (b != start ==> fit[b] < fit[start])
  {
    if count > 0 {
      GlobalBestIsBest(fit, start, count - 1);
    }
  }

  /** Ties across the swarm also go to the particle met first (the lowest index below `count`). */
  lemma {:induction false} GlobalBestFirstSeen(fit: seq<real>, start: nat, count: nat)
    requires start < |fit| && count <= |fit|
    ensures var b := GlobalBestOf(fit, start, count);
      b != start ==> forall m :: 0 <= m < b ==> fit[b] < fit[m]
  {
    if count > 0 {
      var b' := GlobalBestOf(fit, start, count - 1);
      GlobalBestIsBest(fit, start, count - 1);
      if fit[count - 1] >= fit[b'] && b' != start {
        GlobalBestFirstSeen(fit, start, count - 1);
      }
    }
  }
}
