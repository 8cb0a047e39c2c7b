/**
 * Maps built by a Go loop `m[k] = v` over a list of pairs. The entry field
 * triples, the asset title and description blocks and the webhook headers are
 * all turned into maps this way; later pairs overwrite earlier ones.
 */
module Assoc {

  function FromPairs<K(==), V>(ps: seq<(K, V)>): map<K, V>
  {
    if ps == [] then map[] else FromPairs(ps[..|ps| - 1])[ps[|ps| - 1].0 := ps[|ps| - 1].1]
  }

  /** One more iteration of the loop. */
  lemma FromPairsAppend<K, V>(ps: seq<(K, V)>, p: (K, V))
    ensures FromPairs(ps + [p]) == FromPairs(ps)[p.0 := p.1]
  {
    assert (ps + [p])[..|ps|] == ps;
  }

  /** Read from the front: the first pair is overridden by everything after it. */
  lemma {:induction false} FromPairsCons<K, V>(p: (K, V), ps: seq<(K, V)>)
    ensures FromPairs([p] + ps) == map[p.0 := p.1] + FromPairs(ps)
  {
    if ps == [] {
      assert [p] + ps == [p];
      assert FromPairs([p]) == FromPairs([])[p.0 := p.1];
    } else {
      var init, last := ps[..|ps| - 1], ps[|ps| - 1];
      assert ps == init + [last];
      assert [p] + ps == ([p] + init) + [last];
      FromPairsAppend([p] + init, last);
      FromPairsAppend(init, last);
      FromPairsCons(p, init);
    }
  }

  /** The keys are exactly the keys that occur in the list. */
  lemma {:induction false} FromPairsKeys<K, V>(ps: seq<(K, V)>)
    ensures FromPairs(ps).Keys == set i | 0 <= i < |ps| :: ps[i].0
  {
    if ps != [] {
      var init := ps[..|ps| - 1];
      FromPairsKeys(init);
      var occurring := set i | 0 <= i < |ps| :: ps[i].0;
      var before := set i | 0 <= i < |init| :: init[i].0;
      assert occurring == before + {ps[|ps| - 1].0} by {
        forall x | x in occurring ensures x in before + {ps[|ps| - 1].0} {
          var i :| 0 <= i < |ps| && ps[i].0 == x;
          if i < |init| {
            assert init[i].0 == x;
          }
        }
        forall x | x in before ensures x in occurring {
          var i :| 0 <= i < |init| && init[i].0 == x;
          assert ps[i].0 == x;
        }
      }
    }
  }

  /** A key is bound to the value of the last pair that carries it. */
  lemma {:induction false} FromPairsLastWins<K, V>(ps: seq<(K, V)>, k: nat)
    requires k < |ps|
    requires forall j | k < j < |ps| :: ps[j].0 != ps[k].0
    ensures ps[k].0 in FromPairs(ps) && FromPairs(ps)[ps[k].0] == ps[k].1
  {
    if k < |ps| - 1 {
      var init := ps[..|ps| - 1];
      assert init[k] == ps[k];
      forall j | k < j < |init| ensures init[j].0 != init[k].0 {
        assert init[j] == ps[j];
      }
      FromPairsLastWins(init, k);
    }
  }

  /** `ps` lists every binding of `m` once, in some order. */
  ghost predicate Enumerates<K, V>(ps: seq<(K, V)>, m: map<K, V>)
  {
    && (forall i | 0 <= i < |ps| :: ps[i].0 in m && m[ps[i].0] == ps[i].1)
    && (forall i, j | 0 <= i < j < |ps| :: ps[i].0 != ps[j].0)
    && (forall x | x in m :: exists i :: 0 <= i < |ps| && ps[i].0 == x)
  }

  /** Rebuilding a map from any enumeration of it gives the map back. */
  lemma FromPairsOfEnumeration<K, V>(ps: seq<(K, V)>, m: map<K, V>)
    requires Enumerates(ps, m)
    ensures FromPairs(ps) == m
  {
    FromPairsKeys(ps);
    var r := FromPairs(ps);
    assert r.Keys == m.Keys by {
      forall x | x in m ensures x in r {
        var i :| 0 <= i < |ps| && ps[i].0 == x;
      }
    }
    forall x | x in m ensures r[x] == m[x] {
      var i :| 0 <= i < |ps| && ps[i].0 == x;
      FromPairsLastWins(ps, i);
    }
  }
}
