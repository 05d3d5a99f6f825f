/** Collapsing runs of equal keys, as the bucketing loops of plot_data.py
    and team_standing_data.py do: an outer loop starts a bucket at the
    current sample and an inner loop swallows every following sample with
    the same key. Keys are generic (rounded days are integers, exact days are
    reals); the order on them is passed as a relation where it matters. */
module Grouping {

  /** One bucket: its key and the values of its samples, in order. */
  datatype Group<K> = Group(key: K, values: seq<real>)

  /** The position just past the run of keys equal to `ks[i]` that starts at `i`. */
  function RunEnd<K(==)>(ks: seq<K>, i: nat): (j: nat)
    requires i < |ks|
    ensures i < j <= |ks|
    ensures forall k :: i <= k < j ==> ks[k] == ks[i]
    ensures j == |ks| || ks[j] != ks[i]
    decreases |ks| - i
  {
    if i + 1 < |ks| && ks[i + 1] == ks[i] then RunEnd(ks, i + 1) else i + 1
  }

  /** A key equal to the run's own key, met inside the run, is not its end. */
  lemma {:induction false} RunContinues<K>(ks: seq<K>, i: nat, k: nat)
    requires i < k < |ks| && k <= RunEnd(ks, i) && ks[k] == ks[i]
    ensures k < RunEnd(ks, i)
  {
  }

  /** The buckets of the samples from position `i` on. */
  function Groups<K(==)>(ks: seq<K>, vs: seq<real>, i: nat): seq<Group<K>>
    requires |ks| == |vs| && i <= |ks|
    decreases |ks| - i
  {
    if i == |ks| then []
    else
      var j := RunEnd(ks, i);
      [Group(ks[i], vs[i..j])] + Groups(ks, vs, j)
  }

  /** The values from position `i` on whose key is `d`, in order. */
  function Select<K(==)>(ks: seq<K>, vs: seq<real>, d: K, i: nat): seq<real>
    requires |ks| == |vs| && i <= |ks|
    decreases |ks| - i
  {
    if i == |ks| then [] else (if ks[i] == d then [vs[i]] else []) + Select(ks, vs, d, i + 1)
  }

  /** Keys ascending under `le`. */
  predicate SortedBy<K>(ks: seq<K>, le: (K, K) -> bool) {
    forall a, b :: 0 <= a < b < |ks| ==> le(ks[a], ks[b])
  }

  /** `le` is antisymmetric on the keys that occur. */
  predicate AntisymmetricOn<K(==)>(ks: seq<K>, le: (K, K) -> bool) {
    forall a, b :: 0 <= a < |ks| && 0 <= b < |ks| && le(ks[a], ks[b]) && le(ks[b], ks[a]) ==> ks[a] == ks[b]
  }

  /** Every bucket is non-empty, there are no more buckets than samples,
      and each bucket's key is the key of one of its samples. */
  lemma {:induction false} GroupsShape<K>(ks: seq<K>, vs: seq<real>, i: nat)
    requires |ks| == |vs| && i <= |ks|
    ensures |Groups(ks, vs, i)| <= |ks| - i
    ensures forall m :: 0 <= m < |Groups(ks, vs, i)| ==>
      |Groups(ks, vs, i)[m].values| > 0 && exists p :: i <= p < |ks| && ks[p] == Groups(ks, vs, i)[m].key
    decreases |ks| - i
  {
    if i < |ks| {
      var j := RunEnd(ks, i);
      GroupsShape(ks, vs, j);
      var gs := Groups(ks, vs, i);
      forall m | 0 <= m < |gs|
        ensures |gs[m].values| > 0 && exists p :: i <= p < |ks| && ks[p] == gs[m].key
      {
        if m > 0 { assert gs[m] == Groups(ks, vs, j)[m - 1]; }
        else { assert ks[i] == gs[m].key; }
      }
    }
  }

  /** Every bucket holds at least one sample. */
  lemma {:induction false} GroupsNonEmpty<K>(ks: seq<K>, vs: seq<real>, i: nat)
    requires |ks| == |vs| && i <= |ks|
    ensures forall m :: 0 <= m < |Groups(ks, vs, i)| ==> |Groups(ks, vs, i)[m].values| > 0
  {
    GroupsShape(ks, vs, i);
  }

  /** Every key from position `i` on is the key of some bucket. */
  lemma {:induction false} GroupsCoverKeys<K>(ks: seq<K>, vs: seq<real>, i: nat, p: nat)
    requires |ks| == |vs| && i <= p < |ks|
    ensures exists m :: 0 <= m < |Groups(ks, vs, i)| && Groups(ks, vs, i)[m].key == ks[p]
    decreases |ks| - i
  {
    var j := RunEnd(ks, i);
    var gs := Groups(ks, vs, i);
    if p < j {
      assert gs[0].key == ks[p];
    } else {
      GroupsCoverKeys(ks, vs, j, p);
      var m :| 0 <= m < |Groups(ks, vs, j)| && Groups(ks, vs, j)[m].key == ks[p];
      assert gs[m + 1] == Groups(ks, vs, j)[m];
    }
  }

  /** On sorted keys the bucket keys strictly ascend: each is below every
      later one and differs from it. */
  lemma {:induction false} GroupKeysAscend<K>(ks: seq<K>, vs: seq<real>, le: (K, K) -> bool, i: nat)
    requires |ks| == |vs| && i <= |ks|
    requires SortedBy(ks, le) && AntisymmetricOn(ks, le)
    ensures forall m, n :: 0 <= m < n < |Groups(ks, vs, i)| ==>
      le(Groups(ks, vs, i)[m].key, Groups(ks, vs, i)[n].key) && Groups(ks, vs, i)[m].key != Groups(ks, vs, i)[n].key
    decreases |ks| - i
  {
    if i < |ks| {
      var j := RunEnd(ks, i);
      var gs, rest := Groups(ks, vs, i), Groups(ks, vs, j);
      GroupKeysAscend(ks, vs, le, j);
      GroupsShape(ks, vs, j);
      forall m, n | 0 <= m < n < |gs| ensures le(gs[m].key, gs[n].key) && gs[m].key != gs[n].key {
        assert gs[n] == rest[n - 1];
        if m > 0 {
          assert gs[m] == rest[m - 1];
        } else {
          var p :| j <= p < |ks| && ks[p] == rest[n - 1].key;
          assert le(ks[i], ks[p]);
        }
      }
    }
  }

  /** `Select` over a run of key `d` takes the whole run. */
  lemma {:induction false} SelectRun<K>(ks: seq<K>, vs: seq<real>, d: K, i: nat, j: nat)
    requires |ks| == |vs| && i <= j <= |ks|
    requires forall p :: i <= p < j ==> ks[p] == d
    ensures Select(ks, vs, d, i) == vs[i..j] + Select(ks, vs, d, j)
    decreases j - i
  {
    if i < j {
      SelectRun(ks, vs, d, i + 1, j);
      calc {
        Select(ks, vs, d, i);
        [vs[i]] + Select(ks, vs, d, i + 1);
        [vs[i]] + (vs[i + 1..j] + Select(ks, vs, d, j));
        { assert [vs[i]] + vs[i + 1..j] == vs[i..j]; }
        vs[i..j] + Select(ks, vs, d, j);
      }
    }
  }

  /** `Select` skips positions whose key is not `d`. */
  lemma {:induction false} SelectSkip<K>(ks: seq<K>, vs: seq<real>, d: K, i: nat, j: nat)
    requires |ks| == |vs| && i <= j <= |ks|
    requires forall p :: i <= p < j ==> ks[p] != d
    ensures Select(ks, vs, d, i) == Select(ks, vs, d, j)
    decreases j - i
  {
    if i < j {
      SelectSkip(ks, vs, d, i + 1, j);
    }
  }

  /** On sorted keys each bucket holds exactly the values of all samples
      with its key, in order. */
  lemma {:induction false} GroupIsSelect<K>(ks: seq<K>, vs: seq<real>, le: (K, K) -> bool, i: nat)
    requires |ks| == |vs| && i <= |ks|
    requires SortedBy(ks, le) && AntisymmetricOn(ks, le)
    ensures forall m :: 0 <= m < |Groups(ks, vs, i)| ==>
      Groups(ks, vs, i)[m].values == Select(ks, vs, Groups(ks, vs, i)[m].key, i)
    decreases |ks| - i
  {
    if i < |ks| {
      var j := RunEnd(ks, i);
      var gs, rest := Groups(ks, vs, i), Groups(ks, vs, j);
      GroupIsSelect(ks, vs, le, j);
      GroupKeysAscend(ks, vs, le, i);
      SelectRun(ks, vs, ks[i], i, j);
      assert forall p :: j <= p < |ks| ==> ks[p] != ks[i];
      SelectSkip(ks, vs, ks[i], j, |ks|);
      assert Select(ks, vs, ks[i], i) == vs[i..j];
      forall m | 1 <= m < |gs| ensures gs[m].values == Select(ks, vs, gs[m].key, i) {
        assert gs[m] == rest[m - 1];
        assert gs[0].key != gs[m].key;
        SelectSkip(ks, vs, gs[m].key, i, j);
      }
    }
  }
}
