/**
 Ranking of classification observations: the completion handler sorts the
 observations by descending confidence and keeps the first two. Confidences
 are modelled as integers. The platform sort does not promise any order
 among equal confidences, so the properties below are stated through
 `IsTopTwo`, which any tie-break satisfies, rather than through the
 particular order `SortByConfidence` happens to pick.
 */
module Ranking {
  import opened Collection

  /** One `VNClassificationObservation`: a label and its confidence. */
  datatype Observation = Observation(identifier: string, confidence: int)

  ghost predicate SortedByConfidence(s: seq<Observation>) {
    forall i, j :: 0 <= i < j < |s| ==> s[i].confidence >= s[j].confidence
  }

  /** Insert `o` into a descending sequence, before the first observation it
      does not fall below. */
  function Insert(o: Observation, s: seq<Observation>): (r: seq<Observation>)
    requires SortedByConfidence(s)
    ensures SortedByConfidence(r)
    ensures multiset(r) == multiset(s) + multiset{o}
    ensures |r| == |s| + 1
  {
    if |s| == 0 || o.confidence >= s[0].confidence then
      [o] + s
    else
      var rest := Insert(o, s[1..]);
      InsertBelowHead(o, s, rest);
      [s[0]] + rest
  }

  /** Inserting below the head keeps the head in front. */
  lemma InsertBelowHead(o: Observation, s: seq<Observation>, rest: seq<Observation>)
    requires |s| > 0 && SortedByConfidence(s)
    requires o.confidence < s[0].confidence
    requires SortedByConfidence(rest)
    requires multiset(rest) == multiset(s[1..]) + multiset{o}
    ensures SortedByConfidence([s[0]] + rest)
    ensures multiset([s[0]] + rest) == multiset(s) + multiset{o}
  {
    assert s == [s[0]] + s[1..];
    forall j | 0 <= j < |rest|
      ensures rest[j].confidence <= s[0].confidence
    {
      assert rest[j] in multiset(rest);
      if rest[j] != o {
        assert rest[j] in s[1..];
      }
    }
  }

  /** `results.sorted(by: { $0.confidence > $1.confidence })`. */
  function SortByConfidence(obs: seq<Observation>): (r: seq<Observation>)
    ensures SortedByConfidence(r)
    ensures multiset(r) == multiset(obs)
  {
    if |obs| == 0 then []
    else
      assert obs == [obs[0]] + obs[1..];
      Insert(obs[0], SortByConfidence(obs[1..]))
  }

  /** What the display promises of the (at most) two observations it shows:
      as many as there are, up to two; the first has a confidence no
      observation exceeds; the second is another observation (another copy,
      when two are equal) whose confidence no observation but the first
      exceeds. */
  ghost predicate IsTopTwo(obs: seq<Observation>, top: seq<Observation>) {
    && |top| == Min(2, |obs|)
    && (|top| >= 1 ==>
          && top[0] in obs
          && forall o :: o in obs ==> o.confidence <= top[0].confidence)
    && (|top| == 2 ==>
          var rest := multiset(obs) - multiset{top[0]};
          && top[1] in rest
          && forall o :: o in rest ==> o.confidence <= top[1].confidence)
  }

  /** `sortedResults = results.sorted(...).prefix(2)`. */
  function TopTwo(obs: seq<Observation>): (top: seq<Observation>)
    ensures IsTopTwo(obs, top)
  {
    var sorted := SortByConfidence(obs);
    TopOfSorted(obs, sorted);
    Prefix(sorted, 2)
  }

  /** The first two of a descending permutation of `obs` are a top two. */
  lemma TopOfSorted(obs: seq<Observation>, sorted: seq<Observation>)
    requires SortedByConfidence(sorted)
    requires multiset(sorted) == multiset(obs)
    ensures IsTopTwo(obs, Prefix(sorted, 2))
  {
    var top := Prefix(sorted, 2);
    if |sorted| >= 1 {
      assert sorted[0] in multiset(sorted);
      forall o | o in obs
        ensures o.confidence <= top[0].confidence
      {
        assert o in multiset(sorted);
      }
    }
    if |sorted| >= 2 {
      assert sorted == [sorted[0]] + sorted[1..];
      var rest := multiset(obs) - multiset{top[0]};
      assert rest == multiset(sorted[1..]);
      assert sorted[1..][0] == sorted[1];
      forall o | o in rest
        ensures o.confidence <= top[1].confidence
      {
        assert o in sorted[1..];
      }
    }
  }

  /** Any two top-two selections of the same observations, in whatever order
      they arrived, agree on the confidences they show: they can differ only
      in which of several equally confident observations they pick. */
  lemma TopTwoConfidencesAgree(a: seq<Observation>, b: seq<Observation>,
                               ta: seq<Observation>, tb: seq<Observation>)
    requires multiset(a) == multiset(b)
    requires IsTopTwo(a, ta)
    requires IsTopTwo(b, tb)
    ensures |ta| == |tb|
    ensures forall k :: 0 <= k < |ta| ==> ta[k].confidence == tb[k].confidence
  {
    assert |a| == |multiset(a)| == |multiset(b)| == |b|;
    if |ta| >= 1 {
      assert ta[0] in multiset(b);
      assert tb[0] in multiset(a);
    }
    if |ta| == 2 {
      var restA := multiset(a) - multiset{ta[0]};
      var restB := multiset(b) - multiset{tb[0]};
      if ta[0] == tb[0] {
        assert restA == restB;
      } else {
        assert ta[0] in restB;
        assert tb[0] in restA;
      }
    }
  }

  /** The shown confidences depend only on the observations, not on the
      order in which inference returned them. */
  lemma TopTwoOrderIndependent(a: seq<Observation>, b: seq<Observation>)
    requires multiset(a) == multiset(b)
    ensures |TopTwo(a)| == |TopTwo(b)|
    ensures forall k :: 0 <= k < |TopTwo(a)| ==>
              TopTwo(a)[k].confidence == TopTwo(b)[k].confidence
  {
    TopTwoConfidencesAgree(a, b, TopTwo(a), TopTwo(b));
  }
}
