/**
 The result presenter: how a region's two result labels are derived from the
 observations one model returned. `String(format: "%@ (%.3f%%)", ...)` is
 abstracted as the `Shown` text, which keeps the identifier and the
 confidence it was formatted from.
 */
module Presenter {
  import opened Wrappers
  import opened Collection
  import opened Identifier
  import opened Ranking
  import opened Models

  /** The text of a label. `Timed` is a title with the measured latency. */
  datatype Text =
    | Plain(text: string)
    | Shown(identifier: string, confidence: int)
    | Timed(name: string, elapsed: nat)

  const Unknown: Text := Plain("?")
  const ErrorText: Text := Plain("An error occurred")

  /** Only MobileNet's identifiers carry a class code to strip: the other
      models show the raw identifier, MobileNet shows what follows its first
      space, which is a suffix of the raw identifier. */
  function DisplayIdentifier(m: Model, id: string): (r: string)
    ensures m != MobileNet ==> r == id
    ensures m == MobileNet ==> r == ProcessMobileNetIdentifier(id)
    ensures |r| <= |id| && id[|id| - |r|..] == r
    ensures ' ' !in id ==> r == id
    ensures m == MobileNet && ' ' in id ==> |r| < |id|
  {
    if m == MobileNet then
      ProcessedIsSuffix(id);
      ProcessMobileNetIdentifier(id)
    else
      id
  }

  /** `String(format: "%@ (%.3f%%)", identifier, confidence * 100)`: the
      displayed identifier of the observation with its own confidence. */
  function ShownAs(m: Model, o: Observation): (r: Text)
    ensures r.Shown? && r.confidence == o.confidence
    ensures m != MobileNet ==> r.identifier == o.identifier
    ensures m == MobileNet ==> r.identifier == ProcessMobileNetIdentifier(o.identifier)
    ensures |r.identifier| <= |o.identifier|
    ensures o.identifier[|o.identifier| - |r.identifier|..] == r.identifier
  {
    Shown(DisplayIdentifier(m, o.identifier), o.confidence)
  }

  /** The completion handler of the classification request: "?" in both labels
      for no observations; otherwise the best observation on top and the
      runner-up, or "?" when there is none, below. */
  function ResultTexts(m: Model, obs: seq<Observation>): (r: (Text, Text))
    ensures r.0 == Unknown <==> |obs| == 0
    ensures r.1 == Unknown <==> |obs| <= 1
    ensures |obs| >= 1 ==>
              exists top :: && IsTopTwo(obs, top)
                            && r.0 == ShownAs(m, top[0])
                            && (|obs| >= 2 ==> r.1 == ShownAs(m, top[1]))
  {
    if |obs| == 0 then
      (Unknown, Unknown)
    else
      var sorted := TopTwo(obs);
      // `sortedResults.first` is present: there is at least one observation.
      var first := ShownAs(m, sorted[0]);
      var second :=
        match SafeGet(sorted, 1)
        case Some(o) => ShownAs(m, o)
        case None => Unknown;
      (first, second)
  }

  /** For ResNet50, VGG16 and NASNetMobile a shown result is literally one of
      the observations: raw identifier, its own confidence. */
  lemma OtherModelsShowRawObservations(m: Model, obs: seq<Observation>)
    requires m != MobileNet
    ensures var r := ResultTexts(m, obs);
            && (r.0.Shown? ==> Observation(r.0.identifier, r.0.confidence) in obs)
            && (r.1.Shown? ==> Observation(r.1.identifier, r.1.confidence) in obs)
  {
    var r := ResultTexts(m, obs);
    if |obs| >= 1 {
      var top :| && IsTopTwo(obs, top)
                 && r.0 == ShownAs(m, top[0])
                 && (|obs| >= 2 ==> r.1 == ShownAs(m, top[1]));
      if |obs| >= 2 {
        assert top[1] in multiset(obs);
      }
    }
  }

  /** For MobileNet a shown result is an observation whose identifier has had
      its class code removed. */
  lemma MobileNetShowsProcessedObservations(obs: seq<Observation>)
    ensures var r := ResultTexts(MobileNet, obs);
            && (r.0.Shown? ==>
                  exists o :: o in obs && r.0 == Shown(ProcessMobileNetIdentifier(o.identifier), o.confidence))
            && (r.1.Shown? ==>
                  exists o :: o in obs && r.1 == Shown(ProcessMobileNetIdentifier(o.identifier), o.confidence))
  {
    var r := ResultTexts(MobileNet, obs);
    if |obs| >= 1 {
      var top :| && IsTopTwo(obs, top)
                 && r.0 == ShownAs(MobileNet, top[0])
                 && (|obs| >= 2 ==> r.1 == ShownAs(MobileNet, top[1]));
      if |obs| >= 2 {
        assert top[1] in multiset(obs);
      }
    }
  }

  /** The shown confidences do not depend on the order of the observations;
      nor does which labels show "?". */
  lemma ResultTextsOrderIndependent(m: Model, a: seq<Observation>, b: seq<Observation>)
    requires multiset(a) == multiset(b)
    ensures var ra, rb := ResultTexts(m, a), ResultTexts(m, b);
            && (ra.0 == Unknown <==> rb.0 == Unknown)
            && (ra.1 == Unknown <==> rb.1 == Unknown)
            && (ra.0.Shown? ==> rb.0.Shown? && ra.0.confidence == rb.0.confidence)
            && (ra.1.Shown? ==> rb.1.Shown? && ra.1.confidence == rb.1.confidence)
  {
    assert |a| == |multiset(a)| == |multiset(b)| == |b|;
    var ra, rb := ResultTexts(m, a), ResultTexts(m, b);
    if |a| >= 1 {
      var ta :| && IsTopTwo(a, ta)
                && ra.0 == ShownAs(m, ta[0])
                && (|a| >= 2 ==> ra.1 == ShownAs(m, ta[1]));
      var tb :| && IsTopTwo(b, tb)
                && rb.0 == ShownAs(m, tb[0])
                && (|b| >= 2 ==> rb.1 == ShownAs(m, tb[1]));
      TopTwoConfidencesAgree(a, b, ta, tb);
    }
  }

  /** Confidences 20, 90 and 50 (in that arrival order) put the 90 on top and
      the 50 second. */
  lemma RankingExample()
    ensures ResultTexts(VGG16, [Observation("a", 20), Observation("b", 90), Observation("c", 50)])
            == (Shown("b", 90), Shown("c", 50))
  {
  }
}
