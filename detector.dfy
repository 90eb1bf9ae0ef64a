/**
 * `EmotionDetector.frame_emotion`: the score dictionary built from the
 * face/emotion library's output for one frame. The library itself is an
 * oracle: whether a face was found, and the per-face prediction vectors.
 */
module Detector {
  import opened Options
  import opened Scores
  import Resolver

  /** `self.emotions`: the key order of every dictionary frame_emotion returns. */
  const Emotions: seq<string> :=
    ["anger", "disgust", "fear", "happiness", "sadness", "surprise", "neutral"]

  /**
   * What the library reports for one frame: whether `detect_faces` found a
   * face in it, and the emotion predictions of its faces (`face_prediction[0]`),
   * the first face first.
   */
  datatype Detection = Detection(faceFound: bool, predictions: seq<seq<real>>)

  /** The library's contract: with a face there is a first prediction of at least 7 scores. */
  predicate WellFormed(d: Detection)
  {
    d.faceFound ==> |d.predictions| >= 1 && |d.predictions[0]| >= |Emotions|
  }

  lemma EmotionsDistinct()
    ensures forall i, j :: 0 <= i < j < |Emotions| ==> Emotions[i] != Emotions[j]
  {
  }

  /**
   * The score dictionary of a frame: the seven emotions in the fixed order,
   * scored by the first face's prediction, or all 0 when no face was found.
   */
  function FrameEmotion(d: Detection): (m: ScoreMap)
    requires WellFormed(d)
    ensures |m| == |Emotions| && forall i :: 0 <= i < |m| ==> m[i].key == Emotions[i]
    ensures DistinctKeys(m)
    ensures !d.faceFound ==> forall i :: 0 <= i < |m| ==> m[i].score == 0.0
    ensures d.faceFound ==> forall i :: 0 <= i < |m| ==> m[i].score == d.predictions[0][i]
  {
    EmotionsDistinct();
    if d.faceFound then
      seq(|Emotions|, i requires 0 <= i < |Emotions| => Entry(Emotions[i], d.predictions[0][i]))
    else
      seq(|Emotions|, i requires 0 <= i < |Emotions| => Entry(Emotions[i], 0.0))
  }

  /** A frame's dictionary always has exactly seven entries, keyed by the emotions in order. */
  lemma FrameEmotionSize(d: Detection)
    requires WellFormed(d)
    ensures |FrameEmotion(d)| == 7
    ensures Keys(FrameEmotion(d)) == Emotions
  {
    var m := FrameEmotion(d);
    assert forall i :: 0 <= i < 7 ==> Keys(m)[i] == Emotions[i];
  }

  /** A frame without a face resolves to "neutral". */
  lemma NoFaceResolvesNeutral(d: Detection)
    requires WellFormed(d) && !d.faceFound
    ensures Resolver.Resolve(FrameEmotion(d)) == Some(Resolver.Neutral)
  {
    FrameEmotionSize(d);
    Resolver.AllZeroIsNeutral(FrameEmotion(d));
  }

  /** Only the first face counts: faces after it do not change the dictionary. */
  lemma OtherFacesIgnored(d: Detection, e: Detection)
    requires WellFormed(d) && WellFormed(e) && d.faceFound && e.faceFound
    requires d.predictions[0] == e.predictions[0]
    ensures FrameEmotion(d) == FrameEmotion(e)
  {
  }

  /**
   * With a face, the label is the earliest emotion, in the fixed order,
   * whose score is the largest, unless that largest score is 0.
   */
  lemma FaceResolvesToEarliestMax(d: Detection, k: nat)
    requires WellFormed(d) && d.faceFound && k < |Emotions|
    requires forall j :: 0 <= j < |Emotions| ==> d.predictions[0][j] <= d.predictions[0][k]
    requires forall j :: 0 <= j < k ==> d.predictions[0][j] < d.predictions[0][k]
    ensures Resolver.Resolve(FrameEmotion(d))
      == Some(if d.predictions[0][k] == 0.0 then Resolver.Neutral else Emotions[k])
  {
    var m := FrameEmotion(d);
    FrameEmotionSize(d);
    assert m[k].key == Keys(m)[k];
    Resolver.ResolveFirstMax(m, k);
  }
}
