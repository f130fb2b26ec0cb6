/** `GenderDetector`: the gender classifier's enablement and label choice around an opaque network. */
module Gender {
  import opened Numeric

  /** `GENDER_LIST`: the classifier's output classes, in the order of its scores. */
  const GenderList: seq<string> := ["Male", "Female"]

  /** The labels `predict_gender` can answer with. */
  predicate IsGenderLabel(answer: string)
  {
    answer == "Male" || answer == "Female" || answer == "Unknown" || answer == "Error"
  }

  /** The detector's state after construction: `enabled` and whether `net` was loaded. */
  datatype GenderDetector = GenderDetector(enabled: bool, hasNet: bool)

  /**
   * `GenderDetector.__init__`: gender detection stays enabled only when the
   * feature flag is on and both model files exist; the network is loaded
   * exactly then.
   */
  function NewGenderDetector(featureEnabled: bool, modelFilesExist: bool): (g: GenderDetector)
    ensures g.enabled <==> featureEnabled && modelFilesExist
    ensures g.hasNet <==> g.enabled
  {
    if featureEnabled && modelFilesExist then GenderDetector(true, true)
    else GenderDetector(false, false)
  }

  /** What the network's forward pass gave for one face: an exception, or the `preds` rows. */
  datatype Forward = Raised | Preds(rows: seq<seq<real>>)

  /**
   * `predict_gender`: `"Unknown"` when disabled or without a network,
   * `"Error"` when the forward pass or the label lookup raises (an empty
   * `preds`, an empty score row, an argmax past `GENDER_LIST`), and otherwise
   * `GENDER_LIST[argmax(preds[0])]`.
   */
  function PredictGender(g: GenderDetector, fwd: Forward): (answer: string)
    ensures IsGenderLabel(answer)
    ensures !g.enabled || !g.hasNet ==> answer == "Unknown"
    ensures g.enabled && g.hasNet ==> answer != "Unknown"
    ensures g.enabled && g.hasNet && fwd.Raised? ==> answer == "Error"
    // A usable network's first score row decides the label through its argmax, or the lookup fails.
    ensures g.enabled && g.hasNet && fwd.Preds? && (|fwd.rows| == 0 || |fwd.rows[0]| == 0) ==> answer == "Error"
    ensures g.enabled && g.hasNet && fwd.Preds? && |fwd.rows| > 0 && |fwd.rows[0]| > 0 ==>
              if ArgMax(fwd.rows[0]) < |GenderList| then answer == GenderList[ArgMax(fwd.rows[0])]
              else answer == "Error"
    ensures answer in GenderList ==>
              fwd.Preds? && |fwd.rows| > 0 && |fwd.rows[0]| > 0 &&
              ArgMax(fwd.rows[0]) < |GenderList| && answer == GenderList[ArgMax(fwd.rows[0])]
  {
    if !g.enabled || !g.hasNet then "Unknown"
    else
      match fwd
      case Raised => "Error"
      case Preds(rows) =>
        if |rows| == 0 || |rows[0]| == 0 then "Error"
        else
          var i := ArgMax(rows[0]);
          if i < |GenderList| then GenderList[i] else "Error"
  }

  /**
   * With a working two-class network the label is the higher-scoring class,
   * and a tie goes to "Male" (argmax takes the first maximum).
   */
  lemma TwoClassChoice(g: GenderDetector, male: real, female: real, rest: seq<seq<real>>)
    requires g.enabled && g.hasNet
    ensures PredictGender(g, Preds([[male, female]] + rest)) == (if male >= female then "Male" else "Female")
  {
  }
}
