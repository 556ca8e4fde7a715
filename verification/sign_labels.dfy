/**
 * The caption the overlay writes next to a detected sign, chosen from the
 * predicted label: 1 is a forward sign, 2 a turn sign, 3 a stop sign. Any
 * other value gets no caption.
 */
module SignLabels {

  datatype Option<T> = None | Some(value: T)

  /** A predicted label is one of the three trained categories. */
  predicate IsSignLabel(predicted: real)
  {
    predicted == 1.0 || predicted == 2.0 || predicted == 3.0
  }

  /** The caption for a predicted label, if it has one. */
  function SignText(predicted: real): Option<string>
  {
    if predicted == 1.0 then Some("Forward")
    else if predicted == 2.0 then Some("Turn")
    else if predicted == 3.0 then Some("Stop")
    else None
  }

  /**
   * A label gets a caption exactly when it is one of the three categories, and
   * different categories get different captions.
   */
  lemma SignTextDistinguishes(a: real, b: real)
    ensures SignText(a).Some? <==> IsSignLabel(a)
    ensures SignText(a).Some? && SignText(a) == SignText(b) ==> a == b
  {
  }
}
