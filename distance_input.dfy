/**
 * The distance field of components/distance-input.tsx: a change of the text is accepted
 * when it is one or more ASCII digits (`/^\d+$/`) or empty, and ignored otherwise.
 */
module DistanceInput {

  /** `/^\d+$/`: one or more of the characters '0' to '9', and nothing else. */
  predicate IsDigitString(s: string) {
    |s| > 0 && forall i :: 0 <= i < |s| ==> '0' <= s[i] <= '9'
  }

  /** What the field may hold: nothing yet, or a whole number of kilometres. */
  predicate EmptyOrDigits(s: string) {
    s == "" || IsDigitString(s)
  }

  /** The distance after `onChangeText(text)`. */
  function NextDistance(distance: string, text: string): (r: string)
    ensures EmptyOrDigits(text) ==> r == text
    ensures !EmptyOrDigits(text) ==> r == distance
  {
    if IsDigitString(text) then text
    else if text == "" then ""
    else distance
  }

  /** A field that holds nothing or digits still does after any change. */
  lemma DistanceStaysNumeric(distance: string, text: string)
    requires EmptyOrDigits(distance)
    ensures EmptyOrDigits(NextDistance(distance, text))
  {
  }

  /** The same change applied twice has the effect of applying it once. */
  lemma ChangeIdempotent(distance: string, text: string)
    ensures NextDistance(NextDistance(distance, text), text) == NextDistance(distance, text)
  {
  }

  /** The parent's distance state, as the input component updates it through setDistance. */
  class DistanceField {
    var distance: string

    predicate Valid()
      reads this
    {
      EmptyOrDigits(distance)
    }

    constructor ()
      ensures distance == "" && Valid()
    {
      distance := "";
    }

    method OnChangeText(text: string)
      requires Valid()
      modifies this
      ensures Valid()
      ensures distance == NextDistance(old(distance), text)
    {
      if IsDigitString(text) {
        distance := text;
      } else if text == "" {
        distance := "";
      }
      DistanceStaysNumeric(old(distance), text);
    }
  }
}
