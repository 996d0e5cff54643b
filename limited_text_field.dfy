/**
 * ui/components/LimitedTextField.kt: a single-line text field that keeps at
 * most `maxLength` characters, shows a "<length> / <maxLength>" counter and
 * flags invalid input only once something has been typed.
 */
module LimitedTextField {
  import opened Util
  import opened KotlinText

  /** The field's text state, owned by the caller and edited by the field. */
  class TextField {
    var text: string
    const maxLength: nat

    ghost predicate Valid()
      reads this
    {
      |text| <= maxLength
    }

    /** The dialogs start every field empty. */
    constructor (maxLength: nat)
      ensures this.maxLength == maxLength && text == []
      ensures Valid()
    {
      this.maxLength := maxLength;
      text := [];
    }

    /** `onValueChange`: keep the first `maxLength` characters of the edit. */
    method OnValueChange(newText: string)
      modifies this
      ensures text == Take(newText, maxLength)
      ensures |text| == Min(|newText|, maxLength) && text == newText[..|text|]
      ensures |newText| <= maxLength ==> text == newText
      ensures Valid()
    {
      text := Take(newText, maxLength);
    }
  }

  /** `isError`: non-empty and invalid; an empty field is never shown as an error. */
  function IsError(text: string, isValid: bool): (error: bool)
    ensures text == [] ==> !error
    ensures isValid ==> !error
    ensures text != [] && !isValid ==> error
  {
    |text| > 0 && !isValid
  }

  /** The supporting text: the current length, " / ", the limit. */
  function Counter(text: string, maxLength: nat): (c: string)
    ensures var k := |DecimalString(|text|)|;
            && k + 3 <= |c| && c[..k] == DecimalString(|text|)
            && c[k..k + 3] == " / " && c[k + 3..] == DecimalString(maxLength)
  {
    DecimalString(|text|) + " / " + DecimalString(maxLength)
  }

  /** The counter splits at " / " into the text's length and the limit. */
  lemma CounterReadsBack(text: string, maxLength: nat)
    requires |text| <= MaxInt && maxLength <= MaxInt
    ensures var k := |DecimalString(|text|)|;
            var c := Counter(text, maxLength);
            k + 3 <= |c| && c[k..k + 3] == " / "
            && ParseInt(c[..k]) == Some(|text|)
            && ParseInt(c[k + 3..]) == Some(maxLength)
  {
    var length, limit := DecimalString(|text|), DecimalString(maxLength);
    var c := Counter(text, maxLength);
    assert c[..|length|] == length;
    assert c[|length| + 3..] == limit;
    DecimalStringRoundTrip(|text|);
    DecimalStringRoundTrip(maxLength);
  }

  /** The counter never shows a length above the limit once the field has been edited. */
  lemma CounterWithinLimit(field: TextField)
    requires field.Valid()
    ensures var k := |DecimalString(|field.text|)|;
            var c := Counter(field.text, field.maxLength);
            field.maxLength <= MaxInt ==>
              k + 3 <= |c| && ParseInt(c[..k]).Some? && ParseInt(c[..k]).value <= field.maxLength
  {
    if field.maxLength <= MaxInt {
      CounterReadsBack(field.text, field.maxLength);
    }
  }
}
