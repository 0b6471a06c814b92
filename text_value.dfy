/** The binding's text codec: it holds the last StringType it produced, or nothing. */
module TextValue {
  import opened Common

  class TextValue {
    /** `strValue`: null until a text is given or an update arrives. */
    var strValue: Option<State>

    /** `TextValue()`: no value yet. */
    constructor ()
      ensures strValue == None
    {
      strValue := None;
    }

    /** `TextValue(text)`: the value is the given text. */
    constructor WithText(text: string)
      ensures strValue == Some(StringType(text))
    {
      strValue := Some(StringType(text));
    }

    /** `getValue()`: the current value, None standing for null. */
    function GetValue(): Option<State>
      reads this
    {
      strValue
    }

    /** `update(s)`: store and return StringType(s). It never fails, whatever its signature
        declares: the returned state is always there. */
    method Update(updatedValue: string) returns (r: State)
      modifies this
      ensures r == StringType(updatedValue) && r.text == updatedValue
      ensures GetValue() == Some(r)
    {
      strValue := Some(StringType(updatedValue));
      r := strValue.value;
    }
  }

  /** A client of the class: the last of two updates wins, and a text given at construction
      is replaced by the first update. */
  method LastUpdateWins(first: string, second: string, initial: string) returns (v: Option<State>)
    ensures v == Some(StringType(second))
  {
    var t := new TextValue.WithText(initial);
    assert t.GetValue() == Some(StringType(initial));
    var r1 := t.Update(first);
    assert t.GetValue() == Some(StringType(first));
    var r2 := t.Update(second);
    v := t.GetValue();
  }

  method FreshTextValueIsEmpty() returns (v: Option<State>)
    ensures v == None
  {
    var t := new TextValue();
    v := t.GetValue();
  }
}
