/** The channel-count control of the windowed sender (`NumericControl`):
    a text field between a "-" and a "+" button, kept within
    [minValue, maxValue].

    The text field is abstracted to what `int(text)` makes of it: a number,
    or text that is not one (for which `int` raises `ValueError`). Writing
    the field with `SetValue` fires the text-change handler again, so every
    write of the field is followed by `on_text_change`. `SetText` models
    that, and the control assumes `minValue <= maxValue`: with the bounds
    the other way round the handlers would keep re-firing each other. */
module NumericInput {
  import opened Wrappers

  /** What `int(self.text_ctrl.GetValue())` makes of the field. */
  datatype Text = Number(value: int) | NotANumber

  predicate InRange(t: Text, lo: int, hi: int)
  {
    t.Number? && lo <= t.value <= hi
  }

  function Dist(a: int, b: int): nat
  {
    if a <= b then b - a else a - b
  }

  /** `on_text_change` (lines 373-384): text that is not a number becomes
      the lower bound; a number outside the bounds becomes the nearest
      bound; anything else is kept. */
  function TextChanged(t: Text, lo: int, hi: int): (r: Text)
    requires lo <= hi
    ensures InRange(r, lo, hi)
    ensures t.NotANumber? ==> r == Number(lo)
    ensures InRange(t, lo, hi) ==> r == t
    ensures t.Number? ==> forall v :: lo <= v <= hi ==> Dist(r.value, t.value) <= Dist(v, t.value)
  {
    match t
    case NotANumber => Number(lo)
    case Number(v) => if v < lo then Number(lo) else if v > hi then Number(hi) else t
  }

  /** `on_decrease` (lines 359-364), followed by the text-change handler
      its write fires. Text that is not a number makes `int` raise, and
      nothing changes. */
  function Decreased(t: Text, lo: int, hi: int): (r: Text)
    requires lo <= hi
    ensures t.NotANumber? ==> r == t
    ensures InRange(t, lo, hi) ==> r == if t.value > lo then Number(t.value - 1) else t
    ensures InRange(t, lo, hi) ==> InRange(r, lo, hi)
  {
    match t
    case NotANumber => t
    case Number(v) => if v > lo then TextChanged(Number(v - 1), lo, hi) else t
  }

  /** `on_increase` (lines 366-371), followed by the text-change handler
      its write fires. */
  function Increased(t: Text, lo: int, hi: int): (r: Text)
    requires lo <= hi
    ensures t.NotANumber? ==> r == t
    ensures InRange(t, lo, hi) ==> r == if t.value < hi then Number(t.value + 1) else t
    ensures InRange(t, lo, hi) ==> InRange(r, lo, hi)
  {
    match t
    case NotANumber => t
    case Number(v) => if v < hi then TextChanged(Number(v + 1), lo, hi) else t
  }

  /** `SetValue(value)` (lines 390-393): a value outside the bounds is
      ignored. */
  function ValueSet(t: Text, v: int, lo: int, hi: int): (r: Text)
    requires lo <= hi
    ensures lo <= v <= hi ==> r == Number(v)
    ensures !(lo <= v <= hi) ==> r == t
  {
    if lo <= v <= hi then TextChanged(Number(v), lo, hi) else t
  }

  /** The handler re-fired by its own write changes nothing. */
  lemma TextChangedIdempotent(t: Text, lo: int, hi: int)
    requires lo <= hi
    ensures TextChanged(TextChanged(t, lo, hi), lo, hi) == TextChanged(t, lo, hi)
  {
  }

  /** Between the bounds, "+" then "-" gives the value back, and so does
      "-" then "+". */
  lemma StepsUndo(t: Text, lo: int, hi: int)
    requires lo <= hi && InRange(t, lo, hi)
    ensures t.value < hi ==> Decreased(Increased(t, lo, hi), lo, hi) == t
    ensures t.value > lo ==> Increased(Decreased(t, lo, hi), lo, hi) == t
  {
  }

  class NumericControl {
    var minValue: int
    var maxValue: int
    var text: Text

    predicate Valid()
      reads this
    {
      minValue <= maxValue && InRange(text, minValue, maxValue)
    }

    /** `NumericControl(parent, value, min_value, max_value)` (lines
        327-330, 347): the field starts as `str(value)`, unchecked. */
    constructor (value: int, minValue: int, maxValue: int)
      requires minValue <= maxValue
      ensures this.minValue == minValue && this.maxValue == maxValue
      ensures text == Number(value)
      ensures minValue <= value <= maxValue ==> Valid()
    {
      this.minValue := minValue;
      this.maxValue := maxValue;
      text := Number(value);
    }

    /** `text_ctrl.SetValue(...)`: write the field, then run the text-change
        handler the write fires. */
    method SetText(t: Text)
      requires minValue <= maxValue
      modifies this`text
      ensures text == TextChanged(t, minValue, maxValue)
      ensures Valid()
    {
      text := t;
      OnTextChange();
    }

    /** `on_text_change`: the user has edited the field. */
    method OnTextChange()
      requires minValue <= maxValue
      modifies this`text
      ensures text == TextChanged(old(text), minValue, maxValue)
      ensures Valid()
    {
      match text {
        case NotANumber =>
          text := Number(minValue);
        case Number(value) =>
          if value < minValue {
            text := Number(minValue);
          } else if value > maxValue {
            text := Number(maxValue);
          }
      }
    }

    method OnDecrease()
      requires minValue <= maxValue
      modifies this`text
      ensures text == Decreased(old(text), minValue, maxValue)
      ensures old(Valid()) ==> Valid()
    {
      match text {
        case NotANumber =>
        case Number(value) =>
          if value > minValue {
            SetText(Number(value - 1));
          }
      }
    }

    method OnIncrease()
      requires minValue <= maxValue
      modifies this`text
      ensures text == Increased(old(text), minValue, maxValue)
      ensures old(Valid()) ==> Valid()
    {
      match text {
        case NotANumber =>
        case Number(value) =>
          if value < maxValue {
            SetText(Number(value + 1));
          }
      }
    }

    /** `GetValue` (lines 386-388): `int` of the field, which raises on text
        that is not a number. */
    method GetValue() returns (r: Option<int>)
      ensures r.Some? <==> text.Number?
      ensures r.Some? ==> r.value == text.value
      ensures Valid() ==> r.Some? && minValue <= r.value <= maxValue
    {
      r := if text.Number? then Some(text.value) else None;
    }

    method SetValue(value: int)
      requires minValue <= maxValue
      modifies this`text
      ensures text == ValueSet(old(text), value, minValue, maxValue)
      ensures old(Valid()) ==> Valid()
    {
      if minValue <= value <= maxValue {
        SetText(Number(value));
      }
    }
  }
}
