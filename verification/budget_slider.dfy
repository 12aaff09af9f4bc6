/**
 * The budget control of the wizard (src/components/ui/BudgetSlider.tsx): a
 * range input over [10 000, 500 000] whose raw value is rounded to a tiered
 * step, and a click-to-edit number field whose committed value is clamped
 * from below only.
 */
module BudgetSlider {

  import opened Nullable

  const Min: int := 10_000
  const Max: int := 500_000

  /** `stepFor`: the rounding granularity for a raw slider value, 5 000, 10 000 or 50 000. */
  function StepFor(v: int): (step: int)
    ensures step > 0 && step % 5_000 == 0
  {
    if v <= 50_000 then 5_000
    else if v <= 150_000 then 10_000
    else 50_000
  }

  /** A higher value never gets a finer step, and each tier's step divides the next one's. */
  lemma StepForTiers(v: int, w: int)
    requires v <= w
    ensures StepFor(v) <= StepFor(w) && StepFor(w) % StepFor(v) == 0
  {
  }

  /**
   * `Math.round(raw / step) * step`. `Math.round` rounds halves upwards, i.e.
   * it is floor(x + 1/2), which for a positive even step is
   * `(raw + step/2) div step` with floor division.
   */
  function RoundToStep(raw: int): (r: int)
    ensures r % StepFor(raw) == 0
    ensures raw - StepFor(raw) / 2 < r <= raw + StepFor(raw) / 2
  {
    var s := StepFor(raw);
    NearestMultiple(raw, s);
    (raw + s / 2) / s * s
  }

  /** The arithmetic behind `RoundToStep`, one step size at a time. */
  lemma NearestMultiple(raw: int, s: int)
    requires s == 5_000 || s == 10_000 || s == 50_000
    ensures ((raw + s / 2) / s * s) % s == 0
    ensures raw - s / 2 < (raw + s / 2) / s * s <= raw + s / 2
  {
    if s == 5_000 {
      NearestOf5000(raw);
    } else if s == 10_000 {
      NearestOf10000(raw);
    } else {
      NearestOf50000(raw);
    }
  }

  lemma NearestOf5000(raw: int)
    ensures var r := (raw + 2_500) / 5_000 * 5_000; r % 5_000 == 0 && raw - 2_500 < r <= raw + 2_500
  {
    var q := (raw + 2_500) / 5_000;
    assert q * 5_000 % 5_000 == 0;
  }

  lemma NearestOf10000(raw: int)
    ensures var r := (raw + 5_000) / 10_000 * 10_000; r % 10_000 == 0 && raw - 5_000 < r <= raw + 5_000
  {
    var q := (raw + 5_000) / 10_000;
    assert q * 10_000 % 10_000 == 0;
  }

  lemma NearestOf50000(raw: int)
    ensures var r := (raw + 25_000) / 50_000 * 50_000; r % 50_000 == 0 && raw - 25_000 < r <= raw + 25_000
  {
    var q := (raw + 25_000) / 50_000;
    assert q * 50_000 % 50_000 == 0;
  }

  /** Rounding a multiple of the step to that step gives it back, one step size at a time. */
  lemma FixedPoint(r: int, s: int)
    requires s == 5_000 || s == 10_000 || s == 50_000
    requires r % s == 0
    ensures (r + s / 2) / s * s == r
  {
    if s == 5_000 {
      assert (r + 2_500) / 5_000 == r / 5_000;
    } else if s == 10_000 {
      assert (r + 5_000) / 10_000 == r / 10_000;
    } else {
      assert (r + 25_000) / 50_000 == r / 50_000;
    }
  }

  /** Every rounded slider value is a multiple of 5 000. */
  lemma RoundIsMultipleOfFiveThousand(raw: int)
    ensures RoundToStep(raw) % 5_000 == 0
  {
    var r := RoundToStep(raw);
    if StepFor(raw) == 10_000 {
      assert r == r / 10_000 * 10_000;
    } else if StepFor(raw) == 50_000 {
      assert r == r / 50_000 * 50_000;
    }
  }

  /** A raw value inside the slider's range rounds to a value inside it. */
  lemma RoundStaysInRange(raw: int)
    requires Min <= raw <= Max
    ensures Min <= RoundToStep(raw) <= Max
  {
    RoundIsMultipleOfFiveThousand(raw);
  }

  /** Rounding never moves a value into a coarser tier than the one it was rounded in. */
  lemma RoundKeepsTier(raw: int)
    ensures StepFor(RoundToStep(raw)) <= StepFor(raw)
    ensures RoundToStep(raw) % StepFor(RoundToStep(raw)) == 0
  {
    var r := RoundToStep(raw);
    RoundIsMultipleOfFiveThousand(raw);
    if StepFor(raw) == 50_000 && StepFor(r) == 10_000 {
      assert r == r / 50_000 * 50_000;
    }
  }

  /** Rounding an already rounded value leaves it unchanged. */
  lemma RoundIdempotent(raw: int)
    ensures RoundToStep(RoundToStep(raw)) == RoundToStep(raw)
  {
    var r := RoundToStep(raw);
    RoundKeepsTier(raw);
    FixedPoint(r, StepFor(r));
  }

  /**
   * `Number(inputVal) || MIN`, then `if (v < MIN) v = MIN`: the value a typed
   * entry commits. `None` stands for an entry `Number` reads as NaN.
   */
  function CommittedValue(input: Option<int>): (v: int)
    ensures v >= Min
    ensures v == Min || input == Some(v)
    ensures input.Some? && input.value >= Min ==> v == input.value
  {
    var typed := if input.Some? && input.value != 0 then input.value else Min;
    if typed < Min then Min else typed
  }

  /** A typed value above the slider's ceiling is committed as typed. */
  lemma CommitAcceptsAboveMax(n: int)
    requires n > Max
    ensures CommittedValue(Some(n)) == n
  {
  }

  /**
   * One mounted control. `value` is the parent's budget, written through
   * `setValue`; `editing` and `inputVal` are the control's own state.
   */
  class Slider {
    var value: int
    var editing: bool
    var inputVal: Option<int>

    constructor (initial: int)
      ensures value == initial && !editing && inputVal == Some(initial)
    {
      value := initial;
      editing := false;
      inputVal := Some(initial);
    }

    /** `handleSlider`: the same rounded value goes to `setValue` and to `inputVal`. */
    method HandleSlider(raw: int)
      requires Min <= raw <= Max
      modifies this
      ensures value == RoundToStep(raw) && inputVal == Some(value)
      ensures Min <= value <= Max && value % 5_000 == 0
      ensures editing == old(editing)
    {
      var step := StepFor(raw);
      var rounded := (raw + step / 2) / step * step;
      value := rounded;
      inputVal := Some(rounded);
      RoundStaysInRange(raw);
      RoundIsMultipleOfFiveThousand(raw);
    }

    /** A click on the displayed amount opens the number field. */
    method StartEditing()
      modifies this
      ensures editing && value == old(value) && inputVal == old(inputVal)
    {
      editing := true;
    }

    /** Typing into the number field only replaces `inputVal`. */
    method InputChanged(typed: Option<int>)
      modifies this
      ensures inputVal == typed && value == old(value) && editing == old(editing)
    {
      inputVal := typed;
    }

    /** `commitInput` (blur or Enter): clamp from below, keep large values, stop editing. */
    method CommitInput()
      modifies this
      ensures value == CommittedValue(old(inputVal)) && value >= Min
      ensures !editing && inputVal == old(inputVal)
    {
      var v := if inputVal.Some? && inputVal.value != 0 then inputVal.value else Min;
      if v < Min {
        v := Min;
      }
      value := v;
      editing := false;
    }

    /** `Math.min(value, MAX)`: where the thumb sits; a larger stored value pins it at the end. */
    function Position(): (p: int)
      reads this
      ensures p <= Max
      ensures p == value || (value > Max && p == Max)
    {
      if value < Max then value else Max
    }
  }
}
