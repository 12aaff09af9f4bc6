/**
 * The period menus (src/components/steps/PeriodStep.tsx): a fixed list of
 * twelve month codes and a five-year window starting at the current year.
 * Each menu reports its choice through its own callback; the wizard maps
 * the four callbacks to the four period fields (see `Wizard.FieldEdit`).
 */
module PeriodStep {

  datatype MonthOption = MonthOption(value: string, caption: string)

  const Months: seq<MonthOption> := [
    MonthOption("01", "Janeiro"), MonthOption("02", "Fevereiro"), MonthOption("03", "Março"),
    MonthOption("04", "Abril"), MonthOption("05", "Maio"), MonthOption("06", "Junho"),
    MonthOption("07", "Julho"), MonthOption("08", "Agosto"), MonthOption("09", "Setembro"),
    MonthOption("10", "Outubro"), MonthOption("11", "Novembro"), MonthOption("12", "Dezembro")
  ]

  predicate IsDigit(c: char) {
    '0' <= c <= '9'
  }

  function DigitValue(c: char): int
    requires IsDigit(c)
  {
    c as int - '0' as int
  }

  predicate AllDigits(s: string) {
    forall i :: 0 <= i < |s| ==> IsDigit(s[i])
  }

  /** The number a string of decimal digits denotes. */
  function DecimalValue(s: string): nat
    requires AllDigits(s)
  {
    if s == [] then 0 else 10 * DecimalValue(s[..|s| - 1]) + DigitValue(s[|s| - 1])
  }

  /** The twelve month codes are two-digit strings denoting 1 to 12, in order. */
  lemma MonthCodes()
    ensures |Months| == 12
    ensures forall i :: 0 <= i < 12 ==> |Months[i].value| == 2 && AllDigits(Months[i].value)
    ensures forall i :: 0 <= i < 12 ==> DecimalValue(Months[i].value) == i + 1
  {
    forall i | 0 <= i < 12
      ensures |Months[i].value| == 2 && AllDigits(Months[i].value)
      ensures DecimalValue(Months[i].value) == i + 1
    {
      var v := Months[i].value;
      assert v[..1] == [v[0]];
      assert DecimalValue(v[..1]) == DigitValue(v[0]) by {
        assert v[..1][..0] == [];
      }
    }
  }

  /** `Array.from({ length: 5 }, (_, i) => currentYear + i)`; the clock is a parameter. */
  function Years(currentYear: nat): (years: seq<nat>)
    ensures |years| == 5 && years[0] == currentYear
    ensures forall i :: 0 < i < |years| ==> years[i] == years[i - 1] + 1
  {
    seq(5, i requires 0 <= i < 5 => currentYear + i)
  }

  /** `year.toString()` for a non-negative year: decimal digits, no leading zero. */
  function DecimalString(n: nat): (s: string)
    ensures |s| >= 1 && AllDigits(s)
    ensures n >= 10 ==> s[0] != '0'
    decreases n
  {
    var d := ['0' + (n % 10) as char];
    if n < 10 then d else DecimalString(n / 10) + d
  }

  /** Reading the digits back gives the year: the menu value names the year shown. */
  lemma {:induction false} DecimalStringRoundTrip(n: nat)
    ensures DecimalValue(DecimalString(n)) == n
    decreases n
  {
    var s := DecimalString(n);
    if n >= 10 {
      DecimalStringRoundTrip(n / 10);
      assert s[..|s| - 1] == DecimalString(n / 10);
    }
  }

  /** Every year of a four-digit window is written with exactly four digits. */
  lemma {:induction false} FourDigitYear(n: nat)
    requires 1000 <= n <= 9999
    ensures |DecimalString(n)| == 4
  {
    var c := n / 10;
    var b := c / 10;
    var a := b / 10;
    assert 1 <= a <= 9 && 10 <= b && 100 <= c;
    assert |DecimalString(a)| == 1;
    assert |DecimalString(b)| == |DecimalString(a)| + 1;
    assert |DecimalString(c)| == |DecimalString(b)| + 1;
    assert |DecimalString(n)| == |DecimalString(c)| + 1;
  }
}
