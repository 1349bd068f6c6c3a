/** The scoreboard strings the scene builds each frame from its counters. */
module Labels {

  function Digit(d: nat): char
    requires d < 10
  {
    "0123456789"[d]
  }

  /** The decimal digits of `n`, most significant first, as JavaScript
      writes a non-negative integer. */
  function Decimal(n: nat): (s: string)
    ensures |s| >= 1
    ensures forall k :: 0 <= k < |s| ==> '0' <= s[k] <= '9'
    ensures |s| > 1 ==> s[0] != '0'
  {
    if n < 10 then [Digit(n)] else Decimal(n / 10) + [Digit(n % 10)]
  }

  /** How JavaScript writes an integer. */
  function IntString(n: int): string
  {
    if n < 0 then "-" + Decimal(-n) else Decimal(n)
  }

  /** The value of a string of decimal digits. */
  function ParseDecimal(s: string): nat
    requires forall k :: 0 <= k < |s| ==> '0' <= s[k] <= '9'
  {
    if s == [] then 0 else 10 * ParseDecimal(s[..|s| - 1]) + (s[|s| - 1] - '0') as nat
  }

  /** Reading the digits back gives the number. */
  lemma {:induction false} ParseDecimalOfDecimal(n: nat)
    ensures ParseDecimal(Decimal(n)) == n
  {
    var s := Decimal(n);
    if n < 10 {
      DigitValue(n);
      assert s[..0] == [];
    } else {
      var q, d := n / 10, n % 10;
      ParseDecimalOfDecimal(q);
      DigitValue(d);
      assert s == Decimal(q) + [Digit(d)];
      assert s[..|s| - 1] == Decimal(q);
      assert ParseDecimal(s) == 10 * q + d;
    }
  }

  lemma DigitValue(d: nat)
    requires d < 10
    ensures (Digit(d) - '0') as nat == d
  {
  }

  /** Different numbers are written differently. */
  lemma DecimalInjective(m: nat, n: nat)
    requires Decimal(m) == Decimal(n)
    ensures m == n
  {
    ParseDecimalOfDecimal(m);
    ParseDecimalOfDecimal(n);
  }

  /** A number below 100 takes at most two digits. */
  lemma ShortDecimal(n: nat)
    requires n < 100
    ensures |Decimal(n)| <= 2
  {
  }

  const Plural := " Pitches Left!"
  const Singular := " Pitch Left!"

  /** The pitch-count label for a counter value: the counter and the plural,
      except for 1 (singular) and -1 (shown as 0). */
  function PitchLabel(counter: int): string
  {
    if counter == 1 then IntString(counter) + Singular
    else if counter == -1 then "0" + Plural
    else IntString(counter) + Plural
  }

  /** The count the label shows for a counter that has not gone below -1. */
  function Shown(counter: int): nat
    requires counter >= -1
  {
    if counter < 0 then 0 else counter
  }

  /** For every counter the scene can hold, the label is the shown count
      (the counter, with -1 shown as 0) followed by the singular for 1 and
      the plural otherwise; no minus sign ever appears. */
  lemma PitchLabelShows(counter: int)
    requires counter >= -1
    ensures PitchLabel(counter) == Decimal(Shown(counter)) + (if Shown(counter) == 1 then Singular else Plural)
    ensures '-' !in PitchLabel(counter)
  {
    assert Decimal(0) == "0";
    var text := PitchLabel(counter);
    var digits := Decimal(Shown(counter));
    assert forall k :: 0 <= k < |digits| ==> text[k] == digits[k];
  }

  /** From the label one can read the shown count back. */
  lemma PitchLabelRecoversCount(c1: int, c2: int)
    requires c1 >= -1 && c2 >= -1
    requires PitchLabel(c1) == PitchLabel(c2)
    ensures Shown(c1) == Shown(c2)
  {
    PitchLabelShows(c1);
    PitchLabelShows(c2);
    var d1, d2 := Decimal(Shown(c1)), Decimal(Shown(c2));
    var text := PitchLabel(c1);
    if Shown(c1) != 1 && Shown(c2) != 1 {
      assert d1 == text[..|text| - |Plural|] == d2;
      DecimalInjective(Shown(c1), Shown(c2));
    }
  }

  /** Every label a session can show fits the 30-place text line. */
  lemma PitchLabelFits(counter: int)
    requires -1 <= counter <= 20
    ensures |PitchLabel(counter)| <= 30
  {
    PitchLabelShows(counter);
    ShortDecimal(Shown(counter));
  }

  /** The score and target labels. */
  function ScoreLabel(score: int): string
  {
    "Score: " + IntString(score)
  }

  function TargetLabel(target: int): string
  {
    "Target: " + IntString(target)
  }

  /** The score and target a session can hold are read back from their
      labels. */
  lemma LabelsReadBack(score: nat, target: nat)
    ensures |ScoreLabel(score)| > 7 && ScoreLabel(score)[..7] == "Score: "
    ensures ParseDecimal(ScoreLabel(score)[7..]) == score
    ensures |TargetLabel(target)| > 8 && TargetLabel(target)[..8] == "Target: "
    ensures ParseDecimal(TargetLabel(target)[8..]) == target
  {
    assert ScoreLabel(score)[7..] == Decimal(score);
    assert TargetLabel(target)[8..] == Decimal(target);
    ParseDecimalOfDecimal(score);
    ParseDecimalOfDecimal(target);
  }
}
