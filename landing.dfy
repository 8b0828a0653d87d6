// The statistics strip of the landing page (src/app/page.tsx): each figure is
// shown in billions or millions to one decimal, followed by "B+" or "M+".
module Landing {
  import opened Numeric

  const Billion := 1_000_000_000
  const Million := 1_000_000

  /** `isBillion`. */
  predicate IsBillion(n: int) { n >= Billion }

  /** `formatNumber`: the figure in billions from one billion on, otherwise in
      millions, rounded to the nearest tenth (halves up): a whole number of
      tenths, the one nearest to ten times the figure. */
  function FormatNumber(n: int): (r: real)
    ensures IsBillion(n) ==> AbsReal(r - n as real / Billion as real) <= 0.05
    ensures !IsBillion(n) ==> AbsReal(r - n as real / Million as real) <= 0.05
    ensures n >= 0 ==> r >= 0.0
    ensures var x := if IsBillion(n) then n as real / Billion as real else n as real / Million as real;
      && (r * 10.0).Floor as real == r * 10.0
      && x * 10.0 - 0.5 < r * 10.0 <= x * 10.0 + 0.5
  {
    var x := if n >= Billion then n as real / Billion as real else n as real / Million as real;
    var m := RoundHalfUp(x * 10.0);
    assert (m as real / 10.0) * 10.0 == m as real;
    m as real / 10.0
  }

  /** The unit shown after the figure. */
  function Suffix(n: int): (s: string)
    ensures s == "B+" <==> IsBillion(n)
    ensures s == "M+" <==> !IsBillion(n)
  {
    if IsBillion(n) then "B+" else "M+"
  }

  /** Within one unit a larger figure never shows a smaller number. */
  lemma FormatNumberMonotone(a: int, b: int)
    requires a <= b && IsBillion(a) == IsBillion(b)
    ensures FormatNumber(a) <= FormatNumber(b)
  {
    if IsBillion(a) {
      RoundHalfUpMonotone((a as real / Billion as real) * 10.0, (b as real / Billion as real) * 10.0);
    } else {
      RoundHalfUpMonotone((a as real / Million as real) * 10.0, (b as real / Million as real) * 10.0);
    }
  }

  /** A whole number of tenths of the unit is shown exactly. */
  lemma FormatNumberOfTenths(k: nat)
    ensures FormatNumber(k * 100_000_000 + Billion) == (k + 10) as real / 10.0
    ensures k < 10_000 ==> FormatNumber(k * 100_000) == k as real / 10.0
  {
    RoundHalfUpOfInt(k + 10);
    assert ((k * 100_000_000 + Billion) as real / Billion as real) * 10.0 == (k + 10) as real;
    RoundHalfUpOfInt(k);
    assert ((k * 100_000) as real / Million as real) * 10.0 == k as real;
  }

  /** The five figures of the strip read 1.1 B+, 332 M+, 0.7 M+, 1 M+ and
      910 M+. */
  lemma StatsDisplay()
    ensures FormatNumber(1_100_000_000) == 1.1 && Suffix(1_100_000_000) == "B+"
    ensures FormatNumber(332_000_000) == 332.0 && Suffix(332_000_000) == "M+"
    ensures FormatNumber(727_000) == 0.7 && Suffix(727_000) == "M+"
    ensures FormatNumber(1_000_000) == 1.0 && Suffix(1_000_000) == "M+"
    ensures FormatNumber(910_000_000) == 910.0 && Suffix(910_000_000) == "M+"
  {
    FormatNumberOfTenths(1);
    FormatNumberOfTenths(3320);
    FormatNumberOfTenths(10);
    FormatNumberOfTenths(9100);
  }

  /** Just under a billion the figure already reads 1000 millions. */
  lemma JustUnderBillion()
    ensures FormatNumber(999_999_999) == 1000.0 && Suffix(999_999_999) == "M+"
  {
  }
}
