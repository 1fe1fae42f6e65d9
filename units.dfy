/** The unit choice of human_readable (main.py): which unit a byte count is
    shown in and by what it is divided. The "%.1f" rendering is not modelled. */
module Units {

  datatype Unit = GB | MB | KB | B

  /** A unit together with the number the count is divided by before it is shown. */
  datatype Scale = Scale(unit: Unit, divisor: nat)

  /** The divisor each unit is printed with. */
  function DivisorOf(u: Unit): (d: nat)
    ensures d >= 1
  {
    match u
    case GB => 1_000_000_000
    case MB => 1_000_000
    case KB => 1000
    case B => 1
  }

  /** human_readable as written: the megabyte test compares with 1000 * 2,
      so every count above 2000 bytes and up to 10^9 is shown in megabytes. */
  function HumanReadable(num: nat): (s: Scale)
    ensures s.divisor == DivisorOf(s.unit)
    ensures s.unit == GB <==> num > 1_000_000_000
    ensures s.unit == MB <==> 2000 < num <= 1_000_000_000
    ensures s.unit == KB <==> 1000 < num <= 2000
    ensures s.unit == B <==> num <= 1000
  {
    if num > 1000 * 1000 * 1000 then Scale(GB, 1000 * 1000 * 1000)
    else if num > 1000 * 2 then Scale(MB, 1000 * 1000)
    else if num > 1000 then Scale(KB, 1000)
    else Scale(B, 1)
  }

  /** The unit choice with the megabyte threshold at 1000 ** 2, as the
      divisor used on the same line shows was meant. */
  function HumanReadableIntended(num: nat): (s: Scale)
    ensures s.divisor == DivisorOf(s.unit)
    ensures s.unit == GB <==> num > 1_000_000_000
    ensures s.unit == MB <==> 1_000_000 < num <= 1_000_000_000
    ensures s.unit == KB <==> 1000 < num <= 1_000_000
    ensures s.unit == B <==> num <= 1000
  {
    if num > 1000 * 1000 * 1000 then Scale(GB, 1000 * 1000 * 1000)
    else if num > 1000 * 1000 then Scale(MB, 1000 * 1000)
    else if num > 1000 then Scale(KB, 1000)
    else Scale(B, 1)
  }

  /** With the intended threshold every count above 1000 bytes is shown as
      a number above 1, and every count below a gigabyte as at most 1000. */
  lemma IntendedScaleInRange(num: nat)
    ensures HumanReadableIntended(num).unit != B ==> HumanReadableIntended(num).divisor < num
    ensures HumanReadableIntended(num).unit != GB ==> num <= 1000 * HumanReadableIntended(num).divisor
  {
  }

  /** As written, every count strictly between 2000 and 10^6 bytes is shown
      in megabytes as a number below 1 (5000 bytes is printed "0.0 MB"),
      where the intended rule shows it in kilobytes. */
  lemma AsWrittenShowsFractionOfMegabyte(num: nat)
    requires 2000 < num < 1_000_000
    ensures HumanReadable(num) == Scale(MB, 1_000_000)
    ensures num < HumanReadable(num).divisor
    ensures HumanReadableIntended(num) == Scale(KB, 1000)
  {
  }

  /** The two rules agree outside that band. */
  lemma AsWrittenAgreesOutsideBand(num: nat)
    requires num <= 2000 || num > 1_000_000
    ensures HumanReadable(num) == HumanReadableIntended(num)
  {
  }
}
