/**
 * The two pieces of text the widget derives from numbers: the unread badge
 * (`updateBadge`, public/widget.js) and the human-readable size of a staged file
 * (`formatFileSize`).
 */
module Format {
  import opened JsString

  const KiB: nat := 1024
  const MiB: nat := 1024 * 1024

  /** The badge text for a positive unread count: the count itself, capped at "9+". */
  function BadgeLabel(count: int): string
    requires count > 0
  {
    if count > 9 then "9+" else DecimalString(count)
  }

  /** The badge reads "9+" exactly above nine; below, it is the count's one digit. */
  lemma BadgeLabelSpec(count: int)
    requires count > 0
    ensures BadgeLabel(count) == "9+" <==> count > 9
    ensures count <= 9 ==>
      |BadgeLabel(count)| == 1 && AllDigits(BadgeLabel(count)) && ParseDecimal(BadgeLabel(count)) == count
  {
    ParseDecimalString(count);
  }

  /** Below the cap the badge tells every count apart; from 10 on it shows one text. */
  lemma BadgeLabelDistinguishesBelowCap(m: int, n: int)
    requires 0 < m && 0 < n
    ensures m <= 9 && n <= 9 ==> (BadgeLabel(m) == BadgeLabel(n) <==> m == n)
    ensures m > 9 && n > 9 ==> BadgeLabel(m) == BadgeLabel(n)
  {
    BadgeLabelSpec(m);
    BadgeLabelSpec(n);
  }

  datatype SizeUnit = Bytes | Kilobytes | Megabytes

  /** The unit `formatFileSize` picks: bytes below 1 KiB, KB below 1 MiB, else MB. */
  function SizeUnitOf(bytes: nat): (u: SizeUnit)
    ensures u == Bytes <==> bytes < KiB
    ensures u == Megabytes <==> bytes >= MiB
  {
    if bytes < KiB then Bytes else if bytes < MiB then Kilobytes else Megabytes
  }

  function Rank(u: SizeUnit): nat
  {
    match u
    case Bytes => 0
    case Kilobytes => 1
    case Megabytes => 2
  }

  /** A larger file never gets a smaller unit. */
  lemma SizeUnitMonotone(a: nat, b: nat)
    requires a <= b
    ensures Rank(SizeUnitOf(a)) <= Rank(SizeUnitOf(b))
  {
  }

  function Scale(u: SizeUnit): (s: nat)
    ensures s > 0
  {
    match u
    case Bytes => 1
    case Kilobytes => KiB
    case Megabytes => MiB
  }

  function Suffix(u: SizeUnit): string
  {
    match u
    case Bytes => " B"
    case Kilobytes => " KB"
    case Megabytes => " MB"
  }

  /**
   * `n / 10` is the one-decimal value `toFixed(1)` prints for `bytes / scale`: the
   * nearest tenth, the larger one on a tie.
   */
  predicate NearestTenth(n: nat, bytes: nat, scale: nat)
  {
    (2 * n - 1) * scale <= 20 * bytes < (2 * n + 1) * scale
  }

  /**
   * The tenths `toFixed(1)` chooses for `bytes / scale`. Dividing by a power of two
   * is exact in binary64 for every file size below 2^53, so the rounding is the
   * one of the exact quotient.
   */
  function Tenths(bytes: nat, scale: nat): nat
    requires scale == KiB || scale == MiB
  {
    (20 * bytes + scale) / (2 * scale)
  }

  lemma TenthsNearest(bytes: nat, scale: nat)
    requires scale == KiB || scale == MiB
    ensures NearestTenth(Tenths(bytes, scale), bytes, scale)
  {
  }

  /** `toFixed(1)` of a value whose tenths are `n`: integer digits, a point, one digit. */
  function FixedOne(n: nat): string
  {
    DecimalString(n / 10) + "." + [Digit(n % 10)]
  }

  /**
   * The `FixedOne` text has the shape "<digits>.<digit>", its integer part without a
   * leading zero, and reads back as `n` tenths.
   */
  lemma FixedOneDecodes(n: nat)
    ensures var r := FixedOne(n);
      |r| >= 3 && r[|r| - 2] == '.' && AllDigits(r[..|r| - 2]) && IsDigit(r[|r| - 1]) &&
      (|r| > 3 ==> r[0] != '0') &&
      10 * ParseDecimal(r[..|r| - 2]) + DigitValue(r[|r| - 1]) == n
  {
    var r := FixedOne(n);
    assert r[..|r| - 2] == DecimalString(n / 10);
    ParseDecimalString(n / 10);
  }

  /** Reads the number back from a `FixedOne` text, in tenths. */
  function DecodeFixedOne(r: string): nat
    requires |r| >= 3 && AllDigits(r[..|r| - 2]) && IsDigit(r[|r| - 1])
  {
    10 * ParseDecimal(r[..|r| - 2]) + DigitValue(r[|r| - 1])
  }

  /**
   * `formatFileSize(bytes)`: the exact count with " B" below 1 KiB; otherwise the
   * size in KB or MB rounded to one decimal.
   */
  function FormatFileSize(bytes: nat): string
  {
    var u := SizeUnitOf(bytes);
    (if u == Bytes then DecimalString(bytes) else FixedOne(Tenths(bytes, Scale(u)))) + Suffix(u)
  }

  /**
   * The label ends with the unit's suffix, and the number before it reads back as
   * the exact byte count (bytes) or as the nearest tenth of the size (KB, MB).
   */
  lemma FileSizeLabelDecodes(bytes: nat)
    ensures var r, u := FormatFileSize(bytes), SizeUnitOf(bytes);
      |Suffix(u)| < |r| && r[|r| - |Suffix(u)|..] == Suffix(u)
    ensures var r, u := FormatFileSize(bytes), SizeUnitOf(bytes);
      var num := r[..|r| - |Suffix(u)|];
      u == Bytes ==>
        |num| >= 1 && AllDigits(num) && (|num| > 1 ==> num[0] != '0') && ParseDecimal(num) == bytes
    ensures var r, u := FormatFileSize(bytes), SizeUnitOf(bytes);
      var num := r[..|r| - |Suffix(u)|];
      u != Bytes ==>
        |num| >= 3 && num[|num| - 2] == '.' &&
        AllDigits(num[..|num| - 2]) && (|num| > 3 ==> num[0] != '0') && IsDigit(num[|num| - 1]) &&
        NearestTenth(DecodeFixedOne(num), bytes, Scale(u))
  {
    var r, u := FormatFileSize(bytes), SizeUnitOf(bytes);
    var num := if u == Bytes then DecimalString(bytes) else FixedOne(Tenths(bytes, Scale(u)));
    ParseDecimalString(bytes);
    if u != Bytes {
      TenthsNearest(bytes, Scale(u));
      FixedOneDecodes(Tenths(bytes, Scale(u)));
    }
    assert r == num + Suffix(u);
    assert r[..|num|] == num;
  }

  /**
   * A file small enough to be staged (at most 10 MiB) never shows more than
   * "10.0 MB".
   */
  lemma StagedFileLabelAtMostTenMegabytes(bytes: nat)
    requires MiB <= bytes <= 10 * MiB
    ensures Tenths(bytes, MiB) <= 100
  {
    TenthsNearest(bytes, MiB);
  }
}
