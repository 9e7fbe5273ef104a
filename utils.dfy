/** The pure helpers of the shared utilities module: the volume-to-liquidity
    ratio (VLR), its colour buckets, and the branch and suffix choices of the
    currency and percentage formatters. The digits that `toFixed` prints are
    not modelled; each formatter returns the number it would print together
    with the prefix or suffix it chooses. */
module Utils {

  /** `calculateVLR`: volume divided by liquidity, or 0 when liquidity is 0. */
  function CalculateVlr(volume: real, liquidity: real): (r: real)
    ensures liquidity == 0.0 ==> r == 0.0
    ensures liquidity != 0.0 ==> r * liquidity == volume
    ensures volume >= 0.0 && liquidity >= 0.0 ==> r >= 0.0
  {
    if liquidity == 0.0 then 0.0 else volume / liquidity
  }

  /** The four Tailwind class pairs the VLR badges use. */
  datatype ColorClass = Green | Yellow | Orange | Red

  function ClassName(c: ColorClass): string
  {
    match c
    case Green => "bg-green-50 text-green-700"
    case Yellow => "bg-yellow-50 text-yellow-700"
    case Orange => "bg-orange-50 text-orange-700"
    case Red => "bg-red-50 text-red-700"
  }

  /** `getVLRColorClass` of the shared module. */
  function VlrColor(vlr: real): ColorClass
  {
    if vlr == 0.0 then Red
    else if vlr < 0.1 then Orange
    else if vlr < 3.0 then Yellow
    else if vlr < 20.0 then Green
    else Orange
  }

  /** Each bucket, stated as the exact set of ratios it covers. */
  lemma VlrColorBuckets(vlr: real)
    ensures VlrColor(vlr) == Red <==> vlr == 0.0
    ensures VlrColor(vlr) == Orange <==> (vlr != 0.0 && vlr < 0.1) || 20.0 <= vlr
    ensures VlrColor(vlr) == Yellow <==> 0.1 <= vlr < 3.0
    ensures VlrColor(vlr) == Green <==> 3.0 <= vlr < 20.0
  {
  }

  /** The buckets are not monotone in the ratio: both a tiny and a large
      ratio are orange, with yellow and green in between. */
  lemma VlrColorNotMonotone()
    ensures VlrColor(0.05) == Orange && VlrColor(1.0) == Yellow
    ensures VlrColor(5.0) == Green && VlrColor(25.0) == Orange
  {
  }

  datatype Suffix = Billions | Millions | Thousands | NoSuffix

  function Divisor(s: Suffix): real
  {
    match s
    case Billions => 1000000000.0
    case Millions => 1000000.0
    case Thousands => 1000.0
    case NoSuffix => 1.0
  }

  /** What a currency formatter prints: the literal "$0", or `mantissa`
      (before `toFixed`) followed by the suffix letter. */
  datatype Amount = DollarZero | Scaled(mantissa: real, suffix: Suffix)

  /** `formatVolume`: "$0" for 0, otherwise B, M and K from 1e9, 1e6 and 1e3 upward. */
  function FormatVolume(value: real): (r: Amount)
    ensures r.DollarZero? <==> value == 0.0
    ensures r.Scaled? ==> r.mantissa * Divisor(r.suffix) == value
  {
    if value == 0.0 then DollarZero
    else if value >= 1000000000.0 then Scaled(value / 1000000000.0, Billions)
    else if value >= 1000000.0 then Scaled(value / 1000000.0, Millions)
    else if value >= 1000.0 then Scaled(value / 1000.0, Thousands)
    else Scaled(value, NoSuffix)
  }

  /** `formatVolume`'s thresholds are inclusive, and the printed mantissa of a
      K or M amount lies in [1, 1000). */
  lemma FormatVolumeSuffix(value: real)
    ensures FormatVolume(value).Scaled? && FormatVolume(value).suffix == Billions <==> value >= 1000000000.0
    ensures FormatVolume(value).Scaled? && FormatVolume(value).suffix == Millions <==> 1000000.0 <= value < 1000000000.0
    ensures FormatVolume(value).Scaled? && FormatVolume(value).suffix == Thousands <==> 1000.0 <= value < 1000000.0
    ensures FormatVolume(value).Scaled? && FormatVolume(value).suffix == NoSuffix <==> value != 0.0 && value < 1000.0
    ensures FormatVolume(value).Scaled? && FormatVolume(value).suffix in {Millions, Thousands} ==>
      1.0 <= FormatVolume(value).mantissa < 1000.0
  {
  }

  /** `formatCurrency` (the same body appears in both table components):
      strict thresholds, and never the "$0" literal. */
  function FormatCurrency(value: real): (r: Amount)
    ensures r.Scaled?
    ensures r.mantissa * Divisor(r.suffix) == value
  {
    if value > 1000000000.0 then Scaled(value / 1000000000.0, Billions)
    else if value > 1000000.0 then Scaled(value / 1000000.0, Millions)
    else if value > 1000.0 then Scaled(value / 1000.0, Thousands)
    else Scaled(value, NoSuffix)
  }

  /** `formatCurrency`'s thresholds are strict: exactly 1,000,000 is shown in K
      and exactly 1,000 without suffix; a K or M mantissa lies in (1, 1000]. */
  lemma FormatCurrencySuffix(value: real)
    ensures FormatCurrency(value).suffix == Billions <==> value > 1000000000.0
    ensures FormatCurrency(value).suffix == Millions <==> 1000000.0 < value <= 1000000000.0
    ensures FormatCurrency(value).suffix == Thousands <==> 1000.0 < value <= 1000000.0
    ensures FormatCurrency(value).suffix == NoSuffix <==> value <= 1000.0
    ensures FormatCurrency(value).suffix in {Millions, Thousands} ==> 1.0 < FormatCurrency(value).mantissa <= 1000.0
  {
  }

  /** The two formatters disagree exactly at their thresholds. */
  lemma FormattersDisagreeAtThresholds()
    ensures FormatVolume(1000000.0).suffix == Millions && FormatCurrency(1000000.0).suffix == Thousands
    ensures FormatVolume(1000.0).suffix == Thousands && FormatCurrency(1000.0).suffix == NoSuffix
  {
  }

  /** What `formatPercentage` prints: a sign prefix, then `percent` (before `toFixed`), then "%". */
  datatype Percentage = Percentage(sign: string, percent: real)

  /** `formatPercentage`: "+" for non-negative fractions, nothing for negative
      ones (whose printed number carries its own minus). */
  function FormatPercentage(value: real): (r: Percentage)
    ensures r.sign == "+" <==> value >= 0.0
    ensures r.sign == "" <==> value < 0.0
    ensures r.percent == value * 100.0
    ensures r.percent < 0.0 <==> r.sign == ""
  {
    Percentage(if value >= 0.0 then "+" else "", value * 100.0)
  }
}
