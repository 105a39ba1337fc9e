/**
 * The physical measurements the plugin passes around: lengths and weights
 * with their unit codes, conversion between units, and the rounding the
 * plugin applies (`ceil`, and the truncation of bcmath at scale 0).
 */
module Units {
  import opened Wrappers
  import opened PhpValues

  /** `ceil($x)`: the least integer not below `x`. */
  function Ceil(x: real): (c: int)
    ensures x <= c as real < x + 1.0
  {
    -((-x).Floor)
  }

  /** Truncation toward zero, as bcmath does at scale 0. */
  function Trunc(x: real): (t: int)
    ensures x >= 0.0 ==> 0 <= t && t as real <= x < t as real + 1.0
    ensures x < 0.0 ==> t <= 0 && t as real - 1.0 < x <= t as real
  {
    if x >= 0.0 then x.Floor else -((-x).Floor)
  }

  /** `bcmul($w, bcmul($l, $h))` at bcmath's default scale 0: each product truncated. */
  function BcVolume(w: real, l: real, h: real): int
  {
    Trunc(w * Trunc(l * h) as real)
  }

  /**
   * Truncating twice, the bcmath volume of non-negative edges is never
   * more than the product of the edges rounded up.
   */
  lemma TruncatedProductBound(w: real, l: real, h: real)
    requires w >= 0.0 && l >= 0.0 && h >= 0.0
    ensures 0 <= BcVolume(w, l, h) <= Ceil(w) * Ceil(l) * Ceil(h)
  {
    TruncatedProductBelow(l, h);
    TruncatedScaleBelow(w, Trunc(l * h), Ceil(l), Ceil(h));
  }

  /** One truncated product of non-negative reals is at most the product of their ceilings. */
  lemma TruncatedProductBelow(l: real, h: real)
    requires l >= 0.0 && h >= 0.0
    ensures 0 <= Trunc(l * h) <= Ceil(l) * Ceil(h)
  {
    ProductBelow(l, h, Ceil(l), Ceil(h));
    TruncBelow(l * h, Ceil(l) * Ceil(h));
  }

  /** Scaling an integer below `b * c` by a non-negative real and truncating stays below `ceil(w) * b * c`. */
  lemma TruncatedScaleBelow(w: real, inner: int, b: int, c: int)
    requires w >= 0.0 && 0 <= inner <= b * c
    ensures 0 <= Trunc(w * inner as real) <= Ceil(w) * b * c
  {
    var n := b * c;
    ProductBelow(w, inner as real, Ceil(w), n);
    TruncBelow(w * inner as real, Ceil(w) * n);
    MulAssociates(Ceil(w), b, c);
  }

  lemma MulAssociates(a: int, b: int, c: int)
    ensures a * (b * c) == a * b * c
  {
  }

  /** A product of non-negative reals is at most the product of integer bounds. */
  lemma ProductBelow(a: real, b: real, m: int, n: int)
    requires 0.0 <= a <= m as real && 0.0 <= b <= n as real
    ensures 0.0 <= a * b <= (m * n) as real
  {
    MulMonotone(a, m as real, b, n as real);
  }

  /** Truncating a non-negative real below an integer bound stays below it. */
  lemma TruncBelow(x: real, n: int)
    requires 0.0 <= x <= n as real
    ensures 0 <= Trunc(x) <= n
  {
  }

  lemma MulMonotone(a: real, b: real, c: real, d: real)
    requires 0.0 <= a <= b && 0.0 <= c <= d
    ensures 0.0 <= a * c <= b * d
  {
    assert a * c <= b * c;
    assert b * c <= b * d;
  }

  datatype LengthUnit = Millimeter | Centimeter | Meter | Foot | Inch

  function LengthUnitCode(u: LengthUnit): string
  {
    match u
    case Millimeter => "mm"
    case Centimeter => "cm"
    case Meter => "m"
    case Foot => "ft"
    case Inch => "in"
  }

  function ParseLengthUnit(s: string): (r: Option<LengthUnit>)
    ensures r.Some? ==> LengthUnitCode(r.value) == s
  {
    if s == "mm" then Some(Millimeter)
    else if s == "cm" then Some(Centimeter)
    else if s == "m" then Some(Meter)
    else if s == "ft" then Some(Foot)
    else if s == "in" then Some(Inch)
    else None
  }

  lemma LengthUnitCodeParses(u: LengthUnit)
    ensures ParseLengthUnit(LengthUnitCode(u)) == Some(u)
  {
  }

  function MillimetresPer(u: LengthUnit): (f: real)
    ensures f > 0.0
  {
    match u
    case Millimeter => 1.0
    case Centimeter => 10.0
    case Meter => 1000.0
    case Foot => 304.8
    case Inch => 25.4
  }

  datatype Length = Length(number: real, unit: LengthUnit)

  function InMillimetres(l: Length): real
  {
    l.number * MillimetresPer(l.unit)
  }

  /** `$length->convert($unit)`. */
  function ConvertLength(l: Length, to: LengthUnit): (r: Length)
    ensures r.unit == to && InMillimetres(r) == InMillimetres(l)
  {
    Length(InMillimetres(l) / MillimetresPer(to), to)
  }

  datatype WeightUnit = Milligram | Gram | Kilogram | Ounce | Pound

  function WeightUnitCode(u: WeightUnit): string
  {
    match u
    case Milligram => "mg"
    case Gram => "g"
    case Kilogram => "kg"
    case Ounce => "oz"
    case Pound => "lb"
  }

  function ParseWeightUnit(s: string): (r: Option<WeightUnit>)
    ensures r.Some? ==> WeightUnitCode(r.value) == s
  {
    if s == "mg" then Some(Milligram)
    else if s == "g" then Some(Gram)
    else if s == "kg" then Some(Kilogram)
    else if s == "oz" then Some(Ounce)
    else if s == "lb" then Some(Pound)
    else None
  }

  lemma WeightUnitCodeParses(u: WeightUnit)
    ensures ParseWeightUnit(WeightUnitCode(u)) == Some(u)
  {
  }

  function GramsPer(u: WeightUnit): (f: real)
    ensures f > 0.0
  {
    match u
    case Milligram => 0.001
    case Gram => 1.0
    case Kilogram => 1000.0
    case Ounce => 28.349523125
    case Pound => 453.59237
  }

  datatype Weight = Weight(number: real, unit: WeightUnit)

  function InGrams(w: Weight): real
  {
    w.number * GramsPer(w.unit)
  }

  /** `$weight->convert($unit)`. */
  function ConvertWeight(w: Weight, to: WeightUnit): (r: Weight)
    ensures r.unit == to && InGrams(r) == InGrams(w)
  {
    Weight(InGrams(w) / GramsPer(to), to)
  }

  /** `$weight->multiply($n)`. */
  function ScaleWeight(w: Weight, n: real): (r: Weight)
    ensures r.unit == w.unit && InGrams(r) == InGrams(w) * n
  {
    Weight(w.number * n, w.unit)
  }

  /**
   * `new Length($number, $unit)`: the unit must be a known code and the
   * number numeric, otherwise \InvalidArgumentException.
   */
  function MakeLength(number: Value, unit: Value): (r: Result<Length>)
    ensures r.Ok? <==> unit.Str? && ParseLengthUnit(unit.s).Some? && NumberOf(number).Some?
    ensures r.Ok? ==> LengthUnitCode(r.value.unit) == unit.s && r.value.number == NumberOf(number).value
    ensures r.Err? ==> r.error.InvalidArgument?
  {
    if !unit.Str? || ParseLengthUnit(unit.s).None? then Err(InvalidArgument("Invalid length unit"))
    else if NumberOf(number).None? then Err(InvalidArgument("The provided value is not a numeric value."))
    else Ok(Length(NumberOf(number).value, ParseLengthUnit(unit.s).value))
  }

  /** `new Weight($number, $unit)`, with the same checks. */
  function MakeWeight(number: Value, unit: Value): (r: Result<Weight>)
    ensures r.Ok? <==> unit.Str? && ParseWeightUnit(unit.s).Some? && NumberOf(number).Some?
    ensures r.Ok? ==> WeightUnitCode(r.value.unit) == unit.s && r.value.number == NumberOf(number).value
    ensures r.Err? ==> r.error.InvalidArgument?
  {
    if !unit.Str? || ParseWeightUnit(unit.s).None? then Err(InvalidArgument("Invalid weight unit"))
    else if NumberOf(number).None? then Err(InvalidArgument("The provided value is not a numeric value."))
    else Ok(Weight(NumberOf(number).value, ParseWeightUnit(unit.s).value))
  }
}
