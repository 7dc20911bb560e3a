/** The `marker` component's schema and its translation into the options
    record handed to `THREEx.ArMarkerControls`. */
module MarkerOptions {

  /** An attribute value as the component receives it: a number (the schema
      default for `value` is the number 0) or text written in the markup. */
  datatype AttrValue = Number(n: int) | Text(s: string)

  /** The component's data: `type`, `url`, `size` and `value`. */
  datatype MarkerData = MarkerData(kind: string, url: string, size: real, value: AttrValue)

  /** The schema defaults: type 'pattern', url '', size 1.0, value 0. */
  const DefaultMarkerData := MarkerData("pattern", "", 1.0, Number(0))

  /** The result of `parseInt(value || 0, 10)`: an integer, or text whose
      parse is not part of this model. */
  datatype BarcodeValue = Parsed(n: int) | Unparsed(text: string)

  /** The options record of the marker controls. */
  datatype ControlsOptions =
    | PatternControls(patternUrl: string, size: real)
    | BarcodeControls(barcodeValue: BarcodeValue, size: real)

  datatype Warning = UnsupportedMarkerType(kind: string)

  datatype Mapping = Mapping(options: ControlsOptions, warnings: seq<Warning>)

  /** The JavaScript values of AttrValue that are falsy. */
  predicate Falsy(v: AttrValue) {
    v == Number(0) || v == Text("")
  }

  predicate IsDigit(c: char) {
    '0' <= c <= '9'
  }

  predicate AllDigits(s: string) {
    forall i :: 0 <= i < |s| ==> IsDigit(s[i])
  }

  /** The decimal number written by the digits `s`. */
  function DigitsValue(s: string): nat
    requires AllDigits(s)
  {
    if s == [] then 0 else DigitsValue(s[..|s| - 1]) * 10 + (s[|s| - 1] as int - '0' as int)
  }

  /** From this magnitude on, JavaScript writes a number in exponent form
      (`String(1e21) == "1e+21"`). */
  const ExponentFormBound := 1_000_000_000_000_000_000_000

  /** The first decimal digit of a positive number. */
  function LeadingDigit(n: nat): (d: nat)
    requires n >= 1
    ensures 1 <= d <= 9
  {
    if n < 10 then n else LeadingDigit(n / 10)
  }

  /** `parseInt(value || 0, 10)`: a falsy value gives 0; a number is first
      written as text, so below 10^21 it gives itself and from 10^21 on only
      the leading digit of its exponent form (with its sign) survives; text
      made of decimal digits gives the number it writes. */
  function ParseBarcode(v: AttrValue): (r: BarcodeValue)
    ensures Falsy(v) ==> r == Parsed(0)
    ensures v.Number? && -ExponentFormBound < v.n < ExponentFormBound ==> r == Parsed(v.n)
    ensures v.Number? && (v.n <= -ExponentFormBound || ExponentFormBound <= v.n) ==>
              r.Parsed? && 1 <= (if r.n < 0 then -r.n else r.n) <= 9 && (r.n < 0 <==> v.n < 0)
    ensures v.Text? && v.s != "" && AllDigits(v.s) ==> r == Parsed(DigitsValue(v.s))
    ensures r.Unparsed? <==> v.Text? && v.s != "" && !AllDigits(v.s)
    ensures r.Parsed? && v.Text? ==> r.n >= 0
  {
    match v
    case Number(n) =>
      if n <= -ExponentFormBound then Parsed(-(LeadingDigit(-n) as int))
      else if ExponentFormBound <= n then Parsed(LeadingDigit(n))
      else Parsed(n)
    case Text(s) =>
      if s == "" then Parsed(0)
      else if AllDigits(s) then Parsed(DigitsValue(s))
      else Unparsed(s)
  }

  function DigitChar(d: nat): (c: char)
    requires d < 10
    ensures IsDigit(c) && c as int - '0' as int == d
  {
    ('0' as int + d) as char
  }

  /** The shortest decimal text of `n`. */
  function DecimalText(n: nat): (s: string)
    ensures s != [] && AllDigits(s)
  {
    if n < 10 then [DigitChar(n)] else DecimalText(n / 10) + [DigitChar(n % 10)]
  }

  lemma {:induction false} DigitsValueOfDecimalText(n: nat)
    ensures DigitsValue(DecimalText(n)) == n
  {
    if n >= 10 {
      var s := DecimalText(n);
      assert s[..|s| - 1] == DecimalText(n / 10);
      DigitsValueOfDecimalText(n / 10);
    }
  }

  /** Barcode text written in decimal parses back to the number it writes
      (so `value="7"` binds 7). */
  lemma ParseDecimalText(n: nat)
    ensures ParseBarcode(Text(DecimalText(n))) == Parsed(n)
  {
    DigitsValueOfDecimalText(n);
  }

  /** The options for one marker: 'pattern' takes the url, 'barcode' the
      parsed value, any other type warns and falls back to 'pattern'; the size
      is always passed through. */
  function MapOptions(d: MarkerData): (m: Mapping)
    ensures m.options.size == d.size
    ensures m.options.BarcodeControls? <==> d.kind == "barcode"
    ensures m.options.PatternControls? ==> m.options.patternUrl == d.url
    ensures m.options.BarcodeControls? ==> m.options.barcodeValue == ParseBarcode(d.value)
    ensures m.warnings == [] <==> d.kind == "pattern" || d.kind == "barcode"
    ensures m.warnings != [] ==> m.warnings == [UnsupportedMarkerType(d.kind)]
  {
    if d.kind == "pattern" then
      Mapping(PatternControls(d.url, d.size), [])
    else if d.kind == "barcode" then
      Mapping(BarcodeControls(ParseBarcode(d.value), d.size), [])
    else
      Mapping(PatternControls(d.url, d.size), [UnsupportedMarkerType(d.kind)])
  }

  /** An unknown type yields the very options 'pattern' would, plus one warning. */
  lemma UnknownTypeFallsBackToPattern(d: MarkerData)
    requires d.kind != "pattern" && d.kind != "barcode"
    ensures MapOptions(d).options == MapOptions(d.(kind := "pattern")).options
    ensures MapOptions(d).warnings == [UnsupportedMarkerType(d.kind)]
  {
  }

  /** In barcode mode a falsy value binds barcode value 0. */
  lemma FalsyBarcodeValueIsZero(d: MarkerData)
    requires d.kind == "barcode" && Falsy(d.value)
    ensures MapOptions(d).options == BarcodeControls(Parsed(0), d.size)
  {
  }

  /** A marker with every attribute left at its default is a pattern marker
      with an empty url and size 1.0, and draws no warning. */
  lemma DefaultsMapToPattern()
    ensures MapOptions(DefaultMarkerData) == Mapping(PatternControls("", 1.0), [])
  {
  }
}
