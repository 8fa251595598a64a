/**
 * processValue over the union `string | number`, as a tagged variant.
 *
 * A JavaScript string is a sequence of UTF-16 code units and its `length`
 * counts code units, so text is modelled that way; `Utf16` gives the code
 * units of a sequence of Unicode characters.
 */
module UnionDispatch {

  /** A 16-bit UTF-16 code unit. */
  newtype CodeUnit = u: int | 0 <= u < 0x1_0000

  /** A JavaScript string. */
  type JsString = seq<CodeUnit>

  /** The argument: a string or a number (a JavaScript number, modelled as a real). */
  datatype Value = Text(text: JsString) | Number(number: real)

  /** The length of a string, the double of a number. */
  function ProcessValue(value: Value): (r: real)
    ensures value.Text? ==> r == |value.text| as real && r >= 0.0
    ensures value.Number? ==> r / 2.0 == value.number
  {
    match value
    case Text(s) => |s| as real
    case Number(n) => n * 2.0
  }

  /** A character outside the Basic Multilingual Plane needs a surrogate pair. */
  predicate IsAstral(c: char) {
    c as int >= 0x1_0000
  }

  /** The UTF-16 encoding of one character: one code unit, or a surrogate pair. */
  function EncodeChar(c: char): (r: JsString)
    ensures |r| == if IsAstral(c) then 2 else 1
  {
    if !IsAstral(c) then [c as int as CodeUnit]
    else
      var v := c as int - 0x1_0000;
      [(0xD800 + v / 0x400) as CodeUnit, (0xDC00 + v % 0x400) as CodeUnit]
  }

  /** The UTF-16 encoding of a sequence of characters, as a JavaScript string holds it. */
  function Utf16(s: string): JsString
  {
    if s == [] then [] else EncodeChar(s[0]) + Utf16(s[1..])
  }

  /** The number of characters of `s` outside the Basic Multilingual Plane. */
  function AstralCount(s: string): nat
  {
    if s == [] then 0 else (if IsAstral(s[0]) then 1 else 0) + AstralCount(s[1..])
  }

  /**
   * The length reported for a text counts each character once and each
   * character outside the Basic Multilingual Plane once more; so it lies
   * between the number of characters and twice that number, and equals the
   * number of characters exactly when none is outside that plane.
   */
  lemma {:induction false} TextLengthCountsCodeUnits(s: string)
    ensures ProcessValue(Text(Utf16(s))) == (|s| + AstralCount(s)) as real
    ensures |s| as real <= ProcessValue(Text(Utf16(s))) <= 2.0 * |s| as real
    ensures ProcessValue(Text(Utf16(s))) == |s| as real <==> forall i :: 0 <= i < |s| ==> !IsAstral(s[i])
  {
    if s != [] {
      TextLengthCountsCodeUnits(s[1..]);
      assert AstralCount(s) == 0 <==> !IsAstral(s[0]) && AstralCount(s[1..]) == 0;
      if forall i :: 0 <= i < |s[1..]| ==> !IsAstral(s[1..][i]) {
        assert forall i :: 1 <= i < |s| ==> s[i] == s[1..][i - 1];
      }
    }
  }

  /** Examples: "hello" gives 5, the empty string 0, and 10 gives 20. */
  lemma ProcessValueExamples()
    ensures ProcessValue(Text(Utf16("hello"))) == 5.0
    ensures ProcessValue(Text(Utf16(""))) == 0.0
    ensures ProcessValue(Number(10.0)) == 20.0
  {
    TextLengthCountsCodeUnits("hello");
  }
}
