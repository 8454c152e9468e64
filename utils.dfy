/**
 * Helpers of the swipe control: the slider's event name, and finding a
 * map layer from the identifier a layer picker option carries as text.
 */
module SwipeUtils {
  import opened Wrappers
  import opened Layers

  /**
   * The event the slider reports value changes with: "input" where the
   * element has an `oninput` property, "change" elsewhere. The element is
   * given by the names of its properties.
   */
  function GetRangeEvent(properties: set<string>): (name: string)
    ensures name == "input" <==> "oninput" in properties
    ensures name == "change" <==> "oninput" !in properties
  {
    if "oninput" in properties then "input" else "change"
  }

  /** The characters JavaScript's string trimming treats as white space or line terminators. */
  predicate IsWhitespace(c: char)
  {
    c == '\t' || c == '\n' || c == '\U{000B}' || c == '\U{000C}' || c == '\r' || c == ' '
    || c == '\U{00A0}' || c == '\U{1680}' || ('\U{2000}' <= c <= '\U{200A}')
    || c == '\U{2028}' || c == '\U{2029}' || c == '\U{202F}' || c == '\U{205F}'
    || c == '\U{3000}' || c == '\U{FEFF}'
  }

  predicate IsDigit(c: char)
  {
    '0' <= c <= '9'
  }

  predicate AllDigits(s: string)
  {
    forall i :: 0 <= i < |s| ==> IsDigit(s[i])
  }

  /** `s` without its leading white space. */
  function TrimStart(s: string): (t: string)
    ensures |t| <= |s| && t == s[|s| - |t|..]
    ensures forall i :: 0 <= i < |s| - |t| ==> IsWhitespace(s[i])
    ensures t == [] || !IsWhitespace(t[0])
  {
    if s != [] && IsWhitespace(s[0]) then TrimStart(s[1..]) else s
  }

  /** The longest prefix of `s` made of decimal digits. */
  function LeadingDigits(s: string): (z: string)
    ensures |z| <= |s| && z == s[..|z|]
    ensures AllDigits(z)
    ensures |z| < |s| ==> !IsDigit(s[|z|])
  {
    if s != [] && IsDigit(s[0]) then [s[0]] + LeadingDigits(s[1..]) else []
  }

  /** The number a string of decimal digits denotes. */
  function DigitsValue(z: string): nat
    requires AllDigits(z)
  {
    if z == [] then 0 else DigitsValue(z[..|z| - 1]) * 10 + (z[|z| - 1] as int - '0' as int)
  }

  /**
   * `parseInt(s, 10)`: skip leading white space, take an optional sign,
   * then the longest run of decimal digits; with no digit the result is
   * NaN (`None`). Anything after the digits is ignored.
   */
  function ParseInt10(s: string): (r: Option<int>)
    ensures var t := TrimStart(s);
            var u := if t != [] && (t[0] == '-' || t[0] == '+') then t[1..] else t;
            r.None? <==> LeadingDigits(u) == []
    ensures r.Some? && r.value < 0 ==> TrimStart(s) != [] && TrimStart(s)[0] == '-'
  {
    ParseSigned(TrimStart(s))
  }

  /** An optional sign, then digits. */
  function ParseSigned(t: string): Option<int>
  {
    if t != [] && t[0] == '-' then
      var m := ParseUnsigned(t[1..]);
      if m.None? then None else Some(-m.value)
    else if t != [] && t[0] == '+' then ParseUnsigned(t[1..])
    else ParseUnsigned(t)
  }

  /** The value of the leading digits; NaN when there is none. */
  function ParseUnsigned(u: string): (r: Option<int>)
    ensures r.Some? ==> r.value >= 0
  {
    var z := LeadingDigits(u);
    if z == [] then None else Some(DigitsValue(z))
  }

  function DigitChar(d: nat): char
    requires d < 10
  {
    ('0' as int + d) as char
  }

  /** Decimal digits of a natural number, without leading zeros. */
  function Digits(n: nat): (z: string)
    ensures z != [] && AllDigits(z)
  {
    if n < 10 then [DigitChar(n)] else Digits(n / 10) + [DigitChar(n % 10)]
  }

  /** How JavaScript writes an integral number as text, e.g. in a picker option's value. */
  function DecimalString(n: int): (s: string)
    ensures s != []
  {
    if n < 0 then "-" + Digits(-n) else Digits(n)
  }

  lemma {:induction false} DigitsValueOfDigits(n: nat)
    ensures DigitsValue(Digits(n)) == n
  {
    if n >= 10 {
      var z := Digits(n);
      assert z[..|z| - 1] == Digits(n / 10);
      DigitsValueOfDigits(n / 10);
    }
  }

  lemma {:induction false} LeadingDigitsOfDigits(z: string, rest: string)
    requires AllDigits(z)
    requires rest == [] || !IsDigit(rest[0])
    ensures LeadingDigits(z + rest) == z
  {
    if z != [] {
      assert (z + rest)[1..] == z[1..] + rest;
      LeadingDigitsOfDigits(z[1..], rest);
    }
  }

  lemma TrimStartOfSignOrDigit(s: string)
    requires s != [] && (s[0] == '-' || IsDigit(s[0]))
    ensures TrimStart(s) == s
  {
    assert !IsWhitespace(s[0]);
  }

  /** The leading digits of digits followed by something that is not a digit are those digits. */
  lemma ParseUnsignedDigits(z: string, rest: string)
    requires z != [] && AllDigits(z)
    requires rest == [] || !IsDigit(rest[0])
    ensures ParseUnsigned(z + rest) == Some(DigitsValue(z))
  {
    LeadingDigitsOfDigits(z, rest);
  }

  /** Digits followed by something that is not a digit parse to the digits' value. */
  lemma ParseDigits(z: string, rest: string)
    requires z != [] && AllDigits(z)
    requires rest == [] || !IsDigit(rest[0])
    ensures ParseInt10(z + rest) == Some(DigitsValue(z))
  {
    var s := z + rest;
    assert s[0] == z[0];
    TrimStartOfSignOrDigit(s);
    ParseUnsignedDigits(z, rest);
  }

  /** A minus sign, digits, then something that is not a digit parse to the negated value. */
  lemma ParseNegativeDigits(z: string, rest: string)
    requires z != [] && AllDigits(z)
    requires rest == [] || !IsDigit(rest[0])
    ensures ParseInt10("-" + (z + rest)) == Some(-(DigitsValue(z) as int))
  {
    var s := "-" + (z + rest);
    assert s[0] == '-' && s[1..] == z + rest;
    TrimStartOfSignOrDigit(s);
    ParseUnsignedDigits(z, rest);
  }

  /**
   * Parsing the decimal text of an integer gives the integer back, even
   * when something other than a digit follows it.
   */
  lemma ParseDecimalString(n: int, rest: string)
    requires rest == [] || !IsDigit(rest[0])
    ensures ParseInt10(DecimalString(n) + rest) == Some(n)
  {
    var z := if n < 0 then Digits(-n) else Digits(n);
    DigitsValueOfDigits(if n < 0 then -n else n);
    if n < 0 {
      assert DecimalString(n) + rest == "-" + (z + rest);
      ParseNegativeDigits(z, rest);
    } else {
      ParseDigits(z, rest);
    }
  }

  lemma ParseDecimalRoundTrip(n: int)
    ensures ParseInt10(DecimalString(n)) == Some(n)
  {
    ParseDecimalString(n, []);
    assert DecimalString(n) + [] == DecimalString(n);
  }

  /** Texts with no leading digit parse to NaN. */
  lemma ParseNaNExamples()
    ensures ParseInt10("") == None
    ensures ParseInt10("px") == None
  {
    var t := "px";
    assert !IsWhitespace(t[0]) && !IsDigit(t[0]);
    assert TrimStart(t) == t;
    assert LeadingDigits(t) == [];
  }

  /** A unit after the digits is ignored. */
  lemma ParseUnitExample()
    ensures ParseInt10("12px") == Some(12)
  {
    assert DigitsValue("12") == 12 by {
      assert "12"[..1] == "1";
    }
    ParseDigits("12", "px");
    assert "12" + "px" == "12px";
  }

  /**
   * The last of `layers` whose identifier is `target`; `null` when there
   * is none. A NaN target (`None`) equals no identifier.
   */
  function LastMatch(layers: seq<Layer>, target: Option<int>): (found: Layer?)
    ensures found != null ==> found in layers && Some(found.id) == target
  {
    if layers == [] then null
    else if Some(layers[|layers| - 1].id) == target then layers[|layers| - 1]
    else LastMatch(layers[..|layers| - 1], target)
  }

  /** No match exactly when no layer carries the target identifier. */
  lemma {:induction false} LastMatchNull(layers: seq<Layer>, target: Option<int>)
    ensures LastMatch(layers, target) == null <==> forall i :: 0 <= i < |layers| ==> Some(layers[i].id) != target
  {
    if layers != [] {
      LastMatchNull(layers[..|layers| - 1], target);
    }
  }

  /** A match carries the target identifier, and no later layer does. */
  lemma {:induction false} LastMatchIsLast(layers: seq<Layer>, target: Option<int>)
    requires LastMatch(layers, target) != null
    ensures Some(LastMatch(layers, target).id) == target
    ensures exists k :: 0 <= k < |layers| && layers[k] == LastMatch(layers, target)
                        && forall j :: k < j < |layers| ==> Some(layers[j].id) != target
  {
    var n := |layers| - 1;
    if Some(layers[n].id) == target {
      assert layers[n] == LastMatch(layers, target);
    } else {
      var init := layers[..n];
      assert LastMatch(layers, target) == LastMatch(init, target);
      LastMatchIsLast(init, target);
      var k :| 0 <= k < n && init[k] == LastMatch(init, target)
               && forall j :: k < j < n ==> Some(init[j].id) != target;
      assert layers[k] == init[k];
      forall j | k < j < |layers|
        ensures Some(layers[j].id) != target
      {
        if j < n {
          assert layers[j] == init[j];
        }
      }
    }
  }

  /** A text that parses to NaN finds nothing. */
  lemma NaNMatchesNothing(layers: seq<Layer>)
    ensures LastMatch(layers, None) == null
  {
    LastMatchNull(layers, None);
  }

  /**
   * Looking a layer up by the decimal text of its own identifier (as the
   * layer picker's options carry it) finds a layer with that identifier.
   */
  lemma FindsByDecimalId(layers: seq<Layer>, l: Layer)
    requires l in layers
    ensures LastMatch(layers, ParseInt10(DecimalString(l.id))) != null
    ensures LastMatch(layers, ParseInt10(DecimalString(l.id))).id == l.id
  {
    ParseDecimalRoundTrip(l.id);
    LastMatchNull(layers, Some(l.id));
    LastMatchIsLast(layers, Some(l.id));
  }

  /**
   * `findLayerById`: visits the map's layers in order and keeps the last
   * whose identifier equals `parseInt(id, 10)`.
   */
  method FindLayerById(layers: seq<Layer>, id: string) returns (found: Layer?)
    ensures found == LastMatch(layers, ParseInt10(id))
  {
    var target := ParseInt10(id);
    found := null;
    for i := 0 to |layers|
      invariant found == LastMatch(layers[..i], target)
    {
      assert layers[..i + 1][..i] == layers[..i];
      if Some(layers[i].id) == target {
        found := layers[i];
      }
    }
    assert layers[..|layers|] == layers;
  }
}
