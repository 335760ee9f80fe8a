/**
 * Promo codes (Script.js, applyPromoCode): the typed code is trimmed and
 * lower-cased, then looked up in a fixed table of discount fractions; the
 * discount is that fraction of the subtotal.
 */
module Promo {
  import opened Outcomes

  /** The white space and line terminators that String.prototype.trim removes. */
  predicate IsJsWhitespace(c: char) {
    || c == '\t' || c == '\n' || c == '\U{000B}' || c == '\U{000C}' || c == '\r'
    || c == ' ' || c == '\U{00A0}' || c == '\U{1680}'
    || ('\U{2000}' <= c <= '\U{200A}')
    || c == '\U{2028}' || c == '\U{2029}' || c == '\U{202F}' || c == '\U{205F}'
    || c == '\U{3000}' || c == '\U{FEFF}'
  }

  predicate AllWhitespace(s: string) {
    forall i :: 0 <= i < |s| ==> IsJsWhitespace(s[i])
  }

  /** `s` without its leading white space. */
  function TrimStart(s: string): (r: string)
    ensures |r| <= |s| && forall i :: 0 <= i < |r| ==> r[i] == s[|s| - |r| + i]
    ensures AllWhitespace(s[..|s| - |r|])
    ensures r == [] || !IsJsWhitespace(r[0])
  {
    if s != [] && IsJsWhitespace(s[0]) then TrimStart(s[1..]) else s
  }

  /** `s` without its trailing white space. */
  function TrimEnd(s: string): (r: string)
    ensures |r| <= |s| && forall i :: 0 <= i < |r| ==> r[i] == s[i]
    ensures AllWhitespace(s[|r|..])
    ensures r == [] || !IsJsWhitespace(r[|r| - 1])
  {
    if s != [] && IsJsWhitespace(s[|s| - 1]) then TrimEnd(s[..|s| - 1]) else s
  }

  function Trim(s: string): string {
    TrimEnd(TrimStart(s))
  }

  /**
   * Lower case as far as it can decide the lookup: the ASCII capitals, and the
   * Kelvin sign, whose lower case is the ASCII letter k. Every other character
   * is kept; none of them lower-cases to an ASCII letter or digit.
   */
  function ToLowerChar(c: char): char {
    if 'A' <= c <= 'Z' then (c as int + 32) as char
    else if c == '\U{212A}' then 'k'
    else c
  }

  function ToLower(s: string): (r: string)
    ensures |r| == |s|
  {
    if s == [] then [] else [ToLowerChar(s[0])] + ToLower(s[1..])
  }

  /** Lower-casing works character by character. */
  lemma {:induction false} ToLowerAt(s: string, i: nat)
    requires i < |s|
    ensures ToLower(s)[i] == ToLowerChar(s[i])
  {
    if i > 0 {
      ToLowerAt(s[1..], i - 1);
    }
  }

  /** The code as the lookup sees it: trimmed, then lower-cased; blank input leaves nothing. */
  function Normalize(code: string): (r: string)
    ensures |r| <= |code|
    ensures AllWhitespace(code) ==> r == []
  {
    ToLower(Trim(code))
  }

  /** The fixed table of promo codes and their discount fractions. */
  const ValidCodes: map<string, real> := map["welcome10" := 0.10, "save20" := 0.20, "birks15" := 0.15]

  datatype PromoOutcome = Applied(fraction: real, discount: real) | Invalid

  /**
   * The table's own entry for a normalised code, if any: every entry is a
   * positive fraction of at most a fifth.
   */
  function CodeFraction(key: string): (r: Option<real>)
    ensures r.Some? <==> key in ValidCodes
    ensures r.Some? ==> r.value == ValidCodes[key] && 0.0 < r.value <= 0.20
  {
    if key in ValidCodes then Some(ValidCodes[key]) else None
  }

  /**
   * Apply a typed code to the current subtotal (the corrected lookup; the
   * source's own test is AcceptedAsWritten). An accepted code yields its
   * fraction and the discount; any other code is rejected. The cart's items
   * are not an input, so they are never changed.
   */
  function ApplyPromoCode(code: string, subtotal: real): (r: PromoOutcome)
    ensures r.Applied? <==> Normalize(code) in ValidCodes
    ensures r.Applied? ==> r.fraction == ValidCodes[Normalize(code)] && r.discount == subtotal * r.fraction
  {
    match CodeFraction(Normalize(code))
    case Some(f) => Applied(f, subtotal * f)
    case None => Invalid
  }

  // ---------------------------------------------------------------- trimming

  lemma {:induction false} TrimStartSkipsPadding(pre: string, s: string)
    requires AllWhitespace(pre)
    ensures TrimStart(pre + s) == TrimStart(s)
  {
    if pre != [] {
      assert (pre + s)[1..] == pre[1..] + s;
      TrimStartSkipsPadding(pre[1..], s);
    } else {
      assert pre + s == s;
    }
  }

  lemma {:induction false} TrimEndSkipsPadding(s: string, post: string)
    requires AllWhitespace(post)
    ensures TrimEnd(s + post) == TrimEnd(s)
  {
    if post != [] {
      assert (s + post)[..|s + post| - 1] == s + post[..|post| - 1];
      TrimEndSkipsPadding(s, post[..|post| - 1]);
    } else {
      assert s + post == s;
    }
  }

  /** Appending to a string that has a non-space character leaves its head trim unchanged. */
  lemma {:induction false} TrimStartAppend(s: string, t: string)
    ensures TrimStart(s + t) == if TrimStart(s) == [] then TrimStart(t) else TrimStart(s) + t
  {
    if s == [] {
      assert s + t == t;
    } else if IsJsWhitespace(s[0]) {
      assert (s + t)[1..] == s[1..] + t;
      TrimStartAppend(s[1..], t);
    }
  }

  /** White space around a code never changes its normalised form. */
  lemma NormalizeIgnoresPadding(pre: string, code: string, post: string)
    requires AllWhitespace(pre) && AllWhitespace(post)
    ensures Normalize(pre + code + post) == Normalize(code)
  {
    assert pre + code + post == pre + (code + post);
    TrimStartSkipsPadding(pre, code + post);
    TrimStartAppend(code, post);
    var start := TrimStart(code);
    if start == [] {
      assert TrimStart(post) == [] by {
        if post != [] { assert IsJsWhitespace(post[0]); }
      }
    } else {
      TrimEndSkipsPadding(start, post);
    }
  }

  /** A string that starts and ends with a non-space character is its own trim. */
  lemma TrimKeepsWord(s: string)
    requires s != [] && !IsJsWhitespace(s[0]) && !IsJsWhitespace(s[|s| - 1])
    ensures Trim(s) == s
  {
  }

  /** A code without surrounding space normalises to its character-wise lower case. */
  lemma NormalizeWord(s: string, lower: string)
    requires s != [] && !IsJsWhitespace(s[0]) && !IsJsWhitespace(s[|s| - 1])
    requires |lower| == |s| && forall i :: 0 <= i < |s| ==> lower[i] == ToLowerChar(s[i])
    ensures Normalize(s) == lower
  {
    TrimKeepsWord(s);
    var low := ToLower(s);
    forall i | 0 <= i < |s| ensures low[i] == lower[i] {
      ToLowerAt(s, i);
    }
    assert low == lower;
  }

  lemma UpperSave20Normalizes()
    ensures Normalize("SAVE20") == "save20"
  {
    NormalizeWord("SAVE20", "save20");
  }

  /** "SAVE20", in any white-space padding, normalises to the table key "save20". */
  lemma Save20Normalizes(pre: string, post: string)
    requires AllWhitespace(pre) && AllWhitespace(post)
    ensures Normalize(pre + "SAVE20" + post) == "save20"
  {
    NormalizeIgnoresPadding(pre, "SAVE20", post);
    UpperSave20Normalizes();
  }

  /** save20 on a subtotal of 100 gives a discount of 20. */
  lemma Save20Scenario(code: string)
    requires Normalize(code) == "save20"
    ensures ApplyPromoCode(code, 100.0) == Applied(0.20, 20.0)
  {
  }

  /** The discount is a fraction of the subtotal no larger than a fifth of it. */
  lemma DiscountBounded(code: string, subtotal: real)
    requires subtotal >= 0.0
    ensures var r := ApplyPromoCode(code, subtotal);
      r.Applied? ==> 0.0 <= r.discount <= subtotal * 0.20
  {
    var f := CodeFraction(Normalize(code));
    if f.Some? {
      assert 0.0 <= subtotal * f.value <= subtotal * 0.20;
    }
  }

  // ---------------------------------------------------------------- as written

  /**
   * What `validCodes[promoCode]` yields on the object literal of the source:
   * an own entry, or a member inherited from Object.prototype whose name is
   * already lower case.
   */
  datatype TableValue = Fraction(f: real) | InheritedMember(name: string)

  const InheritedLowerCaseNames: set<string> := {"constructor", "__proto__"}

  function LookupAsWritten(key: string): (r: Option<TableValue>)
    ensures key in ValidCodes ==> r == Some(Fraction(ValidCodes[key]))
    ensures key !in ValidCodes && key !in InheritedLowerCaseNames ==> r == None
    ensures key !in ValidCodes && key in InheritedLowerCaseNames ==> r == Some(InheritedMember(key))
  {
    match CodeFraction(key)
    case Some(f) => Some(Fraction(f))
    case None => if key in InheritedLowerCaseNames then Some(InheritedMember(key)) else None
  }

  predicate Truthy(v: Option<TableValue>) {
    match v
    case None => false
    case Some(Fraction(f)) => f != 0.0
    case Some(InheritedMember(_)) => true
  }

  /** The source's acceptance test: the looked-up value is truthy. */
  function AcceptedAsWritten(code: string): (accepted: bool)
    ensures accepted <==> Normalize(code) in ValidCodes || Normalize(code) in InheritedLowerCaseNames
  {
    Truthy(LookupAsWritten(Normalize(code)))
  }

  lemma ConstructorNormalizes()
    ensures Normalize("Constructor") == "constructor"
  {
    NormalizeWord("Constructor", "constructor");
  }

  /**
   * A code that normalises to an inherited member name, such as "Constructor"
   * (see ConstructorNormalizes), passes the source's test although the table
   * has no such entry; the corrected lookup rejects it.
   */
  lemma PrototypeNameAcceptedAsWritten(code: string, subtotal: real)
    requires Normalize(code) in InheritedLowerCaseNames
    ensures AcceptedAsWritten(code)
    ensures ApplyPromoCode(code, subtotal) == Invalid
  {
  }
}
