/**
 * The JavaScript value semantics the admin panel's handlers rely on: form
 * values that start as numbers and become text once an input changes them,
 * `parseInt`, the `Number(...)` coercion behind `<` and `>=`, `trim`,
 * `toLowerCase`, `includes`, `join` and `startsWith`.
 */
module JsValues {

  /** `null`, `undefined` or `NaN` on one side, a present value on the other. */
  datatype Option<+T> = None | Some(value: T)

  /** `o || fallback` for an optional string: absent and empty text both fall back. */
  function OrElse(o: Option<string>, fallback: string): string
  {
    if o.Some? && o.value != "" then o.value else fallback
  }

  // ---------------------------------------------------------------------------
  // Whitespace and trim

  /**
   * The characters `trim` and `parseInt` skip: tab, line feed, vertical tab,
   * form feed, carriage return, the space separators, the byte order mark and
   * the two Unicode line terminators.
   */
  predicate IsSpace(c: char)
  {
    c == ' ' || '\t' <= c <= '\r'
    || c == '\U{A0}' || c == '\U{1680}' || '\U{2000}' <= c <= '\U{200A}'
    || c == '\U{2028}' || c == '\U{2029}' || c == '\U{202F}' || c == '\U{205F}'
    || c == '\U{3000}' || c == '\U{FEFF}'
  }

  function TrimStart(s: string): (r: string)
    ensures |r| <= |s| && r == s[|s| - |r|..]
    ensures forall i :: 0 <= i < |s| - |r| ==> IsSpace(s[i])
    ensures r == [] || !IsSpace(r[0])
  {
    if s != [] && IsSpace(s[0]) then
      var r := TrimStart(s[1..]);
      assert s[1..][|s| - 1 - |r|..] == s[|s| - |r|..];
      assert forall i :: 1 <= i < |s| - |r| ==> s[i] == s[1..][i - 1];
      r
    else s
  }

  function TrimEnd(s: string): (r: string)
    ensures |r| <= |s| && r == s[..|r|]
    ensures forall i :: |r| <= i < |s| ==> IsSpace(s[i])
    ensures r == [] || !IsSpace(r[|r| - 1])
  {
    if s != [] && IsSpace(s[|s| - 1]) then TrimEnd(s[..|s| - 1]) else s
  }

  /** `s.trim()`. */
  function Trim(s: string): string
  {
    TrimEnd(TrimStart(s))
  }

  /** `!s.trim()`: every character is whitespace, so nothing is left once the string is trimmed. */
  predicate IsBlank(s: string)
  {
    forall i :: 0 <= i < |s| ==> IsSpace(s[i])
  }

  /** Blank text is exactly text that `trim` empties. */
  lemma BlankIffTrimEmpty(s: string)
    ensures IsBlank(s) <==> Trim(s) == ""
  {
    var t := TrimStart(s);
    if IsBlank(s) {
      assert t == [];
    }
  }

  // ---------------------------------------------------------------------------
  // Numbers: parseInt and Number()

  predicate IsDigit(c: char)
  {
    '0' <= c <= '9'
  }

  predicate AllDigits(s: string)
  {
    forall i :: 0 <= i < |s| ==> IsDigit(s[i])
  }

  /** The value of a decimal numeral, most significant digit first. */
  function DigitsValue(ds: string): nat
    requires AllDigits(ds)
  {
    if ds == [] then 0 else 10 * DigitsValue(ds[..|ds| - 1]) + (ds[|ds| - 1] as int - '0' as int)
  }

  /** The longest run of digits `s` starts with: where `parseInt` stops reading. */
  function DigitPrefix(s: string): (r: string)
    ensures r <= s && AllDigits(r)
    ensures r == s || !IsDigit(s[|r|])
  {
    if s != [] && IsDigit(s[0]) then [s[0]] + DigitPrefix(s[1..]) else []
  }

  /** The sign a leading `-` gives a numeral. */
  function SignOf(s: string): int
  {
    if s != [] && s[0] == '-' then -1 else 1
  }

  /** The integer a sign taken from `t` and the digits `ds` denote. */
  function Signed(t: string, ds: string): int
    requires AllDigits(ds)
  {
    SignOf(t) * DigitsValue(ds)
  }

  /** A numeral without its leading sign. */
  function Unsigned(s: string): string
  {
    if s != [] && (s[0] == '-' || s[0] == '+') then s[1..] else s
  }

  /**
   * `parseInt(s)` in base 10: leading whitespace is skipped, an optional sign
   * is read, then as many digits as follow; no digit at all gives NaN (None).
   * Without a radix JavaScript would read a `0x` prefix as hexadecimal; the
   * values parsed here come from number inputs and radio indices, which never
   * carry one.
   */
  function ParseInt(s: string): Option<int>
  {
    var t := TrimStart(s);
    var ds := DigitPrefix(Unsigned(t));
    if ds == [] then None else Some(Signed(t, ds))
  }

  /**
   * `Number(s)` on the integer numerals a number input produces: surrounding
   * whitespace is ignored, empty text is 0, anything that is not a signed run
   * of digits is NaN (None).
   */
  function ToNumber(s: string): Option<int>
  {
    var t := Trim(s);
    if t == "" then Some(0)
    else if Unsigned(t) != [] && AllDigits(Unsigned(t)) then Some(Signed(t, Unsigned(t)))
    else None
  }

  lemma {:induction false} DigitPrefixStopsAtNonDigit(ds: string, rest: string)
    requires AllDigits(ds)
    requires rest == [] || !IsDigit(rest[0])
    ensures DigitPrefix(ds + rest) == ds
  {
    if ds != [] {
      assert (ds + rest)[1..] == ds[1..] + rest;
      DigitPrefixStopsAtNonDigit(ds[1..], rest);
    } else {
      assert ds + rest == rest;
    }
  }

  /** On blank text `Number` gives 0 and `parseInt` gives NaN. */
  lemma BlankIsZeroButNaN(s: string)
    requires IsBlank(s)
    ensures ToNumber(s) == Some(0) && ParseInt(s) == None
  {
    BlankIffTrimEmpty(s);
    assert TrimStart(s) == [];
  }

  lemma SignSurvivesSuffix(t: string, rest: string)
    requires t != []
    ensures SignOf(t + rest) == SignOf(t)
    ensures Unsigned(t + rest) == Unsigned(t) + rest
  {
    if t[0] == '-' || t[0] == '+' {
      assert (t + rest)[1..] == t[1..] + rest;
    }
  }

  /** Where `Number(s)` reads a non-blank integer numeral, `parseInt(s)` reads the same integer. */
  lemma ParseIntAgreesWithNumber(s: string)
    requires !IsBlank(s) && ToNumber(s).Some?
    ensures ParseInt(s) == ToNumber(s)
  {
    BlankIffTrimEmpty(s);
    var u := TrimStart(s);
    var t := Trim(s);
    var spaces := TrimmedTail(u);
    assert t != [] && Unsigned(t) != [] && AllDigits(Unsigned(t));
    NumeralThenNonDigit(t, spaces);
    assert ToNumber(s) == Some(Signed(t, Unsigned(t)));
    assert ParseInt(s) == Some(Signed(u, DigitPrefix(Unsigned(u))));
  }

  /** What `TrimEnd` cuts off: whitespace, so it does not start with a digit. */
  lemma TrimmedTail(u: string) returns (spaces: string)
    ensures u == TrimEnd(u) + spaces
    ensures spaces == [] || !IsDigit(spaces[0])
  {
    var t := TrimEnd(u);
    spaces := u[|t|..];
    if spaces != [] {
      assert spaces[0] == u[|t|];
      assert IsSpace(spaces[0]);
    }
  }

  /** A signed numeral followed by text that does not start with a digit: `parseInt` reads just the numeral. */
  lemma NumeralThenNonDigit(t: string, rest: string)
    requires t != [] && Unsigned(t) != [] && AllDigits(Unsigned(t))
    requires rest == [] || !IsDigit(rest[0])
    ensures SignOf(t + rest) == SignOf(t)
    ensures DigitPrefix(Unsigned(t + rest)) == Unsigned(t)
  {
    SignSurvivesSuffix(t, rest);
    DigitPrefixStopsAtNonDigit(Unsigned(t), rest);
  }

  /** Vertical tab and form feed count as whitespace: such text is blank, and `parseInt` skips them. */
  lemma TabsAndFeedsAreSkipped()
    ensures IsBlank("\U{B}\U{C}")
    ensures ParseInt("\U{B}\U{C}5") == Some(5)
  {
    assert TrimStart("\U{B}\U{C}5") == "5" by {
      assert "\U{B}\U{C}5"[1..] == "\U{C}5" && "\U{C}5"[1..] == "5";
    }
    assert DigitPrefix("5") == "5" by {
      assert "5"[1..] == [];
    }
    assert DigitsValue("5") == 5 by {
      assert "5"[..0] == [];
    }
  }

  /** A form value: the number React state starts with, or the text an input put there. */
  datatype Input = Number(n: int) | Text(s: string)

  /** `Number(v)`, the coercion JavaScript applies to `v` in a comparison. */
  function NumberOf(v: Input): Option<int>
  {
    match v
    case Number(n) => Some(n)
    case Text(s) => ToNumber(s)
  }

  /** `parseInt(v)`. */
  function ParseIntOf(v: Input): Option<int>
  {
    match v
    case Number(n) => Some(n)
    case Text(s) => ParseInt(s)
  }

  /** `k < v` with `v` coerced to a number; false against NaN. */
  predicate Below(k: int, v: Input)
  {
    NumberOf(v).Some? && k < NumberOf(v).value
  }

  /** `k >= v` with `v` coerced to a number; false against NaN. */
  predicate AtLeast(k: int, v: Input)
  {
    NumberOf(v).Some? && k >= NumberOf(v).value
  }

  // ---------------------------------------------------------------------------
  // Case folding and search

  /** `toLowerCase` on one character (ASCII letters only). */
  function LowerChar(c: char): char
  {
    if 'A' <= c <= 'Z' then (c as int + 32) as char else c
  }

  /** `s.toLowerCase()`. */
  function ToLower(s: string): (r: string)
    ensures |r| == |s|
  {
    seq(|s|, i requires 0 <= i < |s| => LowerChar(s[i]))
  }

  /** `t` occurs in `s` starting at position `i`. */
  predicate OccursAt(s: string, t: string, i: int)
  {
    0 <= i && i + |t| <= |s| && s[i..i + |t|] == t
  }

  /** `s.includes(t)`. */
  function Includes(s: string, t: string): (r: bool)
    ensures t == [] ==> r
    ensures |t| > |s| ==> !r
  {
    t <= s || (s != [] && Includes(s[1..], t))
  }

  /** `includes` finds exactly the occurrences of `t` in `s`. */
  lemma {:induction false} IncludesIff(s: string, t: string)
    ensures Includes(s, t) <==> exists i :: OccursAt(s, t, i)
  {
    if t <= s {
      assert OccursAt(s, t, 0);
    } else if s == [] {
    } else {
      IncludesIff(s[1..], t);
      if exists i :: OccursAt(s[1..], t, i) {
        var i :| OccursAt(s[1..], t, i);
        assert s[1..][i..i + |t|] == s[i + 1..i + 1 + |t|];
        assert OccursAt(s, t, i + 1);
      }
      if exists i :: OccursAt(s, t, i) {
        var i :| OccursAt(s, t, i);
        assert i != 0;
        assert s[1..][i - 1..i - 1 + |t|] == s[i..i + |t|];
        assert OccursAt(s[1..], t, i - 1);
      }
    }
  }

  /** `text.toLowerCase().includes(term.toLowerCase())`: the search every list screen runs. */
  predicate Matches(text: string, term: string)
  {
    Includes(ToLower(text), ToLower(term))
  }

  lemma ToLowerIdempotent(s: string)
    ensures ToLower(ToLower(s)) == ToLower(s)
  {
  }

  lemma ToLowerAppend(t: string, u: string)
    ensures ToLower(t + u) == ToLower(t) + ToLower(u)
  {
    assert forall i :: 0 <= i < |t + u| ==> ToLower(t + u)[i] == (ToLower(t) + ToLower(u))[i];
  }

  /** The search ignores the case of the term: typing it in capitals finds the same texts. */
  lemma MatchesIgnoresTermCase(text: string, term: string)
    ensures Matches(text, term) == Matches(text, ToLower(term))
  {
    ToLowerIdempotent(term);
  }

  /** Typing more characters into the search box can only rule texts out. */
  lemma MatchesNarrows(text: string, term: string, more: string)
    ensures Matches(text, term + more) ==> Matches(text, term)
  {
    var s := ToLower(text);
    var t := ToLower(term);
    ToLowerAppend(term, more);
    IncludesIff(s, t + ToLower(more));
    IncludesIff(s, t);
    if Matches(text, term + more) {
      var i :| OccursAt(s, t + ToLower(more), i);
      assert s[i..i + |t|] == (t + ToLower(more))[..|t|];
      assert OccursAt(s, t, i);
    }
  }

  /** `parts.join(sep)`. */
  function Join(parts: seq<string>, sep: string): string
  {
    if parts == [] then ""
    else if |parts| == 1 then parts[0]
    else parts[0] + sep + Join(parts[1..], sep)
  }

  /** Every part of a join occurs in it; `i` is where part `k` starts. */
  lemma {:induction false} JoinHasPart(parts: seq<string>, sep: string, k: int) returns (i: int)
    requires 0 <= k < |parts|
    ensures OccursAt(Join(parts, sep), parts[k], i)
  {
    var joined := Join(parts, sep);
    if k == 0 {
      i := 0;
      if |parts| > 1 {
        assert joined == parts[0] + (sep + Join(parts[1..], sep));
      }
      assert joined[..|parts[0]|] == parts[0];
    } else {
      var rest := Join(parts[1..], sep);
      var j := JoinHasPart(parts[1..], sep, k - 1);
      var head := parts[0] + sep;
      assert joined == head + rest;
      i := |head| + j;
      assert joined[i..i + |parts[k]|] == rest[j..j + |parts[k]|];
    }
  }

  /** What occurs in a text still occurs, at the same place, once more text follows it. */
  lemma OccursInLonger(s: string, more: string, t: string, i: int)
    requires OccursAt(s, t, i)
    ensures OccursAt(s + more, t, i)
  {
    assert (s + more)[i..i + |t|] == s[i..i + |t|];
  }

  /** `s.startsWith(p)`. */
  predicate StartsWith(s: string, p: string)
  {
    p <= s
  }
}
