/**
 * The `countryCode` query parameter of an import request: trimmed and
 * upper-cased, then checked to be a string, non-empty and exactly two
 * characters long.
 */
module ImportQuery {
  import opened Wrappers

  /** The parameter as it reaches the transforms. */
  datatype QueryValue = Missing | Text(s: string) | NonText

  /** The failed checks. `TransformThrew` is the `trim()` call failing on a
      value that is not a string, before any check runs. */
  datatype CountryCodeError = NotAString | IsEmpty | WrongLength | TransformThrew

  /** ECMAScript white space and line terminators, the characters `trim()`
      removes. */
  predicate IsWhitespace(c: char) {
    var n := c as int;
    || 0x09 <= n <= 0x0D
    || n == 0x20 || n == 0xA0 || n == 0x1680
    || 0x2000 <= n <= 0x200A
    || n == 0x2028 || n == 0x2029 || n == 0x202F || n == 0x205F
    || n == 0x3000 || n == 0xFEFF
  }

  predicate IsLower(c: char) {
    'a' <= c <= 'z'
  }

  /** No white space at either end. */
  predicate IsTrimmed(s: string) {
    s == [] || (!IsWhitespace(s[0]) && !IsWhitespace(s[|s| - 1]))
  }

  /** The length of the white space that `s` starts with. */
  function LeadingSpace(s: string): (n: nat)
    ensures n <= |s|
    ensures forall i :: 0 <= i < n ==> IsWhitespace(s[i])
    ensures n == |s| || !IsWhitespace(s[n])
  {
    if s != [] && IsWhitespace(s[0]) then 1 + LeadingSpace(s[1..]) else 0
  }

  function TrimStart(s: string): (t: string)
    ensures |t| <= |s| && t == s[|s| - |t|..]
    ensures forall i :: 0 <= i < |s| - |t| ==> IsWhitespace(s[i])
    ensures t == [] || !IsWhitespace(t[0])
  {
    s[LeadingSpace(s)..]
  }

  function TrimEnd(s: string): (t: string)
    ensures |t| <= |s| && t == s[..|t|]
    ensures forall i :: |t| <= i < |s| ==> IsWhitespace(s[i])
    ensures t == [] || !IsWhitespace(t[|t| - 1])
  {
    if s != [] && IsWhitespace(s[|s| - 1]) then TrimEnd(s[..|s| - 1]) else s
  }

  /** `String.prototype.trim`: the result is the slice of `s` that starts
      after its leading white space, is followed only by white space, and has
      no white space at its ends. */
  function Trim(s: string): (t: string)
    ensures IsTrimmed(t)
    ensures LeadingSpace(s) + |t| <= |s| && t == s[LeadingSpace(s)..LeadingSpace(s) + |t|]
    ensures forall i :: LeadingSpace(s) + |t| <= i < |s| ==> IsWhitespace(s[i])
  {
    var a := LeadingSpace(s);
    var t := TrimEnd(s[a..]);
    assert t == s[a..][..|t|] == s[a..a + |t|];
    t
  }

  function UpperChar(c: char): (d: char)
    ensures !IsLower(d)
    ensures IsWhitespace(d) <==> IsWhitespace(c)
    ensures !IsLower(c) ==> d == c
  {
    if IsLower(c) then (c as int - 32) as char else c
  }

  /** `String.prototype.toUpperCase`, on ASCII letters. */
  function ToUpperCase(s: string): (t: string)
    ensures |t| == |s|
    ensures forall i :: 0 <= i < |s| ==> t[i] == UpperChar(s[i])
  {
    if s == [] then [] else [UpperChar(s[0])] + ToUpperCase(s[1..])
  }

  /** The two transforms, in either order (see `TrimCommutesWithUpperCase`):
      the result has no white space at its ends and no lower-case letter. */
  function Normalize(s: string): (t: string)
    ensures IsTrimmed(t)
    ensures forall i :: 0 <= i < |t| ==> !IsLower(t[i])
    ensures t == ToUpperCase(Trim(s))
  {
    var u := ToUpperCase(s);
    var t := Trim(u);
    SliceOfUpperHasNoLower(u, LeadingSpace(u), t);
    TrimCommutesWithUpperCase(s);
    t
  }

  lemma SliceOfUpperHasNoLower(u: string, a: nat, t: string)
    requires forall i :: 0 <= i < |u| ==> !IsLower(u[i])
    requires a + |t| <= |u| && t == u[a..a + |t|]
    ensures forall i :: 0 <= i < |t| ==> !IsLower(t[i])
  {
    forall i | 0 <= i < |t|
      ensures !IsLower(t[i])
    {
      assert t[i] == u[a + i];
    }
  }

  /** A string with no lower-case letter is its own upper case. */
  lemma UpperCaseOfUpper(s: string)
    requires forall i :: 0 <= i < |s| ==> !IsLower(s[i])
    ensures ToUpperCase(s) == s
  {
  }

  lemma {:induction false} TrimOfTrimmed(s: string)
    requires IsTrimmed(s)
    ensures Trim(s) == s
  {
    assert TrimStart(s) == s;
  }

  /** The order of the two transforms does not matter. */
  lemma {:induction false} TrimCommutesWithUpperCase(s: string)
    ensures Trim(ToUpperCase(s)) == ToUpperCase(Trim(s))
  {
    TrimStartCommutes(s);
    TrimEndCommutes(TrimStart(s));
  }

  lemma {:induction false} TrimStartCommutes(s: string)
    ensures TrimStart(ToUpperCase(s)) == ToUpperCase(TrimStart(s))
  {
    LeadingSpaceOfUpperCase(s);
    var a := LeadingSpace(s);
    assert ToUpperCase(s)[a..] == ToUpperCase(s[a..]);
  }

  /** Upper-casing keeps the leading white space. */
  lemma {:induction false} LeadingSpaceOfUpperCase(s: string)
    ensures LeadingSpace(ToUpperCase(s)) == LeadingSpace(s)
  {
    if s != [] {
      assert ToUpperCase(s)[1..] == ToUpperCase(s[1..]);
      LeadingSpaceOfUpperCase(s[1..]);
    }
  }

  lemma {:induction false} TrimEndCommutes(s: string)
    ensures TrimEnd(ToUpperCase(s)) == ToUpperCase(TrimEnd(s))
  {
    if s != [] {
      var n := |s| - 1;
      assert ToUpperCase(s)[..n] == ToUpperCase(s[..n]);
      TrimEndCommutes(s[..n]);
    }
  }

  /** A normalized value has no white space at its ends and no lower-case
      letter, and normalizing it again changes nothing. */
  lemma NormalizeIdempotent(s: string)
    ensures IsTrimmed(Normalize(s))
    ensures forall i :: 0 <= i < |Normalize(s)| ==> !IsLower(Normalize(s)[i])
    ensures Normalize(Normalize(s)) == Normalize(s)
  {
    var u := ToUpperCase(s);
    var t := Normalize(s);
    TrimCommutesWithUpperCase(s);
    UpperCaseOfUpper(t);
    TrimOfTrimmed(t);
  }

  /**
   * The transformed and validated `countryCode`. Every failed check is
   * reported; an accepted value is the normalized input, two characters
   * long, with no surrounding white space and no lower-case letter.
   */
  function ValidateCountryCode(v: QueryValue): (r: Result<string, set<CountryCodeError>>)
    ensures r.Ok? <==> v.Text? && |Normalize(v.s)| == 2
    ensures r.Ok? ==>
              && r.value == Normalize(v.s)
              && |r.value| == 2
              && IsTrimmed(r.value)
              && (forall i :: 0 <= i < |r.value| ==> !IsLower(r.value[i]))
              && Normalize(r.value) == r.value
    ensures v.Missing? ==> r == Err({NotAString, IsEmpty, WrongLength})
    ensures v.NonText? ==> r == Err({TransformThrew})
    ensures v.Text? && r.Err? ==>
              r.error == if |Normalize(v.s)| == 0 then {IsEmpty, WrongLength} else {WrongLength}
  {
    match v
    case Missing => Err({NotAString, IsEmpty, WrongLength})
    case NonText => Err({TransformThrew})
    case Text(s) =>
      var code := Normalize(s);
      if |code| == 2 then
        NormalizeIdempotent(s);
        Ok(code)
      else if |code| == 0 then Err({IsEmpty, WrongLength})
      else Err({WrongLength})
  }
}
