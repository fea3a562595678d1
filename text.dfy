/** String helpers standing for the two Python built-ins the calculator uses:
    `str.join` to build its error message and `str.upper` (on ASCII text
    only) to normalise the precision the user types. */
module Text {

  /** `sep.join(parts)`: the parts in order, with `sep` between neighbours. */
  function Join(parts: seq<string>, sep: string): string {
    if |parts| == 0 then ""
    else if |parts| == 1 then parts[0]
    else parts[0] + sep + Join(parts[1..], sep)
  }

  predicate IsLowerAscii(c: char) {
    'a' <= c <= 'z'
  }

  predicate IsUpperAscii(c: char) {
    'A' <= c <= 'Z'
  }

  /** The upper-case letter of an ASCII lower-case letter; every other character is kept. */
  function UpperChar(c: char): (u: char)
    ensures IsLowerAscii(c) ==> IsUpperAscii(u) && u as int == c as int - 32
    ensures !IsLowerAscii(c) ==> u == c
  {
    if IsLowerAscii(c) then (c as int - 32) as char else c
  }

  /** The lower-case letter of an ASCII upper-case letter; every other character is kept. */
  function LowerChar(c: char): (l: char)
    ensures IsUpperAscii(c) ==> IsLowerAscii(l) && UpperChar(l) == c
    ensures !IsUpperAscii(c) ==> l == c
  {
    if IsUpperAscii(c) then (c as int + 32) as char else c
  }

  /** `s.upper()` restricted to ASCII letters: same length, each lower-case
      letter replaced by its capital, every other character unchanged. */
  function ToUpper(s: string): (r: string)
    ensures |r| == |s|
    ensures forall i :: 0 <= i < |s| ==> r[i] == UpperChar(s[i])
    ensures forall i :: 0 <= i < |s| ==> !IsLowerAscii(r[i])
  {
    if s == [] then [] else [UpperChar(s[0])] + ToUpper(s[1..])
  }

  predicate NoLowerAscii(s: string) {
    forall i :: 0 <= i < |s| ==> !IsLowerAscii(s[i])
  }

  /** `s` spells `t` up to ASCII letter case: at every position `s` has
      either `t`'s character or, where that is a capital, its lower-case form. */
  predicate CaseVariant(s: string, t: string) {
    |s| == |t| &&
    forall i :: 0 <= i < |s| ==> s[i] == t[i] || (IsUpperAscii(t[i]) && s[i] == LowerChar(t[i]))
  }

  /** Upper-casing any spelling of a text without lower-case letters gives that text back. */
  lemma ToUpperOfCaseVariant(s: string, t: string)
    requires NoLowerAscii(t)
    requires CaseVariant(s, t)
    ensures ToUpper(s) == t
  {
  }

  /** Every text is a spelling, up to case, of its own upper-casing. */
  lemma CaseVariantOfToUpper(s: string)
    ensures CaseVariant(s, ToUpper(s))
  {
    var u := ToUpper(s);
    forall i | 0 <= i < |s|
      ensures s[i] == u[i] || (IsUpperAscii(u[i]) && s[i] == LowerChar(u[i]))
    {
      if IsLowerAscii(s[i]) {
        assert (s[i] as int - 32 + 32) as char == s[i];
      }
    }
  }

  /** Upper-casing twice changes nothing more. */
  lemma ToUpperIdempotent(s: string)
    ensures ToUpper(ToUpper(s)) == ToUpper(s)
  {
    var u := ToUpper(s);
    assert NoLowerAscii(u);
    ToUpperOfCaseVariant(u, u);
  }
}
