/** The few Python string methods the configuration code applies to its
    selectors: `str.lower`, `str.upper` and `str.strip`.  Case mapping covers
    the ASCII letters only; `IsSpace` is Python's full whitespace set. */
module Text {

  /** Python's `str.isspace` for one character. */
  predicate IsSpace(ch: char)
  {
    ch == ' ' || '\t' <= ch <= '\r' || '\U{1C}' <= ch <= '\U{1F}'
    || ch == '\U{85}' || ch == '\U{A0}' || ch == '\U{1680}'
    || '\U{2000}' <= ch <= '\U{200A}' || ch == '\U{2028}' || ch == '\U{2029}'
    || ch == '\U{202F}' || ch == '\U{205F}' || ch == '\U{3000}'
  }

  function LowerChar(ch: char): char
  {
    if 'A' <= ch <= 'Z' then (ch as int + 32) as char else ch
  }

  function UpperChar(ch: char): char
  {
    if 'a' <= ch <= 'z' then (ch as int - 32) as char else ch
  }

  /** `str.lower()` on ASCII: every letter A-Z becomes a-z, and nothing
      else changes, so no upper-case ASCII letter is left. */
  function Lower(s: string): (r: string)
    ensures |r| == |s|
    ensures forall i :: 0 <= i < |s| ==> r[i] == LowerChar(s[i])
    ensures forall i :: 0 <= i < |r| ==> !('A' <= r[i] <= 'Z')
  {
    seq(|s|, i requires 0 <= i < |s| => LowerChar(s[i]))
  }

  /** `str.upper()` on ASCII: every letter a-z becomes A-Z, and nothing
      else changes, so no lower-case ASCII letter is left. */
  function Upper(s: string): (r: string)
    ensures |r| == |s|
    ensures forall i :: 0 <= i < |s| ==> r[i] == UpperChar(s[i])
    ensures forall i :: 0 <= i < |r| ==> !('a' <= r[i] <= 'z')
  {
    seq(|s|, i requires 0 <= i < |s| => UpperChar(s[i]))
  }

  /** `str.lstrip()`: the suffix left after dropping leading whitespace. */
  function TrimStart(s: string): (r: string)
    ensures |r| <= |s| && r == s[|s| - |r|..]
    ensures forall k :: 0 <= k < |s| - |r| ==> IsSpace(s[k])
    ensures r == [] || !IsSpace(r[0])
    decreases |s|
  {
    if |s| > 0 && IsSpace(s[0]) then TrimStart(s[1..]) else s
  }

  /** `str.rstrip()`: the prefix left after dropping trailing whitespace. */
  function TrimEnd(s: string): (r: string)
    ensures |r| <= |s| && r == s[..|r|]
    ensures forall k :: |r| <= k < |s| ==> IsSpace(s[k])
    ensures r == [] || !IsSpace(r[|r| - 1])
    decreases |s|
  {
    if |s| > 0 && IsSpace(s[|s| - 1]) then TrimEnd(s[..|s| - 1]) else s
  }

  /** `str.strip()`: a slice of s, with only whitespace cut away on either
      side, that neither starts nor ends with whitespace. */
  function Strip(s: string): (r: string)
    ensures |r| <= |s|
    ensures r == [] || (!IsSpace(r[0]) && !IsSpace(r[|r| - 1]))
    ensures StripCut(s) + |r| <= |s| && r == s[StripCut(s)..StripCut(s) + |r|]
    ensures forall k :: 0 <= k < StripCut(s) ==> IsSpace(s[k])
    ensures forall k :: StripCut(s) + |r| <= k < |s| ==> IsSpace(s[k])
  {
    TrimEnd(TrimStart(s))
  }

  /** How many characters `Strip` cuts from the front. */
  function StripCut(s: string): nat
    ensures StripCut(s) <= |s|
  {
    |s| - |TrimStart(s)|
  }

  /** One step of `TrimStart` over a leading whitespace character. */
  lemma TrimStartSpace(s: string)
    requires |s| > 0 && IsSpace(s[0])
    ensures TrimStart(s) == TrimStart(s[1..])
  {
  }

  /** One step of `TrimEnd` over a trailing whitespace character. */
  lemma TrimEndSpace(s: string)
    requires |s| > 0 && IsSpace(s[|s| - 1])
    ensures TrimEnd(s) == TrimEnd(s[..|s| - 1])
  {
  }

  /** `TrimStart` keeps a string that does not start with whitespace. */
  lemma TrimStartKeeps(s: string)
    requires s == [] || !IsSpace(s[0])
    ensures TrimStart(s) == s
  {
  }

  /** `TrimEnd` keeps a string that does not end with whitespace. */
  lemma TrimEndKeeps(s: string)
    requires s == [] || !IsSpace(s[|s| - 1])
    ensures TrimEnd(s) == s
  {
  }

  /** Stripping a string that has no whitespace at either end changes nothing. */
  lemma StripTrimmed(s: string)
    requires s == [] || (!IsSpace(s[0]) && !IsSpace(s[|s| - 1]))
    ensures Strip(s) == s
  {
    assert TrimStart(s) == s;
  }

  /** Upper-casing is idempotent on every slice of an upper-cased string. */
  lemma UpperOfUpperSlice(s: string, a: nat, b: nat)
    requires a <= b <= |s|
    ensures Upper(Upper(s)[a..b]) == Upper(s)[a..b]
  {
    var u := Upper(s)[a..b];
    forall j | 0 <= j < |u|
      ensures Upper(u)[j] == u[j]
    {
      assert u[j] == UpperChar(s[a + j]);
    }
  }
}
