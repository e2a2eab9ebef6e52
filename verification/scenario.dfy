/** The scenario selector shared by the three flux-load scripts: each one
    upper-cases and strips its `STATE` string and accepts exactly 'INC'
    (incident flux per unit area), 'BOL' and 'EOL' (absorbed flux at the
    beginning or end of life); any other string raises `ValueError`. */
module Scenario {
  import opened Text

  datatype Mode = Inc | Bol | Eol

  /** A value, or the `ValueError` raised for an unknown scenario string. */
  datatype Result<T> = Ok(value: T) | ValueError(state: string)

  /** `state.upper().strip()`. */
  function Normalize(state: string): (r: string)
    ensures |r| <= |state|
    ensures r == [] || (!IsSpace(r[0]) && !IsSpace(r[|r| - 1]))
  {
    Strip(Upper(state))
  }

  function ParseMode(state: string): (r: Result<Mode>)
    ensures r == Ok(Inc) <==> Normalize(state) == "INC"
    ensures r == Ok(Bol) <==> Normalize(state) == "BOL"
    ensures r == Ok(Eol) <==> Normalize(state) == "EOL"
    ensures r.ValueError? ==> r.state == state
  {
    var st := Normalize(state);
    if st == "INC" then Ok(Inc)
    else if st == "BOL" then Ok(Bol)
    else if st == "EOL" then Ok(Eol)
    else ValueError(state)
  }

  /** Normalizing twice is normalizing once, so a selector that is already
      normalized is read exactly as the raw string it came from. */
  lemma NormalizeIdempotent(state: string)
    ensures Normalize(Normalize(state)) == Normalize(state)
  {
    var n := Normalize(state);
    NormalizedIsUpper(state);
    StripTrimmed(n);
  }

  lemma NormalizedIsUpper(state: string)
    ensures Upper(Normalize(state)) == Normalize(state)
  {
    var u := Upper(state);
    var n := Strip(u);
    var a := StripCut(u);
    assert n == u[a..a + |n|];
    UpperOfUpperSlice(state, a, a + |n|);
    assert Normalize(state) == n;
  }

  lemma ParseModeNormalized(state: string)
    ensures ParseMode(Normalize(state)).Ok? == ParseMode(state).Ok?
    ensures ParseMode(state).Ok? ==> ParseMode(Normalize(state)) == ParseMode(state)
  {
    NormalizeIdempotent(state);
  }

  /** Lower case and surrounding whitespace are accepted. */
  lemma ParseModePadded()
    ensures ParseMode(" bol\n") == Ok(Bol)
  {
    NormalizePadded();
  }

  lemma NormalizePadded()
    ensures Normalize(" bol\n") == "BOL"
  {
    UpperPadded();
    StripPadded();
  }

  lemma UpperPadded()
    ensures Upper(" bol\n") == " BOL\n"
  {
  }

  lemma StripPadded()
    ensures Strip(" BOL\n") == "BOL"
  {
    var padded := " BOL\n";
    var inner := "BOL\n";
    TrimStartSpace(padded);
    assert padded[1..] == inner;
    TrimStartKeeps(inner);
    TrimEndSpace(inner);
    assert inner[..3] == "BOL";
    TrimEndKeeps("BOL");
  }

  lemma ParseModeLowerCase()
    ensures ParseMode("eol") == Ok(Eol)
  {
    assert Upper("eol") == "EOL";
    StripTrimmed("EOL");
    assert Normalize("eol") == "EOL";
  }

  /** Only the exact words are accepted: a longer word is an error. */
  lemma ParseModeRejects()
    ensures ParseMode("BOLD").ValueError?
    ensures ParseMode("").ValueError?
  {
    assert Upper("BOLD") == "BOLD";
    StripTrimmed("BOLD");
    assert Normalize("BOLD") == "BOLD";
    assert |Normalize("BOLD")| == 4;
  }
}
