/** Character-level helpers of the configuration registry: the C-locale
    lower-casing applied to every variable name (mocker/config.h:28) and the
    `find_first_not_of` scan that validates a new name (mocker/config.h:368). */
module ConfigNames {
  import opened Wrappers

  /** The characters a configuration name may consist of. */
  const Allowed: string := "abcdefghijklmnopqrstuvwxyz._0123456789"

  /** The membership test against `Allowed`, written as character ranges. */
  predicate IsNameChar(c: char) {
    ('a' <= c <= 'z') || c == '.' || c == '_' || ('0' <= c <= '9')
  }

  lemma AllowedIsNameChars(c: char)
    ensures c in Allowed <==> IsNameChar(c)
  {
  }

  predicate IsUpper(c: char) {
    'A' <= c <= 'Z'
  }

  /** `::tolower` in the "C" locale: upper-case ASCII letters move down by
      32 code points, every other character is left alone. */
  function ToLower(c: char): (d: char)
    ensures !IsUpper(d)
    ensures IsUpper(c) ==> d as int == c as int + 32
    ensures !IsUpper(c) ==> d == c
  {
    if IsUpper(c) then (c as int + 32) as char else c
  }

  /** `std::transform(s.begin(), s.end(), s.begin(), ::tolower)`. */
  function Lower(s: string): (r: string)
    ensures |r| == |s|
    ensures forall i :: 0 <= i < |s| ==> r[i] == ToLower(s[i])
  {
    seq(|s|, i requires 0 <= i < |s| => ToLower(s[i]))
  }

  predicate HasNoUpper(s: string) {
    forall i :: 0 <= i < |s| ==> !IsUpper(s[i])
  }

  /** `s.find_first_not_of(chars)`: the index of the first character of `s`
      that does not occur in `chars`, or `None` for `npos`. */
  function FindFirstNotOf(s: string, chars: string): (r: Option<nat>)
    ensures r.None? <==> forall i :: 0 <= i < |s| ==> s[i] in chars
    ensures r.Some? ==> r.value < |s| && s[r.value] !in chars
    ensures r.Some? ==> forall i :: 0 <= i < r.value ==> s[i] in chars
    decreases |s|
  {
    if |s| == 0 then None
    else if s[0] !in chars then Some(0)
    else
      match FindFirstNotOf(s[1..], chars)
      case None => None
      case Some(i) => Some(i + 1)
  }

  /** A name the registry accepts for a new variable: every character is
      one of `Allowed`. */
  predicate ValidName(s: string) {
    forall i :: 0 <= i < |s| ==> s[i] in Allowed
  }

  /** The validation of mocker/config.h:368 accepts exactly the valid names. */
  lemma FindFirstNotOfDecidesValidName(s: string)
    ensures FindFirstNotOf(s, Allowed).None? <==> ValidName(s)
  {
  }

  /** Lower-casing leaves no upper-case letter behind. */
  lemma LowerHasNoUpper(s: string)
    ensures HasNoUpper(Lower(s))
  {
  }

  /** Lower-casing is idempotent. */
  lemma LowerIdempotent(s: string)
    ensures Lower(Lower(s)) == Lower(s)
  {
  }

  /** Strings with no upper-case letter, in particular valid names, are
      fixed points of lower-casing. */
  lemma LowerOfLowercase(s: string)
    ensures HasNoUpper(s) <==> Lower(s) == s
  {
    if Lower(s) == s {
      forall i | 0 <= i < |s| ensures !IsUpper(s[i]) {
        assert s[i] == Lower(s)[i];
      }
    }
  }

  lemma ValidNameHasNoUpper(s: string)
    requires ValidName(s)
    ensures HasNoUpper(s)
    ensures Lower(s) == s
  {
    forall i | 0 <= i < |s| ensures !IsUpper(s[i]) {
      AllowedIsNameChars(s[i]);
    }
    LowerOfLowercase(s);
  }
}
