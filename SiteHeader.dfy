/**
 * The site header's avatar fallback: the initials of the profile's display name.
 */
module SiteHeader {
  import opened Wrappers
  import opened JsString

  const NO_NAME := "?"
  const MAX_INITIALS := 2

  /** `words.map(w => w[0]).join("")`: the first character of each word, where an empty word
      (`w[0]` is `undefined`, which `join` writes as nothing) contributes nothing. */
  function FirstLetters(words: seq<string>): (r: string)
    ensures |r| <= |words|
  {
    if words == [] then ""
    else (if words[0] == "" then "" else [words[0][0]]) + FirstLetters(words[1..])
  }

  /** The first `n` characters, or all of them when there are fewer: `slice(0, n)`. */
  function Take(s: string, n: nat): (r: string)
    ensures |r| == if |s| < n then |s| else n
    ensures r == s[..|r|]
  {
    if |s| < n then s else s[..n]
  }

  /** `getInitials(name)`: `"?"` without a name; otherwise the uppercased first letters of the
      space-separated words, at most two. */
  function GetInitials(name: Option<string>): (r: string)
    ensures name.None? || name.value == "" ==> r == NO_NAME
    ensures |r| <= MAX_INITIALS
    ensures forall i | 0 <= i < |r| :: !IsAsciiLower(r[i])
  {
    if name.None? || name.value == "" then NO_NAME
    else Take(Upper(FirstLetters(Split(name.value, ' '))), MAX_INITIALS)
  }

  /** The letters joined are exactly the first characters of the non-empty words. */
  lemma {:induction false} FirstLettersOfNonEmptyWords(words: seq<string>)
    ensures var ws := DropEmpty(words);
            |FirstLetters(words)| == |ws| && forall i | 0 <= i < |ws| :: FirstLetters(words)[i] == ws[i][0]
  {
    if words != [] {
      FirstLettersOfNonEmptyWords(words[1..]);
    }
  }

  /** The initials are the uppercased first characters of the first two non-empty words, in
      order: runs of spaces count for nothing. */
  lemma InitialsOfWords(name: string)
    requires name != ""
    ensures var ws := DropEmpty(Split(name, ' '));
            var r := GetInitials(Some(name));
            && |r| == (if |ws| < MAX_INITIALS then |ws| else MAX_INITIALS)
            && forall i | 0 <= i < |r| :: r[i] == UpperChar(ws[i][0])
  {
    FirstLettersOfNonEmptyWords(Split(name, ' '));
  }

  /** Splitting a run of separators gives only empty pieces. */
  lemma {:induction false} SplitOfSeparatorsOnly(s: string, sep: char)
    requires forall i | 0 <= i < |s| :: s[i] == sep
    ensures forall i | 0 <= i < |Split(s, sep)| :: Split(s, sep)[i] == ""
  {
    if s != [] {
      SplitOfSeparatorsOnly(s[1..], sep);
    }
  }

  /** A name of spaces only is not "no name", so it yields the empty string rather than `"?"`. */
  lemma SpacesOnlyName(name: string)
    requires name != "" && forall i | 0 <= i < |name| :: name[i] == ' '
    ensures GetInitials(Some(name)) == ""
  {
    var words := Split(name, ' ');
    SplitOfSeparatorsOnly(name, ' ');
    InitialsOfWords(name);
    assert DropEmpty(words) == [] by {
      NoNonEmptyWords(words);
    }
  }

  lemma {:induction false} NoNonEmptyWords(words: seq<string>)
    requires forall i | 0 <= i < |words| :: words[i] == ""
    ensures DropEmpty(words) == []
  {
    if words != [] {
      NoNonEmptyWords(words[1..]);
    }
  }
}
