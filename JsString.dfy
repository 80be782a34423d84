/**
 * The JavaScript string operations the application code relies on:
 * `trim`, `split` on a one-character separator, `Array.prototype.join`,
 * `startsWith`, and `toLowerCase` / `toUpperCase` restricted to ASCII letters.
 * Strings are sequences of characters; one `char` stands for one Unicode scalar value.
 */
module JsString {

  /** The code points `String.prototype.trim` removes: ECMAScript WhiteSpace and LineTerminator. */
  predicate IsWhitespace(c: char) {
    || c == '\t' || c == '\n' || c == '\U{000B}' || c == '\U{000C}' || c == '\r' || c == ' '
    || c == '\U{00A0}' || c == '\U{1680}' || ('\U{2000}' <= c <= '\U{200A}')
    || c == '\U{2028}' || c == '\U{2029}' || c == '\U{202F}' || c == '\U{205F}'
    || c == '\U{3000}' || c == '\U{FEFF}'
  }

  /** A string with no whitespace at either end: what `trim` leaves unchanged. */
  predicate Trimmed(s: string) {
    s == [] || (!IsWhitespace(s[0]) && !IsWhitespace(s[|s| - 1]))
  }

  /** Removes the leading whitespace. */
  function TrimStart(s: string): (r: string)
    ensures |r| <= |s| && r == s[|s| - |r|..]
    ensures forall i | 0 <= i < |s| - |r| :: IsWhitespace(s[i])
    ensures r == [] || !IsWhitespace(r[0])
  {
    if |s| > 0 && IsWhitespace(s[0]) then TrimStart(s[1..]) else s
  }

  /** Removes the trailing whitespace. */
  function TrimEnd(s: string): (r: string)
    ensures |r| <= |s| && r == s[..|r|]
    ensures forall i | |r| <= i < |s| :: IsWhitespace(s[i])
    ensures r == [] || !IsWhitespace(r[|r| - 1])
  {
    if |s| > 0 && IsWhitespace(s[|s| - 1]) then TrimEnd(s[..|s| - 1]) else s
  }

  /** `s.trim()`: the longest infix of `s` that neither starts nor ends with whitespace. */
  function Trim(s: string): (r: string)
    ensures Trimmed(r)
    ensures |r| <= |s|
    ensures forall c | c in r :: c in s
  {
    TrimEnd(TrimStart(s))
  }

  /** `trim` returns a slice of the input with only whitespace before and after it. With
      `Trimmed(Trim(s))` this fixes the result: the longest slice neither starting nor ending
      with whitespace. */
  lemma TrimIsSlice(s: string)
    ensures exists a | 0 <= a <= |s| - |Trim(s)| :: && Trim(s) == s[a..][..|Trim(s)|]
                                                    && (forall i | 0 <= i < a :: IsWhitespace(s[i]))
                                                    && (forall i | a + |Trim(s)| <= i < |s| :: IsWhitespace(s[i]))
  {
    var a := |s| - |TrimStart(s)|;
    TrimSliceAt(s);
    assert && 0 <= a <= |s| - |Trim(s)| && Trim(s) == s[a..][..|Trim(s)|]
           && (forall i | 0 <= i < a :: IsWhitespace(s[i]))
           && (forall i | a + |Trim(s)| <= i < |s| :: IsWhitespace(s[i]));
  }

  /** The slice starts where `TrimStart` leaves off. */
  lemma TrimSliceAt(s: string)
    ensures var a := |s| - |TrimStart(s)|;
            && 0 <= a <= |s| - |Trim(s)| && Trim(s) == s[a..][..|Trim(s)|]
            && (forall i | 0 <= i < a :: IsWhitespace(s[i]))
            && (forall i | a + |Trim(s)| <= i < |s| :: IsWhitespace(s[i]))
  {
    var t := TrimStart(s);
    var r := TrimEnd(t);
    var a := |s| - |t|;
    assert r == Trim(s);
    assert t == s[a..];
    forall i | a + |r| <= i < |s| ensures IsWhitespace(s[i]) {
      assert s[i] == t[i - a];
    }
  }

  /** A string that `trim` leaves as it is. */
  lemma TrimOfTrimmed(s: string)
    requires Trimmed(s)
    ensures Trim(s) == s
  {
  }

  /** Trimming `" " + x` gives back `x` when `x` has no surrounding whitespace. */
  lemma {:induction false} TrimAfterSpace(x: string)
    requires Trimmed(x)
    ensures Trim([' '] + x) == x
  {
    assert ([' '] + x)[1..] == x;
    assert TrimStart([' '] + x) == TrimStart(x) == x;
  }

  /** `s.split(sep)` for a one-character separator: the pieces between separators, at least one. */
  function Split(s: string, sep: char): (parts: seq<string>)
    ensures |parts| >= 1
    ensures forall i | 0 <= i < |parts| :: sep !in parts[i]
    ensures Join(parts, [sep]) == s
  {
    if s == [] then [""]
    else
      var rest := Split(s[1..], sep);
      if s[0] == sep then
        assert s == [sep] + s[1..];
        [""] + rest
      else
        var parts := [[s[0]] + rest[0]] + rest[1..];
        JoinCons(rest, [sep]);
        JoinCons(parts, [sep]);
        assert s == [s[0]] + s[1..];
        parts
  }

  /** `xs.join(sep)`: the items with `sep` between consecutive ones; `[].join(sep)` is `""`. */
  function Join(xs: seq<string>, sep: string): string
  {
    if |xs| == 0 then ""
    else if |xs| == 1 then xs[0]
    else xs[0] + sep + Join(xs[1..], sep)
  }

  /** Unfolds `Join` one item at a time. */
  lemma JoinCons(xs: seq<string>, sep: string)
    requires |xs| >= 1
    ensures Join(xs, sep) == if |xs| == 1 then xs[0] else xs[0] + sep + Join(xs[1..], sep)
  {
  }

  /** A string without the separator splits into itself. */
  lemma {:induction false} SplitWithoutSeparator(a: string, sep: char)
    requires sep !in a
    ensures Split(a, sep) == [a]
  {
    if a != [] {
      SplitWithoutSeparator(a[1..], sep);
      assert a == [a[0]] + a[1..];
    }
  }

  /** Splitting at the first separator. */
  lemma {:induction false} SplitAtFirst(a: string, b: string, sep: char)
    requires sep !in a
    ensures Split(a + [sep] + b, sep) == [a] + Split(b, sep)
  {
    var s := a + [sep] + b;
    if a == [] {
      assert s[1..] == b;
    } else {
      assert s[1..] == a[1..] + [sep] + b;
      SplitAtFirst(a[1..], b, sep);
      assert [s[0]] + a[1..] == a;
    }
  }

  /** `split` undoes `join` on the same separator when no item contains it. */
  lemma {:induction false} SplitOfJoin(xs: seq<string>, sep: char)
    requires |xs| >= 1
    requires forall i | 0 <= i < |xs| :: sep !in xs[i]
    ensures Split(Join(xs, [sep]), sep) == xs
  {
    if |xs| == 1 {
      SplitWithoutSeparator(xs[0], sep);
    } else {
      SplitAtFirst(xs[0], Join(xs[1..], [sep]), sep);
      SplitOfJoin(xs[1..], sep);
    }
  }

  /** The first piece of `s.split(sep)` is all of `s` or is followed in `s` by a separator. */
  lemma SplitHeadShape(s: string, sep: char)
    ensures var head := Split(s, sep)[0]; s == head || StartsWith(s, head + [sep])
  {
    var parts := Split(s, sep);
    JoinCons(parts, [sep]);
    if |parts| > 1 {
      assert s == parts[0] + [sep] + Join(parts[1..], [sep]);
      assert s[..|parts[0]| + 1] == parts[0] + [sep];
    }
  }

  /** The first piece of `s.split(sep)` is `w` exactly when `s` is `w` or starts with `w` and a separator. */
  lemma {:induction false} SplitHead(s: string, w: string, sep: char)
    requires sep !in w
    ensures Split(s, sep)[0] == w <==> s == w || StartsWith(s, w + [sep])
  {
    if s == w {
      SplitWithoutSeparator(w, sep);
    } else if StartsWith(s, w + [sep]) {
      var b := s[|w| + 1..];
      assert s == w + [sep] + b;
      SplitAtFirst(w, b, sep);
    } else {
      SplitHeadShape(s, sep);
    }
  }

  /** The items after the first one, each preceded by a space. */
  function Spaced(xs: seq<string>): (r: seq<string>)
    ensures |r| == |xs|
    ensures |xs| > 0 ==> r[0] == xs[0]
    ensures forall i | 0 < i < |xs| :: r[i] == [' '] + xs[i]
  {
    if |xs| == 0 then [] else [xs[0]] + seq(|xs| - 1, i requires 0 <= i < |xs| - 1 => [' '] + xs[i + 1])
  }

  /** Prefixing the first item prefixes the joined string. */
  lemma JoinPrefixFirst(x: string, ys: seq<string>, sep: string)
    requires |ys| >= 1
    ensures Join([x + ys[0]] + ys[1..], sep) == x + Join(ys, sep)
  {
    var zs := [x + ys[0]] + ys[1..];
    assert zs[1..] == ys[1..];
    JoinCons(zs, sep);
    JoinCons(ys, sep);
  }

  /** Joining with `", "` is joining the spaced items with `","`. */
  lemma {:induction false} JoinCommaSpace(xs: seq<string>)
    ensures Join(xs, ", ") == Join(Spaced(xs), ",")
  {
    if |xs| >= 2 {
      var sp := Spaced(xs);
      var tail := Spaced(xs[1..]);
      var rest := Join(xs[1..], ", ");
      JoinCommaSpace(xs[1..]);
      assert Join(tail, ",") == rest;
      assert sp[1..] == [[' '] + tail[0]] + tail[1..];
      JoinPrefixFirst([' '], tail, ",");
      assert Join(sp[1..], ",") == [' '] + rest;
      JoinCons(sp, ",");
      JoinCons(xs, ", ");
      assert xs[0] + "," + ([' '] + rest) == xs[0] + ", " + rest;
    }
  }

  /** `.filter(Boolean)` on a list of strings: drops the empty ones. Every non-empty string
      occurs as often in the result as in the input; `DropEmptyAppend` adds that the order is kept. */
  function DropEmpty(xs: seq<string>): (r: seq<string>)
    ensures "" !in r
    ensures forall x | x != "" :: multiset(r)[x] == multiset(xs)[x]
    ensures |r| <= |xs|
    ensures "" !in xs ==> r == xs
  {
    if xs == [] then []
    else
      var rest := DropEmpty(xs[1..]);
      assert xs == [xs[0]] + xs[1..];
      assert multiset(xs) == multiset([xs[0]]) + multiset(xs[1..]);
      if xs[0] == "" then rest
      else
        assert multiset([xs[0]] + rest) == multiset([xs[0]]) + multiset(rest);
        [xs[0]] + rest
  }

  /** One step of the filter: the head is kept iff it is non-empty. */
  lemma DropEmptyCons(xs: seq<string>)
    requires xs != []
    ensures DropEmpty(xs) == (if xs[0] == "" then [] else [xs[0]]) + DropEmpty(xs[1..])
  {
  }

  /** A single string is kept iff it is non-empty. */
  lemma DropEmptyOne(x: string)
    ensures DropEmpty([x]) == if x == "" then [] else [x]
  {
    DropEmptyCons([x]);
    assert [x][1..] == [];
  }

  /** Filtering works piece by piece: the filter of a concatenation is the concatenation of
      the filters. With `DropEmptyOne` this fixes the filter: the kept strings stay in order. */
  lemma {:induction false} DropEmptyAppend(a: seq<string>, b: seq<string>)
    ensures DropEmpty(a + b) == DropEmpty(a) + DropEmpty(b)
  {
    if a == [] {
      assert a + b == b;
    } else {
      var head := if a[0] == "" then [] else [a[0]];
      assert DropEmpty(a + b) == head + DropEmpty(a[1..] + b) by {
        assert (a + b)[0] == a[0] && (a + b)[1..] == a[1..] + b;
        DropEmptyCons(a + b);
      }
      assert DropEmpty(a) == head + DropEmpty(a[1..]) by {
        DropEmptyCons(a);
      }
      DropEmptyAppend(a[1..], b);
      assert head + (DropEmpty(a[1..]) + DropEmpty(b)) == (head + DropEmpty(a[1..])) + DropEmpty(b);
    }
  }

  /** `s.startsWith(prefix)`. */
  predicate StartsWith(s: string, prefix: string) {
    |prefix| <= |s| && s[..|prefix|] == prefix
  }

  predicate IsAsciiUpper(c: char) { 'A' <= c <= 'Z' }

  predicate IsAsciiLower(c: char) { 'a' <= c <= 'z' }

  /** `toLowerCase` on one character, for the ASCII letters. */
  function LowerChar(c: char): (r: char)
    ensures !IsAsciiUpper(r)
    ensures IsAsciiUpper(c) ==> IsAsciiLower(r) && r as int - c as int == 32
    ensures !IsAsciiUpper(c) ==> r == c
  {
    if IsAsciiUpper(c) then (c as int + 32) as char else c
  }

  /** `toUpperCase` on one character, for the ASCII letters. */
  function UpperChar(c: char): (r: char)
    ensures !IsAsciiLower(r)
    ensures IsAsciiLower(c) ==> IsAsciiUpper(r) && c as int - r as int == 32
    ensures !IsAsciiLower(c) ==> r == c
  {
    if IsAsciiLower(c) then (c as int - 32) as char else c
  }

  /** `s.toLowerCase()`. */
  function Lower(s: string): (r: string)
    ensures |r| == |s|
    ensures forall i | 0 <= i < |s| :: r[i] == LowerChar(s[i])
  {
    seq(|s|, i requires 0 <= i < |s| => LowerChar(s[i]))
  }

  /** `s.toUpperCase()`. */
  function Upper(s: string): (r: string)
    ensures |r| == |s|
    ensures forall i | 0 <= i < |s| :: r[i] == UpperChar(s[i])
  {
    seq(|s|, i requires 0 <= i < |s| => UpperChar(s[i]))
  }

  /** ASCII case mapping only changes letters, so it keeps whitespace, commas and emptiness. */
  lemma CaseMappingKeepsShape(s: string)
    ensures Trimmed(s) ==> Trimmed(Lower(s)) && Trimmed(Upper(s))
    ensures ',' !in s ==> ',' !in Lower(s) && ',' !in Upper(s)
  {
    if ',' !in s {
      forall i | 0 <= i < |s| ensures Lower(s)[i] != ',' && Upper(s)[i] != ',' {
        assert s[i] != ',';
      }
    }
  }
}
