/** Python's `str.strip()` with no argument: remove leading and trailing
    characters for which `str.isspace()` holds. */
module Text {

  /** The characters Python's `str.isspace()` accepts (Unicode White_Space
      plus the separators U+001C..U+001F). */
  predicate IsSpace(c: char) {
    || '\t' <= c <= '\r'
    || '\U{1C}' <= c <= ' '
    || c == '\U{85}' || c == '\U{A0}' || c == '\U{1680}'
    || '\U{2000}' <= c <= '\U{200A}'
    || c == '\U{2028}' || c == '\U{2029}' || c == '\U{202F}'
    || c == '\U{205F}' || c == '\U{3000}'
  }

  /** The ASCII whitespace and the Unicode separators count; letters, the
      zero-width space U+200B and the byte-order mark U+FEFF do not. */
  lemma SpaceCharacters()
    ensures IsSpace(' ') && IsSpace('\t') && IsSpace('\n') && IsSpace('\r')
    ensures IsSpace('\U{B}') && IsSpace('\U{C}') && IsSpace('\U{1F}')
    ensures IsSpace('\U{85}') && IsSpace('\U{A0}') && IsSpace('\U{2003}')
    ensures IsSpace('\U{2028}') && IsSpace('\U{3000}')
    ensures !IsSpace('a') && !IsSpace('0') && !IsSpace('\U{8}')
    ensures !IsSpace('\U{200B}') && !IsSpace('\U{FEFF}')
  {
  }

  /** Every character of `s` is whitespace (vacuously so for ""). */
  predicate AllSpace(s: string) {
    s == [] || (IsSpace(s[0]) && AllSpace(s[1..]))
  }

  /** `AllSpace` says of each position what its name says. */
  lemma {:induction false} AllSpaceEverywhere(s: string)
    ensures AllSpace(s) <==> forall k :: 0 <= k < |s| ==> IsSpace(s[k])
  {
    if s != [] {
      AllSpaceEverywhere(s[1..]);
      assert forall k :: 1 <= k < |s| ==> s[k] == s[1..][k - 1];
    }
  }

  /** A concatenation is whitespace exactly when both halves are. */
  lemma {:induction false} AllSpaceAppend(a: string, b: string)
    ensures AllSpace(a + b) <==> AllSpace(a) && AllSpace(b)
  {
    if a == [] {
      assert a + b == b;
    } else {
      assert (a + b)[1..] == a[1..] + b;
      AllSpaceAppend(a[1..], b);
    }
  }

  /** Neither end of `s` is whitespace: what `strip()` returns. */
  predicate IsStripped(s: string) {
    s == [] || (!IsSpace(s[0]) && !IsSpace(s[|s| - 1]))
  }

  /** `lstrip()`: the suffix of `s` left after dropping leading whitespace. */
  function TrimStart(s: string): (r: string)
    ensures |r| <= |s| && r == s[|s| - |r|..]
    ensures AllSpace(s[..|s| - |r|])
    ensures r == [] || !IsSpace(r[0])
  {
    if s != [] && IsSpace(s[0]) then
      var r := TrimStart(s[1..]);
      assert s[..|s| - |r|] == [s[0]] + s[1..][..|s| - 1 - |r|];
      AllSpaceAppend([s[0]], s[1..][..|s| - 1 - |r|]);
      r
    else s
  }

  /** `rstrip()`: the prefix of `s` left after dropping trailing whitespace. */
  function TrimEnd(s: string): (r: string)
    ensures |r| <= |s| && r == s[..|r|]
    ensures AllSpace(s[|r|..])
    ensures r == [] || !IsSpace(r[|r| - 1])
  {
    if s != [] && IsSpace(s[|s| - 1]) then
      var r := TrimEnd(s[..|s| - 1]);
      assert s[|r|..] == s[..|s| - 1][|r|..] + [s[|s| - 1]];
      AllSpaceAppend(s[..|s| - 1][|r|..], [s[|s| - 1]]);
      r
    else s
  }

  /** `strip()`: a string that starts and ends with a non-whitespace
      character, or nothing at all when `s` is whitespace throughout. */
  function Strip(s: string): (r: string)
    ensures IsStripped(r) && |r| <= |s|
    ensures r == [] <==> AllSpace(s)
    ensures IsStripped(s) ==> r == s
  {
    var t := TrimStart(s);
    var r := TrimEnd(t);
    assert r == [] <==> AllSpace(s) by {
      assert s == s[..|s| - |t|] + t && t[0..] == t;
      AllSpaceAppend(s[..|s| - |t|], t);
    }
    r
  }

  /** A prefix `r` of a suffix `t` of `s` is the slice of `s` that starts
      where `t` does, and what follows `r` in `t` is the rest of `s`. */
  lemma PrefixOfSuffix<T>(s: seq<T>, t: seq<T>, r: seq<T>)
    requires |t| <= |s| && t == s[|s| - |t|..] && |r| <= |t| && r == t[..|r|]
    ensures |s| - |t| + |r| <= |s| && r == s[|s| - |t|..|s| - |t| + |r|]
    ensures s[|s| - |t| + |r|..] == t[|r|..]
  {
  }

  /** `strip()` keeps a prefix of what `lstrip()` keeps, and what it
      drops from that is whitespace. */
  lemma StripIsPrefixOfTrimStart(s: string)
    ensures |Strip(s)| <= |TrimStart(s)| && Strip(s) == TrimStart(s)[..|Strip(s)|]
    ensures AllSpace(TrimStart(s)[|Strip(s)|..])
  {
    assert Strip(s) == TrimEnd(TrimStart(s));
  }

  /** `Strip` keeps one contiguous slice of `s`: the one that starts where
      `TrimStart` stopped skipping whitespace. */
  lemma {:induction false} StripIsSlice(s: string)
    ensures var i, n := |s| - |TrimStart(s)|, |Strip(s)|;
            i + n <= |s| && Strip(s) == s[i..i + n]
  {
    var t, r := TrimStart(s), Strip(s);
    StripIsPrefixOfTrimStart(s);
    PrefixOfSuffix(s, t, r);
  }

  /** What `Strip` removes on either side of that slice is whitespace, and
      nothing else. */
  lemma {:induction false} StripCutsOnlySpace(s: string)
    ensures var i, n := |s| - |TrimStart(s)|, |Strip(s)|;
            i + n <= |s| && AllSpace(s[..i]) && AllSpace(s[i + n..])
  {
    var t, r := TrimStart(s), Strip(s);
    StripIsPrefixOfTrimStart(s);
    PrefixOfSuffix(s, t, r);
  }
}
