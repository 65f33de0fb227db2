/** The Python string operations the matchers use, over ASCII:
    `str.strip()`, `str.lower()`, `str.isdigit()`, `str.isalpha()` and
    the substring test `pattern in text`. */
module Text {

  /** `c.isspace()` for ASCII: tab, line feed, vertical tab, form feed,
      carriage return, the four separators 0x1C-0x1F, and space. */
  predicate IsSpace(c: char)
  {
    9 <= c as int <= 13 || 28 <= c as int <= 32
  }

  predicate IsDigit(c: char)
  {
    '0' <= c <= '9'
  }

  predicate IsAlpha(c: char)
  {
    'a' <= c <= 'z' || 'A' <= c <= 'Z'
  }

  predicate IsUpper(c: char)
  {
    'A' <= c <= 'Z'
  }

  function LowerChar(c: char): char
  {
    if IsUpper(c) then (c as int + 32) as char else c
  }

  /** `s.lower()` */
  function ToLower(s: string): (r: string)
    ensures |r| == |s|
    ensures forall i :: 0 <= i < |s| ==> !IsUpper(r[i]) && (IsSpace(r[i]) <==> IsSpace(s[i]))
  {
    seq(|s|, i requires 0 <= i < |s| => LowerChar(s[i]))
  }

  /** Each capital becomes the letter 32 code points above it, and every
      other character is kept. */
  lemma ToLowerLetters(s: string)
    ensures forall i :: 0 <= i < |s| ==> if IsUpper(s[i]) then ToLower(s)[i] as int == s[i] as int + 32 else ToLower(s)[i] == s[i]
  {
  }

  /** `s.lstrip()`: the suffix of `s` left after every leading space is dropped. */
  function StripLeft(s: string): (r: string)
    ensures |r| <= |s| && r == s[|s| - |r|..]
    ensures forall i :: 0 <= i < |s| - |r| ==> IsSpace(s[i])
    ensures r == [] || !IsSpace(r[0])
  {
    if s != [] && IsSpace(s[0]) then StripLeft(s[1..]) else s
  }

  /** `s.rstrip()`: the prefix of `s` left after every trailing space is dropped. */
  function StripRight(s: string): (r: string)
    ensures |r| <= |s| && r == s[..|r|]
    ensures forall i :: |r| <= i < |s| ==> IsSpace(s[i])
    ensures r == [] || !IsSpace(r[|r| - 1])
  {
    if s != [] && IsSpace(s[|s| - 1]) then StripRight(s[..|s| - 1]) else s
  }

  /** Only whitespace lies outside the `n` characters of `s` from `i` on. */
  predicate SpaceAround(s: string, i: int, n: int)
  {
    && 0 <= i && 0 <= n && i + n <= |s|
    && (forall k :: 0 <= k < i ==> IsSpace(s[k]))
    && (forall k :: i + n <= k < |s| ==> IsSpace(s[k]))
  }

  /** `s.strip()` */
  function Strip(s: string): string
  {
    StripRight(StripLeft(s))
  }

  /** `strip()` keeps the middle of `s` between a run of leading and a
      run of trailing whitespace, and that middle neither starts nor ends
      with whitespace. */
  lemma StripIsMiddle(s: string)
    ensures exists i :: SpaceAround(s, i, |Strip(s)|) && Strip(s) == s[i..i + |Strip(s)|]
    ensures Strip(s) == [] || (!IsSpace(Strip(s)[0]) && !IsSpace(Strip(s)[|Strip(s)| - 1]))
  {
    var i := |s| - |StripLeft(s)|;
    assert Strip(s) == s[i..i + |Strip(s)|];
    assert SpaceAround(s, i, |Strip(s)|);
  }

  /** A string with no space at either end is its own `strip()`. */
  lemma StripUnspaced(s: string)
    requires s != [] && !IsSpace(s[0]) && !IsSpace(s[|s| - 1])
    ensures Strip(s) == s
  {
  }

  /** One leading space goes, and then `lstrip` carries on. */
  lemma StripLeftSpace(s: string)
    requires s != [] && IsSpace(s[0])
    ensures StripLeft(s) == StripLeft(s[1..])
  {
  }

  /** One trailing space goes, and then `rstrip` carries on. */
  lemma StripRightSpace(s: string)
    requires s != [] && IsSpace(s[|s| - 1])
    ensures StripRight(s) == StripRight(s[..|s| - 1])
  {
  }

  /** `pattern in text` for strings. */
  predicate Contains(text: string, pattern: string)
  {
    pattern <= text || (text != [] && Contains(text[1..], pattern))
  }

  /** A string `strip().lower()` leaves alone: no surrounding space, no capitals. */
  predicate IsClean(s: string)
  {
    (s == [] || (!IsSpace(s[0]) && !IsSpace(s[|s| - 1]))) && forall i :: 0 <= i < |s| ==> !IsUpper(s[i])
  }

  /** `s.strip().lower()` */
  function Clean(s: string): (r: string)
    ensures IsClean(r)
  {
    ToLower(Strip(s))
  }

  /** `strip().lower()` yields the lower-cased middle of `s`, between a
      run of leading and a run of trailing whitespace. */
  lemma CleanIsLowerMiddle(s: string)
    ensures exists i :: SpaceAround(s, i, |Clean(s)|) && Clean(s) == ToLower(s[i..i + |Clean(s)|])
  {
    var m := Strip(s);
    StripIsMiddle(s);
    var i :| SpaceAround(s, i, |m|) && m == s[i..i + |m|];
    assert Clean(s) == ToLower(m) && |Clean(s)| == |m|;
    assert SpaceAround(s, i, |Clean(s)|) && Clean(s) == ToLower(s[i..i + |Clean(s)|]);
  }

  /** Clean strings are exactly the fixed points of `Clean`. */
  lemma CleanFixesClean(s: string)
    requires IsClean(s)
    ensures Strip(s) == s && ToLower(s) == s && Clean(s) == s
  {
    assert StripLeft(s) == s;
    assert StripRight(s) == s;
    assert ToLower(s) == s;
  }

  /** `s` is made of lower-case ASCII letters, checked one character at a time. */
  predicate LowerWord(s: string)
  {
    s == [] || ('a' <= s[0] <= 'z' && LowerWord(s[1..]))
  }

  lemma {:induction false} LowerWordIsClean(s: string)
    requires LowerWord(s)
    ensures IsClean(s) && forall i :: 0 <= i < |s| ==> 'a' <= s[i] <= 'z'
  {
    if s != [] {
      LowerWordIsClean(s[1..]);
      assert forall i :: 1 <= i < |s| ==> s[i] == s[1..][i - 1];
    }
  }

  /** `l` is `s` with each character lower-cased, one character at a time. */
  predicate LowersTo(s: string, l: string)
  {
    |s| == |l| && (s == [] || (LowerChar(s[0]) == l[0] && LowersTo(s[1..], l[1..])))
  }

  lemma {:induction false} LowersToLower(s: string, l: string)
    requires LowersTo(s, l)
    ensures ToLower(s) == l
  {
    if s != [] {
      LowersToLower(s[1..], l[1..]);
      forall i | 1 <= i < |s|
        ensures ToLower(s)[i] == l[i]
      {
        assert ToLower(s[1..])[i - 1] == l[1..][i - 1];
      }
    }
  }

  /** Lower-casing the whole string and lower-casing it one character at
      a time agree. */
  lemma {:induction false} ToLowerLowers(s: string)
    ensures LowersTo(s, ToLower(s))
  {
    if s != [] {
      ToLowerLowers(s[1..]);
      assert ToLower(s)[1..] == ToLower(s[1..]);
    }
  }

  lemma ToLowerCharwise(s: string, l: string)
    ensures ToLower(s) == l <==> LowersTo(s, l)
  {
    ToLowerLowers(s);
    if LowersTo(s, l) {
      LowersToLower(s, l);
    }
  }

  /** `strip().lower()` of a string with no space at either end. */
  lemma CleanUnspaced(s: string, l: string)
    requires s != [] && !IsSpace(s[0]) && !IsSpace(s[|s| - 1]) && LowersTo(s, l)
    ensures Clean(s) == l
  {
    StripUnspaced(s);
    LowersToLower(s, l);
  }

  /** A pattern longer than the text is not in it. */
  lemma {:induction false} ShortNoContains(text: string, pattern: string)
    requires |text| < |pattern|
    ensures !Contains(text, pattern)
  {
    if text != [] {
      ShortNoContains(text[1..], pattern);
    }
  }

  predicate OccursAt(text: string, pattern: string, k: nat)
  {
    k + |pattern| <= |text| && text[k..k + |pattern|] == pattern
  }

  /** `pattern in text` holds exactly when the pattern occurs at some
      position: this lemma and `ContainsSomewhere` are the two directions. */
  lemma {:induction false} ContainsAt(text: string, pattern: string, k: nat)
    requires OccursAt(text, pattern, k)
    ensures Contains(text, pattern)
  {
    if k > 0 {
      assert text[1..][k - 1..k - 1 + |pattern|] == pattern;
      ContainsAt(text[1..], pattern, k - 1);
    }
  }

  lemma {:induction false} ContainsSomewhere(text: string, pattern: string)
    requires Contains(text, pattern)
    ensures exists k :: OccursAt(text, pattern, k)
  {
    if pattern <= text {
      assert OccursAt(text, pattern, 0);
    } else {
      ContainsSomewhere(text[1..], pattern);
      var k: nat :| OccursAt(text[1..], pattern, k);
      assert text[k + 1..k + 1 + |pattern|] == text[1..][k..k + |pattern|];
      assert OccursAt(text, pattern, k + 1);
    }
  }
}
