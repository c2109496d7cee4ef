/**
 * The string helpers of `backend/app/utils.py`: `clean_url` (Python's `str.strip()` followed by
 * `str.lower()`) and `is_valid_url` (the regular expression `^https?://`), together with the
 * `strip`, `lower`, prefix and substring primitives that the routes and the feed ingestor reuse.
 * Password hashing (`hash_password`, `verify_password`) is bcrypt and is not modelled here.
 */
module Utils {

  /** Python's `str.isspace()` for one character: the characters `str.strip()` removes. */
  predicate IsSpace(c: char) {
    var n := c as int;
    (9 <= n <= 13) || (28 <= n <= 32) || n == 0x85 || n == 0xA0 || n == 0x1680
    || (0x2000 <= n <= 0x200A) || n == 0x2028 || n == 0x2029 || n == 0x202F
    || n == 0x205F || n == 0x3000
  }

  /** An ASCII upper-case letter. */
  predicate IsUpper(c: char) {
    'A' <= c <= 'Z'
  }

  /** `c.lower()` on ASCII: upper-case letters become lower case, every other character is kept. */
  function LowerChar(c: char): char {
    if IsUpper(c) then (c as int + 32) as char else c
  }

  /** `s.lower()` restricted to ASCII: each `A`-`Z` becomes its lower-case letter and every other
      character, non-ASCII letters included, is kept. */
  function Lower(s: string): (r: string)
    ensures |r| == |s|
    ensures forall i :: 0 <= i < |s| ==> (IsUpper(s[i]) <==> r[i] != s[i])
  {
    seq(|s|, i requires 0 <= i < |s| => LowerChar(s[i]))
  }

  /** Drop leading whitespace (`str.lstrip()`). */
  function TrimStart(s: string): string {
    if |s| > 0 && IsSpace(s[0]) then TrimStart(s[1..]) else s
  }

  /** Drop trailing whitespace (`str.rstrip()`). */
  function TrimEnd(s: string): string {
    if |s| > 0 && IsSpace(s[|s| - 1]) then TrimEnd(s[..|s| - 1]) else s
  }

  /** `s.strip()`: the piece of `s` left after dropping whitespace, and only whitespace, at both
      ends; `StripUnique` shows these clauses determine the result. */
  function Strip(s: string): (r: string)
    ensures |r| <= |s|
    ensures Contains(s, r)
    ensures Trimmed(r)
    ensures Padded(s, r)
  {
    var r := TrimEnd(TrimStart(s));
    StripAt(s);
    ContainsSlice(s, |s| - |TrimStart(s)|, |r|);
    PaddedAt(s, r, |s| - |TrimStart(s)|);
    r
  }

  /** `s` is `r` with whitespace, and nothing else, added before and after it. */
  predicate Padded(s: string, r: string)
    decreases |s|
  {
    (HasPrefix(s, r) && AllSpace(s[|r|..])) || (|s| > 0 && IsSpace(s[0]) && Padded(s[1..], r))
  }

  /** `r` is the piece of `s` that starts at position `k`, and everything before and after that
      piece is whitespace. */
  predicate StripsTo(s: string, r: string, k: int) {
    && 0 <= k <= |s| - |r|
    && r == s[k..k + |r|]
    && AllSpace(s[..k])
    && AllSpace(s[k + |r|..])
  }

  /** Every character of `s` is whitespace. */
  predicate AllSpace(s: string)
    decreases |s|
  {
    |s| == 0 || (IsSpace(s[0]) && AllSpace(s[1..]))
  }

  /** Neither end of `s` is whitespace. */
  predicate Trimmed(s: string) {
    |s| == 0 || (!IsSpace(s[0]) && !IsSpace(s[|s| - 1]))
  }

  /** `s.startswith(p)`. */
  predicate HasPrefix(s: string, p: string) {
    |p| <= |s| && s[..|p|] == p
  }

  /** `s.endswith(p)`. */
  predicate HasSuffix(s: string, p: string) {
    |p| <= |s| && s[|s| - |p|..] == p
  }

  /** `sub in s` for strings. */
  predicate Contains(s: string, sub: string)
    decreases |s|
  {
    HasPrefix(s, sub) || (|s| > 0 && Contains(s[1..], sub))
  }

  /** `clean_url(url)` = `url.strip().lower()` (utils.py:29): a lower-cased contiguous piece of
      the URL. */
  function CleanUrl(url: string): (r: string)
    ensures |r| <= |url|
    ensures Contains(Lower(url), r)
    ensures Padded(Lower(url), r)
  {
    LowerOfStrip(url);
    Lower(Strip(url))
  }

  /** Lower-casing the stripped URL gives a piece of the lower-cased URL with only whitespace
      around it. */
  lemma LowerOfStrip(url: string)
    ensures Contains(Lower(url), Lower(Strip(url)))
    ensures Padded(Lower(url), Lower(Strip(url)))
  {
    var k := |url| - |TrimStart(url)|;
    StripAt(url);
    LowerStripsTo(url, Strip(url), k);
    ContainsSlice(Lower(url), k, |Strip(url)|);
    PaddedAt(Lower(url), Lower(Strip(url)), k);
  }

  /**
   * `is_valid_url(url)` = `re.match(r"^https?://", url) is not None` (utils.py:37): the pattern is
   * matched piece by piece -- the literal `http`, an optional `s`, then the literal `://`.
   */
  function IsValidUrl(url: string): (ok: bool)
    ensures ok <==> HasPrefix(url, "http://") || HasPrefix(url, "https://")
  {
    var scheme := if 5 <= |url| && url[4] == 's' then 5 else 4;
    var ok := scheme + 3 <= |url|
      && url[0] == 'h' && url[1] == 't' && url[2] == 't' && url[3] == 'p'
      && url[scheme] == ':' && url[scheme + 1] == '/' && url[scheme + 2] == '/';
    assert HasPrefix(url, "http://") ==> url[..7][4] == ':';
    assert HasPrefix(url, "https://") ==> url[..8][4] == 's';
    ok
  }

  // ---------------------------------------------------------------------------------------------
  // Properties of strip

  /** Every contiguous piece of `s` occurs in `s`. */
  lemma {:induction false} ContainsSlice(s: string, k: nat, n: nat)
    requires k + n <= |s|
    ensures Contains(s, s[k..k + n])
    decreases k
  {
    if k == 0 {
      assert s[..n] == s[0..n];
    } else {
      ContainsSlice(s[1..], k - 1, n);
      assert s[1..][k - 1..k - 1 + n] == s[k..k + n];
    }
  }

  /** `lstrip` removes a prefix made only of whitespace: its result is a suffix of its input. */
  lemma {:induction false} TrimStartIsSuffix(s: string)
    ensures |TrimStart(s)| <= |s| && TrimStart(s) == s[|s| - |TrimStart(s)|..]
    ensures |TrimStart(s)| > 0 ==> !IsSpace(TrimStart(s)[0])
    ensures forall i :: 0 <= i < |s| - |TrimStart(s)| ==> IsSpace(s[i])
    decreases |s|
  {
    if |s| > 0 && IsSpace(s[0]) {
      TrimStartIsSuffix(s[1..]);
      forall i | 0 <= i < |s| - |TrimStart(s)|
        ensures IsSpace(s[i])
      {
        if i > 0 {
          assert s[i] == s[1..][i - 1];
        }
      }
    }
  }

  /** `rstrip` removes a suffix made only of whitespace: its result is a prefix of its input. */
  lemma {:induction false} TrimEndIsPrefix(s: string)
    ensures |TrimEnd(s)| <= |s| && TrimEnd(s) == s[..|TrimEnd(s)|]
    ensures |TrimEnd(s)| > 0 ==> !IsSpace(TrimEnd(s)[|TrimEnd(s)| - 1])
    ensures forall i :: |TrimEnd(s)| <= i < |s| ==> IsSpace(s[i])
    decreases |s|
  {
    if |s| > 0 && IsSpace(s[|s| - 1]) {
      TrimEndIsPrefix(s[..|s| - 1]);
      assert s[..|s| - 1][..|TrimEnd(s)|] == s[..|TrimEnd(s)|];
      forall i | |TrimEnd(s)| <= i < |s|
        ensures IsSpace(s[i])
      {
        if i < |s| - 1 {
          assert s[i] == s[..|s| - 1][i];
        }
      }
    }
  }

  /** The result of `strip()` has no leading and no trailing whitespace. */
  lemma StripIsTrimmed(s: string)
    ensures Trimmed(Strip(s))
  {
    var t := TrimStart(s);
    TrimStartIsSuffix(s);
    TrimEndIsPrefix(t);
    var r := TrimEnd(t);
    if |r| > 0 {
      assert r[0] == t[0];
    }
  }

  /** The clauses of `Strip`'s contract fix its result: a trimmed piece of `s` whose removed ends
      are all whitespace is `Strip(s)`. */
  lemma StripUnique(s: string, r: string)
    requires Trimmed(r) && Padded(s, r)
    ensures r == Strip(s)
  {
    PaddedSplit(s, r);
    var k :| StripsTo(s, r, k);
    StripsToIff(s, r, k);
    if |r| == 0 {
      StripOfBlank(s);
    } else {
      assert s[k] == r[0] && s[k + |r| - 1] == r[|r| - 1];
      TrimStartStopsAt(s, k);
      var t := s[k..];
      assert forall i :: |r| <= i < |t| ==> t[i] == s[k + i];
      assert t[|r| - 1] == r[|r| - 1];
      TrimEndStopsAt(t, |r|);
      assert t[..|r|] == r;
    }
  }

  /** `StripsTo` spelled out position by position. */
  lemma StripsToIff(s: string, r: string, k: int)
    requires 0 <= k <= |s| - |r|
    ensures StripsTo(s, r, k) <==>
      && r == s[k..k + |r|]
      && (forall i :: 0 <= i < k ==> IsSpace(s[i]))
      && (forall i :: k + |r| <= i < |s| ==> IsSpace(s[i]))
  {
    AllSpaceAt(s[..k]);
    AllSpaceAt(s[k + |r|..]);
    assert forall i :: k + |r| <= i < |s| ==> s[i] == s[k + |r|..][i - k - |r|];
  }

  /** `strip` is `rstrip` after `lstrip`, and what they remove is the whitespace on either side of
      the piece that begins after the leading whitespace. */
  lemma StripAt(s: string)
    ensures Trimmed(TrimEnd(TrimStart(s)))
    ensures StripsTo(s, TrimEnd(TrimStart(s)), |s| - |TrimStart(s)|)
  {
    var t := TrimStart(s);
    TrimStartIsSuffix(s);
    TrimEndIsPrefix(t);
    var r := TrimEnd(t);
    var k := |s| - |t|;
    assert r == t[..|r|] && t == s[k..];
    assert r == s[k..k + |r|];
    assert |r| > 0 ==> r[0] == t[0];
    assert forall i :: k + |r| <= i < |s| ==> s[i] == t[i - k];
    StripsToIff(s, r, k);
  }

  /** ASCII lower-casing keeps whitespace where it is, so it keeps `StripsTo`. */
  lemma LowerStripsTo(s: string, r: string, k: int)
    requires StripsTo(s, r, k)
    ensures StripsTo(Lower(s), Lower(r), k)
  {
    StripsToIff(s, r, k);
    LowerFacts(s);
    assert Lower(r) == Lower(s)[k..k + |r|] by {
      assert forall i :: 0 <= i < |r| ==> r[i] == s[k + i];
    }
    StripsToIff(Lower(s), Lower(r), k);
  }

  /** A piece at position `k` with whitespace all around it is `Padded`. */
  lemma {:induction false} PaddedAt(s: string, r: string, k: int)
    requires StripsTo(s, r, k)
    ensures Padded(s, r)
    decreases k
  {
    if k == 0 {
      assert s[..|r|] == r;
    } else {
      assert s[..k][0] == s[0];
      assert s[..k][1..] == s[1..][..k - 1];
      assert s[1..][k - 1..k - 1 + |r|] == r;
      assert s[1..][k - 1 + |r|..] == s[k + |r|..];
      PaddedAt(s[1..], r, k - 1);
    }
  }

  /** A `Padded` string has its piece at some position `k` with whitespace all around it. */
  lemma {:induction false} PaddedSplit(s: string, r: string)
    requires Padded(s, r)
    ensures exists k :: StripsTo(s, r, k)
    decreases |s|
  {
    if HasPrefix(s, r) && AllSpace(s[|r|..]) {
      assert s[0..|r|] == r && s[..0] == [];
      assert StripsTo(s, r, 0);
    } else {
      PaddedSplit(s[1..], r);
      var k :| StripsTo(s[1..], r, k);
      assert s[..k + 1][1..] == s[1..][..k];
      assert s[k + 1..k + 1 + |r|] == s[1..][k..k + |r|];
      assert s[k + 1 + |r|..] == s[1..][k + |r|..];
      assert StripsTo(s, r, k + 1);
    }
  }

  /** `AllSpace` holds exactly when every position holds whitespace. */
  lemma {:induction false} AllSpaceAt(s: string)
    ensures AllSpace(s) <==> forall i :: 0 <= i < |s| ==> IsSpace(s[i])
    decreases |s|
  {
    if |s| > 0 {
      AllSpaceAt(s[1..]);
      assert forall i :: 1 <= i < |s| ==> s[i] == s[1..][i - 1];
    }
  }

  /** `lstrip` stops at the first character that is not whitespace. */
  lemma {:induction false} TrimStartStopsAt(s: string, k: nat)
    requires k <= |s| && (k == |s| || !IsSpace(s[k]))
    requires forall i :: 0 <= i < k ==> IsSpace(s[i])
    ensures TrimStart(s) == s[k..]
    decreases k
  {
    if k > 0 {
      assert forall i :: 0 <= i < k - 1 ==> s[1..][i] == s[i + 1];
      TrimStartStopsAt(s[1..], k - 1);
      assert s[1..][k - 1..] == s[k..];
    }
  }

  /** `rstrip` stops at the last character that is not whitespace. */
  lemma {:induction false} TrimEndStopsAt(s: string, n: nat)
    requires n <= |s| && (n == 0 || !IsSpace(s[n - 1]))
    requires forall i :: n <= i < |s| ==> IsSpace(s[i])
    ensures TrimEnd(s) == s[..n]
    decreases |s| - n
  {
    if n < |s| {
      var u := s[..|s| - 1];
      assert forall i :: n <= i < |u| ==> u[i] == s[i];
      assert n > 0 ==> u[n - 1] == s[n - 1];
      TrimEndStopsAt(u, n);
      assert u[..n] == s[..n];
    }
  }

  /** `strip()` leaves a string without boundary whitespace as it is. */
  lemma StripOfTrimmed(s: string)
    requires Trimmed(s)
    ensures Strip(s) == s
  {
    assert TrimStart(s) == s;
  }

  /** `strip()` is idempotent. */
  lemma StripIdempotent(s: string)
    ensures Strip(Strip(s)) == Strip(s)
  {
    StripIsTrimmed(s);
    StripOfTrimmed(Strip(s));
  }

  /** `strip()` removes exactly Python's whitespace set: the ASCII controls 9-13 and 28-31, the
      space, and Unicode spaces such as NO-BREAK SPACE and IDEOGRAPHIC SPACE, but not ZERO WIDTH
      SPACE, which is not whitespace to Python. */
  lemma StripWhitespaceSet()
    ensures Strip("\t\n\r x \U{b}\U{c}") == "x"
    ensures Strip("\U{1c}\U{1f}x\U{85}") == "x"
    ensures Strip("\U{a0}x\U{3000}") == "x"
    ensures Strip("\U{200b}x") == "\U{200b}x"
  {
    StripAsciiControls();
    StripSeparators();
    StripUnicodeSpaces();
    StripKeepsZeroWidthSpace();
  }

  /** Tab, line feed, carriage return, space, vertical tab and form feed are stripped. */
  lemma StripAsciiControls()
    ensures Strip("\t\n\r x \U{b}\U{c}") == "x"
  {
    var pre, post := "\t\n\r ", " \U{b}\U{c}";
    assert "\t\n\r x \U{b}\U{c}" == pre + "x" + post;
    StripOfPadded(pre, "x", post);
  }

  /** The separators 28-31 and NEL are stripped. */
  lemma StripSeparators()
    ensures Strip("\U{1c}\U{1f}x\U{85}") == "x"
  {
    var pre, post := "\U{1c}\U{1f}", "\U{85}";
    assert "\U{1c}\U{1f}x\U{85}" == pre + "x" + post;
    StripOfPadded(pre, "x", post);
  }

  /** NO-BREAK SPACE and IDEOGRAPHIC SPACE are stripped. */
  lemma StripUnicodeSpaces()
    ensures Strip("\U{a0}x\U{3000}") == "x"
  {
    var pre, post := "\U{a0}", "\U{3000}";
    assert "\U{a0}x\U{3000}" == pre + "x" + post;
    StripOfPadded(pre, "x", post);
  }

  /** ZERO WIDTH SPACE is not whitespace to Python and is kept. */
  lemma StripKeepsZeroWidthSpace()
    ensures Strip("\U{200b}x") == "\U{200b}x"
  {
    var pre, post := "", "";
    assert "\U{200b}x" == pre + "\U{200b}x" + post;
    StripOfPadded(pre, "\U{200b}x", post);
  }

  /** Whitespace padding on either side of a trimmed string is exactly what `strip()` removes. */
  lemma StripOfPadded(pre: string, r: string, post: string)
    requires forall i :: 0 <= i < |pre| ==> IsSpace(pre[i])
    requires forall i :: 0 <= i < |post| ==> IsSpace(post[i])
    requires Trimmed(r)
    ensures Strip(pre + r + post) == r
  {
    var s := pre + r + post;
    assert forall i :: 0 <= i < |pre| ==> s[i] == pre[i];
    assert forall i :: |pre| + |r| <= i < |s| ==> s[i] == post[i - |pre| - |r|];
    assert s[|pre|..|pre| + |r|] == r;
    StripsToIff(s, r, |pre|);
    PaddedAt(s, r, |pre|);
    StripUnique(s, r);
  }

  /** A line made only of whitespace strips to the empty string. */
  lemma {:induction false} StripOfBlank(s: string)
    requires forall i :: 0 <= i < |s| ==> IsSpace(s[i])
    ensures Strip(s) == ""
    decreases |s|
  {
    if |s| > 0 {
      StripOfBlank(s[1..]);
    }
  }

  // ---------------------------------------------------------------------------------------------
  // Properties of lower

  /** `lower()` keeps the length, leaves no ASCII upper-case letter, and keeps every whitespace
      character where it was (and nothing else becomes whitespace). */
  lemma LowerFacts(s: string)
    ensures |Lower(s)| == |s|
    ensures forall i :: 0 <= i < |s| ==> !IsUpper(Lower(s)[i])
    ensures forall i :: 0 <= i < |s| ==> (IsSpace(Lower(s)[i]) <==> IsSpace(s[i]))
  {
  }

  /** `lower()` is idempotent. */
  lemma LowerIdempotent(s: string)
    ensures Lower(Lower(s)) == Lower(s)
  {
    LowerFacts(s);
    LowerFacts(Lower(s));
  }

  /** `lower()` does not move whitespace to or from the ends of a string. */
  lemma LowerKeepsTrimmed(s: string)
    requires Trimmed(s)
    ensures Trimmed(Lower(s))
  {
    LowerFacts(s);
  }

  // ---------------------------------------------------------------------------------------------
  // Properties of clean_url and is_valid_url

  /** `clean_url` leaves neither leading nor trailing whitespace and no ASCII upper-case letter. */
  lemma CleanUrlIsClean(url: string)
    ensures Trimmed(CleanUrl(url))
    ensures forall i :: 0 <= i < |CleanUrl(url)| ==> !IsUpper(CleanUrl(url)[i])
  {
    StripIsTrimmed(url);
    LowerKeepsTrimmed(Strip(url));
    LowerFacts(Strip(url));
  }

  /** `clean_url(clean_url(u)) == clean_url(u)`. */
  lemma CleanUrlIdempotent(url: string)
    ensures CleanUrl(CleanUrl(url)) == CleanUrl(url)
  {
    CleanUrlIsClean(url);
    StripOfTrimmed(CleanUrl(url));
    LowerIdempotent(Strip(url));
  }

  /** The scheme test is case-sensitive and checks nothing after the scheme. */
  lemma IsValidUrlExamples()
    ensures !IsValidUrl("HTTP://x")
    ensures IsValidUrl("http://")
    ensures IsValidUrl("https://")
    ensures !IsValidUrl("ftp://x")
    ensures !IsValidUrl("http:/x")
  {
  }
}
