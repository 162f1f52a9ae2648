// The parts of java.lang.String and java.lang.Integer that the bot's logic
// depends on: what trim() strips, what the regular-expression class \s
// matches, how split() drops trailing empty pieces and how replace() scans
// follow Java exactly. Case folding (toLowerCase, equalsIgnoreCase) and
// parseInt's digits are Java's behaviour on ASCII text only, and a length
// counts characters rather than UTF-16 code units.
module JavaText {
  import opened Wrappers

  const IntMin: int := -0x8000_0000
  const IntMax: int := 0x7FFF_FFFF

  predicate InInt32(n: int)
  {
    IntMin <= n <= IntMax
  }

  /** The characters the regular-expression class `\s` matches. */
  predicate IsRegexSpace(c: char)
  {
    c == ' ' || c == '\t' || c == '\n' || c == '\U{0B}' || c == '\U{0C}' || c == '\r'
  }

  /** The characters String.trim() strips: every code point up to U+0020. */
  predicate IsTrimmable(c: char)
  {
    c as int <= 0x20
  }

  /** Character.isWhitespace, which String.isBlank() tests. */
  predicate IsJavaWhitespace(c: char)
  {
    var n := c as int;
    (0x09 <= n <= 0x0D) || (0x1C <= n <= 0x20) || n == 0x1680
    || (0x2000 <= n <= 0x200A && n != 0x2007) || n == 0x2028 || n == 0x2029
    || n == 0x205F || n == 0x3000
  }

  lemma RegexSpaceIsTrimmable(c: char)
    ensures IsRegexSpace(c) ==> IsTrimmable(c) && IsJavaWhitespace(c)
  {
  }

  // ----------------------------------------------------------- substring

  /** String.substring(i, j): the characters from index i up to, not including, j. */
  function Substring(s: string, i: nat, j: nat): (r: string)
    requires i <= j <= |s|
    ensures |r| == j - i
    decreases j - i
  {
    if i == j then [] else [s[i]] + Substring(s, i + 1, j)
  }

  lemma {:induction false} SubstringIndex(s: string, i: nat, j: nat)
    requires i <= j <= |s|
    ensures forall k :: 0 <= k < j - i ==> Substring(s, i, j)[k] == s[i + k]
    decreases j - i
  {
    if i < j {
      SubstringIndex(s, i + 1, j);
    }
  }

  lemma {:induction false} SubstringIsSlice(s: string, i: nat, j: nat)
    requires i <= j <= |s|
    ensures Substring(s, i, j) == s[i..j]
    decreases j - i
  {
    if i < j {
      SubstringIsSlice(s, i + 1, j);
      assert s[i..j] == [s[i]] + s[i + 1..j];
    }
  }

  // ---------------------------------------------------------------- trim

  /** The index of the first character at or after i that trim() keeps, or |s| if there is none. */
  function TrimStartIndex(s: string, i: nat): (k: nat)
    requires i <= |s|
    ensures i <= k <= |s|
    decreases |s| - i
  {
    if i == |s| || !IsTrimmable(s[i]) then i else TrimStartIndex(s, i + 1)
  }

  /** Everything skipped is trimmable, and the scan stops at a kept character or the end. */
  lemma {:induction false} TrimStartIndexSpec(s: string, i: nat)
    requires i <= |s|
    ensures var k := TrimStartIndex(s, i);
            && (forall m :: i <= m < k ==> IsTrimmable(s[m]))
            && (k == |s| || !IsTrimmable(s[k]))
    decreases |s| - i
  {
    if i < |s| && IsTrimmable(s[i]) {
      TrimStartIndexSpec(s, i + 1);
    }
  }

  /** The index just past the last character before j that trim() keeps, or lo if there is none from lo on. */
  function TrimEndIndex(s: string, lo: nat, j: nat): (k: nat)
    requires lo <= j <= |s|
    ensures lo <= k <= j
    decreases j - lo
  {
    if j == lo || !IsTrimmable(s[j - 1]) then j else TrimEndIndex(s, lo, j - 1)
  }

  /** Everything cut off the end is trimmable, and the scan stops after a kept character or at lo. */
  lemma {:induction false} TrimEndIndexSpec(s: string, lo: nat, j: nat)
    requires lo <= j <= |s|
    ensures var k := TrimEndIndex(s, lo, j);
            && (forall m :: k <= m < j ==> IsTrimmable(s[m]))
            && (k == lo || !IsTrimmable(s[k - 1]))
    decreases j - lo
  {
    if j > lo && IsTrimmable(s[j - 1]) {
      TrimEndIndexSpec(s, lo, j - 1);
    }
  }

  /** String.trim(): strip code points up to U+0020 at both ends. */
  function Trim(s: string): (r: string)
    ensures |r| <= |s|
  {
    var a := TrimStartIndex(s, 0);
    var b := TrimEndIndex(s, a, |s|);
    Substring(s, a, b)
  }

  /**
   * The result of trim() neither starts nor ends with a trimmable character,
   * is a run of s that only trimmable characters surround, and keeps only
   * characters of s.
   */
  lemma TrimSpec(s: string)
    ensures var r := Trim(s);
            && (r == [] || (!IsTrimmable(r[0]) && !IsTrimmable(r[|r| - 1])))
            && (forall c :: c in r ==> c in s)
  {
    var a := TrimStartIndex(s, 0);
    var b := TrimEndIndex(s, a, |s|);
    TrimStartIndexSpec(s, 0);
    TrimEndIndexSpec(s, a, |s|);
    SubstringIndex(s, a, b);
    var r := Trim(s);
    forall c | c in r ensures c in s {
      var k :| 0 <= k < |r| && r[k] == c;
      assert s[a + k] == c;
    }
  }

  /** A text that does not start with a trimmable character keeps its first character. */
  lemma TrimKeepsFirst(s: string)
    requires |s| > 0 && !IsTrimmable(s[0])
    ensures |Trim(s)| > 0 && Trim(s)[0] == s[0]
  {
    assert TrimStartIndex(s, 0) == 0;
    TrimEndIndexSpec(s, 0, |s|);
    SubstringIndex(s, 0, TrimEndIndex(s, 0, |s|));
  }

  lemma TrimUnchanged(s: string)
    requires s == [] || (!IsTrimmable(s[0]) && !IsTrimmable(s[|s| - 1]))
    ensures Trim(s) == s
  {
    SubstringIndex(s, 0, |s|);
  }

  lemma TrimOfSpaces(s: string)
    requires forall i :: 0 <= i < |s| ==> IsTrimmable(s[i])
    ensures Trim(s) == []
  {
    TrimStartIndexSpec(s, 0);
  }

  /** String.isBlank(): nothing but Character.isWhitespace characters. */
  predicate IsBlank(s: string)
  {
    forall i :: 0 <= i < |s| ==> IsJavaWhitespace(s[i])
  }

  // ------------------------------------------------------ case folding

  /** Character.toLowerCase restricted to the ASCII letters. */
  function LowerChar(c: char): char
  {
    if 'A' <= c <= 'Z' then (c as int + 32) as char else c
  }

  /** String.toLowerCase on ASCII text: one character for each, capitals folded. */
  function ToLower(s: string): (r: string)
    ensures |r| == |s|
  {
    seq(|s|, i requires 0 <= i < |s| => LowerChar(s[i]))
  }

  /** String.equalsIgnoreCase on ASCII text. */
  predicate EqualsIgnoreCase(a: string, b: string)
  {
    ToLower(a) == ToLower(b)
  }

  lemma ToLowerIdempotent(s: string)
    ensures ToLower(ToLower(s)) == ToLower(s)
  {
  }

  /** No ASCII capital letter. */
  predicate IsLowerAscii(s: string)
  {
    forall i :: 0 <= i < |s| ==> !('A' <= s[i] <= 'Z')
  }

  lemma ToLowerOfLower(s: string)
    requires IsLowerAscii(s)
    ensures ToLower(s) == s
  {
  }

  // ---------------------------------------------------- searching text

  predicate StartsWith(s: string, prefix: string)
  {
    |prefix| <= |s| && s[..|prefix|] == prefix
  }

  predicate EndsWith(s: string, suffix: string)
  {
    |suffix| <= |s| && s[|s| - |suffix|..] == suffix
  }

  /** String.contains, scanning from the left. */
  predicate Contains(s: string, t: string)
    decreases |s|
  {
    StartsWith(s, t) || (|s| > 0 && Contains(s[1..], t))
  }

  /** String.indexOf(char): the first index holding c, or -1. */
  function IndexOf(s: string, c: char): (r: int)
    ensures -1 <= r < |s|
    ensures r == -1 <==> c !in s
    ensures r >= 0 ==> s[r] == c && c !in s[..r]
  {
    if |s| == 0 then -1
    else if s[0] == c then 0
    else
      var k := IndexOf(s[1..], c);
      if k < 0 then -1
      else
        assert s[..k + 1] == [s[0]] + s[1..][..k];
        k + 1
  }

  /** Every character except `c`, in order: String.replace(c, "") for one char. */
  function RemoveChar(s: string, c: char): (r: string)
    ensures c !in r
    ensures forall x :: x in r <==> x in s && x != c
  {
    if |s| == 0 then []
    else (if s[0] == c then [] else [s[0]]) + RemoveChar(s[1..], c)
  }

  /**
   * String.replace(target, replacement): scan from the left, replace every
   * non-overlapping occurrence of target, and never rescan replaced text.
   */
  function Replace(s: string, target: string, replacement: string): string
    requires |target| > 0
    decreases |s|
  {
    if |s| < |target| then s
    else if s[..|target|] == target then replacement + Replace(s[|target|..], target, replacement)
    else [s[0]] + Replace(s[1..], target, replacement)
  }

  /** How many occurrences Replace rewrites. */
  function Occurrences(s: string, target: string): nat
    requires |target| > 0
    decreases |s|
  {
    if |s| < |target| then 0
    else if s[..|target|] == target then 1 + Occurrences(s[|target|..], target)
    else Occurrences(s[1..], target)
  }

  lemma {:induction false} ReplaceAbsent(s: string, target: string, replacement: string)
    requires |target| > 0 && !Contains(s, target)
    ensures Replace(s, target, replacement) == s
    decreases |s|
  {
    if |s| >= |target| {
      assert s[..|target|] != target;
      ReplaceAbsent(s[1..], target, replacement);
    }
  }

  lemma {:induction false} ReplaceLength(s: string, target: string, replacement: string)
    requires |target| > 0
    ensures |Replace(s, target, replacement)|
            == |s| + Occurrences(s, target) * (|replacement| - |target|)
    decreases |s|
  {
    if |s| < |target| {
    } else if s[..|target|] == target {
      var rest := s[|target|..];
      var o := Occurrences(rest, target);
      var d := |replacement| - |target|;
      ReplaceLength(rest, target, replacement);
      MulSucc(o, d);
    } else {
      ReplaceLength(s[1..], target, replacement);
    }
  }

  lemma MulSucc(o: int, d: int)
    ensures (1 + o) * d == d + o * d
  {
  }

  /** A prefix that holds no character starting the target passes through unchanged. */
  lemma {:induction false} ReplaceSkipsPrefix(a: string, b: string, target: string, replacement: string)
    requires |target| > 0 && target[0] !in a
    ensures Replace(a + b, target, replacement) == a + Replace(b, target, replacement)
    decreases |a|
  {
    var s := a + b;
    if |a| == 0 {
      assert s == b;
    } else if |s| < |target| {
      ReplaceAbsentShort(s, b, target, replacement);
    } else {
      assert s[..|target|][0] == a[0] != target[0];
      assert s[1..] == a[1..] + b;
      ReplaceSkipsPrefix(a[1..], b, target, replacement);
      assert a == [a[0]] + a[1..];
    }
  }

  /** An occurrence at the very start is rewritten and the scan resumes after it. */
  lemma ReplaceAtFront(target: string, b: string, replacement: string)
    requires |target| > 0
    ensures Replace(target + b, target, replacement) == replacement + Replace(b, target, replacement)
  {
    assert (target + b)[..|target|] == target && (target + b)[|target|..] == b;
  }

  lemma ReplaceAbsentShort(s: string, b: string, target: string, replacement: string)
    requires |target| > 0 && |s| < |target| && |b| <= |s|
    ensures Replace(s, target, replacement) == s
    ensures Replace(b, target, replacement) == b
  {
  }

  // --------------------------------------------------- split and join

  /** The pieces between separators, empty ones included. */
  function SplitAll(s: string, sep: char): (r: seq<string>)
    ensures |r| >= 1
    ensures forall i :: 0 <= i < |r| ==> sep !in r[i]
    decreases |s|
  {
    var k := IndexOf(s, sep);
    if k < 0 then [s] else [s[..k]] + SplitAll(s[k + 1..], sep)
  }

  function DropTrailingEmpty(pieces: seq<string>): (r: seq<string>)
    ensures |r| <= |pieces| && r == pieces[..|r|]
    ensures r == [] || r[|r| - 1] != ""
    ensures forall i :: |r| <= i < |pieces| ==> pieces[i] == ""
  {
    if |pieces| > 0 && pieces[|pieces| - 1] == "" then DropTrailingEmpty(pieces[..|pieces| - 1])
    else pieces
  }

  /**
   * String.split(String) for a one-character, non-meta separator: the empty
   * string splits to one empty piece; otherwise trailing empty pieces go.
   */
  function Split(s: string, sep: char): (r: seq<string>)
    ensures forall i :: 0 <= i < |r| ==> sep !in r[i]
  {
    if s == "" then [""] else DropTrailingEmpty(SplitAll(s, sep))
  }

  /** String.join / the bot's implode helper. */
  function Join(pieces: seq<string>, sep: string): string
  {
    if |pieces| == 0 then ""
    else if |pieces| == 1 then pieces[0]
    else pieces[0] + sep + Join(pieces[1..], sep)
  }

  lemma {:induction false} JoinSplitAll(s: string, sep: char)
    ensures Join(SplitAll(s, sep), [sep]) == s
    decreases |s|
  {
    var k := IndexOf(s, sep);
    if k >= 0 {
      var rest := SplitAll(s[k + 1..], sep);
      JoinSplitAll(s[k + 1..], sep);
      var all := [s[..k]] + rest;
      assert all[0] == s[..k] && all[1..] == rest;
      assert Join(all, [sep]) == s[..k] + [sep] + Join(rest, [sep]);
      assert s == s[..k] + [sep] + s[k + 1..];
    }
  }

  /** Every piece is empty exactly when the text is nothing but separators. */
  lemma {:induction false} SplitAllEmpty(s: string, sep: char)
    ensures (forall i :: 0 <= i < |SplitAll(s, sep)| ==> SplitAll(s, sep)[i] == "")
            <==> (forall i :: 0 <= i < |s| ==> s[i] == sep)
    decreases |s|
  {
    var k := IndexOf(s, sep);
    if k >= 0 {
      var rest := s[k + 1..];
      var r := SplitAll(s, sep);
      SplitAllEmpty(rest, sep);
      assert r[1..] == SplitAll(rest, sep);
      if forall i :: 0 <= i < |s| ==> s[i] == sep {
        assert k == 0;
        forall i | 0 <= i < |rest|
          ensures rest[i] == sep
        {
          assert rest[i] == s[i + 1];
        }
        forall i | 0 <= i < |r|
          ensures r[i] == ""
        {
          if i > 0 {
            assert r[i] == SplitAll(rest, sep)[i - 1];
          }
        }
      }
      if forall i :: 0 <= i < |r| ==> r[i] == "" {
        assert r[0] == s[..k] == "";
        forall i | 0 <= i < |SplitAll(rest, sep)|
          ensures SplitAll(rest, sep)[i] == ""
        {
          assert SplitAll(rest, sep)[i] == r[i + 1];
        }
        forall i | 0 <= i < |s|
          ensures s[i] == sep
        {
          if i > 0 {
            assert s[i] == rest[i - 1];
          }
        }
      }
    } else if |s| > 0 {
      assert SplitAll(s, sep)[0] == s && s[0] != sep;
    }
  }

  /**
   * split(sep)[0]: the array is empty exactly for a non-empty text made
   * only of separators; otherwise its first piece is the text before the
   * first separator.
   */
  lemma SplitHead(s: string, sep: char)
    ensures |Split(s, sep)| == 0 <==> (s != "" && forall i :: 0 <= i < |s| ==> s[i] == sep)
    ensures |Split(s, sep)| > 0 ==> Split(s, sep)[0] == s[..if sep in s then IndexOf(s, sep) else |s|]
  {
    if s != "" {
      var pieces := SplitAll(s, sep);
      var r := DropTrailingEmpty(pieces);
      SplitAllEmpty(s, sep);
      assert r == [] || (r[0] == pieces[0] && r[|r| - 1] == pieces[|r| - 1]);
    }
  }

  /** A character that is not in the text is in none of its pieces. */
  lemma {:induction false} SplitAllKeepsOut(s: string, sep: char, c: char)
    requires c !in s
    ensures forall i :: 0 <= i < |SplitAll(s, sep)| ==> c !in SplitAll(s, sep)[i]
    decreases |s|
  {
    var k := IndexOf(s, sep);
    if k >= 0 {
      assert c !in s[k + 1..];
      SplitAllKeepsOut(s[k + 1..], sep, c);
      assert c !in s[..k];
      assert SplitAll(s, sep)[1..] == SplitAll(s[k + 1..], sep);
    }
  }

  lemma SplitKeepsOut(s: string, sep: char, c: char)
    requires c !in s
    ensures forall i :: 0 <= i < |Split(s, sep)| ==> c !in Split(s, sep)[i]
  {
    if s != "" {
      SplitAllKeepsOut(s, sep, c);
    }
  }

  /** Joining pieces without `c` with a separator without `c` gives a text without `c`. */
  lemma {:induction false} JoinKeepsOut(pieces: seq<string>, sep: string, c: char)
    requires c !in sep && forall i :: 0 <= i < |pieces| ==> c !in pieces[i]
    ensures c !in Join(pieces, sep)
    decreases |pieces|
  {
    if |pieces| > 1 {
      JoinKeepsOut(pieces[1..], sep, c);
    }
  }

  /** Replacing in a text without `c` by a replacement without `c` gives a text without `c`. */
  lemma {:induction false} ReplaceKeepsOut(s: string, target: string, replacement: string, c: char)
    requires |target| > 0 && c !in s && c !in replacement
    ensures c !in Replace(s, target, replacement)
    decreases |s|
  {
    if |s| >= |target| {
      if s[..|target|] == target {
        assert c !in s[|target|..];
        ReplaceKeepsOut(s[|target|..], target, replacement, c);
      } else {
        assert c !in s[1..];
        ReplaceKeepsOut(s[1..], target, replacement, c);
      }
    }
  }

  // ------------------------------------------------------- integers

  predicate IsDigit(c: char)
  {
    '0' <= c <= '9'
  }

  predicate AllDigits(s: string)
  {
    forall i :: 0 <= i < |s| ==> IsDigit(s[i])
  }

  function DigitValue(c: char): nat
    requires IsDigit(c)
  {
    c as int - '0' as int
  }

  function DigitsValue(s: string): nat
    requires AllDigits(s)
  {
    if |s| == 0 then 0 else DigitsValue(s[..|s| - 1]) * 10 + DigitValue(s[|s| - 1])
  }

  /**
   * Integer.parseInt(s, 10): an optional '+' or '-', then one or more
   * digits, and a value that fits in 32 bits; anything else is rejected.
   */
  function ParseInt(s: string): (r: Option<int>)
    ensures r.Some? ==> InInt32(r.value)
  {
    if |s| == 0 then None
    else if s[0] == '-' || s[0] == '+' then
      if |s| == 1 || !AllDigits(s[1..]) then None
      else
        var d: int := DigitsValue(s[1..]);
        var v := if s[0] == '-' then -d else d;
        if InInt32(v) then Some(v) else None
    else if AllDigits(s) && DigitsValue(s) <= IntMax then Some(DigitsValue(s))
    else None
  }

  /** Functions.isInteger: parseInt succeeds. */
  predicate IsInteger(s: string)
  {
    ParseInt(s).Some?
  }

  function DigitChar(d: nat): char
    requires d < 10
  {
    ('0' as int + d) as char
  }

  function NatToString(n: nat): (r: string)
    ensures |r| > 0 && AllDigits(r)
  {
    if n < 10 then [DigitChar(n)] else NatToString(n / 10) + [DigitChar(n % 10)]
  }

  /** String.valueOf(int) / Integer.toString. */
  function IntToString(n: int): string
  {
    if n < 0 then "-" + NatToString(-n) else NatToString(n)
  }

  lemma {:induction false} NatToStringValue(n: nat)
    ensures DigitsValue(NatToString(n)) == n
  {
    var r := NatToString(n);
    if n >= 10 {
      NatToStringValue(n / 10);
      assert r[..|r| - 1] == NatToString(n / 10);
    }
  }

  lemma ParseIntToString(n: int)
    requires InInt32(n)
    ensures ParseInt(IntToString(n)) == Some(n)
  {
    if n < 0 {
      var d := NatToString(-n);
      NatToStringValue(-n);
      assert ("-" + d)[1..] == d;
    } else {
      NatToStringValue(n);
      assert NatToString(n)[0] != '-' && NatToString(n)[0] != '+';
    }
  }
}
