// The bot's static helpers (src/main/java/org/bestever/bebot/Functions.java):
// port checks, pluralisation, de-duplication of wad lists, quote escaping,
// hexadecimal encoding, the first free port, time decomposition and
// file-name cleaning.
module Functions {
  import opened Wrappers
  import opened JavaText

  // ---------------------------------------------------------------- ports

  /** checkValidPort: the text is an int p with minPort <= p < maxPort. */
  predicate CheckValidPort(port: string, minPort: int, maxPort: int)
  {
    ParseInt(port).Some? && minPort <= ParseInt(port).value < maxPort
  }

  /** For a port written by String.valueOf, the check is the half-open range test. */
  lemma CheckValidPortOfInt(p: int, minPort: int, maxPort: int)
    requires InInt32(p)
    ensures CheckValidPort(IntToString(p), minPort, maxPort) <==> minPort <= p < maxPort
  {
    ParseIntToString(p);
  }

  /** Text that is not an integer never passes, whatever the range. */
  lemma CheckValidPortNeedsInteger(port: string, minPort: int, maxPort: int)
    requires CheckValidPort(port, minPort, maxPort)
    ensures IsInteger(port) && InInt32(ParseInt(port).value)
  {
  }

  /**
   * getFirstAvailablePort, specified: the least port in [minPort, maxPort)
   * that the availability check accepts, or 0. The check itself opens
   * sockets; here it is a predicate supplied by the caller.
   */
  function FirstAvailable(minPort: int, maxPort: int, available: int -> bool): int
    decreases maxPort - minPort
  {
    if minPort >= maxPort then 0
    else if available(minPort) then minPort
    else FirstAvailable(minPort + 1, maxPort, available)
  }

  lemma {:induction false} FirstAvailableIsLeast(minPort: int, maxPort: int, available: int -> bool)
    ensures var r := FirstAvailable(minPort, maxPort, available);
            (exists p :: minPort <= p < maxPort && available(p)) ==>
              minPort <= r < maxPort && available(r)
              && forall q :: minPort <= q < r ==> !available(q)
    ensures (forall p :: minPort <= p < maxPort ==> !available(p))
            ==> FirstAvailable(minPort, maxPort, available) == 0
    decreases maxPort - minPort
  {
    if minPort < maxPort && !available(minPort) {
      FirstAvailableIsLeast(minPort + 1, maxPort, available);
      var r := FirstAvailable(minPort, maxPort, available);
      if exists p :: minPort <= p < maxPort && available(p) {
        var p :| minPort <= p < maxPort && available(p);
        assert minPort + 1 <= p;
      }
    }
  }

  /** getFirstAvailablePort: try each port in turn. */
  method GetFirstAvailablePort(minPort: int, maxPort: int, available: int -> bool) returns (r: int)
    ensures r == FirstAvailable(minPort, maxPort, available)
  {
    var p := minPort;
    while p < maxPort
      invariant FirstAvailable(p, maxPort, available) == FirstAvailable(minPort, maxPort, available)
      decreases maxPort - p
    {
      if available(p) {
        return p;
      }
      p := p + 1;
    }
    return 0;
  }

  // --------------------------------------------------------- pluralize

  /** pluralize: "{s}" markers vanish for exactly one thing and become "s" otherwise. */
  function Pluralize(message: string, number: int): string
  {
    if Contains(message, "{s}") then Replace(message, "{s}", if number == 1 then "" else "s")
    else message
  }

  lemma PluralizeLength(message: string, number: int)
    ensures |Pluralize(message, number)|
            == |message| - Occurrences(message, "{s}") * (if number == 1 then 3 else 2)
  {
    ReplaceLength(message, "{s}", if number == 1 then "" else "s");
    if !Contains(message, "{s}") {
      OccurrencesAbsent(message, "{s}");
    }
  }

  lemma {:induction false} OccurrencesAbsent(s: string, target: string)
    requires |target| > 0 && !Contains(s, target)
    ensures Occurrences(s, target) == 0
    decreases |s|
  {
    if |s| >= |target| {
      OccurrencesAbsent(s[1..], target);
    }
  }

  lemma {:induction false} ContainsStartChar(s: string, t: string)
    requires |t| > 0 && Contains(s, t)
    ensures t[0] in s
    decreases |s|
  {
    if !StartsWith(s, t) {
      ContainsStartChar(s[1..], t);
    } else {
      assert s[0] == t[0];
    }
  }

  lemma {:induction false} ContainsInside(a: string, t: string, b: string)
    ensures Contains(a + t + b, t)
    decreases |a|
  {
    if |a| == 0 {
      assert (a + t + b)[..|t|] == t;
    } else {
      ContainsInside(a[1..], t, b);
      assert (a + t + b)[1..] == a[1..] + t + b;
    }
  }

  /**
   * The bot's messages carry a single marker and no other brace, and for
   * those pluralize gives "thing" for one and "things" for any other count.
   */
  lemma PluralizeOneMarker(prefix: string, suffix: string, number: int)
    requires '{' !in prefix && '{' !in suffix
    ensures Pluralize(prefix + "{s}" + suffix, number)
            == prefix + (if number == 1 then "" else "s") + suffix
  {
    ContainsInside(prefix, "{s}", suffix);
    MarkerOnce(prefix, suffix, if number == 1 then "" else "s");
  }

  /** The one marker between two brace-free parts is the only thing rewritten. */
  lemma MarkerOnce(prefix: string, suffix: string, repl: string)
    requires '{' !in prefix && '{' !in suffix
    ensures Replace(prefix + "{s}" + suffix, "{s}", repl) == prefix + repl + suffix
  {
    assert prefix + "{s}" + suffix == prefix + ("{s}" + suffix);
    ReplaceSkipsPrefix(prefix, "{s}" + suffix, "{s}", repl);
    ReplaceAtFront("{s}", suffix, repl);
    if Contains(suffix, "{s}") {
      ContainsStartChar(suffix, "{s}");
    }
    ReplaceAbsent(suffix, "{s}", repl);
  }

  // ------------------------------------------------ removeDuplicateWads

  predicate NoDuplicates<T(==)>(s: seq<T>)
  {
    forall i, j :: 0 <= i < j < |s| ==> s[i] != s[j]
  }

  /**
   * removeDuplicateWads passes the list through a HashSet, so only the
   * element set and the absence of repeats are promised, not the order.
   */
  method RemoveDuplicateWads(l: seq<string>) returns (r: seq<string>)
    ensures NoDuplicates(r)
    ensures forall w :: w in r <==> w in l
  {
    r := [];
    for i := 0 to |l|
      invariant NoDuplicates(r)
      invariant forall w :: w in r <==> w in l[..i]
    {
      assert l[..i + 1] == l[..i] + [l[i]];
      if l[i] !in r {
        r := r + [l[i]];
      }
    }
    assert l[..|l|] == l;
  }

  // ------------------------------------------------------ escapeQuotes

  /** escapeQuotes, specified: a backslash goes in front of every double quote. */
  function Escaped(s: string): string
  {
    if |s| == 0 then ""
    else (if s[0] == '"' then "\\\"" else [s[0]]) + Escaped(s[1..])
  }

  lemma {:induction false} EscapedAppend(a: string, b: string)
    ensures Escaped(a + b) == Escaped(a) + Escaped(b)
    decreases |a|
  {
    if |a| > 0 {
      assert (a + b)[1..] == a[1..] + b;
      EscapedAppend(a[1..], b);
    } else {
      assert a + b == b;
    }
  }

  method EscapeQuotes(input: string) returns (r: string)
    ensures r == Escaped(input)
  {
    r := "";
    for i := 0 to |input|
      invariant r == Escaped(input[..i])
    {
      assert input[..i + 1] == input[..i] + [input[i]];
      EscapedAppend(input[..i], [input[i]]);
      if input[i] == '"' {
        r := r + "\\";
      }
      r := r + [input[i]];
    }
    assert input[..|input|] == input;
  }

  lemma {:induction false} EscapedLength(s: string)
    ensures |Escaped(s)| == |s| + multiset(s)['"']
  {
    if |s| > 0 {
      EscapedLength(s[1..]);
      assert s == [s[0]] + s[1..];
      assert multiset(s) == multiset([s[0]]) + multiset(s[1..]);
    }
  }

  lemma {:induction false} EscapedWithoutQuotes(s: string)
    requires '"' !in s
    ensures Escaped(s) == s
  {
    if |s| > 0 {
      assert '"' !in s[1..];
      EscapedWithoutQuotes(s[1..]);
    }
  }

  lemma EscapedStart(s: string)
    ensures |Escaped(s)| > 0 ==> Escaped(s)[0] != '"'
  {
  }

  /** Every double quote in the output is preceded by a backslash. */
  lemma {:induction false} EscapedQuotesArePreceded(s: string)
    ensures var r := Escaped(s);
            forall i :: 0 <= i < |r| && r[i] == '"' ==> i > 0 && r[i - 1] == '\\'
  {
    if |s| > 0 {
      var e: string := if s[0] == '"' then "\\\"" else [s[0]];
      var rest := Escaped(s[1..]);
      EscapedQuotesArePreceded(s[1..]);
      EscapedStart(s[1..]);
      var r := Escaped(s);
      assert r == e + rest;
      forall i | 0 <= i < |r| && r[i] == '"'
        ensures i > 0 && r[i - 1] == '\\'
      {
        if i >= |e| {
          assert r[i] == rest[i - |e|];
          assert i - |e| > 0;
          assert r[i - 1] == rest[i - |e| - 1];
        }
      }
    }
  }

  /** Escaping adds backslashes only: any other character stays out if it was out. */
  lemma {:induction false} EscapedKeepsOut(s: string, c: char)
    requires c != '\\' && c !in s
    ensures c !in Escaped(s)
    decreases |s|
  {
    if |s| > 0 {
      assert c !in s[1..];
      EscapedKeepsOut(s[1..], c);
    }
  }

  /** Reading \" as " from left to right, as the game console does. */
  function Unescape(s: string): string
  {
    if |s| >= 2 && s[0] == '\\' && s[1] == '"' then "\"" + Unescape(s[2..])
    else if |s| == 0 then ""
    else [s[0]] + Unescape(s[1..])
  }

  lemma {:induction false} UnescapeEscaped(s: string)
    ensures Unescape(Escaped(s)) == s
  {
    if |s| > 0 {
      var rest := Escaped(s[1..]);
      UnescapeEscaped(s[1..]);
      EscapedStart(s[1..]);
      if s[0] == '"' {
        assert Escaped(s) == "\\\"" + rest;
        assert Escaped(s)[2..] == rest;
      } else {
        assert Escaped(s) == [s[0]] + rest;
        assert Escaped(s)[1..] == rest;
      }
    }
  }

  // --------------------------------------------------- byteArrayToHex

  /** A Java byte: a signed 8-bit value. */
  newtype JavaByte = b: int | -128 <= b < 128

  function HexDigit(d: nat): char
    requires d < 16
  {
    if d < 10 then ('0' as int + d) as char else ('a' as int + d - 10) as char
  }

  predicate IsLowerHexDigit(c: char)
  {
    '0' <= c <= '9' || 'a' <= c <= 'f'
  }

  function HexDigitValue(c: char): nat
    requires IsLowerHexDigit(c)
  {
    if c <= '9' then c as int - '0' as int else c as int - 'a' as int + 10
  }

  /** String.format("%02x", b & 0xff). */
  function HexOfByte(b: JavaByte): string
  {
    var u := (b as int) % 256;
    [HexDigit(u / 16), HexDigit(u % 16)]
  }

  function Hex(bytes: seq<JavaByte>): string
  {
    if |bytes| == 0 then "" else Hex(bytes[..|bytes| - 1]) + HexOfByte(bytes[|bytes| - 1])
  }

  method ByteArrayToHex(bytes: seq<JavaByte>) returns (r: string)
    ensures r == Hex(bytes)
  {
    r := "";
    for i := 0 to |bytes|
      invariant r == Hex(bytes[..i])
    {
      assert bytes[..i + 1][..i] == bytes[..i];
      r := r + HexOfByte(bytes[i]);
    }
    assert bytes[..|bytes|] == bytes;
  }

  /** Reads pairs of lowercase hex digits back as unsigned byte values. */
  function UnHex(s: string): seq<int>
    requires |s| % 2 == 0
    requires forall i :: 0 <= i < |s| ==> IsLowerHexDigit(s[i])
  {
    if |s| == 0 then []
    else UnHex(s[..|s| - 2]) + [HexDigitValue(s[|s| - 2]) * 16 + HexDigitValue(s[|s| - 1])]
  }

  /** Two lowercase hex digits per byte, and they spell the byte's value b & 0xff. */
  lemma {:induction false} HexRoundTrip(bytes: seq<JavaByte>)
    ensures |Hex(bytes)| == 2 * |bytes|
    ensures forall i :: 0 <= i < |Hex(bytes)| ==> IsLowerHexDigit(Hex(bytes)[i])
    ensures UnHex(Hex(bytes)) == seq(|bytes|, i requires 0 <= i < |bytes| => (bytes[i] as int) % 256)
  {
    if |bytes| > 0 {
      var init := bytes[..|bytes| - 1];
      HexRoundTrip(init);
      var h := Hex(bytes);
      var u := (bytes[|bytes| - 1] as int) % 256;
      assert h == Hex(init) + HexOfByte(bytes[|bytes| - 1]);
      assert h[..|h| - 2] == Hex(init);
      ByteDigits(u);
    }
  }

  /** The two digits of an unsigned byte read back as that byte. */
  lemma ByteDigits(u: int)
    requires 0 <= u < 256
    ensures IsLowerHexDigit(HexDigit(u / 16)) && IsLowerHexDigit(HexDigit(u % 16))
    ensures HexDigitValue(HexDigit(u / 16)) * 16 + HexDigitValue(HexDigit(u % 16)) == u
  {
  }

  // ----------------------------------------------------- calculateTime

  /** Java's `/` on long: the quotient truncated toward zero. */
  function JavaDiv(a: int, b: int): int
    requires b > 0
  {
    if a >= 0 then a / b else -((-a) / b)
  }

  datatype Duration = Duration(days: int, hours: int, minutes: int, seconds: int)

  /** The four numbers calculateTime prints, each computed with TimeUnit conversions. */
  function TimeParts(milliseconds: int): Duration
  {
    var s := JavaDiv(milliseconds, 1000);
    var d := JavaDiv(s, 86400);
    var h := JavaDiv(s, 3600);
    var m := JavaDiv(s, 60);
    Duration(d, h - d * 24, m - h * 60, s - m * 60)
  }

  function CalculateTime(milliseconds: int): string
  {
    var t := TimeParts(milliseconds);
    IntToString(t.days) + " days " + IntToString(t.hours) + " hours "
    + IntToString(t.minutes) + " minutes and " + IntToString(t.seconds) + " second(s)."
  }

  /**
   * The parts add back up to the whole seconds, and each lies in its clock
   * range; a negative duration gives parts that are all zero or negative.
   */
  lemma TimePartsDecompose(milliseconds: int)
    ensures var t := TimeParts(milliseconds);
            t.days * 86400 + t.hours * 3600 + t.minutes * 60 + t.seconds
            == JavaDiv(milliseconds, 1000)
    ensures var t := TimeParts(milliseconds);
            milliseconds >= 0 ==>
              t.days >= 0 && 0 <= t.hours < 24 && 0 <= t.minutes < 60 && 0 <= t.seconds < 60
    ensures var t := TimeParts(milliseconds);
            milliseconds < 0 ==>
              t.days <= 0 && -24 < t.hours <= 0 && -60 < t.minutes <= 0 && -60 < t.seconds <= 0
  {
    var s := JavaDiv(milliseconds, 1000);
    var a := if s >= 0 then s else -s;
    var d, h, m := a / 86400, a / 3600, a / 60;
    assert 86400 * d <= a < 86400 * d + 86400;
    assert 3600 * h <= a < 3600 * h + 3600;
    assert 60 * m <= a < 60 * m + 60;
    assert 0 <= h - d * 24 < 24;
    assert 0 <= m - h * 60 < 60;
  }

  // ---------------------------------------------------- cleanInputFile

  /** cleanInputFile: drop every '/', then trim. */
  function CleanInputFile(input: string): (r: string)
    ensures '/' !in r
    ensures r == [] || (!IsTrimmable(r[0]) && !IsTrimmable(r[|r| - 1]))
    ensures forall c :: c in r ==> c in input
  {
    TrimSpec(RemoveChar(input, '/'));
    Trim(RemoveChar(input, '/'))
  }
}
