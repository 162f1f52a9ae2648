// The host-option tokenizer of the current bot
// (bot/src/main/java/org/bestever/bebot/KeyValueParser.java). A cursor moves
// over the input: it skips whitespace, takes a key that runs up to an '=',
// skips the '=' with the whitespace around it, and takes either a quoted
// value or a run of non-whitespace, until the input is used up.
module KeyValueParser {
  import opened Wrappers
  import JavaText

  /** `\s` in the parser's patterns. */
  predicate IsSpace(c: char)
  {
    JavaText.IsRegexSpace(c)
  }

  /** The characters `.` does not match: Java's line terminators. */
  predicate IsLineTerminator(c: char)
  {
    c == '\n' || c == '\r' || c == '\U{85}' || c == '\U{2028}' || c == '\U{2029}'
  }

  predicate IsQuote(c: char)
  {
    c == '"' || c == '\''
  }

  datatype ParseError =
    | CalledTwice                     // IllegalStateException
    | DuplicateKey(key: string)       // InputException "Got duplicate key ..."
    | ExpectedMoreInput               // InputException from peekChar
    | WrongNear(excerpt: string)      // InputException from consumeByPattern

  // ------------------------------------------------------------ patterns

  /** SPACE_PATTERN `\s*`: the end of the whitespace run starting at p. */
  function SpaceEnd(s: string, p: nat): (q: nat)
    requires p <= |s|
    ensures p <= q <= |s|
    decreases |s| - p
  {
    if p < |s| && IsSpace(s[p]) then SpaceEnd(s, p + 1) else p
  }

  /** The run SPACE_PATTERN skips is all whitespace and as long as it can be. */
  lemma {:induction false} SpaceEndSpec(s: string, p: nat)
    requires p <= |s|
    ensures var q := SpaceEnd(s, p);
            (forall i :: p <= i < q ==> IsSpace(s[i])) && (q == |s| || !IsSpace(s[q]))
    decreases |s| - p
  {
    if p < |s| && IsSpace(s[p]) {
      SpaceEndSpec(s, p + 1);
    }
  }

  /** VALUE_PATTERN `\S+` once its first character is known: the end of the non-whitespace run. */
  function NonSpaceEnd(s: string, p: nat): (q: nat)
    requires p <= |s|
    ensures p <= q <= |s|
    decreases |s| - p
  {
    if p < |s| && !IsSpace(s[p]) then NonSpaceEnd(s, p + 1) else p
  }

  /** The run VALUE_PATTERN takes has no whitespace and is as long as it can be. */
  lemma {:induction false} NonSpaceEndSpec(s: string, p: nat)
    requires p <= |s|
    ensures var q := NonSpaceEnd(s, p);
            (forall i :: p <= i < q ==> !IsSpace(s[i])) && (q == |s| || IsSpace(s[q]))
    decreases |s| - p
  {
    if p < |s| && !IsSpace(s[p]) {
      NonSpaceEndSpec(s, p + 1);
    }
  }

  /** A key starting at p could end at j: s[j] is '=' and s[p..j] is non-empty non-whitespace. */
  predicate KeyCandidate(s: string, p: nat, j: nat)
  {
    p < j < |s| && s[j] == '=' && forall i :: p <= i < j ==> !IsSpace(s[i])
  }

  /**
   * KEY_PATTERN `\S+?(?==)`: the lazy quantifier stops at the first '='
   * after p, provided no whitespace comes before it.
   */
  function KeyEnd(s: string, p: nat): (r: Option<nat>)
    requires p <= |s|
    ensures r.Some? ==> p < r.value < |s|
  {
    if p < |s| && !IsSpace(s[p]) then KeyScan(s, p, p + 1) else None
  }

  function KeyScan(s: string, p: nat, j: nat): (r: Option<nat>)
    requires p < j <= |s|
    ensures r.Some? ==> j <= r.value < |s|
    decreases |s| - j
  {
    if j == |s| then None
    else if s[j] == '=' then Some(j)
    else if IsSpace(s[j]) then None
    else KeyScan(s, p, j + 1)
  }

  /** A key KEY_PATTERN finds ends at an '=' with no whitespace and no earlier '=' before it. */
  lemma {:induction false} KeyScanSome(s: string, p: nat, j: nat)
    requires p < j <= |s|
    requires forall i :: p <= i < j ==> !IsSpace(s[i])
    requires forall i :: p < i < j ==> s[i] != '='
    ensures var r := KeyScan(s, p, j);
            r.Some? ==> KeyCandidate(s, p, r.value) && forall i :: p < i < r.value ==> s[i] != '='
    decreases |s| - j
  {
    if j < |s| && s[j] != '=' && !IsSpace(s[j]) {
      KeyScanSome(s, p, j + 1);
    }
  }

  lemma KeyEndSome(s: string, p: nat)
    requires p <= |s|
    ensures var r := KeyEnd(s, p);
            r.Some? ==> KeyCandidate(s, p, r.value) && forall i :: p < i < r.value ==> s[i] != '='
  {
    if p < |s| && !IsSpace(s[p]) {
      KeyScanSome(s, p, p + 1);
    }
  }

  /** The quoted value opened at p could close at k: same quote, no line break in between. */
  predicate QuoteCandidate(s: string, p: nat, k: nat)
    requires p < |s|
  {
    p < k < |s| && s[k] == s[p] && forall i :: p < i < k ==> !IsLineTerminator(s[i])
  }

  /**
   * QUOTED_VALUE_PATTERN `(["'])(.*?)\1`: the index of the closing quote,
   * the first later occurrence of the opening one, if no line terminator
   * comes first. The match ends just past it.
   */
  function QuoteEnd(s: string, p: nat): (r: Option<nat>)
    requires p < |s| && IsQuote(s[p])
    ensures r.Some? ==> p < r.value < |s|
  {
    QuoteScan(s, p, p + 1)
  }

  function QuoteScan(s: string, p: nat, k: nat): (r: Option<nat>)
    requires p < k <= |s|
    ensures r.Some? ==> k <= r.value < |s|
    decreases |s| - k
  {
    if k == |s| then None
    else if s[k] == s[p] then Some(k)
    else if IsLineTerminator(s[k]) then None
    else QuoteScan(s, p, k + 1)
  }

  /** A closing quote QUOTED_VALUE_PATTERN finds is the first repeat of the opening one on its line. */
  lemma {:induction false} QuoteScanSome(s: string, p: nat, k: nat)
    requires p < k <= |s|
    requires forall i :: p < i < k ==> !IsLineTerminator(s[i]) && s[i] != s[p]
    ensures var r := QuoteScan(s, p, k);
            r.Some? ==> QuoteCandidate(s, p, r.value) && forall i :: p < i < r.value ==> s[i] != s[p]
    decreases |s| - k
  {
    if k < |s| && s[k] != s[p] && !IsLineTerminator(s[k]) {
      QuoteScanSome(s, p, k + 1);
    }
  }

  lemma QuoteEndSome(s: string, p: nat)
    requires p < |s| && IsQuote(s[p])
    ensures var r := QuoteEnd(s, p);
            r.Some? ==> QuoteCandidate(s, p, r.value) && forall i :: p < i < r.value ==> s[i] != s[p]
  {
    QuoteScanSome(s, p, p + 1);
  }

  /** KEY_PATTERN fails only when no '=' can end a key at p. */
  lemma {:induction false} KeyScanNone(s: string, p: nat, j: nat)
    requires p < j <= |s|
    requires forall i :: p <= i < j ==> !IsSpace(s[i])
    requires forall i :: p < i < j ==> s[i] != '='
    requires KeyScan(s, p, j).None?
    ensures forall k :: !KeyCandidate(s, p, k)
    decreases |s| - j
  {
    if j < |s| && s[j] != '=' && !IsSpace(s[j]) {
      KeyScanNone(s, p, j + 1);
    }
  }

  lemma KeyEndNone(s: string, p: nat)
    requires p <= |s| && KeyEnd(s, p).None?
    ensures forall k :: !KeyCandidate(s, p, k)
  {
    if p < |s| && !IsSpace(s[p]) {
      KeyScanNone(s, p, p + 1);
    }
  }

  /** QUOTED_VALUE_PATTERN fails only when the quote opened at p never closes on its line. */
  lemma {:induction false} QuoteScanNone(s: string, p: nat, k: nat)
    requires p < k <= |s|
    requires forall i :: p < i < k ==> !IsLineTerminator(s[i]) && s[i] != s[p]
    requires QuoteScan(s, p, k).None?
    ensures forall k' :: !QuoteCandidate(s, p, k')
    decreases |s| - k
  {
    if k < |s| && s[k] != s[p] && !IsLineTerminator(s[k]) {
      QuoteScanNone(s, p, k + 1);
    }
  }

  lemma QuoteEndNone(s: string, p: nat)
    requires p < |s| && IsQuote(s[p]) && QuoteEnd(s, p).None?
    ensures forall k :: !QuoteCandidate(s, p, k)
  {
    QuoteScanNone(s, p, p + 1);
  }

  /** describePosition: up to ten characters from the cursor on. */
  function Describe(s: string, p: nat): string
    requires p <= |s|
  {
    JavaText.Substring(s, p, if |s| < p + 10 then |s| else p + 10)
  }

  // ------------------------------------------------------- the parse

  /**
   * The value at p < |s|: a quoted value (QUOTED_VALUE_PATTERN, group 2)
   * when s[p] is a quote, else VALUE_PATTERN `\S+`; with the cursor after it.
   */
  function ValueAt(s: string, p: nat): (r: Result<(string, nat), ParseError>)
    requires p < |s|
    ensures r.Success? ==> p < r.value.1 <= |s|
    ensures r.Failure? ==> r.error == WrongNear(Describe(s, p))
  {
    if IsSpace(s[p]) then Failure(WrongNear(Describe(s, p)))
    else if IsQuote(s[p]) then
      match QuoteEnd(s, p)
      case None => Failure(WrongNear(Describe(s, p)))
      case Some(k) => Success((JavaText.Substring(s, p + 1, k), k + 1))
    else
      var q := NonSpaceEnd(s, p);
      Success((JavaText.Substring(s, p, q), q))
  }

  /** What one pass of the loop body does: stop with an outcome, or go on from a new cursor. */
  datatype Step =
    | Stop(outcome: Result<map<string, string>, ParseError>, position: nat)
    | Next(position: nat, pairs: map<string, string>)

  /**
   * One pass of the loop of parse() from cursor p < |s|: skip whitespace,
   * read a key, the '=' and a value, and record the pair; the cursor always
   * moves forward, and a recorded key is never overwritten.
   */
  function ParseStep(s: string, p: nat, pairs: map<string, string>): (r: Step)
    requires p < |s|
    ensures p <= r.position <= |s|
    ensures r.Next? ==> p < r.position
  {
    var p1 := SpaceEnd(s, p);
    if p1 >= |s| then Stop(Success(pairs), p1)
    else match KeyEnd(s, p1)
      case None => Stop(Failure(WrongNear(Describe(s, p1))), p1)
      case Some(p2) =>
        var key := JavaText.Trim(JavaText.Substring(s, p1, p2));
        if key in pairs then Stop(Failure(DuplicateKey(key)), p2)
        else
          // ASSIGNEMENT_PATTERN: the key's look-ahead already saw the '='.
          var p3 := SpaceEnd(s, p2 + 1);
          if p3 >= |s| then Stop(Failure(ExpectedMoreInput), p3)
          else match ValueAt(s, p3)
            case Failure(e) => Stop(Failure(e), p3)
            case Success((value, q)) => Next(q, pairs[key := value])
  }

  /**
   * The loop of parse() from cursor p with the pairs collected so far:
   * the outcome and the cursor position it leaves behind.
   */
  function ParseFrom(s: string, p: nat, pairs: map<string, string>)
    : (r: (Result<map<string, string>, ParseError>, nat))
    requires p <= |s|
    ensures p <= r.1 <= |s|
    ensures r.0.Success? ==> r.1 == |s|
    decreases |s| - p
  {
    if p >= |s| then (Success(pairs), p)
    else match ParseStep(s, p, pairs)
      case Stop(outcome, q) => (outcome, q)
      case Next(q, pairs') => ParseFrom(s, q, pairs')
  }

  /** A first call of parse() on `s`: its outcome and where it leaves the cursor. */
  function Run(s: string): (Result<map<string, string>, ParseError>, nat)
  {
    ParseFrom(s, 0, map[])
  }

  /**
   * A pass that reads a pair only adds a key that was not there, and keeps
   * every earlier pair; the only successful stop is at the end of the input,
   * with the pairs unchanged.
   */
  lemma ParseStepKeeps(s: string, p: nat, pairs: map<string, string>)
    requires p < |s|
    ensures var r := ParseStep(s, p, pairs);
            && (r.Next? ==> pairs.Keys < r.pairs.Keys && |r.pairs| == |pairs| + 1
                            && forall k :: k in pairs ==> r.pairs[k] == pairs[k])
            && (r.Stop? && r.outcome.Success? ==> r.outcome.value == pairs && r.position == |s|)
  {
    var p1 := SpaceEnd(s, p);
    if p1 < |s| && KeyEnd(s, p1).Some? {
      var p2 := KeyEnd(s, p1).value;
      var key := JavaText.Trim(JavaText.Substring(s, p1, p2));
      var p3 := SpaceEnd(s, p2 + 1);
      if key !in pairs && p3 < |s| && ValueAt(s, p3).Success? {
        MapAddNew(pairs, key, ValueAt(s, p3).value.0);
      }
    }
  }

  lemma MapAddNew(m: map<string, string>, k: string, v: string)
    requires k !in m
    ensures m.Keys < m[k := v].Keys && |m[k := v]| == |m| + 1
    ensures forall j :: j in m ==> m[k := v][j] == m[j]
  {
    assert k in m[k := v].Keys - m.Keys;
  }

  /** A successful parse keeps every pair it started with: no key is overwritten. */
  lemma {:induction false} ParseFromKeeps(s: string, p: nat, pairs: map<string, string>)
    requires p <= |s|
    ensures var r := ParseFrom(s, p, pairs).0;
            r.Success? ==> pairs.Keys <= r.value.Keys && forall k :: k in pairs ==> r.value[k] == pairs[k]
    decreases |s| - p
  {
    if p < |s| {
      ParseStepKeeps(s, p, pairs);
      match ParseStep(s, p, pairs)
      case Stop(_, _) =>
      case Next(q, pairs') => ParseFromKeeps(s, q, pairs');
    }
  }

  class KeyValueParser {
    const input: string
    var position: nat

    constructor (input: string)
      ensures this.input == input && position == 0
    {
      this.input := input;
      position := 0;
    }

    /** parse(): the pairs of the input, or the error that stopped it. */
    method Parse() returns (r: Result<map<string, string>, ParseError>)
      modifies this
      ensures old(position) != 0 ==> r == Failure(CalledTwice) && position == old(position)
      ensures old(position) == 0 ==> (r, position) == Run(input)
    {
      if position != 0 {
        return Failure(CalledTwice);
      }
      var pairs: map<string, string> := map[];
      while position < |input|
        invariant position <= |input|
        invariant ParseFrom(input, position, pairs) == Run(input)
        decreases |input| - position
      {
        var step := ParsePair(pairs);
        if step.Stop? {
          return step.outcome;
        }
        pairs := step.pairs;
      }
      return Success(pairs);
    }

    /** One pass of the loop of parse(): the cursor is left where the pass leaves it. */
    method ParsePair(pairs: map<string, string>) returns (step: Step)
      requires position < |input|
      modifies this
      ensures step == ParseStep(input, old(position), pairs) && position == step.position
    {
      ghost var p0 := position;
      position := SpaceEnd(input, position);
      if position >= |input| {
        return Stop(Success(pairs), position);
      }
      var keyEnd := KeyEnd(input, position);
      if keyEnd.None? {
        return Stop(Failure(WrongNear(Describe(input, position))), position);
      }
      var key := JavaText.Trim(JavaText.Substring(input, position, keyEnd.value));
      position := keyEnd.value;
      if key in pairs {
        return Stop(Failure(DuplicateKey(key)), position);
      }
      position := SpaceEnd(input, position + 1);
      if position >= |input| {
        return Stop(Failure(ExpectedMoreInput), position);
      }
      var value := ValueAt(input, position);
      if value.Failure? {
        return Stop(Failure(value.error), position);
      }
      position := value.value.1;
      return Next(position, pairs[key := value.value.0]);
    }
  }

  // ------------------------------------------------------ properties

  /**
   * A successful parse of non-empty input leaves the cursor at the end, so a
   * second call of parse() on the same parser is refused.
   */
  lemma SecondParseRefused(s: string)
    requires s != [] && Run(s).0.Success?
    ensures Run(s).1 == |s| > 0
  {
  }

  /** A parse that fails at its first key leaves the cursor at 0, so parse() may be called again. */
  lemma FailedFirstKeyKeepsCursor()
    ensures Run("abc") == (Failure(WrongNear("abc")), 0)
  {
    var s := "abc";
    assert SpaceEnd(s, 0) == 0;
    assert KeyEnd(s, 0).None? by {
      assert !KeyCandidate(s, 0, 1) && !KeyCandidate(s, 0, 2);
    }
    assert Describe(s, 0) == s;
  }

  /** The cursor at p sees `t` next. */
  predicate At(s: string, p: nat, t: string)
  {
    p + |t| <= |s| && forall i :: 0 <= i < |t| ==> s[p + i] == t[i]
  }

  lemma AtIndex(s: string, p: nat, t: string, i: nat)
    requires At(s, p, t) && i < |t|
    ensures s[p + i] == t[i]
  {
  }

  lemma {:induction false} AtSubstring(s: string, p: nat, t: string)
    requires At(s, p, t)
    ensures JavaText.Substring(s, p, p + |t|) == t
    decreases |t|
  {
    if |t| > 0 {
      forall i | 0 <= i < |t| - 1 ensures s[p + 1 + i] == t[1..][i] {
        AtIndex(s, p, t, i + 1);
      }
      AtSubstring(s, p + 1, t[1..]);
      AtIndex(s, p, t, 0);
      assert t == [t[0]] + t[1..];
    }
  }

  /** Every string is seen from its own start. */
  lemma AtWhole(s: string)
    ensures At(s, 0, s)
  {
  }

  lemma AtConcat(s: string, p: nat, x: string, y: string)
    ensures At(s, p, x + y) <==> At(s, p, x) && At(s, p + |x|, y)
  {
    if At(s, p, x) && At(s, p + |x|, y) {
      forall i | 0 <= i < |x + y| ensures s[p + i] == (x + y)[i] {
        if i >= |x| { AtIndex(s, p + |x|, y, i - |x|); }
      }
    }
    if At(s, p, x + y) {
      forall i | 0 <= i < |x| ensures s[p + i] == x[i] {
        AtIndex(s, p, x + y, i);
      }
      forall i | 0 <= i < |y| ensures s[p + |x| + i] == y[i] {
        AtIndex(s, p, x + y, |x| + i);
      }
    }
  }

  predicate AllSpace(w: string)
  {
    forall i :: 0 <= i < |w| ==> IsSpace(w[i])
  }

  /** SpaceEnd is the only place where a whitespace run from p can stop. */
  lemma {:induction false} SpaceEndUnique(s: string, p: nat, q: nat)
    requires p <= q <= |s| && forall i :: p <= i < q ==> IsSpace(s[i])
    requires q == |s| || !IsSpace(s[q])
    ensures SpaceEnd(s, p) == q
    decreases q - p
  {
    if p < q {
      SpaceEndUnique(s, p + 1, q);
    }
  }

  /** NonSpaceEnd is the only place where a run of non-whitespace from p can stop. */
  lemma {:induction false} NonSpaceEndUnique(s: string, p: nat, q: nat)
    requires p <= q <= |s| && forall i :: p <= i < q ==> !IsSpace(s[i])
    requires q == |s| || IsSpace(s[q])
    ensures NonSpaceEnd(s, p) == q
    decreases q - p
  {
    if p < q {
      NonSpaceEndUnique(s, p + 1, q);
    }
  }

  /** A quoted value closes at the first later occurrence of its opening quote. */
  lemma QuoteEndUnique(s: string, p: nat, k: nat)
    requires p < |s| && IsQuote(s[p]) && QuoteCandidate(s, p, k)
    requires forall i :: p < i < k ==> s[i] != s[p]
    ensures QuoteEnd(s, p) == Some(k)
  {
    QuoteEndSome(s, p);
    if QuoteEnd(s, p).None? {
      QuoteEndNone(s, p);
    }
  }

  /** Whitespace the cursor sees next, followed by the end or by something else, is skipped exactly. */
  lemma SpaceEndAt(s: string, p: nat, w: string)
    requires At(s, p, w) && AllSpace(w)
    requires p + |w| == |s| || !IsSpace(s[p + |w|])
    ensures SpaceEnd(s, p) == p + |w|
  {
    forall i | p <= i < p + |w| ensures IsSpace(s[i]) {
      AtIndex(s, p, w, i - p);
    }
    SpaceEndUnique(s, p, p + |w|);
  }

  /**
   * A key the parser reads back unchanged: no whitespace, no '=', and
   * nothing trim() would strip at either end.
   */
  predicate PlainKey(key: string)
  {
    && |key| > 0
    && (forall i :: 0 <= i < |key| ==> !IsSpace(key[i]) && key[i] != '=')
    && !JavaText.IsTrimmable(key[0]) && !JavaText.IsTrimmable(key[|key| - 1])
  }

  /** KEY_PATTERN reads exactly a plain key followed by '='. */
  lemma KeyAt(s: string, p: nat, key: string)
    requires At(s, p, key + "=") && PlainKey(key)
    ensures KeyEnd(s, p) == Some(p + |key|)
  {
    var e := p + |key|;
    AtConcat(s, p, key, "=");
    AtIndex(s, e, "=", 0);
    forall i | p <= i < e ensures !IsSpace(s[i]) && (i > p ==> s[i] != '=') {
      AtIndex(s, p, key, i - p);
    }
    assert KeyCandidate(s, p, e);
    KeyEndSome(s, p);
    if KeyEnd(s, p).None? {
      KeyEndNone(s, p);
    }
  }

  /** The key read back is the key itself: trim() has nothing to strip from a plain key. */
  lemma KeyTextAt(s: string, p: nat, key: string)
    requires At(s, p, key) && PlainKey(key)
    ensures JavaText.Trim(JavaText.Substring(s, p, p + |key|)) == key
  {
    AtSubstring(s, p, key);
    JavaText.TrimUnchanged(key);
  }

  datatype Quoting = Bare | DoubleQuoted | SingleQuoted

  /** One `key=value` field of a command: whitespace before it, the key, whitespace after '=', the value. */
  datatype Field = Field(lead: string, key: string, gap: string, value: string, quoting: Quoting)

  function QuoteChar(q: Quoting): char
  {
    if q == SingleQuoted then '\'' else '"'
  }

  function RenderValue(value: string, quoting: Quoting): string
  {
    if quoting == Bare then value else [QuoteChar(quoting)] + value + [QuoteChar(quoting)]
  }

  /** A value the parser reads back unchanged in the given quoting. */
  predicate PlainValue(value: string, quoting: Quoting)
  {
    if quoting == Bare then
      |value| > 0 && !IsQuote(value[0]) && forall i :: 0 <= i < |value| ==> !IsSpace(value[i])
    else
      forall i :: 0 <= i < |value| ==> value[i] != QuoteChar(quoting) && !IsLineTerminator(value[i])
  }

  /** The value pattern reads back exactly a rendered value (a bare one must be followed by whitespace or the end). */
  lemma ValueAtRendered(s: string, p: nat, value: string, quoting: Quoting)
    requires At(s, p, RenderValue(value, quoting)) && PlainValue(value, quoting)
    requires quoting == Bare ==> p + |value| == |s| || IsSpace(s[p + |value|])
    ensures p < |s|
    ensures ValueAt(s, p) == Success((value, p + |RenderValue(value, quoting)|))
  {
    if quoting == Bare {
      forall i | p <= i < p + |value| ensures !IsSpace(s[i]) {
        AtIndex(s, p, value, i - p);
      }
      NonSpaceEndUnique(s, p, p + |value|);
      AtSubstring(s, p, value);
    } else {
      var c := QuoteChar(quoting);
      var k := p + |value| + 1;
      AtConcat(s, p, [c] + value, [c]);
      AtConcat(s, p, [c], value);
      AtIndex(s, p, [c], 0);
      AtIndex(s, k, [c], 0);
      forall i | p < i < k ensures !IsLineTerminator(s[i]) && s[i] != c {
        AtIndex(s, p + 1, value, i - p - 1);
      }
      assert QuoteCandidate(s, p, k);
      QuoteEndUnique(s, p, k);
      AtSubstring(s, p + 1, value);
    }
  }

  function RenderField(f: Field): string
  {
    f.lead + (f.key + "=") + f.gap + RenderValue(f.value, f.quoting)
  }

  function Render(fields: seq<Field>, trail: string): string
  {
    if |fields| == 0 then trail else RenderField(fields[0]) + Render(fields[1..], trail)
  }

  predicate WellFormedField(f: Field)
  {
    AllSpace(f.lead) && AllSpace(f.gap) && PlainKey(f.key) && PlainValue(f.value, f.quoting)
  }

  /** Fields a command line can hold: whitespace separates each field from the one before. */
  predicate WellFormed(fields: seq<Field>, trail: string)
  {
    && AllSpace(trail)
    && (forall i :: 0 <= i < |fields| ==> WellFormedField(fields[i]))
    && (forall i :: 0 < i < |fields| ==> |fields[i].lead| > 0)
  }

  predicate KeysDistinct(fields: seq<Field>)
  {
    forall i, j :: 0 <= i < j < |fields| ==> fields[i].key != fields[j].key
  }

  /** The map the fields describe, added to `pairs` in order. */
  function Insert(pairs: map<string, string>, fields: seq<Field>): map<string, string>
    decreases |fields|
  {
    if |fields| == 0 then pairs else Insert(pairs[fields[0].key := fields[0].value], fields[1..])
  }

  lemma {:induction false} InsertKeeps(pairs: map<string, string>, fields: seq<Field>, k: string)
    requires k in pairs
    requires forall j :: 0 <= j < |fields| ==> fields[j].key != k
    ensures k in Insert(pairs, fields) && Insert(pairs, fields)[k] == pairs[k]
    decreases |fields|
  {
    if |fields| > 0 {
      InsertKeeps(pairs[fields[0].key := fields[0].value], fields[1..], k);
    }
  }

  lemma {:induction false} InsertContents(pairs: map<string, string>, fields: seq<Field>)
    requires KeysDistinct(fields)
    ensures forall i :: 0 <= i < |fields| ==>
              fields[i].key in Insert(pairs, fields) && Insert(pairs, fields)[fields[i].key] == fields[i].value
    ensures forall k :: k in Insert(pairs, fields) <==>
              k in pairs || exists i :: 0 <= i < |fields| && fields[i].key == k
    decreases |fields|
  {
    if |fields| > 0 {
      var rest := fields[1..];
      var pairs' := pairs[fields[0].key := fields[0].value];
      assert forall j :: 0 <= j < |rest| ==> rest[j] == fields[j + 1];
      InsertContents(pairs', rest);
      forall k | k in Insert(pairs, fields)
        ensures k in pairs || exists i :: 0 <= i < |fields| && fields[i].key == k
      {
        if k !in pairs && k != fields[0].key {
          var i :| 0 <= i < |rest| && rest[i].key == k;
          assert fields[i + 1].key == k;
        }
      }
      forall k | k in pairs || exists i :: 0 <= i < |fields| && fields[i].key == k
        ensures k in Insert(pairs, fields)
      {
        if k !in pairs && k != fields[0].key {
          var i :| 0 <= i < |fields| && fields[i].key == k;
          assert rest[i - 1].key == k;
        }
      }
      InsertKeeps(pairs', rest, fields[0].key);
    }
  }

  /** The four parts of a rendered field, as the cursor sees them. */
  lemma FieldParts(s: string, p: nat, f: Field)
    requires At(s, p, RenderField(f))
    ensures At(s, p, f.lead)
    ensures At(s, p + |f.lead|, f.key + "=")
    ensures At(s, p + |f.lead| + |f.key| + 1, f.gap)
    ensures At(s, p + |f.lead| + |f.key| + 1 + |f.gap|, RenderValue(f.value, f.quoting))
    ensures |RenderField(f)| == |f.lead| + |f.key| + 1 + |f.gap| + |RenderValue(f.value, f.quoting)|
  {
    AtConcat(s, p, f.lead + (f.key + "=") + f.gap, RenderValue(f.value, f.quoting));
    AtConcat(s, p, f.lead + (f.key + "="), f.gap);
    AtConcat(s, p, f.lead, f.key + "=");
  }

  /**
   * What one pass of the loop finds from cursor p: whitespace up to a, a key
   * ending at e that trims to `key`, then whitespace up to b and a value
   * ending at q.
   */
  predicate StepFinds(s: string, p: nat, a: nat, e: nat, key: string, b: nat, value: string, q: nat)
  {
    && p <= a < |s| && SpaceEnd(s, p) == a && KeyEnd(s, a) == Some(e)
    && JavaText.Trim(JavaText.Substring(s, a, e)) == key
    && b < |s| && SpaceEnd(s, e + 1) == b && ValueAt(s, b) == Success((value, q))
  }

  /** Such a pass records the pair and moves to q, or stops at a key that was read before. */
  lemma StepOf(s: string, p: nat, pairs: map<string, string>, a: nat, e: nat, key: string, b: nat, value: string, q: nat)
    requires StepFinds(s, p, a, e, key, b, value, q)
    ensures key in pairs ==> ParseStep(s, p, pairs) == Stop(Failure(DuplicateKey(key)), e)
    ensures key !in pairs ==> ParseStep(s, p, pairs) == Next(q, pairs[key := value])
  {
  }

  /**
   * The cursor at p sees a well-formed rendered field; a bare value is
   * followed by whitespace or the end of the input, which ends it.
   */
  predicate FieldAt(s: string, p: nat, f: Field)
  {
    && At(s, p, RenderField(f)) && WellFormedField(f)
    && (f.quoting == Bare ==> p + |RenderField(f)| == |s| || IsSpace(s[p + |RenderField(f)|]))
  }

  /** What the patterns find at the front of a rendered field: its lead, then its key up to the '='. */
  lemma FieldKeyReads(s: string, p: nat, f: Field)
    requires WellFormedField(f)
    requires At(s, p, f.lead) && At(s, p + |f.lead|, f.key + "=")
    ensures var a := p + |f.lead|;
            var e := a + |f.key|;
            && a < |s| && SpaceEnd(s, p) == a && KeyEnd(s, a) == Some(e)
            && JavaText.Trim(JavaText.Substring(s, a, e)) == f.key
  {
    var a := p + |f.lead|;
    var e := a + |f.key|;
    assert a < |s| && SpaceEnd(s, p) == a by {
      AtIndex(s, a, f.key + "=", 0);
      SpaceEndAt(s, p, f.lead);
    }
    assert KeyEnd(s, a) == Some(e) by {
      KeyAt(s, a, f.key);
    }
    assert JavaText.Trim(JavaText.Substring(s, a, e)) == f.key by {
      AtConcat(s, a, f.key, "=");
      KeyTextAt(s, a, f.key);
    }
  }

  /** What the patterns find after the '=' of a rendered field: its gap, then its value. */
  lemma FieldValueReads(s: string, e: nat, f: Field, rv: string)
    requires WellFormedField(f) && rv == RenderValue(f.value, f.quoting)
    requires At(s, e + 1, f.gap) && At(s, e + 1 + |f.gap|, rv)
    requires var n := e + 1 + |f.gap| + |rv|;
             f.quoting == Bare ==> n == |s| || IsSpace(s[n])
    ensures var b := e + 1 + |f.gap|;
            b < |s| && SpaceEnd(s, e + 1) == b && ValueAt(s, b) == Success((f.value, b + |rv|))
  {
    var b := e + 1 + |f.gap|;
    ValueAtRendered(s, b, f.value, f.quoting);
    AtIndex(s, b, rv, 0);
    SpaceEndAt(s, e + 1, f.gap);
  }

  lemma FieldReads(s: string, p: nat, f: Field)
    requires FieldAt(s, p, f)
    ensures StepFinds(s, p, p + |f.lead|, p + |f.lead| + |f.key|, f.key,
                      p + |f.lead| + |f.key| + 1 + |f.gap|, f.value, p + |RenderField(f)|)
  {
    FieldParts(s, p, f);
    FieldKeyReads(s, p, f);
    FieldValueReads(s, p + |f.lead| + |f.key|, f, RenderValue(f.value, f.quoting));
  }

  /**
   * One field: a pass of the loop reads exactly its key and value and moves
   * past it, or stops at the key if that key was read before.
   */
  lemma ParseOneField(s: string, p: nat, f: Field, pairs: map<string, string>)
    requires FieldAt(s, p, f)
    ensures p < |s|
    ensures f.key !in pairs ==>
              ParseStep(s, p, pairs) == Next(p + |RenderField(f)|, pairs[f.key := f.value])
    ensures f.key in pairs ==>
              ParseStep(s, p, pairs) == Stop(Failure(DuplicateKey(f.key)), p + |f.lead| + |f.key|)
  {
    FieldReads(s, p, f);
    StepOf(s, p, pairs, p + |f.lead|, p + |f.lead| + |f.key|, f.key,
           p + |f.lead| + |f.key| + 1 + |f.gap|, f.value, p + |RenderField(f)|);
  }

  /** A rendered command whose first field has a lead starts with whitespace. */
  lemma RenderHead(fields: seq<Field>, trail: string)
    requires |fields| == 0 ==> AllSpace(trail)
    requires |fields| > 0 ==> |fields[0].lead| > 0 && AllSpace(fields[0].lead)
    ensures |Render(fields, trail)| == 0 || IsSpace(Render(fields, trail)[0])
  {
    if |fields| > 0 {
      var f := fields[0];
      assert RenderField(f)[0] == f.lead[0];
      assert Render(fields, trail)[0] == RenderField(f)[0];
    }
  }

  /** The first field and the rest of a rendered command, as the cursor sees them. */
  lemma RenderSplit(s: string, p: nat, fields: seq<Field>, trail: string, n: nat)
    requires |fields| > 0 && Reading(s, p, fields, trail) && n == p + |RenderField(fields[0])|
    ensures FieldAt(s, p, fields[0])
    ensures Reading(s, n, fields[1..], trail)
  {
    RestWellFormed(fields, trail);
    RenderHead(fields[1..], trail);
    AtFollowedBy(s, p, RenderField(fields[0]), Render(fields[1..], trail), n);
  }

  /** Text that ends the input and whose second part starts with a space splits into two readings. */
  lemma AtFollowedBy(s: string, p: nat, x: string, y: string, n: nat)
    requires At(s, p, x + y) && p + |x + y| == |s| && (|y| == 0 || IsSpace(y[0])) && n == p + |x|
    ensures At(s, p, x) && At(s, n, y) && n + |y| == |s|
    ensures n == |s| || IsSpace(s[n])
  {
    AtConcat(s, p, x, y);
    if |y| > 0 {
      AtIndex(s, n, y, 0);
    }
  }

  lemma RestWellFormed(fields: seq<Field>, trail: string)
    requires |fields| > 0 && WellFormed(fields, trail)
    ensures WellFormedField(fields[0]) && WellFormed(fields[1..], trail)
    ensures |fields| > 1 ==> |fields[1].lead| > 0 && AllSpace(fields[1].lead)
  {
    var rest := fields[1..];
    assert forall i :: 0 <= i < |rest| ==> rest[i] == fields[i + 1];
  }


  /** The cursor at p sees the rendered fields and trail, and nothing after them. */
  predicate Reading(s: string, p: nat, fields: seq<Field>, trail: string)
  {
    At(s, p, Render(fields, trail)) && p + |Render(fields, trail)| == |s| && WellFormed(fields, trail)
  }

  /** The keys of the fields are distinct and none of them was read before. */
  predicate Fresh(fields: seq<Field>, pairs: map<string, string>)
  {
    KeysDistinct(fields) && forall i :: 0 <= i < |fields| ==> fields[i].key !in pairs
  }

  /** Reading the first of several rendered fields leaves the cursor at the rest of them. */
  lemma FirstFieldStep(s: string, p: nat, fields: seq<Field>, trail: string, pairs: map<string, string>, n: nat)
    requires |fields| > 0 && Reading(s, p, fields, trail) && fields[0].key !in pairs
    requires n == p + |RenderField(fields[0])|
    ensures p < |s|
    ensures ParseStep(s, p, pairs) == Next(n, pairs[fields[0].key := fields[0].value])
    ensures Reading(s, n, fields[1..], trail)
  {
    RenderSplit(s, p, fields, trail, n);
    ParseOneField(s, p, fields[0], pairs);
  }

  /** A pass of the loop that reads a pair hands the rest of the input to the next pass. */
  lemma ParseFromNext(s: string, p: nat, pairs: map<string, string>, n: nat, pairs': map<string, string>)
    requires p < |s| && ParseStep(s, p, pairs) == Next(n, pairs')
    ensures n <= |s| && ParseFrom(s, p, pairs) == ParseFrom(s, n, pairs')
  {
  }

  /** Whitespace alone after the last field ends the parse with the pairs read so far. */
  lemma TrailEnds(s: string, p: nat, fields: seq<Field>, trail: string, pairs: map<string, string>)
    requires |fields| == 0 && Reading(s, p, fields, trail)
    ensures ParseFrom(s, p, pairs) == (Success(Insert(pairs, fields)), |s|)
  {
    if p < |s| {
      SpaceEndAt(s, p, trail);
    }
  }

  /** After the first of several fields with distinct keys, none of the rest has a key read so far. */
  lemma RestFresh(fields: seq<Field>, pairs: map<string, string>)
    requires |fields| > 0 && Fresh(fields, pairs)
    ensures Fresh(fields[1..], pairs[fields[0].key := fields[0].value])
  {
    var rest := fields[1..];
    assert forall i :: 0 <= i < |rest| ==> rest[i] == fields[i + 1];
  }

  /** Past a first field with a new key, the parse goes on from the rest of the fields with that pair added. */
  lemma NewKeyStep(s: string, p: nat, fields: seq<Field>, trail: string, pairs: map<string, string>, n: nat, pairs': map<string, string>)
    requires |fields| > 0 && Reading(s, p, fields, trail) && fields[0].key !in pairs
    requires n == p + |RenderField(fields[0])| && pairs' == pairs[fields[0].key := fields[0].value]
    ensures p < n <= |s| && Reading(s, n, fields[1..], trail)
    ensures ParseFrom(s, p, pairs) == ParseFrom(s, n, pairs')
  {
    FirstFieldStep(s, p, fields, trail, pairs, n);
    ParseFromNext(s, p, pairs, n, pairs');
  }

  /** Rendered fields parse back to exactly their pairs when the keys are distinct. */
  lemma {:induction false} ParseRenderedFrom(s: string, p: nat, fields: seq<Field>, trail: string, pairs: map<string, string>)
    requires Reading(s, p, fields, trail) && Fresh(fields, pairs)
    ensures ParseFrom(s, p, pairs) == (Success(Insert(pairs, fields)), |s|)
    decreases |fields|
  {
    if |fields| == 0 {
      TrailEnds(s, p, fields, trail, pairs);
    } else {
      var n, pairs' := p + |RenderField(fields[0])|, pairs[fields[0].key := fields[0].value];
      NewKeyStep(s, p, fields, trail, pairs, n, pairs');
      RestFresh(fields, pairs);
      ParseRenderedFrom(s, n, fields[1..], trail, pairs');
    }
  }

  /**
   * Round trip: fields written out as `key=value`, `key="value"` or
   * `key='value'`, with whitespace before, between and after them and
   * after the '=', parse back to exactly those pairs.
   */
  lemma ParseRendered(s: string, fields: seq<Field>, trail: string)
    requires s == Render(fields, trail) && WellFormed(fields, trail) && KeysDistinct(fields)
    ensures Run(s) == (Success(Insert(map[], fields)), |s|)
    ensures var m := Run(s).0.value;
            (forall i :: 0 <= i < |fields| ==> fields[i].key in m && m[fields[i].key] == fields[i].value)
            && forall k :: k in m ==> exists i :: 0 <= i < |fields| && fields[i].key == k
  {
    ParseRenderedFrom(s, 0, fields, trail, map[]);
    InsertContents(map[], fields);
  }

  /** Some field repeats a key read before it, or two fields share a key. */
  predicate HasRepeat(fields: seq<Field>, pairs: map<string, string>)
  {
    (exists i :: 0 <= i < |fields| && fields[i].key in pairs) || !KeysDistinct(fields)
  }

  predicate IsDuplicateKey(r: Result<map<string, string>, ParseError>)
  {
    r.Failure? && r.error.DuplicateKey?
  }

  /** A key that was already read makes the parse fail with DuplicateKey instead of overwriting. */
  lemma {:induction false} RepeatedKeyRejectedFrom(s: string, p: nat, fields: seq<Field>, trail: string, pairs: map<string, string>)
    requires Reading(s, p, fields, trail) && HasRepeat(fields, pairs)
    ensures IsDuplicateKey(ParseFrom(s, p, pairs).0)
    decreases |fields|
  {
    RepeatNonEmpty(fields, pairs);
    if fields[0].key in pairs {
      FirstFieldRepeats(s, p, fields, trail, pairs);
    } else {
      var n, pairs' := p + |RenderField(fields[0])|, pairs[fields[0].key := fields[0].value];
      NewKeyStep(s, p, fields, trail, pairs, n, pairs');
      RepeatSurvives(fields, pairs);
      RepeatedKeyRejectedFrom(s, n, fields[1..], trail, pairs');
    }
  }

  lemma RepeatNonEmpty(fields: seq<Field>, pairs: map<string, string>)
    requires HasRepeat(fields, pairs)
    ensures |fields| > 0
  {
  }

  /** A first field whose key was read before ends the parse at that key. */
  lemma FirstFieldRepeats(s: string, p: nat, fields: seq<Field>, trail: string, pairs: map<string, string>)
    requires |fields| > 0 && Reading(s, p, fields, trail) && fields[0].key in pairs
    ensures ParseFrom(s, p, pairs)
            == (Failure(DuplicateKey(fields[0].key)), p + |fields[0].lead| + |fields[0].key|)
  {
    RenderSplit(s, p, fields, trail, p + |RenderField(fields[0])|);
    ParseOneField(s, p, fields[0], pairs);
  }

  /** Once the first field is read, the repeat is still ahead: a key already read or two equal keys. */
  lemma RepeatSurvives(fields: seq<Field>, pairs: map<string, string>)
    requires |fields| > 0 && fields[0].key !in pairs && HasRepeat(fields, pairs)
    ensures HasRepeat(fields[1..], pairs[fields[0].key := fields[0].value])
  {
    var rest, pairs' := fields[1..], pairs[fields[0].key := fields[0].value];
    if exists i :: 0 <= i < |fields| && fields[i].key in pairs {
      var i :| 0 <= i < |fields| && fields[i].key in pairs;
      assert rest[i - 1].key in pairs';
    } else {
      var i, j :| 0 <= i < j < |fields| && fields[i].key == fields[j].key;
      if i == 0 {
        assert rest[j - 1].key in pairs';
      } else {
        assert rest[i - 1].key == rest[j - 1].key;
      }
    }
  }

  lemma RepeatedKeyRejected(fields: seq<Field>, trail: string)
    requires WellFormed(fields, trail) && !KeysDistinct(fields)
    ensures Run(Render(fields, trail)).0.Failure?
    ensures Run(Render(fields, trail)).0.error.DuplicateKey?
  {
    RepeatedKeyRejectedFrom(Render(fields, trail), 0, fields, trail, map[]);
  }

  /** Input that ends right after `key=` (and any whitespace) fails with ExpectedMoreInput. */
  lemma EndAfterAssignment(lead: string, key: string, gap: string)
    requires AllSpace(lead) && AllSpace(gap) && PlainKey(key)
    ensures var s := lead + (key + "=") + gap;
            Run(s) == (Failure(ExpectedMoreInput), |s|)
  {
    var s := lead + (key + "=") + gap;
    AtWhole(s);
    AtConcat(s, 0, lead + (key + "="), gap);
    AtConcat(s, 0, lead, key + "=");
    RunsOutAt(s, 0, |lead|, |lead| + |key|, lead, key, gap, map[]);
  }

  /** From cursor p: whitespace, a new plain key, its '=', and whitespace to the end of the input. */
  lemma RunsOutAt(s: string, p: nat, a: nat, e: nat, lead: string, key: string, gap: string,
                  pairs: map<string, string>)
    requires a == p + |lead| && e == a + |key| && e + 1 + |gap| == |s|
    requires At(s, p, lead) && At(s, a, key + "=") && At(s, e + 1, gap)
    requires AllSpace(lead) && AllSpace(gap) && PlainKey(key) && key !in pairs
    ensures ParseFrom(s, p, pairs) == (Failure(ExpectedMoreInput), |s|)
  {
    LeadKeyReads(s, p, lead, key);
    assert JavaText.Trim(JavaText.Substring(s, a, e)) == key by {
      AtConcat(s, a, key, "=");
      KeyTextAt(s, a, key);
    }
    GapReads(s, e + 1, gap);
    StepRunsOut(s, p, pairs, a, e, |s|);
  }

  /** Whitespace, then a plain key and its '=': the patterns skip the one and find the other. */
  lemma LeadKeyReads(s: string, p: nat, lead: string, key: string)
    requires At(s, p, lead) && At(s, p + |lead|, key + "=")
    requires AllSpace(lead) && PlainKey(key)
    ensures p + |lead| < |s| && SpaceEnd(s, p) == p + |lead|
    ensures KeyEnd(s, p + |lead|) == Some(p + |lead| + |key|)
  {
    AtIndex(s, p + |lead|, key + "=", 0);
    SpaceEndAt(s, p, lead);
    KeyAt(s, p + |lead|, key);
  }

  /** Whitespace up to the end of the input is skipped to the end. */
  lemma GapReads(s: string, p: nat, gap: string)
    requires At(s, p, gap) && p + |gap| == |s| && AllSpace(gap)
    ensures SpaceEnd(s, p) == p + |gap| == |s|
  {
    SpaceEndAt(s, p, gap);
  }

  /** A pass that finds a key and its '=' but only whitespace after them stops asking for more input. */
  lemma StepRunsOut(s: string, p: nat, pairs: map<string, string>, a: nat, e: nat, n: nat)
    requires p <= a < |s| && SpaceEnd(s, p) == a && KeyEnd(s, a) == Some(e)
    requires JavaText.Trim(JavaText.Substring(s, a, e)) !in pairs
    requires SpaceEnd(s, e + 1) == n == |s|
    ensures ParseFrom(s, p, pairs) == (Failure(ExpectedMoreInput), |s|)
  {
    assert ParseStep(s, p, pairs) == Stop(Failure(ExpectedMoreInput), |s|);
  }

  // The three examples of the project's unit tests, as instances of the round trip.

  lemma NormalPairs(s: string)
    requires s == "abc=jkl" + " def=iop"
    ensures Run(s).0 == Success(map["abc" := "jkl", "def" := "iop"])
  {
    var f0 := Field("", "abc", "", "jkl", Bare);
    var f1 := Field(" ", "def", "", "iop", Bare);
    NormalRendering(f0, f1);
    ExampleKeysPlain();
    NormalValuesPlain();
    assert AllSpace(" ");
    TwoFieldsParse(s, f0, f1, "");
  }

  lemma QuotedPairs(s: string)
    requires s == "abc='j\"kl'" + (" abc1='foo'" + (" def=\"i'op\"" + " def1=\"zoo\""))
    ensures Run(s).0
            == Success(map["abc" := "j\"kl", "abc1" := "foo", "def" := "i'op", "def1" := "zoo"])
  {
    var f0 := Field("", "abc", "", "j\"kl", SingleQuoted);
    var f1 := Field(" ", "abc1", "", "foo", SingleQuoted);
    var f2 := Field(" ", "def", "", "i'op", DoubleQuoted);
    var f3 := Field(" ", "def1", "", "zoo", DoubleQuoted);
    QuotedRendering(f0, f1, f2, f3);
    ExampleKeysPlain();
    ExampleValuesPlain(SingleQuoted);
    ExampleValuesPlain(DoubleQuoted);
    assert AllSpace(" ");
    FourFieldsParse(s, f0, f1, f2, f3, "");
  }

  lemma TrimmedMixedPairs(s: string)
    requires s == " abc='j\"kl'" + (" abc1=foo" + (" def=\"i'op\"" + (" def1=\"zoo\"" + "  ")))
    ensures Run(s).0
            == Success(map["abc" := "j\"kl", "abc1" := "foo", "def" := "i'op", "def1" := "zoo"])
  {
    var f0 := Field(" ", "abc", "", "j\"kl", SingleQuoted);
    var f1 := Field(" ", "abc1", "", "foo", Bare);
    var f2 := Field(" ", "def", "", "i'op", DoubleQuoted);
    var f3 := Field(" ", "def1", "", "zoo", DoubleQuoted);
    TrimmedMixedRendering(f0, f1, f2, f3);
    ExampleKeysPlain();
    ExampleValuesPlain(Bare);
    ExampleValuesPlain(DoubleQuoted);
    assert AllSpace(" ");
    FourFieldsParse(s, f0, f1, f2, f3, "  ");
  }

  lemma NormalRendering(f0: Field, f1: Field)
    requires f0 == Field("", "abc", "", "jkl", Bare)
    requires f1 == Field(" ", "def", "", "iop", Bare)
    ensures RenderField(f0) == "abc=jkl" && RenderField(f1) == " def=iop"
  {
  }

  lemma QuotedRendering(f0: Field, f1: Field, f2: Field, f3: Field)
    requires f0 == Field("", "abc", "", "j\"kl", SingleQuoted)
    requires f1 == Field(" ", "abc1", "", "foo", SingleQuoted)
    requires f2 == Field(" ", "def", "", "i'op", DoubleQuoted)
    requires f3 == Field(" ", "def1", "", "zoo", DoubleQuoted)
    ensures RenderField(f0) == "abc='j\"kl'"
    ensures RenderField(f1) == " abc1='foo'"
    ensures RenderField(f2) == " def=\"i'op\""
    ensures RenderField(f3) == " def1=\"zoo\""
  {
    SingleQuotedRendering(f0, f1);
    DoubleQuotedRendering(f2, f3);
  }

  lemma SingleQuotedRendering(f0: Field, f1: Field)
    requires f0 == Field("", "abc", "", "j\"kl", SingleQuoted)
    requires f1 == Field(" ", "abc1", "", "foo", SingleQuoted)
    ensures RenderField(f0) == "abc='j\"kl'" && RenderField(f1) == " abc1='foo'"
  {
  }

  lemma DoubleQuotedRendering(f2: Field, f3: Field)
    requires f2 == Field(" ", "def", "", "i'op", DoubleQuoted)
    requires f3 == Field(" ", "def1", "", "zoo", DoubleQuoted)
    ensures RenderField(f2) == " def=\"i'op\"" && RenderField(f3) == " def1=\"zoo\""
  {
  }

  lemma TrimmedMixedRendering(f0: Field, f1: Field, f2: Field, f3: Field)
    requires f0 == Field(" ", "abc", "", "j\"kl", SingleQuoted)
    requires f1 == Field(" ", "abc1", "", "foo", Bare)
    requires f2 == Field(" ", "def", "", "i'op", DoubleQuoted)
    requires f3 == Field(" ", "def1", "", "zoo", DoubleQuoted)
    ensures RenderField(f0) == " abc='j\"kl'"
    ensures RenderField(f1) == " abc1=foo"
    ensures RenderField(f2) == " def=\"i'op\""
    ensures RenderField(f3) == " def1=\"zoo\""
  {
    MixedRendering(f0, f1);
    DoubleQuotedRendering(f2, f3);
  }

  lemma MixedRendering(f0: Field, f1: Field)
    requires f0 == Field(" ", "abc", "", "j\"kl", SingleQuoted)
    requires f1 == Field(" ", "abc1", "", "foo", Bare)
    ensures RenderField(f0) == " abc='j\"kl'" && RenderField(f1) == " abc1=foo"
  {
  }

  /** The keys and values of the examples are plain: the patterns read them back unchanged. */
  lemma ExampleKeysPlain()
    ensures PlainKey("abc") && PlainKey("abc1") && PlainKey("def") && PlainKey("def1")
  {
  }

  lemma ExampleValuesPlain(q: Quoting)
    ensures PlainValue("foo", q) && PlainValue("zoo", q)
    ensures PlainValue("j\"kl", SingleQuoted) && PlainValue("i'op", DoubleQuoted)
  {
  }

  /** The values of the test's normal case need no quotes. */
  lemma NormalValuesPlain()
    ensures PlainValue("jkl", Bare) && PlainValue("iop", Bare)
  {
  }

  lemma TwoFieldsParse(s: string, f0: Field, f1: Field, trail: string)
    requires s == RenderField(f0) + (RenderField(f1) + trail)
    requires WellFormedField(f0) && WellFormedField(f1)
    requires |f1.lead| > 0 && AllSpace(trail) && f0.key != f1.key
    ensures Run(s).0 == Success(map[f0.key := f0.value, f1.key := f1.value])
  {
    var fields := [f0, f1];
    assert fields[1..] == [f1] && [f1][1..] == [];
    assert Render([f1], trail) == RenderField(f1) + trail;
    assert WellFormed(fields, trail) && KeysDistinct(fields);
    ParseRendered(s, fields, trail);
    assert Insert(map[], fields) == Insert(map[f0.key := f0.value], [f1]);
  }

  /** The round trip for four fields with distinct keys, written out field by field. */
  lemma FourFieldsParse(s: string, f0: Field, f1: Field, f2: Field, f3: Field, trail: string)
    requires s == RenderField(f0) + (RenderField(f1) + (RenderField(f2) + (RenderField(f3) + trail)))
    requires WellFormedField(f0) && WellFormedField(f1) && WellFormedField(f2) && WellFormedField(f3)
    requires |f1.lead| > 0 && |f2.lead| > 0 && |f3.lead| > 0 && AllSpace(trail)
    requires f0.key != f1.key && f0.key != f2.key && f0.key != f3.key
    requires f1.key != f2.key && f1.key != f3.key && f2.key != f3.key
    ensures Run(s).0
            == Success(map[f0.key := f0.value, f1.key := f1.value, f2.key := f2.value, f3.key := f3.value])
  {
    var fields := [f0, f1, f2, f3];
    FourFieldsRender(f0, f1, f2, f3, trail);
    FourFieldsWellFormed(f0, f1, f2, f3, trail);
    ParseRendered(s, fields, trail);
    FourFieldsInsert(f0, f1, f2, f3);
  }

  lemma FourFieldsWellFormed(f0: Field, f1: Field, f2: Field, f3: Field, trail: string)
    requires WellFormedField(f0) && WellFormedField(f1) && WellFormedField(f2) && WellFormedField(f3)
    requires |f1.lead| > 0 && |f2.lead| > 0 && |f3.lead| > 0 && AllSpace(trail)
    requires f0.key != f1.key && f0.key != f2.key && f0.key != f3.key
    requires f1.key != f2.key && f1.key != f3.key && f2.key != f3.key
    ensures WellFormed([f0, f1, f2, f3], trail) && KeysDistinct([f0, f1, f2, f3])
  {
  }

  lemma FourFieldsRender(f0: Field, f1: Field, f2: Field, f3: Field, trail: string)
    ensures Render([f0, f1, f2, f3], trail)
            == RenderField(f0) + (RenderField(f1) + (RenderField(f2) + (RenderField(f3) + trail)))
  {
    assert [f0, f1, f2, f3][1..] == [f1, f2, f3] && [f1, f2, f3][1..] == [f2, f3];
    assert [f2, f3][1..] == [f3] && [f3][1..] == [];
    assert Render([f3], trail) == RenderField(f3) + trail;
    assert Render([f2, f3], trail) == RenderField(f2) + Render([f3], trail);
    assert Render([f1, f2, f3], trail) == RenderField(f1) + Render([f2, f3], trail);
  }

  lemma FourFieldsInsert(f0: Field, f1: Field, f2: Field, f3: Field)
    ensures Insert(map[], [f0, f1, f2, f3])
            == map[f0.key := f0.value, f1.key := f1.value, f2.key := f2.value, f3.key := f3.value]
  {
    var m1 := map[][f0.key := f0.value];
    var m2 := m1[f1.key := f1.value];
    var m3 := m2[f2.key := f2.value];
    assert [f0, f1, f2, f3][1..] == [f1, f2, f3] && [f1, f2, f3][1..] == [f2, f3];
    assert [f2, f3][1..] == [f3] && [f3][1..] == [];
    assert Insert(map[], [f0, f1, f2, f3]) == Insert(m1, [f1, f2, f3]);
    assert Insert(m1, [f1, f2, f3]) == Insert(m2, [f2, f3]);
    assert Insert(m2, [f2, f3]) == Insert(m3, [f3]);
  }
}
