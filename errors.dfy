/**
 * The reader's two error types and the exact text of their `Error()` messages.
 *
 * `UnknownDatabaseTypeError` formats its type with Go's `%q` verb, so the
 * module also models that quoting (strconv.Quote) for ASCII text, together
 * with an inverse that proves the quoted form loses nothing.
 */
module GeoErrors {
  import opened Wrappers

  /** A query method was called on a database whose type does not serve it. */
  datatype InvalidMethodError = InvalidMethodError(methodName: string, databaseType: string)
  {
    /** `geoip2: the <Method> method does not support the <DatabaseType> database` */
    function Error(): (msg: string)
      ensures InvalidMethodPrefix + methodName + InvalidMethodMiddle <= msg
      ensures |msg| == |methodName| + |databaseType| + 50
    {
      InvalidMethodPrefix + methodName + InvalidMethodMiddle + databaseType + InvalidMethodSuffix
    }
  }

  /** The declared database type is not one the reader knows. */
  datatype UnknownDatabaseTypeError = UnknownDatabaseTypeError(databaseType: string)
  {
    /** `geoip2: reader does not support the "<type>" database type`, the type quoted as by `%q` */
    function Error(): (msg: string)
      ensures UnknownTypePrefix + "\"" <= msg
      ensures |msg| >= |databaseType| + 52
      ensures msg[|msg| - |UnknownTypeSuffix| - 1..] == "\"" + UnknownTypeSuffix
    {
      UnknownTypePrefix + Quote(databaseType) + UnknownTypeSuffix
    }
  }

  const InvalidMethodPrefix := "geoip2: the "
  const InvalidMethodMiddle := " method does not support the "
  const InvalidMethodSuffix := " database"
  const UnknownTypePrefix := "geoip2: reader does not support the "
  const UnknownTypeSuffix := " database type"

  // ---------------------------------------------------------------------------
  // Go's %q on a string, for ASCII characters

  const LowerHex := "0123456789abcdef"

  /** Characters Go writes as a single-letter backslash escape (\a \b \f \n \r \t \v). */
  function LetterEscape(c: char): Option<char> {
    if c == '\U{7}' then Some('a')
    else if c == '\U{8}' then Some('b')
    else if c == '\U{C}' then Some('f')
    else if c == '\n' then Some('n')
    else if c == '\r' then Some('r')
    else if c == '\t' then Some('t')
    else if c == '\U{B}' then Some('v')
    else None
  }

  /** The control characters Go writes as `\xNN` (those below space, and DEL, without a letter escape). */
  predicate IsHexEscaped(c: char) {
    (c < ' ' || c == '\U{7F}') && LetterEscape(c).None?
  }

  /** How one character appears inside the quotes. */
  function QuoteRune(c: char): string {
    if c == '"' || c == '\\' then ['\\', c]
    else if LetterEscape(c).Some? then ['\\', LetterEscape(c).value]
    else if IsHexEscaped(c) then ['\\', 'x', LowerHex[(c as int) / 16], LowerHex[(c as int) % 16]]
    else [c]
  }

  /** The quoted text between the quotes; escaping never shortens it. */
  function QuoteBody(s: string): (b: string)
    ensures |b| >= |s|
  {
    if s == [] then [] else QuoteRune(s[0]) + QuoteBody(s[1..])
  }

  /** The text `%q` produces for `s`. */
  function Quote(s: string): (q: string)
    ensures |q| >= |s| + 2 && q[0] == '"' && q[|q| - 1] == '"'
  {
    "\"" + QuoteBody(s) + "\""
  }

  /** The value of a lower-case hex digit. */
  function HexValue(d: char): Option<nat> {
    if '0' <= d <= '9' then Some(d as int - '0' as int)
    else if 'a' <= d <= 'f' then Some(d as int - 'a' as int + 10)
    else None
  }

  /** The character a single-letter escape stands for. */
  function LetterUnescape(e: char): Option<char> {
    if e == 'a' then Some('\U{7}')
    else if e == 'b' then Some('\U{8}')
    else if e == 'f' then Some('\U{C}')
    else if e == 'n' then Some('\n')
    else if e == 'r' then Some('\r')
    else if e == 't' then Some('\t')
    else if e == 'v' then Some('\U{B}')
    else if e == '"' || e == '\\' then Some(e)
    else None
  }

  function Cons(c: char, rest: Option<string>): Option<string> {
    if rest.Some? then Some([c] + rest.value) else None
  }

  /** Reads back the text between the quotes; None when it is not well formed. */
  function UnquoteBody(t: string): Option<string>
    decreases |t|
  {
    if t == [] then Some([])
    else if t[0] == '"' then None
    else if t[0] != '\\' then Cons(t[0], UnquoteBody(t[1..]))
    else if |t| < 2 then None
    else if t[1] == 'x' then
      if |t| < 4 || HexValue(t[2]).None? || HexValue(t[3]).None? then None
      else Cons((HexValue(t[2]).value * 16 + HexValue(t[3]).value) as char, UnquoteBody(t[4..]))
    else if LetterUnescape(t[1]).Some? then Cons(LetterUnescape(t[1]).value, UnquoteBody(t[2..]))
    else None
  }

  /** The inverse of Quote. */
  function Unquote(q: string): Option<string> {
    if |q| < 2 || q[0] != '"' || q[|q| - 1] != '"' then None
    else UnquoteBody(q[1..|q| - 1])
  }

  lemma {:induction false} HexDigitRoundTrip(k: nat)
    requires k < 16
    ensures HexValue(LowerHex[k]) == Some(k)
  {
    if k < 10 {
      assert LowerHex[k] as int == '0' as int + k;
    } else {
      assert LowerHex[k] as int == 'a' as int + k - 10;
    }
  }

  lemma {:induction false} QuoteRuneRoundTrip(c: char, t: string)
    requires c < '\U{80}'
    ensures UnquoteBody(QuoteRune(c) + t) == Cons(c, UnquoteBody(t))
  {
    var q := QuoteRune(c) + t;
    if c == '"' || c == '\\' {
      assert q[2..] == t;
    } else if LetterEscape(c).Some? {
      assert q[2..] == t;
    } else if IsHexEscaped(c) {
      var n := c as int;
      HexDigitRoundTrip(n / 16);
      HexDigitRoundTrip(n % 16);
      assert q[4..] == t;
      assert (n / 16 * 16 + n % 16) as char == c;
    } else {
      assert q[1..] == t;
    }
  }

  /** Every character of `s` is ASCII: the part of `%q` this module models. */
  predicate IsAscii(s: string) {
    forall i :: 0 <= i < |s| ==> s[i] < '\U{80}'
  }

  lemma {:induction false} QuoteBodyRoundTrip(s: string)
    requires IsAscii(s)
    ensures UnquoteBody(QuoteBody(s)) == Some(s)
  {
    if s != [] {
      QuoteBodyRoundTrip(s[1..]);
      QuoteRuneRoundTrip(s[0], QuoteBody(s[1..]));
      assert [s[0]] + s[1..] == s;
    }
  }

  /** `%q` loses nothing: the quoted text reads back as the original string. */
  lemma QuoteRoundTrip(s: string)
    requires IsAscii(s)
    ensures Unquote(Quote(s)) == Some(s)
  {
    var q := Quote(s);
    assert q[1..|q| - 1] == QuoteBody(s);
    QuoteBodyRoundTrip(s);
  }

  // ---------------------------------------------------------------------------
  // Reading the messages back

  /** Index of the first space in `s`, or |s| when there is none. */
  function FirstSpace(s: string): (k: nat)
    ensures k <= |s|
    ensures forall i :: 0 <= i < k ==> s[i] != ' '
    ensures k < |s| ==> s[k] == ' '
  {
    if s == [] || s[0] == ' ' then 0 else 1 + FirstSpace(s[1..])
  }

  /**
   * Splits `msg` as `prefix + first + middle + second + suffix`, taking
   * `first` to end at the first space after the prefix.
   */
  function SplitFields(msg: string, prefix: string, middle: string, suffix: string): Option<(string, string)> {
    if !(prefix <= msg) then None
    else
      var rest := msg[|prefix|..];
      var k := FirstSpace(rest);
      var tail := rest[k..];
      if middle <= tail && |middle| + |suffix| <= |tail| && tail[|tail| - |suffix|..] == suffix
      then Some((rest[..k], tail[|middle|..|tail| - |suffix|]))
      else None
  }

  /** The text of `msg` between `prefix` and `suffix`. */
  function Between(msg: string, prefix: string, suffix: string): Option<string> {
    if prefix <= msg && |prefix| + |suffix| <= |msg| && msg[|msg| - |suffix|..] == suffix
    then Some(msg[|prefix|..|msg| - |suffix|])
    else None
  }

  /** Recovers the error from an InvalidMethodError message. */
  function ParseInvalidMethod(msg: string): Option<InvalidMethodError> {
    var fields := SplitFields(msg, InvalidMethodPrefix, InvalidMethodMiddle, InvalidMethodSuffix);
    if fields.Some? then Some(InvalidMethodError(fields.value.0, fields.value.1)) else None
  }

  /** Recovers the error from an UnknownDatabaseTypeError message. */
  function ParseUnknownDatabaseType(msg: string): Option<UnknownDatabaseTypeError> {
    var quoted := Between(msg, UnknownTypePrefix, UnknownTypeSuffix);
    var t := if quoted.Some? then Unquote(quoted.value) else None;
    if t.Some? then Some(UnknownDatabaseTypeError(t.value)) else None
  }

  /** A space-free first field followed by a middle that starts with a space splits back apart. */
  lemma SplitFieldsRoundTrip(prefix: string, first: string, middle: string, second: string, suffix: string)
    requires ' ' !in first && middle != [] && middle[0] == ' '
    ensures SplitFields(prefix + first + middle + second + suffix, prefix, middle, suffix) == Some((first, second))
  {
    var msg := prefix + first + middle + second + suffix;
    var tail := middle + second + suffix;
    var rest := first + tail;
    assert msg == prefix + rest;
    assert msg[|prefix|..] == rest;
    FirstSpaceBefore(first, tail);
    assert rest[|first|..] == tail;
    assert rest[..|first|] == first;
    assert tail[|tail| - |suffix|..] == suffix;
    assert tail[|middle|..|tail| - |suffix|] == second;
  }

  lemma BetweenRoundTrip(prefix: string, inner: string, suffix: string)
    ensures Between(prefix + inner + suffix, prefix, suffix) == Some(inner)
  {
    var msg := prefix + inner + suffix;
    assert msg[|msg| - |suffix|..] == suffix;
    assert msg[|prefix|..|msg| - |suffix|] == inner;
  }

  /**
   * The InvalidMethodError message carries both fields: for a method name
   * without spaces (every query method's name) the message reads back as the error.
   */
  lemma InvalidMethodMessageRoundTrip(e: InvalidMethodError)
    requires ' ' !in e.methodName
    ensures ParseInvalidMethod(e.Error()) == Some(e)
  {
    assert InvalidMethodMiddle[0] == ' ';
    SplitFieldsRoundTrip(InvalidMethodPrefix, e.methodName, InvalidMethodMiddle, e.databaseType, InvalidMethodSuffix);
  }

  /** The UnknownDatabaseTypeError message reads back as the error, whatever ASCII type it names. */
  lemma UnknownDatabaseTypeMessageRoundTrip(e: UnknownDatabaseTypeError)
    requires IsAscii(e.databaseType)
    ensures ParseUnknownDatabaseType(e.Error()) == Some(e)
  {
    BetweenRoundTrip(UnknownTypePrefix, Quote(e.databaseType), UnknownTypeSuffix);
    QuoteRoundTrip(e.databaseType);
  }

  lemma {:induction false} FirstSpaceBefore(a: string, b: string)
    requires ' ' !in a && b != [] && b[0] == ' '
    ensures FirstSpace(a + b) == |a|
  {
    if a != [] {
      assert (a + b)[1..] == a[1..] + b;
      FirstSpaceBefore(a[1..], b);
    }
  }

  /** Printable ASCII other than the quote and the backslash stands for itself inside the quotes. */
  lemma {:induction false} QuoteBodyPlain(s: string)
    requires forall i :: 0 <= i < |s| ==> ' ' <= s[i] < '\U{7F}' && s[i] != '"' && s[i] != '\\'
    ensures QuoteBody(s) == s
  {
    if s != [] {
      QuoteBodyPlain(s[1..]);
      assert [s[0]] + s[1..] == s;
    }
  }

  /** The InvalidMethodError message the test suite pins, character for character. */
  lemma InvalidMethodFormatting()
    ensures InvalidMethodError("M", "DB").Error() == "geoip2: the M method does not support the DB database"
  {
    InvalidMethodHead();
  }

  /** The message for method `M` up to the database type. */
  lemma InvalidMethodHead()
    ensures InvalidMethodPrefix + "M" + InvalidMethodMiddle == "geoip2: the M method does not support the "
  {
    assert InvalidMethodPrefix + "M" == "geoip2: the M";
    InvalidMethodTail();
  }

  /** The fixed middle of the message, after method `M`. */
  lemma InvalidMethodTail()
    ensures "geoip2: the M" + InvalidMethodMiddle == "geoip2: the M method does not support the "
  {
  }

  /** The UnknownDatabaseTypeError message the test suite pins, character for character. */
  lemma UnknownDatabaseTypeFormatting()
    ensures UnknownDatabaseTypeError("BadDB").Error() == "geoip2: reader does not support the \"BadDB\" database type"
  {
    QuoteBadDB();
    UnknownDatabaseTypeHead();
  }

  /** The message for type `BadDB` up to the closing quote. */
  lemma UnknownDatabaseTypeHead()
    ensures UnknownTypePrefix + "\"BadDB\"" == "geoip2: reader does not support the \"BadDB\""
  {
  }

  /** `%q` on "BadDB" only adds the quotes. */
  lemma QuoteBadDB()
    ensures Quote("BadDB") == "\"BadDB\""
  {
    var s := "BadDB";
    assert s[0] == 'B' && s[1] == 'a' && s[2] == 'd' && s[3] == 'D' && s[4] == 'B';
    QuoteBodyPlain(s);
  }
}
