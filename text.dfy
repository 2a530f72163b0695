/**
 * The text of a log line, the `%d` rendering of an error code in it, and
 * the reading of a NUL-terminated C string out of a character buffer.
 * Each rendering has a reader beside it, so that the line format is shown
 * to be unambiguous: the prefix, the code and the message can be read back.
 */
module LogText {
  import opened Wrappers

  /** A C `int`. */
  newtype i32 = x: int | -0x8000_0000 <= x < 0x8000_0000

  predicate IsDigit(c: char) {
    '0' <= c <= '9'
  }

  predicate AllDigits(s: string) {
    forall i :: 0 <= i < |s| ==> IsDigit(s[i])
  }

  function DigitChar(d: nat): (c: char)
    requires d < 10
    ensures IsDigit(c)
  {
    ('0' as int + d) as char
  }

  function DigitValue(c: char): (d: nat)
    requires IsDigit(c)
    ensures d < 10 && DigitChar(d) == c
  {
    c as int - '0' as int
  }

  /** The decimal digits of `n`, most significant first, without leading zeros. */
  function NatDecimal(n: nat): (s: string)
    ensures |s| >= 1 && AllDigits(s)
    ensures s[0] == '0' ==> n == 0 && s == "0"
    decreases n
  {
    if n < 10 then [DigitChar(n)] else NatDecimal(n / 10) + [DigitChar(n % 10)]
  }

  /** `%d` of an integer: an optional minus sign, then the digits of its magnitude. */
  function Decimal(n: int): (s: string)
    ensures |s| >= 1 && ':' !in s
    ensures s[0] == '-' <==> n < 0
  {
    if n < 0 then "-" + NatDecimal(-n) else NatDecimal(n)
  }

  /** The value of a string of decimal digits. */
  function ParseNat(s: string): nat
    requires AllDigits(s)
  {
    if s == [] then 0 else ParseNat(s[..|s| - 1]) * 10 + DigitValue(s[|s| - 1])
  }

  /** A string `%d` can produce: digits, optionally after a minus sign. */
  predicate IsDecimal(s: string) {
    |s| >= 1 && if s[0] == '-' then |s| >= 2 && AllDigits(s[1..]) else AllDigits(s)
  }

  function ParseDecimal(s: string): int
    requires IsDecimal(s)
  {
    if s[0] == '-' then -(ParseNat(s[1..]) as int) else ParseNat(s)
  }

  lemma {:induction false} NatDecimalRoundTrip(n: nat)
    ensures ParseNat(NatDecimal(n)) == n
    decreases n
  {
    if n >= 10 {
      NatDecimalRoundTrip(n / 10);
      var s := NatDecimal(n);
      assert s[..|s| - 1] == NatDecimal(n / 10);
    }
  }

  /** Reading back `%d` gives the code that was written. */
  lemma DecimalRoundTrip(n: int)
    ensures IsDecimal(Decimal(n)) && ParseDecimal(Decimal(n)) == n
  {
    if n < 0 {
      NatDecimalRoundTrip(-n);
      assert Decimal(n)[1..] == NatDecimal(-n);
    } else {
      NatDecimalRoundTrip(n);
    }
  }

  /** The line `write_log_msg` prints: `<label>: <msg>` and a newline. */
  function MsgLine(prefix: string, msg: string): string {
    prefix + ": " + msg + "\n"
  }

  /** The line `write_log_code` prints: `<label>: <code>: <msg>` and a newline. */
  function CodeLine(prefix: string, code: i32, msg: string): string {
    prefix + ": " + Decimal(code as int) + ": " + msg + "\n"
  }

  /** The position of the first `c` in `s`, or `|s|` when there is none. */
  function IndexOf(s: string, c: char): (i: nat)
    ensures i <= |s|
    ensures i < |s| ==> s[i] == c
    ensures forall j :: 0 <= j < i ==> s[j] != c
  {
    if s == [] || s[0] == c then 0 else 1 + IndexOf(s[1..], c)
  }

  lemma FirstSeparator(head: string, tail: string)
    requires ':' !in head
    ensures IndexOf(head + ": " + tail, ':') == |head|
  {
    var s := head + ": " + tail;
    assert s[|head|] == ':';
    assert forall j :: 0 <= j < |head| ==> s[j] == head[j];
  }

  /** Splits `<label>: <msg>\n` at its first colon. */
  function ParseMsgLine(line: string): Option<(string, string)> {
    if |line| == 0 || line[|line| - 1] != '\n' then None
    else
      var i := IndexOf(line, ':');
      if i + 2 < |line| && line[i + 1] == ' ' then Some((line[..i], line[i + 2..|line| - 1]))
      else None
  }

  /** Splits `<label>: <code>: <msg>\n` at its first two colons. */
  function ParseCodeLine(line: string): Option<(string, int, string)> {
    match ParseMsgLine(line)
    case None => None
    case Some((prefix, rest)) =>
      var j := IndexOf(rest, ':');
      if j + 1 < |rest| && rest[j + 1] == ' ' && IsDecimal(rest[..j])
      then Some((prefix, ParseDecimal(rest[..j]), rest[j + 2..]))
      else None
  }

  /** A plain line reads back as the prefix and message it was made of. */
  lemma MsgLineRoundTrip(prefix: string, msg: string)
    requires ':' !in prefix
    ensures ParseMsgLine(MsgLine(prefix, msg)) == Some((prefix, msg))
  {
    var line := MsgLine(prefix, msg);
    FirstSeparator(prefix, msg + "\n");
    assert line == prefix + ": " + (msg + "\n");
    assert line[..|prefix|] == prefix;
    assert line[|prefix| + 2..|line| - 1] == msg;
  }

  /** A code line reads back as its prefix, its code and its message, whatever the message holds. */
  lemma CodeLineRoundTrip(prefix: string, code: i32, msg: string)
    requires ':' !in prefix
    ensures ParseCodeLine(CodeLine(prefix, code, msg)) == Some((prefix, code as int, msg))
  {
    var d := Decimal(code as int);
    var rest := d + ": " + msg;
    assert CodeLine(prefix, code, msg) == MsgLine(prefix, rest);
    MsgLineRoundTrip(prefix, rest);
    FirstSeparator(d, msg);
    assert rest[..|d|] == d;
    assert rest[|d| + 2..] == msg;
    DecimalRoundTrip(code as int);
  }

  /** What `%s` reads from a `char *`: the characters before the first NUL. */
  function CString(s: seq<char>): (r: seq<char>)
    ensures r <= s && '\0' !in r
    ensures |r| < |s| ==> s[|r|] == '\0'
  {
    if s == [] || s[0] == '\0' then [] else [s[0]] + CString(s[1..])
  }

  /** A terminator hides everything after it. */
  lemma {:induction false} CStringTerminated(t: seq<char>, rest: seq<char>)
    ensures CString(t + ['\0'] + rest) == CString(t)
  {
    if t != [] && t[0] != '\0' {
      CStringTerminated(t[1..], rest);
      assert (t + ['\0'] + rest)[1..] == t[1..] + ['\0'] + rest;
    }
  }

  /** Text without NUL characters is read back whole. */
  lemma CStringPlain(t: seq<char>)
    requires '\0' !in t
    ensures CString(t) == t
  {
  }
}
