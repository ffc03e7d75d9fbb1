/** The session singleton and the text the logger writes (src/logger.ts).
    The uuid that `uuidv4()` would draw and the clock readings are
    parameters; console and file output are not modelled. */
module Logger {
  import opened Wrappers
  import opened Text
  import opened Sequences

  // ---------------------------------------------------------------------
  // ResearchSession and getInstance
  // ---------------------------------------------------------------------

  /** A research session: its uuid is fixed by the constructor and never
      reassigned (`readonly`). */
  class ResearchSession {
    const uuid: string

    /** `new ResearchSession()`, with `drawn` the value `uuidv4()` returns. */
    constructor (drawn: string)
      ensures uuid == drawn
    {
      uuid := drawn;
    }
  }

  /** The class's static state: the field `ResearchSession.instance`, unset
      until the first `getInstance`. */
  class SessionRegistry {
    var instance: ResearchSession?

    constructor ()
      ensures instance == null
    {
      instance := null;
    }

    /** `ResearchSession.getInstance()`: constructs a session, drawing
        `drawn` as its uuid, only when none is stored; otherwise returns the
        stored one. */
    method GetInstance(drawn: string) returns (s: ResearchSession)
      modifies this
      ensures old(instance) != null ==> s == old(instance)
      ensures old(instance) == null ==> fresh(s) && s.uuid == drawn
      ensures instance == s
    {
      if instance == null {
        instance := new ResearchSession(drawn);
      }
      s := instance;
    }
  }

  /** Any two calls return the same session, hence the same uuid, whatever
      uuids the second call would have drawn. */
  method GetInstanceTwice(registry: SessionRegistry, drawn1: string, drawn2: string)
    returns (a: ResearchSession, b: ResearchSession)
    modifies registry
    ensures a == b && a.uuid == b.uuid
    ensures old(registry.instance) != null ==> a == old(registry.instance)
    ensures old(registry.instance) == null ==> a.uuid == drawn1
    ensures registry.instance == a
  {
    a := registry.GetInstance(drawn1);
    b := registry.GetInstance(drawn2);
  }

  // ---------------------------------------------------------------------
  // getLogFileName
  // ---------------------------------------------------------------------

  /** `String(n).padStart(2, '0')`. */
  function Pad2(n: int): string {
    PadStart2(IntToString(n))
  }

  /** The date part of the log file name: year, then month (`getMonth() + 1`)
      and day of month, each padded to two digits. */
  function DateStamp(year: int, month0: int, day: int): string {
    IntToString(year) + Pad2(month0 + 1) + Pad2(day)
  }

  /** `getLogFileName()`, for the session uuid and the date read from the
      clock. */
  function LogFileName(uuid: string, year: int, month0: int, day: int): (name: string)
    ensures StartsWith(name, "research-" + uuid + "-") && EndsWith(name, ".log")
  {
    "research-" + uuid + "-" + DateStamp(year, month0, day) + ".log"
  }

  function Pow10(k: nat): nat {
    if k == 0 then 1 else 10 * Pow10(k - 1)
  }

  /** The concatenation of digit strings is a digit string. */
  lemma AppendDigits(a: string, b: string)
    requires forall i :: 0 <= i < |a| ==> IsDigit(a[i])
    requires forall i :: 0 <= i < |b| ==> IsDigit(b[i])
    ensures forall i :: 0 <= i < |a + b| ==> IsDigit((a + b)[i])
  {
    forall i | 0 <= i < |a + b| ensures IsDigit((a + b)[i]) {
      if i >= |a| { assert (a + b)[i] == b[i - |a|]; }
    }
  }

  lemma ShiftDigit(va: int, p: int, vb: int, d: int)
    ensures (va * p + vb) * 10 + d == va * (p * 10) + (vb * 10 + d)
  {
  }

  /** The value of concatenated digit strings. */
  lemma {:induction false} DigitsValueAppend(a: string, b: string)
    requires forall i :: 0 <= i < |a| ==> IsDigit(a[i])
    requires forall i :: 0 <= i < |b| ==> IsDigit(b[i])
    ensures forall i :: 0 <= i < |a + b| ==> IsDigit((a + b)[i])
    ensures DigitsValue(a + b) == DigitsValue(a) * Pow10(|b|) + DigitsValue(b)
  {
    AppendDigits(a, b);
    if |b| > 0 {
      var b' := b[..|b| - 1];
      DigitsValueAppend(a, b');
      assert (a + b)[..|a + b| - 1] == a + b';
      var d := b[|b| - 1] as int - '0' as int;
      var va, p, vb' := DigitsValue(a), Pow10(|b'|), DigitsValue(b');
      assert DigitsValue(a + b) == (va * p + vb') * 10 + d;
      assert DigitsValue(b) == vb' * 10 + d;
      assert Pow10(|b|) == p * 10;
      ShiftDigit(va, p, vb', d);
    } else {
      assert a + b == a;
    }
  }

  /** For 1..99 the padded form is exactly two digits that read back as the
      number: months 1..12 give "01".."12", days 1..31 "01".."31". */
  lemma Pad2TwoDigits(n: int)
    requires 1 <= n <= 99
    ensures |Pad2(n)| == 2
    ensures forall i :: 0 <= i < 2 ==> IsDigit(Pad2(n)[i])
    ensures DigitsValue(Pad2(n)) == n
  {
    var s := NatToString(n);
    NatToStringLength(n);
    NatToStringValue(n);
    if n < 10 {
      assert Pad2(n) == "0" + s;
      DigitsValueAppend("0", s);
    }
  }

  /** Three digit strings reading as a year, a month and a day, the last
      two of length two, read as one number. */
  lemma DigitsOfDate(y: string, m: string, d: string, year: int, month: int, day: int)
    requires forall i :: 0 <= i < |y| ==> IsDigit(y[i])
    requires forall i :: 0 <= i < |m| ==> IsDigit(m[i])
    requires forall i :: 0 <= i < |d| ==> IsDigit(d[i])
    requires |m| == 2 && |d| == 2
    requires DigitsValue(y) == year && DigitsValue(m) == month && DigitsValue(d) == day
    ensures forall i :: 0 <= i < |y + m + d| ==> IsDigit((y + m + d)[i])
    ensures DigitsValue(y + m + d) == year * 10000 + month * 100 + day
  {
    DigitsValueAppend(y, m);
    DigitsValueAppend(y + m, d);
    assert Pow10(2) == 100;
  }

  /** For a year from 0 on, the date stamp is the decimal number
      year * 10000 + month * 100 + day, with four digits after the year. */
  lemma DateStampValue(year: int, month0: int, day: int)
    requires year >= 0 && 0 <= month0 <= 11 && 1 <= day <= 31
    ensures var stamp := DateStamp(year, month0, day);
      && |stamp| == |NatToString(year)| + 4
      && (forall i :: 0 <= i < |stamp| ==> IsDigit(stamp[i]))
      && DigitsValue(stamp) == year * 10000 + (month0 + 1) * 100 + day
  {
    var y, m, d := NatToString(year), Pad2(month0 + 1), Pad2(day);
    assert DateStamp(year, month0, day) == y + m + d;
    Pad2TwoDigits(month0 + 1);
    Pad2TwoDigits(day);
    NatToStringValue(year);
    DigitsOfDate(y, m, d, year, month0 + 1, day);
  }

  /** One session's log files on two dates have different names. */
  lemma LogFileNameDeterminesDate(uuid: string, y1: int, m1: int, d1: int, y2: int, m2: int, d2: int)
    requires y1 >= 0 && 0 <= m1 <= 11 && 1 <= d1 <= 31
    requires y2 >= 0 && 0 <= m2 <= 11 && 1 <= d2 <= 31
    requires LogFileName(uuid, y1, m1, d1) == LogFileName(uuid, y2, m2, d2)
    ensures y1 == y2 && m1 == m2 && d1 == d2
  {
    var prefix := "research-" + uuid + "-";
    var s1, s2 := DateStamp(y1, m1, d1), DateStamp(y2, m2, d2);
    var n1, n2 := LogFileName(uuid, y1, m1, d1), LogFileName(uuid, y2, m2, d2);
    assert s1 == n1[|prefix|..|n1| - 4];
    assert s2 == n2[|prefix|..|n2| - 4];
    DateStampValue(y1, m1, d1);
    DateStampValue(y2, m2, d2);
    var r1, r2 := (m1 + 1) * 100 + d1, (m2 + 1) * 100 + d2;
    assert y1 * 10000 + r1 == y2 * 10000 + r2;
    assert 0 <= r1 < 10000 && 0 <= r2 < 10000;
  }

  // ---------------------------------------------------------------------
  // logger.log and logger.error
  // ---------------------------------------------------------------------

  /** The `[timestamp][uuid] ` prefix of every log line. */
  function LinePrefix(timestamp: string, uuid: string): string {
    "[" + timestamp + "][" + uuid + "] "
  }

  /** The line `logger.log` writes. `data` is None when the data argument
      is falsy, and otherwise holds its JSON text. */
  function LogLine(timestamp: string, uuid: string, message: string, data: Option<string>): string {
    LinePrefix(timestamp, uuid) + message
      + (if data.Some? then "\nData: " + data.value else "") + "\n"
  }

  /** The line `logger.error` writes. */
  function ErrorLine(timestamp: string, uuid: string, message: string, error: Option<string>): string {
    LinePrefix(timestamp, uuid) + "ERROR: " + message
      + (if error.Some? then "\nError: " + error.value else "") + "\n"
  }

  /** Splits `[inside]after` at the first `]`. */
  function Bracketed(s: string): Option<(string, string)> {
    if |s| == 0 || s[0] != '[' || ']' !in s[1..] then None
    else
      var i := FirstIndex(s[1..], ']');
      Some((s[1..][..i], s[1..][i + 1..]))
  }

  /** Reads the timestamp, the uuid and the rest back from a line. */
  function ParseLine(line: string): Option<(string, string, string)> {
    match Bracketed(line)
    case None => None
    case Some((timestamp, after)) =>
      match Bracketed(after)
      case None => None
      case Some((uuid, tail)) =>
        if StartsWith(tail, " ") then Some((timestamp, uuid, tail[1..])) else None
  }

  /** A bracketed text without `]` is read back, with what follows it. */
  lemma BracketedOf(inside: string, after: string)
    requires ']' !in inside
    ensures Bracketed("[" + inside + "]" + after) == Some((inside, after))
  {
    var s := "[" + inside + "]" + after;
    var t := s[1..];
    assert t == inside + "]" + after;
    assert t[..|inside|] == inside;
    assert t[|inside|] == ']';
    var k := FirstIndex(t, ']');
    assert k == |inside|;
    assert t[|inside| + 1..] == after;
  }

  /** A line is read back into its timestamp, uuid and body, provided
      neither the timestamp nor the uuid contains a `]`. */
  lemma ParsePrefixed(timestamp: string, uuid: string, body: string)
    requires ']' !in timestamp && ']' !in uuid
    ensures ParseLine(LinePrefix(timestamp, uuid) + body) == Some((timestamp, uuid, body))
  {
    var after := "[" + uuid + "]" + (" " + body);
    assert LinePrefix(timestamp, uuid) + body == "[" + timestamp + "]" + after;
    BracketedOf(timestamp, after);
    BracketedOf(uuid, " " + body);
    assert (" " + body)[1..] == body;
  }

  /** A log line carries the timestamp, the uuid, the message, the data part
      exactly when the data is truthy, and a final line break. */
  lemma LogLineParts(timestamp: string, uuid: string, message: string, data: Option<string>)
    requires ']' !in timestamp && ']' !in uuid
    ensures ParseLine(LogLine(timestamp, uuid, message, data))
      == Some((timestamp, uuid, message + (if data.Some? then "\nData: " + data.value else "") + "\n"))
  {
    var body := message + (if data.Some? then "\nData: " + data.value else "") + "\n";
    assert LogLine(timestamp, uuid, message, data) == LinePrefix(timestamp, uuid) + body;
    ParsePrefixed(timestamp, uuid, body);
  }

  /** An error line is a log line whose message starts with "ERROR: ", with
      "\nError: " in place of "\nData: ". */
  lemma ErrorLineParts(timestamp: string, uuid: string, message: string, error: Option<string>)
    requires ']' !in timestamp && ']' !in uuid
    ensures ParseLine(ErrorLine(timestamp, uuid, message, error))
      == Some((timestamp, uuid, "ERROR: " + message + (if error.Some? then "\nError: " + error.value else "") + "\n"))
    ensures error.None? ==> ErrorLine(timestamp, uuid, message, error) == LogLine(timestamp, uuid, "ERROR: " + message, None)
  {
    var body := "ERROR: " + message + (if error.Some? then "\nError: " + error.value else "") + "\n";
    assert ErrorLine(timestamp, uuid, message, error) == LinePrefix(timestamp, uuid) + body;
    ParsePrefixed(timestamp, uuid, body);
    if error.None? {
      AppendAssoc(LinePrefix(timestamp, uuid), "ERROR: ", message, "");
    }
  }

  /** `logger.log(message, data)`: the line, and the file it is appended
      to. The session is fetched twice (once for the line, once inside
      `getLogFileName`), and the clock is read twice, once for the
      timestamp and once for the file's date. */
  method Log(registry: SessionRegistry, drawn: string, timestamp: string,
             year: int, month0: int, day: int, message: string, data: Option<string>)
    returns (line: string, file: string)
    modifies registry
    ensures registry.instance != null
    ensures old(registry.instance) != null ==> registry.instance == old(registry.instance)
    ensures line == LogLine(timestamp, registry.instance.uuid, message, data)
    ensures file == LogFileName(registry.instance.uuid, year, month0, day)
  {
    var session := registry.GetInstance(drawn);
    line := LogLine(timestamp, session.uuid, message, data);
    var again := registry.GetInstance(drawn);
    file := LogFileName(again.uuid, year, month0, day);
  }

  /** `logger.error(message, error)`. */
  method Error(registry: SessionRegistry, drawn: string, timestamp: string,
               year: int, month0: int, day: int, message: string, error: Option<string>)
    returns (line: string, file: string)
    modifies registry
    ensures registry.instance != null
    ensures old(registry.instance) != null ==> registry.instance == old(registry.instance)
    ensures line == ErrorLine(timestamp, registry.instance.uuid, message, error)
    ensures file == LogFileName(registry.instance.uuid, year, month0, day)
  {
    var session := registry.GetInstance(drawn);
    line := ErrorLine(timestamp, session.uuid, message, error);
    var again := registry.GetInstance(drawn);
    file := LogFileName(again.uuid, year, month0, day);
  }
}
