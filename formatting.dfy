/** How the log controller renders text: the "hh:mm:ss" time stamp, the
    "<time> - <label> - <message>" line of manageMessage
    (controller/logcontroller.cpp:173-174), and the decimal rendering of
    an integer that QString::arg applies to a source line number. */
module Formatting {

  import opened Wrappers
  import opened Levels

  type Hour = h: nat | h < 24
  type Minute = m: nat | m < 60
  type Second = s: nat | s < 60

  /** A wall-clock time of day at second resolution, as QTime holds it. */
  datatype TimeOfDay = TimeOfDay(hour: Hour, minute: Minute, second: Second)

  predicate IsDigit(c: char) {
    '0' <= c <= '9'
  }

  function DigitChar(d: nat): (c: char)
    requires d < 10
    ensures IsDigit(c) && DigitValue(c) == d
  {
    (('0' as int) + d) as char
  }

  function DigitValue(c: char): (d: int) {
    c as int - '0' as int
  }

  /** A number below 100 with a leading zero, as the "hh", "mm" and "ss"
      fields of a QTime format print it. */
  function TwoDigits(n: nat): (s: string)
    requires n < 100
    ensures |s| == 2 && IsDigit(s[0]) && IsDigit(s[1])
    ensures DigitValue(s[0]) * 10 + DigitValue(s[1]) == n
  {
    [DigitChar(n / 10), DigitChar(n % 10)]
  }

  /** The time rendered with the format "hh:mm:ss". */
  function FormatTime(t: TimeOfDay): (s: string)
    ensures |s| == 8 && s[2] == ':' && s[5] == ':'
  {
    TwoDigits(t.hour) + ":" + TwoDigits(t.minute) + ":" + TwoDigits(t.second)
  }

  /** The value of two decimal digits, if both are digits. */
  function ParseTwoDigits(a: char, b: char): (r: Option<nat>)
    ensures r.Some? ==> r.value < 100
  {
    if IsDigit(a) && IsDigit(b) then Some(DigitValue(a) * 10 + DigitValue(b)) else None
  }

  /** Reads an "hh:mm:ss" stamp back; None for anything else. */
  function ParseTime(s: string): (r: Option<TimeOfDay>)
  {
    if |s| != 8 || s[2] != ':' || s[5] != ':' then None
    else
      match (ParseTwoDigits(s[0], s[1]), ParseTwoDigits(s[3], s[4]), ParseTwoDigits(s[6], s[7]))
      case (Some(h), Some(m), Some(sec)) =>
        if h < 24 && m < 60 && sec < 60 then Some(TimeOfDay(h, m, sec)) else None
      case _ => None
  }

  /** The time stamp loses nothing: it reads back as the same time. */
  lemma TimeRoundTrip(t: TimeOfDay)
    ensures ParseTime(FormatTime(t)) == Some(t)
  {
  }

  /** The separator QString "%1 - %2 - %3" puts between the three parts. */
  const Separator: string := " - "

  /** One emitted log line: time stamp, label and message, joined by the
      separator; the message is not escaped. */
  function FormatLine(time: TimeOfDay, level: LogLevel, message: string): (line: string)
    ensures |line| == 8 + |Separator| + |TypeToText(level)| + |Separator| + |message|
    ensures line[..8] == FormatTime(time)
    ensures line[|line| - |message|..] == message
  {
    FormatTime(time) + Separator + TypeToText(level) + Separator + message
  }

  /** The parts a formatted line is made of. */
  datatype LogEntry = LogEntry(time: TimeOfDay, level: LogLevel, message: string)

  /** Whether a separator starts at index j of s. */
  predicate SeparatorAt(s: string, j: nat) {
    j + |Separator| <= |s| && s[j..j + |Separator|] == Separator
  }

  /** The index of the first separator in s, if there is one. */
  function FindSeparator(s: string): (r: Option<nat>)
    ensures r.Some? ==> SeparatorAt(s, r.value)
    ensures r.Some? ==> forall j :: 0 <= j < r.value ==> !SeparatorAt(s, j)
    ensures r.None? ==> forall j :: 0 <= j <= |s| ==> !SeparatorAt(s, j)
    decreases |s|
  {
    if |s| < |Separator| then None
    else if s[..|Separator|] == Separator then Some(0)
    else
      var r := FindSeparator(s[1..]);
      assert forall j :: 1 <= j <= |s| ==> SeparatorAt(s, j) == SeparatorAt(s[1..], j - 1);
      match r
      case Some(k) => Some(k + 1)
      case None => None
  }

  /** Splits a line at its first two separators: the first part must be a
      time stamp and the second a label; the rest, separators included, is
      the message. */
  function ParseLine(line: string): (r: Option<LogEntry>)
  {
    if |line| < 8 + |Separator| || line[8..8 + |Separator|] != Separator then None
    else
      var rest := line[8 + |Separator|..];
      match (ParseTime(line[..8]), FindSeparator(rest))
      case (Some(t), Some(k)) =>
        (match LevelOfText(rest[..k])
         case Some(level) => Some(LogEntry(t, level, rest[k + |Separator|..]))
         case None => None)
      case _ => None
  }

  /** A separator is found right after a word that has no space in it. */
  lemma {:induction false} SeparatorAfterWord(word: string, tail: string)
    requires ' ' !in word
    ensures FindSeparator(word + Separator + tail) == Some(|word|)
  {
    var s := word + Separator + tail;
    if word != [] {
      assert s[..|Separator|] != Separator by { assert s[0] == word[0]; }
      assert s[1..] == word[1..] + Separator + tail;
      SeparatorAfterWord(word[1..], tail);
    }
  }

  /** A formatted line reads back as exactly the time, level and message it
      was made from, whatever the message holds: the middle part is the
      level's label and the message is everything after the second
      separator. */
  lemma LineRoundTrip(time: TimeOfDay, level: LogLevel, message: string)
    ensures ParseLine(FormatLine(time, level, message)) == Some(LogEntry(time, level, message))
  {
    var line := FormatLine(time, level, message);
    var name := TypeToText(level);
    var rest := line[8 + |Separator|..];
    assert line[8..8 + |Separator|] == Separator;
    assert rest == name + Separator + message;
    SeparatorAfterWord(name, message);
    assert rest[..|name|] == name;
    assert rest[|name| + |Separator|..] == message;
    TimeRoundTrip(time);
    LabelRoundTrip(level, name);
  }

  /** Decimal digits of a natural number, most significant first. */
  function NatToText(n: nat): (s: string)
    ensures |s| > 0 && forall i :: 0 <= i < |s| ==> IsDigit(s[i])
    ensures s[0] == '0' <==> n == 0
    ensures |s| > 1 ==> s[0] != '0'
  {
    if n < 10 then [DigitChar(n)] else NatToText(n / 10) + [DigitChar(n % 10)]
  }

  /** An integer as QString::arg renders it: a minus sign for negative numbers. */
  function IntToText(i: int): (s: string)
    ensures |s| > 0
    ensures i < 0 <==> s[0] == '-'
    ensures forall k :: (if i < 0 then 1 else 0) <= k < |s| ==> IsDigit(s[k])
    ensures i < 0 ==> |s| > 1 && s[1] != '0'
    ensures i >= 0 && |s| > 1 ==> s[0] != '0'
  {
    if i < 0 then "-" + NatToText(-i) else NatToText(i)
  }

  /** The number a string of decimal digits denotes. */
  function DecimalValue(s: string): (value: int)
  {
    if s == [] then 0 else DecimalValue(s[..|s| - 1]) * 10 + DigitValue(s[|s| - 1])
  }

  /** The digits of n denote n. */
  lemma {:induction false} NatToTextValue(n: nat)
    ensures DecimalValue(NatToText(n)) == n
  {
    var s := NatToText(n);
    if n >= 10 {
      NatToTextValue(n / 10);
      assert s[..|s| - 1] == NatToText(n / 10);
    } else {
      assert s[..|s| - 1] == [];
    }
  }

  /** The rendering of an integer denotes that integer. */
  lemma IntToTextValue(i: int)
    ensures var s := IntToText(i);
            if i < 0 then -DecimalValue(s[1..]) == i else DecimalValue(s) == i
  {
    if i < 0 {
      assert IntToText(i)[1..] == NatToText(-i);
      NatToTextValue(-i);
    } else {
      NatToTextValue(i);
    }
  }

}
