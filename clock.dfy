/**
 * The two timestamp formats built from a JavaScript `Date`'s local fields:
 * the zero-padded `dd/mm/yyyy hh:mm:ss` of the Service screens and the
 * unpadded `d/m/yyyy, h:m:s` of the payment row. The locale-formatted date
 * strings (`toLocaleString`) are not built here; the screens take them as
 * inputs.
 */
module Clock {
  import opened Wrappers
  import opened Text

  /** The local fields of a `Date`: `getMonth()` is 0-based. */
  datatype Instant = Instant(year: int, month: int, day: int, hour: int, minute: int, second: int)
  {
    /** The ranges `Date` guarantees for its fields. */
    predicate Valid()
    {
      0 <= month < 12 && 1 <= day <= 31 && 0 <= hour < 24 && 0 <= minute < 60 && 0 <= second < 60
    }
  }

  /** `n.toString().padStart(2, "0")` for a field below 100: tens digit, units digit. */
  function Pad2(n: nat): (s: string)
    requires n < 100
    ensures ReadsAs(s, n)
  {
    [DigitChar(n / 10), DigitChar(n % 10)]
  }

  /** Pad2 is `padStart(2, "0")` applied to `String(n)`. */
  lemma Pad2IsPadStart(n: nat)
    requires n < 100
    ensures Pad2(n) == PadStart(NatText(n), 2, '0')
  {
    var t := NatText(n);
    if n >= 10 {
      assert NatText(n) == NatText(n / 10) + [DigitChar(n % 10)];
    }
  }

  /** `s` is two decimal digits whose value is `n`. */
  predicate ReadsAs(s: string, n: int)
  {
    |s| == 2 && IsDigit(s[0]) && IsDigit(s[1]) && (s[0] as int - '0' as int) * 10 + (s[1] as int - '0' as int) == n
  }

  /** A padded two-digit field and a separator in front of `rest`. */
  function Lead(a: nat, sep: char, rest: string): (s: string)
    requires a < 100
    ensures |s| == 3 + |rest| && s[2] == sep
    ensures ReadsAs(s[..2], a) && s[3..] == rest
  {
    var pa := Pad2(a);
    var s := pa + [sep] + rest;
    assert s[..2] == pa;
    s
  }

  /** Two padded fields, each followed by the separator, in front of `rest`. */
  lemma LeadTwice(a: nat, b: nat, sep: char, rest: string)
    requires a < 100 && b < 100
    ensures var s := Lead(a, sep, Lead(b, sep, rest));
      |s| == 6 + |rest| && s[2] == sep && s[5] == sep
      && ReadsAs(s[..2], a) && ReadsAs(s[3..5], b) && s[6..] == rest
  {
    var tail := Lead(b, sep, rest);
    var s := Lead(a, sep, tail);
    assert s[3..5] == tail[..2];
    assert s[6..] == tail[3..];
  }

  /** `dd/mm/yyyy`. */
  function DateText(t: Instant): (s: string)
    requires t.Valid()
    ensures |s| == 6 + |IntText(t.year)| && s[2] == '/' && s[5] == '/'
    ensures ReadsAs(s[..2], t.day) && ReadsAs(s[3..5], t.month + 1)
    ensures s[6..] == IntText(t.year)
  {
    LeadTwice(t.day, t.month + 1, '/', IntText(t.year));
    Lead(t.day, '/', Lead(t.month + 1, '/', IntText(t.year)))
  }

  /** `hh:mm:ss`. */
  function TimeText(t: Instant): (s: string)
    requires t.Valid()
    ensures |s| == 8 && s[2] == ':' && s[5] == ':'
    ensures ReadsAs(s[..2], t.hour) && ReadsAs(s[3..5], t.minute) && ReadsAs(s[6..], t.second)
  {
    LeadTwice(t.hour, t.minute, ':', Pad2(t.second));
    Lead(t.hour, ':', Lead(t.minute, ':', Pad2(t.second)))
  }

  /**
   * `dd/mm/yyyy hh:mm:ss`: the date, one space, the time; with the
   * ensures of DateText and TimeText each two-digit field reads back as the
   * value it came from (the month as `getMonth() + 1`).
   */
  function PaddedTimestamp(t: Instant): (s: string)
    requires t.Valid()
    ensures |s| == |DateText(t)| + 9
    ensures s[..|DateText(t)|] == DateText(t)
    ensures s[|DateText(t)|] == ' '
    ensures s[|DateText(t)| + 1..] == TimeText(t)
  {
    var d, tm := DateText(t), TimeText(t);
    var s := d + [' '] + tm;
    assert s[..|d|] == d;
    assert s[|d| + 1..] == tm;
    s
  }

  /** `${d}/${m + 1}/${y}, ${h}:${min}:${s}` without padding. */
  function PlainTimestamp(t: Instant): (s: string)
    requires t.Valid()
    ensures |s| > |NatText(t.day)| && s[..|NatText(t.day)|] == NatText(t.day) && s[|NatText(t.day)|] == '/'
  {
    var d := NatText(t.day);
    var rest := "/" + NatText(t.month + 1) + "/" + IntText(t.year) + ", "
      + NatText(t.hour) + ":" + NatText(t.minute) + ":" + NatText(t.second);
    var s := d + rest;
    assert s[..|d|] == d;
    s
  }

  /** `parseInt` of the unpadded timestamp reads back the day. */
  lemma PlainTimestampDay(t: Instant)
    requires t.Valid()
    ensures ParseInt(PlainTimestamp(t)) == Some(t.day)
  {
    var s := PlainTimestamp(t);
    var d := NatText(t.day);
    assert s == d + s[|d|..];
    ParseIntLeadingDigits(d, s[|d|..]);
  }
}
