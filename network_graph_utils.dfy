/**
 * Helpers of the call-network view (`utils/network-graph-utils.ts`): phone
 * number cleaning, recognising an SMS record from its duration cell, reading
 * a call duration, and the edge colour and node size scales.
 */
module NetworkGraphUtils {
  import opened Common
  import opened Text

  predicate IsPhoneChar(c: char) { IsDigit(c) || c == '+' }

  predicate AllPhoneChars(s: string) { forall i :: 0 <= i < |s| ==> IsPhoneChar(s[i]) }

  /** Deleting every character that is neither a digit nor `+`. */
  function KeepPhoneChars(s: string): (r: string)
    ensures |r| <= |s| && AllPhoneChars(r)
    ensures AllPhoneChars(s) ==> r == s
    decreases |s|
  {
    if s == [] then []
    else
      assert s == [s[0]] + s[1..];
      (if IsPhoneChar(s[0]) then [s[0]] else []) + KeepPhoneChars(s[1..])
  }

  /** Every digit and plus sign of the input survives, as many times as it occurs. */
  lemma {:induction false} KeepPhoneCharsCounts(s: string)
    ensures forall c :: IsPhoneChar(c) ==> multiset(KeepPhoneChars(s))[c] == multiset(s)[c]
    decreases |s|
  {
    if s != [] {
      KeepPhoneCharsCounts(s[1..]);
      assert s == [s[0]] + s[1..];
    }
  }

  /** `cleanPhoneNumber`: the digits and plus signs of `phone`, or nothing when fewer than seven remain. */
  function CleanPhoneNumber(phone: string): (r: Option<string>)
    ensures r.None? <==> |KeepPhoneChars(phone)| < 7
    ensures r.Some? ==> |r.value| >= 7 && AllPhoneChars(r.value) && r.value == KeepPhoneChars(phone)
  {
    if phone == "" then None
    else
      var cleaned := KeepPhoneChars(phone);
      if |cleaned| < 7 then None else Some(cleaned)
  }

  /** Cleaning a cleaned number gives it back unchanged. */
  lemma CleanPhoneNumberIdempotent(phone: string)
    requires CleanPhoneNumber(phone).Some?
    ensures CleanPhoneNumber(CleanPhoneNumber(phone).value) == CleanPhoneNumber(phone)
  {
  }

  /** Formatting characters do not matter: only the digits and plus signs, in order, are kept. */
  lemma CleanPhoneNumberIgnoresSeparators(a: string, sep: char, b: string)
    requires !IsPhoneChar(sep)
    ensures CleanPhoneNumber(a + [sep] + b) == CleanPhoneNumber(a + b)
  {
    var t := [sep] + b;
    assert a + [sep] + b == a + t;
    KeepAppend(a, t);
    assert t[0] == sep && t[1..] == b;
    assert KeepPhoneChars(t) == KeepPhoneChars(b);
    KeepAppend(a, b);
    assert KeepPhoneChars(a + [sep] + b) == KeepPhoneChars(a + b);
  }

  lemma {:induction false} KeepAppend(a: string, b: string)
    ensures KeepPhoneChars(a + b) == KeepPhoneChars(a) + KeepPhoneChars(b)
    decreases |a|
  {
    if a != [] {
      assert (a + b)[0] == a[0] && (a + b)[1..] == a[1..] + b;
      KeepAppend(a[1..], b);
      var h := if IsPhoneChar(a[0]) then [a[0]] else [];
      calc {
        KeepPhoneChars(a + b);
        h + KeepPhoneChars(a[1..] + b);
        h + (KeepPhoneChars(a[1..]) + KeepPhoneChars(b));
        (h + KeepPhoneChars(a[1..])) + KeepPhoneChars(b);
        KeepPhoneChars(a) + KeepPhoneChars(b);
      }
    } else {
      assert a + b == b;
    }
  }

  /** `^[A-F0-9]{6,}$` under the `i` flag: a hexadecimal identifier of at least six digits. */
  predicate IsHexRun(t: string) {
    |t| >= 6 && forall i :: 0 <= i < |t| ==> IsHexDigit(t[i])
  }

  /** `isSMSData`: the value mentions SMS in any case, or is (after trimming) a hexadecimal message identifier. */
  predicate IsSmsData(value: string) {
    value != "" && (Contains(ToUpper(value), "SMS") || IsHexRun(Trim(value)))
  }

  lemma {:induction false} ToUpperAppend(a: string, b: string)
    ensures ToUpper(a + b) == ToUpper(a) + ToUpper(b)
    decreases |a|
  {
    if a != [] {
      assert (a + b)[0] == a[0] && (a + b)[1..] == a[1..] + b;
      ToUpperAppend(a[1..], b);
      calc {
        ToUpper(a + b);
        UpperChars(a[0]) + ToUpper(a[1..] + b);
        UpperChars(a[0]) + (ToUpper(a[1..]) + ToUpper(b));
        (UpperChars(a[0]) + ToUpper(a[1..])) + ToUpper(b);
        ToUpper(a) + ToUpper(b);
      }
    } else {
      assert a + b == b;
    }
  }

  /** Any text containing `sms` or `SMS` is an SMS record. */
  lemma SmsMarkerIsSms(p: string, q: string, marker: string)
    requires marker == "SMS" || marker == "sms"
    ensures IsSmsData(p + marker + q)
  {
    var s := p + marker + q;
    ToUpperAppend(p + marker, q);
    ToUpperAppend(p, marker);
    assert ToUpper(marker) == "SMS" by {
      assert ToUpper(marker[2..]) == "S";
      assert ToUpper(marker[1..]) == "MS";
    }
    var u := ToUpper(s);
    assert u == ToUpper(p) + "SMS" + ToUpper(q);
    assert OccursAt(u, "SMS", |ToUpper(p)|) by {
      assert u[|ToUpper(p)|..|ToUpper(p)| + 3] == "SMS";
    }
  }

  /** A number of six digits or more reads as a message identifier, hence as an SMS. */
  lemma LongNumberIsSms(s: string)
    requires |s| >= 6 && forall i :: 0 <= i < |s| ==> IsDigit(s[i])
    ensures IsSmsData(s)
  {
    TrimUntrimmed(s);
    HexRunIsSms(s);
  }

  lemma HexRunIsSms(s: string)
    requires s != "" && IsHexRun(Trim(s))
    ensures IsSmsData(s)
  {
  }

  /** The regular expression `(\d+):(\d+)(?::(\d+))?`: its three groups, the third optional. */
  datatype TimeMatch = TimeMatch(first: string, second: string, third: Option<string>)

  predicate IsDigits(s: string) { |s| > 0 && AllRadixDigits(s, 10) }

  predicate WellFormed(m: TimeMatch) {
    IsDigits(m.first) && IsDigits(m.second) && (m.third.Some? ==> IsDigits(m.third.value))
  }

  /** The match of `(\d+):(\d+)(?::(\d+))?` starting exactly at `i`; every group takes its longest digit run. */
  function TimeMatchAt(s: string, i: nat): (r: Option<TimeMatch>)
    requires i <= |s|
    ensures r.Some? ==> WellFormed(r.value) && i < |s| && IsDigit(s[i])
  {
    var j := DigitRunEnd(s, i, 10);
    if j == i || j + 1 >= |s| || s[j] != ':' || !IsDigit(s[j + 1]) then None
    else
      var k := DigitRunEnd(s, j + 1, 10);
      if k + 1 < |s| && s[k] == ':' && IsDigit(s[k + 1]) then
        var l := DigitRunEnd(s, k + 1, 10);
        Some(TimeMatch(s[i..j], s[j + 1..k], Some(s[k + 1..l])))
      else
        Some(TimeMatch(s[i..j], s[j + 1..k], None))
  }

  /** The leftmost position at or after `i` where the time pattern matches, or -1. */
  function FirstTimeMatch(s: string, i: nat): (p: int)
    requires i <= |s|
    ensures p == -1 || (i <= p < |s| && TimeMatchAt(s, p).Some?)
    ensures forall k :: i <= k <= |s| && (p == -1 || k < p) ==> TimeMatchAt(s, k).None?
    decreases |s| - i
  {
    if i == |s| then -1
    else if TimeMatchAt(s, i).Some? then i
    else FirstTimeMatch(s, i + 1)
  }

  /** The leftmost digit at or after `i`, or -1: where `(\d+)` matches. */
  function FirstDigit(s: string, i: nat): (p: int)
    requires i <= |s|
    ensures p == -1 || (i <= p < |s| && IsDigit(s[p]))
    ensures forall k :: i <= k < |s| && (p == -1 || k < p) ==> !IsDigit(s[k])
    decreases |s| - i
  {
    if i == |s| then -1
    else if IsDigit(s[i]) then i
    else FirstDigit(s, i + 1)
  }

  /** Seconds denoted by a match: `h:m:s` with three groups, `m:s` with two. */
  function TimeSeconds(m: TimeMatch): nat
    requires WellFormed(m)
  {
    match m.third
    case Some(t) => RadixValue(m.first, 10) * 3600 + RadixValue(m.second, 10) * 60 + RadixValue(t, 10)
    case None => RadixValue(m.first, 10) * 60 + RadixValue(m.second, 10)
  }

  datatype DurationInfo = DurationInfo(seconds: nat, isSms: bool)

  /** The seconds `parseDuration` reads from a trimmed cell that is not an SMS: the first time
      pattern, else the first run of digits, else nothing. */
  function ReadSeconds(t: string): (n: nat)
    ensures (forall i :: 0 <= i < |t| ==> !IsDigit(t[i])) ==> n == 0
  {
    var p := FirstTimeMatch(t, 0);
    if p >= 0 then TimeSeconds(TimeMatchAt(t, p).value)
    else
      var q := FirstDigit(t, 0);
      if q >= 0 then RadixValue(t[q..DigitRunEnd(t, q, 10)], 10)
      else 0
  }

  /** `parseDuration` */
  function ParseDuration(duration: Option<string>): (r: DurationInfo)
    ensures r.isSms <==> duration.Some? && duration.value != "" && IsSmsData(Trim(duration.value))
    ensures r.isSms ==> r.seconds == 0
  {
    if duration.None? || duration.value == "" then DurationInfo(0, false)
    else
      var t := Trim(duration.value);
      if IsSmsData(t) then DurationInfo(0, true)
      else DurationInfo(ReadSeconds(t), false)
  }

  /** A cell without any digit lasts zero seconds. */
  lemma NoDigitsNoSeconds(s: string)
    requires forall i :: 0 <= i < |s| ==> !IsDigit(s[i])
    ensures ParseDuration(Some(s)).seconds == 0
  {
    TrimKeeps(s, c => !IsDigit(c));
  }

  /** Characters that upper-casing leaves alone and that can never spell `SMS` or a hex run. */
  predicate IsTimeChar(c: char) { IsDigit(c) || c == ':' }

  lemma {:induction false} ToUpperTimeText(s: string)
    requires forall i :: 0 <= i < |s| ==> IsTimeChar(s[i])
    ensures ToUpper(s) == s
    decreases |s|
  {
    if s != [] {
      ToUpperTimeText(s[1..]);
      assert s == [s[0]] + s[1..];
    }
  }

  /** Digits and colons never spell `SMS`, whatever their case. */
  lemma TimeTextHasNoMarker(s: string)
    requires forall i :: 0 <= i < |s| ==> IsTimeChar(s[i])
    ensures !Contains(ToUpper(s), "SMS")
  {
    ToUpperTimeText(s);
    forall i | 0 <= i ensures !OccursAt(s, "SMS", i) {
      if i + 3 <= |s| { assert s[i..i + 3][0] == s[i]; }
    }
  }

  /** Text made of digits and colons, with a colon somewhere, is never an SMS. */
  lemma TimeTextNotSms(s: string, colon: nat)
    requires forall i :: 0 <= i < |s| ==> IsTimeChar(s[i])
    requires colon < |s| && s[colon] == ':'
    requires IsDigit(s[0]) && IsDigit(s[|s| - 1])
    ensures Trim(s) == s
    ensures !IsSmsData(s)
  {
    TrimUntrimmed(s);
    TimeTextHasNoMarker(s);
    ColonNotHex(s, colon);
    NeitherMarkerNorHex(s);
  }

  /** A colon breaks any hexadecimal run. */
  lemma ColonNotHex(s: string, colon: nat)
    requires colon < |s| && s[colon] == ':'
    ensures !IsHexRun(s)
  {
    assert !IsHexDigit(s[colon]);
  }

  /** Trimmed text with no `SMS` and no hexadecimal run is not an SMS. */
  lemma NeitherMarkerNorHex(s: string)
    requires Trim(s) == s && !Contains(ToUpper(s), "SMS") && !IsHexRun(s)
    ensures !IsSmsData(s)
  {
  }

  lemma DigitsRun(s: string, i: nat, n: nat, d: string)
    requires i + |d| == n <= |s| && s[i..n] == d && IsDigits(d)
    requires n == |s| || !IsDigit(s[n])
    ensures DigitRunEnd(s, i, 10) == n
  {
    DigitRunEndAt(s, i, n, 10);
  }

  /** A trimmed cell that is not an SMS is read by `ReadSeconds`. */
  lemma ParseNonSms(s: string)
    requires s != "" && Trim(s) == s && !IsSmsData(s)
    ensures ParseDuration(Some(s)) == DurationInfo(ReadSeconds(s), false)
  {
  }

  lemma MinutesSecondsText(m: string, sec: string)
    requires IsDigits(m) && IsDigits(sec)
    ensures Trim(m + ":" + sec) == m + ":" + sec && !IsSmsData(m + ":" + sec)
  {
    var s := m + ":" + sec;
    assert s[|m|] == ':';
    assert forall i :: 0 <= i < |s| ==> IsTimeChar(s[i]) by {
      forall i | 0 <= i < |s| ensures IsTimeChar(s[i]) {
        if i < |m| { assert s[i] == m[i]; } else if i > |m| { assert s[i] == sec[i - |m| - 1]; }
      }
    }
    assert s[0] == m[0] && s[|s| - 1] == sec[|sec| - 1];
    TimeTextNotSms(s, |m|);
  }

  lemma MinutesSecondsRead(m: string, sec: string)
    requires IsDigits(m) && IsDigits(sec)
    ensures ReadSeconds(m + ":" + sec) == RadixValue(m, 10) * 60 + RadixValue(sec, 10)
  {
    var s := m + ":" + sec;
    assert s[0..|m|] == m;
    DigitsRun(s, 0, |m|, m);
    assert s[|m| + 1..|s|] == sec;
    DigitsRun(s, |m| + 1, |s|, sec);
    assert TimeMatchAt(s, 0) == Some(TimeMatch(m, sec, None));
  }

  /** `"m:s"` reads as `60 * m + s` seconds. */
  lemma ParseMinutesSeconds(m: string, sec: string)
    requires IsDigits(m) && IsDigits(sec)
    ensures ParseDuration(Some(m + ":" + sec)) == DurationInfo(RadixValue(m, 10) * 60 + RadixValue(sec, 10), false)
  {
    MinutesSecondsText(m, sec);
    MinutesSecondsRead(m, sec);
    ParseNonSms(m + ":" + sec);
  }

  lemma HoursMinutesSecondsText(h: string, m: string, sec: string)
    requires IsDigits(h) && IsDigits(m) && IsDigits(sec)
    ensures var s := h + ":" + m + ":" + sec; Trim(s) == s && !IsSmsData(s)
  {
    var s := h + ":" + m + ":" + sec;
    var a := |h|;
    var b := |h| + 1 + |m|;
    assert s[a] == ':';
    assert forall i :: 0 <= i < |s| ==> IsTimeChar(s[i]) by {
      forall i | 0 <= i < |s| ensures IsTimeChar(s[i]) {
        if i < a { assert s[i] == h[i]; }
        else if a < i < b { assert s[i] == m[i - a - 1]; }
        else if i > b { assert s[i] == sec[i - b - 1]; }
      }
    }
    assert s[0] == h[0] && s[|s| - 1] == sec[|sec| - 1];
    TimeTextNotSms(s, a);
  }

  lemma HoursMinutesSecondsRead(h: string, m: string, sec: string)
    requires IsDigits(h) && IsDigits(m) && IsDigits(sec)
    ensures ReadSeconds(h + ":" + m + ":" + sec) == RadixValue(h, 10) * 3600 + RadixValue(m, 10) * 60 + RadixValue(sec, 10)
  {
    var s := h + ":" + m + ":" + sec;
    HoursMinutesSecondsMatch(h, m, sec);
    assert FirstTimeMatch(s, 0) == 0;
  }

  /** The time pattern matches `"h:m:s"` at its start, with the three groups. */
  lemma HoursMinutesSecondsMatch(h: string, m: string, sec: string)
    requires IsDigits(h) && IsDigits(m) && IsDigits(sec)
    ensures TimeMatchAt(h + ":" + m + ":" + sec, 0) == Some(TimeMatch(h, m, Some(sec)))
  {
    var s := h + ":" + m + ":" + sec;
    var a := |h|;
    var b := |h| + 1 + |m|;
    assert s[a] == ':' && s[b] == ':';
    assert s[0..a] == h;
    DigitsRun(s, 0, a, h);
    assert s[a + 1..b] == m;
    DigitsRun(s, a + 1, b, m);
    assert s[b + 1] == sec[0];
    assert s[b + 1..|s|] == sec;
    DigitsRun(s, b + 1, |s|, sec);
  }

  /** `"h:m:s"` reads as `3600 * h + 60 * m + s` seconds. */
  lemma ParseHoursMinutesSeconds(h: string, m: string, sec: string)
    requires IsDigits(h) && IsDigits(m) && IsDigits(sec)
    ensures ParseDuration(Some(h + ":" + m + ":" + sec))
         == DurationInfo(RadixValue(h, 10) * 3600 + RadixValue(m, 10) * 60 + RadixValue(sec, 10), false)
  {
    HoursMinutesSecondsText(h, m, sec);
    HoursMinutesSecondsRead(h, m, sec);
    ParseNonSms(h + ":" + m + ":" + sec);
  }

  /** A bare number of fewer than six digits is a count of seconds. */
  lemma ParsePlainSeconds(sec: string)
    requires IsDigits(sec) && |sec| < 6
    ensures ParseDuration(Some(sec)) == DurationInfo(RadixValue(sec, 10), false)
  {
    PlainSecondsText(sec);
    PlainSecondsRead(sec);
    ParseNonSms(sec);
  }

  /** Fewer than six digits are neither padded nor an SMS. */
  lemma PlainSecondsText(sec: string)
    requires IsDigits(sec) && |sec| < 6
    ensures Trim(sec) == sec && !IsSmsData(sec)
  {
    TrimUntrimmed(sec);
    TimeTextHasNoMarker(sec);
  }

  /** Without a colon the time pattern never matches, and the digits are read whole. */
  lemma PlainSecondsRead(sec: string)
    requires IsDigits(sec)
    ensures ReadSeconds(sec) == RadixValue(sec, 10)
  {
    forall k | 0 <= k <= |sec| ensures TimeMatchAt(sec, k).None? {
      DigitRunEndAt(sec, k, |sec|, 10);
    }
    DigitsRun(sec, 0, |sec|, sec);
    assert sec[0..|sec|] == sec;
  }

  /** `getEdgeColor`: green, yellow, orange and red as the interaction count grows. */
  const EdgeColors: seq<string> := ["#22c55e", "#eab308", "#f97316", "#ef4444"]

  /** Index in `EdgeColors` of the band `interactions` falls in. */
  function EdgeBand(interactions: int): (b: nat)
    ensures b < 4
    ensures b == 0 <==> interactions <= 2
    ensures b == 3 <==> interactions > 10
  {
    if interactions <= 2 then 0
    else if interactions <= 5 then 1
    else if interactions <= 10 then 2
    else 3
  }

  function EdgeColor(interactions: int): (c: string)
    ensures c in EdgeColors
    ensures c == "#22c55e" <==> interactions <= 2
    ensures c == "#ef4444" <==> interactions > 10
  {
    EdgeColors[EdgeBand(interactions)]
  }

  /** More interactions never give a milder colour. */
  lemma EdgeColorMonotone(a: int, b: int)
    requires a <= b
    ensures EdgeBand(a) <= EdgeBand(b)
  {
  }

  /** `getNodeSize`, given `Math.log(interactions + 1)`: eight pixels per natural-log unit plus eight,
      kept between 12 and 60. */
  function NodeSize(logInteractions: real): (r: real)
    ensures 12.0 <= r <= 60.0
    ensures 12.0 < r < 60.0 ==> r == logInteractions * 8.0 + 8.0
  {
    var raw := logInteractions * 8.0 + 8.0;
    var atLeast := if raw > 12.0 then raw else 12.0;
    if atLeast < 60.0 then atLeast else 60.0
  }

  /** Larger counts never give smaller nodes. */
  lemma NodeSizeMonotone(a: real, b: real)
    requires a <= b
    ensures NodeSize(a) <= NodeSize(b)
  {
  }
}
