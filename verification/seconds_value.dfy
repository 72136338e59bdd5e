/**
 * The UI tests' reading of the player's "Time Elapsed" label:
 * `XCUIElement.secondsValue` keeps the decimal digits and colons of the
 * element's string value, splits it on `:` and, when there are exactly two
 * integer parts, returns `minutes * 60 + seconds`.
 */
module SecondsParsing {
  import opened Wrappers
  import Text

  /** An accessibility value: `value as? String` succeeds only for `StringValue`. */
  datatype ElementValue = StringValue(text: string) | OtherValue

  /** `Int.max` on the 64-bit platforms the tests run on. */
  const IntMax: int := 0x7FFF_FFFF_FFFF_FFFF

  /** `XCUIElement.stringValue`. */
  function StringOf(value: ElementValue): Option<string>
  {
    match value
    case StringValue(text) => Some(text)
    case OtherValue => None
  }

  /** `Character.isDecimalDigit`, for the ASCII digits. */
  predicate IsDecimalDigit(c: char)
  {
    '0' <= c <= '9'
  }

  predicate IsClockCharacter(c: char)
  {
    IsDecimalDigit(c) || c == ':'
  }

  /** `filter { $0.isDecimalDigit || $0 == ":" }`. */
  function KeepClockCharacters(s: string): (r: string)
    ensures |r| <= |s|
    ensures forall i :: 0 <= i < |r| ==> IsClockCharacter(r[i])
    ensures Text.Count(':', r) == Text.Count(':', s)
  {
    if s == [] then ""
    else if IsClockCharacter(s[0]) then [s[0]] + KeepClockCharacters(s[1..])
    else KeepClockCharacters(s[1..])
  }

  /** A string made only of digits and colons passes the filter unchanged, so filtering twice is filtering once. */
  lemma {:induction false} KeepClockCharactersIdempotent(s: string)
    ensures (forall i :: 0 <= i < |s| ==> IsClockCharacter(s[i])) ==> KeepClockCharacters(s) == s
    ensures KeepClockCharacters(KeepClockCharacters(s)) == KeepClockCharacters(s)
  {
    if s != [] {
      KeepClockCharactersIdempotent(s[1..]);
      var r := KeepClockCharacters(s);
      if IsClockCharacter(s[0]) {
        assert r == [s[0]] + KeepClockCharacters(s[1..]);
        assert r[1..] == KeepClockCharacters(s[1..]);
        if forall i :: 0 <= i < |s| ==> IsClockCharacter(s[i]) {
          assert forall i :: 0 <= i < |s| - 1 ==> IsClockCharacter(s[1..][i]) by {
            forall i | 0 <= i < |s| - 1 ensures IsClockCharacter(s[1..][i]) {
              assert s[1..][i] == s[i + 1];
            }
          }
          assert [s[0]] + s[1..] == s;
        }
      } else {
        assert !(forall i :: 0 <= i < |s| ==> IsClockCharacter(s[i])) by {
          assert !IsClockCharacter(s[0]);
        }
      }
    }
  }

  /** The filter works character by character: it keeps the digits and colons of each part, in order. */
  lemma {:induction false} KeepClockCharactersConcat(a: string, b: string)
    ensures KeepClockCharacters(a + b) == KeepClockCharacters(a) + KeepClockCharacters(b)
  {
    if a == [] {
      assert a + b == b;
    } else {
      assert (a + b)[0] == a[0] && (a + b)[1..] == a[1..] + b;
      KeepClockCharactersConcat(a[1..], b);
    }
  }

  /** A single character is kept exactly when it is a digit or a colon. */
  lemma KeepClockCharactersSingle(c: char)
    ensures KeepClockCharacters([c]) == if IsClockCharacter(c) then [c] else []
  {
  }

  function DigitValue(c: char): nat
    requires IsDecimalDigit(c)
  {
    (c as int) - ('0' as int)
  }

  predicate AllDigits(s: string)
  {
    forall i :: 0 <= i < |s| ==> IsDecimalDigit(s[i])
  }

  /** The decimal value of a string of digits, most significant first. */
  function DigitsValue(s: string): nat
    requires AllDigits(s)
  {
    if s == [] then 0 else DigitsValue(s[..|s| - 1]) * 10 + DigitValue(s[|s| - 1])
  }

  /**
   * `Int(s)` for an optionally signed string of decimal digits: nil for an
   * empty digit string, any other character, or a value outside 64 bits.
   */
  function ParseInt(s: string): (r: Option<int>)
    ensures r.Some? ==> -IntMax - 1 <= r.value <= IntMax
    ensures AllDigits(s) ==> (r.Some? <==> s != [] && DigitsValue(s) <= IntMax)
    ensures AllDigits(s) && r.Some? ==> r.value == DigitsValue(s)
  {
    if s != [] && (s[0] == '+' || s[0] == '-') then
      var digits := s[1..];
      if digits == [] || !AllDigits(digits) then None
      else if s[0] == '+' then (if DigitsValue(digits) <= IntMax then Some(DigitsValue(digits) as int) else None)
      else (if DigitsValue(digits) <= IntMax + 1 then Some(-(DigitsValue(digits) as int)) else None)
    else if s == [] || !AllDigits(s) then None
    else if DigitsValue(s) <= IntMax then Some(DigitsValue(s) as int)
    else None
  }

  /**
   * `minutes` and `seconds` are non-empty digit strings that `Int(_:)`
   * accepts, and `value` is the number of seconds they give.
   */
  ghost predicate Reading(minutes: string, seconds: string, value: int)
  {
    && minutes != [] && seconds != []
    && AllDigits(minutes) && AllDigits(seconds)
    && DigitsValue(minutes) <= IntMax && DigitsValue(seconds) <= IntMax
    && value == DigitsValue(minutes) * 60 + DigitsValue(seconds)
  }

  /** `secondsValue`. */
  function SecondsValue(value: ElementValue): (r: Option<int>)
    ensures value.OtherValue? ==> r.None?
    ensures r.Some? ==> r.value >= 0
    ensures value.StringValue? && Text.Count(':', value.text) != 1 ==> r.None?
    ensures r.Some? ==>
      && value.StringValue?
      && |Text.Split(KeepClockCharacters(value.text), ':')| == 2
      && Reading(Text.Split(KeepClockCharacters(value.text), ':')[0], Text.Split(KeepClockCharacters(value.text), ':')[1], r.value)
  {
    match StringOf(value)
    case None => None
    case Some(text) =>
      var clock := KeepClockCharacters(text);
      var components := Text.Split(clock, ':');
      if |components| == 2 then
        ComponentsAreDigits(clock);
        match (ParseInt(components[0]), ParseInt(components[1]))
        case (Some(minutes), Some(seconds)) => Some(minutes * 60 + seconds)
        case _ => None
      else None
  }

  /** After the filter, the components hold digits only. */
  lemma {:induction false} ComponentsAreDigits(clock: string)
    requires forall i :: 0 <= i < |clock| ==> IsClockCharacter(clock[i])
    ensures forall k :: 0 <= k < |Text.Split(clock, ':')| ==> AllDigits(Text.Split(clock, ':')[k])
  {
    if clock != [] {
      var tail := clock[1..];
      assert forall i :: 0 <= i < |tail| ==> IsClockCharacter(tail[i]) by {
        forall i | 0 <= i < |tail| ensures IsClockCharacter(tail[i]) {
          assert tail[i] == clock[i + 1];
        }
      }
      ComponentsAreDigits(tail);
      var rest := Text.Split(tail, ':');
      if clock[0] == ':' {
        assert Text.Split(clock, ':') == [""] + rest;
      } else {
        var first := [clock[0]] + rest[0];
        assert AllDigits(first) by {
          forall i | 0 <= i < |first| ensures IsDecimalDigit(first[i]) {
            if i > 0 { assert first[i] == rest[0][i - 1]; }
          }
        }
        assert Text.Split(clock, ':') == [first] + rest[1..];
      }
    }
  }

  // ---------------------------------------------------------------------
  // the clock format the player shows

  function DigitChar(d: nat): (c: char)
    requires d < 10
    ensures IsDecimalDigit(c) && DigitValue(c) == d
  {
    ('0' as int + d) as char
  }

  /** Decimal rendering of a natural number, without leading zeros. */
  function Decimal(n: nat): (s: string)
    ensures s != [] && AllDigits(s)
    decreases n
  {
    (if n < 10 then "" else Decimal(n / 10)) + [DigitChar(n % 10)]
  }

  lemma {:induction false} DecimalValue(n: nat)
    ensures DigitsValue(Decimal(n)) == n
    decreases n
  {
    var s := Decimal(n);
    assert s[..|s| - 1] == (if n < 10 then "" else Decimal(n / 10));
    if n >= 10 {
      DecimalValue(n / 10);
    }
  }

  /** A label reading "m:ss"-style digits, after any characters that are neither digits nor colons, yields `m * 60 + s`. */
  lemma ClockReading(prefix: string, minutes: nat, seconds: nat)
    requires minutes <= IntMax && seconds <= IntMax
    requires forall i :: 0 <= i < |prefix| ==> !IsClockCharacter(prefix[i])
    ensures SecondsValue(StringValue(prefix + Decimal(minutes) + ":" + Decimal(seconds))) == Some(minutes * 60 + seconds)
  {
    var m, s := Decimal(minutes), Decimal(seconds);
    DecimalValue(minutes);
    DecimalValue(seconds);
    ReadingOfDigits(prefix, m, s);
  }

  lemma ReadingOfDigits(prefix: string, m: string, s: string)
    requires m != [] && AllDigits(m) && DigitsValue(m) <= IntMax
    requires s != [] && AllDigits(s) && DigitsValue(s) <= IntMax
    requires forall i :: 0 <= i < |prefix| ==> !IsClockCharacter(prefix[i])
    ensures SecondsValue(StringValue(prefix + m + ":" + s)) == Some(DigitsValue(m) * 60 + DigitsValue(s))
  {
    var clock := m + ":" + s;
    assert prefix + m + ":" + s == prefix + clock;
    KeepPrefix(prefix, clock);
    KeepClock(m, s);
    SplitClock(m, s);
    SecondsOfComponents(prefix + clock, m, s);
  }

  lemma KeepClock(m: string, s: string)
    requires AllDigits(m) && AllDigits(s)
    ensures KeepClockCharacters(m + ":" + s) == m + ":" + s
  {
    var clock := m + ":" + s;
    forall i | 0 <= i < |clock| ensures IsClockCharacter(clock[i]) {
      if i < |m| { assert clock[i] == m[i]; }
      else if i > |m| { assert clock[i] == s[i - |m| - 1]; }
    }
    KeepClockCharactersIdempotent(clock);
  }

  /** `secondsValue` once the filtered text is known to split into two digit strings. */
  lemma SecondsOfComponents(text: string, m: string, s: string)
    requires m != [] && AllDigits(m) && DigitsValue(m) <= IntMax
    requires s != [] && AllDigits(s) && DigitsValue(s) <= IntMax
    requires Text.Split(KeepClockCharacters(text), ':') == [m, s]
    ensures SecondsValue(StringValue(text)) == Some(DigitsValue(m) * 60 + DigitsValue(s))
  {
  }

  lemma SplitClock(m: string, s: string)
    requires AllDigits(m) && AllDigits(s)
    ensures Text.Split(m + ":" + s, ':') == [m, s]
  {
    assert ':' !in m by {
      forall i | 0 <= i < |m| ensures m[i] != ':' { assert IsDecimalDigit(m[i]); }
    }
    assert ':' !in s by {
      forall i | 0 <= i < |s| ensures s[i] != ':' { assert IsDecimalDigit(s[i]); }
    }
    assert Text.Join([m, s], [':']) == m + ":" + s by {
      assert [m, s][1..] == [s];
    }
    Text.SplitJoin([m, s], ':');
  }

  lemma {:induction false} KeepPrefix(prefix: string, rest: string)
    requires forall i :: 0 <= i < |prefix| ==> !IsClockCharacter(prefix[i])
    ensures KeepClockCharacters(prefix + rest) == KeepClockCharacters(rest)
  {
    if prefix == [] {
      assert prefix + rest == rest;
    } else {
      var tail := prefix[1..];
      assert forall i :: 0 <= i < |tail| ==> !IsClockCharacter(tail[i]) by {
        forall i | 0 <= i < |tail| ensures !IsClockCharacter(tail[i]) {
          assert tail[i] == prefix[i + 1];
        }
      }
      assert (prefix + rest)[0] == prefix[0];
      assert !IsClockCharacter(prefix[0]);
      assert (prefix + rest)[1..] == tail + rest;
      KeepPrefix(tail, rest);
      assert KeepClockCharacters(prefix + rest) == KeepClockCharacters(tail + rest);
    }
  }

  /** Concrete readings: two colons, no colon, and an empty component all give nil. */
  lemma RejectedReadings()
    ensures SecondsValue(StringValue("1:2:3")) == None
    ensures SecondsValue(StringValue("90")) == None
    ensures SecondsValue(StringValue(":5")) == None
    ensures SecondsValue(StringValue("5:")) == None
  {
    assert Text.Count(':', "1:2:3") == 2;
    assert Text.Count(':', "90") == 0;
    assert KeepClockCharacters(":5") == ":5";
    assert Text.Split(":5", ':') == ["", "5"];
    assert KeepClockCharacters("5:") == "5:";
    assert Text.Split("5:", ':') == ["5", ""];
  }
}
