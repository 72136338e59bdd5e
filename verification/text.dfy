/**
 * String operations the app takes from Foundation and the Swift standard
 * library, written out on `seq<char>`: `joined(separator:)`,
 * `components(separatedBy:)`, `replacingOccurrences(of: "\n", with: "\n\n")`,
 * `trimmingCharacters(in: .whitespacesAndNewlines)` and the ordering `<` on
 * strings. Each comes with the inverse or the order laws that pin it down.
 */
module Text {

  /** Number of occurrences of `c` in `s`. */
  function Count(c: char, s: string): nat
  {
    if s == [] then 0 else (if s[0] == c then 1 else 0) + Count(c, s[1..])
  }

  // ---------------------------------------------------------------------
  // joined(separator:)

  /** `parts.joined(separator: sep)`: the parts in order, `sep` between two neighbours. */
  function Join(parts: seq<string>, sep: string): string
  {
    if parts == [] then ""
    else if |parts| == 1 then parts[0]
    else parts[0] + sep + Join(parts[1..], sep)
  }

  /** Total length of the parts. */
  function TotalLength(parts: seq<string>): nat
  {
    if parts == [] then 0 else |parts[0]| + TotalLength(parts[1..])
  }

  /** The joined string holds every character of every part and one separator per gap. */
  lemma {:induction false} JoinLength(parts: seq<string>, sep: string)
    requires parts != []
    ensures |Join(parts, sep)| == TotalLength(parts) + (|parts| - 1) * |sep|
  {
    if |parts| > 1 {
      JoinLength(parts[1..], sep);
    }
  }

  /** Joining one more part at the end adds the separator and that part. */
  lemma {:induction false} JoinSnoc(parts: seq<string>, last: string, sep: string)
    requires parts != []
    ensures Join(parts + [last], sep) == Join(parts, sep) + sep + last
  {
    if |parts| == 1 {
      assert parts + [last] == [parts[0], last];
    } else {
      assert (parts + [last])[1..] == parts[1..] + [last];
      JoinSnoc(parts[1..], last, sep);
    }
  }

  // ---------------------------------------------------------------------
  // components(separatedBy:) with a one-character separator

  /**
   * `s.components(separatedBy: String(c))`: the maximal runs between
   * occurrences of `c`, empty runs included, so `""` gives `[""]`.
   */
  function Split(s: string, c: char): (parts: seq<string>)
    ensures |parts| == Count(c, s) + 1
    ensures forall i :: 0 <= i < |parts| ==> c !in parts[i]
  {
    if s == [] then [""]
    else if s[0] == c then [""] + Split(s[1..], c)
    else
      var rest := Split(s[1..], c);
      [[s[0]] + rest[0]] + rest[1..]
  }

  /** Joining the components with the separator gives back the string. */
  lemma {:induction false} JoinSplit(s: string, c: char)
    ensures Join(Split(s, c), [c]) == s
  {
    if s == [] {
    } else if s[0] == c {
      JoinSplit(s[1..], c);
      var rest := Split(s[1..], c);
      assert Split(s, c) == [""] + rest;
      assert ([""] + rest)[1..] == rest;
    } else {
      JoinSplit(s[1..], c);
      var rest := Split(s[1..], c);
      var parts := [[s[0]] + rest[0]] + rest[1..];
      assert Split(s, c) == parts;
      if |rest| == 1 {
        assert parts == [[s[0]] + rest[0]];
      } else {
        assert parts[1..] == rest[1..];
        assert Join(rest, [c]) == rest[0] + [c] + Join(rest[1..], [c]);
      }
    }
  }

  /** Splitting a join of separator-free parts gives back the parts. */
  lemma {:induction false} SplitJoin(parts: seq<string>, c: char)
    requires parts != []
    requires forall i :: 0 <= i < |parts| ==> c !in parts[i]
    ensures Split(Join(parts, [c]), c) == parts
  {
    if |parts| == 1 {
      SplitFree(parts[0], c);
    } else {
      SplitJoin(parts[1..], c);
      SplitPrefix(parts[0], Join(parts[1..], [c]), c);
    }
  }

  /** A string free of the separator is one component. */
  lemma {:induction false} SplitFree(s: string, c: char)
    requires c !in s
    ensures Split(s, c) == [s]
  {
    if s != [] {
      assert s[0] in s;
      SplitFree(s[1..], c);
      assert [s[0]] + s[1..] == s;
    }
  }

  /** A separator-free head followed by the separator opens its own component. */
  lemma {:induction false} SplitPrefix(head: string, tail: string, c: char)
    requires c !in head
    ensures Split(head + [c] + tail, c) == [head] + Split(tail, c)
  {
    if head == [] {
      assert head + [c] + tail == [c] + tail;
      assert ([c] + tail)[1..] == tail;
    } else {
      var whole := head + [c] + tail;
      assert head[0] in head;
      assert whole[0] == head[0] && whole[1..] == head[1..] + [c] + tail;
      SplitPrefix(head[1..], tail, c);
      var rest := Split(whole[1..], c);
      assert rest[0] == head[1..] && rest[1..] == Split(tail, c);
      assert [head[0]] + head[1..] == head;
    }
  }

  // ---------------------------------------------------------------------
  // replacingOccurrences(of: "\n", with: "\n\n")

  /** Every newline replaced by two newlines. */
  function DoubleNewlines(s: string): string
  {
    if s == [] then ""
    else if s[0] == '\n' then "\n\n" + DoubleNewlines(s[1..])
    else [s[0]] + DoubleNewlines(s[1..])
  }

  /** The inverse rewriting: every pair of newlines read left to right becomes one. */
  function CollapseNewlines(s: string): string
  {
    if |s| >= 2 && s[0] == '\n' && s[1] == '\n' then "\n" + CollapseNewlines(s[2..])
    else if s == [] then ""
    else [s[0]] + CollapseNewlines(s[1..])
  }

  /** Doubling loses nothing: collapsing the pairs recovers the original text. */
  lemma {:induction false} CollapseDouble(s: string)
    ensures CollapseNewlines(DoubleNewlines(s)) == s
  {
    if s == [] {
    } else if s[0] == '\n' {
      CollapseDouble(s[1..]);
      var d := DoubleNewlines(s[1..]);
      assert ("\n\n" + d)[2..] == d;
    } else {
      CollapseDouble(s[1..]);
      var d := DoubleNewlines(s[1..]);
      assert ([s[0]] + d)[1..] == d;
    }
  }

  /** Doubling adds exactly one character per newline and keeps the newline count doubled. */
  lemma {:induction false} DoubleNewlinesCounts(s: string)
    ensures |DoubleNewlines(s)| == |s| + Count('\n', s)
    ensures Count('\n', DoubleNewlines(s)) == 2 * Count('\n', s)
  {
    if s != [] {
      DoubleNewlinesCounts(s[1..]);
      var d := DoubleNewlines(s[1..]);
      if s[0] == '\n' {
        assert ("\n\n" + d)[1..] == "\n" + d;
        assert ("\n" + d)[1..] == d;
      } else {
        assert ([s[0]] + d)[1..] == d;
      }
    }
  }

  // ---------------------------------------------------------------------
  // trimmingCharacters(in: .whitespacesAndNewlines), ASCII members only

  predicate IsWhitespace(c: char)
  {
    c == ' ' || c == '\t' || c == '\n' || c == '\r' || c == '\U{0B}' || c == '\U{0C}'
  }

  /** Index of the first character that is not white space (`|s|` when there is none). */
  function TrimStartIndex(s: string): (i: nat)
    ensures i <= |s|
    ensures forall k :: 0 <= k < i ==> IsWhitespace(s[k])
    ensures i < |s| ==> !IsWhitespace(s[i])
  {
    if s == [] || !IsWhitespace(s[0]) then 0 else 1 + TrimStartIndex(s[1..])
  }

  /** One past the last character that is not white space (0 when there is none). */
  function TrimEndIndex(s: string): (j: nat)
    ensures j <= |s|
    ensures forall k :: j <= k < |s| ==> IsWhitespace(s[k])
    ensures j > 0 ==> !IsWhitespace(s[j - 1])
  {
    if s == [] || !IsWhitespace(s[|s| - 1]) then |s| else TrimEndIndex(s[..|s| - 1])
  }

  /** `s` without its leading and trailing white space. */
  function Trim(s: string): (r: string)
    ensures |r| <= |s|
    ensures r != [] ==> !IsWhitespace(r[0]) && !IsWhitespace(r[|r| - 1])
    ensures r == [] <==> forall k :: 0 <= k < |s| ==> IsWhitespace(s[k])
    ensures exists i, j :: 0 <= i <= j <= |s| && r == s[i..j]
                         && (forall k :: 0 <= k < i ==> IsWhitespace(s[k]))
                         && (forall k :: j <= k < |s| ==> IsWhitespace(s[k]))
  {
    var i := TrimStartIndex(s);
    if i == |s| then
      assert s[i..i] == "";
      ""
    else
      var j := TrimEndIndex(s);
      assert !IsWhitespace(s[i]);
      s[i..j]
  }

  // ---------------------------------------------------------------------
  // String `<`, by character code

  /** `a < b` for Swift strings, by character code. */
  predicate Less(a: string, b: string)
  {
    if a == [] then b != []
    else if b == [] then false
    else if a[0] != b[0] then a[0] < b[0]
    else Less(a[1..], b[1..])
  }

  lemma {:induction false} LessIrreflexive(a: string)
    ensures !Less(a, a)
  {
    if a != [] {
      LessIrreflexive(a[1..]);
    }
  }

  lemma {:induction false} LessTransitive(a: string, b: string, c: string)
    requires Less(a, b) && Less(b, c)
    ensures Less(a, c)
  {
    if a != [] && b != [] && c != [] && a[0] == b[0] && b[0] == c[0] {
      LessTransitive(a[1..], b[1..], c[1..]);
    }
  }

  /** Two strings that are not ordered either way are equal. */
  lemma {:induction false} LessTotal(a: string, b: string)
    ensures Less(a, b) || Less(b, a) || a == b
  {
    if a != [] && b != [] && a[0] == b[0] {
      LessTotal(a[1..], b[1..]);
    }
  }
}
