/** ASCII text primitives shared by the parser, the keyword counter and the
    exporters: JavaScript's `trim`, `toLowerCase`/`toUpperCase`, `split`,
    `join`, `padStart`, the removal of markdown code fences and the decimal
    rendering of non-negative integers, all restricted to ASCII. */
module Text {

  /** The ASCII members of JavaScript's WhiteSpace/LineTerminator set, which is
      what `String.prototype.trim` removes and what the regex class `\s` accepts. */
  predicate IsSpace(c: char) {
    c == ' ' || c == '\t' || c == '\n' || c == '\r' || c == '\U{000B}' || c == '\U{000C}'
  }

  /** A regex line terminator: the characters that `.` does not match. */
  predicate IsLineTerminator(c: char) {
    c == '\n' || c == '\r'
  }

  /** `u` holds no line terminator: it lies within one line. */
  predicate InLine(u: string) {
    forall k :: 0 <= k < |u| ==> !IsLineTerminator(u[k])
  }

  predicate IsDigit(c: char) {
    '0' <= c <= '9'
  }

  predicate AllSpace(s: string) {
    forall i :: 0 <= i < |s| ==> IsSpace(s[i])
  }

  /** The regex character classes the parser's pattern repeats: `\s`,
      `\d`, `[\d:.]` and `.` (anything but a line terminator). */
  datatype CharClass = Whitespace | Digit | TimestampChars | NonTerminator

  predicate InClass(k: CharClass, c: char) {
    match k
    case Whitespace => IsSpace(c)
    case Digit => IsDigit(c)
    case TimestampChars => IsDigit(c) || c == ':' || c == '.'
    case NonTerminator => !IsLineTerminator(c)
  }

  /** End of the maximal run of characters of class `p` that starts at `i`:
      what a greedy regex quantifier over a character class consumes. */
  function SpanEnd(s: string, i: nat, p: CharClass): (j: nat)
    requires i <= |s|
    ensures i <= j <= |s|
    ensures j < |s| ==> !InClass(p, s[j])
    decreases |s| - i
  {
    if i < |s| && InClass(p, s[i]) then SpanEnd(s, i + 1, p) else i
  }

  /** Every character of the run is of class `p`. */
  lemma {:induction false} SpanEndRun(s: string, i: nat, p: CharClass)
    requires i <= |s|
    ensures forall k :: i <= k < SpanEnd(s, i, p) ==> InClass(p, s[k])
    decreases |s| - i
  {
    if i < |s| && InClass(p, s[i]) {
      SpanEndRun(s, i + 1, p);
    }
  }

  /** A run that is maximal is the one `SpanEnd` finds. */
  lemma {:induction false} SpanEndExact(s: string, i: nat, j: nat, p: CharClass)
    requires i <= j <= |s|
    requires forall k :: i <= k < j ==> InClass(p, s[k])
    requires j < |s| ==> !InClass(p, s[j])
    ensures SpanEnd(s, i, p) == j
    decreases j - i
  {
    if i < j {
      SpanEndExact(s, i + 1, j, p);
    }
  }

  /** Start of the maximal run of characters of class `p` that ends at `j`. */
  function SpanStart(s: string, j: nat, p: CharClass): (i: nat)
    requires j <= |s|
    ensures i <= j
    ensures i > 0 ==> !InClass(p, s[i - 1])
    decreases j
  {
    if j > 0 && InClass(p, s[j - 1]) then SpanStart(s, j - 1, p) else j
  }

  lemma {:induction false} SpanStartRun(s: string, j: nat, p: CharClass)
    requires j <= |s|
    ensures forall k :: SpanStart(s, j, p) <= k < j ==> InClass(p, s[k])
    decreases j
  {
    if j > 0 && InClass(p, s[j - 1]) {
      SpanStartRun(s, j - 1, p);
    }
  }

  lemma {:induction false} SpanStartExact(s: string, i: nat, j: nat, p: CharClass)
    requires i <= j <= |s|
    requires forall k :: i <= k < j ==> InClass(p, s[k])
    requires i > 0 ==> !InClass(p, s[i - 1])
    ensures SpanStart(s, j, p) == i
    decreases j - i
  {
    if i < j {
      SpanStartExact(s, i, j - 1, p);
    }
  }

  /** Skipping a run of spaces from `i` leaves `trimStart` of the rest. */
  lemma SpanSpacesIsTrimStart(s: string, i: nat)
    requires i <= |s|
    ensures s[SpanEnd(s, i, Whitespace)..] == TrimStart(s[i..])
  {
    var j := SpanEnd(s, i, Whitespace);
    var t := s[i..];
    SpanEndRun(s, i, Whitespace);
    forall k | 0 <= k < j - i ensures IsSpace(t[k]) {
      assert t[k] == s[i + k];
    }
    assert j < |s| ==> t[j - i] == s[j];
    LeadingSpacesExact(t, j - i);
  }

  lemma LeadingSpacesExact(s: string, n: nat)
    requires n <= |s|
    requires forall k :: 0 <= k < n ==> IsSpace(s[k])
    requires n < |s| ==> !IsSpace(s[n])
    ensures LeadingSpaces(s) == n
  {
    SpanEndExact(s, 0, n, Whitespace);
  }

  // ---------------------------------------------------------------------
  // Case mapping

  function LowerChar(c: char): char {
    if 'A' <= c <= 'Z' then (c as int + 32) as char else c
  }

  function UpperChar(c: char): char {
    if 'a' <= c <= 'z' then (c as int - 32) as char else c
  }

  /** `toLowerCase` on ASCII: letters are folded one by one, nothing else moves. */
  function ToLower(s: string): (r: string)
    ensures |r| == |s|
    ensures forall i :: 0 <= i < |s| ==> r[i] == LowerChar(s[i])
  {
    seq(|s|, i requires 0 <= i < |s| => LowerChar(s[i]))
  }

  lemma ToLowerIdempotent(s: string)
    ensures ToLower(ToLower(s)) == ToLower(s)
  {
  }

  // ---------------------------------------------------------------------
  // Trimming

  /** Number of whitespace characters at the start of `s`. */
  function LeadingSpaces(s: string): (n: nat)
    ensures n <= |s|
    ensures forall i :: 0 <= i < n ==> IsSpace(s[i])
    ensures n < |s| ==> !IsSpace(s[n])
  {
    SpanEndRun(s, 0, Whitespace);
    SpanEnd(s, 0, Whitespace)
  }

  /** Number of whitespace characters at the end of `s`. */
  function TrailingSpaces(s: string): (n: nat)
    ensures n <= |s|
    ensures forall i :: |s| - n <= i < |s| ==> IsSpace(s[i])
    ensures n < |s| ==> !IsSpace(s[|s| - n - 1])
  {
    SpanStartRun(s, |s|, Whitespace);
    |s| - SpanStart(s, |s|, Whitespace)
  }

  lemma TrailingSpacesExact(s: string, n: nat)
    requires n <= |s|
    requires forall k :: |s| - n <= k < |s| ==> IsSpace(s[k])
    requires n < |s| ==> !IsSpace(s[|s| - n - 1])
    ensures TrailingSpaces(s) == n
  {
    SpanStartExact(s, |s| - n, |s|, Whitespace);
  }

  function TrimStart(s: string): string {
    s[LeadingSpaces(s)..]
  }

  function TrimEnd(s: string): string {
    s[..|s| - TrailingSpaces(s)]
  }

  /** `String.prototype.trim`: the result neither starts nor ends with
      whitespace, and is empty exactly when `s` is all whitespace
      (`TrimSlice` adds that it is what is left once whitespace is cut off
      either side). */
  function Trim(s: string): (r: string)
    ensures |r| <= |s|
    ensures r != [] ==> !IsSpace(r[0]) && !IsSpace(r[|r| - 1])
    ensures r == [] <==> AllSpace(s)
  {
    TrimFacts(s);
    TrimEnd(TrimStart(s))
  }

  lemma TrimSlice(s: string)
    ensures var r := Trim(s);
      exists i :: 0 <= i <= |s| - |r| && r == s[i..i + |r|] && AllSpace(s[..i]) && AllSpace(s[i + |r|..])
  {
    TrimFacts(s);
  }

  /** Every character of `Trim(s)` is a character of `s`. */
  lemma TrimChars(s: string)
    ensures forall k :: 0 <= k < |Trim(s)| ==> Trim(s)[k] in s
  {
    var n := LeadingSpaces(s);
    forall k | 0 <= k < |Trim(s)| ensures Trim(s)[k] in s {
      assert Trim(s)[k] == s[n + k];
    }
  }

  lemma TrimFacts(s: string)
    ensures var r := TrimEnd(TrimStart(s));
      && (r == [] <==> AllSpace(s))
      && exists i :: 0 <= i <= |s| - |r| && r == s[i..i + |r|] && AllSpace(s[..i]) && AllSpace(s[i + |r|..])
  {
    var t := TrimStart(s);
    var n := LeadingSpaces(s);
    var r := TrimEnd(t);
    assert r == s[n..n + |r|];
    assert AllSpace(s[..n]);
    assert AllSpace(s[n + |r|..]) by {
      forall k | n + |r| <= k < |s| ensures IsSpace(s[k]) {
        assert s[k] == t[k - n];
      }
    }
    if r == [] {
      assert n == |s|;
    }
  }

  lemma TrimIdempotent(s: string)
    ensures Trim(Trim(s)) == Trim(s)
  {
    var r := Trim(s);
    if r != [] {
      assert LeadingSpaces(r) == 0;
      assert TrimStart(r) == r;
      assert TrailingSpaces(r) == 0;
    }
  }

  lemma TrimOfLeadingSpace(s: string)
    ensures Trim([' '] + s) == Trim(s)
  {
    var t := [' '] + s;
    var n := LeadingSpaces(s);
    forall k | 0 <= k < n + 1 ensures IsSpace(t[k]) {
      if k > 0 { assert t[k] == s[k - 1]; }
    }
    if n < |s| { assert t[n + 1] == s[n]; }
    LeadingSpacesExact(t, n + 1);
    assert TrimStart(t) == TrimStart(s);
  }

  lemma TrimOfTrimStart(s: string)
    ensures Trim(TrimStart(s)) == Trim(s)
  {
    var t := TrimStart(s);
    LeadingSpacesExact(t, 0);
    assert TrimStart(t) == t;
  }

  /** A string without whitespace is its own trim. */
  lemma TrimNoSpace(s: string)
    requires forall k :: 0 <= k < |s| ==> !IsSpace(s[k])
    ensures Trim(s) == s
  {
    LeadingSpacesExact(s, 0);
    if s != [] {
      assert TrailingSpaces(s) == 0;
    }
  }

  /** A string that starts with a non-space loses nothing at the front. */
  lemma TrimStartNoSpace(s: string)
    requires s != [] && !IsSpace(s[0])
    ensures Trim(s) == TrimEnd(s)
  {
    assert TrimStart(s) == s;
  }

  /** Trimming the end of `x + y` only touches `y`, unless `y` is all blank. */
  lemma TrimEndConcat(x: string, y: string)
    ensures !AllSpace(y) ==> TrimEnd(x + y) == x + TrimEnd(y)
    ensures AllSpace(y) ==> TrimEnd(x + y) == TrimEnd(x)
  {
    var xy := x + y;
    if AllSpace(y) {
      var n := |y| + TrailingSpaces(x);
      forall k | |xy| - n <= k < |xy| ensures IsSpace(xy[k]) {
        if k < |x| { assert xy[k] == x[k]; } else { assert xy[k] == y[k - |x|]; }
      }
      if n < |xy| {
        assert xy[|xy| - n - 1] == x[|x| - TrailingSpaces(x) - 1];
      }
      TrailingSpacesExact(xy, n);
      assert xy[..|xy| - n] == TrimEnd(x);
    } else {
      var n := TrailingSpaces(y);
      forall k | |xy| - n <= k < |xy| ensures IsSpace(xy[k]) {
        assert xy[k] == y[k - |x|];
      }
      assert xy[|xy| - n - 1] == y[|y| - n - 1];
      TrailingSpacesExact(xy, n);
      assert xy[..|xy| - n] == x + y[..|y| - n];
    }
  }

  lemma TrimEndIdempotent(s: string)
    ensures TrimEnd(TrimEnd(s)) == TrimEnd(s)
  {
    var t := TrimEnd(s);
    if t != [] {
      assert !IsSpace(t[|t| - 1]);
      assert TrailingSpaces(t) == 0;
    }
  }

  /** Cutting whitespace off the front and off the back commute. */
  lemma TrimStartEndCommute(s: string)
    ensures TrimStart(TrimEnd(s)) == TrimEnd(TrimStart(s))
  {
    if LeadingSpaces(s) + TrailingSpaces(s) >= |s| {
      CommuteBlank(s);
    } else {
      CommuteSolid(s);
    }
  }

  lemma CommuteBlank(s: string)
    requires LeadingSpaces(s) + TrailingSpaces(s) >= |s|
    ensures TrimStart(TrimEnd(s)) == [] == TrimEnd(TrimStart(s))
  {
    var n := LeadingSpaces(s);
    var k := TrailingSpaces(s);
    assert AllSpace(s[..|s| - k]);
    LeadingSpacesExact(s[..|s| - k], |s| - k);
    assert AllSpace(s[n..]);
    TrailingAll(s[n..]);
  }

  lemma CommuteSolid(s: string)
    requires LeadingSpaces(s) + TrailingSpaces(s) < |s|
    ensures TrimStart(TrimEnd(s)) == TrimEnd(TrimStart(s))
  {
    TrimStartOfTrimEnd(s);
    TrimEndOfTrimStart(s);
  }

  lemma TrimStartOfTrimEnd(s: string)
    requires LeadingSpaces(s) + TrailingSpaces(s) < |s|
    ensures TrimStart(TrimEnd(s)) == s[LeadingSpaces(s)..|s| - TrailingSpaces(s)]
  {
    var j := |s| - TrailingSpaces(s);
    LeadingOfPrefix(s, j);
    SliceOfPrefix(s, LeadingSpaces(s), j);
  }

  lemma TrimEndOfTrimStart(s: string)
    requires LeadingSpaces(s) + TrailingSpaces(s) < |s|
    ensures TrimEnd(TrimStart(s)) == s[LeadingSpaces(s)..|s| - TrailingSpaces(s)]
  {
    var n := LeadingSpaces(s);
    TrailingOfSuffix(s, n);
    SliceOfSuffix(s, n, |s| - TrailingSpaces(s));
  }

  lemma TrailingAll(s: string)
    requires AllSpace(s)
    ensures TrailingSpaces(s) == |s|
  {
    TrailingSpacesExact(s, |s|);
  }

  lemma SliceOfSuffix(s: string, i: nat, j: nat)
    requires i <= j <= |s|
    ensures s[i..][..j - i] == s[i..j]
  {
  }

  lemma SliceOfPrefix(s: string, i: nat, j: nat)
    requires i <= j <= |s|
    ensures s[..j][i..] == s[i..j]
  {
  }

  lemma TrimOfTrimEnd(s: string)
    ensures Trim(TrimEnd(s)) == Trim(s)
  {
    TrimStartEndCommute(s);
    TrimEndIdempotent(TrimStart(s));
  }

  lemma LeadingOfPrefix(s: string, m: nat)
    requires LeadingSpaces(s) < m <= |s|
    ensures LeadingSpaces(s[..m]) == LeadingSpaces(s)
  {
    var n := LeadingSpaces(s);
    var t := s[..m];
    assert forall k :: 0 <= k <= n ==> t[k] == s[k];
    LeadingSpacesExact(t, n);
  }

  lemma TrailingOfSuffix(s: string, m: nat)
    requires m + TrailingSpaces(s) < |s|
    ensures TrailingSpaces(s[m..]) == TrailingSpaces(s)
  {
    var n := TrailingSpaces(s);
    var t := s[m..];
    assert forall k :: |t| - n - 1 <= k < |t| ==> t[k] == s[k + m];
    TrailingSpacesExact(t, n);
  }

  // ---------------------------------------------------------------------
  // Splitting and joining

  /** `parts.join(sep)` for a one-character separator. */
  function Join(parts: seq<string>, sep: string): string {
    if |parts| == 0 then ""
    else if |parts| == 1 then parts[0]
    else parts[0] + sep + Join(parts[1..], sep)
  }

  function IndexOf(s: string, c: char): (i: nat)
    ensures i <= |s|
    ensures i < |s| ==> s[i] == c
    ensures forall k :: 0 <= k < i ==> s[k] != c
  {
    if s == [] then 0 else if s[0] == c then 0 else 1 + IndexOf(s[1..], c)
  }

  /** `s.split(sep)`: never empty and no piece contains the separator
      (`SplitJoinBack` adds that joining the pieces back gives `s`). */
  function Split(s: string, sep: char): (parts: seq<string>)
    ensures |parts| >= 1
    ensures forall k :: 0 <= k < |parts| ==> sep !in parts[k]
    decreases |s|
  {
    var i := IndexOf(s, sep);
    if i == |s| then [s] else [s[..i]] + Split(s[i + 1..], sep)
  }

  lemma SliceAround(s: string, i: nat)
    requires i < |s|
    ensures s[..i] + [s[i]] + s[i + 1..] == s
  {
  }

  lemma {:induction false} SplitJoinBack(s: string, sep: char)
    ensures Join(Split(s, sep), [sep]) == s
    decreases |s|
  {
    var i := IndexOf(s, sep);
    if i < |s| {
      var rest := Split(s[i + 1..], sep);
      SplitJoinBack(s[i + 1..], sep);
      var parts := [s[..i]] + rest;
      assert Split(s, sep) == parts;
      calc {
        Join(parts, [sep]);
        { assert parts[0] == s[..i] && parts[1..] == rest; }
        s[..i] + [sep] + Join(rest, [sep]);
        s[..i] + [sep] + s[i + 1..];
        { SliceAround(s, i); }
        s;
      }
    } else {
      assert Split(s, sep) == [s];
    }
  }

  /** A property every non-separator character of `s` has, every character
      of every piece has. */
  lemma {:induction false} SplitKeeps(s: string, sep: char, p: char -> bool)
    requires forall i :: 0 <= i < |s| && s[i] != sep ==> p(s[i])
    ensures forall k, i :: 0 <= k < |Split(s, sep)| && 0 <= i < |Split(s, sep)[k]| ==> p(Split(s, sep)[k][i])
    decreases |s|
  {
    var i := IndexOf(s, sep);
    var parts := Split(s, sep);
    if i < |s| {
      var rest := Split(s[i + 1..], sep);
      SplitKeeps(s[i + 1..], sep, p);
      assert parts == [s[..i]] + rest;
      forall k, j | 0 <= k < |parts| && 0 <= j < |parts[k]| ensures p(parts[k][j]) {
        if k > 0 {
          assert parts[k] == rest[k - 1];
        } else {
          assert parts[k][j] == s[j] && s[j] != sep;
        }
      }
    } else {
      assert parts == [s];
    }
  }

  /** Splitting at the first separator: the piece before it, then the rest. */
  lemma SplitCons(p: string, sep: char, rest: string)
    requires sep !in p
    ensures Split(p + [sep] + rest, sep) == [p] + Split(rest, sep)
  {
    var s := p + [sep] + rest;
    IndexOfPrefix(p, sep, [sep] + rest);
    assert p + ([sep] + rest) == s;
    assert s[..|p|] == p;
    assert s[|p| + 1..] == rest;
  }

  /** Splitting a join of separator-free pieces gives the pieces back. */
  lemma {:induction false} SplitJoin(parts: seq<string>, sep: char)
    requires |parts| >= 1
    requires forall k :: 0 <= k < |parts| ==> sep !in parts[k]
    ensures Split(Join(parts, [sep]), sep) == parts
  {
    if |parts| > 1 {
      var rest := Join(parts[1..], [sep]);
      assert Join(parts, [sep]) == parts[0] + [sep] + rest;
      SplitCons(parts[0], sep, rest);
      SplitJoin(parts[1..], sep);
      assert [parts[0]] + parts[1..] == parts;
    } else {
      assert Join(parts, [sep]) == parts[0];
      IndexOfPrefix(parts[0], sep, []);
      assert parts[0] + [] == parts[0];
    }
  }

  lemma IndexOfPrefix(p: string, c: char, rest: string)
    requires c !in p
    requires rest == [] || rest[0] == c
    ensures IndexOf(p + rest, c) == |p|
    decreases |p|
  {
    if p != [] {
      assert (p + rest)[1..] == p[1..] + rest;
      IndexOfPrefix(p[1..], c, rest);
    } else {
      assert p + rest == rest;
    }
  }

  // ---------------------------------------------------------------------
  // Code fences

  /** Three backticks start at position `i`. */
  predicate FenceAt(s: string, i: int) {
    0 <= i && i + 3 <= |s| && s[i] == '`' && s[i + 1] == '`' && s[i + 2] == '`'
  }

  predicate NoFence(s: string) {
    forall i :: 0 <= i < |s| ==> !FenceAt(s, i)
  }

  /** `s.replace(/```/g, '')`: the scan looks for the next fence from the left
      and resumes right after each one it deletes. */
  function RemoveFences(s: string): string {
    if FenceAt(s, 0) then RemoveFences(s[3..])
    else if s == [] then []
    else [s[0]] + RemoveFences(s[1..])
  }

  /** Deleting fences left to right leaves no fence behind, even where the
      deletion brings backticks together. */
  lemma {:induction false} RemoveFencesComplete(s: string)
    ensures NoFence(RemoveFences(s))
    decreases |s|
  {
    if FenceAt(s, 0) {
      RemoveFencesComplete(s[3..]);
    } else if s != [] {
      var rest := RemoveFences(s[1..]);
      RemoveFencesComplete(s[1..]);
      var r := [s[0]] + rest;
      assert r == RemoveFences(s);
      forall i | 0 <= i < |r| ensures !FenceAt(r, i) {
        if i > 0 {
          assert !FenceAt(rest, i - 1);
        } else if s[0] == '`' && |rest| >= 2 {
          // s does not start a fence, so s[1] or s[2] is not a backtick
          if |s| > 1 && s[1] == '`' {
            assert |s| == 2 || s[2] != '`';
            assert !FenceAt(s[1..], 0);
            assert rest == [s[1]] + RemoveFences(s[2..]);
            assert |s| > 2;
            assert !FenceAt(s[2..], 0);
            assert RemoveFences(s[2..]) == [s[2]] + RemoveFences(s[3..]);
            assert rest[1] == s[2];
          } else {
            assert |s| > 1;
            assert !FenceAt(s[1..], 0);
            assert rest[0] == s[1];
          }
        }
      }
    }
  }

  /** Without a fence there is nothing to delete. */
  lemma {:induction false} RemoveFencesNoFence(s: string)
    requires NoFence(s)
    ensures RemoveFences(s) == s
    decreases |s|
  {
    if s != [] {
      assert !FenceAt(s, 0);
      assert NoFence(s[1..]) by {
        forall i | 0 <= i < |s[1..]| ensures !FenceAt(s[1..], i) {
          assert !FenceAt(s, i + 1);
        }
      }
      RemoveFencesNoFence(s[1..]);
    }
  }

  /** Gluing two fence-free strings around one non-backtick character makes
      no fence. */
  lemma NoFenceGlue(x: string, c: char, y: string)
    requires NoFence(x) && NoFence(y) && c != '`'
    ensures NoFence(x + [c] + y)
  {
    var s := x + [c] + y;
    forall i | 0 <= i < |s| ensures !FenceAt(s, i) {
      if i + 3 <= |x| {
        assert !FenceAt(x, i);
      } else if i > |x| {
        assert !FenceAt(y, i - |x| - 1);
      }
    }
  }

  lemma NoFenceConcatNoTick(x: string, y: string)
    requires forall k :: 0 <= k < |x| ==> x[k] != '`'
    requires NoFence(y)
    ensures NoFence(x + y)
  {
    var s := x + y;
    forall i | 0 <= i < |s| ensures !FenceAt(s, i) {
      if i >= |x| {
        assert !FenceAt(y, i - |x|);
      }
    }
  }

  // ---------------------------------------------------------------------
  // Decimal digits

  function DigitChar(d: nat): char
    requires d < 10
  {
    ('0' as int + d) as char
  }

  function DigitValue(c: char): nat
    requires IsDigit(c)
  {
    c as int - '0' as int
  }

  /** The value of a string of decimal digits (0 for the empty string). */
  function DigitsValue(s: string): nat
    requires forall k :: 0 <= k < |s| ==> IsDigit(s[k])
  {
    if s == [] then 0 else 10 * DigitsValue(s[..|s| - 1]) + DigitValue(s[|s| - 1])
  }

  function Pow10(n: nat): (p: nat)
    ensures p >= 1
  {
    if n == 0 then 1 else 10 * Pow10(n - 1)
  }

  lemma ShiftDigit(a: int, p: int, b: int, d: int)
    ensures 10 * (a * p + b) + d == a * (10 * p) + (10 * b + d)
  {
  }

  /** Digits read left to right: the digits of `w` shifted past those of `f`. */
  lemma {:induction false} DigitsValueConcat(w: string, f: string)
    requires forall k :: 0 <= k < |w| ==> IsDigit(w[k])
    requires forall k :: 0 <= k < |f| ==> IsDigit(f[k])
    ensures DigitsValue(w + f) == DigitsValue(w) * Pow10(|f|) + DigitsValue(f)
    decreases |f|
  {
    if f == [] {
      assert w + f == w;
    } else {
      var f' := f[..|f| - 1];
      var d := DigitValue(f[|f| - 1]);
      assert (w + f)[..|w + f| - 1] == w + f';
      assert (w + f)[|w + f| - 1] == f[|f| - 1];
      DigitsValueConcat(w, f');
      assert DigitsValue(w + f) == 10 * DigitsValue(w + f') + d;
      assert DigitsValue(f) == 10 * DigitsValue(f') + d;
      ShiftDigit(DigitsValue(w), Pow10(|f'|), DigitsValue(f'), d);
    }
  }

  /** `String(n)` for a non-negative integer: its decimal digits, no leading zero. */
  function NatToString(n: nat): (s: string)
    ensures |s| >= 1
    ensures forall k :: 0 <= k < |s| ==> IsDigit(s[k])
    ensures |s| > 1 ==> s[0] != '0'
  {
    if n < 10 then [DigitChar(n)] else NatToString(n / 10) + [DigitChar(n % 10)]
  }

  /** Reading the digits back gives the number. */
  lemma {:induction false} NatToStringValue(n: nat)
    ensures DigitsValue(NatToString(n)) == n
  {
    if n >= 10 {
      var s := NatToString(n);
      assert s[..|s| - 1] == NatToString(n / 10);
      NatToStringValue(n / 10);
    }
  }

  /** `String(i)` for any integer: a minus sign before the digits of `|i|`. */
  function IntToString(i: int): (s: string)
    ensures i >= 0 ==> s == NatToString(i)
  {
    if i < 0 then "-" + NatToString(-i) else NatToString(i)
  }

  /** `s.padStart(width, c)`: pad on the left up to `width`, never cut. */
  function PadStart(s: string, width: nat, c: char): (r: string)
    ensures |r| == if |s| >= width then |s| else width
    ensures r[|r| - |s|..] == s
    ensures forall k :: 0 <= k < |r| - |s| ==> r[k] == c
  {
    if |s| >= width then s else seq(width - |s|, _ => c) + s
  }
}
