/**
 * Strings as the handlers build them: `Array.prototype.join(',')` for field
 * lists and `String(n)` for integers, each beside a reading-back function
 * that shows no information is lost.
 */
module Text {

  /** `xs.join([sep])`. */
  function Join(xs: seq<string>, sep: char): string
  {
    if |xs| == 0 then ""
    else if |xs| == 1 then xs[0]
    else xs[0] + [sep] + Join(xs[1..], sep)
  }

  /** The position of the first `c` in `s`, or `|s|` when there is none. */
  function IndexOf(s: string, c: char): (i: nat)
    ensures i <= |s|
    ensures i < |s| ==> s[i] == c
    ensures forall j :: 0 <= j < i ==> s[j] != c
  {
    if |s| == 0 || s[0] == c then 0
    else
      var i := 1 + IndexOf(s[1..], c);
      assert forall j :: 1 <= j < i ==> s[j] == s[1..][j - 1];
      i
  }

  lemma IndexOfAbsent(s: string, c: char)
    requires c !in s
    ensures IndexOf(s, c) == |s|
  {
  }

  lemma IndexOfFirst(a: string, c: char, b: string)
    requires c !in a
    ensures IndexOf(a + [c] + b, c) == |a|
  {
    var s := a + [c] + b;
    assert s[|a|] == c;
  }

  /** How a server reads a comma-joined list back: the pieces between separators. */
  function Split(s: string, sep: char): (parts: seq<string>)
    ensures |parts| >= 1
    ensures forall k :: 0 <= k < |parts| ==> sep !in parts[k]
    decreases |s|
  {
    var i := IndexOf(s, sep);
    if i == |s| then [s]
    else
      assert forall j :: 0 <= j < i ==> s[..i][j] == s[j];
      [s[..i]] + Split(s[i + 1..], sep)
  }

  lemma JoinCons(x: string, rest: seq<string>, sep: char)
    requires |rest| >= 1
    ensures Join([x] + rest, sep) == x + [sep] + Join(rest, sep)
  {
    assert ([x] + rest)[1..] == rest;
  }

  lemma SplitAt(s: string, sep: char)
    requires IndexOf(s, sep) < |s|
    ensures var i := IndexOf(s, sep); Split(s, sep) == [s[..i]] + Split(s[i + 1..], sep)
  {
  }

  lemma ConcatParts(a: string, c: char, b: string)
    ensures (a + [c] + b)[..|a|] == a && (a + [c] + b)[|a| + 1..] == b
  {
  }

  /** A list of at least one item, none holding the separator, survives joining and splitting. */
  lemma {:induction false} SplitJoin(xs: seq<string>, sep: char)
    requires |xs| >= 1
    requires forall k :: 0 <= k < |xs| ==> sep !in xs[k]
    ensures Split(Join(xs, sep), sep) == xs
    decreases |xs|
  {
    if |xs| == 1 {
      IndexOfAbsent(xs[0], sep);
    } else {
      var head, tail := xs[0], xs[1..];
      var rest := Join(tail, sep);
      assert xs == [head] + tail;
      JoinCons(head, tail, sep);
      IndexOfFirst(head, sep, rest);
      SplitAt(head + [sep] + rest, sep);
      ConcatParts(head, sep, rest);
      SplitJoin(tail, sep);
    }
  }

  /** Every string is the join of its own split. */
  lemma {:induction false} JoinSplit(s: string, sep: char)
    ensures Join(Split(s, sep), sep) == s
    decreases |s|
  {
    var i := IndexOf(s, sep);
    if i < |s| {
      var head, tail := s[..i], s[i + 1..];
      JoinSplit(tail, sep);
      SplitAt(s, sep);
      JoinCons(head, Split(tail, sep), sep);
      assert s[i] == sep;
      SplitAround(s, i);
    } else {
      assert Split(s, sep) == [s];
    }
  }

  lemma SplitAround(s: string, i: nat)
    requires i < |s|
    ensures s == s[..i] + [s[i]] + s[i + 1..]
  {
  }

  /** `s.includes(t)`: `t` occurs in `s` at some position. */
  predicate Contains(s: string, t: string)
    decreases |s|
  {
    |t| <= |s| && (s[..|t|] == t || (|s| > 0 && Contains(s[1..], t)))
  }

  lemma ContainsItself(s: string)
    ensures Contains(s, s)
  {
  }

  /** What occurs in a tail occurs in the whole. */
  lemma ContainsTail(s: string, t: string, i: nat)
    requires i <= |s| && Contains(s[i..], t)
    ensures Contains(s, t)
    decreases i
  {
    if i > 0 {
      assert s[1..][i - 1..] == s[i..];
      ContainsTail(s[1..], t, i - 1);
    }
  }

  /** What occurs in a head occurs in the whole. */
  lemma {:induction false} ContainsHead(a: string, b: string, t: string)
    requires Contains(a, t)
    ensures Contains(a + b, t)
    decreases |a|
  {
    if a[..|t|] != t {
      ContainsHead(a[1..], b, t);
      assert (a + b)[1..] == a[1..] + b;
    } else {
      assert (a + b)[..|t|] == a[..|t|];
    }
  }

  /** A prefix without `c` of a text with a `c` after `a` ends within `a`. */
  lemma PrefixBeforeSeparator(a: string, c: char, b: string, t: string)
    requires c !in t && |t| <= |a| + 1 + |b|
    ensures (a + [c] + b)[..|t|] == t ==> |t| <= |a|
  {
    if |t| > |a| {
      assert (a + [c] + b)[..|t|][|a|] == c;
    }
  }

  /** A text without `c` that occurs around a `c` occurs on one side of it. */
  lemma {:induction false} ContainsAround(a: string, c: char, b: string, t: string)
    requires c !in t
    requires Contains(a + [c] + b, t)
    ensures Contains(a, t) || Contains(b, t)
    decreases |a|
  {
    var s := a + [c] + b;
    if s[..|t|] == t {
      PrefixBeforeSeparator(a, c, b, t);
      assert a[..|t|] == s[..|t|];
    } else if |a| == 0 {
      assert s[1..] == b;
    } else {
      assert s[1..] == a[1..] + [c] + b;
      ContainsAround(a[1..], c, b, t);
    }
  }

  /** Every item occurs in the join. */
  lemma {:induction false} JoinContainsItem(xs: seq<string>, sep: char, k: nat)
    requires k < |xs|
    ensures Contains(Join(xs, sep), xs[k])
    decreases |xs|
  {
    if |xs| == 1 {
      ContainsItself(xs[0]);
    } else {
      var rest := Join(xs[1..], sep);
      assert Join(xs, sep) == xs[0] + ([sep] + rest);
      if k == 0 {
        ContainsItself(xs[0]);
        ContainsHead(xs[0], [sep] + rest, xs[0]);
      } else {
        JoinContainsItem(xs[1..], sep, k - 1);
        assert Join(xs, sep)[|xs[0]| + 1..] == rest;
        ContainsTail(Join(xs, sep), xs[k], |xs[0]| + 1);
      }
    }
  }

  /** A non-empty text without the separator occurs in a join only inside one item. */
  lemma {:induction false} JoinContainsOnlyInItems(xs: seq<string>, sep: char, t: string)
    requires |t| >= 1 && sep !in t
    ensures Contains(Join(xs, sep), t) ==> exists k :: 0 <= k < |xs| && Contains(xs[k], t)
    decreases |xs|
  {
    if |xs| >= 2 && Contains(Join(xs, sep), t) {
      var rest := Join(xs[1..], sep);
      assert Join(xs, sep) == xs[0] + [sep] + rest;
      ContainsAround(xs[0], sep, rest, t);
      if !Contains(xs[0], t) {
        JoinContainsOnlyInItems(xs[1..], sep, t);
        var k :| 0 <= k < |xs[1..]| && Contains(xs[1..][k], t);
        assert xs[k + 1] == xs[1..][k];
      }
    }
  }

  /** Every character of a text that occurs in `s` is a character of `s`. */
  lemma {:induction false} ContainsChars(s: string, t: string, j: nat)
    requires j < |t|
    ensures Contains(s, t) ==> t[j] in s
    decreases |s|
  {
    if Contains(s, t) {
      if s[..|t|] == t {
        assert s[j] == t[j];
      } else {
        ContainsChars(s[1..], t, j);
        assert t[j] in s[1..];
      }
    }
  }

  predicate IsDigit(c: char) { '0' <= c <= '9' }

  predicate AllDigits(s: string) { forall k :: 0 <= k < |s| ==> IsDigit(s[k]) }

  function DigitChar(d: nat): (c: char)
    requires d < 10
    ensures IsDigit(c)
  {
    ('0' as int + d) as char
  }

  function DigitValue(c: char): (d: nat)
    requires IsDigit(c)
    ensures d < 10
  {
    c as int - '0' as int
  }

  /** `String(n)` for a non-negative integer: decimal digits with no leading zero. */
  function NatToString(n: nat): (s: string)
    ensures |s| >= 1 && AllDigits(s)
    ensures s[0] == '0' <==> n == 0
    decreases n
  {
    if n < 10 then [DigitChar(n)]
    else
      var front := NatToString(n / 10);
      var s := front + [DigitChar(n % 10)];
      assert forall k :: 0 <= k < |front| ==> s[k] == front[k];
      s
  }

  /** The value of a string of decimal digits. */
  function ParseNat(s: string): nat
    requires AllDigits(s)
    decreases |s|
  {
    if |s| == 0 then 0
    else
      assert AllDigits(s[..|s| - 1]);
      ParseNat(s[..|s| - 1]) * 10 + DigitValue(s[|s| - 1])
  }

  lemma {:induction false} ParseNatString(n: nat)
    ensures ParseNat(NatToString(n)) == n
    decreases n
  {
    if n >= 10 {
      var s := NatToString(n);
      assert s[..|s| - 1] == NatToString(n / 10);
      ParseNatString(n / 10);
    }
  }

  /** `String(i)` for an integer: a minus sign for negative values, then the digits. */
  function IntToString(i: int): (s: string)
  {
    if i < 0 then "-" + NatToString(-i) else NatToString(i)
  }

  /** The strings `IntToString` can produce: an optional minus sign and at least one digit. */
  predicate IsIntText(s: string) {
    if |s| >= 1 && s[0] == '-' then |s| >= 2 && AllDigits(s[1..]) else |s| >= 1 && AllDigits(s)
  }

  function ParseInt(s: string): int
    requires IsIntText(s)
  {
    if s[0] == '-' then -(ParseNat(s[1..]) as int) else ParseNat(s)
  }

  /** A decimal integer string reads back as the integer it was made from. */
  lemma ParseIntString(i: int)
    ensures IsIntText(IntToString(i))
    ensures ParseInt(IntToString(i)) == i
  {
    if i < 0 {
      var s := IntToString(i);
      assert s[1..] == NatToString(-i);
      ParseNatString(-i);
    } else {
      ParseNatString(i);
    }
  }
}
