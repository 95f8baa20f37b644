/** The pieces of Python's `str` behaviour the bot relies on: `split` on one
    separator character, `join`, `strip`, `isdigit` and `int`, together with
    the round trips between them. */
module Text {

  // ---------------------------------------------------------------- split / join

  lemma ConcatAssoc<T>(a: seq<T>, b: seq<T>, c: seq<T>)
    ensures a + b + c == a + (b + c)
  {
  }

  /** No field contains the separator. */
  predicate FreeOf(fields: seq<string>, sep: char)
  {
    forall i :: 0 <= i < |fields| ==> sep !in fields[i]
  }

  /** The position of the first separator in a string that holds one. */
  function FirstIndex(s: string, sep: char): (i: nat)
    requires sep in s
    ensures i < |s| && s[i] == sep && sep !in s[..i]
  {
    if s[0] == sep then 0
    else
      assert sep in s[1..] by { assert s == [s[0]] + s[1..]; }
      var j := FirstIndex(s[1..], sep);
      assert s[..j + 1] == [s[0]] + s[1..][..j];
      j + 1
  }

  /** `s.split(sep)`: the text up to the first separator, then the fields of
      the rest. Never empty (the empty string gives one empty field), and no
      field contains the separator. */
  function Split(s: string, sep: char): (fields: seq<string>)
    ensures |fields| >= 1
    ensures FreeOf(fields, sep)
    decreases |s|
  {
    if sep !in s then [s]
    else
      var i := FirstIndex(s, sep);
      [s[..i]] + Split(s[i + 1..], sep)
  }

  /** `sep.join(fields)`. */
  function Join(fields: seq<string>, sep: string): string
  {
    if |fields| == 0 then []
    else if |fields| == 1 then fields[0]
    else fields[0] + sep + Join(fields[1..], sep)
  }

  lemma SplitSingleField(a: string, sep: char)
    requires sep !in a
    ensures Split(a, sep) == [a]
  {
  }

  /** In `a + sep + b` the first separator is the first one of `a`, or the
      one added after `a` when `a` has none. */
  lemma FirstIndexAppend(a: string, b: string, sep: char)
    ensures sep in a + [sep] + b
    ensures FirstIndex(a + [sep] + b, sep) == if sep in a then FirstIndex(a, sep) else |a|
  {
    var s := a + [sep] + b;
    assert s[|a|] == sep;
    var k := FirstIndex(s, sep);
    var i := if sep in a then FirstIndex(a, sep) else |a|;
    assert s[i] == sep;
    assert s[..i] == a[..i];
  }

  /** When `a` holds a separator, `a + sep + b` splits first where `a` does. */
  lemma SplitAppendAt(a: string, b: string, sep: char)
    requires sep in a
    ensures var i := FirstIndex(a, sep);
      Split(a + [sep] + b, sep) == [a[..i]] + Split(a[i + 1..] + [sep] + b, sep)
  {
    var s := a + [sep] + b;
    var i := FirstIndex(a, sep);
    FirstIndexAppend(a, b, sep);
    assert s[..i] == a[..i];
    assert s[i + 1..] == a[i + 1..] + [sep] + b;
  }

  /** When `a` holds no separator it is the first field of `a + sep + b`. */
  lemma SplitAppendFree(a: string, b: string, sep: char)
    requires sep !in a
    ensures Split(a + [sep] + b, sep) == [a] + Split(b, sep)
  {
    var s := a + [sep] + b;
    FirstIndexAppend(a, b, sep);
    assert s[..|a|] == a;
    assert s[|a| + 1..] == b;
  }

  /** The inductive step of `SplitAppend`: when `a` holds a separator, the
      property for the rest of `a` after it gives the property for `a`. */
  lemma SplitAppendStep(a: string, b: string, sep: char)
    requires sep in a
    requires var i := FirstIndex(a, sep);
      Split(a[i + 1..] + [sep] + b, sep) == Split(a[i + 1..], sep) + Split(b, sep)
    ensures Split(a + [sep] + b, sep) == Split(a, sep) + Split(b, sep)
  {
    var i := FirstIndex(a, sep);
    SplitAppendAt(a, b, sep);
    assert Split(a, sep) == [a[..i]] + Split(a[i + 1..], sep);
    ConcatAssoc([a[..i]], Split(a[i + 1..], sep), Split(b, sep));
  }

  /** Splitting at a separator splits each side on its own: the fields of
      `a + sep + b` are the fields of `a` followed by the fields of `b`. */
  lemma {:induction false} SplitAppend(a: string, b: string, sep: char)
    ensures Split(a + [sep] + b, sep) == Split(a, sep) + Split(b, sep)
    decreases |a|
  {
    if sep in a {
      var i := FirstIndex(a, sep);
      SplitAppend(a[i + 1..], b, sep);
      SplitAppendStep(a, b, sep);
    } else {
      SplitAppendFree(a, b, sep);
    }
  }

  /** Splitting a join gives the fields back, when none holds the separator. */
  lemma {:induction false} SplitJoin(fields: seq<string>, sep: char)
    requires |fields| >= 1
    requires FreeOf(fields, sep)
    ensures Split(Join(fields, [sep]), sep) == fields
  {
    if |fields| > 1 {
      SplitJoin(fields[1..], sep);
      SplitAppend(fields[0], Join(fields[1..], [sep]), sep);
      assert [fields[0]] + fields[1..] == fields;
    }
  }

  /** Joining a split gives the string back, for every string. */
  lemma {:induction false} JoinSplit(s: string, sep: char)
    ensures Join(Split(s, sep), [sep]) == s
    decreases |s|
  {
    if sep in s {
      var i := FirstIndex(s, sep);
      var rest := Split(s[i + 1..], sep);
      JoinSplit(s[i + 1..], sep);
      assert ([s[..i]] + rest)[1..] == rest;
      assert s[..i] + [sep] + s[i + 1..] == s;
    }
  }

  // ---------------------------------------------------------------- strip

  /** `c.isspace()`: the ASCII controls TAB..CR and FS..US, the space, and the
      Unicode space separators and line/paragraph separators. */
  predicate IsSpace(c: char)
  {
    var n := c as int;
    (9 <= n <= 13) || (28 <= n <= 32) || n == 0x85 || n == 0xA0 || n == 0x1680
    || (0x2000 <= n <= 0x200A) || n == 0x2028 || n == 0x2029 || n == 0x202F
    || n == 0x205F || n == 0x3000
  }

  predicate AllSpace(s: string)
  {
    forall i :: 0 <= i < |s| ==> IsSpace(s[i])
  }

  /** `s.lstrip()`: the suffix left after dropping the leading whitespace. */
  function StripLeft(s: string): (r: string)
    ensures |r| <= |s| && r == s[|s| - |r|..]
    ensures AllSpace(s[..|s| - |r|])
    ensures r == [] || !IsSpace(r[0])
  {
    if s != [] && IsSpace(s[0]) then StripLeft(s[1..]) else s
  }

  /** `s.rstrip()`: the prefix left after dropping the trailing whitespace. */
  function StripRight(s: string): (r: string)
    ensures |r| <= |s| && r == s[..|r|]
    ensures AllSpace(s[|r|..])
    ensures r == [] || !IsSpace(r[|r| - 1])
  {
    if s != [] && IsSpace(s[|s| - 1]) then
      var r := StripRight(s[..|s| - 1]);
      assert s[|r|..] == s[..|s| - 1][|r|..] + [s[|s| - 1]];
      r
    else s
  }

  /** `s.strip()`. */
  function Strip(s: string): string
  {
    StripRight(StripLeft(s))
  }

  lemma {:induction false} StripLeftSpacePrefix(pre: string, s: string)
    requires AllSpace(pre)
    ensures StripLeft(pre + s) == StripLeft(s)
  {
    if pre != [] {
      var t := pre + s;
      assert t[0] == pre[0] && IsSpace(t[0]);
      assert t[1..] == pre[1..] + s;
      assert AllSpace(pre[1..]);
      StripLeftSpacePrefix(pre[1..], s);
    } else {
      assert pre + s == s;
    }
  }

  lemma {:induction false} StripRightSpaceSuffix(s: string, post: string)
    requires AllSpace(post)
    ensures StripRight(s + post) == StripRight(s)
  {
    if post != [] {
      var t := s + post;
      assert t[|t| - 1] == post[|post| - 1] && IsSpace(t[|t| - 1]);
      assert t[..|t| - 1] == s + post[..|post| - 1];
      assert AllSpace(post[..|post| - 1]);
      StripRightSpaceSuffix(s, post[..|post| - 1]);
    } else {
      assert s + post == s;
    }
  }

  lemma StripLeftAllSpace(s: string)
    requires AllSpace(s)
    ensures StripLeft(s) == []
  {
  }

  lemma {:induction false} StripLeftSpaceSuffix(s: string, post: string)
    requires AllSpace(post)
    ensures StripLeft(s + post) == if StripLeft(s) == [] then [] else StripLeft(s) + post
  {
    if s == [] {
      assert s + post == post;
      StripLeftAllSpace(post);
    } else if IsSpace(s[0]) {
      assert (s + post)[0] == s[0] && (s + post)[1..] == s[1..] + post;
      StripLeftSpaceSuffix(s[1..], post);
    } else {
      assert (s + post)[0] == s[0];
    }
  }

  /** Whitespace after a string does not change what `strip` leaves of it. */
  lemma StripTrailingSpace(s: string, post: string)
    requires AllSpace(post)
    ensures StripRight(StripLeft(s + post)) == StripRight(StripLeft(s))
  {
    StripLeftSpaceSuffix(s, post);
    if StripLeft(s) != [] {
      StripRightSpaceSuffix(StripLeft(s), post);
    }
  }

  /** Whitespace around a field does not change what `strip` leaves of it. */
  lemma StripPadded(pre: string, s: string, post: string)
    requires AllSpace(pre) && AllSpace(post)
    ensures Strip(pre + s + post) == Strip(s)
  {
    ConcatAssoc(pre, s, post);
    StripLeftSpacePrefix(pre, s + post);
    StripTrailingSpace(s, post);
  }

  // ---------------------------------------------------------------- digits

  predicate IsDigit(c: char)
  {
    '0' <= c <= '9'
  }

  predicate AllDigits(s: string)
  {
    forall i :: 0 <= i < |s| ==> IsDigit(s[i])
  }

  /** `s.isdigit()` over ASCII digits: false on the empty string. */
  predicate IsDigits(s: string)
  {
    |s| > 0 && AllDigits(s)
  }

  /** `int(s)` for a string of ASCII digits (leading zeros allowed). */
  function DecimalValue(s: string): nat
    requires AllDigits(s)
  {
    if s == [] then 0
    else 10 * DecimalValue(s[..|s| - 1]) + ((s[|s| - 1] as int) - ('0' as int))
  }

  /** `str(n)`: the canonical decimal digits of a natural number, which
      `int` reads back as `n`. */
  function DecimalDigits(n: nat): (s: string)
    ensures IsDigits(s) && DecimalValue(s) == n
    ensures s[0] == '0' ==> s == "0"
  {
    if n < 10 then [(('0' as int) + n) as char]
    else
      var s := DecimalDigits(n / 10) + [(('0' as int) + n % 10) as char];
      assert s[..|s| - 1] == DecimalDigits(n / 10);
      s
  }

  /** A leading zero does not change the value `int` reads. */
  lemma {:induction false} LeadingZeroIgnored(s: string)
    requires AllDigits(s)
    ensures AllDigits("0" + s) && DecimalValue("0" + s) == DecimalValue(s)
  {
    var t := "0" + s;
    if s != [] {
      assert t[..|t| - 1] == "0" + s[..|s| - 1];
      assert t[|t| - 1] == s[|s| - 1];
      LeadingZeroIgnored(s[..|s| - 1]);
    } else {
      assert t[..|t| - 1] == [];
    }
  }
}
