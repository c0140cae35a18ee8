/** Splitting text at a separator, and joining it again. */
module Text {

  /** The pieces between separators; one more than there are separators. */
  function Split(sep: char, s: string): (r: seq<string>)
    ensures |r| >= 1
  {
    if |s| == 0 then [""]
    else
      var rest := Split(sep, s[1..]);
      if s[0] == sep then [""] + rest else [[s[0]] + rest[0]] + rest[1..]
  }

  function Join(sep: char, parts: seq<string>): string {
    if |parts| == 0 then ""
    else if |parts| == 1 then parts[0]
    else parts[0] + [sep] + Join(sep, parts[1..])
  }

  predicate Free(sep: char, s: string) {
    sep !in s
  }

  predicate AllFree(sep: char, parts: seq<string>) {
    forall i :: 0 <= i < |parts| ==> Free(sep, parts[i])
  }

  lemma {:induction false} SplitFree(sep: char, s: string)
    ensures AllFree(sep, Split(sep, s))
  {
    if |s| > 0 {
      SplitFree(sep, s[1..]);
      var rest := Split(sep, s[1..]);
      if s[0] != sep { assert Free(sep, [s[0]] + rest[0]); }
    }
  }

  /** A piece without separators is prepended to the first piece. */
  lemma {:induction false} SplitPrefix(sep: char, p: string, s: string)
    requires Free(sep, p)
    ensures Split(sep, p + s) == [p + Split(sep, s)[0]] + Split(sep, s)[1..]
  {
    if |p| == 0 {
      assert p + s == s && p + Split(sep, s)[0] == Split(sep, s)[0];
    } else {
      assert (p + s)[1..] == p[1..] + s;
      SplitPrefix(sep, p[1..], s);
      assert [p[0]] + (p[1..] + Split(sep, s)[0]) == p + Split(sep, s)[0];
    }
  }

  lemma {:induction false} SplitJoin(sep: char, parts: seq<string>)
    requires |parts| >= 1 && AllFree(sep, parts)
    ensures Split(sep, Join(sep, parts)) == parts
  {
    if |parts| == 1 {
      SplitPrefix(sep, parts[0], "");
      assert parts[0] + "" == parts[0];
    } else {
      var rest := Join(sep, parts[1..]);
      SplitJoin(sep, parts[1..]);
      SplitPrefix(sep, parts[0], [sep] + rest);
      assert ([sep] + rest)[1..] == rest;
      assert parts[0] + [sep] + rest == parts[0] + ([sep] + rest);
      assert parts[0] + "" == parts[0];
    }
  }

  lemma {:induction false} JoinSplit(sep: char, s: string)
    ensures Join(sep, Split(sep, s)) == s
  {
    if |s| > 0 {
      JoinSplit(sep, s[1..]);
      var rest := Split(sep, s[1..]);
      if s[0] != sep {
        assert Split(sep, s)[1..] == rest[1..];
      } else {
        assert Split(sep, s)[1..] == rest;
      }
      assert s == [s[0]] + s[1..];
    }
  }

  /** Splitting at a separator that is known to be there. */
  lemma {:induction false} SplitAt(sep: char, a: string, b: string)
    ensures Split(sep, a + [sep] + b) == Split(sep, a) + Split(sep, b)
  {
    if |a| == 0 {
      assert a + [sep] + b == [sep] + b;
      assert ([sep] + b)[1..] == b;
    } else {
      assert (a + [sep] + b)[1..] == a[1..] + [sep] + b;
      SplitAt(sep, a[1..], b);
    }
  }

  lemma {:induction false} JoinAppend(sep: char, xs: seq<string>, ys: seq<string>)
    requires |xs| >= 1 && |ys| >= 1
    ensures Join(sep, xs + ys) == Join(sep, xs) + [sep] + Join(sep, ys)
  {
    if |xs| == 1 {
      assert (xs + ys)[1..] == ys;
    } else {
      assert (xs + ys)[1..] == xs[1..] + ys;
      JoinAppend(sep, xs[1..], ys);
    }
  }

  // ------------------------------------------------------------------------ numbers

  function Decimal(n: nat): (s: string)
    ensures |s| >= 1 && forall i :: 0 <= i < |s| ==> '0' <= s[i] <= '9'
  {
    var digit := ['0' + (n % 10) as char];
    if n < 10 then digit else Decimal(n / 10) + digit
  }

  function NumberOf(digits: string): int {
    if digits == "" then 0 else NumberOf(digits[..|digits| - 1]) * 10 + (digits[|digits| - 1] as int - '0' as int)
  }

  lemma {:induction false} DecimalNumber(n: nat)
    ensures NumberOf(Decimal(n)) == n
  {
    if n >= 10 {
      DecimalNumber(n / 10);
      assert Decimal(n)[..|Decimal(n)| - 1] == Decimal(n / 10);
    }
  }
}
