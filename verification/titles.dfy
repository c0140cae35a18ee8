/** What a JSON reader makes of a printed title. Awks differ in what the replacement of a
    backslash prints: one backslash or two. */
module Titles {
  import opened Records
  import opened Text
  import opened Manifest

  /** The two-character escapes of section 7 of RFC 8259. */
  function Unescaped(ch: char): Option<char> {
    if ch == '"' || ch == '\\' || ch == '/' then Some(ch)
    else if ch == 'b' then Some(8 as char)
    else if ch == 'f' then Some(12 as char)
    else if ch == 'n' then Some('\n')
    else if ch == 'r' then Some('\r')
    else if ch == 't' then Some('\t')
    else None
  }

  function Front(ch: Option<char>, rest: Option<string>): Option<string> {
    if ch.Some? && rest.Some? then Some([ch.value] + rest.value) else None
  }

  /** The string that the body of a JSON string denotes, if it is one. */
  function Unescape(s: string): Option<string> {
    if s == "" then Some("")
    else if s[0] == '"' then None
    else if s[0] != '\\' then Front(Some(s[0]), Unescape(s[1..]))
    else if |s| == 1 then None
    else Front(Unescaped(s[1]), Unescape(s[2..]))
  }

  /** With two backslashes for one, every title reads back as it was. */
  lemma {:induction false} TitleReadsBack(title: string)
    ensures Unescape(Escape("\\\\", title)) == Some(title)
  {
    if title != "" {
      TitleReadsBack(title[1..]);
      OneChar("\\\\", title);
    }
  }

  /** The escape of a first character reads back, if it is not a bare backslash. */
  lemma OneChar(slash: string, title: string)
    requires title != "" && (title[0] == '\\' ==> slash == "\\\\")
    ensures Unescape(Escape(slash, title)) == Front(Some(title[0]), Unescape(Escape(slash, title[1..])))
    ensures title == [title[0]] + title[1..]
  {
    var head, rest := EscapeChar(slash, title[0]), Escape(slash, title[1..]);
    assert Escape(slash, title) == head + rest;
    assert (head + rest)[|head|..] == rest;
  }

  function Backslashes(k: nat): string {
    seq(k, i => '\\')
  }

  /** Backslashes are read in pairs. */
  lemma {:induction false} PairsRead(m: nat, s: string)
    requires Unescape(s).Some?
    ensures Unescape(Backslashes(2 * m) + s) == Some(Backslashes(m) + Unescape(s).value)
  {
    var v := Unescape(s).value;
    if m == 0 {
      assert Backslashes(0) + s == s && Backslashes(0) + v == v;
    } else {
      var t := Backslashes(2 * m) + s;
      assert t[2..] == Backslashes(2 * (m - 1)) + s && t[0] == '\\' && t[1] == '\\';
      PairsRead(m - 1, s);
      assert ['\\'] + (Backslashes(m - 1) + v) == Backslashes(m) + v;
    }
  }

  lemma {:induction false} PairsFail(m: nat, s: string)
    requires Unescape(s).None?
    ensures Unescape(Backslashes(2 * m) + s).None?
  {
    if m == 0 {
      assert Backslashes(0) + s == s;
    } else {
      var t := Backslashes(2 * m) + s;
      assert t[2..] == Backslashes(2 * (m - 1)) + s && t[0] == '\\' && t[1] == '\\';
      PairsFail(m - 1, s);
    }
  }

  /** The backslashes a text begins with. */
  function Leading(s: string): nat {
    if s != "" && s[0] == '\\' then 1 + Leading(s[1..]) else 0
  }

  lemma {:induction false} LeadingSplit(s: string)
    ensures var k := Leading(s);
            k <= |s| && s == Backslashes(k) + s[k..] && (k < |s| ==> s[k] != '\\')
  {
    if s != "" && s[0] == '\\' {
      LeadingSplit(s[1..]);
      var k := Leading(s);
      assert s == ['\\'] + s[1..];
      assert Backslashes(k) == ['\\'] + Backslashes(k - 1);
    }
  }

  lemma {:induction false} RunEscaped(k: nat, s: string)
    ensures Escape("\\", Backslashes(k) + s) == Backslashes(k) + Escape("\\", s)
  {
    var t := Backslashes(k) + s;
    if k > 0 {
      RunEscaped(k - 1, s);
      assert t[0] == '\\' && t[1..] == Backslashes(k - 1) + s;
      assert "\\" + (Backslashes(k - 1) + Escape("\\", s)) == Backslashes(k) + Escape("\\", s);
    } else {
      assert t == s;
    }
  }

  lemma LeadingOf(k: nat, s: string)
    requires s == "" || s[0] != '\\'
    ensures Leading(Backslashes(k) + s) == k
    decreases k
  {
    var t := Backslashes(k) + s;
    if k > 0 {
      assert t[0] == '\\' && t[1..] == Backslashes(k - 1) + s;
      LeadingOf(k - 1, s);
    } else {
      assert t == s;
    }
  }

  /** A run of `k` bare backslashes before `s`, read as pairs, is never a run of `k`. */
  lemma RunIsLost(k: nat, s: string)
    requires k > 0 && (s == "" || s[0] != '\\')
    ensures Unescape(Escape("\\", Backslashes(k) + s)) != Some(Backslashes(k) + s)
  {
    RunEscaped(k, s);
    if k % 2 == 0 { EvenRun(k, k / 2, s); } else { OddRun(k, k / 2, s); }
  }

  lemma EvenRun(k: nat, m: nat, s: string)
    requires k == 2 * m > 0 && (s == "" || s[0] != '\\')
    ensures Unescape(Backslashes(k) + Escape("\\", s)) != Some(Backslashes(k) + s)
  {
    var tail := Escape("\\", s);
    NoBackslashFirst(s);
    hide Unescape, Escape;
    if Unescape(tail).None? {
      PairsFail(m, tail);
    } else {
      PairsRead(m, tail);
      LeadingOf(m, Unescape(tail).value);
      LeadingOf(k, s);
    }
  }

  /** What is read from the escape of a text that begins with no backslash does not either. */
  lemma NoBackslashFirst(s: string)
    requires s == "" || s[0] != '\\'
    ensures var r := Unescape(Escape("\\", s)); r.Some? ==> r.value == "" || r.value[0] != '\\'
  {
    if s != "" { OneChar("\\", s); }
  }

  predicate Special(ch: char) {
    ch == '"' || ch == '\t' || ch == '\r'
  }

  /** A bare backslash before the escape of a text: it takes the backslash of a special
      character's escape for its own second half, or some other character. */
  lemma OddOne(s: string)
    requires s == "" || s[0] != '\\'
    ensures var r := Unescape("\\" + Escape("\\", s));
            r.Some? ==> s != "" && r.value != "" && (if Special(s[0]) then
                          s[0] != '"' && r.value[0] == '\\' && |r.value| > 1 && r.value[1] != s[0] && r.value[1] != '\\'
                        else r.value[0] != '\\')
  {
    var tail := Escape("\\", s);
    var t := "\\" + tail;
    if s == "" {
      assert t == "\\";
    } else {
      var head, rest := EscapeChar("\\", s[0]), Escape("\\", s[1..]);
      assert tail == head + rest;
      if Special(s[0]) {
        assert |head| == 2 && head[0] == '\\' && t[1] == '\\' && t[2..] == [head[1]] + rest;
        assert ([head[1]] + rest)[1..] == rest;
      } else {
        assert head == [s[0]] && t[1] == s[0] && t[2..] == rest;
      }
    }
  }

  lemma OddRun(k: nat, m: nat, s: string)
    requires k == 2 * m + 1 && (s == "" || s[0] != '\\')
    ensures Unescape(Backslashes(k) + Escape("\\", s)) != Some(Backslashes(k) + s)
  {
    var tail := Escape("\\", s);
    OddOne(s);
    hide Unescape, Escape;
    assert Backslashes(k) + tail == Backslashes(2 * m) + ("\\" + tail);
    if Unescape("\\" + tail).None? {
      PairsFail(m, "\\" + tail);
    } else {
      PairsRead(m, "\\" + tail);
      NotSame(k, m, s, Unescape("\\" + tail).value);
    }
  }

  lemma NotSame(k: nat, m: nat, s: string, v: string)
    requires k == 2 * m + 1 && s != "" && v != "" && s[0] != '\\'
    requires v[0] != '\\' || (|v| > 1 && v[1] != s[0] && v[1] != '\\')
    ensures Backslashes(m) + v != Backslashes(k) + s
  {
    var got, title := Backslashes(m) + v, Backslashes(k) + s;
    assert got[m] == v[0] && title[m] == '\\';
    if v[0] == '\\' {
      assert got[m + 1] == v[1] && title[m + 1] == if m == 0 then s[0] else '\\';
    }
  }

  /** With one backslash for one, a title reads back as it was if and only if it holds no
      backslash. */
  lemma {:induction false} BareTitleIff(title: string)
    ensures Unescape(Escape("\\", title)) == Some(title) <==> Free('\\', title)
  {
    if title != "" {
      if title[0] == '\\' {
        LeadingSplit(title);
        var k := Leading(title);
        RunIsLost(k, title[k..]);
      } else {
        BareTitleIff(title[1..]);
        OneChar("\\", title);
      }
    }
  }
}
