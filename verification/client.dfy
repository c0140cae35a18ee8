/** The shell client around the manifest: the arrays that discovery fills, the file that
    is printed from them, and the walk over the rows that are read back. */
module Client {
  import opened Records
  import opened Text
  import opened Manifest
  import FsBlob
  import Ids

  // ------------------------------------------------------------------- lines of text

  lemma {:induction false} UnlinesAppend(lines: seq<string>, line: string)
    ensures Unlines(lines + [line]) == Unlines(lines) + line + "\n"
  {
    if |lines| == 0 {
      assert lines + [line] == [line] && [line][1..] == [];
      assert Unlines([line]) == line + "\n" + "" == line + "\n";
    } else {
      assert (lines + [line])[1..] == lines[1..] + [line];
      UnlinesAppend(lines[1..], line);
      var l0, rest := lines[0] + "\n", Unlines(lines[1..]);
      assert l0 + (rest + line + "\n") == l0 + rest + line + "\n";
    }
  }

  lemma {:induction false} SplitUnlines(lines: seq<string>)
    requires AllFree('\n', lines)
    ensures Split('\n', Unlines(lines)) == lines + [""]
  {
    if |lines| > 0 {
      SplitUnlines(lines[1..]);
      var rest := Unlines(lines[1..]);
      assert Unlines(lines) == lines[0] + ['\n'] + rest;
      SplitAt('\n', lines[0], rest);
      SplitPrefix('\n', lines[0], "");
      assert lines[0] + "" == lines[0] && Split('\n', lines[0]) == [lines[0]];
    }
  }

  lemma LinesBack(lines: seq<string>)
    requires AllFree('\n', lines)
    ensures LinesOf(Unlines(lines)) == lines
  {
    SplitUnlines(lines);
  }

  lemma {:induction false} QuotedFree(ch: char, ws: seq<Word>)
    requires ch != '"' && forall i :: 0 <= i < |ws| ==> Free(ch, ws[i].text) && Free(ch, ws[i].gap)
    ensures Free(ch, Quoted(ws))
  {
    if |ws| > 0 { QuotedFree(ch, ws[1..]); }
  }

  /** What `date` prints. */
  predicate IsStamp(created: string) {
    |created| > 0 && '0' <= created[0] <= '9' && Free('"', created) && Free('\n', created)
  }

  predicate IsSlash(slash: string) {
    slash == "\\" || slash == "\\\\"
  }

  /** A word that is no key, in a gap that is none, on one line. */
  predicate Dull(w: Word) {
    && Free('"', w.text) && Free('"', w.gap) && Free('\n', w.text) && Free('\n', w.gap)
    && !IsKey(w.text) && !IsKey(w.gap)
  }

  predicate AllDull(ws: seq<Word>) {
    forall i :: 0 <= i < |ws| ==> Dull(ws[i])
  }

  predicate DullLine(line: string) {
    Silent(line) && Free('\n', line)
  }

  lemma DullWords(a: string, ws: seq<Word>)
    requires AllDull(ws) && Free('"', a) && Free('\n', a)
    ensures DullLine(a + Quoted(ws))
  {
    hide Silent, Quoted, IsKey;
    WordsAreSilent(a, ws);
    QuotedFree('\n', ws);
  }

  lemma {:induction false} DefaultIdsAreSems(ps: seq<Part>)
    requires ArePartsFrom(ps)
    ensures forall i :: 0 <= i < |DefaultIds(ps)| ==> IsSem(DefaultIds(ps)[i])
  {
    if |ps| > 0 {
      DefaultIdsAreSems(ps[..|ps| - 1]);
      assert IsPart(ps[|ps| - 1], |ps|);
    }
  }

  /** The printed list as words. */
  function CommaWords(ids: seq<string>, end: string): seq<Word> {
    seq(|ids|, i requires 0 <= i < |ids| => Word(ids[i], if i < |ids| - 1 then ", " else end))
  }

  lemma {:induction false} QuotedAppend(a: seq<Word>, b: seq<Word>)
    ensures Quoted(a + b) == Quoted(a) + Quoted(b)
  {
    if |a| == 0 {
      assert a + b == b;
    } else {
      assert (a + b)[1..] == a[1..] + b;
      QuotedAppend(a[1..], b);
      var w := "\"" + a[0].text + "\"" + a[0].gap;
      assert w + (Quoted(a[1..]) + Quoted(b)) == w + Quoted(a[1..]) + Quoted(b);
    }
  }

  lemma OneWord(w: Word)
    ensures Quoted([w]) == "\"" + w.text + "\"" + w.gap
  {
    assert Quoted([w]) == "\"" + w.text + "\"" + w.gap + "";
  }

  lemma {:induction false} ListIsWords(ids: seq<string>, end: string)
    requires |ids| > 0
    ensures QuotedList(ids) + end == Quoted(CommaWords(ids, end))
  {
    var n := |ids| - 1;
    var last := Word(ids[n], end);
    OneWord(last);
    if n == 0 {
      assert CommaWords(ids, end) == [last];
    } else {
      ListIsWords(ids[..n], ", ");
      assert CommaWords(ids, end) == CommaWords(ids[..n], ", ") + [last];
      QuotedAppend(CommaWords(ids[..n], ", "), [last]);
      ListStep(QuotedList(ids[..n]), "\"" + ids[n] + "\"", end);
    }
  }

  lemma ListStep(most: string, last: string, end: string)
    ensures most + (", " + last) + end == (most + ", ") + (last + end)
  {
  }

  lemma DefaultWordsAreDull(ps: seq<Part>)
    requires ArePartsFrom(ps)
    ensures AllDull(CommaWords(DefaultIds(ps), "] },"))
  {
    DefaultIdsAreSems(ps);
    var ids := DefaultIds(ps);
    var ws := CommaWords(ids, "] },");
    hide DefaultIds;
    forall i | 0 <= i < |ws| ensures Dull(ws[i]) {
      assert IsSem(ids[i]) && ws[i].text == ids[i];
      assert ws[i].gap == ", " || ws[i].gap == "] },";
    }
  }

  // The fixed words and gaps, one fact at a time: scanning literals is costly together.

  lemma LongWordsHaveNo(ch: char)
    requires ch == '"' || ch == '\n'
    ensures Free(ch, "raw_transcript_included") && Free(ch, "secrets_included") && Free(ch, "archcore-send-skill")
  {
  }

  lemma WordsHaveNo(ch: char)
    requires ch == '"' || ch == '\n'
    ensures Free(ch, "version") && Free(ch, "send.v1") && Free(ch, "created_at") && Free(ch, "source")
        && Free(ch, "agent")
    ensures Free(ch, "policy") && Free(ch, "parts")
  {
  }

  lemma PartKeysHaveNo(ch: char)
    requires ch == '"' || ch == '\n'
    ensures Free(ch, "id") && Free(ch, "transport_id") && Free(ch, "kind") && Free(ch, "required")
    ensures Free(ch, "load_by_default") && Free(ch, "plaintext_size") && Free(ch, "default_load")
  {
  }

  lemma GapsHaveNo(ch: char)
    requires ch == '"' || ch == '\n'
    ensures Free(ch, ",") && Free(ch, ":") && Free(ch, ": ") && Free(ch, ", ") && Free(ch, ": [") && Free(ch, ": { ")
        && Free(ch, " },")
    ensures Free(ch, "] },") && Free(ch, ": [] },") && Free(ch, ": false, ")
  {
  }

  lemma NotKeys()
    ensures !IsKey("raw_transcript_included") && !IsKey("secrets_included") && !IsKey("archcore-send-skill")
    ensures !IsKey("version") && !IsKey("send.v1") && !IsKey("created_at") && !IsKey("source") && !IsKey("agent")
    ensures !IsKey("policy") && !IsKey("parts") && !IsKey("default_load")
  {
  }

  lemma GapsAreNotKeys()
    ensures !IsKey(",") && !IsKey(": ") && !IsKey(", ") && !IsKey(": [") && !IsKey(": { ") && !IsKey(" },")
    ensures !IsKey("] },") && !IsKey(": [] },") && !IsKey(": false, ")
  {
    assert ": "[0] == ':' && ", "[0] == ',' && ": { "[0] == ':' && "] },"[0] == ']';
  }

  lemma FixedWordsAreDull()
    ensures Dull(Word("version", ": ")) && Dull(Word("send.v1", ",")) && Dull(Word("parts", ": ["))
    ensures Dull(Word("source", ": { ")) && Dull(Word("agent", ": ")) && Dull(Word("archcore-send-skill", " },"))
    ensures Dull(Word("policy", ": { ")) && Dull(Word("raw_transcript_included", ": false, "))
    ensures Dull(Word("secrets_included", ": false, ")) && Dull(Word("created_at", ": "))
    ensures Dull(Word("default_load", ": [")) && Dull(Word("default_load", ": [] },"))
  {
    hide Free, IsKey;
    LongWordsHaveNo('"');
    LongWordsHaveNo('\n');
    WordsHaveNo('"');
    WordsHaveNo('\n');
    PartKeysHaveNo('"');
    PartKeysHaveNo('\n');
    GapsHaveNo('"');
    GapsHaveNo('\n');
    NotKeys();
    GapsAreNotKeys();
  }

  lemma PolicyIsDull(ps: seq<Part>)
    requires ArePartsFrom(ps)
    ensures DullLine(PolicyLine(ps))
  {
    FixedWordsAreDull();
    DefaultWordsAreDull(ps);
    PolicyIsWords(DefaultIds(ps));
    hide Dull, DullLine, Quoted, CommaWords, DefaultIds, QuotedList, Free;
    DullWords("  ", PolicyWords(DefaultIds(ps)));
  }

  function PolicyWords(ids: seq<string>): seq<Word> {
    if |ids| == 0 then POLICY[..3] + [Word("default_load", ": [] },")] else POLICY + CommaWords(ids, "] },")
  }

  lemma PolicyIsWords(ids: seq<string>)
    ensures "  " + Quoted(POLICY) + QuotedList(ids) + "] }," == "  " + Quoted(PolicyWords(ids))
  {
    if |ids| == 0 {
      assert POLICY == POLICY[..3] + [POLICY[3]];
      QuotedAppend(POLICY[..3], [POLICY[3]]);
      QuotedAppend(POLICY[..3], [Word("default_load", ": [] },")]);
      OneWord(POLICY[3]);
      OneWord(Word("default_load", ": [] },"));
      hide Quoted;
      assert ": [] }," == ": [" + "] },";
    } else {
      QuotedAppend(POLICY, CommaWords(ids, "] },"));
      ListIsWords(ids, "] },");
      hide Quoted, QuotedList, CommaWords;
    }
  }

  lemma VersionAndPartsAreDull()
    ensures DullLine("  " + Quoted([Word("version", ": "), Word("send.v1", ",")]))
    ensures DullLine("  " + Quoted([Word("parts", ": [")]))
  {
    FixedWordsAreDull();
    hide Dull, DullLine, Quoted;
    DullWords("  ", [Word("version", ": "), Word("send.v1", ",")]);
    DullWords("  ", [Word("parts", ": [")]);
  }

  lemma CreatedIsDull(created: string)
    requires IsStamp(created)
    ensures DullLine("  " + Quoted([Word("created_at", ": "), Word(created, ",")]))
  {
    FixedWordsAreDull();
    GapsHaveNo('"');
    GapsHaveNo('\n');
    GapsAreNotKeys();
    hide Dull, DullLine, Quoted;
    DullWords("  ", [Word("created_at", ": "), Word(created, ",")]);
  }

  lemma SourceIsDull()
    ensures DullLine("  " + Quoted([Word("source", ": { "), Word("agent", ": "), Word("archcore-send-skill", " },")]))
  {
    FixedWordsAreDull();
    hide Dull, DullLine, Quoted;
    DullWords("  ", [Word("source", ": { "), Word("agent", ": "), Word("archcore-send-skill", " },")]);
  }

  lemma BracesAreDull()
    ensures DullLine("{") && DullLine("  ]") && DullLine("}")
  {
    assert Quoted([]) == "" && "{" + "" == "{" && "  ]" + "" == "  ]" && "}" + "" == "}";
    hide DullLine;
    DullWords("{", []);
    DullWords("  ]", []);
    DullWords("}", []);
  }

  lemma TitleIsDull(slash: string, title: string)
    requires IsSlash(slash) && Free('\n', title)
    ensures DullLine(TitleLine(slash, title))
  {
    EscapedQuotes(slash, title);
    TitleIsSilent(slash, title);
    hide Silent, Escape;
  }

  /** No line before the parts, whatever the title, reads as a part. */
  lemma HeaderIsDull(slash: string, title: string, created: string, ps: seq<Part>)
    requires IsSlash(slash) && IsStamp(created) && ArePartsFrom(ps) && Free('\n', title)
    ensures forall i :: 0 <= i < 7 ==> DullLine(Header(slash, title, created, ps)[i])
  {
    hide DullLine, Quoted, PolicyLine, TitleLine;
    BracesAreDull();
    VersionAndPartsAreDull();
    CreatedIsDull(created);
    SourceIsDull();
    TitleIsDull(slash, title);
    PolicyIsDull(ps);
  }

  lemma FirstWord(ws: seq<Word>, piece: string)
    requires |ws| > 0 && piece == "\"" + ws[0].text + "\"" + ws[0].gap
    ensures Quoted(ws) == piece + Quoted(ws[1..])
    ensures |ws| == 1 ==> Quoted(ws) == piece
  {
    if |ws| == 1 { assert piece + "" == piece; }
  }

  lemma WordsText(ws: seq<Word>, first: string, more: seq<Word>)
    requires |ws| > 0 && first == "\"" + ws[0].text + "\"" + ws[0].gap && ws[1..] == more
    ensures Quoted(ws) == if more == [] then first else first + Quoted(more)
  {
    FirstWord(ws, first);
  }

  /** The text of the lines before the parts, piece by piece. */
  lemma HeaderText(slash: string, title: string, created: string, ps: seq<Part>)
    ensures var head := Header(slash, title, created, ps);
            && |head| == 7 && head[0] == "{"
            && head[1] == "  " + ("\"version\": " + "\"send.v1\",")
            && head[2] == "  \"title\": \"" + Escape(slash, title) + "\","
            && head[3] == "  " + ("\"created_at\": " + ("\"" + created + "\"" + ","))
            && head[4] == "  " + ("\"source\": { " + ("\"agent\": " + "\"archcore-send-skill\" },"))
            && head[5] == "  " + ("\"policy\": { " + ("\"raw_transcript_included\": false, "
                            + ("\"secrets_included\": false, " + "\"default_load\": [")))
                          + QuotedList(DefaultIds(ps)) + "] },"
            && head[6] == "  " + "\"parts\": ["
  {
    hide Quoted, DefaultIds, QuotedList, Escape;
    WordsText([Word("version", ": "), Word("send.v1", ",")], "\"version\": ", [Word("send.v1", ",")]);
    WordsText([Word("send.v1", ",")], "\"send.v1\",", []);
    WordsText([Word("created_at", ": "), Word(created, ",")], "\"created_at\": ", [Word(created, ",")]);
    WordsText([Word(created, ",")], "\"" + created + "\"" + ",", []);
    WordsText([Word("parts", ": [")], "\"parts\": [", []);
    SourceText();
    PolicyText();
  }

  lemma SourceText()
    ensures Quoted([Word("source", ": { "), Word("agent", ": "), Word("archcore-send-skill", " },")]) ==
              "\"source\": { " + ("\"agent\": " + "\"archcore-send-skill\" },")
  {
    hide Quoted;
    var agent, name := Word("agent", ": "), Word("archcore-send-skill", " },");
    WordsText([Word("source", ": { "), agent, name], "\"source\": { ", [agent, name]);
    WordsText([agent, name], "\"agent\": ", [name]);
    WordsText([name], "\"archcore-send-skill\" },", []);
  }

  lemma PolicyText()
    ensures Quoted(POLICY) ==
              "\"policy\": { " + ("\"raw_transcript_included\": false, "
                + ("\"secrets_included\": false, " + "\"default_load\": ["))
  {
    hide Quoted;
    var raw, secrets := Word("raw_transcript_included", ": false, "), Word("secrets_included", ": false, ");
    var list := Word("default_load", ": [");
    WordsText(POLICY, "\"policy\": { ", [raw, secrets, list]);
    RestOfPolicy(raw, secrets, list);
    hide POLICY;
  }

  lemma RestOfPolicy(raw: Word, secrets: Word, list: Word)
    requires raw == Word("raw_transcript_included", ": false, ")
    requires secrets == Word("secrets_included", ": false, ") && list == Word("default_load", ": [")
    ensures Quoted([raw, secrets, list]) ==
              "\"raw_transcript_included\": false, " + ("\"secrets_included\": false, " + "\"default_load\": [")
  {
    hide Quoted;
    WordsText([list], "\"default_load\": [", []);
    assert [secrets, list][1..] == [list];
    EndOfPolicy(secrets, list);
    WordsText([raw, secrets, list], "\"raw_transcript_included\": false, ", [secrets, list]);
  }

  lemma EndOfPolicy(secrets: Word, list: Word)
    requires secrets == Word("secrets_included", ": false, ") && list == Word("default_load", ": [")
    ensures Quoted([secrets, list]) == "\"secrets_included\": false, " + Quoted([list])
  {
    hide Quoted;
    WordsText([secrets, list], "\"secrets_included\": false, ", [list]);
  }

  lemma PartIsLine(ps: seq<Part>, i: nat)
    requires i < |ps| && IsPart(ps[i], i + 1)
    ensures Free('\n', PartLine(ps, i))
  {
    var p, end := ps[i], if i < |ps| - 1 then "," else "";
    var ws := PartWords(p, end);
    TransportIdNumber(i + 1);
    GapsAreLines(p, end);
    assert Free('\n', p.kind) by { KindIsLine(p.kind); }
    PartKeysHaveNo('\n');
    GapsHaveNo('\n');
    assert Free('\n', "    {");
    hide TransportId, NumberOf, Quoted, Decimal, Free, IsKind;
    QuotedFree('\n', ws);
    FreeBoth('\n', "    {", Quoted(ws));
  }

  lemma FreeBoth(ch: char, a: string, b: string)
    requires Free(ch, a) && Free(ch, b)
    ensures Free(ch, a + b)
  {
  }

  lemma KindIsLine(kind: string)
    requires IsKind(kind)
    ensures Free('\n', kind)
  {
  }

  lemma GapsAreLines(p: Part, end: string)
    requires Free('\n', end)
    ensures Free('\n', ":" + Flag(p.required) + ",") && Free('\n', ":" + Flag(p.lbd) + ",")
    ensures Free('\n', ":" + Decimal(p.size) + "}" + end)
  {
    assert Free('\n', Decimal(p.size));
    assert Free('\n', ":" + Decimal(p.size));
  }

  // ---------------------------------------------------------------------- round trip

  lemma KeptAppend(lines: seq<string>, line: string)
    ensures Silent(line) ==> Kept(RowsOf(lines + [line])) == Kept(RowsOf(lines))
    ensures Contains(line, "\"transport_id\"") && ReadFields(RowOf(line)).tid != "" ==>
              Kept(RowsOf(lines + [line])) == Kept(RowsOf(lines)) + [ReadFields(RowOf(line))]
  {
    assert (lines + [line])[..|lines|] == lines;
    var rows, row := RowsOf(lines), RowOf(line);
    assert (rows + [row])[..|rows|] == rows;
    if Silent(line) { SilentIsSkipped(line); }
  }

  lemma {:induction false} SilentLinesAreSkipped(lines: seq<string>, more: seq<string>)
    requires forall i :: 0 <= i < |more| ==> Silent(more[i])
    ensures Kept(RowsOf(lines + more)) == Kept(RowsOf(lines))
  {
    hide Silent, RowsOf, Kept, ReadFields, Contains;
    if |more| == 0 {
      assert lines + more == lines;
    } else {
      var most := more[..|more| - 1];
      SilentLinesAreSkipped(lines, most);
      assert lines + more == (lines + most) + [more[|more| - 1]];
      KeptAppend(lines + most, more[|more| - 1]);
    }
  }

  function AllFields(ps: seq<Part>, n: nat): seq<Fields>
    requires n <= |ps|
  {
    seq(n, i requires 0 <= i < n => FieldsOf(ps[i]))
  }

  lemma {:induction false} PartLinesReadBack(lines: seq<string>, ps: seq<Part>, n: nat)
    requires n <= |ps| && ArePartsFrom(ps)
    ensures Kept(RowsOf(lines + PartLines(ps, n))) == Kept(RowsOf(lines)) + AllFields(ps, n)
  {
    hide Silent, RowsOf, Kept, ReadFields, Contains, PartLine;
    if n == 0 {
      assert lines + PartLines(ps, 0) == lines;
    } else {
      PartLinesReadBack(lines, ps, n - 1);
      var line := PartLine(ps, n - 1);
      assert lines + PartLines(ps, n) == (lines + PartLines(ps, n - 1)) + [line];
      assert IsPart(ps[n - 1], n);
      PartRow(ps, n - 1);
      TidIsNotEmpty(n);
      KeptAppend(lines + PartLines(ps, n - 1), line);
      assert AllFields(ps, n) == AllFields(ps, n - 1) + [FieldsOf(ps[n - 1])];
    }
  }

  lemma TidIsNotEmpty(n: nat)
    ensures TransportId(n) != ""
  {
  }

  /** Reading the printed manifest gives back every part's transport id, semantic id, kind
      and load flag, in order and nothing else, whatever the title says, for any part list
      whose semantic ids hold no quote, tab or newline. */
  lemma RoundTrip(slash: string, title: string, created: string, ps: seq<Part>)
    requires IsSlash(slash) && IsStamp(created) && ArePartsFrom(ps) && Free('\n', title)
    ensures var text := Unlines(ManifestLines(slash, title, created, ps));
            Kept(RowsOf(LinesOf(text))) == AllFields(ps, |ps|)
  {
    hide *;
    ManifestIsLines(slash, title, created, ps);
    AroundIsSilent(slash, title, created, ps);
    AroundTheParts(slash, title, created, ps);
    SilentAround(Header(slash, title, created, ps), ["  ]", "}"], ps);
  }

  lemma AroundTheParts(slash: string, title: string, created: string, ps: seq<Part>)
    ensures ManifestLines(slash, title, created, ps) ==
        Header(slash, title, created, ps) + PartLines(ps, |ps|) + ["  ]", "}"]
  {
    hide Header, PartLines;
  }

  lemma SilentAround(head: seq<string>, tail: seq<string>, ps: seq<Part>)
    requires ArePartsFrom(ps) && AllFree('\n', head + PartLines(ps, |ps|) + tail)
    requires forall i :: 0 <= i < |head| ==> Silent(head[i])
    requires forall i :: 0 <= i < |tail| ==> Silent(tail[i])
    ensures Kept(RowsOf(LinesOf(Unlines(head + PartLines(ps, |ps|) + tail)))) == AllFields(ps, |ps|)
  {
    hide *;
    LinesBack(head + PartLines(ps, |ps|) + tail);
    assert [] + head == head;
    SilentLinesAreSkipped([], head);
    PartLinesReadBack(head, ps, |ps|);
    SilentLinesAreSkipped(head + PartLines(ps, |ps|), tail);
    NothingKept();
    assert [] + AllFields(ps, |ps|) == AllFields(ps, |ps|);
  }

  lemma AroundIsSilent(slash: string, title: string, created: string, ps: seq<Part>)
    requires IsSlash(slash) && IsStamp(created) && ArePartsFrom(ps) && Free('\n', title)
    ensures forall i :: 0 <= i < |Header(slash, title, created, ps)| ==> Silent(Header(slash, title, created, ps)[i])
    ensures Silent("  ]") && Silent("}")
  {
    HeaderIsDull(slash, title, created, ps);
    BracesAreDull();
    assert |Header(slash, title, created, ps)| == 7;
    hide Header, Silent;
  }

  lemma ManifestIsLines(slash: string, title: string, created: string, ps: seq<Part>)
    requires IsSlash(slash) && IsStamp(created) && ArePartsFrom(ps) && Free('\n', title)
    ensures AllFree('\n', ManifestLines(slash, title, created, ps))
  {
    var head, lines := Header(slash, title, created, ps), ManifestLines(slash, title, created, ps);
    HeaderIsDull(slash, title, created, ps);
    BracesAreDull();
    assert |head| == 7;
    hide Header, Silent, PartLine, Free;
    forall i | 0 <= i < |lines| ensures Free('\n', lines[i]) {
      if 7 <= i < 7 + |ps| {
        assert IsPart(ps[i - 7], i - 6) && lines[i] == PartLine(ps, i - 7);
        PartIsLine(ps, i - 7);
      } else if i < 7 {
        assert lines[i] == head[i];
      }
    }
  }

  lemma NothingKept()
    ensures Kept(RowsOf([])) == []
  {
  }

  // ------------------------------------------------------- nothing else can be read back

  lemma {:induction false} SkippedIsFree(ch: char, s: string)
    requires Free(ch, s)
    ensures Free(ch, SkipSpace(s))
  {
    if s != "" && IsSpace(s[0]) { SkippedIsFree(ch, s[1..]); }
  }

  lemma {:induction false} UntilQuoteFree(ch: char, s: string)
    requires UntilQuote(s).Some? && (ch == '"' || Free(ch, s))
    ensures Free(ch, UntilQuote(s).value)
  {
    if s[0] != '"' { UntilQuoteFree(ch, s[1..]); }
  }

  lemma ValueFree(sort: Sort, ch: char, s: string)
    requires Value(sort, s).Some? && (ch == '"' || (ch == '\n' && Free(ch, s)))
    ensures Free(ch, Value(sort, s).value)
  {
    if ch == '\n' {
      SkippedIsFree(ch, s);
      SkippedIsFree(ch, SkipSpace(s)[1..]);
    }
    if sort.Str? { UntilQuoteFree(ch, SkipSpace(SkipSpace(s)[1..])[1..]); }
  }

  lemma {:induction false} FieldFree(sort: Sort, key: string, ch: char, s: string)
    requires ch == '"' || (ch == '\n' && Free(ch, s))
    ensures Free(ch, OrEmpty(Field(sort, key, s)))
  {
    hide Value;
    if s != "" {
      FieldFree(sort, key, ch, s[1..]);
      var quoted := "\"" + key + "\"";
      if quoted <= s && Value(sort, s[|quoted|..]).Some? { ValueFree(sort, ch, s[|quoted|..]); }
    }
  }

  lemma RowFree(ch: char, line: string)
    requires ch == '"' || (ch == '\n' && Free(ch, line))
    ensures Free(ch, RowOf(line))
  {
    FieldFree(Str, "transport_id", ch, line);
    FieldFree(Str, "id", ch, line);
    FieldFree(Str, "kind", ch, line);
    FieldFree(Bool, "load_by_default", ch, line);
    hide Field;
  }

  lemma {:induction false} TabPieces(ch: char, s: string)
    requires Free(ch, s)
    ensures Free(ch, DropTabs(s)) && Free(ch, AfterTab(s)) && Free(ch, UpToTab(s))
  {
    if s != "" { TabPieces(ch, s[1..]); }
  }

  lemma {:induction false} UpToTabHasNone(s: string)
    ensures Free('\t', UpToTab(s))
  {
    if s != "" && s[0] != '\t' { UpToTabHasNone(s[1..]); }
  }

  /** No row of a file can carry a semantic id that is not plain. */
  lemma ReadIsPlain(line: string)
    requires Free('\n', line)
    ensures Plain(ReadFields(RowOf(line)).sid)
  {
    RowFree('"', line);
    RowFree('\n', line);
    var row := RowOf(line);
    hide RowOf;
    TabPieces('"', row);
    TabPieces('\n', row);
    TabPieces('"', DropTabs(row));
    TabPieces('\n', DropTabs(row));
    TabPieces('"', AfterTab(DropTabs(row)));
    TabPieces('\n', AfterTab(DropTabs(row)));
    UpToTabHasNone(AfterTab(DropTabs(row)));
  }

  lemma {:induction false} KeptIsPlain(lines: seq<string>)
    requires AllFree('\n', lines)
    ensures forall i :: 0 <= i < |Kept(RowsOf(lines))| ==> Plain(Kept(RowsOf(lines))[i].sid)
  {
    hide Contains, ReadFields, RowOf, Plain;
    if |lines| > 0 {
      var most, last := lines[..|lines| - 1], lines[|lines| - 1];
      KeptIsPlain(most);
      ReadIsPlain(last);
      var rows := RowsOf(most);
      assert (rows + [RowOf(last)])[..|rows|] == rows;
    }
  }

  /** The round trip holds if and only if no semantic id holds a quote, a tab or a newline,
      for whatever the working directory contains and whatever the title says. */
  lemma RoundTripIff(slash: string, title: string, created: string, wd: Workdir)
    requires IsSlash(slash) && IsStamp(created) && wd.compact.Some? && Free('\n', title)
    ensures var ps := Discovered(wd);
            Kept(RowsOf(LinesOf(Unlines(ManifestLines(slash, title, created, ps))))) == AllFields(ps, |ps|)
            <==> PlainSems(ps)
    ensures PlainNames(wd) ==> PlainSems(Discovered(wd))
  {
    var ps := Discovered(wd);
    DiscoveredShaped(wd);
    if PlainNames(wd) { DiscoveredPlain(wd); }
    var text := Unlines(ManifestLines(slash, title, created, ps));
    hide Discovered, ManifestLines, Unlines, Kept, RowsOf, Plain, IsShaped;
    if PlainSems(ps) { RoundTrip(slash, title, created, ps); }
    if Kept(RowsOf(LinesOf(text))) == AllFields(ps, |ps|) {
      SplitFree('\n', text);
      KeptIsPlain(LinesOf(text));
      forall i | 0 <= i < |ps| ensures Plain(ps[i].sem) {
        assert AllFields(ps, |ps|)[i].sid == ps[i].sem;
      }
    }
  }

  /** What one upload declares: distinct part ids, all of them keys that the blob store
      keeps apart and lists back as themselves. */
  lemma UploadsAreCanonical(wd: Workdir, i: nat)
    requires wd.compact.Some? && i < |UploadIds(Discovered(wd))|
    ensures FsBlob.Canonical(UploadIds(Discovered(wd))[i])
  {
    DiscoveredShaped(wd);
    var ps := Discovered(wd);
    hide Discovered, TransportId, NumberOf;
    if i == 0 {
      assert UploadIds(ps)[0] == "manifest";
      OneElement("manifest");
    } else {
      assert IsShaped(ps[i - 1], i);
      TransportIdNumber(i);
      OneElement(ps[i - 1].tid);
    }
  }

  /** The storage keys of an upload are canonical, whenever and wherever it is created. */
  lemma UploadKeysAreCanonical(wd: Workdir, i: nat, ms: nat, rnd: seq<byte>)
    requires wd.compact.Some? && i < |UploadIds(Discovered(wd))| && |rnd| == 10
    ensures FsBlob.Canonical(StorageKey(Ids.SendId(ms, rnd), UploadIds(Discovered(wd))[i]))
  {
    UploadsAreCanonical(wd, i);
    Ids.IdsAreKeySafe(ms, ms, rnd, rnd);
    var id := Ids.SendId(ms, rnd);
    assert id[0] == 's';
    hide Discovered, UploadIds;
    FsBlob.StorageKeysAreCanonical(id, UploadIds(Discovered(wd))[i]);
  }

  lemma OneElement(id: string)
    requires |id| > 2 && Free('/', id) && Free('.', id)
    ensures FsBlob.Canonical(id)
  {
    SplitPrefix('/', id, "");
    assert id + "" == id && Split('/', id) == [id];
  }

  // ---------------------------------------------------------------- the loading walk

  /** What one load asks the server for and reports: transport ids in the order fetched,
      the one whose text is the compact context, the evidence by semantic id with the
      transport id of its content, and the details that are only listed. */
  datatype Loaded = Loaded(fetched: seq<string>, compact: Option<string>,
                           evidence: seq<(string, string)>, details: seq<(string, string)>)

  function Walk(rows: seq<Fields>): Loaded {
    if |rows| == 0 then Loaded([], None, [], [])
    else
      var r, f := Walk(rows[..|rows| - 1]), rows[|rows| - 1];
      if f.sid == "compact" then r.(fetched := r.fetched + [f.tid], compact := Some(f.tid))
      else if f.lbd == "true" then r.(fetched := r.fetched + [f.tid], evidence := r.evidence + [(f.sid, f.tid)])
      else r.(details := r.details + [(f.sid, f.kind)])
  }

  /** The parts to load eagerly, and the others. */
  function Chosen(ps: seq<Part>, lbd: bool): seq<Part> {
    if |ps| == 0 then []
    else var most, last := Chosen(ps[..|ps| - 1], lbd), ps[|ps| - 1];
         if last.lbd == lbd then most + [last] else most
  }

  function Tids(ps: seq<Part>): seq<string> {
    seq(|ps|, i requires 0 <= i < |ps| => ps[i].tid)
  }

  function Labels(ps: seq<Part>): seq<(string, string)> {
    seq(|ps|, i requires 0 <= i < |ps| => (ps[i].sem, ps[i].kind))
  }

  function Pairs(ps: seq<Part>): seq<(string, string)> {
    seq(|ps|, i requires 0 <= i < |ps| => (ps[i].sem, ps[i].tid))
  }

  /** The parts to load that are not called compact. */
  function Evidence(ps: seq<Part>): seq<Part> {
    if |ps| == 0 then []
    else var most, last := Evidence(ps[..|ps| - 1]), ps[|ps| - 1];
         if last.lbd && last.sem != "compact" then most + [last] else most
  }

  /** The transport id of the last part called compact. */
  function Compact(ps: seq<Part>): Option<string> {
    if |ps| == 0 then None
    else var last := ps[|ps| - 1]; if last.sem == "compact" then Some(last.tid) else Compact(ps[..|ps| - 1])
  }

  lemma {:induction false} EvidenceIsRest(ps: seq<Part>, n: nat)
    requires CompactFirst(ps) && 0 < n <= |ps|
    ensures Compact(ps[..n]) == Some(ps[0].tid) && Evidence(ps[..n]) == Chosen(ps[1..n], true)
  {
    assert ps[..n][..n - 1] == ps[..n - 1];
    if n == 1 {
      assert Evidence(ps[..0]) == [] && ps[1..1] == [];
    } else {
      EvidenceIsRest(ps, n - 1);
      assert ps[1..n][..n - 2] == ps[1..n - 1];
    }
  }

  /** Only the compact part is called compact, and it is loaded by default. */
  predicate CompactIsEager(ps: seq<Part>) {
    forall i :: 0 <= i < |ps| && ps[i].sem == "compact" ==> ps[i].lbd
  }

  lemma {:induction false} WalkFetches(ps: seq<Part>, n: nat)
    requires n <= |ps| && CompactIsEager(ps)
    ensures Walk(AllFields(ps, n)).fetched == Tids(Chosen(ps[..n], true))
    ensures Walk(AllFields(ps, n)).details == Labels(Chosen(ps[..n], false))
    ensures Walk(AllFields(ps, n)).evidence == Pairs(Evidence(ps[..n]))
    ensures Walk(AllFields(ps, n)).compact == Compact(ps[..n])
  {
    hide Chosen, Evidence, Compact, Walk;
    if n > 0 {
      WalkFetches(ps, n - 1);
      WalkStep(ps, n);
      ListsStep(ps, n);
    } else {
      NothingToWalk(ps);
    }
  }

  lemma NothingToWalk(ps: seq<Part>)
    ensures Walk(AllFields(ps, 0)) == Loaded([], None, [], [])
    ensures Chosen(ps[..0], true) == Chosen(ps[..0], false) == Evidence(ps[..0]) == [] && Compact(ps[..0]) == None
  {
  }

  lemma WalkStep(ps: seq<Part>, n: nat)
    requires 0 < n <= |ps|
    ensures var r, p := Walk(AllFields(ps, n - 1)), ps[n - 1];
            Walk(AllFields(ps, n)) ==
              if p.sem == "compact" then r.(fetched := r.fetched + [p.tid], compact := Some(p.tid))
              else if p.lbd then r.(fetched := r.fetched + [p.tid], evidence := r.evidence + [(p.sem, p.tid)])
              else r.(details := r.details + [(p.sem, p.kind)])
  {
    assert AllFields(ps, n)[..n - 1] == AllFields(ps, n - 1);
    assert (Flag(ps[n - 1].lbd) == "true") == ps[n - 1].lbd by { assert "true"[0] != "false"[0]; }
  }

  lemma ListsStep(ps: seq<Part>, n: nat)
    requires 0 < n <= |ps|
    ensures var p, q, before := ps[n - 1], ps[..n], ps[..n - 1];
            && Tids(Chosen(q, true)) == Tids(Chosen(before, true)) + (if p.lbd then [p.tid] else [])
            && Labels(Chosen(q, false)) == Labels(Chosen(before, false)) + (if p.lbd then [] else [(p.sem, p.kind)])
            && Pairs(Evidence(q)) ==
               Pairs(Evidence(before)) + (if p.lbd && p.sem != "compact" then [(p.sem, p.tid)] else [])
            && Compact(q) == if p.sem == "compact" then Some(p.tid) else Compact(before)
  {
    assert ps[..n][..n - 1] == ps[..n - 1];
  }

  lemma {:induction false} ChosenAre(ps: seq<Part>, lbd: bool)
    ensures forall p :: p in Chosen(ps, lbd) <==> p in ps && p.lbd == lbd
    ensures |Chosen(ps, lbd)| + |Chosen(ps, !lbd)| == |ps|
  {
    if |ps| > 0 {
      ChosenAre(ps[..|ps| - 1], lbd);
      assert ps == ps[..|ps| - 1] + [ps[|ps| - 1]];
    }
  }

  /** The chosen parts are those with the flag, in their order; `at` says where they stand. */
  lemma {:induction false} ChosenInOrder(ps: seq<Part>, lbd: bool) returns (at: seq<nat>)
    ensures Increasing(at) && forall i: nat :: i in at <==> i < |ps| && ps[i].lbd == lbd
    ensures |Chosen(ps, lbd)| == |at|
    ensures forall k :: 0 <= k < |at| ==> at[k] < |ps| && Chosen(ps, lbd)[k] == ps[at[k]]
  {
    if |ps| == 0 {
      at := [];
    } else {
      var n := |ps| - 1;
      at := ChosenInOrder(ps[..n], lbd);
      if ps[n].lbd == lbd {
        assert forall i: nat :: i in at + [n] <==> i in at || i == n;
        at := at + [n];
      }
    }
  }

  /** grep's fixed-string match. */
  lemma {:induction false} ContainsMeans(s: string, t: string)
    ensures Contains(s, t) <==> exists a, b :: s == a + t + b
  {
    if t <= s {
      assert s == "" + t + s[|t|..];
    } else if s != "" {
      ContainsMeans(s[1..], t);
      if Contains(s[1..], t) {
        var a, b :| s[1..] == a + t + b;
        assert s == [s[0]] + (a + t + b) == ([s[0]] + a) + t + b;
      }
      if a, b :| s == a + t + b {
        assert s == t + b || s[1..] == a[1..] + t + b;
      }
    }
  }

  /** The rows are those of the lines that mention the key in quotes, in order. */
  lemma {:induction false} RowsInOrder(lines: seq<string>) returns (at: seq<nat>)
    ensures Increasing(at) && forall i: nat :: i in at <==>
              i < |lines| && exists a, b :: lines[i] == a + "\"transport_id\"" + b
    ensures |RowsOf(lines)| == |at|
    ensures forall k :: 0 <= k < |at| ==> at[k] < |lines| && RowsOf(lines)[k] == RowOf(lines[at[k]])
  {
    if |lines| == 0 {
      at := [];
    } else {
      hide RowOf, Contains;
      var n := |lines| - 1;
      at := RowsInOrder(lines[..n]);
      ContainsMeans(lines[n], "\"transport_id\"");
      if Contains(lines[n], "\"transport_id\"") {
        assert forall i: nat :: i in at + [n] <==> i in at || i == n;
        at := at + [n];
      }
    }
  }

  /** The printed default_load list names those parts by their semantic ids. */
  lemma {:induction false} DefaultIdsAre(ps: seq<Part>)
    ensures |DefaultIds(ps)| == |Chosen(ps, true)|
    ensures forall k :: 0 <= k < |DefaultIds(ps)| ==> DefaultIds(ps)[k] == Chosen(ps, true)[k].sem
  {
    if |ps| > 0 { DefaultIdsAre(ps[..|ps| - 1]); }
  }

  lemma PartsAreTold(ps: seq<Part>, i: nat, j: nat)
    requires ArePartsFrom(ps) && i < |ps| && j < |ps| && ps[i].tid == ps[j].tid
    ensures i == j
  {
    assert IsPart(ps[i], i + 1) && IsPart(ps[j], j + 1);
    TransportIdNumber(i + 1);
    TransportIdNumber(j + 1);
  }

  lemma EagerCompact(ps: seq<Part>)
    requires ArePartsFrom(ps)
    ensures CompactIsEager(ps)
  {
    forall i | 0 <= i < |ps| && ps[i].sem == "compact" ensures ps[i].lbd {
      assert IsPart(ps[i], i + 1) && ps[i].sem[0] == 'c';
    }
  }

  /** Loading a send that this client made fetches the content of exactly the parts marked
      for loading, in their order, and of no detail; every detail is listed. The context is
      the compact part's text, and the evidence is the other eager parts', in order. */
  lemma LoadFetchesExactly(slash: string, title: string, created: string, ps: seq<Part>)
    requires IsSlash(slash) && IsStamp(created) && ArePartsFrom(ps) && Free('\n', title)
    ensures var r := Walk(Kept(RowsOf(LinesOf(Unlines(ManifestLines(slash, title, created, ps))))));
            && r.fetched == Tids(Chosen(ps, true))
            && r.details == Labels(Chosen(ps, false))
            && (forall i :: 0 <= i < |ps| ==> (ps[i].tid in r.fetched <==> ps[i].lbd))
            && |r.fetched| + |r.details| == |ps|
            && r.compact == Compact(ps) && r.evidence == Pairs(Evidence(ps))
            && (CompactFirst(ps) ==> r.compact == Some(ps[0].tid) && r.evidence == Pairs(Chosen(ps[1..], true)))
  {
    if CompactFirst(ps) {
      EvidenceIsRest(ps, |ps|);
      assert ps[1..|ps|] == ps[1..];
    }
    hide *;
    RoundTrip(slash, title, created, ps);
    EagerCompact(ps);
    WalkFetches(ps, |ps|);
    assert ps[..|ps|] == ps;
    ChosenAre(ps, true);
    SameLength(Chosen(ps, true), Chosen(ps, false));
    forall i | 0 <= i < |ps| ensures ps[i].tid in Tids(Chosen(ps, true)) <==> ps[i].lbd {
      ChosenTid(ps, i);
    }
  }

  lemma SameLength(a: seq<Part>, b: seq<Part>)
    ensures |Tids(a)| == |a| && |Labels(b)| == |b|
  {
  }

  lemma ChosenTid(ps: seq<Part>, i: nat)
    requires ArePartsFrom(ps) && i < |ps|
    ensures ps[i].tid in Tids(Chosen(ps, true)) <==> ps[i].lbd
  {
    ChosenAre(ps, true);
    var chosen := Chosen(ps, true);
    hide Chosen, ArePartsFrom;
    if ps[i].lbd {
      assert ps[i] in ps && ps[i] in chosen;
      var k :| 0 <= k < |chosen| && chosen[k] == ps[i];
      assert Tids(chosen)[k] == ps[i].tid;
    }
    if ps[i].tid in Tids(chosen) {
      var k :| 0 <= k < |chosen| && Tids(chosen)[k] == ps[i].tid;
      assert chosen[k] in chosen && chosen[k] in ps;
      var j :| 0 <= j < |ps| && ps[j] == chosen[k];
      PartsAreTold(ps, i, j);
    }
  }

  // ------------------------------------------------------------------ one detail

  /** The last row with the wanted semantic id. */
  function LastWith(rows: seq<Fields>, want: string): string {
    if |rows| == 0 then ""
    else var f := rows[|rows| - 1]; if f.sid == want then f.tid else LastWith(rows[..|rows| - 1], want)
  }

  /** No row with the id gives no answer. */
  lemma {:induction false} NoneWith(rows: seq<Fields>, want: string)
    requires forall i :: 0 <= i < |rows| ==> rows[i].sid != want
    ensures LastWith(rows, want) == ""
  {
    if |rows| > 0 { NoneWith(rows[..|rows| - 1], want); }
  }

  /** Otherwise the last row with it answers. */
  lemma {:induction false} LastAnswers(rows: seq<Fields>, want: string, k: nat)
    requires k < |rows| && rows[k].sid == want && forall j :: k < j < |rows| ==> rows[j].sid != want
    ensures LastWith(rows, want) == rows[k].tid
  {
    if k < |rows| - 1 { LastAnswers(rows[..|rows| - 1], want, k); }
  }

  function Every(rows: seq<string>): seq<Fields> {
    seq(|rows|, i requires 0 <= i < |rows| => ReadFields(rows[i]))
  }

  /** The rows that the loading loop skips hold no semantic id. */
  lemma {:induction false} SkippedRowsDoNotMatter(rows: seq<string>, want: string)
    requires want != ""
    ensures LastWith(Every(rows), want) == LastWith(Kept(rows), want)
  {
    hide ReadFields;
    if |rows| > 0 {
      var most, f := rows[..|rows| - 1], ReadFields(rows[|rows| - 1]);
      SkippedRowsDoNotMatter(most, want);
      EmptyRow(rows[|rows| - 1]);
      assert Every(rows)[..|rows| - 1] == Every(most);
      assert (Kept(most) + [f])[..|Kept(most)|] == Kept(most);
    }
  }

  /** Tabs at the front are dropped, so only an empty row leaves the first field empty. */
  lemma EmptyRow(row: string)
    ensures ReadFields(row).tid == "" ==> ReadFields(row).sid == ""
  {
    DropsAll(row);
  }

  lemma {:induction false} DropsAll(s: string)
    ensures DropTabs(s) == "" || DropTabs(s)[0] != '\t'
  {
    if s != "" && s[0] == '\t' { DropsAll(s[1..]); }
  }

  lemma {:induction false} LastWithIs(ps: seq<Part>, n: nat, i: nat)
    requires i < n <= |ps| && ArePartsFrom(ps)
    ensures LastWith(AllFields(ps, n), ps[i].sem) == ps[i].tid <==> forall j :: i < j < n ==> ps[j].sem != ps[i].sem
    ensures exists k :: i <= k < n && LastWith(AllFields(ps, n), ps[i].sem) == ps[k].tid
  {
    assert AllFields(ps, n)[..n - 1] == AllFields(ps, n - 1);
    if ps[n - 1].sem == ps[i].sem {
      if i < n - 1 && ps[n - 1].tid == ps[i].tid { PartsAreTold(ps, n - 1, i); }
      assert LastWith(AllFields(ps, n), ps[i].sem) == ps[n - 1].tid;
    } else {
      LastWithIs(ps, n - 1, i);
    }
  }

  /** Asking for a part by its semantic id gets that part if and only if no later file has
      the same stem in the same place: of log.txt and log.md only one can be asked for. */
  lemma DetailIff(slash: string, title: string, created: string, ps: seq<Part>, i: nat)
    requires IsSlash(slash) && IsStamp(created) && ArePartsFrom(ps) && Free('\n', title) && i < |ps|
    ensures var rows := RowsOf(LinesOf(Unlines(ManifestLines(slash, title, created, ps))));
            LastWith(Every(rows), ps[i].sem) == ps[i].tid <==> forall j :: i < j < |ps| ==> ps[j].sem != ps[i].sem
  {
    RoundTrip(slash, title, created, ps);
    assert ps[i].sem != "" by { assert IsPart(ps[i], i + 1); }
    hide Kept, RowsOf, LinesOf, ManifestLines, ArePartsFrom;
    LastWithIs(ps, |ps|, i);
    SkippedRowsDoNotMatter(RowsOf(LinesOf(Unlines(ManifestLines(slash, title, created, ps)))), ps[i].sem);
  }

  /** Asking for an id that no part has gets nothing. */
  lemma UnknownDetail(slash: string, title: string, created: string, ps: seq<Part>, want: string)
    requires IsSlash(slash) && IsStamp(created) && ArePartsFrom(ps) && Free('\n', title)
    requires want != "" && forall i :: 0 <= i < |ps| ==> ps[i].sem != want
    ensures LastWith(Every(RowsOf(LinesOf(Unlines(ManifestLines(slash, title, created, ps))))), want) == ""
  {
    RoundTrip(slash, title, created, ps);
    hide Kept, RowsOf, LinesOf, ManifestLines, ArePartsFrom;
    NoneWith(AllFields(ps, |ps|), want);
    SkippedRowsDoNotMatter(RowsOf(LinesOf(Unlines(ManifestLines(slash, title, created, ps)))), want);
  }

  // ------------------------------------------------------------ the script's procedures

  function Zip(sem: seq<string>, tid: seq<string>, kind: seq<string>, required: seq<bool>, lbd: seq<bool>,
      size: seq<nat>): seq<Part>
    requires |sem| == |tid| == |kind| == |required| == |lbd| == |size|
  {
    seq(|sem|, i requires 0 <= i < |sem| => Part(sem[i], tid[i], kind[i], required[i], lbd[i], size[i]))
  }

  lemma ZipLength(sem: seq<string>, tid: seq<string>, kind: seq<string>, required: seq<bool>, lbd: seq<bool>,
      size: seq<nat>)
    requires |sem| == |tid| == |kind| == |required| == |lbd| == |size|
    ensures |Zip(sem, tid, kind, required, lbd, size)| == |sem|
  {
  }

  lemma ZipAppend(sem: seq<string>, tid: seq<string>, kind: seq<string>, required: seq<bool>, lbd: seq<bool>,
      size: seq<nat>, p: Part)
    requires |sem| == |tid| == |kind| == |required| == |lbd| == |size|
    ensures Zip(sem + [p.sem], tid + [p.tid], kind + [p.kind], required + [p.required], lbd + [p.lbd],
        size + [p.size]) ==
              Zip(sem, tid, kind, required, lbd, size) + [p]
  {
  }

  lemma PrintedSoFar(head: seq<string>, ps: seq<Part>, i: nat, line: string)
    requires i < |ps| && line == PartLine(ps, i)
    ensures Unlines(head + PartLines(ps, i + 1)) == Unlines(head + PartLines(ps, i)) + line + "\n"
  {
    assert head + PartLines(ps, i + 1) == (head + PartLines(ps, i)) + [line];
    UnlinesAppend(head + PartLines(ps, i), line);
  }

  lemma Closed(lines: seq<string>)
    ensures Unlines(lines + ["  ]", "}"]) == Unlines(lines) + "  ]" + "\n" + "}" + "\n"
  {
    assert lines + ["  ]", "}"] == (lines + ["  ]"]) + ["}"];
    UnlinesAppend(lines, "  ]");
    UnlinesAppend(lines + ["  ]"], "}");
  }

  /** The script with its global parallel arrays. */
  class Skill {
    var sem: seq<string>
    var tid: seq<string>
    var kind: seq<string>
    var required: seq<bool>
    var lbd: seq<bool>
    var size: seq<nat>

    predicate Aligned() reads this {
      |sem| == |tid| == |kind| == |required| == |lbd| == |size|
    }

    function Parts(): seq<Part>
      requires Aligned()
      reads this
    {
      Zip(sem, tid, kind, required, lbd, size)
    }

    /** One directory's loop: a part for every regular file, numbered on. */
    method AddFiles(dir: string, prefix: string, eager: bool, files: seq<Entry>)
      requires Aligned()
      modifies this
      ensures Aligned() && Parts() == WithFiles(old(Parts()), dir, prefix, eager, files)
    {
      var n := |sem|;
      ghost var before := Parts();
      hide TransportId, Stem, Captured, KindFor, Zip;
      for i := 0 to |files|
        invariant Aligned() && n == |sem| && Parts() == WithFiles(before, dir, prefix, eager, files[..i])
      {
        var f := files[i];
        assert files[..i + 1][..i] == files[..i];
        if f.regular {
          n := n + 1;
          ZipLength(sem, tid, kind, required, lbd, size);
          ZipAppend(sem, tid, kind, required, lbd, size, FilePart(dir, prefix, eager, f, n));
          sem := sem + [prefix + Stem(Captured(f.name))];
          tid, kind := tid + [TransportId(n)], kind + [KindFor(dir + f.name)];
          required, lbd, size := required + [eager], lbd + [eager], size + [f.size];
        }
      }
      assert files[..|files|] == files;
    }

    method DiscoverParts(wd: Workdir) returns (ok: bool)
      modifies this
      ensures Aligned() && ok == wd.compact.Some?
      ensures Parts() == if ok then Discovered(wd) else []
    {
      sem, tid, kind, required, lbd, size := [], [], [], [], [], [];
      if wd.compact.None? { return false; }
      sem, tid, kind := ["compact"], [TransportId(1)], ["markdown"];
      required, lbd, size := [true], [true], [wd.compact.value];
      assert Parts() == [Part("compact", TransportId(1), "markdown", true, true, wd.compact.value)];
      AddFiles(wd.path + "/evidence/", "evidence.", true, wd.evidence);
      AddFiles(wd.path + "/details/", "detail.", false, wd.details);
      ok := true;
    }

    /** The quoted list for default_load, grown with a flag for the first element. */
    method DefaultLoad() returns (list: string)
      requires Aligned()
      ensures list == QuotedList(DefaultIds(Parts()))
    {
      list := "";
      var first := true;
      ghost var ps := Parts();
      for i := 0 to |sem|
        invariant list == QuotedList(DefaultIds(ps[..i])) && (first <==> DefaultIds(ps[..i]) == [])
      {
        assert ps[..i + 1][..i] == ps[..i];
        if lbd[i] {
          ghost var ids := DefaultIds(ps[..i]);
          assert (ids + [sem[i]])[..|ids|] == ids;
          if first {
            list := "\"" + sem[i] + "\"";
            first := false;
          } else {
            list := list + (", " + "\"" + sem[i] + "\"");
          }
        }
      }
      assert ps[..|sem|] == ps;
    }

    method BuildManifest(slash: string, title: string, created: string) returns (text: string)
      requires Aligned()
      ensures text == Unlines(ManifestLines(slash, title, created, Parts()))
    {
      var list := DefaultLoad();
      var policy := "  " + Quoted(POLICY) + list + "] },";
      var head := ["{",
                   "  " + Quoted([Word("version", ": "), Word("send.v1", ",")]),
                   TitleLine(slash, title),
                   "  " + Quoted([Word("created_at", ": "), Word(created, ",")]),
                   "  " + Quoted([Word("source", ": { "), Word("agent", ": "), Word("archcore-send-skill", " },")]),
                   policy,
                   "  " + Quoted([Word("parts", ": [")])];
      ghost var ps := Parts();
      assert head == Header(slash, title, created, ps);
      hide Header, Quoted, PartWords, Unlines, TitleLine, PolicyLine;
      text := Unlines(head);
      assert head + PartLines(ps, 0) == head;
      for i := 0 to |sem|
        invariant text == Unlines(head + PartLines(ps, i))
      {
        var p := Part(sem[i], tid[i], kind[i], required[i], lbd[i], size[i]);
        var line := "    {" + Quoted(PartWords(p, if i < |sem| - 1 then "," else ""));
        PrintedSoFar(head, ps, i, line);
        text := text + line + "\n";
      }
      Closed(head + PartLines(ps, |ps|));
      text := text + "  ]" + "\n" + "}" + "\n";
    }

    /** Reads the lines that mention a transport id into rows. */
    method PartsLines(text: string) returns (rows: seq<string>)
      ensures rows == RowsOf(LinesOf(text))
    {
      rows := [];
      var lines := LinesOf(text);
      for i := 0 to |lines|
        invariant rows == RowsOf(lines[..i])
      {
        assert lines[..i + 1][..i] == lines[..i];
        if Contains(lines[i], "\"transport_id\"") { rows := rows + [RowOf(lines[i])]; }
      }
      assert lines[..|lines|] == lines;
    }

    /** The walk of the load command over the decrypted manifest. */
    method Load(text: string) returns (r: Loaded)
      ensures r == Walk(Kept(RowsOf(LinesOf(text))))
    {
      var rows := PartsLines(text);
      hide RowsOf, LinesOf, ReadFields;
      r := Loaded([], None, [], []);
      for i := 0 to |rows|
        invariant r == Walk(Kept(rows[..i]))
      {
        assert rows[..i + 1][..i] == rows[..i];
        var f := ReadFields(rows[i]);
        if f.tid != "" {
          assert (Kept(rows[..i]) + [f])[..|Kept(rows[..i])|] == Kept(rows[..i]);
          if f.sid == "compact" {
            r := r.(fetched := r.fetched + [f.tid], compact := Some(f.tid));
          } else if f.lbd == "true" {
            r := r.(fetched := r.fetched + [f.tid], evidence := r.evidence + [(f.sid, f.tid)]);
          } else {
            r := r.(details := r.details + [(f.sid, f.kind)]);
          }
        }
      }
      assert rows[..|rows|] == rows;
    }

    /** The transport id of one wanted part, or empty. This loop skips no row. */
    method FindDetail(text: string, want: string) returns (found: string)
      ensures found == LastWith(Every(RowsOf(LinesOf(text))), want)
    {
      var rows := PartsLines(text);
      hide RowsOf, LinesOf, ReadFields;
      found := "";
      for i := 0 to |rows|
        invariant found == LastWith(Every(rows[..i]), want)
      {
        var f := ReadFields(rows[i]);
        assert Every(rows[..i + 1])[..i] == Every(rows[..i]);
        if f.sid == want { found := f.tid; }
      }
      assert rows[..|rows|] == rows;
    }
  }
}
