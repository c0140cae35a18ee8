/** The shell client's manifest: discovered files become parts, parts become lines of
    JSON, and a line-oriented reader gets the parts back without a JSON parser. */
module Manifest {
  import opened Records
  import opened Text

  // -------------------------------------------------------------------------- parts

  datatype Part = Part(sem: string, tid: string, kind: string, required: bool, lbd: bool, size: nat)

  /** A directory entry that the shell's glob returns, so never a dot file. */
  datatype Entry = Entry(name: string, regular: bool, size: nat)

  datatype Workdir = Workdir(path: string, compact: Option<nat>, evidence: seq<Entry>, details: seq<Entry>)

  /** printf '%04d'. */
  function Padded(s: string): string
    decreases 4 - |s|
  {
    if |s| >= 4 then s else Padded("0" + s)
  }

  function TransportId(n: nat): string {
    "part_" + Padded(Decimal(n))
  }

  /** ${base%.*}: everything before the last dot. */
  function Stem(base: string): string {
    StemBefore(base, |base|)
  }

  function StemBefore(base: string, n: nat): string
    requires n <= |base|
  {
    if n == 0 then base else if base[n - 1] == '.' then base[..n - 1] else StemBefore(base, n - 1)
  }

  /** $(basename …): a command substitution drops newlines at the end. */
  function Captured(s: string): string {
    if s != "" && s[|s| - 1] == '\n' then Captured(s[..|s| - 1]) else s
  }

  /** A file's stem is its name without the last extension. */
  lemma StemOf(name: string, ext: string)
    requires Free('.', ext)
    ensures Stem(name + "." + ext) == name && Stem(ext) == ext
  {
    StemSkips(name, ext, |ext|);
    NoStem(ext, |ext|);
  }

  lemma {:induction false} StemSkips(name: string, ext: string, k: nat)
    requires Free('.', ext) && k <= |ext|
    ensures StemBefore(name + "." + ext, |name| + 1 + k) == name
  {
    var base := name + "." + ext;
    if k > 0 {
      assert base[|name| + k] == ext[k - 1] != '.';
      StemSkips(name, ext, k - 1);
    } else {
      assert base[|name|] == '.' && base[..|name|] == name;
    }
  }

  lemma {:induction false} NoStem(ext: string, n: nat)
    requires Free('.', ext) && n <= |ext|
    ensures StemBefore(ext, n) == ext
  {
    if n > 0 { NoStem(ext, n - 1); }
  }

  /** Newlines at the end of a name are lost, and nothing else. */
  lemma {:induction false} CapturedIs(s: string, k: nat)
    requires s == "" || s[|s| - 1] != '\n'
    ensures Captured(s + seq(k, i => '\n')) == s
  {
    var end := seq(k, i => '\n');
    if k == 0 {
      assert s + end == s;
    } else {
      assert (s + end)[..|s| + k - 1] == s + seq(k - 1, i => '\n');
      CapturedIs(s, k - 1);
    }
  }

  predicate HasSuffix(s: string, suffix: string) {
    |suffix| <= |s| && s[|s| - |suffix|..] == suffix
  }

  function KindFor(path: string): string {
    if HasSuffix(path, ".md") then "markdown"
    else if HasSuffix(path, ".patch") || HasSuffix(path, ".diff") then "patch"
    else if HasSuffix(path, ".log") then "log"
    else if HasSuffix(path, ".json") then "json"
    else if HasSuffix(path, ".txt") then "text"
    else "binary"
  }

  /** The kind is told by the extension. */
  lemma KindOf(path: string)
    ensures KindFor(path + ".md") == "markdown"
    ensures KindFor(path + ".patch") == "patch" && KindFor(path + ".diff") == "patch"
    ensures KindFor(path + ".log") == "log" && KindFor(path + ".json") == "json" && KindFor(path + ".txt") == "text"
  {
    hide HasSuffix;
    LastLetter(path, ".md");
    LastLetter(path, ".patch");
    LastLetter(path, ".diff");
    LastLetter(path, ".log");
    LastLetter(path, ".json");
    LastLetter(path, ".txt");
  }

  lemma KindOfOthers(path: string)
    ensures KindFor(path) == "binary" <==>
              forall p :: path != p + ".md" && path != p + ".patch" && path != p + ".diff"
                          && path != p + ".log" && path != p + ".json" && path != p + ".txt"
  {
    hide HasSuffix;
    SuffixSplits(path, ".md");
    SuffixSplits(path, ".patch");
    SuffixSplits(path, ".diff");
    SuffixSplits(path, ".log");
    SuffixSplits(path, ".json");
    SuffixSplits(path, ".txt");
  }

  lemma SuffixSplits(s: string, suffix: string)
    ensures HasSuffix(s, suffix) <==> exists p :: s == p + suffix
  {
    if HasSuffix(s, suffix) { assert s == s[..|s| - |suffix|] + suffix; }
  }

  lemma LastLetter(path: string, suffix: string)
    requires |suffix| > 0
    ensures HasSuffix(path + suffix, suffix)
    ensures forall other :: |other| > 0 && HasSuffix(path + suffix, other) ==>
              other[|other| - 1] == suffix[|suffix| - 1]
              && (|other| > 1 && |suffix| > 1 ==> other[|other| - 2] == suffix[|suffix| - 2])
  {
    var s := path + suffix;
    assert s[|s| - |suffix|..] == suffix;
    forall other | |other| > 0 && HasSuffix(s, other)
      ensures other[|other| - 1] == suffix[|suffix| - 1]
              && (|other| > 1 && |suffix| > 1 ==> other[|other| - 2] == suffix[|suffix| - 2])
    {
      assert other[|other| - 1] == s[|s| - 1];
      if |other| > 1 && |suffix| > 1 { assert other[|other| - 2] == s[|s| - 2]; }
    }
  }

  function FilePart(dir: string, prefix: string, eager: bool, e: Entry, n: nat): Part {
    Part(prefix + Stem(Captured(e.name)), TransportId(n), KindFor(dir + e.name), eager, eager, e.size)
  }

  /** The parts after one directory's regular files are numbered on. */
  function WithFiles(before: seq<Part>, dir: string, prefix: string, eager: bool, files: seq<Entry>): seq<Part> {
    if |files| == 0 then before
    else
      var most, last := WithFiles(before, dir, prefix, eager, files[..|files| - 1]), files[|files| - 1];
      if last.regular then most + [FilePart(dir, prefix, eager, last, |most| + 1)] else most
  }

  function Discovered(wd: Workdir): seq<Part>
    requires wd.compact.Some?
  {
    var first := [Part("compact", TransportId(1), "markdown", true, true, wd.compact.value)];
    var required := WithFiles(first, wd.path + "/evidence/", "evidence.", true, wd.evidence);
    WithFiles(required, wd.path + "/details/", "detail.", false, wd.details)
  }

  /** Characters that the line format has no room for. */
  predicate Plain(s: string) {
    Free('"', s) && Free('\t', s) && Free('\n', s)
  }

  predicate PlainNames(wd: Workdir) {
    && (forall i :: 0 <= i < |wd.evidence| ==> Plain(wd.evidence[i].name))
    && (forall i :: 0 <= i < |wd.details| ==> Plain(wd.details[i].name))
  }

  predicate IsSem(s: string) {
    Plain(s) && |s| > 0 && (s[0] == 'c' || s[0] == 'e' || s[0] == 'd')
  }

  predicate IsKind(s: string) {
    s == "markdown" || s == "patch" || s == "log" || s == "json" || s == "text" || s == "binary"
  }

  /** What discovery guarantees of its n-th part, whatever the file is called. */
  predicate IsShaped(p: Part, n: nat) {
    && |p.sem| > 0 && (p.sem[0] == 'c' || p.sem[0] == 'e' || p.sem[0] == 'd')
    && p.tid == TransportId(n) && IsKind(p.kind) && (p.lbd <==> p.sem[0] != 'd')
  }

  predicate AreShaped(ps: seq<Part>) {
    forall i :: 0 <= i < |ps| ==> IsShaped(ps[i], i + 1)
  }

  /** The first part is the compact one, and the only one called so. */
  predicate CompactFirst(ps: seq<Part>) {
    |ps| > 0 && ps[0].sem == "compact" && ps[0].lbd && forall i :: 0 < i < |ps| ==> ps[i].sem != "compact"
  }

  predicate PlainSems(ps: seq<Part>) {
    forall i :: 0 <= i < |ps| ==> Plain(ps[i].sem)
  }

  /** A part whose semantic id the line format has room for. */
  predicate IsPart(p: Part, n: nat) {
    IsShaped(p, n) && Plain(p.sem)
  }

  predicate ArePartsFrom(ps: seq<Part>) {
    forall i :: 0 <= i < |ps| ==> IsPart(ps[i], i + 1)
  }

  lemma StemIsPlain(base: string, n: nat)
    requires Plain(base) && n <= |base|
    ensures Plain(StemBefore(base, n))
  {
  }

  lemma {:induction false} WithFilesShaped(before: seq<Part>, dir: string, prefix: string, eager: bool,
      files: seq<Entry>)
    requires AreShaped(before)
    requires |prefix| > 0 && (prefix[0] == 'e' || prefix[0] == 'd') && (eager <==> prefix[0] != 'd')
    ensures AreShaped(WithFiles(before, dir, prefix, eager, files))
    ensures CompactFirst(before) ==> CompactFirst(WithFiles(before, dir, prefix, eager, files))
  {
    if |files| > 0 {
      WithFilesShaped(before, dir, prefix, eager, files[..|files| - 1]);
      hide TransportId, StemBefore;
      var name := Captured(files[|files| - 1].name);
      assert (prefix + Stem(name))[0] == prefix[0];
    }
  }

  lemma {:induction false} WithFilesPlain(before: seq<Part>, dir: string, prefix: string, eager: bool,
      files: seq<Entry>)
    requires PlainSems(before) && Plain(prefix)
    requires forall i :: 0 <= i < |files| ==> Plain(files[i].name)
    ensures PlainSems(WithFiles(before, dir, prefix, eager, files))
  {
    if |files| > 0 {
      WithFilesPlain(before, dir, prefix, eager, files[..|files| - 1]);
      hide TransportId, KindFor;
      var name := files[|files| - 1].name;
      assert Captured(name) == name;
      StemIsPlain(name, |name|);
    }
  }

  /** Discovery puts the compact part first, numbers its parts, marks for loading exactly
      those that are not details, and gives every one a known kind. */
  lemma DiscoveredShaped(wd: Workdir)
    requires wd.compact.Some?
    ensures AreShaped(Discovered(wd)) && CompactFirst(Discovered(wd))
  {
    var first := [Part("compact", TransportId(1), "markdown", true, true, wd.compact.value)];
    hide TransportId, WithFiles;
    WithFilesShaped(first, wd.path + "/evidence/", "evidence.", true, wd.evidence);
    var required := WithFiles(first, wd.path + "/evidence/", "evidence.", true, wd.evidence);
    WithFilesShaped(required, wd.path + "/details/", "detail.", false, wd.details);
  }

  lemma DiscoveredPlain(wd: Workdir)
    requires wd.compact.Some? && PlainNames(wd)
    ensures PlainSems(Discovered(wd))
  {
    var first := [Part("compact", TransportId(1), "markdown", true, true, wd.compact.value)];
    hide TransportId, WithFiles;
    assert Plain("compact") && Plain("evidence.") && Plain("detail.");
    WithFilesPlain(first, wd.path + "/evidence/", "evidence.", true, wd.evidence);
    var required := WithFiles(first, wd.path + "/evidence/", "evidence.", true, wd.evidence);
    WithFilesPlain(required, wd.path + "/details/", "detail.", false, wd.details);
  }

  /** Places in increasing order. */
  predicate Increasing(at: seq<nat>) {
    forall k, l :: 0 <= k < l < |at| ==> at[k] < at[l]
  }

  /** `ps` goes on with one part for each regular file of a directory, in the order of the
      listing, and with nothing for the other entries. `at` says which entries they are. */
  ghost predicate OnePerFile(ps: seq<Part>, n: nat, at: seq<nat>, dir: string, prefix: string, eager: bool,
      files: seq<Entry>)
    requires n + |at| <= |ps|
  {
    && Increasing(at) && (forall i: nat :: i in at <==> i < |files| && files[i].regular)
    && forall k :: 0 <= k < |at| ==>
         && at[k] < |files|
         && var e := files[at[k]];
            ps[n + k] == Part(prefix + Stem(Captured(e.name)), TransportId(n + k + 1), KindFor(dir + e.name),
                              eager, eager, e.size)
  }

  lemma {:induction false} WithFilesAre(before: seq<Part>, dir: string, prefix: string, eager: bool,
      files: seq<Entry>)
    returns (at: seq<nat>)
    ensures var ps := WithFiles(before, dir, prefix, eager, files);
            && |ps| == |before| + |at| && ps[..|before|] == before
            && OnePerFile(ps, |before|, at, dir, prefix, eager, files)
  {
    hide TransportId, Stem, Captured, KindFor, OnePerFile, FilePart;
    if |files| == 0 {
      at := [];
      NoFiles(before, dir, prefix, eager);
    } else {
      var n := |files| - 1;
      at := WithFilesAre(before, dir, prefix, eager, files[..n]);
      OneMoreFile(WithFiles(before, dir, prefix, eager, files[..n]), |before|, at, dir, prefix, eager, files);
      if files[n].regular { at := at + [n]; }
    }
  }

  lemma NoFiles(before: seq<Part>, dir: string, prefix: string, eager: bool)
    ensures OnePerFile(before, |before|, [], dir, prefix, eager, [])
  {
  }

  lemma OneMoreFile(most: seq<Part>, n: nat, at: seq<nat>, dir: string, prefix: string, eager: bool,
      files: seq<Entry>)
    requires |files| > 0 && n + |at| == |most|
    requires OnePerFile(most, n, at, dir, prefix, eager, files[..|files| - 1])
    ensures var last := files[|files| - 1];
            if last.regular then
              OnePerFile(most + [FilePart(dir, prefix, eager, last, |most| + 1)], n, at + [|files| - 1],
                         dir, prefix, eager, files)
            else OnePerFile(most, n, at, dir, prefix, eager, files)
  {
    hide TransportId, Stem, Captured, KindFor;
    var m := |files| - 1;
    if files[m].regular {
      assert forall i: nat :: i in at + [m] <==> i in at || i == m;
      assert forall k :: 0 <= k < |at| ==> at[k] in at;
    }
  }

  /** Discovery makes exactly one part of each regular file, after the compact one: first
      the evidence, which is required and loaded, then the details, which are neither. */
  lemma DiscoveredAre(wd: Workdir) returns (es: seq<nat>, ds: seq<nat>)
    requires wd.compact.Some?
    ensures var ps := Discovered(wd);
            && |ps| == 1 + |es| + |ds|
            && ps[0] == Part("compact", TransportId(1), "markdown", true, true, wd.compact.value)
            && OnePerFile(ps, 1, es, wd.path + "/evidence/", "evidence.", true, wd.evidence)
            && OnePerFile(ps, 1 + |es|, ds, wd.path + "/details/", "detail.", false, wd.details)
  {
    var first := [Part("compact", TransportId(1), "markdown", true, true, wd.compact.value)];
    hide TransportId, Stem, Captured, KindFor, WithFiles;
    es := WithFilesAre(first, wd.path + "/evidence/", "evidence.", true, wd.evidence);
    var required := WithFiles(first, wd.path + "/evidence/", "evidence.", true, wd.evidence);
    ds := WithFilesAre(required, wd.path + "/details/", "detail.", false, wd.details);
    var ps := Discovered(wd);
    assert required[0] == required[..1][0];
    assert forall k :: 0 <= k < |required| ==> ps[k] == ps[..|required|][k] == required[k];
  }

  lemma {:induction false} LeadingZero(s: string)
    ensures NumberOf("0" + s) == NumberOf(s)
  {
    if s != "" {
      LeadingZero(s[..|s| - 1]);
      assert ("0" + s)[..|s|] == "0" + s[..|s| - 1];
    } else {
      assert "0" + s == "0" && "0"[..0] == "";
    }
  }

  lemma {:induction false} PaddedNumber(s: string)
    requires forall i :: 0 <= i < |s| ==> '0' <= s[i] <= '9'
    ensures NumberOf(Padded(s)) == NumberOf(s) && |Padded(s)| >= 4 && (|s| <= 4 ==> |Padded(s)| == 4)
    ensures forall i :: 0 <= i < |Padded(s)| ==> '0' <= Padded(s)[i] <= '9'
    decreases 4 - |s|
  {
    if |s| < 4 { PaddedNumber("0" + s); LeadingZero(s); }
  }

  lemma FourDigits(n: nat)
    requires n < 10_000
    ensures |Decimal(n)| <= 4
  {
    OneDigitMore(n);
    OneDigitMore(n / 10);
    OneDigitMore(n / 10 / 10);
    OneDigitMore(n / 10 / 10 / 10);
  }

  lemma OneDigitMore(n: nat)
    ensures |Decimal(n)| == if n < 10 then 1 else |Decimal(n / 10)| + 1
  {
  }

  /** The number can be read off a transport id, whatever the number of digits. */
  lemma TransportIdNumber(n: nat)
    ensures |TransportId(n)| >= 9 && NumberOf(TransportId(n)[5..]) == n
    ensures TransportId(n)[..5] == "part_" && (n < 10_000 ==> |TransportId(n)| == 9)
    ensures Plain(TransportId(n)) && TransportId(n)[0] == 'p' && Free('/', TransportId(n)) && Free('.', TransportId(n))
  {
    IdDigits(n);
    var digits := Padded(Decimal(n));
    assert TransportId(n) == "part_" + digits && TransportId(n)[5..] == digits;
    hide Decimal, Padded, NumberOf, TransportId;
    PlainDigits(digits);
  }

  lemma IdDigits(n: nat)
    ensures var digits := Padded(Decimal(n));
            && NumberOf(digits) == n && |digits| >= 4 && (n < 10_000 ==> |digits| == 4)
            && forall i :: 0 <= i < |digits| ==> '0' <= digits[i] <= '9'
  {
    DecimalNumber(n);
    PaddedNumber(Decimal(n));
    if n < 10_000 { FourDigits(n); }
    hide Decimal, Padded, NumberOf;
  }

  lemma PlainDigits(digits: string)
    requires forall i :: 0 <= i < |digits| ==> '0' <= digits[i] <= '9'
    ensures Plain("part_" + digits) && Free('/', "part_" + digits) && Free('.', "part_" + digits)
  {
    assert Plain("part_") && Free('/', "part_") && Free('.', "part_");
  }

  /** The part ids of one upload: the manifest's, then the parts' in order. */
  function UploadIds(ps: seq<Part>): seq<string> {
    ["manifest"] + seq(|ps|, i requires 0 <= i < |ps| => ps[i].tid)
  }

  /** However many files share a stem, the ids that an upload declares are distinct. */
  lemma UploadIdsDistinct(ps: seq<Part>)
    requires AreShaped(ps)
    ensures forall i, j :: 0 <= i < j < |UploadIds(ps)| ==> UploadIds(ps)[i] != UploadIds(ps)[j]
  {
    hide TransportId, NumberOf;
    forall i, j | 0 <= i < j < |UploadIds(ps)| ensures UploadIds(ps)[i] != UploadIds(ps)[j] {
      assert IsShaped(ps[j - 1], j);
      TransportIdNumber(j);
      if i > 0 { assert IsShaped(ps[i - 1], i); TransportIdNumber(i); }
    }
  }

  // ------------------------------------------------------------------------ printing

  /** A quoted word and what is printed between its closing quote and the next word. */
  datatype Word = Word(text: string, gap: string)

  function Quoted(ws: seq<Word>): string {
    if |ws| == 0 then "" else "\"" + ws[0].text + "\"" + ws[0].gap + Quoted(ws[1..])
  }

  function Flag(b: bool): string {
    if b then "true" else "false"
  }

  function PartWords(p: Part, end: string): seq<Word> {
    [Word("id", ":"), Word(p.sem, ","), Word("transport_id", ":"), Word(p.tid, ","), Word("kind", ":"),
     Word(p.kind, ","),
     Word("required", ":" + Flag(p.required) + ","), Word("load_by_default", ":" + Flag(p.lbd) + ","),
     Word("plaintext_size", ":" + Decimal(p.size) + "}" + end)]
  }

  /** {"id":"…","transport_id":"…","kind":"…","required":…,"load_by_default":…,"plaintext_size":…} */
  function PartLine(ps: seq<Part>, i: nat): string
    requires i < |ps|
  {
    "    {" + Quoted(PartWords(ps[i], if i < |ps| - 1 then "," else ""))
  }

  /** The text of a part's line, piece by piece. */
  lemma PartLineText(ps: seq<Part>, i: nat)
    requires i < |ps|
    ensures var p := ps[i];
            PartLine(ps, i) ==
              "    {" + ("\"id\":" + ("\"" + p.sem + "\"," + ("\"transport_id\":" + ("\"" + p.tid + "\"," +
              ("\"kind\":" + ("\"" + p.kind + "\"," +
              ("\"required\":" + (if p.required then "true" else "false") + "," +
              ("\"load_by_default\":" + (if p.lbd then "true" else "false") + "," +
              ("\"plaintext_size\":" + Decimal(p.size) + "}" + (if i < |ps| - 1 then "," else ""))))))))))
  {
    PartLineIs(ps, i);
    PartPieces(ps[i], if i < |ps| - 1 then "," else "");
    hide *;
  }

  lemma PartPieces(p: Part, end: string)
    ensures Quoted(PartWords(p, end)) ==
              ("\"id\":" + ("\"" + p.sem + "\"," + ("\"transport_id\":" + ("\"" + p.tid + "\"," +
              ("\"kind\":" + ("\"" + p.kind + "\"," +
              ("\"required\":" + (if p.required then "true" else "false") + "," +
              ("\"load_by_default\":" + (if p.lbd then "true" else "false") + "," +
              ("\"plaintext_size\":" + Decimal(p.size) + "}" + end)))))))))
  {
    var ws := PartWords(p, end);
    assert |ws| == 9;
    KeyPieces();
    TextPiece(p.sem);
    TextPiece(p.tid);
    TextPiece(p.kind);
    FlagPiece("required", p.required);
    FlagPiece("load_by_default", p.lbd);
    SizePiece(p.size, end);
    var size := "\"plaintext_size\":" + Decimal(p.size) + "}" + end;
    assert ws[0..] == ws && ws[9..] == [] && size + "" == size;
    NextWords(ws);
    hide Quoted, Decimal;
    assert Quoted(ws[8..]) == size;
    assert Quoted(ws[7..]) == "\"load_by_default\":" + Flag(p.lbd) + "," + Quoted(ws[8..]);
    assert Quoted(ws[6..]) == "\"required\":" + Flag(p.required) + "," + Quoted(ws[7..]);
    assert Quoted(ws[5..]) == "\"" + p.kind + "\"," + Quoted(ws[6..]);
    assert Quoted(ws[4..]) == "\"kind\":" + Quoted(ws[5..]);
    assert Quoted(ws[3..]) == "\"" + p.tid + "\"," + Quoted(ws[4..]);
    assert Quoted(ws[2..]) == "\"transport_id\":" + Quoted(ws[3..]);
    assert Quoted(ws[1..]) == "\"" + p.sem + "\"," + Quoted(ws[2..]);
    assert Quoted(ws[0..]) == "\"id\":" + Quoted(ws[1..]);
  }

  lemma NextWords(ws: seq<Word>)
    requires |ws| == 9
    ensures forall k :: 0 <= k < 9 ==>
              Quoted(ws[k..]) == "\"" + ws[k].text + "\"" + ws[k].gap + Quoted(ws[k + 1..])
    ensures Quoted([]) == ""
  {
    forall k | 0 <= k < 9 ensures Quoted(ws[k..]) == "\"" + ws[k].text + "\"" + ws[k].gap + Quoted(ws[k + 1..]) {
      assert ws[k..][1..] == ws[k + 1..];
    }
  }

  lemma KeyPieces()
    ensures "\"" + "id" + "\"" + ":" == "\"id\":"
    ensures "\"" + "transport_id" + "\"" + ":" == "\"transport_id\":"
    ensures "\"" + "kind" + "\"" + ":" == "\"kind\":"
    ensures "\"" + "required" + "\":" == "\"required\":"
    ensures "\"" + "load_by_default" + "\":" == "\"load_by_default\":"
  {
  }

  lemma TextPiece(text: string)
    ensures "\"" + text + "\"" + "," == "\"" + text + "\","
  {
  }

  lemma FlagPiece(key: string, b: bool)
    ensures "\"" + key + "\"" + (":" + Flag(b) + ",") == "\"" + key + "\":" + Flag(b) + ","
  {
  }

  lemma SizePiece(size: nat, end: string)
    ensures "\"" + "plaintext_size" + "\"" + (":" + Decimal(size) + "}" + end) ==
              "\"plaintext_size\":" + Decimal(size) + "}" + end
  {
    var d := Decimal(size);
    hide Decimal;
    assert "\"" + "plaintext_size" + "\"" + ":" == "\"plaintext_size\":";
    assert "\"" + "plaintext_size" + "\"" + (":" + d + "}" + end) ==
           "\"" + "plaintext_size" + "\"" + ":" + d + "}" + end;
  }

  lemma PartLineIs(ps: seq<Part>, i: nat)
    requires i < |ps|
    ensures PartLine(ps, i) == "    {" + Quoted(PartWords(ps[i], if i < |ps| - 1 then "," else ""))
  {
  }

  /** json_escape on one line of text. Awks differ in what the doubled backslash of the
      replacement means, so what a backslash becomes is a parameter. */
  function Escape(slash: string, title: string): string {
    if title == "" then "" else EscapeChar(slash, title[0]) + Escape(slash, title[1..])
  }

  function EscapeChar(slash: string, ch: char): string {
    if ch == '\\' then slash else if ch == '"' then "\\\"" else if ch == '\t' then "\\t"
    else if ch == '\r' then "\\r" else [ch]
  }

  function TitleLine(slash: string, title: string): string {
    "  \"title\": \"" + Escape(slash, title) + "\","
  }

  /** The semantic ids of the parts that are loaded by default. */
  function DefaultIds(ps: seq<Part>): seq<string> {
    if |ps| == 0 then []
    else var most, last := DefaultIds(ps[..|ps| - 1]), ps[|ps| - 1];
         if last.lbd then most + [last.sem] else most
  }

  function QuotedList(ids: seq<string>): string {
    if |ids| == 0 then ""
    else var most, last := QuotedList(ids[..|ids| - 1]), "\"" + ids[|ids| - 1] + "\"";
         if |ids| == 1 then last else most + (", " + last)
  }

  const POLICY := [Word("policy", ": { "), Word("raw_transcript_included", ": false, "),
                   Word("secrets_included", ": false, "), Word("default_load", ": [")]

  function PolicyLine(ps: seq<Part>): string {
    "  " + Quoted(POLICY) + QuotedList(DefaultIds(ps)) + "] },"
  }

  function Header(slash: string, title: string, created: string, ps: seq<Part>): seq<string> {
    ["{",
     "  " + Quoted([Word("version", ": "), Word("send.v1", ",")]),
     TitleLine(slash, title),
     "  " + Quoted([Word("created_at", ": "), Word(created, ",")]),
     "  " + Quoted([Word("source", ": { "), Word("agent", ": "), Word("archcore-send-skill", " },")]),
     PolicyLine(ps),
     "  " + Quoted([Word("parts", ": [")])]
  }

  function PartLines(ps: seq<Part>, n: nat): seq<string>
    requires n <= |ps|
  {
    seq(n, i requires 0 <= i < n => PartLine(ps, i))
  }

  function ManifestLines(slash: string, title: string, created: string, ps: seq<Part>): seq<string> {
    Header(slash, title, created, ps) + PartLines(ps, |ps|) + ["  ]", "}"]
  }

  function Unlines(lines: seq<string>): string {
    if |lines| == 0 then "" else lines[0] + "\n" + Unlines(lines[1..])
  }

  // ------------------------------------------------------------------------- reading

  datatype Sort = Str | Bool

  predicate IsSpace(ch: char) {
    ch == ' ' || ch == '\t' || ch == '\n' || ch == '\r' || ch == 11 as char || ch == 12 as char
  }

  function SkipSpace(s: string): string {
    if s != "" && IsSpace(s[0]) then SkipSpace(s[1..]) else s
  }

  function UntilQuote(s: string): Option<string> {
    if s == "" then None
    else if s[0] == '"' then Some("")
    else match UntilQuote(s[1..]) case None => None case Some(v) => Some([s[0]] + v)
  }

  /** [[:space:]]*:[[:space:]]* and then "([^"]*)" or (true|false). */
  function Value(sort: Sort, s: string): Option<string> {
    var a := SkipSpace(s);
    if a == "" || a[0] != ':' then None
    else
      var b := SkipSpace(a[1..]);
      match sort
      case Str => if b == "" || b[0] != '"' then None else UntilQuote(b[1..])
      case Bool => if "true" <= b then Some("true") else if "false" <= b then Some("false") else None
  }

  function MatchHere(sort: Sort, key: string, s: string): Option<string> {
    var quoted := "\"" + key + "\"";
    if quoted <= s then Value(sort, s[|quoted|..]) else None
  }

  /** field_str and field_bool: the expression begins with a greedy .*, so the last place
      where the rest of it matches gives the value. */
  function Field(sort: Sort, key: string, s: string): Option<string> {
    if s == "" then None
    else match Field(sort, key, s[1..])
      case Some(v) => Some(v)
      case None => MatchHere(sort, key, s)
  }

  /** grep for a fixed string. */
  predicate Contains(s: string, t: string) {
    t <= s || (s != "" && Contains(s[1..], t))
  }

  function OrEmpty(v: Option<string>): string {
    if v.Some? then v.value else ""
  }

  function RowOf(line: string): string {
    OrEmpty(Field(Str, "transport_id", line)) + "\t" + OrEmpty(Field(Str, "id", line)) + "\t" +
    OrEmpty(Field(Str, "kind", line)) + "\t" + OrEmpty(Field(Bool, "load_by_default", line))
  }

  function LinesOf(text: string): seq<string> {
    var ls := Split('\n', text);
    if ls[|ls| - 1] == "" then ls[..|ls| - 1] else ls
  }

  /** parts_lines: one row for each line that mentions a transport id. */
  function RowsOf(lines: seq<string>): seq<string> {
    if |lines| == 0 then []
    else var most, last := RowsOf(lines[..|lines| - 1]), lines[|lines| - 1];
         if Contains(last, "\"transport_id\"") then most + [RowOf(last)] else most
  }

  /** The four variables that `IFS=<tab> read -r` fills. A tab is white space to it, so
      runs of tabs count as one and tabs at either end are dropped. */
  datatype Fields = Fields(tid: string, sid: string, kind: string, lbd: string)

  function DropTabs(s: string): string {
    if s != "" && s[0] == '\t' then DropTabs(s[1..]) else s
  }

  function TrimTabs(s: string): string {
    if s != "" && s[|s| - 1] == '\t' then TrimTabs(s[..|s| - 1]) else s
  }

  function UpToTab(s: string): string {
    if s == "" || s[0] == '\t' then "" else [s[0]] + UpToTab(s[1..])
  }

  function AfterTab(s: string): string {
    if s == "" || s[0] == '\t' then DropTabs(s) else AfterTab(s[1..])
  }

  function ReadFields(line: string): Fields {
    var a := DropTabs(line);
    var b := AfterTab(a);
    var c := AfterTab(b);
    Fields(UpToTab(a), UpToTab(b), UpToTab(c), TrimTabs(AfterTab(c)))
  }

  /** The rows that the reading loop does not skip. */
  function Kept(rows: seq<string>): seq<Fields> {
    if |rows| == 0 then []
    else var most, f := Kept(rows[..|rows| - 1]), ReadFields(rows[|rows| - 1]);
         if f.tid != "" then most + [f] else most
  }

  function FieldsOf(p: Part): Fields {
    Fields(p.tid, p.sem, p.kind, Flag(p.lbd))
  }

  // ------------------------------------------- what one printed line reads back as

  lemma {:induction false} SkipQuoteFree(sort: Sort, key: string, a: string, s: string)
    requires Free('"', a)
    ensures Field(sort, key, a + s) == Field(sort, key, s)
  {
    if a == "" {
      assert a + s == s;
    } else {
      assert (a + s)[1..] == a[1..] + s;
      SkipQuoteFree(sort, key, a[1..], s);
      assert (a + s)[0] == a[0] && ("\"" + key + "\"")[0] == '"';
    }
  }

  lemma SameWord(key: string, w: string, rest: string)
    requires Free('"', key) && Free('"', w) && "\"" + key + "\"" <= "\"" + w + "\"" + rest
    ensures key == w
  {
    var s, quoted := "\"" + w + "\"" + rest, "\"" + key + "\"";
    assert s[|w| + 1] == '"' && quoted[|key| + 1] == '"' == s[|key| + 1];
    assert forall i :: 0 <= i < |w| ==> s[i + 1] == w[i] != '"';
    assert forall i :: 0 <= i < |key| ==> quoted[i + 1] == key[i] != '"';
    assert |key| == |w|;
    assert key == quoted[1..|key| + 1] && w == s[1..|w| + 1];
  }

  /** At an opening quote only the word between the quotes can be the key. */
  lemma MatchWord(sort: Sort, key: string, w: string, rest: string)
    requires Free('"', key) && Free('"', w)
    ensures MatchHere(sort, key, "\"" + w + "\"" + rest) == if w == key then Value(sort, rest) else None
  {
    hide Value;
    var s, quoted := "\"" + w + "\"" + rest, "\"" + key + "\"";
    if quoted <= s { SameWord(key, w, rest); }
    if w == key { assert quoted <= s && s[|quoted|..] == rest; }
  }

  /** A quote that closes a word opens nothing, when what follows it is not the key. */
  lemma GapIsNoWord(sort: Sort, key: string, gap: string, rest: string)
    requires Free('"', key) && Free('"', gap) && gap != key && (rest == "" || rest[0] == '"')
    ensures MatchHere(sort, key, "\"" + gap + rest) == None
  {
    hide Value;
    if rest == "" {
      assert forall i :: 1 <= i < |"\"" + gap + rest| ==> ("\"" + gap + rest)[i] == gap[i - 1];
      assert ("\"" + key + "\"")[|key| + 1] == '"';
    } else {
      assert "\"" + gap + rest == "\"" + gap + "\"" + rest[1..];
      MatchWord(sort, key, gap, rest[1..]);
    }
  }

  lemma GapStep(sort: Sort, key: string, gap: string, rest: string)
    requires Free('"', key) && Free('"', gap) && gap != key && (rest == "" || rest[0] == '"')
    ensures Field(sort, key, "\"" + gap + rest) == Field(sort, key, rest)
  {
    hide MatchHere, Value;
    var tail := "\"" + gap + rest;
    assert tail[1..] == gap + rest;
    GapIsNoWord(sort, key, gap, rest);
    SkipQuoteFree(sort, key, gap, rest);
  }

  lemma WordStep(sort: Sort, key: string, w: string, gap: string, rest: string)
    requires Free('"', key) && Free('"', w) && Free('"', gap) && gap != key && (rest == "" || rest[0] == '"')
    ensures Field(sort, key, "\"" + w + "\"" + gap + rest) ==
              match Field(sort, key, rest)
              case Some(v) => Some(v)
              case None => if w == key then Value(sort, gap + rest) else None
  {
    hide MatchHere, Value;
    var tail := "\"" + gap + rest;
    GapStep(sort, key, gap, rest);
    SkipQuoteFree(sort, key, w, tail);
    var whole := "\"" + w + "\"" + gap + rest;
    assert whole[1..] == w + tail;
    assert whole == "\"" + w + "\"" + (gap + rest);
    MatchWord(sort, key, w, gap + rest);
  }

  predicate CleanWord(key: string, w: Word) {
    Free('"', w.text) && Free('"', w.gap) && w.gap != key
  }

  predicate CleanWords(key: string, ws: seq<Word>) {
    forall i :: 0 <= i < |ws| ==> CleanWord(key, ws[i])
  }

  lemma {:induction false} NoSuchWord(sort: Sort, key: string, ws: seq<Word>)
    requires Free('"', key) && CleanWords(key, ws)
    requires forall i :: 0 <= i < |ws| ==> ws[i].text != key
    ensures Field(sort, key, Quoted(ws)) == None
  {
    if |ws| > 0 {
      NoSuchWord(sort, key, ws[1..]);
      WordStep(sort, key, ws[0].text, ws[0].gap, Quoted(ws[1..]));
    }
  }

  lemma {:induction false} OneSuchWord(sort: Sort, key: string, ws: seq<Word>, k: nat)
    requires Free('"', key) && CleanWords(key, ws) && k < |ws| && ws[k].text == key
    requires forall i :: 0 <= i < |ws| && i != k ==> ws[i].text != key
    requires Value(sort, ws[k].gap + Quoted(ws[k + 1..])).Some?
    ensures Field(sort, key, Quoted(ws)) == Value(sort, ws[k].gap + Quoted(ws[k + 1..]))
  {
    hide Value;
    if k == 0 {
      NoSuchWord(sort, key, ws[1..]);
    } else {
      assert ws[1..][k..] == ws[k + 1..];
      OneSuchWord(sort, key, ws[1..], k - 1);
    }
    WordStep(sort, key, ws[0].text, ws[0].gap, Quoted(ws[1..]));
  }

  lemma {:induction false} UntilNextQuote(w: string, rest: string)
    requires Free('"', w)
    ensures UntilQuote(w + "\"" + rest) == Some(w)
  {
    var s := w + "\"" + rest;
    if w == "" {
      assert s[0] == '"';
    } else {
      assert s[0] == w[0] && s[1..] == w[1..] + "\"" + rest;
      UntilNextQuote(w[1..], rest);
      assert w == [w[0]] + w[1..];
    }
  }

  lemma TextValueOf(w: string, rest: string)
    requires Free('"', w)
    ensures Value(Str, ":" + ("\"" + w + "\"" + rest)) == Some(w)
  {
    var quoted := "\"" + w + "\"" + rest;
    var s := ":" + quoted;
    assert s[1..] == quoted && quoted[1..] == w + "\"" + rest;
    UntilNextQuote(w, rest);
  }

  lemma TextValue(ws: seq<Word>)
    requires |ws| > 0 && Free('"', ws[0].text)
    ensures Value(Str, ":" + Quoted(ws)) == Some(ws[0].text)
  {
    hide Value;
    var w, gap, more := ws[0].text, ws[0].gap, Quoted(ws[1..]);
    assert "\"" + w + "\"" + gap + more == "\"" + w + "\"" + (gap + more);
    TextValueOf(w, gap + more);
  }

  lemma FlagValue(b: bool, rest: string)
    ensures Value(Bool, ":" + Flag(b) + "," + rest) == Some(Flag(b))
  {
    var s := ":" + Flag(b) + "," + rest;
    assert s[1..] == Flag(b) + ("," + rest);
    assert Flag(b) <= s[1..];
    if !b { assert s[1] == 'f'; } else { assert s[1] == 't'; }
  }

  predicate AllSpace(s: string) {
    forall i :: 0 <= i < |s| ==>
      s[i] == ' ' || s[i] == '\t' || s[i] == '\n' || s[i] == '\r' || s[i] == 11 as char || s[i] == 12 as char
  }

  lemma {:induction false} SpaceSkipped(sp: string, s: string)
    requires AllSpace(sp) && (s == "" || s[0] == ':' || s[0] == '"' || s[0] == 't' || s[0] == 'f')
    ensures SkipSpace(sp + s) == s
  {
    if sp == "" {
      assert sp + s == s;
    } else {
      assert (sp + s)[0] == sp[0] && (sp + s)[1..] == sp[1..] + s;
      SpaceSkipped(sp[1..], s);
    }
  }

  /** White space around the colon does not matter to the readers of one field. */
  lemma SpacesAround(before: string, after: string, w: string, b: bool, rest: string)
    requires AllSpace(before) && AllSpace(after) && Free('"', w)
    ensures Value(Str, before + (":" + (after + ("\"" + w + "\"" + rest)))) == Some(w)
    ensures Value(Bool, before + (":" + (after + (Flag(b) + rest)))) == Some(Flag(b))
  {
    var text, flag := "\"" + w + "\"" + rest, Flag(b) + rest;
    assert text[0] == '"' && flag[0] == if b then 't' else 'f';
    SpaceSkipped(before, ":" + (after + text));
    SpaceSkipped(before, ":" + (after + flag));
    SpaceSkipped(after, text);
    SpaceSkipped(after, flag);
    assert (":" + (after + text))[1..] == after + text && (":" + (after + flag))[1..] == after + flag;
    assert text[1..] == w + "\"" + rest;
    UntilNextQuote(w, rest);
    assert Flag(b) <= flag;
    hide SkipSpace, UntilQuote;
  }

  predicate IsKey(key: string) {
    key == "transport_id" || key == "id" || key == "kind" || key == "load_by_default"
  }

  lemma PartWordsClean(p: Part, n: nat, end: string, key: string)
    requires IsPart(p, n) && IsKey(key) && Free('"', end)
    ensures Free('"', key) && CleanWords(key, PartWords(p, end))
  {
    TransportIdNumber(n);
    hide TransportId, NumberOf;
    assert CleanWord(key, Word("id", ":")) && CleanWord(key, Word(p.sem, ","));
    assert CleanWord(key, Word("transport_id", ":")) && CleanWord(key, Word(p.tid, ","));
    assert CleanWord(key, Word("kind", ":")) && CleanWord(key, Word(p.kind, ","));
    FlagWord(key, "required", p.required);
    FlagWord(key, "load_by_default", p.lbd);
    SizeWord(key, p.size, end);
    hide CleanWord, IsKey, IsPart;
  }

  lemma FlagWord(key: string, text: string, b: bool)
    requires IsKey(key) && Free('"', text)
    ensures CleanWord(key, Word(text, ":" + Flag(b) + ","))
  {
    if b { assert ":" + Flag(b) + "," == ":true,"; } else { assert ":" + Flag(b) + "," == ":false,"; }
  }

  lemma SizeWord(key: string, size: nat, end: string)
    requires IsKey(key) && Free('"', end)
    ensures CleanWord(key, Word("plaintext_size", ":" + Decimal(size) + "}" + end))
  {
    var gap := ":" + Decimal(size) + "}" + end;
    assert gap[0] == ':';
    forall i | 0 <= i < |gap| ensures gap[i] != '"' {
      if 1 <= i <= |Decimal(size)| { assert gap[i] == Decimal(size)[i - 1]; }
    }
  }

  /** In a part's line each key is one word, whatever the semantic id. */
  lemma PartWordsOnce(p: Part, n: nat, end: string, key: string, k: nat)
    requires IsPart(p, n) && IsKey(key) && k < 9 && PartWords(p, end)[k].text == key
    ensures forall i :: 0 <= i < 9 && i != k ==> PartWords(p, end)[i].text != key
  {
    TransportIdNumber(n);
    hide TransportId, NumberOf;
    var ws := PartWords(p, end);
    assert p.sem[0] != key[0] && p.tid[0] != key[0];
    assert p.kind[0] != key[0] || |p.kind| != |key|;
  }

  lemma PartTextField(p: Part, n: nat, end: string, key: string, k: nat)
    requires IsPart(p, n) && IsKey(key) && Free('"', end)
    requires k == 0 || k == 2 || k == 4
    requires PartWords(p, end)[k].text == key
    ensures Field(Str, key, "    {" + Quoted(PartWords(p, end))) == Some(PartWords(p, end)[k + 1].text)
  {
    var ws := PartWords(p, end);
    PartWordsClean(p, n, end, key);
    PartWordsOnce(p, n, end, key, k);
    hide PartWords, Quoted, Value, IsPart;
    assert ws[k].gap == ":" && |ws| == 9 && Free('"', ws[k + 1].text) by { PartGaps(p, end); }
    assert ws[k + 1..][0] == ws[k + 1];
    TextValue(ws[k + 1..]);
    OneSuchWord(Str, key, ws, k);
    SkipQuoteFree(Str, key, "    {", Quoted(ws));
  }

  lemma PartGaps(p: Part, end: string)
    ensures var ws := PartWords(p, end); |ws| == 9 && ws[0].gap == ws[2].gap == ws[4].gap == ":"
  {
  }

  lemma PartFlagField(p: Part, n: nat, end: string)
    requires IsPart(p, n) && Free('"', end)
    ensures Field(Bool, "load_by_default", "    {" + Quoted(PartWords(p, end))) == Some(Flag(p.lbd))
  {
    var ws, key := PartWords(p, end), "load_by_default";
    PartWordsClean(p, n, end, key);
    PartWordsOnce(p, n, end, key, 7);
    FlagValue(p.lbd, Quoted(ws[8..]));
    assert ws[7].gap == ":" + Flag(p.lbd) + ",";
    hide PartWords, Quoted, Value, IsPart;
    OneSuchWord(Bool, key, ws, 7);
    SkipQuoteFree(Bool, key, "    {", Quoted(ws));
  }

  lemma {:induction false} ContainsBehind(a: string, s: string, t: string)
    requires Contains(s, t)
    ensures Contains(a + s, t)
  {
    if a == "" {
      assert a + s == s;
    } else {
      assert (a + s)[1..] == a[1..] + s;
      ContainsBehind(a[1..], s, t);
    }
  }

  lemma {:induction false} QuotedContains(ws: seq<Word>, k: nat)
    requires k < |ws|
    ensures Contains(Quoted(ws), "\"" + ws[k].text + "\"")
  {
    var t := "\"" + ws[k].text + "\"";
    if k == 0 {
      assert t <= Quoted(ws);
    } else {
      QuotedContains(ws[1..], k - 1);
      ContainsBehind("\"" + ws[0].text + "\"" + ws[0].gap, Quoted(ws[1..]), t);
    }
  }

  lemma PartFields(p: Part, n: nat, end: string, line: string)
    requires IsPart(p, n) && Free('"', end) && line == "    {" + Quoted(PartWords(p, end))
    ensures Field(Str, "id", line) == Some(p.sem) && Field(Str, "transport_id", line) == Some(p.tid)
    ensures Field(Str, "kind", line) == Some(p.kind) && Field(Bool, "load_by_default", line) == Some(Flag(p.lbd))
  {
    hide Quoted, Field, IsPart, Decimal, Free;
    PartTextField(p, n, end, "id", 0);
    PartTextField(p, n, end, "transport_id", 2);
    PartTextField(p, n, end, "kind", 4);
    PartFlagField(p, n, end);
  }

  lemma PartFieldsAreFields(p: Part, n: nat)
    requires IsPart(p, n)
    ensures p.tid != "" && p.sem != "" && p.kind != "" && Flag(p.lbd) != ""
    ensures Free('\t', p.tid) && Free('\t', p.sem) && Free('\t', p.kind) && Free('\t', Flag(p.lbd))
  {
    TransportIdNumber(n);
    hide TransportId, NumberOf;
  }

  /** What a part's line reads back as. */
  lemma PartRow(ps: seq<Part>, i: nat)
    requires i < |ps| && IsPart(ps[i], i + 1)
    ensures Contains(PartLine(ps, i), "\"transport_id\"")
    ensures ReadFields(RowOf(PartLine(ps, i))) == FieldsOf(ps[i])
  {
    var p, end, line := ps[i], if i < |ps| - 1 then "," else "", PartLine(ps, i);
    assert Free('"', end) && line == "    {" + Quoted(PartWords(p, end));
    hide PartLine, PartWords, Quoted, Field, Contains, ReadFields, IsPart, Free;
    PartSelected(p, end);
    PartFields(p, i + 1, end, line);
    PartFieldsAreFields(p, i + 1);
    FourFields(p.tid, p.sem, p.kind, Flag(p.lbd));
  }

  lemma PartSelected(p: Part, end: string)
    ensures Contains("    {" + Quoted(PartWords(p, end)), "\"transport_id\"")
  {
    var ws := PartWords(p, end);
    QuotedContains(ws, 2);
    assert "\"" + ws[2].text + "\"" == "\"transport_id\"";
    hide Contains, Quoted, PartWords;
    ContainsBehind("    {", Quoted(ws), "\"transport_id\"");
  }

  // --------------------------------------------------------- splitting one row again

  lemma {:induction false} TabEndsField(a: string, s: string)
    requires Free('\t', a)
    ensures UpToTab(a + "\t" + s) == a && AfterTab(a + "\t" + s) == DropTabs(s)
  {
    var row := a + "\t" + s;
    if a == "" {
      assert row[0] == '\t' && row[1..] == s;
    } else {
      assert row[0] == a[0] && row[1..] == a[1..] + "\t" + s;
      TabEndsField(a[1..], s);
      assert a == [a[0]] + a[1..];
    }
  }

  lemma FourFields(a: string, b: string, c: string, d: string)
    requires a != "" && b != "" && c != "" && d != ""
    requires Free('\t', a) && Free('\t', b) && Free('\t', c) && Free('\t', d)
    ensures ReadFields(a + "\t" + b + "\t" + c + "\t" + d) == Fields(a, b, c, d)
  {
    var row, r1, r2 := a + "\t" + b + "\t" + c + "\t" + d, b + "\t" + c + "\t" + d, c + "\t" + d;
    assert row == a + "\t" + r1 && row[0] == a[0];
    assert r1 == b + "\t" + r2 && r1[0] == b[0] && r2[0] == c[0];
    hide UpToTab, AfterTab;
    TabEndsField(a, r1);
    TabEndsField(b, r2);
    TabEndsField(c, d);
  }

  function Tabs(n: nat): string {
    seq(n, i => '\t')
  }

  lemma {:induction false} TabsDropped(n: nat, s: string)
    requires s == "" || s[0] != '\t'
    ensures DropTabs(Tabs(n) + s) == s
  {
    if n == 0 {
      assert Tabs(0) + s == s;
    } else {
      assert (Tabs(n) + s)[0] == '\t' && (Tabs(n) + s)[1..] == Tabs(n - 1) + s;
      TabsDropped(n - 1, s);
    }
  }

  lemma {:induction false} TabsTrimmed(n: nat, s: string)
    requires s != "" && s[|s| - 1] != '\t'
    ensures TrimTabs(s + Tabs(n)) == s
  {
    if n == 0 {
      assert s + Tabs(0) == s;
    } else {
      var t := s + Tabs(n);
      assert t[|t| - 1] == '\t' && t[..|t| - 1] == s + Tabs(n - 1);
      TabsTrimmed(n - 1, s);
    }
  }

  lemma NextField(a: string, n: nat, rest: string)
    requires Free('\t', a) && n > 0 && (rest == "" || rest[0] != '\t')
    ensures UpToTab(a + Tabs(n) + rest) == a && AfterTab(a + Tabs(n) + rest) == rest
  {
    var more := Tabs(n - 1) + rest;
    assert a + Tabs(n) + rest == a + "\t" + more;
    TabEndsField(a, more);
    TabsDropped(n - 1, rest);
  }

  /** Any runs of tabs before, between and after four fields read as the four fields. */
  lemma TabsRunTogether(a: string, b: string, c: string, d: string, i: nat, j: nat, k: nat, l: nat, m: nat)
    requires a != "" && b != "" && c != "" && d != "" && j > 0 && k > 0 && l > 0
    requires Free('\t', a) && Free('\t', b) && Free('\t', c) && Free('\t', d)
    ensures ReadFields(Tabs(i) + (a + Tabs(j) + (b + Tabs(k) + (c + Tabs(l) + (d + Tabs(m)))))) == Fields(a, b, c, d)
  {
    var r3 := d + Tabs(m);
    var r2 := c + Tabs(l) + r3;
    var r1 := b + Tabs(k) + r2;
    var r0 := a + Tabs(j) + r1;
    assert r0[0] == a[0] && r1[0] == b[0] && r2[0] == c[0] && r3[0] == d[0];
    TabsDropped(i, r0);
    NextField(a, j, r1);
    NextField(b, k, r2);
    NextField(c, l, r3);
    TabsTrimmed(m, d);
    hide UpToTab, AfterTab, DropTabs, TrimTabs, Tabs;
  }

  /** Tabs run together: a row of four empty fields leaves every variable empty. */
  lemma NoFields()
    ensures ReadFields("\t\t\t") == Fields("", "", "", "")
  {
    assert "\t\t\t"[1..] == "\t\t" && "\t\t"[1..] == "\t" && "\t"[1..] == "";
    assert DropTabs("\t") == "" && DropTabs("\t\t") == "";
  }

  // --------------------------------------------------------------- the other lines

  /** The line reads back as a row that the reading loops skip. */
  predicate Silent(line: string) {
    && Field(Str, "transport_id", line) == None && Field(Str, "id", line) == None
    && Field(Str, "kind", line) == None && Field(Bool, "load_by_default", line) == None
  }

  lemma SilentIsSkipped(line: string)
    requires Silent(line)
    ensures ReadFields(RowOf(line)).tid == ""
  {
    hide Field;
    NoFields();
    assert RowOf(line) == "\t\t\t";
  }

  predicate OtherWords(ws: seq<Word>) {
    forall i :: 0 <= i < |ws| ==>
      Free('"', ws[i].text) && Free('"', ws[i].gap) && !IsKey(ws[i].text) && !IsKey(ws[i].gap)
  }

  lemma WordsAreSilent(a: string, ws: seq<Word>)
    requires Free('"', a) && OtherWords(ws)
    ensures Silent(a + Quoted(ws))
  {
    hide Quoted;
    forall sort: Sort, key | IsKey(key) ensures Field(sort, key, a + Quoted(ws)) == None {
      NoSuchWord(sort, key, ws);
      SkipQuoteFree(sort, key, a, Quoted(ws));
    }
  }

  /** A quote at this place has a backslash before it. */
  predicate Escaped(s: string, i: nat)
    requires i < |s|
  {
    s[i] == '"' ==> i > 0 && s[i - 1] == '\\'
  }

  predicate AllEscaped(s: string) {
    forall i :: 0 <= i < |s| ==> Escaped(s, i)
  }

  lemma {:induction false} EscapedQuotes(slash: string, title: string)
    requires slash == "\\" || slash == "\\\\"
    ensures AllEscaped(Escape(slash, title))
    ensures Free('\n', title) ==> Free('\n', Escape(slash, title))
  {
    if title != "" {
      EscapedQuotes(slash, title[1..]);
      var e, head, rest := Escape(slash, title), EscapeChar(slash, title[0]), Escape(slash, title[1..]);
      forall i | 0 <= i < |e| ensures Escaped(e, i) {
        if i >= |head| { assert Escaped(rest, i - |head|); }
      }
    }
  }

  lemma {:induction false} NoMatchAnywhere(sort: Sort, key: string, s: string)
    requires forall i :: 0 <= i < |s| ==> MatchHere(sort, key, s[i..]) == None
    ensures Field(sort, key, s) == None
  {
    hide MatchHere;
    if s != "" {
      forall i | 0 <= i < |s[1..]| ensures MatchHere(sort, key, s[1..][i..]) == None {
        assert s[1..][i..] == s[i + 1..];
      }
      NoMatchAnywhere(sort, key, s[1..]);
      assert s[0..] == s;
    }
  }

  /** The only quotes of the title's line without a backslash before them. */
  lemma TitleQuotes(slash: string, title: string, k: nat)
    requires slash == "\\" || slash == "\\\\"
    requires k < |TitleLine(slash, title)| && TitleLine(slash, title)[k] == '"'
    ensures k == 2 || k == 8 || k == 11 || k == |TitleLine(slash, title)| - 2
            || (k > 12 && TitleLine(slash, title)[k - 1] == '\\')
  {
    EscapedQuotes(slash, title);
    var e, line, start := Escape(slash, title), TitleLine(slash, title), "  \"title\": \"";
    hide Escape;
    assert start[0] == start[1] == start[10] == ' ' && start[3] == 't' && start[4] == 'i' && start[5] == 't';
    assert |line| == 14 + |e| && line[13 + |e|] == ',';
    assert start[6] == 'l' && start[7] == 'e' && start[9] == ':';
    if k < 12 {
      assert line[k] == start[k];
    } else if k < 12 + |e| {
      assert line[k] == e[k - 12] && Escaped(e, k - 12);
      assert line[k - 1] == e[k - 13];
    }
  }

  /** A key in quotes can occur in the title's line only at its end. */
  lemma TitleKeyIsLast(slash: string, title: string, key: string, i: nat)
    requires slash == "\\" || slash == "\\\\"
    requires IsKey(key) && i < |TitleLine(slash, title)| && "\"" + key + "\"" <= TitleLine(slash, title)[i..]
    ensures TitleLine(slash, title)[i..][|key| + 2..] == ","
  {
    var line, quoted, j := TitleLine(slash, title), "\"" + key + "\"", i + 1 + |key|;
    assert line[9] == ':' && line[|line| - 1] == ',';
    hide TitleLine;
    assert forall k :: 0 <= k < |quoted| ==> line[i + k] == line[i..][k] == quoted[k];
    assert line[i] == quoted[0] && line[j] == quoted[|key| + 1];
    assert line[i + 1] == quoted[1] == key[0] && line[j - 1] == quoted[|key|] == key[|key| - 1];
    TitleQuotes(slash, title, i);
    TitleQuotes(slash, title, j);
    assert line[i..][|key| + 2..] == line[j + 1..];
  }

  lemma TitleIsSilent(slash: string, title: string)
    requires slash == "\\" || slash == "\\\\"
    ensures Silent(TitleLine(slash, title))
  {
    var line := TitleLine(slash, title);
    assert Value(Str, ",") == None && Value(Bool, ",") == None;
    hide TitleLine, Value;
    forall sort: Sort, key | IsKey(key) ensures Field(sort, key, line) == None {
      forall i | 0 <= i < |line| ensures MatchHere(sort, key, line[i..]) == None {
        if "\"" + key + "\"" <= line[i..] { TitleKeyIsLast(slash, title, key, i); }
      }
      NoMatchAnywhere(sort, key, line);
    }
  }
}
