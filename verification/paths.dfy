/** How storage keys map to files, and how the listing maps files back to keys. */
module Paths {
  import opened Records
  import opened Text

  // ------------------------------------------------------------------ path cleaning

  /** The effect of one path element on the elements kept so far, in a rooted path. */
  function Push(stack: seq<string>, e: string): seq<string> {
    if e == "" || e == "." then stack
    else if e == ".." then (if |stack| == 0 then [] else stack[..|stack| - 1])
    else stack + [e]
  }

  function PushAll(stack: seq<string>, es: seq<string>): seq<string>
    decreases |es|
  {
    if |es| == 0 then stack else PushAll(Push(stack, es[0]), es[1..])
  }

  /** filepath.Clean on a rooted path. */
  function CleanRooted(s: string): string {
    "/" + Join('/', PushAll([], Split('/', s)))
  }

  predicate Proper(e: string) {
    e != "" && e != "." && e != ".." && Free('/', e)
  }

  predicate AllProper(es: seq<string>) {
    forall i :: 0 <= i < |es| ==> Proper(es[i])
  }

  lemma {:induction false} PushAllProper(stack: seq<string>, es: seq<string>)
    requires AllProper(stack) && AllFree('/', es)
    ensures AllProper(PushAll(stack, es))
    decreases |es|
  {
    if |es| > 0 { PushAllProper(Push(stack, es[0]), es[1..]); }
  }

  lemma {:induction false} PushAllAppend(stack: seq<string>, xs: seq<string>, ys: seq<string>)
    ensures PushAll(stack, xs + ys) == PushAll(PushAll(stack, xs), ys)
    decreases |xs|
  {
    if |xs| == 0 {
      assert xs + ys == ys;
    } else {
      assert (xs + ys)[1..] == xs[1..] + ys;
      PushAllAppend(Push(stack, xs[0]), xs[1..], ys);
    }
  }

  lemma {:induction false} PushProper(stack: seq<string>, es: seq<string>)
    requires AllProper(es)
    ensures PushAll(stack, es) == stack + es
    decreases |es|
  {
    if |es| > 0 {
      PushProper(stack + [es[0]], es[1..]);
      assert stack + [es[0]] + es[1..] == stack + es;
    }
  }

  /** A directory as the store keeps it: absolute and clean. */
  predicate IsCleanDir(dir: string) {
    |dir| > 0 && dir[0] == '/' && CleanRooted(dir) == dir
  }

  /** The elements of a clean directory. */
  function Elements(dir: string): (es: seq<string>)
    requires IsCleanDir(dir)
    ensures AllProper(es) && dir == "/" + Join('/', es)
  {
    SplitFree('/', dir);
    PushAllProper([], Split('/', dir));
    PushAll([], Split('/', dir))
  }

  lemma RootHasNoElements(dir: string)
    requires IsCleanDir(dir)
    ensures dir == "/" <==> Elements(dir) == []
  {
    var es := Elements(dir);
    if |es| > 0 {
      assert |Join('/', es)| > 0 by { JoinNonEmpty(es); }
    }
  }

  lemma JoinNonEmpty(es: seq<string>)
    requires |es| > 0 && AllProper(es)
    ensures |Join('/', es)| > 0
  {
    assert Proper(es[0]);
  }

  // ------------------------------------------------------------------------- resolve

  predicate HasDotDot(s: string) {
    exists i :: 0 <= i && i + 1 < |s| && s[i] == '.' && s[i + 1] == '.'
  }

  /** The first test: empty keys, absolute keys and keys with ".." are refused. */
  predicate Admitted(key: string) {
    key != "" && key[0] != '/' && !HasDotDot(key)
  }

  /** `filepath.Join(b.dir, filepath.Clean("/" + key))`. */
  function JoinedPath(dir: string, key: string): string {
    CleanRooted(dir + "/" + CleanRooted("/" + key))
  }

  predicate HasPrefix(s: string, p: string) {
    |p| <= |s| && s[..|p|] == p
  }

  /** The second test fires: the path is neither the directory nor below it. */
  predicate Escapes(dir: string, key: string) {
    var p := JoinedPath(dir, key);
    p != dir && !HasPrefix(p, dir + "/")
  }

  function Resolve(dir: string, key: string): Option<string> {
    if !Admitted(key) then None
    else if Escapes(dir, key) then None
    else Some(JoinedPath(dir, key))
  }

  /** The elements of the cleaned key. */
  function KeyElements(key: string): (es: seq<string>)
    ensures AllProper(es)
  {
    SplitFree('/', "/" + key);
    PushAllProper([], Split('/', "/" + key));
    PushAll([], Split('/', "/" + key))
  }

  /** The joined path is the directory followed by the cleaned key. */
  lemma JoinedElements(dir: string, key: string)
    requires IsCleanDir(dir)
    ensures JoinedPath(dir, key) == "/" + Join('/', Elements(dir) + KeyElements(key))
  {
    var ks := KeyElements(key);
    var tail := CleanRooted("/" + key);
    assert tail == "/" + Join('/', ks);
    SplitAt('/', dir, tail);
    assert dir + "/" + tail == dir + ['/'] + tail;
    PushAllAppend([], Split('/', dir), Split('/', tail));
    SplitTail(ks);
    PushProper(Elements(dir), ks);
  }

  /** Pushing the pieces of a cleaned path pushes its elements. */
  lemma SplitTail(es: seq<string>)
    requires AllProper(es)
    ensures forall stack: seq<string> :: PushAll(stack, Split('/', "/" + Join('/', es))) == PushAll(stack, es)
  {
    var s := "/" + Join('/', es);
    assert s[1..] == Join('/', es);
    if |es| == 0 {
      assert s == "/" && Split('/', s) == ["", ""];
      forall stack: seq<string> ensures PushAll(stack, ["", ""]) == PushAll(stack, es) {
        assert ["", ""][1..] == [""];
      }
    } else {
      SplitJoin('/', es);
      assert Split('/', s) == [""] + es;
      forall stack: seq<string> ensures PushAll(stack, [""] + es) == PushAll(stack, es) {
        assert ([""] + es)[1..] == es;
      }
    }
  }

  /** The escape test never fires, except for a root directory. For any clean directory
      and any key, dots and all, the joined path is the directory or below it, unless the
      directory is "/" and the key names something. */
  lemma EscapesIff(dir: string, key: string)
    requires IsCleanDir(dir)
    ensures Escapes(dir, key) <==> dir == "/" && KeyElements(key) != []
  {
    var ds, ks := Elements(dir), KeyElements(key);
    JoinedElements(dir, key);
    RootHasNoElements(dir);
    if |ks| == 0 {
      assert ds + ks == ds;
    } else if |ds| == 0 {
      assert ds + ks == ks;
      JoinNonEmpty(ks);
      var p := JoinedPath(dir, key);
      assert Proper(ks[0]) && ks[0][0] != '/';
      assert p[1] == ks[0][0];
    } else {
      JoinAppend('/', ds, ks);
      assert JoinedPath(dir, key) == dir + "/" + Join('/', ks);
    }
  }

  /** The keys that are refused: empty ones, absolute ones, those with two dots in a row, and
      in a root directory all that name something. */
  lemma RefusedIff(dir: string, key: string)
    requires IsCleanDir(dir)
    ensures Resolve(dir, key).None? <==>
              || key == "" || key[0] == '/'
              || (exists i :: 0 <= i < |key| - 1 && key[i] == '.' && key[i + 1] == '.')
              || (dir == "/" && KeyElements(key) != [])
  {
    EscapesIff(dir, key);
    hide Escapes, KeyElements;
  }

  // -------------------------------------------------------------- keys kept literally

  /** No element of the key is empty or a single dot. With the first test there is no
      ".." either. */
  predicate Literal(key: string) {
    Admitted(key) && AllProper(Split('/', key))
  }

  lemma {:induction false} ShorterUnlessProper(es: seq<string>)
    requires AllFree('/', es) && forall i :: 0 <= i < |es| ==> es[i] != ".."
    ensures PushAll([], es) == [] || |Join('/', PushAll([], es))| <= |Join('/', es)|
    ensures PushAll([], es) != [] ==>
              (|Join('/', PushAll([], es))| == |Join('/', es)| <==> AllProper(es))
    ensures AllProper(es) ==> PushAll([], es) == es
  {
    if |es| > 0 {
      var init, e := es[..|es| - 1], es[|es| - 1];
      assert es == init + [e];
      PushAllAppend([], init, [e]);
      ShorterUnlessProper(init);
      assert PushAll(PushAll([], init), [e]) == Push(PushAll([], init), e) by {
        assert [e][1..] == [];
      }
      assert AllProper(es) <==> AllProper(init) && Proper(e);
      if |init| > 0 { JoinAppend('/', init, [e]); }
      var kept := PushAll([], init);
      if |kept| > 0 { JoinAppend('/', kept, [e]); } else { assert kept + [e] == [e]; }
    }
  }

  lemma {:induction false} NoDotDotElement(s: string)
    requires !HasDotDot(s)
    ensures forall i :: 0 <= i < |Split('/', s)| ==> !HasDotDot(Split('/', s)[i]) && Split('/', s)[i] != ".."
    ensures |s| > 0 && |Split('/', s)[0]| > 0 ==> Split('/', s)[0][0] == s[0]
  {
    if |s| > 0 {
      forall i | 0 <= i && i + 1 < |s[1..]| ensures !(s[1..][i] == '.' && s[1..][i + 1] == '.') {
        assert s[1..][i] == s[i + 1] && s[1..][i + 1] == s[i + 2];
      }
      NoDotDotElement(s[1..]);
      var rest := Split('/', s[1..]);
      if s[0] != '/' { FirstElement(s, rest); }
    }
  }

  lemma FirstElement(s: string, rest: seq<string>)
    requires |s| > 0 && s[0] != '/' && !HasDotDot(s) && rest == Split('/', s[1..])
    requires !HasDotDot(rest[0]) && (|s[1..]| > 0 && |rest[0]| > 0 ==> rest[0][0] == s[1])
    ensures !HasDotDot([s[0]] + rest[0]) && [s[0]] + rest[0] != ".."
  {
    var e := [s[0]] + rest[0];
    if |s| == 1 { assert rest[0] == ""; }
    forall i | 0 <= i && i + 1 < |e| ensures !(e[i] == '.' && e[i + 1] == '.') {
      if i > 0 { assert e[i] == rest[0][i - 1] && e[i + 1] == rest[0][i]; }
    }
    assert HasDotDot("..") by { assert ".."[0] == '.' && ".."[1] == '.'; }
  }

  /** What every path below the directory begins with. */
  function Below(dir: string): string {
    if dir == "/" then "/" else dir + "/"
  }

  /** `List` turns a path below the directory into a key: what follows "dir/". */
  function Rel(dir: string, path: string): string
    requires HasPrefix(path, Below(dir))
  {
    path[|Below(dir)|..]
  }

  /** A key is given back by the listing exactly when it is literal. For any admitted key
      and any directory but the root, resolving succeeds, and the path is the directory, a
      slash and the key itself if and only if no element of the key is empty or a dot. */
  lemma ListedBackIff(dir: string, key: string)
    requires IsCleanDir(dir) && dir != "/" && Admitted(key)
    ensures Resolve(dir, key).Some?
    ensures Resolve(dir, key) == Some(dir + "/" + key) <==> Literal(key)
    ensures Literal(key) ==> HasPrefix(Resolve(dir, key).value, Below(dir)) && Rel(dir, Resolve(dir, key).value) == key
  {
    hide Escapes, JoinedPath, CleanRooted, PushAll, Join, HasDotDot;
    EscapesIff(dir, key);
    JoinedElements(dir, key);
    RootHasNoElements(dir);
    var es, ks, ds := Split('/', key), KeyElements(key), Elements(dir);
    KeptElements(key);
    JoinSplit('/', key);
    if |ks| == 0 {
      assert ds + ks == ds;
    } else {
      JoinAppend('/', ds, ks);
      assert JoinedPath(dir, key) == dir + "/" + Join('/', ks);
      SameTail(dir + "/", Join('/', ks), key);
    }
    if Literal(key) { assert (dir + "/" + key)[|dir| + 1..] == key; }
  }

  lemma SameTail(p: string, s: string, t: string)
    ensures p + s == p + t <==> s == t
  {
    if p + s == p + t { assert s == (p + s)[|p|..] && t == (p + t)[|p|..]; }
  }

  /** Cleaning an admitted key keeps it as it is exactly when all its elements are proper. */
  lemma KeptElements(key: string)
    requires Admitted(key)
    ensures KeyElements(key) != [] ==> (Join('/', KeyElements(key)) == key <==> AllProper(Split('/', key)))
    ensures AllProper(Split('/', key)) ==> KeyElements(key) != []
  {
    var es := Split('/', key);
    NoDotDotElement(key);
    SplitFree('/', key);
    assert ("/" + key)[1..] == key;
    assert Split('/', "/" + key) == [""] + es;
    assert ([""] + es)[1..] == es;
    assert KeyElements(key) == PushAll([], es);
    ShorterUnlessProper(es);
    JoinSplit('/', key);
  }

  // ------------------------------------------------- what cleaning does to admitted keys

  /** The elements of a key that name something. */
  function Names(es: seq<string>): seq<string> {
    if |es| == 0 then []
    else var most, last := Names(es[..|es| - 1]), es[|es| - 1];
         if last == "" || last == "." then most else most + [last]
  }

  lemma {:induction false} PushesNames(es: seq<string>)
    requires forall i :: 0 <= i < |es| ==> es[i] != ".."
    ensures PushAll([], es) == Names(es)
  {
    if |es| > 0 {
      var init, e := es[..|es| - 1], es[|es| - 1];
      PushesNames(init);
      assert es == init + [e] && [e][1..] == [];
      PushAllAppend([], init, [e]);
    }
  }

  /** Cleaning an admitted key drops its empty elements and its dots, and nothing else. */
  lemma AdmittedElements(key: string)
    requires Admitted(key)
    ensures KeyElements(key) == Names(Split('/', key))
  {
    NoDotDotElement(key);
    assert ("/" + key)[1..] == key;
    assert Split('/', "/" + key) == [""] + Split('/', key);
    assert ([""] + Split('/', key))[1..] == Split('/', key);
    PushesNames(Split('/', key));
  }

  lemma {:induction false} NamesAppend(xs: seq<string>, ys: seq<string>)
    ensures Names(xs + ys) == Names(xs) + Names(ys)
  {
    if |ys| == 0 {
      assert xs + ys == xs;
    } else {
      assert (xs + ys)[..|xs + ys| - 1] == xs + ys[..|ys| - 1];
      NamesAppend(xs, ys[..|ys| - 1]);
    }
  }

  /** Where an admitted key is kept. */
  lemma ResolvedPath(dir: string, key: string)
    requires IsCleanDir(dir) && dir != "/" && Admitted(key)
    ensures Resolve(dir, key) ==
              Some(if KeyElements(key) == [] then dir else dir + "/" + Join('/', KeyElements(key)))
  {
    hide Escapes, JoinedPath, CleanRooted, PushAll, Join, HasDotDot;
    EscapesIff(dir, key);
    JoinedElements(dir, key);
    RootHasNoElements(dir);
    var ks, ds := KeyElements(key), Elements(dir);
    if |ks| == 0 {
      assert ds + ks == ds;
    } else {
      JoinAppend('/', ds, ks);
      assert JoinedPath(dir, key) == dir + "/" + Join('/', ks);
    }
  }

  /** Exactly when two admitted keys share a file: when their names are the same. */
  lemma ResolveEqualIff(dir: string, key: string, other: string)
    requires IsCleanDir(dir) && dir != "/" && Admitted(key) && Admitted(other)
    ensures Resolve(dir, key) == Resolve(dir, other) <==> KeyElements(key) == KeyElements(other)
    ensures Resolve(dir, key) == Resolve(dir, other) <==> Names(Split('/', key)) == Names(Split('/', other))
  {
    ResolvedPath(dir, key);
    ResolvedPath(dir, other);
    AdmittedElements(key);
    AdmittedElements(other);
    hide Resolve, KeyElements, Names, Join;
    var ks, os := KeyElements(key), KeyElements(other);
    SameTail(dir + "/", Join('/', ks), Join('/', os));
    if ks != [] && os != [] {
      SplitJoin('/', ks);
      SplitJoin('/', os);
    }
    assert |dir + "/" + Join('/', ks)| > |dir| && |dir + "/" + Join('/', os)| > |dir|;
  }

  predicate StrictlyBelow(dir: string, path: string) {
    path != dir && HasPrefix(path, Below(dir))
  }

  /** Exactly when an admitted key keeps the promise of a path strictly under the
      directory: when the directory is not the root and the key names something. The key
      "." is accepted, and is the directory itself. */
  lemma StrictlyBelowIff(dir: string, key: string)
    requires IsCleanDir(dir) && Admitted(key)
    ensures Resolve(dir, key).Some? && StrictlyBelow(dir, Resolve(dir, key).value)
            <==> dir != "/" && KeyElements(key) != []
    ensures KeyElements(key) == [] <==> forall i :: 0 <= i < |Split('/', key)| ==> Split('/', key)[i] in {"", "."}
  {
    AdmittedElements(key);
    NamesEmpty(Split('/', key));
    EscapesIff(dir, key);
    hide KeyElements, Names, Escapes, JoinedPath;
    if dir != "/" {
      ResolvedPath(dir, key);
      var path := dir + "/" + Join('/', KeyElements(key));
      assert path[..|dir| + 1] == dir + "/";
    } else if KeyElements(key) == [] {
      JoinedElements(dir, key);
      RootHasNoElements(dir);
      assert Elements(dir) + KeyElements(key) == [];
    }
  }

  lemma {:induction false} NamesEmpty(es: seq<string>)
    ensures Names(es) == [] <==> forall i :: 0 <= i < |es| ==> es[i] in {"", "."}
  {
    if |es| > 0 { NamesEmpty(es[..|es| - 1]); }
  }

  /** On literal keys the mapping is injective. */
  lemma ResolveInjective(dir: string, key: string, other: string)
    requires IsCleanDir(dir) && dir != "/" && Literal(key) && Literal(other)
    requires Resolve(dir, key) == Resolve(dir, other)
    ensures key == other
  {
    ListedBackIff(dir, key);
    ListedBackIff(dir, other);
  }

  /** Without that hypothesis keys collide: doubling a slash of any admitted key gives
      another admitted key for the same file. */
  lemma NonLiteralKeysCollide(dir: string, s: string, p: string)
    requires IsCleanDir(dir) && dir != "/" && Admitted(s + "/" + p)
    ensures Admitted(s + "//" + p) && s + "//" + p != s + "/" + p
    ensures Resolve(dir, s + "//" + p) == Resolve(dir, s + "/" + p) != None
  {
    DoubledSlash(s, p);
    ResolvedPath(dir, s + "/" + p);
    hide Resolve, Admitted, Names;
    ResolveEqualIff(dir, s + "/" + p, s + "//" + p);
  }

  lemma DoubledSlash(s: string, p: string)
    requires Admitted(s + "/" + p)
    ensures Admitted(s + "//" + p) && s + "//" + p != s + "/" + p
    ensures Names(Split('/', s + "//" + p)) == Names(Split('/', s + "/" + p))
  {
    var key, other := s + "/" + p, s + "//" + p;
    assert |s| > 0 && key[0] == s[0] == other[0];
    assert |other| == |key| + 1;
    forall i | 0 <= i && i + 1 < |other| ensures !(other[i] == '.' && other[i + 1] == '.') {
      if i + 1 < |s| {
        assert key[i] == other[i] && key[i + 1] == other[i + 1];
      } else if i > |s| + 1 {
        assert key[i - 1] == other[i] && key[i] == other[i + 1];
      }
    }
    SlashNames(s, p);
  }

  lemma SlashNames(s: string, p: string)
    ensures Names(Split('/', s + "/" + p)) == Names(Split('/', s)) + Names(Split('/', p))
    ensures Names(Split('/', s + "//" + p)) == Names(Split('/', s)) + Names(Split('/', p))
  {
    var rest := "" + ['/'] + p;
    assert s + "/" + p == s + ['/'] + p && s + "//" + p == s + ['/'] + rest;
    SplitAt('/', s, p);
    SplitAt('/', s, rest);
    SplitAt('/', "", p);
    assert Names([""]) == Names([""][..0]) == [];
    hide Names;
    NamesAppend(Split('/', s), Split('/', p));
    NamesAppend(Split('/', s), [""] + Split('/', p));
    NamesAppend([""], Split('/', p));
  }
}
