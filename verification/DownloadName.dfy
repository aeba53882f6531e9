/** internal/cli/update.go: a safe name for a downloaded file, and a free path for it. */
module DownloadName {
  import opened Text
  import opened Decimal

  // ---------------------------------------------------------------- the safe name

  predicate Reserved(c: char) {
    || c == '/' || c == '\\' || c == ':' || c == '*' || c == '?'
    || c == '"' || c == '<' || c == '>' || c == '|'
  }

  function Underscored(s: string): (r: string)
    ensures |r| == |s|
    ensures forall i :: 0 <= i < |s| ==> r[i] == if Reserved(s[i]) then '_' else s[i]
  {
    seq(|s|, i requires 0 <= i < |s| => if Reserved(s[i]) then '_' else s[i])
  }

  predicate DotOrSpace(c: char) {
    c == '.' || c == ' '
  }

  const DEFAULT_NAME := "hostd-update"

  /** `safeDownloadName`. */
  function SafeName(name: string): string {
    var value := TrimBoth(Underscored(Trim(name)), DotOrSpace);
    if value == "" then DEFAULT_NAME else value
  }

  /** A name that denotes one entry of its directory, on Unix and Windows alike. */
  predicate EntryName(name: string) {
    name != "" && name != "." && name != ".." && forall c <- name :: !Reserved(c)
  }

  lemma {:induction false} SafeNameIsEntry(name: string)
    ensures var safe := SafeName(name);
            EntryName(safe) && !DotOrSpace(safe[0]) && !DotOrSpace(safe[|safe| - 1])
  {
    var raw := Underscored(Trim(name));
    TrimMembers(raw, DotOrSpace);
    UnderscoredIsPlain(Trim(name));
    DefaultIsEntry();
    var value := TrimBoth(raw, DotOrSpace);
    if value != "" {
      assert SafeName(name) == value;
    }
  }

  lemma {:induction false} UnderscoredIsPlain(s: string)
    ensures forall c <- Underscored(s) :: !Reserved(c)
  {
  }

  lemma {:induction false} DefaultIsEntry()
    ensures EntryName(DEFAULT_NAME) && !DotOrSpace(DEFAULT_NAME[0]) && !DotOrSpace(DEFAULT_NAME[|DEFAULT_NAME| - 1])
  {
  }

  /** A non-empty name that needs no change. */
  predicate AlreadySafe(name: string) {
    name != "" && Trimmed(name) && (forall c <- name :: !Reserved(c))
    && !DotOrSpace(name[0]) && !DotOrSpace(name[|name| - 1])
  }

  lemma {:induction false} PlainIsUnderscored(s: string)
    requires forall c <- s :: !Reserved(c)
    ensures Underscored(s) == s
  {
    assert forall i :: 0 <= i < |s| ==> s[i] in s;
  }

  lemma {:induction false} TrimShortens(s: string)
    requires !Trimmed(s)
    ensures |Trim(s)| < |s|
  {
    TrimLeftIsSuffix(s, IsSpace);
    TrimRightIsPrefix(TrimLeft(s, IsSpace), IsSpace);
    assert |Trim(s)| == |s| ==> Trim(s) == s;
  }

  /** Exactly the names that need no change are returned unchanged. */
  lemma {:induction false} SafeNameFixpoints(name: string)
    ensures SafeName(name) == name <==> AlreadySafe(name)
  {
    DefaultIsEntry();
    if AlreadySafe(name) {
      PlainIsUnderscored(name);
    } else if SafeName(name) == name {
      SafeNameIsEntry(name);
      if !Trimmed(name) {
        TrimShortens(name);
      }
    }
  }

  /** Trimming both ends keeps a middle part and removes only characters from `drop`. */
  lemma {:induction false} TrimBothIsMiddle(raw: string, drop: char -> bool) returns (i: nat, j: nat)
    ensures i <= j <= |raw| && TrimBoth(raw, drop) == raw[i..j]
    ensures forall k :: 0 <= k < i || j <= k < |raw| ==> drop(raw[k])
  {
    var left := TrimLeft(raw, drop);
    var value := TrimRight(left, drop);
    TrimLeftIsSuffix(raw, drop);
    TrimRightIsPrefix(left, drop);
    TrimLeftRemoves(raw, drop);
    TrimRightRemoves(left, drop);
    i := |raw| - |left|;
    j := i + |value|;
    assert raw[i..j] == value;
    forall k | j <= k < |raw| ensures drop(raw[k]) {
      assert raw[k] == left[k - i];
    }
  }

  /** In general the safe name is the trimmed name with reserved characters replaced and nothing but
      leading and trailing dots and spaces removed; only when nothing is left is it the default. */
  lemma {:induction false} SafeNameIsMiddle(name: string) returns (i: nat, j: nat)
    ensures var raw := Underscored(Trim(name));
            && i <= j <= |raw|
            && (forall k :: 0 <= k < i || j <= k < |raw| ==> DotOrSpace(raw[k]))
            && SafeName(name) == if i == j then DEFAULT_NAME else raw[i..j]
  {
    var raw := Underscored(Trim(name));
    i, j := TrimBothIsMiddle(raw, DotOrSpace);
    assert raw[i..j] == "" <==> i == j;
  }

  // ---------------------------------------------------------------- paths

  /** `filepath.Clean` on Unix: whether the path is rooted, and its components. */
  datatype Path = Path(rooted: bool, parts: seq<string>)

  function CleanParts(rooted: bool, parts: seq<string>): seq<string> {
    if parts == [] then []
    else
      var before, last := CleanParts(rooted, parts[..|parts| - 1]), parts[|parts| - 1];
      if last == "" || last == "." then before
      else if last != ".." then before + [last]
      else if before != [] && before[|before| - 1] != ".." then before[..|before| - 1]
      else if rooted then before
      else before + [".."]
  }

  predicate Rooted(path: string) {
    path != "" && path[0] == '/'
  }

  function Clean(path: string): Path {
    Path(Rooted(path), CleanParts(Rooted(path), Split(path, '/')))
  }

  /** `filepath.Join(directory, name)` for a non-empty name. */
  function Join(directory: string, name: string): Path {
    Clean(if directory == "" then name else directory + ['/'] + name)
  }

  /** Joining an entry name gives a direct child of the directory, whatever the directory looks like. */
  lemma {:induction false} JoinIsChild(directory: string, name: string)
    requires EntryName(name)
    ensures Join(directory, name) == Path(Rooted(directory), Clean(directory).parts + [name])
  {
    assert '/' !in name;
    if directory == "" {
      SplitWhole(name, '/');
      assert Split("", '/') == [""] && CleanParts(false, [""]) == [];
      assert [name][..0] == [] && CleanParts(false, [name]) == [name];
    } else {
      SplitLast(directory, '/', name);
      var parts := Split(directory, '/');
      assert (parts + [name])[..|parts|] == parts;
    }
  }

  // ---------------------------------------------------------------- the candidates

  /** `filepath.Ext` of a name without separators. */
  function Extension(name: string): (r: string)
    ensures |r| <= |name|
  {
    if name == "" then ""
    else if name[|name| - 1] == '.' then "."
    else
      var before := Extension(name[..|name| - 1]);
      if before == "" then "" else before + [name[|name| - 1]]
  }

  lemma {:induction false} ExtensionIsSuffix(name: string)
    ensures Extension(name) == name[|name| - |Extension(name)|..]
    ensures Extension(name) != "" ==> Extension(name)[0] == '.' && '.' !in Extension(name)[1..]
    ensures Extension(name) == "" <==> '.' !in name
  {
    if name != "" {
      var n := |name| - 1;
      assert name == name[..n] + [name[n]];
      if name[n] != '.' {
        ExtensionIsSuffix(name[..n]);
      }
    }
  }

  function Stem(name: string): string {
    name[..|name| - |Extension(name)|]
  }

  /** The name tried at each turn: the safe name, then `stem-1.ext`, `stem-2.ext`, and so on. */
  function Candidate(safe: string, k: nat): string {
    if k == 0 then safe else Stem(safe) + "-" + Numeral(k) + Extension(safe)
  }

  /** The last resort, when every candidate is taken. */
  function Fallback(safe: string, pid: nat): string {
    safe + "-" + Numeral(pid)
  }

  const TRIES := 1000

  lemma {:induction false} NumeralIsPlain(n: nat)
    ensures forall c <- "-" + Numeral(n) :: !Reserved(c) && c != '.'
  {
    NumeralReads(n);
  }

  lemma {:induction false} StemAndExtension(name: string)
    ensures name == Stem(name) + Extension(name)
  {
    ExtensionIsSuffix(name);
  }

  predicate Plain(s: string) {
    forall c <- s :: !Reserved(c)
  }

  /** A name with a dash after plain text, and plain text after that, is an entry name. */
  lemma {:induction false} DashedIsEntry(front: string, middle: string, back: string)
    requires Plain(front) && Plain(middle) && Plain(back) && middle != "" && middle[0] == '-'
    ensures EntryName(front + middle + back)
  {
    assert (front + middle + back)[|front|] == '-';
  }

  lemma {:induction false} PartsArePlain(name: string)
    requires Plain(name)
    ensures Plain(Stem(name)) && Plain(Extension(name))
  {
    ExtensionIsSuffix(name);
  }

  lemma {:induction false} CandidateIsEntry(name: string, k: nat)
    ensures EntryName(Candidate(SafeName(name), k))
  {
    var safe := SafeName(name);
    SafeNameIsEntry(name);
    NumeralIsPlain(k);
    if k > 0 {
      PartsArePlain(safe);
      DashedIsEntry(Stem(safe), "-" + Numeral(k), Extension(safe));
      assert Candidate(safe, k) == Stem(safe) + ("-" + Numeral(k)) + Extension(safe);
    }
  }

  lemma {:induction false} FallbackIsEntry(name: string, pid: nat)
    ensures EntryName(Fallback(SafeName(name), pid))
  {
    var safe := SafeName(name);
    SafeNameIsEntry(name);
    NumeralIsPlain(pid);
    DashedIsEntry(safe, "-" + Numeral(pid), "");
    assert Fallback(safe, pid) == safe + ("-" + Numeral(pid)) + "";
  }

  lemma {:induction false} MiddleIsUnique(a: string, m: string, n: string, b: string)
    requires a + m + b == a + n + b
    ensures m == n
  {
    assert (a + m + b)[|a|..|a| + |m|] == m && (a + n + b)[|a|..|a| + |n|] == n;
  }

  lemma {:induction false} CandidatesDiffer(safe: string, j: nat, k: nat)
    ensures Candidate(safe, j) == Candidate(safe, k) <==> j == k
  {
    StemAndExtension(safe);
    if Candidate(safe, j) == Candidate(safe, k) && j > 0 && k > 0 {
      var dash := Stem(safe) + "-";
      MiddleIsUnique(dash, Numeral(j), Numeral(k), Extension(safe));
      NumeralReads(j);
      NumeralReads(k);
    }
  }

  // ---------------------------------------------------------------- the search

  datatype Stat = Present | Absent | Failed

  /** The first `n` candidates are all reported as something else than absent. */
  ghost predicate Taken(directory: string, safe: string, stat: Path -> Stat, n: nat) {
    forall j: nat :: j < n ==> !stat(Join(directory, Candidate(safe, j))).Absent?
  }

  /** The search stopped at candidate `k`, the first that `stat` reports absent, or ran out. */
  ghost predicate Found(directory: string, safe: string, stat: Path -> Stat, pid: nat, r: Path, k: nat) {
    && k <= TRIES
    && Taken(directory, safe, stat, k)
    && if k < TRIES then r == Join(directory, Candidate(safe, k)) && stat(r).Absent?
       else r == Join(directory, Fallback(safe, pid))
  }

  /** `r` is an entry of the directory itself. */
  ghost predicate IsChild(directory: string, r: Path) {
    exists n :: EntryName(n) && r == Path(Rooted(directory), Clean(directory).parts + [n])
  }

  lemma {:induction false} CandidateIsChild(directory: string, name: string, k: nat)
    ensures IsChild(directory, Join(directory, Candidate(SafeName(name), k)))
  {
    CandidateIsEntry(name, k);
    JoinIsChild(directory, Candidate(SafeName(name), k));
  }

  lemma {:induction false} FallbackIsChild(directory: string, name: string, pid: nat)
    ensures IsChild(directory, Join(directory, Fallback(SafeName(name), pid)))
  {
    FallbackIsEntry(name, pid);
    JoinIsChild(directory, Fallback(SafeName(name), pid));
  }

  lemma {:induction false} OneMoreTaken(directory: string, safe: string, stat: Path -> Stat, n: nat)
    requires Taken(directory, safe, stat, n) && !stat(Join(directory, Candidate(safe, n))).Absent?
    ensures Taken(directory, safe, stat, n + 1)
  {
  }

  /** `stat` tells the entries of the directory from names that are not there. */
  ghost predicate Lists(directory: string, stat: Path -> Stat, entries: set<string>) {
    forall n :: EntryName(n) ==> (stat(Join(directory, n)).Absent? <==> n !in entries)
  }

  lemma {:induction false} FirstCandidates(safe: string, n: nat) returns (names: set<string>)
    ensures |names| == n
    ensures forall x :: x in names <==> exists k: nat :: k < n && x == Candidate(safe, k)
  {
    if n == 0 {
      names := {};
    } else {
      var before := FirstCandidates(safe, n - 1);
      forall k: nat | k < n - 1 ensures Candidate(safe, k) != Candidate(safe, n - 1) {
        CandidatesDiffer(safe, k, n - 1);
      }
      names := before + {Candidate(safe, n - 1)};
    }
  }

  lemma {:induction false} SubsetIsSmaller(b: set<string>, a: set<string>)
    requires b <= a
    ensures |b| <= |a|
  {
    assert b + (a - b) == a;
  }

  lemma {:induction false} SmallerIsNotSuperset(a: set<string>, b: set<string>)
    requires |a| < |b|
    ensures exists x :: x in b && x !in a
  {
    if b <= a {
      SubsetIsSmaller(b, a);
    }
  }

  /** Among a thousand different names, a directory with fewer entries leaves one free. */
  lemma {:induction false} Pigeonhole(safe: string, entries: set<string>)
    requires |entries| < TRIES
    ensures exists k: nat :: k < TRIES && Candidate(safe, k) !in entries
  {
    var names := FirstCandidates(safe, TRIES);
    SmallerIsNotSuperset(entries, names);
  }

  /** `uniqueDownloadPath`. The path returned is a direct child of the directory; with fewer than a
      thousand entries there, and a `stat` that tells them, nothing exists at it. */
  method UniquePath(directory: string, name: string, stat: Path -> Stat, pid: nat, ghost entries: set<string>)
    returns (r: Path, ghost k: nat)
    ensures Found(directory, SafeName(name), stat, pid, r, k)
    ensures IsChild(directory, r)
    ensures Lists(directory, stat, entries) && |entries| < TRIES ==> stat(r).Absent?
  {
    var safe := SafeName(name);
    r, k := Join(directory, safe), 0;
    if stat(r).Absent? {
      CandidateIsChild(directory, name, 0);
      return;
    }
    OneMoreTaken(directory, safe, stat, 0);
    var extension := Extension(safe);
    var stem := safe[..|safe| - |extension|];
    for index := 1 to TRIES
      invariant Taken(directory, safe, stat, index)
    {
      var candidate := stem + "-" + Numeral(index) + extension;
      r, k := Join(directory, candidate), index;
      if stat(r).Absent? {
        CandidateIsChild(directory, name, index);
        return;
      }
      OneMoreTaken(directory, safe, stat, index);
    }
    k := TRIES;
    r := Join(directory, Fallback(safe, pid));
    FallbackIsChild(directory, name, pid);
    NoneTaken(directory, name, stat, entries);
  }

  lemma {:induction false} NoneTaken(directory: string, name: string, stat: Path -> Stat, entries: set<string>)
    requires Taken(directory, SafeName(name), stat, TRIES)
    ensures !(Lists(directory, stat, entries) && |entries| < TRIES)
  {
    if |entries| < TRIES {
      FreeCandidate(directory, name, stat, entries);
    }
  }

  lemma {:induction false} FreeCandidate(directory: string, name: string, stat: Path -> Stat, entries: set<string>)
    requires |entries| < TRIES
    ensures Lists(directory, stat, entries)
        ==> exists k: nat :: k < TRIES && stat(Join(directory, Candidate(SafeName(name), k))).Absent?
  {
    Pigeonhole(SafeName(name), entries);
    var k: nat :| k < TRIES && Candidate(SafeName(name), k) !in entries;
    CandidateIsEntry(name, k);
  }

  /** The last resort repeats a name already found taken exactly when the safe name has no extension and
      the process number is the candidate's. */
  lemma {:induction false} FallbackRepeats(safe: string, pid: nat, k: nat)
    ensures Fallback(safe, pid) == Candidate(safe, k) <==> Extension(safe) == "" && k == pid && k > 0
  {
    StemAndExtension(safe);
    ExtensionIsSuffix(safe);
    if Extension(safe) == "" {
      assert Stem(safe) == safe;
      if k > 0 {
        assert Candidate(safe, k) == Fallback(safe, k);
        NumeralReads(k);
        NumeralReads(pid);
        assert Fallback(safe, k) == Fallback(safe, pid) ==> Numeral(k) == Numeral(pid) by {
          TailIsUnique(safe + "-", Numeral(k), Numeral(pid));
        }
      }
    } else {
      LastDotsDiffer(safe, pid, k);
    }
  }

  lemma {:induction false} TailIsUnique(a: string, m: string, n: string)
    ensures a + m == a + n <==> m == n
  {
    assert (a + m)[|a|..] == m && (a + n)[|a|..] == n;
  }

  /** After the extension's dot there is no other in the last resort. */
  lemma {:induction false} NoDotAfter(stem: string, extension: string, plain: string, i: nat)
    requires extension != "" && '.' !in extension[1..] && '.' !in plain
    requires |stem| < i < |stem| + |extension| + |plain|
    ensures (stem + extension + plain)[i] != '.'
  {
    if i < |stem| + |extension| {
      assert (stem + extension + plain)[i] == extension[1..][i - |stem| - 1];
    } else {
      assert (stem + extension + plain)[i] == plain[i - |stem| - |extension|];
    }
  }

  lemma {:induction false} LastDotsDiffer(safe: string, pid: nat, k: nat)
    requires Extension(safe) != ""
    ensures Fallback(safe, pid) != Candidate(safe, k)
  {
    var e, s, plain := Extension(safe), Stem(safe), "-" + Numeral(pid);
    var f, c := Fallback(safe, pid), Candidate(safe, k);
    StemAndExtension(safe);
    ExtensionIsSuffix(safe);
    NumeralIsPlain(pid);
    var i := |c| - |e|;
    assert c[i] == e[0];
    if |f| == |c| {
      assert f == s + e + plain;
      NoDotAfter(s, e, plain, i);
    }
  }
}
