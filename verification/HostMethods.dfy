/** internal/config/config.go: `normalizeHostMethods`; internal/host/component.go: `normalizeMethods`,
    `removeMethod` and the method list of `NewComponent`. */
module HostMethods {
  import opened Text

  const UPDATE_METHOD := "host.update.apply"

  /** The full list, the same in both packages. */
  const METHODS: seq<string> := [
    "host.fs.stat", "host.fs.list", "host.fs.read", "host.fs.write", "host.fs.mkdir", "host.exec.run",
    UPDATE_METHOD]

  datatype MethodsError = Unsupported(name: string) | NoneLeft

  datatype MethodsResult = Accepted(methods: seq<string>) | Rejected(error: MethodsError)

  // ---------------------------------------------------------------- the specification

  /** The entries trimmed, blank ones dropped. */
  function Kept(values: seq<string>): seq<string> {
    if values == [] then []
    else
      var last := Trim(values[|values| - 1]);
      Kept(values[..|values| - 1]) + if last == "" then [] else [last]
  }

  /** Each entry where it first occurs. */
  function FirstOccurrences<T(==, !new)>(values: seq<T>): (r: seq<T>)
    ensures forall x :: x in r <==> x in values
    ensures r == [] <==> values == []
  {
    if values == [] then []
    else
      var before := FirstOccurrences(values[..|values| - 1]);
      var last := values[|values| - 1];
      if last in before then before else before + [last]
  }

  /** The first kept entry outside `supported`, if any. */
  function FirstUnsupported(kept: seq<string>, supported: seq<string>): (r: Option<string>)
    ensures r.None? <==> forall m <- kept :: m in supported
  {
    if kept == [] then None
    else
      var n := |kept| - 1;
      var before := FirstUnsupported(kept[..n], supported);
      assert kept == kept[..n] + [kept[n]];
      if before.Some? then before else if kept[n] in supported then None else Some(kept[n])
  }

  function NormalMethods(values: seq<string>, supported: seq<string>): MethodsResult {
    if values == [] then Accepted(supported)
    else
      var kept := Kept(values);
      var bad := FirstUnsupported(kept, supported);
      if bad.Some? then Rejected(Unsupported(bad.value))
      else if kept == [] then Rejected(NoneLeft)
      else Accepted(FirstOccurrences(kept))
  }

  // ---------------------------------------------------------------- its meaning

  predicate NoDuplicates<T(==)>(s: seq<T>) {
    forall i, j :: 0 <= i < j < |s| ==> s[i] != s[j]
  }

  /** `r` picks positions of `values` in increasing order, each the first occurrence of its entry. */
  ghost predicate FirstOccurrenceOrder<T>(values: seq<T>, r: seq<T>, at: seq<nat>) {
    && |at| == |r|
    && (forall k :: 0 <= k < |r| ==> at[k] < |values| && values[at[k]] == r[k] && r[k] !in values[..at[k]])
    && (forall i, j :: 0 <= i < j < |at| ==> at[i] < at[j])
  }

  /** The result is duplicate-free, has the same members, and keeps the order of first occurrences. */
  lemma {:induction false} FirstOccurrencesMeaning<T(!new)>(values: seq<T>) returns (at: seq<nat>)
    ensures NoDuplicates(FirstOccurrences(values))
    ensures FirstOccurrenceOrder(values, FirstOccurrences(values), at)
  {
    if values == [] {
      at := [];
    } else {
      var n := |values| - 1;
      at := FirstOccurrencesMeaning(values[..n]);
      OrderInLonger(values[..n], values[n], FirstOccurrences(values[..n]), at);
      assert values == values[..n] + [values[n]];
      if values[n] !in FirstOccurrences(values[..n]) {
        at := at + [n];
      }
    }
  }

  /** First occurrences stay first occurrences when an entry is added at the end; a new entry is one too. */
  lemma {:induction false} OrderInLonger<T>(values: seq<T>, last: T, r: seq<T>, at: seq<nat>)
    requires FirstOccurrenceOrder(values, r, at)
    ensures FirstOccurrenceOrder(values + [last], r, at)
    ensures last !in values ==> FirstOccurrenceOrder(values + [last], r + [last], at + [|values|])
  {
    var longer := values + [last];
    forall k | 0 <= k < |r| ensures longer[..at[k]] == values[..at[k]] && longer[at[k]] == r[k] {
    }
    assert longer[..|values|] == values;
  }

  /** A duplicate-free list is its own list of first occurrences. */
  lemma {:induction false} FirstOccurrencesFixpoint<T(!new)>(values: seq<T>)
    requires NoDuplicates(values)
    ensures FirstOccurrences(values) == values
  {
    if values != [] {
      var n := |values| - 1;
      FirstOccurrencesFixpoint(values[..n]);
      assert values == values[..n] + [values[n]];
    }
  }

  predicate AllTrimmed(values: seq<string>) {
    forall i :: 0 <= i < |values| ==> values[i] != "" && Trimmed(values[i])
  }

  lemma {:induction false} KeptAreTrimmed(values: seq<string>)
    ensures AllTrimmed(Kept(values))
  {
    if values != [] {
      KeptAreTrimmed(values[..|values| - 1]);
    }
  }

  lemma {:induction false} KeptExtend(values: seq<string>, last: string)
    ensures Kept(values + [last]) == Kept(values) + if Trim(last) == "" then [] else [Trim(last)]
  {
    assert (values + [last])[..|values|] == values;
  }

  lemma {:induction false} FirstOccurrencesExtend<T(!new)>(values: seq<T>, last: T)
    ensures FirstOccurrences(values + [last])
         == if last in FirstOccurrences(values) then FirstOccurrences(values) else FirstOccurrences(values) + [last]
  {
    assert (values + [last])[..|values|] == values;
  }

  lemma {:induction false} FirstUnsupportedExtend(kept: seq<string>, last: string, supported: seq<string>)
    ensures FirstUnsupported(kept + [last], supported)
         == if FirstUnsupported(kept, supported).Some? then FirstUnsupported(kept, supported)
            else if last in supported then None else Some(last)
  {
    assert (kept + [last])[..|kept|] == kept;
  }

  lemma {:induction false} KeptFixpoint(values: seq<string>)
    requires AllTrimmed(values)
    ensures Kept(values) == values
  {
    if values != [] {
      var n := |values| - 1;
      KeptFixpoint(values[..n]);
      KeptExtend(values[..n], values[n]);
      assert values == values[..n] + [values[n]];
    }
  }

  lemma {:induction false} MethodsListFacts()
    ensures NoDuplicates(METHODS) && UPDATE_METHOD in METHODS
    ensures AllTrimmed(METHODS)
  {
    assert METHODS[6] == UPDATE_METHOD;
    assert METHODS[0][8] != METHODS[1][8] && METHODS[0][8] != METHODS[2][8] && METHODS[1][8] != METHODS[2][8];
    assert METHODS[3][8] != METHODS[4][8] && METHODS[3][5] != METHODS[5][5] && METHODS[4][5] != METHODS[5][5];
  }

  /** Normalising an accepted list again accepts it unchanged: the component's check is the identity on
      what the configuration lets through. */
  lemma {:induction false} NormalMethodsFixpoint(values: seq<string>, supported: seq<string>)
    requires supported != [] && NoDuplicates(supported) && AllTrimmed(supported)
    requires NormalMethods(values, supported).Accepted?
    ensures var r := NormalMethods(values, supported).methods;
            && r != [] && NoDuplicates(r) && (forall m <- r :: m in supported)
            && NormalMethods(r, supported) == Accepted(r)
  {
    var r := NormalMethods(values, supported).methods;
    if values != [] {
      AcceptedMeaning(values, supported);
    }
    KeptFixpoint(r);
    FirstOccurrencesFixpoint(r);
  }

  lemma {:induction false} AcceptedMeaning(values: seq<string>, supported: seq<string>)
    requires values != [] && NormalMethods(values, supported).Accepted?
    ensures var r := NormalMethods(values, supported).methods;
            r != [] && NoDuplicates(r) && AllTrimmed(r) && forall m <- r :: m in supported
  {
    var kept := Kept(values);
    KeptAreTrimmed(values);
    var at := FirstOccurrencesMeaning(kept);
    assert kept[0] in FirstOccurrences(kept);
  }

  // ---------------------------------------------------------------- the loops

  /** What one more entry does to the kept list, its first occurrences and its first unsupported entry. */
  lemma {:induction false} ScanStep(values: seq<string>, i: nat, supported: seq<string>)
    requires i < |values|
    ensures var kept, kept', name := Kept(values[..i]), Kept(values[..i + 1]), Trim(values[i]);
            var first, bad := FirstOccurrences(kept), FirstUnsupported(kept, supported);
            if name == "" then kept' == kept
            else
              && FirstOccurrences(kept') == (if name in first then first else first + [name])
              && FirstUnsupported(kept', supported)
                 == (if bad.Some? then bad else if name in supported then None else Some(name))
  {
    var kept := Kept(values[..i]);
    assert values[..i + 1] == values[..i] + [values[i]];
    KeptExtend(values[..i], values[i]);
    assert kept + [] == kept;
    FirstOccurrencesExtend(kept, Trim(values[i]));
    FirstUnsupportedExtend(kept, Trim(values[i]), supported);
  }

  /** The loop shared by `normalizeHostMethods` and `normalizeMethods`, with its `seen` set. */
  method NormalizeMethods(values: seq<string>, supported: seq<string>) returns (r: MethodsResult)
    ensures r == NormalMethods(values, supported)
  {
    if |values| == 0 {
      return Accepted(supported);
    }
    var seen: set<string> := {};
    var methods: seq<string> := [];
    for i := 0 to |values|
      invariant methods == FirstOccurrences(Kept(values[..i]))
      invariant forall m :: m in seen <==> m in methods
      invariant FirstUnsupported(Kept(values[..i]), supported).None?
    {
      var name := Trim(values[i]);
      ScanStep(values, i, supported);
      if name == "" {
        continue;
      }
      if name !in supported {
        UnsupportedStays(values, i + 1, supported);
        return Rejected(Unsupported(name));
      }
      if name in seen {
        continue;
      }
      seen := seen + {name};
      methods := methods + [name];
    }
    assert values[..|values|] == values;
    if |methods| == 0 {
      return Rejected(NoneLeft);
    }
    return Accepted(methods);
  }

  /** The first unsupported entry is the one reported, whatever follows it. */
  lemma {:induction false} UnsupportedStays(values: seq<string>, n: nat, supported: seq<string>)
    requires n <= |values| && FirstUnsupported(Kept(values[..n]), supported).Some?
    ensures FirstUnsupported(Kept(values), supported) == FirstUnsupported(Kept(values[..n]), supported)
    decreases |values| - n
  {
    if n == |values| {
      assert values[..n] == values;
    } else {
      ScanStep(values, n, supported);
      UnsupportedStays(values, n + 1, supported);
    }
  }

  function Without(values: seq<string>, target: string): (r: seq<string>)
    ensures |r| <= |values|
    ensures forall m :: m in r <==> m in values && m != target
  {
    if values == [] then []
    else
      var n := |values| - 1;
      assert values == values[..n] + [values[n]];
      Without(values[..n], target) + if values[n] == target then [] else [values[n]]
  }

  lemma {:induction false} WithoutExtend(values: seq<string>, last: string, target: string)
    ensures Without(values + [last], target) == Without(values, target) + if last == target then [] else [last]
  {
    assert (values + [last])[..|values|] == values;
  }

  /** `removeMethod`: filters in place over `values[:0]` and returns the new length. The tail of the
      backing array keeps its old entries. */
  method RemoveMethod(values: array<string>, target: string) returns (count: nat)
    modifies values
    ensures count <= values.Length
    ensures values[..count] == Without(old(values[..]), target)
    ensures values[count..] == old(values[count..])
  {
    count := 0;
    ghost var was := values[..];
    for i := 0 to values.Length
      invariant count <= i
      invariant values[..count] == Without(was[..i], target)
      invariant forall k :: i <= k < values.Length ==> values[k] == was[k]
      invariant forall k :: count <= k < i ==> values[k] == was[k]
    {
      WithoutExtend(was[..i], was[i], target);
      assert was[..i + 1] == was[..i] + [was[i]];
      if values[i] != target {
        values[count] := values[i];
        count := count + 1;
        assert values[..count] == Without(was[..i], target) + [was[i]];
      }
    }
    assert was[..values.Length] == was;
  }

  /** Does some entry of the update command survive trimming? */
  predicate HasCommand(command: seq<string>) {
    Kept(command) != []
  }

  /** What the component advertises. */
  function Advertised(methods: seq<string>, command: seq<string>): MethodsResult {
    match NormalMethods(methods, METHODS)
    case Rejected(e) => Rejected(e)
    case Accepted(ms) => Accepted(if HasCommand(command) then ms else Without(ms, UPDATE_METHOD))
  }

  /** The method list of `NewComponent`; `package` is the package-level list. The in-place filter works on
      a copy: the array it writes is new, so it is not the package's, which keeps its entries. */
  method NewComponentMethods(package: array<string>, configured: seq<string>, command: seq<string>)
    returns (r: MethodsResult, methods: array<string>)
    requires package[..] == METHODS
    ensures r == Advertised(configured, command)
    ensures fresh(methods) && methods != package && package[..] == METHODS
    ensures r.Accepted? ==> r.methods <= methods[..]
  {
    var normal := NormalizeMethods(configured, package[..]);
    if normal.Rejected? {
      methods := new string[0];
      return normal, methods;
    }
    var list := normal.methods;
    methods := new string[|list|](i requires 0 <= i < |list| => list[i]);
    assert methods[..] == list;
    var count := methods.Length;
    if !HasCommand(command) {
      count := RemoveMethod(methods, UPDATE_METHOD);
    }
    r := Accepted(methods[..count]);
  }

  /** `r` picks entries of `values` at increasing positions. */
  ghost predicate PickedInOrder<T>(values: seq<T>, r: seq<T>, at: seq<nat>) {
    && |at| == |r|
    && (forall k :: 0 <= k < |r| ==> at[k] < |values| && values[at[k]] == r[k])
    && (forall i, j :: 0 <= i < j < |at| ==> at[i] < at[j])
  }

  /** Removing a method keeps the order of the others. */
  lemma {:induction false} WithoutPicks(values: seq<string>, target: string) returns (at: seq<nat>)
    ensures PickedInOrder(values, Without(values, target), at)
  {
    if values == [] {
      at := [];
    } else {
      var n := |values| - 1;
      at := WithoutPicks(values[..n], target);
      if values[n] != target {
        at := at + [n];
      }
    }
  }

  /** Picks of picks. */
  lemma {:induction false} PicksCompose<T>(values: seq<T>, middle: seq<T>, r: seq<T>, outer: seq<nat>, inner: seq<nat>)
      returns (at: seq<nat>)
    requires FirstOccurrenceOrder(values, middle, outer) && PickedInOrder(middle, r, inner)
    ensures FirstOccurrenceOrder(values, r, at)
  {
    at := seq(|inner|, k requires 0 <= k < |inner| => outer[inner[k]]);
  }

  /** The methods asked for: the trimmed configured entries, or all of them when none is configured. */
  function Asked(configured: seq<string>): seq<string> {
    if configured == [] then METHODS else Kept(configured)
  }

  /** A duplicate-free list consists of its own first occurrences. */
  lemma {:induction false} OwnFirstOccurrences<T>(values: seq<T>) returns (at: seq<nat>)
    requires NoDuplicates(values)
    ensures FirstOccurrenceOrder(values, values, at)
  {
    at := seq(|values|, k requires 0 <= k < |values| => k);
  }

  /** The accepted list picks the first occurrences of the methods asked for. */
  lemma {:induction false} AcceptedOrder(configured: seq<string>) returns (at: seq<nat>)
    requires NormalMethods(configured, METHODS).Accepted?
    ensures FirstOccurrenceOrder(Asked(configured), NormalMethods(configured, METHODS).methods, at)
  {
    if configured == [] {
      MethodsListFacts();
      at := OwnFirstOccurrences(METHODS);
    } else {
      at := FirstOccurrencesMeaning(Kept(configured));
    }
  }

  /** The advertised list is the subsequence of first occurrences of the methods asked for: it picks them at
      increasing positions, each where it first occurs, and leaves none out but the self-update method
      when no update command survives. */
  lemma {:induction false} AdvertisedMeaning(configured: seq<string>, command: seq<string>) returns (at: seq<nat>)
    requires Advertised(configured, command).Accepted?
    ensures var r := Advertised(configured, command).methods;
            && FirstOccurrenceOrder(Asked(configured), r, at) && NoDuplicates(r)
            && (forall m :: m in r <==> m in Asked(configured) && (m != UPDATE_METHOD || HasCommand(command)))
            && (forall m <- r :: m in METHODS)
  {
    MethodsListFacts();
    NormalMethodsFixpoint(configured, METHODS);
    var normal := NormalMethods(configured, METHODS).methods;
    at := AcceptedOrder(configured);
    if !HasCommand(command) {
      var inner := WithoutPicks(normal, UPDATE_METHOD);
      at := PicksCompose(Asked(configured), normal, Without(normal, UPDATE_METHOD), at, inner);
    }
    OrderedIsDistinct(Asked(configured), Advertised(configured, command).methods, at);
  }

  /** First occurrences at different positions are different. */
  lemma {:induction false} OrderedIsDistinct<T>(values: seq<T>, r: seq<T>, at: seq<nat>)
    requires FirstOccurrenceOrder(values, r, at)
    ensures NoDuplicates(r)
  {
    forall i, j | 0 <= i < j < |r| ensures r[i] != r[j] {
      assert values[..at[j]][at[i]] == r[i];
    }
  }
}
