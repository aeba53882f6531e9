/** String helpers shared by every component: the parts of Go's `strings` package the
    daemon relies on (`TrimSpace`, `ToLower`, `Trim` with a cutset), on sequences of characters. */
module Text {

  datatype Option<+T> = None | Some(value: T) {
    predicate IsFailure() {
      None?
    }

    function PropagateFailure<U>(): Option<U>
      requires None?
    {
      None
    }

    function Extract(): T
      requires Some?
    {
      value
    }
  }

  /** The characters `strings.TrimSpace` removes. */
  predicate IsSpace(c: char) {
    || '\t' <= c <= '\r'
    || c == ' ' || c == '\U{85}' || c == '\U{A0}' || c == '\U{1680}'
    || '\U{2000}' <= c <= '\U{200A}'
    || c == '\U{2028}' || c == '\U{2029}' || c == '\U{202F}' || c == '\U{205F}' || c == '\U{3000}'
  }

  /** `s` without its longest prefix of characters from `drop`. */
  function TrimLeft(s: string, drop: char -> bool): (r: string)
    ensures |r| <= |s|
    ensures r == "" || !drop(r[0])
    ensures s == "" || !drop(s[0]) ==> r == s
  {
    if s != "" && drop(s[0]) then TrimLeft(s[1..], drop) else s
  }

  /** `s` without its longest suffix of characters from `drop`. */
  function TrimRight(s: string, drop: char -> bool): (r: string)
    ensures |r| <= |s| && (r == "" || r[0] == s[0])
    ensures r == "" || !drop(r[|r| - 1])
    ensures s == "" || !drop(s[|s| - 1]) ==> r == s
  {
    if s != "" && drop(s[|s| - 1]) then TrimRight(s[..|s| - 1], drop) else s
  }

  function TrimBoth(s: string, drop: char -> bool): (r: string)
    ensures r == "" || (!drop(r[0]) && !drop(r[|r| - 1]))
    ensures |r| <= |s|
    ensures s == "" || (!drop(s[0]) && !drop(s[|s| - 1])) ==> r == s
  {
    TrimRight(TrimLeft(s, drop), drop)
  }

  /** `strings.TrimSpace`. */
  function Trim(s: string): (r: string)
    ensures Trimmed(r)
    ensures |r| <= |s|
    ensures Trimmed(s) ==> r == s
  {
    TrimBoth(s, IsSpace)
  }

  /** A string with no white space at either end. */
  predicate Trimmed(s: string) {
    s == "" || (!IsSpace(s[0]) && !IsSpace(s[|s| - 1]))
  }

  lemma {:induction false} TrimIdempotent(s: string)
    ensures Trim(Trim(s)) == Trim(s)
  {
  }

  lemma {:induction false} TrimLeftIsSuffix(s: string, drop: char -> bool)
    ensures |TrimLeft(s, drop)| <= |s| && TrimLeft(s, drop) == s[|s| - |TrimLeft(s, drop)|..]
  {
    if s != "" && drop(s[0]) {
      TrimLeftIsSuffix(s[1..], drop);
    }
  }

  lemma {:induction false} TrimRightIsPrefix(s: string, drop: char -> bool)
    ensures |TrimRight(s, drop)| <= |s| && TrimRight(s, drop) == s[..|TrimRight(s, drop)|]
  {
    if s != "" && drop(s[|s| - 1]) {
      TrimRightIsPrefix(s[..|s| - 1], drop);
    }
  }

  /** Trimming removes only characters from `drop`. */
  lemma {:induction false} TrimLeftRemoves(s: string, drop: char -> bool)
    ensures |TrimLeft(s, drop)| <= |s|
    ensures forall k :: 0 <= k < |s| - |TrimLeft(s, drop)| ==> drop(s[k])
  {
    if s != "" && drop(s[0]) {
      TrimLeftRemoves(s[1..], drop);
      forall k | 0 <= k < |s| - |TrimLeft(s, drop)| ensures drop(s[k]) {
        assert k > 0 ==> s[k] == s[1..][k - 1];
      }
    }
  }

  lemma {:induction false} TrimRightRemoves(s: string, drop: char -> bool)
    ensures |TrimRight(s, drop)| <= |s|
    ensures forall k :: |TrimRight(s, drop)| <= k < |s| ==> drop(s[k])
  {
    if s != "" && drop(s[|s| - 1]) {
      TrimRightRemoves(s[..|s| - 1], drop);
      forall k | |TrimRight(s, drop)| <= k < |s| ensures drop(s[k]) {
        assert k < |s| - 1 ==> s[k] == s[..|s| - 1][k];
      }
    }
  }

  /** Every character that survives trimming comes from the original. */
  lemma {:induction false} TrimMembers(s: string, drop: char -> bool)
    ensures forall c <- TrimBoth(s, drop) :: c in s
  {
    TrimLeftIsSuffix(s, drop);
    TrimRightIsPrefix(TrimLeft(s, drop), drop);
  }

  /** Lower-casing of one character: the ASCII letters and the two other characters whose
      lower case is an ASCII letter (U+0130 and U+212A). */
  function LowerChar(c: char): char {
    if 'A' <= c <= 'Z' then (c as int + 32) as char
    else if c == '\U{130}' then 'i'
    else if c == '\U{212A}' then 'k'
    else c
  }

  /** `strings.ToLower`. */
  function Lower(s: string): (r: string)
    ensures |r| == |s|
    ensures forall i :: 0 <= i < |s| ==> r[i] == LowerChar(s[i])
  {
    seq(|s|, i requires 0 <= i < |s| => LowerChar(s[i]))
  }

  lemma {:induction false} LowerIdempotent(s: string)
    ensures Lower(Lower(s)) == Lower(s)
  {
  }

  lemma {:induction false} LowerKeepsSpace(c: char)
    ensures IsSpace(LowerChar(c)) <==> IsSpace(c)
  {
  }

  lemma {:induction false} LowerTrimLeft(s: string)
    ensures TrimLeft(Lower(s), IsSpace) == Lower(TrimLeft(s, IsSpace))
  {
    if s != "" {
      LowerKeepsSpace(s[0]);
      if IsSpace(s[0]) {
        LowerTrimLeft(s[1..]);
        assert Lower(s)[1..] == Lower(s[1..]);
      }
    }
  }

  lemma {:induction false} LowerTrimRight(s: string)
    ensures TrimRight(Lower(s), IsSpace) == Lower(TrimRight(s, IsSpace))
  {
    if s != "" {
      LowerKeepsSpace(s[|s| - 1]);
      if IsSpace(s[|s| - 1]) {
        LowerTrimRight(s[..|s| - 1]);
        assert Lower(s)[..|s| - 1] == Lower(s[..|s| - 1]);
      }
    }
  }

  lemma {:induction false} LowerTrimCommute(s: string)
    ensures Trim(Lower(s)) == Lower(Trim(s))
  {
    LowerTrimLeft(s);
    LowerTrimRight(TrimLeft(s, IsSpace));
  }

  /** Lower-casing and trimming commute, so `Trim(Lower(_))` is idempotent. */
  lemma {:induction false} LowerTrimIdempotent(s: string)
    ensures Trim(Lower(Trim(Lower(s)))) == Trim(Lower(s))
  {
    LowerTrimCommute(s);
    LowerIdempotent(Trim(s));
    TrimIdempotent(Lower(s));
  }

  lemma {:induction false} TakeNext<T>(s: seq<T>, n: nat)
    requires n < |s|
    ensures s[..n + 1] == s[..n] + [s[n]]
  {
  }

  lemma {:induction false} TakeAll<T>(s: seq<T>)
    ensures s[..|s|] == s
  {
  }

  /** `strings.Split` on a one-character separator. */
  function Split(value: string, separator: char): (parts: seq<string>)
    ensures parts != []
  {
    if value == "" then [""]
    else
      var rest := Split(value[1..], separator);
      if value[0] == separator then [""] + rest else [[value[0]] + rest[0]] + rest[1..]
  }

  lemma {:induction false} SplitLast(front: string, separator: char, last: string)
    requires separator !in last
    ensures Split(front + [separator] + last, separator) == Split(front, separator) + [last]
  {
    var s := front + [separator] + last;
    if front == "" {
      assert s == [separator] + last && s[1..] == last;
      SplitWhole(last, separator);
    } else {
      assert s[1..] == front[1..] + [separator] + last;
      SplitLast(front[1..], separator, last);
    }
  }

  lemma {:induction false} SplitWhole(s: string, separator: char)
    requires separator !in s
    ensures Split(s, separator) == [s]
  {
    if s != "" {
      SplitWhole(s[1..], separator);
      assert [s[0]] + s[1..] == s;
    }
  }
}
