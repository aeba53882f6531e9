/** The text form of the persisted state: a self-delimiting codec for one JSON object whose
    members are strings, laid out and escaped as Go's `encoding/json` does it. */
module StateCodec {
  import opened Text

  /** internal/state/store.go: `State`. */
  datatype State = State(
    runtimeId: string,
    runtimeToken: string,
    pairingState: string,
    lastGatewayUrl: string,
    lastConnectedAt: string,
    lastError: string)

  const EMPTY_STATE := State("", "", "", "", "", "")

  /** A parser's answer: nothing, or a value and the unread rest of the input. */
  datatype Parsed<+T> = Fail | Done(value: T, rest: string)

  type Member = (string, string)

  // ---------------------------------------------------------------- strings

  function HexDigit(n: nat): char
    requires n < 16
  {
    if n < 10 then ('0' as int + n) as char else ('a' as int + n - 10) as char
  }

  function HexValue(c: char): Option<nat> {
    if '0' <= c <= '9' then Some(c as int - '0' as int)
    else if 'a' <= c <= 'f' then Some(c as int - 'a' as int + 10)
    else if 'A' <= c <= 'F' then Some(c as int - 'A' as int + 10)
    else None
  }

  lemma {:induction false} HexRoundTrip(n: nat)
    requires n < 16
    ensures HexValue(HexDigit(n)) == Some(n)
  {
  }

  /** The characters written as a four-digit escape. */
  predicate NeedsUnicodeEscape(c: char) {
    || (c < ' ' && c !in {'\n', '\r', '\t', '\U{08}', '\U{0C}'})
    || c == '<' || c == '>' || c == '&' || c == '\U{2028}' || c == '\U{2029}'
  }

  function UnicodeEscape(n: nat): string
    requires n < 0x1_0000
  {
    ['\\', 'u', HexDigit(n / 0x1000), HexDigit(n / 0x100 % 16), HexDigit(n / 16 % 16), HexDigit(n % 16)]
  }

  /** One character inside a JSON string literal. */
  function EscapeChar(c: char): string {
    if c == '"' then "\\\""
    else if c == '\\' then "\\\\"
    else if c == '\n' then "\\n"
    else if c == '\r' then "\\r"
    else if c == '\t' then "\\t"
    else if c == '\U{08}' then "\\b"
    else if c == '\U{0C}' then "\\f"
    else if NeedsUnicodeEscape(c) then UnicodeEscape(c as int)
    else [c]
  }

  function Escape(s: string): string {
    if s == "" then "" else EscapeChar(s[0]) + Escape(s[1..])
  }

  function Quote(s: string): string {
    "\"" + Escape(s) + "\""
  }

  function SimpleEscape(c: char): Option<char> {
    if c == '"' || c == '\\' || c == '/' then Some(c)
    else if c == 'n' then Some('\n')
    else if c == 'r' then Some('\r')
    else if c == 't' then Some('\t')
    else if c == 'b' then Some('\U{08}')
    else if c == 'f' then Some('\U{0C}')
    else None
  }

  /** The character of a four-digit escape; surrogate halves are not accepted. */
  function FromHex(h: string): Option<char>
    requires |h| == 4
  {
    match (HexValue(h[0]), HexValue(h[1]), HexValue(h[2]), HexValue(h[3]))
    case (Some(a), Some(b), Some(c), Some(d)) =>
      var n := a * 0x1000 + b * 0x100 + c * 16 + d;
      if 0xD800 <= n < 0xE000 || n >= 0x1_0000 then None else Some(n as char)
    case _ => None
  }

  /** One possibly escaped character of a string literal. */
  function ParseChar(t: string): (p: Parsed<char>)
    ensures p.Done? ==> |p.rest| < |t|
  {
    if t == "" || t[0] < ' ' || t[0] == '"' then Fail
    else if t[0] != '\\' then Done(t[0], t[1..])
    else if |t| >= 6 && t[1] == 'u' then
      match FromHex(t[2..6])
      case Some(c) => Done(c, t[6..])
      case None => Fail
    else if |t| >= 2 then
      match SimpleEscape(t[1])
      case Some(c) => Done(c, t[2..])
      case None => Fail
    else Fail
  }

  /** The characters up to the closing quote. */
  function ParseChars(t: string): (p: Parsed<string>)
    ensures p.Done? ==> |p.rest| < |t|
    decreases |t|
  {
    if t != "" && t[0] == '"' then Done("", t[1..])
    else
      match ParseChar(t)
      case Fail => Fail
      case Done(c, rest) =>
        match ParseChars(rest)
        case Fail => Fail
        case Done(cs, rest') => Done([c] + cs, rest')
  }

  function ParseString(t: string): (p: Parsed<string>)
    ensures p.Done? ==> |p.rest| < |t|
  {
    if t == "" || t[0] != '"' then Fail else ParseChars(t[1..])
  }

  lemma {:induction false} FourDigits(n: nat)
    requires n < 0x1_0000
    ensures n / 0x1000 * 0x1000 + n / 0x100 % 16 * 0x100 + n / 16 % 16 * 16 + n % 16 == n
  {
    assert n / 16 / 16 == n / 0x100 && n / 0x100 / 16 == n / 0x1000;
  }

  lemma {:induction false} HexFourRoundTrip(n: nat)
    requires n < 0xD800
    ensures FromHex(UnicodeEscape(n)[2..6]) == Some(n as char)
  {
    var a, b, c, d := n / 0x1000, n / 0x100 % 16, n / 16 % 16, n % 16;
    HexRoundTrip(a);
    HexRoundTrip(b);
    HexRoundTrip(c);
    HexRoundTrip(d);
    FourDigits(n);
    assert UnicodeEscape(n)[2..6] == [HexDigit(a), HexDigit(b), HexDigit(c), HexDigit(d)];
  }

  lemma {:induction false} EscapedCharParses(c: char, rest: string)
    ensures ParseChar(EscapeChar(c) + rest) == Done(c, rest)
    ensures (EscapeChar(c) + rest)[0] != '"'
  {
    var e := EscapeChar(c);
    var t := e + rest;
    assert t[|e|..] == rest;
    if NeedsUnicodeEscape(c) {
      assert t[2..6] == e[2..6];
      HexFourRoundTrip(c as int);
    }
  }

  lemma {:induction false} EscapedStringParses(s: string, rest: string)
    ensures ParseChars(Escape(s) + "\"" + rest) == Done(s, rest)
  {
    if s == "" {
      assert (Escape(s) + "\"" + rest)[1..] == rest;
    } else {
      var tail := Escape(s[1..]) + "\"" + rest;
      var t := Escape(s) + "\"" + rest;
      assert t == EscapeChar(s[0]) + tail;
      assert ParseChar(t) == Done(s[0], tail) && t[0] != '"' by {
        EscapedCharParses(s[0], tail);
      }
      EscapedStringParses(s[1..], rest);
      assert [s[0]] + s[1..] == s;
    }
  }

  /** Reading back a quoted string gives the string and leaves exactly what followed it. */
  lemma {:induction false} QuotedStringParses(s: string, rest: string)
    ensures ParseString(Quote(s) + rest) == Done(s, rest)
  {
    var t := Quote(s) + rest;
    assert t[1..] == Escape(s) + "\"" + rest;
    EscapedStringParses(s, rest);
  }

  // ---------------------------------------------------------------- objects

  predicate IsJsonSpace(c: char) {
    c == ' ' || c == '\n' || c == '\r' || c == '\t'
  }

  function SkipSpace(t: string): (r: string)
    ensures |r| <= |t|
  {
    if t != "" && IsJsonSpace(t[0]) then SkipSpace(t[1..]) else t
  }

  lemma {:induction false} SkipPadding(pad: string, t: string)
    requires forall c <- pad :: IsJsonSpace(c)
    requires t == "" || !IsJsonSpace(t[0])
    ensures SkipSpace(pad + t) == t
  {
    if pad == "" {
      assert pad + t == t;
    } else {
      assert (pad + t)[1..] == pad[1..] + t;
      SkipPadding(pad[1..], t);
    }
  }

  /** `"key" : "value"` with white space allowed around each part. */
  function ParseMember(t: string): (p: Parsed<Member>)
    ensures p.Done? ==> |p.rest| < |t|
  {
    match ParseString(SkipSpace(t))
    case Fail => Fail
    case Done(key, afterKey) =>
      var colon := SkipSpace(afterKey);
      if colon == "" || colon[0] != ':' then Fail
      else
        match ParseString(SkipSpace(colon[1..]))
        case Fail => Fail
        case Done(value, afterValue) => Done((key, value), SkipSpace(afterValue))
  }

  /** Members up to and including the closing brace. */
  function ParseMembers(t: string): (p: Parsed<seq<Member>>)
    ensures p.Done? ==> |p.rest| < |t|
    decreases |t|
  {
    match ParseMember(t)
    case Fail => Fail
    case Done(m, rest) =>
      if rest == "" then Fail
      else if rest[0] == '}' then Done([m], rest[1..])
      else if rest[0] == ',' then
        match ParseMembers(rest[1..])
        case Fail => Fail
        case Done(ms, rest') => Done([m] + ms, rest')
      else Fail
  }

  function ParseObject(t: string): (p: Parsed<seq<Member>>) {
    var open := SkipSpace(t);
    if open == "" || open[0] != '{' then Fail
    else
      var body := SkipSpace(open[1..]);
      if body != "" && body[0] == '}' then Done([], body[1..]) else ParseMembers(body)
  }

  function RenderMember(m: Member): string {
    "\n  " + Quote(m.0) + ": " + Quote(m.1)
  }

  /** Members, comma separated, through the closing brace. */
  function RenderMembers(ms: seq<Member>): string
    requires ms != []
  {
    if |ms| == 1 then RenderMember(ms[0]) + "\n}"
    else RenderMember(ms[0]) + "," + RenderMembers(ms[1..])
  }

  /** `json.MarshalIndent(_, "", "  ")` on an object of strings. */
  function RenderObject(ms: seq<Member>): string {
    if ms == [] then "{}" else "{" + RenderMembers(ms)
  }

  lemma {:induction false} RenderedMemberShape(m: Member, rest: string)
    ensures RenderMember(m) + rest == "\n  " + (Quote(m.0) + (": " + (Quote(m.1) + rest)))
  {
  }

  lemma {:induction false} MemberParses(m: Member, rest: string)
    ensures ParseMember(RenderMember(m) + rest) == Done(m, SkipSpace(rest))
  {
    var t := RenderMember(m) + rest;
    var value := Quote(m.1) + rest;
    var afterKey := ": " + value;
    var key := Quote(m.0) + afterKey;
    assert ParseString(SkipSpace(t)) == Done(m.0, afterKey) by {
      RenderedMemberShape(m, rest);
      SkipPadding("\n  ", key);
      QuotedStringParses(m.0, afterKey);
    }
    assert ParseString(SkipSpace(afterKey[1..])) == Done(m.1, rest) by {
      assert afterKey[1..] == " " + value;
      SkipPadding(" ", value);
      QuotedStringParses(m.1, rest);
    }
    assert SkipSpace(afterKey) == afterKey;
  }

  lemma {:induction false} LastMemberParses(m: Member, rest: string)
    ensures ParseMember((RenderMember(m) + "\n}") + rest) == Done(m, "}" + rest)
  {
    assert (RenderMember(m) + "\n}") + rest == RenderMember(m) + ("\n" + ("}" + rest));
    MemberParses(m, "\n" + ("}" + rest));
    SkipPadding("\n", "}" + rest);
  }

  lemma {:induction false} NextMemberParses(m: Member, others: string, rest: string)
    ensures ParseMember((RenderMember(m) + "," + others) + rest) == Done(m, "," + (others + rest))
  {
    var more := others + rest;
    assert (RenderMember(m) + "," + others) + rest == RenderMember(m) + ("," + more);
    MemberParses(m, "," + more);
    assert SkipSpace("," + more) == "," + more;
  }

  lemma {:induction false} MembersUnfold(t: string, m: Member, rest: string)
    requires ParseMember(t) == Done(m, rest) && rest != ""
    ensures rest[0] == '}' ==> ParseMembers(t) == Done([m], rest[1..])
    ensures rest[0] == ',' && ParseMembers(rest[1..]).Done? ==>
              ParseMembers(t) == Done([m] + ParseMembers(rest[1..]).value, ParseMembers(rest[1..]).rest)
  {
  }

  lemma {:induction false} OneMemberParses(m: Member, rest: string)
    ensures ParseMembers((RenderMember(m) + "\n}") + rest) == Done([m], rest)
  {
    LastMemberParses(m, rest);
    MembersUnfold((RenderMember(m) + "\n}") + rest, m, "}" + rest);
    assert ("}" + rest)[1..] == rest;
  }

  lemma {:induction false} MoreMembersParse(m: Member, others: string, ms: seq<Member>, rest: string)
    requires ParseMembers(others + rest) == Done(ms, rest)
    ensures ParseMembers((RenderMember(m) + "," + others) + rest) == Done([m] + ms, rest)
  {
    NextMemberParses(m, others, rest);
    assert ("," + (others + rest))[1..] == others + rest;
    MembersUnfold((RenderMember(m) + "," + others) + rest, m, "," + (others + rest));
  }

  lemma {:induction false} MembersParse(ms: seq<Member>, rest: string)
    requires ms != []
    ensures ParseMembers(RenderMembers(ms) + rest) == Done(ms, rest)
    decreases |ms|
  {
    if |ms| == 1 {
      OneMemberParses(ms[0], rest);
      assert ms == [ms[0]];
    } else {
      MembersParse(ms[1..], rest);
      MoreMembersParse(ms[0], RenderMembers(ms[1..]), ms[1..], rest);
      assert ms == [ms[0]] + ms[1..];
    }
  }

  lemma {:induction false} Associative(a: string, b: string, c: string)
    ensures (a + b) + c == a + (b + c)
  {
  }

  lemma {:induction false} RenderedMembersShape(ms: seq<Member>, rest: string) returns (q: string)
    requires ms != []
    ensures RenderMembers(ms) + rest == "\n  " + q && q != "" && q[0] == '"'
  {
    var m := ms[0];
    var tail := if |ms| == 1 then "\n}" else "," + RenderMembers(ms[1..]);
    assert RenderMembers(ms) == RenderMember(m) + tail by {
      if |ms| > 1 {
        Associative(RenderMember(m), ",", RenderMembers(ms[1..]));
      }
    }
    Associative(RenderMember(m), tail, rest);
    RenderedMemberShape(m, tail + rest);
    var value := ": " + (Quote(m.1) + (tail + rest));
    q := Quote(m.0) + value;
    assert Quote(m.0)[0] == '"';
  }

  /** The white space `ParseObject` skips before the first member is skipped by the member too. */
  lemma {:induction false} SpaceBeforeMembers(t: string, q: string)
    requires t == "\n  " + q && q != "" && q[0] == '"'
    ensures SkipSpace(t) == q && SkipSpace(q) == q
    ensures ParseMembers(q) == ParseMembers(t)
  {
    SkipPadding("\n  ", q);
    assert SkipSpace(q) == q;
    assert ParseMember(q) == ParseMember(t);
  }

  lemma {:induction false} ObjectFromBody(t: string, ms: seq<Member>, rest: string)
    requires t != "" && t[0] == '{'
    requires SkipSpace(t[1..]) != "" && SkipSpace(t[1..])[0] != '}'
    requires ParseMembers(SkipSpace(t[1..])) == Done(ms, rest)
    ensures ParseObject(t) == Done(ms, rest)
  {
  }

  lemma {:induction false} AfterBrace(body: string, rest: string)
    ensures ("{" + body + rest)[1..] == body + rest
  {
  }

  lemma {:induction false} EmptyObjectParses(rest: string)
    ensures ParseObject("{}" + rest) == Done([], rest)
  {
    var t := "{}" + rest;
    assert t[1..] == "}" + rest;
    assert ("}" + rest)[1..] == rest;
  }

  lemma {:induction false} FullObjectParses(ms: seq<Member>, rest: string)
    requires ms != []
    ensures ParseObject("{" + RenderMembers(ms) + rest) == Done(ms, rest)
  {
    var body := RenderMembers(ms) + rest;
    AfterBrace(RenderMembers(ms), rest);
    var q := RenderedMembersShape(ms, rest);
    SpaceBeforeMembers(body, q);
    MembersParse(ms, rest);
    ObjectFromBody("{" + RenderMembers(ms) + rest, ms, rest);
  }

  /** The object codec is self-delimiting: whatever follows the text is handed back untouched. */
  lemma {:induction false} ObjectParses(ms: seq<Member>, rest: string)
    ensures ParseObject(RenderObject(ms) + rest) == Done(ms, rest)
  {
    if ms == [] {
      EmptyObjectParses(rest);
    } else {
      FullObjectParses(ms, rest);
    }
  }

  // ---------------------------------------------------------------- the state

  /** A member for a non-empty field: the `omitempty` rule. */
  function Optional(key: string, value: string): seq<Member> {
    if value == "" then [] else [(key, value)]
  }

  function Members(s: State): seq<Member> {
    Optional("runtime_id", s.runtimeId) +
    Optional("runtime_token", s.runtimeToken) +
    Optional("pairing_state", s.pairingState) +
    Optional("last_gateway_url", s.lastGatewayUrl) +
    Optional("last_connected_at", s.lastConnectedAt) +
    Optional("last_error", s.lastError)
  }

  /** One decoded member assigned to its field; unknown keys are ignored. */
  function Assign(s: State, m: Member): State {
    if m.0 == "runtime_id" then s.(runtimeId := m.1)
    else if m.0 == "runtime_token" then s.(runtimeToken := m.1)
    else if m.0 == "pairing_state" then s.(pairingState := m.1)
    else if m.0 == "last_gateway_url" then s.(lastGatewayUrl := m.1)
    else if m.0 == "last_connected_at" then s.(lastConnectedAt := m.1)
    else if m.0 == "last_error" then s.(lastError := m.1)
    else s
  }

  /** Members assigned in order, so the last occurrence of a key wins. */
  function AssignAll(s: State, ms: seq<Member>): State
    decreases |ms|
  {
    if ms == [] then s else AssignAll(Assign(s, ms[0]), ms[1..])
  }

  /** The file content the daemon writes: indented JSON and a newline. */
  function Encode(s: State): string {
    RenderObject(Members(s)) + "\n"
  }

  /** The first value of `content` and the text after it. */
  function Decode(content: string): Parsed<State> {
    match ParseObject(content)
    case Fail => Fail
    case Done(ms, rest) => Done(AssignAll(EMPTY_STATE, ms), rest)
  }

  lemma {:induction false} AssignAllConcat(s: State, a: seq<Member>, b: seq<Member>)
    ensures AssignAll(s, a + b) == AssignAll(AssignAll(s, a), b)
    decreases |a|
  {
    if a == [] {
      assert a + b == b;
    } else {
      assert (a + b)[1..] == a[1..] + b;
      AssignAllConcat(Assign(s, a[0]), a[1..], b);
    }
  }

  lemma {:induction false} AssignOptional(s: State, key: string, value: string)
    ensures AssignAll(s, Optional(key, value)) == if value == "" then s else Assign(s, (key, value))
  {
    if value != "" {
      assert Optional(key, value)[1..] == [];
    }
  }

  lemma {:induction false} MembersRestore(s: State)
    ensures AssignAll(EMPTY_STATE, Members(s)) == s
  {
    var a := Optional("runtime_id", s.runtimeId);
    var b := a + Optional("runtime_token", s.runtimeToken);
    var c := b + Optional("pairing_state", s.pairingState);
    var d := c + Optional("last_gateway_url", s.lastGatewayUrl);
    var e := d + Optional("last_connected_at", s.lastConnectedAt);
    AssignOptional(EMPTY_STATE, "runtime_id", s.runtimeId);
    AssignAllConcat(EMPTY_STATE, a, Optional("runtime_token", s.runtimeToken));
    AssignOptional(AssignAll(EMPTY_STATE, a), "runtime_token", s.runtimeToken);
    AssignAllConcat(EMPTY_STATE, b, Optional("pairing_state", s.pairingState));
    AssignOptional(AssignAll(EMPTY_STATE, b), "pairing_state", s.pairingState);
    AssignAllConcat(EMPTY_STATE, c, Optional("last_gateway_url", s.lastGatewayUrl));
    AssignOptional(AssignAll(EMPTY_STATE, c), "last_gateway_url", s.lastGatewayUrl);
    AssignAllConcat(EMPTY_STATE, d, Optional("last_connected_at", s.lastConnectedAt));
    AssignOptional(AssignAll(EMPTY_STATE, d), "last_connected_at", s.lastConnectedAt);
    AssignAllConcat(EMPTY_STATE, e, Optional("last_error", s.lastError));
    AssignOptional(AssignAll(EMPTY_STATE, e), "last_error", s.lastError);
  }

  /** Round trip, with arbitrary text after the object. */
  lemma {:induction false} DecodeRendered(s: State, rest: string)
    ensures Decode(RenderObject(Members(s)) + rest) == Done(s, rest)
  {
    ObjectParses(Members(s), rest);
    MembersRestore(s);
  }

  /** What the daemon writes it reads back, with only the final newline left over. */
  lemma {:induction false} DecodeEncoded(s: State)
    ensures Decode(Encode(s)) == Done(s, "\n")
  {
    DecodeRendered(s, "\n");
  }
}
