/** The persisted state as a value: its normal form, the repair rule on file contents, the
    atomic register the store is meant to be, and every mutation the daemon applies to it. */
module StateModel {
  import opened Text
  import opened StateCodec

  const UNPAIRED := "unpaired"
  const PENDING := "pending"
  const PAIRED := "paired"
  const REVOKED := "revoked"

  function NormalizePairing(p: string): string {
    var v := Trim(Lower(p));
    if v == PENDING || v == PAIRED || v == REVOKED then v else UNPAIRED
  }

  /** internal/state/store.go: `normalizeState`. */
  function Normalize(s: State): State {
    State(Trim(s.runtimeId), Trim(s.runtimeToken), NormalizePairing(s.pairingState),
          Trim(s.lastGatewayUrl), Trim(s.lastConnectedAt), Trim(s.lastError))
  }

  predicate Normal(s: State) {
    Normalize(s) == s
  }

  lemma {:induction false} LiteralFixpoint(v: string)
    requires v == UNPAIRED || v == PENDING || v == PAIRED || v == REVOKED
    ensures NormalizePairing(v) == v
  {
    assert Lower(v) == v;
    assert Trimmed(v);
  }

  lemma {:induction false} NormalizePairingIdempotent(p: string)
    ensures NormalizePairing(NormalizePairing(p)) == NormalizePairing(p)
  {
    LiteralFixpoint(NormalizePairing(p));
  }

  /** Normalising a second time changes nothing. */
  lemma {:induction false} NormalizeIdempotent(s: State)
    ensures Normal(Normalize(s))
  {
    NormalizePairingIdempotent(s.pairingState);
    TrimIdempotent(s.runtimeId);
    TrimIdempotent(s.runtimeToken);
    TrimIdempotent(s.lastGatewayUrl);
    TrimIdempotent(s.lastConnectedAt);
    TrimIdempotent(s.lastError);
  }

  // ---------------------------------------------------------------- the register

  /** What a reader of the state file can learn from it. */
  datatype Register = Unreadable | Holds(state: State)

  /** The register a file content stands for; a missing file stands for the empty state. */
  function Interpret(content: Option<string>): Register {
    match content
    case None => Holds(Normalize(EMPTY_STATE))
    case Some(text) =>
      match Decode(text)
      case Fail => Unreadable
      case Done(s, _) => Holds(Normalize(s))
  }

  /** `decodeState` reports text other than white space after the first value. */
  predicate NeedsRepair(content: Option<string>) {
    content.Some? && Decode(content.value).Done? && Trim(Decode(content.value).rest) != ""
  }

  lemma {:induction false} NewlineIsBlank()
    ensures Trim("\n") == ""
  {
    var s := "\n";
    assert s[1..] == "";
    assert TrimLeft(s, IsSpace) == TrimLeft(s[1..], IsSpace);
  }

  /** A saved state is read back as itself and asks for no repair. */
  lemma {:induction false} SavedStateReads(s: State)
    requires Normal(s)
    ensures Interpret(Some(Encode(s))) == Holds(s)
    ensures !NeedsRepair(Some(Encode(s)))
  {
    DecodeEncoded(s);
    NewlineIsBlank();
  }

  lemma {:induction false} NormalizedStateReads(s: State)
    ensures Interpret(Some(Encode(Normalize(s)))) == Holds(Normalize(s))
    ensures !NeedsRepair(Some(Encode(Normalize(s))))
  {
    NormalizeIdempotent(s);
    SavedStateReads(Normalize(s));
  }

  /** Repair converges. Whatever text follows a decodable first value, rewriting the file with
      the normalised value keeps the register, needs no further repair, and is a fixed point. */
  lemma {:induction false} RepairConverges(content: string, s: State, trailing: string)
    requires Decode(content) == Done(s, trailing)
    ensures var repaired := Encode(Normalize(s));
            && Interpret(Some(repaired)) == Interpret(Some(content))
            && !NeedsRepair(Some(repaired))
            && Decode(repaired).Done? && Encode(Normalize(Decode(repaired).value)) == repaired
  {
    NormalizeIdempotent(s);
    SavedStateReads(Normalize(s));
    DecodeEncoded(Normalize(s));
  }

  // ---------------------------------------------------------------- mutations

  /** What `newUUID` yields: a non-empty text with no surrounding white space. */
  type Uuid = u: string | u != "" && Trimmed(u) witness "0"

  type Byte = b: nat | b < 256

  function HexBytes(raw: seq<Byte>): (r: string)
    ensures |r| == 2 * |raw|
    ensures forall c <- r :: HexValue(c).Some?
  {
    if raw == [] then ""
    else
      HexRoundTrip(raw[0] / 16);
      HexRoundTrip(raw[0] % 16);
      [HexDigit(raw[0] / 16), HexDigit(raw[0] % 16)] + HexBytes(raw[1..])
  }

  /** `newUUID` on sixteen random bytes: version 4, RFC 4122 variant. */
  function NewUuid(raw: seq<Byte>): (u: Uuid)
    requires |raw| == 16
    ensures |u| == 36
    ensures u[14] == '4' && u[19] in "89ab"
  {
    var b: seq<Byte> := raw[6 := raw[6] % 16 + 0x40][8 := raw[8] % 64 + 0x80];
    var p0, p1, p2, p3, p4 :=
      HexBytes(b[0..4]), HexBytes(b[4..6]), HexBytes(b[6..8]), HexBytes(b[8..10]), HexBytes(b[10..16]);
    var r := p0 + "-" + p1 + "-" + p2 + "-" + p3 + "-" + p4;
    assert r[0] == p0[0] && r[14] == p2[0] && r[19] == p3[0] && r[35] == p4[11];
    assert HexValue(p0[0]).Some? && HexValue(p4[11]).Some?;
    assert p2[0] == HexDigit(b[6..8][0] / 16) && p3[0] == HexDigit(b[8..10][0] / 16);
    r
  }

  /** `EnsureRuntimeID`: fills in a blank identity; `None` when the random source fails. */
  function EnsureRuntimeId(s: State, newId: Option<Uuid>): (r: Option<State>)
    ensures r.Some? ==> Trim(r.value.runtimeId) != "" && r.value == s.(runtimeId := r.value.runtimeId)
    ensures Trim(s.runtimeId) != "" ==> r == Some(s)
  {
    if Trim(s.runtimeId) != "" then Some(s)
    else if newId.None? then None
    else Some(s.(runtimeId := newId.value))
  }

  /** The callbacks handed to `Store.Update` across the program. */
  datatype Mutation =
    | EnsureIdentity(newId: Option<Uuid>)
    | RecordError(message: string)
    | RecordReject(code: string, message: string)
    | RecordHello(pairing: string, url: string, at: string)
    | SetToken(token: string, newId: Option<Uuid>)
    | ClearToken(newId: Option<Uuid>)
    | SetPairing(pairing: string, keepToken: bool, newId: Option<Uuid>)
    | RecordInvite(pairing: string, url: string)

  const PAIRING_REQUIRED := "PAIRING_REQUIRED"

  function Rejected(s: State, code: string, message: string): State {
    var t := s.(lastError := code + ": " + message);
    if code == PAIRING_REQUIRED then t.(pairingState := PENDING) else t
  }

  function Mutate(m: Mutation, s: State): Option<State> {
    match m
    case EnsureIdentity(newId) => EnsureRuntimeId(s, newId)
    case RecordError(message) => Some(s.(lastError := message))
    case RecordReject(code, message) => Some(Rejected(s, code, message))
    case RecordHello(pairing, url, at) =>
      Some(s.(pairingState := pairing, lastGatewayUrl := url, lastConnectedAt := at, lastError := ""))
    case SetToken(token, newId) =>
      (match EnsureRuntimeId(s, newId)
       case None => None
       case Some(t) => Some(t.(runtimeToken := Trim(token), pairingState := PAIRED, lastError := "")))
    case ClearToken(newId) =>
      (match EnsureRuntimeId(s, newId)
       case None => None
       case Some(t) => Some(t.(runtimeToken := "", pairingState := UNPAIRED, lastError := "")))
    case SetPairing(pairing, keepToken, newId) =>
      (match EnsureRuntimeId(s, newId)
       case None => None
       case Some(t) =>
         Some(t.(pairingState := pairing, runtimeToken := if keepToken then t.runtimeToken else "")))
    case RecordInvite(pairing, url) =>
      Some(s.(pairingState := pairing, lastGatewayUrl := url, lastError := ""))
  }

  /** `Update`'s effect on a normalised state, when it takes effect. */
  function Mutated(m: Mutation, s: State): Option<State> {
    match Mutate(m, s)
    case None => None
    case Some(t) => Some(Normalize(t))
  }

  /** An `Update` callback that never replaces an identity. */
  ghost predicate KeepsIdentity(f: State -> Option<State>) {
    forall s | Normal(s) && s.runtimeId != "" && f(s).Some? ::
      Normalize(f(s).value).runtimeId == s.runtimeId
  }

  lemma {:induction false} NormalFields(s: State)
    ensures Normalize(s).runtimeId == Trim(s.runtimeId)
    ensures Normalize(s).runtimeToken == Trim(s.runtimeToken)
  {
  }

  /** How each callback treats identity and token, before normalisation. */
  lemma {:induction false} MutateFields(m: Mutation, s: State)
    requires Mutate(m, s).Some?
    ensures Trim(s.runtimeId) != "" ==> Mutate(m, s).value.runtimeId == s.runtimeId
    ensures m.EnsureIdentity? || m.SetToken? || m.ClearToken? || m.SetPairing?
            ==> Trim(Mutate(m, s).value.runtimeId) != ""
    ensures m.EnsureIdentity? || m.RecordError? || m.RecordReject? || m.RecordHello?
            ==> Mutate(m, s).value.runtimeToken == s.runtimeToken
  {
    match m {
      case EnsureIdentity(_) =>
      case RecordError(_) =>
      case RecordReject(_, _) =>
      case RecordHello(_, _, _) =>
      case SetToken(_, _) =>
      case ClearToken(_) =>
      case SetPairing(_, _, _) =>
      case RecordInvite(_, _) =>
    }
  }

  /** Every callback in the program keeps an identity once there is one. */
  lemma {:induction false} MutationsKeepIdentity(m: Mutation)
    ensures KeepsIdentity(s => Mutate(m, s))
  {
    var f := s => Mutate(m, s);
    forall s | Normal(s) && s.runtimeId != "" && f(s).Some?
      ensures Normalize(f(s).value).runtimeId == s.runtimeId
    {
      NormalFields(s);
      MutateFields(m, s);
    }
  }

  /** The mutations that reach an identity check leave a non-empty identity behind. */
  lemma {:induction false} MutationsEnsureIdentity(m: Mutation, s: State)
    requires m.EnsureIdentity? || m.SetToken? || m.ClearToken? || m.SetPairing?
    requires Mutated(m, s).Some?
    ensures Mutated(m, s).value.runtimeId != ""
  {
    MutateFields(m, s);
    NormalFields(Mutate(m, s).value);
  }

  /** Only the token commands touch the token; the connection loop's own updates never do. */
  lemma {:induction false} LoopMutationsKeepToken(m: Mutation, s: State)
    requires m.EnsureIdentity? || m.RecordError? || m.RecordReject? || m.RecordHello?
    requires Normal(s) && Mutated(m, s).Some?
    ensures Mutated(m, s).value.runtimeToken == s.runtimeToken
  {
    MutateFields(m, s);
    NormalFields(s);
    NormalFields(Mutate(m, s).value);
  }
}
