/**
 Signed page cursors: a canonical JSON payload and its authentication code, both in
 base64url. The keyed hash is a function of the bytes; the clock is a parameter. None
 stands for every thrown error.
 */
module EventCursor {
  import opened CanonicalJson
  import opened CanonicalJsonParser
  import opened CanonicalBytes
  import opened Utf8
  import opened TextDecoding
  import opened Sorting

  const MAX_CURSOR_CHARACTERS := 2048
  const MAX_PAYLOAD_BYTES := 1536
  const MAX_IDENTIFIER_BYTES := 256
  const MAX_EVENT_TYPES := 32
  const MAX_SAMPLE_INDEXES := 256
  const MAX_EVENT_TYPE_BYTES := 128
  const MAX_PAGE_LIMIT := 100
  const MAX_TTL_MS := 24 * 60 * 60_000
  const SIGNATURE_BYTES := 32
  const SIGNATURE_CHARACTERS := 43
  const DOT: CodeUnit := 0x2E

  /** Filters and context as given; None is `undefined`. */
  datatype Filters = Filters(types: Option<Json>, sampleIndexes: Option<Json>, occurredAtFrom: Option<Json>,
      occurredAtTo: Option<Json>)

  datatype Context = Context(
    projectId: Json, runId: Json, frozenContractDigest: Json, eventSetDigest: Json, lifecycleDigest: Json,
    direction: Json, filters: Filters, limit: Json)

  datatype NormalFilters = NormalFilters(types: seq<Text>, sampleIndexes: seq<int>, occurredAtFrom: Option<Text>,
      occurredAtTo: Option<Text>)

  datatype NormalContext = NormalContext(
    projectId: Text, runId: Text, frozenContractDigest: Text, eventSetDigest: Text, lifecycleDigest: Text,
    direction: Text, filters: NormalFilters, limit: int)

  datatype Claims = Claims(keyEpoch: int, context: NormalContext, nextSequence: int, issuedAtMs: int, expiresAtMs: int)

  datatype Codec = Codec(hmac: seq<Byte> -> seq<Byte>, keyEpoch: int, defaultTtlMs: int)

  /** What the constructor checks, and the length of a SHA-256 code. */
  ghost predicate WellKeyed(codec: Codec) {
    1 <= codec.keyEpoch <= MAX_SAFE && 1 <= codec.defaultTtlMs <= MAX_TTL_MS && forall b ::
        |codec.hmac(b)| == SIGNATURE_BYTES
  }

  const FORWARD: Text := Ascii("forward")
  const BACKWARD: Text := Ascii("backward")

  // Field checks.

  predicate IsHexDigit(u: CodeUnit) {
    0x30 <= u <= 0x39 || 0x61 <= u <= 0x66
  }

  predicate IsDigest(v: Json) {
    v.Str? && |v.s| == 64 && forall i | 0 <= i < |v.s| :: IsHexDigit(v.s[i])
  }

  predicate BoundedString(v: Json, maxBytes: nat) {
    && v.Str? && v.s != []
    && WellFormed(v.s) && |Utf8.Encode(Scalars(v.s))| <= maxBytes
    && forall i | 0 <= i < |v.s| :: v.s[i] >= 0x20 && v.s[i] != 0x7F
  }

  predicate NonnegativeSafe(n: int) {
    0 <= n <= MAX_SAFE
  }

  predicate IsLeap(y: int) {
    y % 4 == 0 && (y % 100 != 0 || y % 400 == 0)
  }

  function DaysInMonth(y: int, m: int): int {
    if m == 2 then (if IsLeap(y) then 29 else 28)
    else if m == 4 || m == 6 || m == 9 || m == 11 then 30
    else 31
  }

  function TwoDigits(t: Text, i: nat): int
    requires i + 2 <= |t|
  {
    (t[i] as int - 0x30) * 10 + (t[i + 1] as int - 0x30)
  }

  /** The shape `dddd-dd-ddTdd:dd:dd.dddZ`. */
  predicate InstantShape(t: Text) {
    && |t| == 24
    && t[4] == 0x2D && t[7] == 0x2D && t[10] == 0x54 && t[13] == 0x3A && t[16] == 0x3A && t[19] == 0x2E && t[23] == 0x5A
    && forall i | 0 <= i < 23 && i !in {4, 7, 10, 13, 16, 19} :: IsDigit(t[i])
  }

  /** An instant that survives parsing and printing: every field is in its calendar range. */
  predicate IsInstant(t: Text) {
    && InstantShape(t)
    && var year, month := TwoDigits(t, 0) * 100 + TwoDigits(t, 2), TwoDigits(t, 5);
    && 1 <= month <= 12
    && 1 <= TwoDigits(t, 8) <= DaysInMonth(year, month)
    && TwoDigits(t, 11) < 24 && TwoDigits(t, 14) < 60 && TwoDigits(t, 17) < 60
  }

  function NormalizeInstant(v: Option<Json>): Option<Option<Text>> {
    if v.None? || v.value.Null? then Some(None)
    else if v.value.Str? && IsInstant(v.value.s) then Some(Some(v.value.s))
    else None
  }

  // Normalization.

  predicate Below(a: int, b: int) {
    a < b
  }

  predicate InstantsInOrder(a: Option<Text>, b: Option<Text>) {
    a.Some? && b.Some? ==> !Less(b.value, a.value)
  }

  function ListOf(v: Option<Json>): Option<seq<Json>> {
    if v.None? then Some([]) else if v.value.Arr? then Some(v.value.items) else None
  }

  function NormalizeTypes(items: seq<Json>): Option<seq<Text>> {
    if |items| > MAX_EVENT_TYPES then None
    else if exists i | 0 <= i < |items| :: !BoundedString(items[i], MAX_EVENT_TYPE_BYTES) then None
    else
      var sorted := Sort(seq(|items|, i requires 0 <= i < |items| && items[i].Str? => items[i].s), Less);
      if HasAdjacentDuplicate(sorted) then None else Some(sorted)
  }

  function NormalizeSampleIndexes(items: seq<Json>): Option<seq<int>> {
    if |items| > MAX_SAMPLE_INDEXES then None
    else if exists i | 0 <= i < |items| :: !(items[i].Num? && NonnegativeSafe(items[i].n)) then None
    else
      var sorted := Sort(seq(|items|, i requires 0 <= i < |items| && items[i].Num? => items[i].n), Below);
      if HasAdjacentDuplicate(sorted) then None else Some(sorted)
  }

  /** `normalizeDiagnosticEventCursorFilters`. */
  function NormalizeFilters(f: Filters): Option<NormalFilters> {
    var types, samples := ListOf(f.types), ListOf(f.sampleIndexes);
    if types.None? || samples.None? then None
    else
      var t, s := NormalizeTypes(types.value), NormalizeSampleIndexes(samples.value);
      var from, to := NormalizeInstant(f.occurredAtFrom), NormalizeInstant(f.occurredAtTo);
      if t.None? || s.None? || from.None? || to.None? || !InstantsInOrder(from.value, to.value) then None
      else Some(NormalFilters(t.value, s.value, from.value, to.value))
  }

  function NormalizeContext(c: Context): Option<NormalContext> {
    if !BoundedString(c.projectId, MAX_IDENTIFIER_BYTES) || !BoundedString(c.runId, MAX_IDENTIFIER_BYTES) then None
    else if !IsDigest(c.frozenContractDigest) || !IsDigest(c.eventSetDigest) || !IsDigest(c.lifecycleDigest) then None
    else if c.direction != Str(FORWARD) && c.direction != Str(BACKWARD) then None
    else if !c.limit.Num? || !(1 <= c.limit.n <= MAX_PAGE_LIMIT) then None
    else
      match NormalizeFilters(c.filters)
      case None => None
      case Some(f) =>
        Some(NormalContext(c.projectId.s, c.runId.s, c.frozenContractDigest.s, c.eventSetDigest.s, c.lifecycleDigest.s,
                           c.direction.s, f, c.limit.n))
  }

  // The payload.

  const K_C: Text := [0x63]
  const K_D: Text := [0x64]
  const K_E: Text := [0x65]
  const K_F: Text := [0x66]
  const K_G: Text := [0x67]
  const K_I: Text := [0x69]
  const K_K: Text := [0x6B]
  const K_L: Text := [0x6C]
  const K_N: Text := [0x6E]
  const K_P: Text := [0x70]
  const K_R: Text := [0x72]
  const K_V: Text := [0x76]
  const K_X: Text := [0x78]
  const K_A: Text := [0x61]
  const K_S: Text := [0x73]
  const K_T: Text := [0x74]
  const K_Z: Text := [0x7A]

  const PAYLOAD_KEYS: set<Text> := {K_C, K_D, K_E, K_F, K_G, K_I, K_K, K_L, K_N, K_P, K_R, K_V, K_X}
  const FILTER_KEYS: set<Text> := {K_A, K_S, K_T, K_Z}

  function StringsJson(ts: seq<Text>): Json {
    Arr(seq(|ts|, i requires 0 <= i < |ts| => Str(ts[i])))
  }

  function NumbersJson(ns: seq<int>): Json {
    Arr(seq(|ns|, i requires 0 <= i < |ns| => Num(ns[i])))
  }

  function InstantJson(t: Option<Text>): Json {
    if t.None? then Null else Str(t.value)
  }

  function FiltersJson(f: NormalFilters): Json {
    Obj(map[
      K_T := StringsJson(f.types), K_S := NumbersJson(f.sampleIndexes),
      K_A := InstantJson(f.occurredAtFrom), K_Z := InstantJson(f.occurredAtTo)])
  }

  /** `payloadFrom`. */
  function PayloadJson(c: Claims): Json {
    Obj(map[
      K_V := Num(1), K_K := Num(c.keyEpoch), K_P := Str(c.context.projectId), K_R := Str(c.context.runId),
      K_C := Str(c.context.frozenContractDigest), K_E := Str(c.context.eventSetDigest), K_G :=
          Str(c.context.lifecycleDigest),
      K_N := Num(c.nextSequence), K_D := Str(c.context.direction), K_F := FiltersJson(c.context.filters),
      K_L := Num(c.context.limit), K_I := Num(c.issuedAtMs), K_X := Num(c.expiresAtMs)])
  }

  /** The normalized context as `sameContext` encodes it. */
  function ContextJson(c: NormalContext): Json {
    Obj(map[
      Ascii("projectId") := Str(c.projectId), Ascii("runId") := Str(c.runId),
      Ascii("frozenContractDigest") := Str(c.frozenContractDigest), Ascii("eventSetDigest") := Str(c.eventSetDigest),
      Ascii("lifecycleDigest") := Str(c.lifecycleDigest), Ascii("direction") := Str(c.direction),
      Ascii("filters") := Obj(map[
        Ascii("types") := StringsJson(c.filters.types), Ascii("sampleIndexes") := NumbersJson(c.filters.sampleIndexes),
        Ascii("occurredAtFrom") := InstantJson(c.filters.occurredAtFrom), Ascii("occurredAtTo") :=
            InstantJson(c.filters.occurredAtTo)]),
      Ascii("limit") := Num(c.limit)])
  }

  predicate SameContext(a: NormalContext, b: NormalContext) {
    Canonical(ContextJson(a)) && Canonical(ContextJson(b)) && Bytes(ContextJson(a)) == Bytes(ContextJson(b))
  }

  const SIGNING_DOMAIN: seq<Byte> := Utf8.Encode(Ascii("riff-diagnostic-event-cursor-v1") + [0])

  function Mac(codec: Codec, payload: seq<Byte>): seq<Byte> {
    codec.hmac(SIGNING_DOMAIN + payload)
  }

  function Token(codec: Codec, payload: seq<Byte>): Text {
    Base64(payload) + [DOT] + Base64(Mac(codec, payload))
  }

  /** The signed token of a payload, within both size limits. */
  function Seal(codec: Codec, payload: Json): Option<Text> {
    if !Canonical(payload) || |Bytes(payload)| > MAX_PAYLOAD_BYTES then None
    else if |Token(codec, Bytes(payload))| > MAX_CURSOR_CHARACTERS then None
    else Some(Token(codec, Bytes(payload)))
  }

  /** `issue` at clock reading `now`. */
  function Issue(codec: Codec, context: Context, nextSequence: int, now: int, ttlMs: Option<int>): Option<Text> {
    var ttl := if ttlMs.Some? then ttlMs.value else codec.defaultTtlMs;
    match NormalizeContext(context)
    case None => None
    case Some(c) =>
      if !NonnegativeSafe(nextSequence) || !NonnegativeSafe(now) || !(1 <= ttl <= MAX_TTL_MS)
          || !IsSafe(now + ttl) then None
      else
        Seal(codec, PayloadJson(Claims(codec.keyEpoch, c, nextSequence, now, now + ttl)))
  }

  // Verification.

  function IndexOf(t: Text, u: CodeUnit): (r: Option<nat>)
    ensures r.Some? ==> r.value < |t| && t[r.value] == u && u !in t[..r.value]
    ensures r.None? ==> u !in t
  {
    if t == [] then None
    else if t[0] == u then Some(0)
    else
      match IndexOf(t[1..], u)
      case None => None
      case Some(i) => Some(i + 1)
  }

  function LastIndexOf(t: Text, u: CodeUnit): (r: Option<nat>)
    ensures r.Some? ==> r.value < |t| && t[r.value] == u && u !in t[r.value + 1..]
    ensures r.None? ==> u !in t
  {
    if t == [] then None
    else if t[|t| - 1] == u then Some(|t| - 1)
    else LastIndexOf(t[..|t| - 1], u)
  }

  /** `decodeToken`: the payload bytes of a well-spelled token with the right code. */
  function DecodeToken(codec: Codec, token: Text): Option<seq<Byte>> {
    if token == [] || |token| > MAX_CURSOR_CHARACTERS then None
    else
      var first, last := IndexOf(token, DOT), LastIndexOf(token, DOT);
      if first.None? || first == Some(0) || first != last then None
      else
        var signaturePart := token[first.value + 1..];
        var payload, signature := StrictBase64(token[..first.value]), StrictBase64(signaturePart);
        if |signaturePart| != SIGNATURE_CHARACTERS || payload.None? then None
        else if payload.value == [] || |payload.value| > MAX_PAYLOAD_BYTES then None
        else if signature.None? || |signature.value| != SIGNATURE_BYTES
          || signature.value != Mac(codec, payload.value) then None
        else Some(payload.value)
  }

  /** Exactly the payload's keys, and exactly the filters' keys. */
  predicate PayloadShape(p: Json) {
    p.Obj? && p.fields.Keys == PAYLOAD_KEYS && p.fields[K_F].Obj? && p.fields[K_F].fields.Keys == FILTER_KEYS
  }

  /** `parsePayload`: canonical bytes of an object with exactly the payload's keys. */
  function ParsePayload(bytes: seq<Byte>): (p: Option<Json>)
    ensures p.Some? ==> PayloadShape(p.value) && Canonical(p.value)
  {
    match DecodeUtf8(bytes)
    case None => None
    case Some(text) =>
      match Parse(text)
      case Refused => None
      case OutsideModel => None
      case Accepted(v) =>
        if !Canonical(v) || Bytes(v) != bytes || !PayloadShape(v) then None else Some(v)
  }

  function ContextFromPayload(p: Json): Context
    requires PayloadShape(p)
  {
    var f := p.fields[K_F].fields;
    Context(
      p.fields[K_P], p.fields[K_R], p.fields[K_C], p.fields[K_E], p.fields[K_G], p.fields[K_D],
      Filters(Some(f[K_T]), Some(f[K_S]), Some(f[K_A]), Some(f[K_Z])), p.fields[K_L])
  }

  predicate IsNonnegativeSafe(v: Json) {
    v.Num? && NonnegativeSafe(v.n)
  }

  /** Version, key epoch, position and lifetime of a payload at clock reading `now`. */
  predicate HeaderAccepted(p: Json, keyEpoch: int, now: int)
    requires PayloadShape(p)
  {
    var f := p.fields;
    && f[K_V] == Num(1) && f[K_K] == Num(keyEpoch) && 1 <= keyEpoch <= MAX_SAFE
    && IsNonnegativeSafe(f[K_N]) && IsNonnegativeSafe(f[K_I]) && IsNonnegativeSafe(f[K_X])
    && f[K_I].n <= now < f[K_X].n && f[K_I].n < f[K_X].n && f[K_X].n - f[K_I].n <= MAX_TTL_MS
  }

  /** `validatePayload`, and the claims of a payload that passes it. */
  function ValidatePayload(p: Json, keyEpoch: int, now: int): Option<Claims>
    requires PayloadShape(p) && Canonical(p)
  {
    if !HeaderAccepted(p, keyEpoch, now) then None
    else
      match NormalizeContext(ContextFromPayload(p))
      case None => None
      case Some(c) =>
        var f := p.fields[K_F];
        if !Canonical(FiltersJson(c.filters)) || Bytes(f) != Bytes(FiltersJson(c.filters)) then None
        else Some(Claims(keyEpoch, c, p.fields[K_N].n, p.fields[K_I].n, p.fields[K_X].n))
  }

  /** `verify` at clock reading `now`. */
  function Verify(codec: Codec, token: Text, expected: Context, now: int): Option<Claims> {
    match NormalizeContext(expected)
    case None => None
    case Some(context) =>
      match DecodeToken(codec, token)
      case None => None
      case Some(bytes) =>
        match ParsePayload(bytes)
        case None => None
        case Some(p) =>
          if !NonnegativeSafe(now) then None
          else
            match ValidatePayload(p, codec.keyEpoch, now)
            case None => None
            case Some(claims) => if SameContext(claims.context, context) then Some(claims) else None
  }
}
