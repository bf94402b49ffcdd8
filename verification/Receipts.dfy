/** Anti-rollback of the update verifier (shared/updateverify/verify.go). Canonical bytes,
    digests and signatures are parameters: a digest is a function of the metadata, a
    signature check a predicate. */
module Receipts {
  import opened Prelude
  import opened SemVer

  const MAX_SAFE: nat := 9007199254740991
  const MAX_ARTIFACT: int := 0x2_0000_0000
  const MAX_VALIDITY: int := 30 * 24 * 60 * 60
  const MAX_TIMESTAMP: int := 253402300799
  const MAX_KEY_LIFE: int := 5 * 366 * 24 * 60 * 60

  datatype Scope = Scope(product: string, platform: string, architecture: string, channel: string)

  datatype Metadata = Metadata(
    scope: Scope, version: string, protocol: nat, commit: string, name: string, size: int, hash: string,
    issuedAt: int, expiresAt: int, sequence: nat, securityVersion: nat, securityFloor: nat)

  datatype Key = Key(id: string, publicKey: string, validFrom: int, validUntil: int, minSequence: nat, maxSequence: nat)

  datatype Policy = Policy(
    scope: Scope, minVersion: string, minProtocol: nat, maxProtocol: nat, minSequence: nat, securityFloor: nat,
    maxArtifact: int, maxValidity: int, keys: seq<Key>)

  datatype Receipt = Receipt(keyId: string, digest: string, metadata: Metadata, verifiedAt: int, idempotent: bool)

  datatype Refusal = BadPolicy | BadMetadata | BadSignature | BadPrevious | Replayed | RolledBack | BadArtifact

  /** What the verifier cannot see into: digests, signatures and which keys are acceptable. */
  datatype Crypto = Crypto(
    digest: Metadata -> string,
    signed: (string, string, Metadata, string) -> bool,
    goodKey: string -> bool)

  datatype Envelope = Envelope(keyId: string, metadata: Metadata, signature: string)
  datatype Artifact = Artifact(size: int, hash: string)

  // ---------------------------------------------------------------- checks on values

  predicate ScopeOk(s: Scope) {
    && s.product in ["cli", "desktop-gui", "python-sdk", "hub", "reverse", "android-control"]
    && s.platform in ["windows", "darwin", "linux", "android"]
    && s.architecture in ["amd64", "arm64"] && s.channel in ["stable", "beta", "development"]
  }

  predicate Hex(s: string, size: nat) {
    |s| == size * 2 && forall i | 0 <= i < |s| :: Digit(s[i]) || 'a' <= s[i] <= 'f'
  }

  predicate KeyIdOk(s: string) {
    0 < |s| <= 64 && 'a' <= s[0] <= 'z' && forall i | 0 <= i < |s| :: 'a' <= s[i] <= 'z' || Digit(s[i]) || s[i] == '-'
  }

  predicate NameOk(s: string) {
    0 < |s| <= 128 && forall i | 0 <= i < |s| ::
      'a' <= s[i] <= 'z' || 'A' <= s[i] <= 'Z' || Digit(s[i]) || (i > 0 && (s[i] == '.' || s[i] == '_' || s[i] == '-'))
  }

  predicate Positive(n: nat) { 0 < n <= MAX_SAFE }

  predicate MetadataOk(m: Metadata) {
    && ScopeOk(m.scope) && Parse(m.version).Some? && (m.scope.channel == "stable" ==> Parse(m.version).value.pre == [])
    && 0 < m.protocol <= 1024 && Hex(m.commit, 20) && NameOk(m.name) && 0 < m.size <= MAX_ARTIFACT && Hex(m.hash, 32)
    && 0 < m.issuedAt < m.expiresAt <= MAX_TIMESTAMP && m.expiresAt - m.issuedAt <= MAX_VALIDITY
    && Positive(m.sequence) && Positive(m.securityVersion) && Positive(m.securityFloor)
    && m.securityFloor <= m.securityVersion
  }

  predicate KeyOk(c: Crypto, k: Key) {
    && KeyIdOk(k.id) && c.goodKey(k.publicKey) && 0 < k.validFrom < k.validUntil <= MAX_TIMESTAMP
    && k.validUntil - k.validFrom <= MAX_KEY_LIFE
    && Positive(k.minSequence) && Positive(k.maxSequence) && k.minSequence <= k.maxSequence
  }

  predicate KeysOk(c: Crypto, keys: seq<Key>) {
    && (forall i | 0 <= i < |keys| :: KeyOk(c, keys[i]))
    && (forall i, j | 0 <= i < j < |keys| :: keys[i].id != keys[j].id && keys[i].publicKey != keys[j].publicKey)
  }

  predicate TermsOk(p: Policy) {
    && ScopeOk(p.scope) && Parse(p.minVersion).Some? && 0 < p.minProtocol <= p.maxProtocol <= 1024
    && Positive(p.minSequence) && Positive(p.securityFloor) && 0 < p.maxArtifact <= MAX_ARTIFACT
    && 1 <= p.maxValidity <= MAX_VALIDITY && 0 < |p.keys| <= 16
  }

  /** The table maps each id to its key, and holds nothing else. */
  predicate Tabled(keys: seq<Key>, table: map<string, Key>) {
    && (forall i | 0 <= i < |keys| :: keys[i].id in table && table[keys[i].id] == keys[i])
    && (forall id | id in table :: table[id] in keys && table[id].id == id)
  }

  predicate NoClash(keys: seq<Key>, key: Key) {
    forall i | 0 <= i < |keys| :: keys[i].id != key.id && keys[i].publicKey != key.publicKey
  }

  lemma KeysGrow(c: Crypto, keys: seq<Key>, i: nat)
    requires i < |keys| && KeysOk(c, keys[..i])
    ensures KeysOk(c, keys[..i + 1]) <==> KeyOk(c, keys[i]) && NoClash(keys[..i], keys[i])
  {
    hide KeyOk;
    assert keys[..i + 1] == keys[..i] + [keys[i]];
  }

  lemma PrefixRefused(c: Crypto, keys: seq<Key>, i: nat)
    requires i <= |keys| && !KeysOk(c, keys[..i])
    ensures !KeysOk(c, keys)
  {
    hide KeyOk;
  }

  lemma TableGrows(keys: seq<Key>, i: nat, table: map<string, Key>)
    requires i < |keys| && Tabled(keys[..i], table) && keys[i].id !in table
    ensures Tabled(keys[..i + 1], table[keys[i].id := keys[i]])
  {
    assert keys[..i + 1] == keys[..i] + [keys[i]];
  }

  lemma ClashSeen(keys: seq<Key>, i: nat, table: map<string, Key>, publicKeys: set<string>)
    requires i < |keys| && Tabled(keys[..i], table) && publicKeys == set j | 0 <= j < i :: keys[j].publicKey
    ensures NoClash(keys[..i], keys[i]) <==> keys[i].publicKey !in publicKeys && keys[i].id !in table
  {
    if keys[i].id in table {
      var j :| 0 <= j < i && keys[..i][j] == table[keys[i].id];
      assert keys[..i][j].id == keys[i].id;
    }
    if keys[i].publicKey in publicKeys {
      var j :| 0 <= j < i && keys[j].publicKey == keys[i].publicKey;
      assert keys[..i][j].publicKey == keys[i].publicKey;
    }
    if keys[i].publicKey !in publicKeys && keys[i].id !in table {
      forall j | 0 <= j < i ensures keys[..i][j].id != keys[i].id && keys[..i][j].publicKey != keys[i].publicKey {
        assert keys[j].publicKey in publicKeys;
      }
    }
  }

  /** validatePolicy: the key table, or none if a key is bad or named or used twice. */
  method ValidatePolicy(c: Crypto, p: Policy) returns (table: Option<map<string, Key>>)
    ensures table.Some? <==> TermsOk(p) && KeysOk(c, p.keys)
    ensures table.Some? ==> Tabled(p.keys, table.value)
  {
    hide TermsOk, KeyOk;
    if !TermsOk(p) { return None; }
    var keys: map<string, Key> := map[];
    var publicKeys: set<string> := {};
    assert KeysOk(c, p.keys[..0]) && Tabled(p.keys[..0], keys);
    hide KeysOk, Tabled, NoClash;
    for i := 0 to |p.keys|
      invariant KeysOk(c, p.keys[..i]) && Tabled(p.keys[..i], keys)
      invariant publicKeys == set j | 0 <= j < i :: p.keys[j].publicKey
    {
      var key := p.keys[i];
      KeysGrow(c, p.keys, i);
      ClashSeen(p.keys, i, keys, publicKeys);
      if !KeyOk(c, key) || key.publicKey in publicKeys || key.id in keys {
        PrefixRefused(c, p.keys, i + 1);
        return None;
      }
      TableGrows(p.keys, i, keys);
      keys, publicKeys := keys[key.id := key], publicKeys + {key.publicKey};
    }
    assert p.keys[..|p.keys|] == p.keys;
    return Some(keys);
  }

  predicate PreviousOk(c: Crypto, r: Receipt, p: Policy, now: int) {
    && MetadataOk(r.metadata) && KeyIdOk(r.keyId) && c.digest(r.metadata) == r.digest && r.metadata.scope == p.scope
    && r.metadata.issuedAt <= r.verifiedAt < r.metadata.expiresAt && r.verifiedAt <= now
  }

  predicate InForce(p: Policy, m: Metadata, now: int) {
    && m.scope == p.scope && p.minProtocol <= m.protocol <= p.maxProtocol && m.size <= p.maxArtifact
    && m.expiresAt - m.issuedAt <= p.maxValidity && m.issuedAt <= now < m.expiresAt
  }

  predicate KeyCovers(k: Key, m: Metadata, now: int) {
    k.validFrom <= now < k.validUntil && k.validFrom <= m.issuedAt < k.validUntil
      && k.minSequence <= m.sequence <= k.maxSequence
  }

  predicate Trusted(c: Crypto, p: Policy, e: Envelope, now: int) {
    exists k :: k in p.keys && k.id == e.keyId && KeyCovers(k, e.metadata, now)
                && c.signed(k.publicKey, e.keyId, e.metadata, e.signature)
  }

  function OrderOf(a: string, b: string): int
    requires Parse(a).Some? && Parse(b).Some?
  {
    Precedence(Parse(a).value, Parse(b).value)
  }

  /** Replay, equivocation and downgrade against the previous receipt. */
  function Against(m: Metadata, digest: string, keyId: string, r: Receipt): Option<Refusal>
    requires MetadataOk(m) && MetadataOk(r.metadata)
  {
    var o := r.metadata;
    if m.sequence < o.sequence then Some(Replayed)
    else if m.sequence == o.sequence && (digest != r.digest || keyId != r.keyId) then Some(Replayed)
    else if OrderOf(m.version, o.version) < 0 || m.securityVersion < o.securityVersion
      || m.securityFloor < o.securityFloor
    then Some(RolledBack)
    else None
  }

  /** Verify. */
  function Verdict(c: Crypto, p: Policy, e: Envelope, a: Artifact, previous: Option<Receipt>,
                   now: int): Result<Receipt, Refusal> {
    var m := e.metadata;
    if !TermsOk(p) || !KeysOk(c, p.keys) || !(0 < now <= MAX_TIMESTAMP) then Err(BadPolicy)
    else if !KeyIdOk(e.keyId) || !Hex(e.signature, 64) || !MetadataOk(m) || !InForce(p, m, now) then Err(BadMetadata)
    else if !Trusted(c, p, e, now) then Err(BadSignature)
    else if previous.Some? && !PreviousOk(c, previous.value, p, now) then Err(BadPrevious)
    else if OrderOf(m.version, p.minVersion) < 0 || m.securityFloor < p.securityFloor || m.sequence < p.minSequence
    then Err(RolledBack)
    else
      var d := c.digest(m);
      var refusal := if previous.Some? then Against(m, d, e.keyId, previous.value) else None;
      if refusal.Some? then Err(refusal.value)
      else if a.size != m.size || a.hash != m.hash then Err(BadArtifact)
      else Ok(Receipt(e.keyId, d, m, now, previous.Some? && m.sequence == previous.value.metadata.sequence))
  }

  /** The same with the key table the source builds and its three-way comparison. */
  method Verify(c: Crypto, p: Policy, e: Envelope, a: Artifact, previous: Option<Receipt>, now: int)
    returns (r: Result<Receipt, Refusal>)
    ensures r == Verdict(c, p, e, a, previous, now)
  {
    hide ScopeOk, Hex, KeyIdOk, NameOk, Parse, Precedence, KeysOk, InForce;
    var table := ValidatePolicy(c, p);
    if table.None? || !(0 < now <= MAX_TIMESTAMP) { return Err(BadPolicy); }
    var m := e.metadata;
    if !KeyIdOk(e.keyId) || !Hex(e.signature, 64) || !MetadataOk(m) || !InForce(p, m, now) { return Err(BadMetadata); }
    if e.keyId !in table.value { return Err(BadSignature); }
    var key := table.value[e.keyId];
    assert key in p.keys && key.id == e.keyId;
    if !KeyCovers(key, m, now) || !c.signed(key.publicKey, e.keyId, m, e.signature) { return Err(BadSignature); }
    if previous.Some? && !PreviousOk(c, previous.value, p, now) { return Err(BadPrevious); }
    var floor := Below(m.version, p.minVersion);
    if floor || m.securityFloor < p.securityFloor || m.sequence < p.minSequence { return Err(RolledBack); }
    var d := c.digest(m);
    var idempotent := false;
    if previous.Some? {
      var o := previous.value.metadata;
      if m.sequence < o.sequence { return Err(Replayed); }
      if m.sequence == o.sequence {
        if d != previous.value.digest || e.keyId != previous.value.keyId { return Err(Replayed); }
        idempotent := true;
      }
      var down := Below(m.version, o.version);
      if down || m.securityVersion < o.securityVersion || m.securityFloor < o.securityFloor { return Err(RolledBack); }
    }
    if a.size != m.size || a.hash != m.hash { return Err(BadArtifact); }
    return Ok(Receipt(e.keyId, d, m, now, idempotent));
  }

  method Below(a: string, b: string) returns (below: bool)
    requires Parse(a).Some? && Parse(b).Some?
    ensures below == (OrderOf(a, b) < 0)
  {
    ParseGivesParsed(a);
    ParseGivesParsed(b);
    var order := Compare(Parse(a).value, Parse(b).value);
    return order < 0;
  }

  // ---------------------------------------------------------------- chains of receipts

  /** One call of Verify. */
  datatype Call = Call(policy: Policy, envelope: Envelope, artifact: Artifact, now: int)

  /** Each receipt after the first was given with the one before it as the previous one. */
  predicate Chain(c: Crypto, calls: seq<Call>, receipts: seq<Receipt>) {
    |calls| == |receipts| && forall i: nat | i < |calls| :: Gives(c, calls[i], Before(receipts, i), receipts[i])
  }

  function Before(receipts: seq<Receipt>, i: nat): Option<Receipt>
    requires i < |receipts|
  {
    if i == 0 then None else Some(receipts[i - 1])
  }

  predicate Gives(c: Crypto, call: Call, previous: Option<Receipt>, r: Receipt) {
    Verdict(c, call.policy, call.envelope, call.artifact, previous, call.now) == Ok(r)
  }

  predicate NotOlder(r: Receipt, s: Receipt)
    requires MetadataOk(r.metadata) && MetadataOk(s.metadata)
  {
    && r.metadata.scope == s.metadata.scope
    && r.metadata.sequence <= s.metadata.sequence && OrderOf(r.metadata.version, s.metadata.version) <= 0
    && r.metadata.securityVersion <= s.metadata.securityVersion && r.metadata.securityFloor <= s.metadata.securityFloor
    && r.verifiedAt <= s.verifiedAt
    && (r.metadata.sequence == s.metadata.sequence ==> r.digest == s.digest && r.keyId == s.keyId)
  }

  lemma VerdictFacts(c: Crypto, p: Policy, e: Envelope, a: Artifact, previous: Option<Receipt>, now: int)
    requires Verdict(c, p, e, a, previous, now).Ok?
    ensures var r := Verdict(c, p, e, a, previous, now).value;
            && MetadataOk(e.metadata) && r.metadata == e.metadata && r.digest == c.digest(e.metadata)
            && r.keyId == e.keyId
            && r.verifiedAt == now && e.metadata.scope == p.scope
            && (previous.Some? ==> PreviousOk(c, previous.value, p, now)
                                   && Against(e.metadata, r.digest, e.keyId, previous.value).None?)
  {
    hide TermsOk, KeysOk, MetadataOk, Trusted, PreviousOk, Against, OrderOf, Hex, KeyIdOk;
  }

  lemma ReceiptOk(c: Crypto, p: Policy, e: Envelope, a: Artifact, previous: Option<Receipt>, now: int)
    requires Verdict(c, p, e, a, previous, now).Ok?
    ensures var r := Verdict(c, p, e, a, previous, now).value;
            && MetadataOk(r.metadata) && r.digest == c.digest(r.metadata)
            && (previous.Some? ==> MetadataOk(previous.value.metadata) && NotOlder(previous.value, r))
  {
    VerdictFacts(c, p, e, a, previous, now);
    var r := Verdict(c, p, e, a, previous, now).value;
    hide Verdict;
    if previous.Some? { NotAgainst(r, previous.value); }
  }

  lemma NotAgainst(r: Receipt, o: Receipt)
    requires MetadataOk(r.metadata) && MetadataOk(o.metadata) && r.metadata.scope == o.metadata.scope
    requires Against(r.metadata, r.digest, r.keyId, o).None? && o.verifiedAt <= r.verifiedAt
    ensures NotOlder(o, r)
  {
    PrecedenceOrder(Parse(r.metadata.version).value, Parse(o.metadata.version).value, Parse(o.metadata.version).value);
    hide MetadataOk, Precedence, Parse;
  }

  /** Along any chain of receipts nothing goes back: sequence, version, security version and
      floor never decrease, and an equal sequence means the same metadata under the same key. */
  lemma {:induction false} ChainNeverGoesBack(c: Crypto, calls: seq<Call>, receipts: seq<Receipt>, i: nat, j: nat)
    requires Chain(c, calls, receipts) && i <= j < |receipts|
    ensures MetadataOk(receipts[i].metadata) && MetadataOk(receipts[j].metadata) && NotOlder(receipts[i], receipts[j])
    ensures receipts[i].digest == c.digest(receipts[i].metadata)
    decreases j
  {
    hide Verdict, MetadataOk, NotOlder;
    var call := calls[j];
    var previous := Before(receipts, j);
    assert Gives(c, calls[j], previous, receipts[j]);
    ReceiptOk(c, call.policy, call.envelope, call.artifact, previous, call.now);
    if i < j {
      ChainNeverGoesBack(c, calls, receipts, i, j - 1);
      NotOlderTransitive(receipts[i], receipts[j - 1], receipts[j]);
    } else {
      SameOrder(receipts[i]);
    }
  }

  lemma SameOrder(r: Receipt)
    requires MetadataOk(r.metadata)
    ensures NotOlder(r, r)
  {
    var v := Parse(r.metadata.version).value;
    PrecedenceOrder(v, v, v);
  }

  lemma NotOlderTransitive(r: Receipt, s: Receipt, t: Receipt)
    requires MetadataOk(r.metadata) && MetadataOk(s.metadata) && MetadataOk(t.metadata) && NotOlder(r, s)
             && NotOlder(s, t)
    ensures NotOlder(r, t)
  {
    PrecedenceOrder(Parse(r.metadata.version).value, Parse(s.metadata.version).value, Parse(t.metadata.version).value);
    hide MetadataOk, Precedence;
  }

  /** With collision-free digests an equal sequence means the very same metadata. */
  lemma NoEquivocation(c: Crypto, calls: seq<Call>, receipts: seq<Receipt>, i: nat, j: nat)
    requires Chain(c, calls, receipts) && i <= j < |receipts|
    requires forall m, n {:trigger c.digest(m), c.digest(n)} :: c.digest(m) == c.digest(n) ==> m == n
    requires receipts[i].metadata.sequence == receipts[j].metadata.sequence
    ensures receipts[i].metadata == receipts[j].metadata && receipts[i].keyId == receipts[j].keyId
  {
    ChainNeverGoesBack(c, calls, receipts, i, j);
    ChainNeverGoesBack(c, calls, receipts, j, j);
  }

  lemma CarriesOn(c: Crypto, p: Policy, e: Envelope, a: Artifact, previous: Option<Receipt>, now: int, later: int)
    requires Verdict(c, p, e, a, previous, now).Ok? && now <= later
    ensures forall q: Policy | q.scope == p.scope :: PreviousOk(c, Verdict(c, p, e, a, previous, now).value, q, later)
    ensures TermsOk(p) && KeysOk(c, p.keys) && KeyIdOk(e.keyId) && Hex(e.signature, 64) && MetadataOk(e.metadata)
            && 0 < now && InForce(p, e.metadata, now) && a.size == e.metadata.size && a.hash == e.metadata.hash
            && OrderOf(e.metadata.version, p.minVersion) >= 0 && e.metadata.securityFloor >= p.securityFloor
            && e.metadata.sequence >= p.minSequence
  {
    hide TermsOk, KeysOk, MetadataOk, Trusted, Against, OrderOf, Hex, KeyIdOk;
  }

  /** A receipt is always good as the previous one later on, and verifying the same envelope
      again succeeds, as idempotent, as long as it and its key are still valid. */
  lemma ReceiptsCarryOn(c: Crypto, p: Policy, e: Envelope, a: Artifact, previous: Option<Receipt>, now: int, later: int)
    requires Verdict(c, p, e, a, previous, now).Ok? && now <= later
    ensures var r := Verdict(c, p, e, a, previous, now).value;
            && (forall q: Policy | q.scope == p.scope :: PreviousOk(c, r, q, later))
            && (later <= MAX_TIMESTAMP && later < e.metadata.expiresAt && Trusted(c, p, e, later)
                ==> Verdict(c, p, e, a, Some(r), later) == Ok(r.(verifiedAt := later, idempotent := true)))
  {
    CarriesOn(c, p, e, a, previous, now, later);
    VerdictFacts(c, p, e, a, previous, now);
    var r := Verdict(c, p, e, a, previous, now).value;
    hide TermsOk, KeysOk, MetadataOk, Trusted, PreviousOk, OrderOf, Hex, KeyIdOk, Against, Verdict;
    if later <= MAX_TIMESTAMP && later < e.metadata.expiresAt && Trusted(c, p, e, later) {
      AgainIdempotent(c, p, e, a, r, later);
    }
  }

  lemma AgainIdempotent(c: Crypto, p: Policy, e: Envelope, a: Artifact, r: Receipt, later: int)
    requires TermsOk(p) && KeysOk(c, p.keys) && KeyIdOk(e.keyId) && Hex(e.signature, 64) && MetadataOk(e.metadata)
    requires 0 < later <= MAX_TIMESTAMP && InForce(p, e.metadata, later) && Trusted(c, p, e, later)
             && PreviousOk(c, r, p, later)
    requires a.size == e.metadata.size && a.hash == e.metadata.hash && OrderOf(e.metadata.version, p.minVersion) >= 0
    requires e.metadata.securityFloor >= p.securityFloor && e.metadata.sequence >= p.minSequence
    requires r.metadata == e.metadata && r.digest == c.digest(e.metadata) && r.keyId == e.keyId
    ensures Verdict(c, p, e, a, Some(r), later) == Ok(r.(verifiedAt := later, idempotent := true))
  {
    NotAgainstItself(r);
    hide TermsOk, KeysOk, MetadataOk, Trusted, PreviousOk, OrderOf, Hex, KeyIdOk, Against, InForce;
  }

  lemma NotAgainstItself(r: Receipt)
    requires MetadataOk(r.metadata)
    ensures Against(r.metadata, r.digest, r.keyId, r) == None
  {
    var v := Parse(r.metadata.version).value;
    PrecedenceOrder(v, v, v);
    hide Precedence, Parse, MetadataOk;
  }

  // ---------------------------------------------------------------- exactly what is accepted

  /** `k` is the policy's key of that name, valid when the metadata was issued and now, and
      allowed its sequence number, and it signed the envelope. */
  predicate Vouches(c: Crypto, p: Policy, e: Envelope, now: int, k: Key) {
    && k in p.keys && k.id == e.keyId
    && k.validFrom <= e.metadata.issuedAt && k.validFrom <= now && e.metadata.issuedAt < k.validUntil
    && now < k.validUntil
    && k.minSequence <= e.metadata.sequence && e.metadata.sequence <= k.maxSequence
    && c.signed(k.publicKey, k.id, e.metadata, e.signature)
  }

  /** The metadata meets the policy's terms and floors, and is in force now. */
  predicate Meets(p: Policy, m: Metadata, now: int)
    requires Parse(m.version).Some? && Parse(p.minVersion).Some?
  {
    && m.scope == p.scope && p.minProtocol <= m.protocol && m.protocol <= p.maxProtocol && m.size <= p.maxArtifact
    && m.issuedAt <= now && now < m.expiresAt && m.expiresAt <= m.issuedAt + p.maxValidity
    && Precedence(Parse(p.minVersion).value, Parse(m.version).value) <= 0
    && p.securityFloor <= m.securityFloor && p.minSequence <= m.sequence
  }

  /** Nothing went back since the previous receipt, and the same sequence is the same release. */
  predicate Follows(c: Crypto, e: Envelope, r: Receipt)
    requires MetadataOk(e.metadata) && MetadataOk(r.metadata)
  {
    var m, o := e.metadata, r.metadata;
    && o.sequence <= m.sequence && Precedence(Parse(o.version).value, Parse(m.version).value) <= 0
    && o.securityVersion <= m.securityVersion && o.securityFloor <= m.securityFloor
    && (m.sequence == o.sequence ==> c.digest(m) == r.digest && e.keyId == r.keyId)
  }

  /** The previous receipt is one this verifier gave, for the same product, not in the future. */
  predicate Genuine(c: Crypto, p: Policy, r: Receipt, now: int) {
    && MetadataOk(r.metadata) && KeyIdOk(r.keyId) && r.digest == c.digest(r.metadata) && r.metadata.scope == p.scope
    && r.metadata.issuedAt <= r.verifiedAt && r.verifiedAt < r.metadata.expiresAt && r.verifiedAt <= now
  }

  ghost predicate Verifiable(c: Crypto, p: Policy, e: Envelope, a: Artifact, previous: Option<Receipt>, now: int) {
    && TermsOk(p) && KeysOk(c, p.keys) && 0 < now <= 253402300799
    && KeyIdOk(e.keyId) && Hex(e.signature, 64) && MetadataOk(e.metadata) && Meets(p, e.metadata, now)
    && (exists k :: Vouches(c, p, e, now, k))
    && (previous.Some? ==> Genuine(c, p, previous.value, now) && Follows(c, e, previous.value))
    && a.size == e.metadata.size && a.hash == e.metadata.hash
  }

  lemma TrustedIs(c: Crypto, p: Policy, e: Envelope, now: int)
    ensures Trusted(c, p, e, now) <==> exists k :: Vouches(c, p, e, now, k)
  {
    if Trusted(c, p, e, now) {
      var k :| k in p.keys && k.id == e.keyId && KeyCovers(k, e.metadata, now)
               && c.signed(k.publicKey, e.keyId, e.metadata, e.signature);
      assert Vouches(c, p, e, now, k);
    }
    if k :| Vouches(c, p, e, now, k) {
      assert k in p.keys && k.id == e.keyId && KeyCovers(k, e.metadata, now)
             && c.signed(k.publicKey, e.keyId, e.metadata, e.signature);
    }
  }

  lemma AgainstIs(c: Crypto, e: Envelope, r: Receipt)
    requires MetadataOk(e.metadata) && MetadataOk(r.metadata)
    ensures Against(e.metadata, c.digest(e.metadata), e.keyId, r).None? <==> Follows(c, e, r)
  {
    OrderFlips(e.metadata.version, r.metadata.version);
    hide MetadataOk, Precedence, Parse;
  }

  lemma OrderFlips(a: string, b: string)
    requires Parse(a).Some? && Parse(b).Some?
    ensures OrderOf(a, b) < 0 <==> !(Precedence(Parse(b).value, Parse(a).value) <= 0)
  {
    PrecedenceOrder(Parse(a).value, Parse(b).value, Parse(b).value);
    hide Precedence, Parse;
  }

  lemma MeetsIs(p: Policy, m: Metadata, now: int)
    requires Parse(m.version).Some? && Parse(p.minVersion).Some?
    ensures Meets(p, m, now) <==>
              InForce(p, m, now) && !(OrderOf(m.version, p.minVersion) < 0 || m.securityFloor < p.securityFloor
                                      || m.sequence < p.minSequence)
  {
    OrderFlips(m.version, p.minVersion);
    hide Precedence, Parse;
  }

  /** Verification succeeds if and only if the envelope is vouched for by a key of the policy,
      meets its terms now, follows the previous receipt and is the artifact's; the receipt
      then says exactly what was verified. */
  lemma VerifiedExactly(c: Crypto, p: Policy, e: Envelope, a: Artifact, previous: Option<Receipt>, now: int)
    ensures Verdict(c, p, e, a, previous, now).Ok? <==> Verifiable(c, p, e, a, previous, now)
    ensures Verifiable(c, p, e, a, previous, now) ==>
              Verdict(c, p, e, a, previous, now).value
              == Receipt(e.keyId, c.digest(e.metadata), e.metadata, now,
                         previous.Some? && previous.value.metadata.sequence == e.metadata.sequence)
  {
    hide KeysOk, KeyOk, Trusted, Vouches, Meets, Follows, Against, InForce, Hex, KeyIdOk, NameOk, ScopeOk, Parse,
         Precedence;
    TrustedIs(c, p, e, now);
    if MetadataOk(e.metadata) && TermsOk(p) {
      MeetsIs(p, e.metadata, now);
      if previous.Some? && MetadataOk(previous.value.metadata) { AgainstIs(c, e, previous.value); }
    }
    hide TermsOk, MetadataOk, OrderOf;
  }

  /** Every receipt of every chain was signed: by the one key of its name in that call's policy,
      while that key was valid and for a sequence it may sign, over exactly this metadata. */
  lemma ReceiptsWereSigned(c: Crypto, calls: seq<Call>, receipts: seq<Receipt>, i: nat)
    requires Chain(c, calls, receipts) && i < |receipts|
    ensures exists k :: Vouches(c, calls[i].policy, calls[i].envelope, receipts[i].verifiedAt, k)
              && (forall j | j in calls[i].policy.keys && j.id == receipts[i].keyId :: j == k)
              && k.id == receipts[i].keyId
              && c.signed(k.publicKey, receipts[i].keyId, receipts[i].metadata, calls[i].envelope.signature)
  {
    var call, previous := calls[i], Before(receipts, i);
    assert Gives(c, call, previous, receipts[i]);
    VerifiedExactly(c, call.policy, call.envelope, call.artifact, previous, call.now);
    hide Verdict, Meets, MetadataOk, Genuine, Follows, TermsOk;
    var k :| Vouches(c, call.policy, call.envelope, call.now, k);
    OneKeyPerName(c, call.policy.keys, k);
  }

  lemma OneKeyPerName(c: Crypto, keys: seq<Key>, k: Key)
    requires KeysOk(c, keys) && k in keys
    ensures forall j | j in keys && j.id == k.id :: j == k
  {
    hide KeyOk;
  }

  /** What every receipt of every chain promises on its face: verified in time, for at most 30
      days, the very artifact of the call, never a pre-release on the stable channel, and under
      keys that live five years at most. */
  lemma ReceiptsAreLimited(c: Crypto, calls: seq<Call>, receipts: seq<Receipt>, i: nat)
    requires Chain(c, calls, receipts) && i < |receipts|
    ensures var r, m := receipts[i], receipts[i].metadata;
            && r.verifiedAt == calls[i].now && r.digest == c.digest(m)
            && m.issuedAt <= r.verifiedAt < m.expiresAt <= m.issuedAt + 2592000
            && m.size == calls[i].artifact.size && m.hash == calls[i].artifact.hash && 0 < m.size <= 8589934592
            && |m.hash| == 64 && |m.commit| == 40 && 0 < |m.name| <= 128
            && Parse(m.version).Some? && (m.scope.channel == "stable" ==> Parse(m.version).value.pre == [])
            && m.scope == calls[i].policy.scope && 1 <= m.protocol <= 1024 && 1 <= m.sequence <= 9007199254740991
            && calls[i].policy.securityFloor <= m.securityFloor <= m.securityVersion <= 9007199254740991
    ensures 1 <= |calls[i].policy.keys| <= 16
    ensures forall k | k in calls[i].policy.keys :: 0 < k.validFrom < k.validUntil <= k.validFrom + 158112000
  {
    var call, previous := calls[i], Before(receipts, i);
    assert Gives(c, call, previous, receipts[i]);
    VerifiedExactly(c, call.policy, call.envelope, call.artifact, previous, call.now);
    hide Verdict, Genuine, Follows, Parse, Precedence, ScopeOk, KeyIdOk;
    forall k | k in call.policy.keys ensures KeyOk(c, k) {
      hide KeyOk, MetadataOk, TermsOk;
    }
  }
}
