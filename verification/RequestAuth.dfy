/** Who may act: over every run, whatever a signed request brings about was signed by the key
    of its principal, against a challenge issued for exactly that request and spent once. */
module RequestAuth {
  import opened Prelude
  import opened PeerPlan
  import opened AuthorityModel
  import opened AuthorityInvariants
  import opened AuthorityRuns
  import opened Requests
  import opened RequestRuns

  // ---------------------------------------------------------------- proof of possession

  /** The challenge's row was issued for this very request and key, and is still good. */
  predicate MadeFor(row: Challenge, r: Signed, aid: Aid, key: AuthKey, now: int) {
    && row.purpose == r.purpose && row.digest == r.digest && row.device == r.device && row.credential == r.credential
    && row.nonce == r.nonce && row.expires == r.expires && row.activation == aid && row.key == key
    && !row.consumed && now < row.expires
  }

  /** `key` signed the request, against its own live challenge. */
  predicate Proven(g: Reg, r: Signed, aid: Aid, key: AuthKey) {
    && key in r.signers && r.challenge in g.challenges
    && MadeFor(g.challenges[r.challenge], r, aid, key, g.sys.now)
  }

  /** The credential of an active device, both within their validity and not replaced. */
  predicate InGoodStanding(g: Reg, r: Signed) {
    && r.credential in g.credentials && r.device in g.sys.db.devices
    && (var c, d := g.credentials[r.credential], g.sys.db.devices[r.device];
        c.device == r.device && !c.revoked && d.standing == Active && g.sys.now < c.until && g.sys.now < d.validUntil)
  }

  /** The principal's request id is new, and the principal has ids left; taking power away is
      never refused for want of ids. */
  predicate Unspent(g: Reg, p: Principal, r: Signed) {
    && (p, r.rid) !in g.requests && (p, r.rid) !in g.cancellations
    && (|Spent(g, p)| < 4096 || r.purpose == Mutate(KCommand(Disable)) || r.purpose == Mutate(KCommand(Revoke)))
  }

  /** The activation material is known, unused and in time. */
  predicate Pending(g: Reg, aid: Aid, verifier: string) {
    && aid in g.activations && g.activations[aid].consumed.None? && g.activations[aid].verifier == verifier
    && g.sys.now < g.activations[aid].until && g.sys.now < g.activations[aid].activationUntil
  }

  lemma ConsumeExactly(g: Reg, r: Signed, aid: Option<Aid>, key: AuthKey)
    requires r.purpose.Mutate?
    ensures Consume(g, r, aid, key).Ok? <==>
              Proven(g, r, if aid.Some? then aid.value else "", key) && Unspent(g, PrincipalOf(r, aid), r)
  {
    hide Spent;
  }

  lemma ReadExactly(g: Reg, r: Signed, aid: Option<Aid>, key: AuthKey)
    requires !r.purpose.Mutate?
    ensures Consume(g, r, aid, key).Ok? <==> Proven(g, r, if aid.Some? then aid.value else "", key)
  {
  }

  // ---------------------------------------------------------------- which requests are accepted

  predicate NewCredential(g: Reg, kind: Kind, rid: Rid, key: AuthKey, cid: Cid) {
    cid !in g.credentials && !KeyTaken(g, key) && ReceiptKey(kind, rid, key) !in g.receipts
  }

  /** An activation is accepted if and only if its material is pending and the key it binds
      has signed against a challenge for that activation. */
  lemma ActivatedExactly(g: Reg, r: Signed, aid: Aid, verifier: string, key: AuthKey, room: bool, did: DeviceId,
                         cid: Cid)
    ensures Activate(g, r, aid, verifier, key, room, did, cid).Ok? <==>
              && r.purpose == Mutate(KActivate) && Pending(g, aid, verifier) && room
              && Proven(g, r, aid, key) && Unspent(g, ByActivation(aid), r)
              && did !in g.sys.db.devices && NewCredential(g, KActivate, r.rid, key, cid)
  {
    if r.purpose.Mutate? { ConsumeExactly(g, r, Some(aid), key); }
    hide Consume, Proven, Unspent, KeyTaken, Take;
  }

  /** A rotation is accepted if and only if both the credential's key and the new one have
      signed, the former against its challenge. */
  lemma RotatedExactly(g: Reg, r: Signed, key: AuthKey, room: bool, cid: Cid)
    ensures Rotate(g, r, key, room, cid).Ok? <==>
              && r.purpose == Mutate(KRotate) && InGoodStanding(g, r) && room && key in r.signers
              && g.credentials[r.credential].key != key
              && Proven(g, r, "", g.credentials[r.credential].key) && Unspent(g, ByCredential(r.credential), r)
              && NewCredential(g, KRotate, r.rid, key, cid)
  {
    if r.purpose.Mutate? && r.credential in g.credentials {
      ConsumeExactly(g, r, None, g.credentials[r.credential].key);
    }
    hide Consume, Proven, Unspent, KeyTaken;
  }

  /** The command the authority is asked to commit: the device's own, in its owner's name. */
  function OwnCommand(g: Reg, r: Signed, cmd: Command): Command
    requires r.device in g.sys.db.devices
  {
    cmd.(device := r.device, actor := r.device, owner := g.sys.db.devices[r.device].owner)
  }

  /** A command is accepted if and only if its credential is in good standing and has signed
      it, its request id is unspent, and the authority accepts it as the device's own. */
  lemma SubmittedExactly(g: Reg, r: Signed, cmd: Command, room: bool, id: OpId)
    ensures SubmitSigned(g, r, cmd, room, id).1.Ok? <==>
              && r.purpose == Mutate(KCommand(cmd.verb)) && cmd.verb != Expire && InGoodStanding(g, r)
              && Proven(g, r, "", g.credentials[r.credential].key) && Unspent(g, ByCredential(r.credential), r)
              && Submit(g.sys.db, g.sys.cfg, OwnCommand(g, r, cmd), g.sys.now, room, id).1.Ok?
  {
    if r.purpose.Mutate? && r.credential in g.credentials {
      ConsumeExactly(g, r, None, g.credentials[r.credential].key);
    }
    hide Consume, Proven, Unspent, Submit, Take;
  }

  // ---------------------------------------------------------------- which questions are answered

  /** Only the principal's own key can ask: the one an activation would bind, the credential's,
      or for a rotation the new one with the credential's beside it. */
  predicate MayAsk(g: Reg, r: Signed, q: Query) {
    match q.kind
    case KActivate =>
      && q.idempotency == "" && r.device == "" && r.credential == ""
      && q.aid in g.activations && g.activations[q.aid].verifier == q.verifier && Proven(g, r, q.aid, q.key)
    case KRotate =>
      && q.idempotency == "" && q.aid == ""
      && r.credential in g.credentials && g.credentials[r.credential].device == r.device
      && q.key != g.credentials[r.credential].key && g.credentials[r.credential].key in r.signers
      && Proven(g, r, "", q.key)
    case KCommand(verb) =>
      && verb != Expire && q.aid == "" && q.key == ""
      && r.credential in g.credentials && g.credentials[r.credential].device == r.device
      && Proven(g, r, "", g.credentials[r.credential].key)
  }

  /** The challenge was issued for this question. */
  predicate Asks(g: Reg, r: Signed, q: Query) {
    && r.purpose == Resolving && r.challenge in g.challenges
    && (var row := g.challenges[r.challenge];
        row.rid == q.rid && row.kind == Some(q.kind) && row.idempotency == q.idempotency)
    && MayAsk(g, r, q)
  }

  /** What was committed under the request id, if it is what the question names. */
  predicate Landed(g: Reg, r: Signed, q: Query, a: Answer) {
    var p := (Asked(r, q), q.rid);
    if q.kind.KCommand? then
      && a.Done? && p in g.requests && g.requests[p] == Some(a.operation) && a.operation in g.sys.db.operations
      && (var op := g.sys.db.operations[a.operation];
          op.device == r.device && op.command.idempotency == q.idempotency && op.command.verb == q.kind.verb)
    else
      var k := ReceiptKey(q.kind, q.rid, q.key);
      a.Committed? && k in g.receipts && g.receipts[k] == Issued(p.0, a.credential)
  }

  /** The key under which a cancellation is filed. */
  function AskingKey(g: Reg, r: Signed, q: Query): AuthKey {
    if q.kind.KCommand? && r.credential in g.credentials then g.credentials[r.credential].key else q.key
  }

  /** Nothing was committed, and the request is cancelled already or can be. */
  predicate Cancellable(g: Reg, r: Signed, q: Query, room: bool) {
    var p := (Asked(r, q), q.rid);
    && p !in g.requests
    && (if p in g.cancellations
        then g.cancellations[p] == Cancellation(q.kind, AskingKey(g, r, q), r.device, q.idempotency)
        else room && |OwnCancellations(g, p.0)| < 16)
  }

  /** Who resolveIdentity takes the caller for. */
  lemma IdentityIs(g: Reg, r: Signed, q: Query)
    ensures var id := Identity(g, r, q);
            && (MayAsk(g, r, q) <==>
                  id.Ok? && (id.value.2.Some? ==> id.value.2.value in r.signers)
                  && Proven(g, r, if id.value.0.Some? then id.value.0.value else "", id.value.1))
            && (MayAsk(g, r, q) ==> id.Ok? && PrincipalOf(r, id.value.0) == Asked(r, q)
                                    && id.value.1 == AskingKey(g, r, q))
  {
    hide Proven;
  }

  lemma FoundIs(g: Reg, r: Signed, q: Query)
    ensures var found := Found(g, r, q, Asked(r, q), AskingKey(g, r, q));
            && (forall a :: found == Some(Ok(a)) <==> Landed(g, r, q, a))
            && (found.Some? && !q.kind.KCommand? ==>
                  ReceiptKey(q.kind, q.rid, q.key) in g.receipts
                  && g.receipts[ReceiptKey(q.kind, q.rid, q.key)].principal == Asked(r, q))
            && (found.Some? && q.kind.KCommand? ==> (Asked(r, q), q.rid) in g.requests)
  {
  }

  /** A question is answered if and only if its principal asks it: with the result if the
      request was committed as named, with its cancellation if it was not committed at all. */
  lemma AnsweredExactly(g: Reg, r: Signed, q: Query, room: bool, a: Answer)
    requires RegOk(g)
    ensures Resolve(g, r, q, room).1 == Ok(a) <==>
              Asks(g, r, q) && (Landed(g, r, q, a) || (a == Cancelled && Cancellable(g, r, q, room)))
  {
    if r.purpose == Resolving {
      IdentityIs(g, r, q);
      FoundIs(g, r, q);
      LandedSpent(g, r, q);
      var id := Identity(g, r, q);
      if id.Ok? { ReadExactly(g, r, id.value.0, id.value.1); }
      hide RegOk, MayAsk, Identity, Found, Landed, Consume, Proven, OwnCancellations;
    }
  }

  lemma LandedSpent(g: Reg, r: Signed, q: Query)
    requires RegOk(g)
    ensures Found(g, r, q, Asked(r, q), AskingKey(g, r, q)).Some? ==> (Asked(r, q), q.rid) in g.requests
  {
    FoundIs(g, r, q);
    hide Good, Found;
    var k := ReceiptKey(q.kind, q.rid, q.key);
    if !q.kind.KCommand? && k in g.receipts { assert ReceiptOk(g, k); }
  }

  // ---------------------------------------------------------------- over every run

  predicate IsSigned(e: Step) { e.DoActivate? || e.DoRotate? || e.DoSubmit? || e.DoResolve? }

  function RequestOf(e: Step): Signed
    requires IsSigned(e)
  {
    e.r
  }

  /** The step's principal has proven itself. */
  predicate Authentic(g: Reg, e: Step)
    requires IsSigned(e)
  {
    match e
    case DoActivate(r, aid, verifier, key, _, _, _) =>
      r.purpose == Mutate(KActivate) && Pending(g, aid, verifier) && Proven(g, r, aid, key)
    case DoRotate(r, key, _, _) =>
      r.purpose == Mutate(KRotate) && InGoodStanding(g, r) && key in r.signers
      && Proven(g, r, "", g.credentials[r.credential].key)
    case DoSubmit(r, cmd, _, _) =>
      r.purpose == Mutate(KCommand(cmd.verb)) && InGoodStanding(g, r)
      && Proven(g, r, "", g.credentials[r.credential].key)
    case DoResolve(r, q, _) => Asks(g, r, q)
  }

  lemma SubmitChangesProven(g: Reg, r: Signed, cmd: Command, room: bool, id: OpId)
    requires SubmitSigned(g, r, cmd, room, id).0 != g
    ensures r.purpose == Mutate(KCommand(cmd.verb)) && InGoodStanding(g, r)
    ensures Proven(g, r, "", g.credentials[r.credential].key)
  {
    if r.purpose.Mutate? && r.credential in g.credentials {
      ConsumeExactly(g, r, None, g.credentials[r.credential].key);
    }
    hide Consume, Proven, Unspent, Submit, Take;
  }

  lemma ResolveChangesProven(g: Reg, r: Signed, q: Query, room: bool)
    requires Resolve(g, r, q, room).0 != g
    ensures Asks(g, r, q)
  {
    IdentityIs(g, r, q);
    var id := Identity(g, r, q);
    if id.Ok? && !r.purpose.Mutate? { ReadExactly(g, r, id.value.0, id.value.1); }
    hide MayAsk, Identity, Found, Consume, Proven, OwnCancellations;
  }

  /** A signed step changes nothing at all unless its principal has proven itself. */
  lemma ChangesAreAuthentic(g: Reg, e: Step)
    requires IsSigned(e) && Next(g, e) != g
    ensures Authentic(g, e)
  {
    match e
    case DoActivate(r, aid, verifier, key, room, did, cid) =>
      ActivatedExactly(g, r, aid, verifier, key, room, did, cid);
      hide Activate, Proven, Unspent;
    case DoRotate(r, key, room, cid) =>
      RotatedExactly(g, r, key, room, cid);
      hide Rotate, Proven, Unspent;
    case DoSubmit(r, cmd, room, id) =>
      hide SubmitSigned, Proven;
      SubmitChangesProven(g, r, cmd, room, id);
    case DoResolve(r, q, room) =>
      hide Resolve, Asks;
      ResolveChangesProven(g, r, q, room);
  }

  /** Some earlier step issued the challenge with this row. */
  predicate IssuedBy(step: Step, id: string, row: Challenge) {
    step.Nonce? && step.id == id && step.row == row.(consumed := false)
  }

  predicate WasIssued(steps: seq<Step>, id: string, row: Challenge) {
    exists i | 0 <= i < |steps| :: IssuedBy(steps[i], id, row)
  }

  lemma IssuedEarlier(steps: seq<Step>, e: Step, id: string, row: Challenge)
    requires WasIssued(steps, id, row)
    ensures WasIssued(steps + [e], id, row)
  {
    var i :| 0 <= i < |steps| && IssuedBy(steps[i], id, row);
    assert (steps + [e])[i] == steps[i];
  }

  /** The request's own challenge, unspent before, is spent. */
  predicate SpendsChallenge(g: Reg, h: Reg, r: Signed) {
    && r.challenge in g.challenges && !g.challenges[r.challenge].consumed
    && g.challenges[r.challenge].expires == r.expires && g.sys.now < r.expires
    && h.challenges == g.challenges[r.challenge := g.challenges[r.challenge].(consumed := true)]
  }

  lemma ConsumeSpends(g: Reg, r: Signed, aid: Option<Aid>, key: AuthKey)
    requires Consume(g, r, aid, key).Ok?
    ensures SpendsChallenge(g, Consume(g, r, aid, key).value, r)
  {
    hide Spent;
  }

  /** Whether the step is answered with success. */
  predicate Accepts(g: Reg, e: Step)
    requires IsSigned(e)
  {
    g.sys.proc.Free? &&
    match e
    case DoActivate(r, aid, verifier, key, room, did, cid) => Activate(g, r, aid, verifier, key, room, did, cid).Ok?
    case DoRotate(r, key, room, cid) => Rotate(g, r, key, room, cid).Ok?
    case DoSubmit(r, cmd, room, id) => SubmitSigned(g, r, cmd, room, id).1.Ok?
    case DoResolve(r, q, room) => Resolve(g, r, q, room).1.Ok?
  }

  lemma CredentialSpends(g: Reg, e: Step)
    requires e.DoActivate? || e.DoRotate?
    ensures if Accepts(g, e) then SpendsChallenge(g, Next(g, e), e.r) else Next(g, e).challenges == g.challenges
  {
    match e {
      case DoActivate(r, aid, verifier, key, room, did, cid) =>
        if Consume(g, r, Some(aid), key).Ok? { ConsumeSpends(g, r, Some(aid), key); }
        hide Consume, SpendsChallenge, Take, KeyTaken;
        CarriesSpend(g, r, Some(aid), key, Next(g, e));
      case DoRotate(r, key, room, cid) =>
        if r.credential in g.credentials {
          var own := g.credentials[r.credential].key;
          if Consume(g, r, None, own).Ok? { ConsumeSpends(g, r, None, own); }
          hide Consume, SpendsChallenge, KeyTaken;
          CarriesSpend(g, r, None, own, Next(g, e));
        }
    }
  }

  lemma CarriesSpend(g: Reg, r: Signed, aid: Option<Aid>, key: AuthKey, h: Reg)
    ensures Consume(g, r, aid, key).Ok? && h.challenges == Consume(g, r, aid, key).value.challenges ==>
              SpendsChallenge(g, h, r)
  {
    if Consume(g, r, aid, key).Ok? { ConsumeSpends(g, r, aid, key); }
    hide Consume;
  }

  lemma SubmitChallenges(g: Reg, r: Signed, cmd: Command, room: bool, id: OpId)
    ensures var (h, answer) := SubmitSigned(g, r, cmd, room, id);
            if answer.Ok?
            then r.credential in g.credentials
                 && (var c := Consume(g, r, None, g.credentials[r.credential].key);
                     c.Ok? && h.challenges == c.value.challenges)
            else h.challenges == g.challenges
  {
    hide Consume, Submit, Take;
  }

  lemma SubmitSpends(g: Reg, e: Step)
    requires e.DoSubmit?
    ensures if Accepts(g, e) then SpendsChallenge(g, Next(g, e), e.r) else Next(g, e).challenges == g.challenges
  {
    hide Consume, SpendsChallenge, SubmitSigned;
    SubmitChallenges(g, e.r, e.cmd, e.room, e.id);
    if e.r.credential in g.credentials {
      CarriesSpend(g, e.r, None, g.credentials[e.r.credential].key, Next(g, e));
    }
  }

  lemma ResolveSpends(g: Reg, e: Step)
    requires e.DoResolve?
    ensures if Accepts(g, e) then SpendsChallenge(g, Next(g, e), e.r) else Next(g, e).challenges == g.challenges
  {
    var id := Identity(g, e.r, e.q);
    if id.Ok? { CarriesSpend(g, e.r, id.value.0, id.value.1, Next(g, e)); }
    hide Consume, SpendsChallenge, Identity, Found, OwnCancellations;
  }

  /** An accepted request spends exactly its challenge; a refused one spends none. */
  lemma AcceptedSpends(g: Reg, e: Step)
    requires IsSigned(e)
    ensures if Accepts(g, e) then SpendsChallenge(g, Next(g, e), RequestOf(e))
            else Next(g, e).challenges == g.challenges
  {
    hide Next, Accepts, SpendsChallenge;
    if e.DoActivate? || e.DoRotate? {
      CredentialSpends(g, e);
    } else if e.DoSubmit? {
      SubmitSpends(g, e);
    } else {
      ResolveSpends(g, e);
    }
  }

  /** A row is issued unconsumed, and only its consumed flag ever changes. */
  lemma ChallengeStep(g: Reg, e: Step, id: string)
    requires id in Next(g, e).challenges
    ensures var row := Next(g, e).challenges[id];
            || IssuedBy(e, id, row)
            || (id in g.challenges && row.(consumed := false) == g.challenges[id].(consumed := false))
  {
    if IsSigned(e) {
      AcceptedSpends(g, e);
      hide Next, Accepts;
    } else {
      hide Take;
    }
  }

  lemma {:induction false} ChallengesWereIssued(cfg: Config, peers: Peers, now: int, steps: seq<Step>, id: string)
    requires id in RunTo(Empty(cfg, peers, now), steps).challenges
    ensures WasIssued(steps, id, RunTo(Empty(cfg, peers, now), steps).challenges[id])
  {
    if steps != [] {
      var before, e := steps[..|steps| - 1], steps[|steps| - 1];
      var g := RunTo(Empty(cfg, peers, now), before);
      ChallengeStep(g, e, id);
      var row := Next(g, e).challenges[id];
      assert steps == before + [e];
      hide Next;
      if IssuedBy(e, id, row) {
        assert IssuedBy(steps[|steps| - 1], id, row);
      } else {
        ChallengesWereIssued(cfg, peers, now, before, id);
        assert WasIssued(before, id, row);
        IssuedEarlier(before, e, id, row);
      }
    }
  }

  /** Over every run: whatever changes requests, receipts, credentials or cancellations is a
      signed step whose principal has proven itself, against a challenge that an earlier step
      issued for exactly this request. */
  lemma OnlyProvenAct(cfg: Config, peers: Peers, now: int, steps: seq<Step>, e: Step)
    requires var g := RunTo(Empty(cfg, peers, now), steps);
             var h := Next(g, e);
             h.requests != g.requests || h.receipts != g.receipts || h.credentials != g.credentials
             || h.cancellations != g.cancellations
    ensures var g := RunTo(Empty(cfg, peers, now), steps);
            && IsSigned(e) && Authentic(g, e)
            && RequestOf(e).challenge in g.challenges
            && WasIssued(steps, RequestOf(e).challenge, g.challenges[RequestOf(e).challenge])
  {
    var g := RunTo(Empty(cfg, peers, now), steps);
    if e.Issue? || e.Nonce? { PlainNext(g, e); }
    assert IsSigned(e) by { hide Take, RunTo, Activate, Rotate, SubmitSigned, Resolve; }
    ChangesAreAuthentic(g, e);
    AuthenticNames(g, e);
    hide Next, Authentic, RunTo;
    ChallengesWereIssued(cfg, peers, now, steps, RequestOf(e).challenge);
  }

  lemma AuthenticNames(g: Reg, e: Step)
    requires IsSigned(e) && Authentic(g, e)
    ensures RequestOf(e).challenge in g.challenges
  {
    hide MadeFor, InGoodStanding, Pending;
  }

  // ---------------------------------------------------------------- each challenge once

  /** The challenge issued under this id until `until` is spent or gone. */
  predicate Burnt(g: Reg, id: string, until: int) {
    if id in g.challenges
    then (g.challenges[id].consumed && g.challenges[id].expires == until) || until < g.challenges[id].expires
    else until <= g.sys.now
  }

  lemma TimeGoesOn(s: Sys, e: Event)
    ensures s.now <= Take(s, e).now
  {
    hide ExpireDevice, Submit, Plan, Verified, Record, IsHistory, KnowsIntents, Effect, Enroll, Refresh;
  }

  lemma SignedTime(g: Reg, e: Step)
    requires IsSigned(e)
    ensures g.sys.now <= Next(g, e).sys.now
  {
    if e.DoActivate? && e.aid in g.activations {
      TimeGoesOn(g.sys, EEnroll(e.did, g.activations[e.aid].owner, g.activations[e.aid].until));
    } else if e.DoSubmit? && e.r.device in g.sys.db.devices {
      TimeGoesOn(g.sys, ESubmit(OwnCommand(g, e.r, e.cmd), e.room, e.id));
    } else if e.DoResolve? {
      ResolveShape(g, e.r, e.q, e.room);
    }
    hide Take, Submit, Consume, Resolve, Usable, KeyTaken;
    if e.DoActivate? || e.DoRotate? { ConsumeTime(g, e); }
  }

  lemma ConsumeTime(g: Reg, e: Step)
    requires e.DoActivate? || e.DoRotate?
    ensures e.DoActivate? && Consume(g, e.r, Some(e.aid), e.key).Ok? ==>
              Consume(g, e.r, Some(e.aid), e.key).value.sys == g.sys
    ensures e.DoRotate? && e.r.credential in g.credentials
            && Consume(g, e.r, None, g.credentials[e.r.credential].key).Ok? ==>
              Consume(g, e.r, None, g.credentials[e.r.credential].key).value.sys == g.sys
  {
    hide Answers, Spent;
  }

  lemma NextTime(g: Reg, e: Step)
    ensures g.sys.now <= Next(g, e).sys.now
  {
    if e.Authority? {
      TimeGoesOn(g.sys, e.e);
      hide Take;
    } else if IsSigned(e) {
      hide Next;
      SignedTime(g, e);
    }
  }

  lemma StaysBurnt(g: Reg, e: Step, id: string, until: int)
    requires Burnt(g, id, until)
    ensures Burnt(Next(g, e), id, until)
  {
    NextTime(g, e);
    if IsSigned(e) {
      AcceptedSpends(g, e);
      hide Next, Accepts;
    } else {
      hide Take;
    }
  }

  lemma {:induction false} BurntForGood(g: Reg, steps: seq<Step>, id: string, until: int)
    requires Burnt(g, id, until)
    ensures Burnt(RunTo(g, steps), id, until)
  {
    if steps != [] {
      hide Burnt, Next;
      BurntForGood(g, steps[..|steps| - 1], id, until);
      StaysBurnt(RunTo(g, steps[..|steps| - 1]), steps[|steps| - 1], id, until);
    }
  }

  /** A challenge is spent by at most one step: a request accepted once is refused whenever it
      is sent again, and so is any other that names the same issue of the same challenge. */
  lemma SpentOnce(g: Reg, e: Step, after: seq<Step>, f: Step)
    requires IsSigned(e) && IsSigned(f) && Accepts(g, e)
    requires RequestOf(f).challenge == RequestOf(e).challenge && RequestOf(f).expires == RequestOf(e).expires
    ensures !Accepts(RunTo(Next(g, e), after), f)
  {
    var id, until := RequestOf(e).challenge, RequestOf(e).expires;
    AcceptedSpends(g, e);
    hide Next, Accepts, RunTo;
    assert Burnt(Next(g, e), id, until);
    BurntForGood(Next(g, e), after, id, until);
    AcceptedSpends(RunTo(Next(g, e), after), f);
  }

  // ---------------------------------------------------------------- what an accepted credential request does

  /** An accepted activation enrols its device for the activation's owner and time, with one
      credential on the key that signed, and uses the activation up; nothing else of the
      tables changes but the request, its receipt and its challenge. */
  lemma ActivationBinds(g: Reg, r: Signed, aid: Aid, verifier: string, key: AuthKey, room: bool, did: DeviceId,
                        cid: Cid)
    requires g.sys.proc.Free? && Activate(g, r, aid, verifier, key, room, did, cid).Ok?
    ensures aid in g.activations
    ensures var h := Activate(g, r, aid, verifier, key, room, did, cid).value;
            var a := g.activations[aid];
            && h.sys == g.sys.(db := g.sys.db.(
                 devices := g.sys.db.devices[did := Device(a.owner, Active, a.until, 0, 0, None)]))
            && h.credentials == g.credentials[cid := Credential(did, key, a.until, false, None)]
            && h.receipts == g.receipts[ReceiptKey(KActivate, r.rid, key) := Issued(ByActivation(aid), cid)]
            && h.requests == g.requests[(ByActivation(aid), r.rid) := None]
            && h.activations == g.activations[aid := a.(consumed := Some(did))]
            && h.cancellations == g.cancellations && SpendsChallenge(g, h, r)
  {
    ConsumeFacts(g, r, Some(aid), key);
    ConsumeSpends(g, r, Some(aid), key);
    hide Consume, KeyTaken;
  }

  /** An accepted rotation moves the device's authority to the new key, with the same end, and
      revokes the old credential in its favour. */
  lemma RotationMoves(g: Reg, r: Signed, key: AuthKey, room: bool, cid: Cid)
    requires Rotate(g, r, key, room, cid).Ok?
    ensures r.credential in g.credentials
    ensures var h := Rotate(g, r, key, room, cid).value;
            var was := g.credentials[r.credential];
            && h.sys == g.sys && h.activations == g.activations && h.cancellations == g.cancellations
            && h.credentials.Keys == g.credentials.Keys + {cid} && cid !in g.credentials
            && h.credentials[cid] == Credential(r.device, key, was.until, false, None)
            && h.credentials[r.credential] == was.(revoked := true, replacedBy := Some(cid))
            && (forall c | c in g.credentials && c != r.credential :: h.credentials[c] == g.credentials[c])
            && h.receipts == g.receipts[ReceiptKey(KRotate, r.rid, key) := Issued(ByCredential(r.credential), cid)]
            && h.requests == g.requests[(ByCredential(r.credential), r.rid) := None]
            && SpendsChallenge(g, h, r)
  {
    ConsumeFacts(g, r, None, g.credentials[r.credential].key);
    ConsumeSpends(g, r, None, g.credentials[r.credential].key);
    hide Consume, KeyTaken, Usable;
  }

  // ---------------------------------------------------------------- used up for good

  /** Activations are used up for good, credentials keep what they are and stay revoked. */
  ghost predicate Lasting(g: Reg, h: Reg) {
    && (forall a | a in g.activations ::
          a in h.activations && h.activations[a].verifier == g.activations[a].verifier
          && (g.activations[a].consumed.Some? ==> h.activations[a].consumed == g.activations[a].consumed))
    && (forall c | c in g.credentials ::
          c in h.credentials && h.credentials[c].device == g.credentials[c].device
          && h.credentials[c].key == g.credentials[c].key && h.credentials[c].until == g.credentials[c].until
          && (g.credentials[c].revoked ==> h.credentials[c].revoked))
  }

  lemma SameLasting(g: Reg, h: Reg)
    requires h.credentials == g.credentials
    requires forall a | a in g.activations :: a in h.activations && h.activations[a] == g.activations[a]
    ensures Lasting(g, h)
  {
  }

  lemma SubmitSame(g: Reg, r: Signed, cmd: Command, room: bool, id: OpId)
    ensures var h := SubmitSigned(g, r, cmd, room, id).0;
            h.credentials == g.credentials && h.activations == g.activations
  {
    hide Consume, Submit, Take;
    if r.credential in g.credentials && Consume(g, r, None, g.credentials[r.credential].key).Ok? {
      ConsumeFacts(g, r, None, g.credentials[r.credential].key);
    }
  }

  lemma ActivateLasting(g: Reg, e: Step)
    requires e.DoActivate? && Accepts(g, e)
    ensures Lasting(g, Next(g, e))
  {
    hide Activate, SpendsChallenge, Proven, Unspent, KeyTaken;
    ActivationBinds(g, e.r, e.aid, e.verifier, e.key, e.room, e.did, e.cid);
    ActivatedExactly(g, e.r, e.aid, e.verifier, e.key, e.room, e.did, e.cid);
  }

  lemma RotateLasting(g: Reg, e: Step)
    requires e.DoRotate? && Accepts(g, e)
    ensures Lasting(g, Next(g, e))
  {
    hide Rotate, SpendsChallenge;
    RotationMoves(g, e.r, e.key, e.room, e.cid);
  }

  lemma NextLasting(g: Reg, e: Step)
    ensures Lasting(g, Next(g, e))
  {
    hide Take, Activate, Rotate, SubmitSigned, Resolve, Lasting;
    SameLasting(g, g);
    if e.DoActivate? && Accepts(g, e) {
      ActivateLasting(g, e);
    } else if e.DoRotate? && Accepts(g, e) {
      RotateLasting(g, e);
    } else {
      if e.DoSubmit? { SubmitSame(g, e.r, e.cmd, e.room, e.id); }
      if e.DoResolve? { ResolveShape(g, e.r, e.q, e.room); }
      SameLasting(g, Next(g, e));
    }
  }

  lemma LastingTransitive(g: Reg, h: Reg, i: Reg)
    requires Lasting(g, h) && Lasting(h, i)
    ensures Lasting(g, i)
  {
  }

  lemma {:induction false} RunLasting(g: Reg, steps: seq<Step>)
    ensures Lasting(g, RunTo(g, steps))
  {
    if steps == [] {
      SameLasting(g, g);
    } else {
      hide Lasting, Next;
      var h := RunTo(g, steps[..|steps| - 1]);
      RunLasting(g, steps[..|steps| - 1]);
      NextLasting(h, steps[|steps| - 1]);
      LastingTransitive(g, h, RunTo(g, steps));
    }
  }

  /** Activation material is good for one device: once accepted it is refused ever after. */
  lemma ActivationOnce(g: Reg, e: Step, after: seq<Step>, f: Step)
    requires e.DoActivate? && f.DoActivate? && f.aid == e.aid && Accepts(g, e)
    ensures !Accepts(RunTo(Next(g, e), after), f)
  {
    ActivationBinds(g, e.r, e.aid, e.verifier, e.key, e.room, e.did, e.cid);
    var h := Next(g, e);
    assert h.activations[e.aid].consumed.Some?;
    hide Next, Activate, RunTo, SpendsChallenge;
    RunLasting(h, after);
    var i := RunTo(h, after);
    ActivatedExactly(i, f.r, f.aid, f.verifier, f.key, f.room, f.did, f.cid);
  }

  /** A rotated credential never acts again. */
  lemma RotatedNeverActs(g: Reg, e: Step, after: seq<Step>, f: Step)
    requires e.DoRotate? && Accepts(g, e) && (f.DoRotate? || f.DoSubmit?) && f.r.credential == e.r.credential
    ensures !Accepts(RunTo(Next(g, e), after), f)
  {
    RotationMoves(g, e.r, e.key, e.room, e.cid);
    var h := Next(g, e);
    assert h.credentials[e.r.credential].revoked;
    hide Next, Rotate, SubmitSigned, RunTo, SpendsChallenge, Proven, Unspent;
    RunLasting(h, after);
    var i := RunTo(h, after);
    if f.DoRotate? {
      RotatedExactly(i, f.r, f.key, f.room, f.cid);
    } else {
      SubmittedExactly(i, f.r, f.cmd, f.room, f.id);
    }
  }
}
