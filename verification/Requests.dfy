/** Signed requests of devices (hub/internal/deviceauth/credentials.go, resolve.go,
    receipts.go): each principal's request id is spent once, by the mutation or by its
    cancellation. One function per transaction; signatures are the set of keys that signed,
    random ids are parameters, and desired state is the authority's own. */
module Requests {
  import opened Prelude
  import opened Prefixes
  import opened PeerPlan
  import opened AuthorityModel
  import opened AuthorityInvariants
  import opened AuthorityRuns

  const MAX_REQUESTS: nat := 4096
  const MAX_OWN_CANCELLATIONS: nat := 16

  type Aid = string
  type Cid = string
  type Rid = string
  type AuthKey = string

  /** Credential ids and activation ids are kept apart by a prefix in the source. */
  datatype Principal = ByActivation(aid: Aid) | ByCredential(cid: Cid)

  datatype Kind = KActivate | KRotate | KCommand(verb: Verb)

  datatype Purpose = Mutate(kind: Kind) | Resolving | Reading

  datatype Activation = Activation(verifier: string, owner: string, until: int, activationUntil: int,
                                   consumed: Option<DeviceId>)

  datatype Credential = Credential(device: DeviceId, key: AuthKey, until: int, revoked: bool, replacedBy: Option<Cid>)

  /** A nonce row, with what it was issued for. */
  datatype Challenge = Challenge(
    nonce: string, purpose: Purpose, digest: string, device: DeviceId, credential: Cid, activation: Aid, key: AuthKey,
    expires: int, consumed: bool, rid: Rid, kind: Option<Kind>, idempotency: string)

  datatype Signed = Signed(
    purpose: Purpose, digest: string, device: DeviceId, credential: Cid, challenge: string, nonce: string, rid: Rid,
    expires: int, signers: set<AuthKey>)

  /** A receipt's key: its kind, request id and new public key. */
  datatype ReceiptKey = ReceiptKey(kind: Kind, rid: Rid, key: AuthKey)
  datatype Issued = Issued(principal: Principal, credential: Cid)

  datatype Cancellation = Cancellation(kind: Kind, key: AuthKey, device: DeviceId, idempotency: string)

  datatype Reg = Reg(
    sys: Sys,
    activations: map<Aid, Activation>,
    credentials: map<Cid, Credential>,
    challenges: map<string, Challenge>,
    requests: map<(Principal, Rid), Option<OpId>>,
    receipts: map<ReceiptKey, Issued>,
    cancellations: map<(Principal, Rid), Cancellation>)

  datatype Answer = Committed(credential: Cid) | Done(operation: OpId) | Cancelled

  datatype Error = Unauthorised | Clash | OverQuota | NotValid | Refused(fault: Fault)

  // ---------------------------------------------------------------- transactions

  function PrincipalOf(r: Signed, aid: Option<Aid>): Principal {
    if aid.Some? then ByActivation(aid.value) else ByCredential(r.credential)
  }

  function Spent(g: Reg, p: Principal): set<Rid> {
    set q | q in g.requests && q.0 == p :: q.1
  }

  function OwnCancellations(g: Reg, p: Principal): set<Rid> {
    set q | q in g.cancellations && q.0 == p :: q.1
  }

  predicate Answers(g: Reg, r: Signed, aid: Option<Aid>, key: AuthKey) {
    && r.challenge in g.challenges
    && (var c := g.challenges[r.challenge];
        && !c.consumed && r.expires > g.sys.now && r.expires == c.expires && r.nonce == c.nonce
        && r.purpose == c.purpose
        && r.digest == c.digest && r.device == c.device && r.credential == c.credential
        && c.activation == (if aid.Some? then aid.value else "") && c.key == key)
    && key in r.signers
  }

  /** consume: the nonce is spent, and for a mutation the principal's request id with it. */
  function Consume(g: Reg, r: Signed, aid: Option<Aid>, key: AuthKey): Result<Reg, Error> {
    var p := PrincipalOf(r, aid);
    if !Answers(g, r, aid, key) then Err(Unauthorised)
    else
      var spent := g.(challenges := g.challenges[r.challenge := g.challenges[r.challenge].(consumed := true)]);
      if !r.purpose.Mutate? then Ok(spent)
      else if (p, r.rid) in g.cancellations then Err(Clash)
      else if !(r.purpose.kind.KCommand? && (r.purpose.kind.verb == Disable || r.purpose.kind.verb == Revoke))
              && |Spent(g, p)| >= MAX_REQUESTS then Err(OverQuota)
      else if (p, r.rid) in g.requests then Err(Unauthorised)
      else Ok(spent.(requests := g.requests[(p, r.rid) := None]))
  }

  /** A credential that may act: its own and its device's validity. */
  predicate Usable(g: Reg, device: DeviceId, cid: Cid) {
    && cid in g.credentials && g.credentials[cid].device == device && !g.credentials[cid].revoked
    && device in g.sys.db.devices && g.sys.db.devices[device].standing == Active
    && g.sys.now < g.credentials[cid].until && g.sys.now < g.sys.db.devices[device].validUntil
  }

  predicate KeyTaken(g: Reg, key: AuthKey) {
    exists c | c in g.credentials :: g.credentials[c].key == key
  }

  /** Activate: an activation becomes a device and its first credential. */
  function Activate(g: Reg, r: Signed, aid: Aid, verifier: string, key: AuthKey, room: bool, did: DeviceId,
                    cid: Cid): Result<Reg, Error> {
    if r.purpose != Mutate(KActivate) then Err(Unauthorised)
    else if aid !in g.activations || g.activations[aid].consumed.Some? || g.activations[aid].verifier != verifier
            || g.sys.now >= g.activations[aid].until || g.sys.now >= g.activations[aid].activationUntil
               then Err(Unauthorised)
    else if !room then Err(OverQuota)
    else
      var c := Consume(g, r, Some(aid), key);
      if c.Err? then Err(c.error)
      else if did in g.sys.db.devices || cid in g.credentials || KeyTaken(g, key)
              || ReceiptKey(KActivate, r.rid, key) in g.receipts then Err(Clash)
      else
        var a := g.activations[aid];
        Ok(c.value.(sys := Take(g.sys, EEnroll(did, a.owner, a.until)),
        credentials := g.credentials[cid := Credential(did, key, a.until, false, None)],
        receipts := g.receipts[ReceiptKey(KActivate, r.rid, key) := Issued(ByActivation(aid), cid)],
        activations := g.activations[aid := a.(consumed := Some(did))]))
  }

  /** RotateCredential: the old credential is revoked and names its successor. */
  function Rotate(g: Reg, r: Signed, key: AuthKey, room: bool, cid: Cid): Result<Reg, Error> {
    if r.purpose != Mutate(KRotate) || key !in r.signers then Err(Unauthorised)
    else if !Usable(g, r.device, r.credential) then Err(Unauthorised)
    else if !room then Err(OverQuota)
    else if g.credentials[r.credential].key == key then Err(Clash)
    else
      var old' := g.credentials[r.credential];
      var c := Consume(g, r, None, old'.key);
      if c.Err? then Err(c.error)
      else if cid in g.credentials || KeyTaken(g, key) || ReceiptKey(KRotate, r.rid, key) in g.receipts then Err(Clash)
      else
        Ok(c.value.(
        credentials := g.credentials[cid := Credential(r.device, key, old'.until, false, None)]
                                    [r.credential := old'.(revoked := true, replacedBy := Some(cid))],
        receipts := g.receipts[ReceiptKey(KRotate, r.rid, key) := Issued(ByCredential(r.credential), cid)]))
  }

  /** SubmitSigned: authentication and the command in one transaction. A refused command
      leaves nothing behind but overdue work marked as such. */
  function SubmitSigned(g: Reg, r: Signed, cmd: Command, room: bool, id: OpId): (Reg, Result<OpId, Error>) {
    if r.purpose != Mutate(KCommand(cmd.verb)) || cmd.verb == Expire || r.device !in g.sys.db.devices
      then (g, Err(Unauthorised))
    else
      var own := cmd.(device := r.device, actor := r.device, owner := g.sys.db.devices[r.device].owner);
      if !Usable(g, r.device, r.credential) then (g, Err(Unauthorised))
      else
        var c := Consume(g, r, None, g.credentials[r.credential].key);
        if c.Err? then (g, Err(c.error))
        else
          var sys := Take(g.sys, ESubmit(own, room, id));
          var result := Submit(g.sys.db, g.sys.cfg, own, g.sys.now, room, id).1;
          if result.Err? then (g.(sys := sys), Err(Refused(result.error)))
          else (c.value.(sys := sys, requests := g.requests[(ByCredential(r.credential), r.rid) := Some(result.value)]),
                Ok(result.value))
  }

  /** What a resolve asks about. */
  datatype Query = Query(kind: Kind, rid: Rid, idempotency: string, key: AuthKey, aid: Aid, verifier: string)

  /** resolveIdentity: whose request it is, who must sign, and for a rotation who else. */
  function Identity(g: Reg, r: Signed, q: Query): Result<(Option<Aid>, AuthKey, Option<AuthKey>), Error> {
    if q.kind == KCommand(Expire) then Err(NotValid)
    else if !q.kind.KCommand? && q.idempotency != "" then Err(NotValid)
    else if q.kind.KCommand? && (q.aid != "" || q.key != "") then Err(NotValid)
    else if q.kind.KActivate? then
      if r.device != "" || r.credential != "" || q.aid !in g.activations || g.activations[q.aid].verifier != q.verifier
      then Err(Unauthorised) else Ok((Some(q.aid), q.key, None))
    else if q.aid != "" then Err(NotValid)
    else if r.credential !in g.credentials || g.credentials[r.credential].device != r.device then Err(Unauthorised)
    else if q.kind.KRotate? then
      if q.key == g.credentials[r.credential].key then Err(NotValid)
        else Ok((None, q.key, Some(g.credentials[r.credential].key)))
    else Ok((None, g.credentials[r.credential].key, None))
  }

  /** The receipt the query would be answered with, if the request was committed. */
  function Found(g: Reg, r: Signed, q: Query, p: Principal, key: AuthKey): Option<Result<Answer, Error>> {
    if !q.kind.KCommand? then
      var k := ReceiptKey(q.kind, q.rid, key);
      if k in g.receipts && g.receipts[k].principal == p then Some(Ok(Committed(g.receipts[k].credential))) else None
    else if (p, q.rid) in g.requests && g.requests[(p, q.rid)].Some? then
      var o := g.requests[(p, q.rid)].value;
      if o in g.sys.db.operations && g.sys.db.operations[o].device == r.device
         && g.sys.db.operations[o].command.idempotency == q.idempotency
      then Some(if g.sys.db.operations[o].command.verb == q.kind.verb then Ok(Done(o)) else Err(Clash))
      else None
    else None
  }

  /** ResolvePending: the committed receipt, or a cancellation that is final. */
  function Resolve(g: Reg, r: Signed, q: Query, room: bool): (Reg, Result<Answer, Error>) {
    if r.purpose != Resolving then (g, Err(Unauthorised))
    else
      var id := Identity(g, r, q);
      if id.Err? then (g, Err(id.error))
      else
        var (aid, key, owner) := id.value;
        if owner.Some? && owner.value !in r.signers then (g, Err(Unauthorised))
        else if r.challenge !in g.challenges || g.challenges[r.challenge].rid != q.rid
                || g.challenges[r.challenge].kind != Some(q.kind)
                || g.challenges[r.challenge].idempotency != q.idempotency
        then (g, Err(Unauthorised))
        else
          var c := Consume(g, r, aid, key);
          if c.Err? then (g, Err(c.error))
          else
            var p := PrincipalOf(r, aid);
            var found := Found(g, r, q, p, key);
            if found.Some? then (if found.value.Ok? then c.value else g, found.value)
            else if (p, q.rid) in g.requests then (g, Err(Clash))
            else
              var row := Cancellation(q.kind, key, r.device, q.idempotency);
              if (p, q.rid) in g.cancellations then
                if g.cancellations[(p, q.rid)] == row then (c.value, Ok(Cancelled)) else (g, Err(Clash))
              else if !room || |OwnCancellations(g, p)| >= MAX_OWN_CANCELLATIONS then (g, Err(OverQuota))
              else (c.value.(cancellations := g.cancellations[(p, q.rid) := row]), Ok(Cancelled))
  }

  // ---------------------------------------------------------------- runs

  datatype Step =
    | Authority(e: Event)
    | Issue(aid: Aid, activation: Activation)
    | Nonce(id: string, row: Challenge)
    | DoActivate(r: Signed, aid: Aid, verifier: string, key: AuthKey, room: bool, did: DeviceId, cid: Cid)
    | DoRotate(r: Signed, key: AuthKey, room: bool, cid: Cid)
    | DoSubmit(r: Signed, cmd: Command, room: bool, id: OpId)
    | DoResolve(r: Signed, q: Query, room: bool)

  function Keep(g: Reg, r: Result<Reg, Error>): Reg { if r.Ok? then r.value else g }

  /** Every transaction holds the process fence, so none runs while the executor does. */
  function Next(g: Reg, e: Step): Reg {
    if e.Authority? then g.(sys := Take(g.sys, e.e))
    else if g.sys.proc.Held? then g
    else match e
      case Issue(aid, a) => if aid in g.activations || a.consumed.Some? then g
        else g.(activations := g.activations[aid := a])
      case Nonce(id, row) =>
        if id in g.challenges || row.consumed || row.expires <= g.sys.now then g
        else g.(challenges := (map c | c in g.challenges && g.challenges[c].expires > g.sys.now ::
                      g.challenges[c])[id := row])
      case DoActivate(r, aid, verifier, key, room, did, cid) =>
        Keep(g, Activate(g, r, aid, verifier, key, room, did, cid))
      case DoRotate(r, key, room, cid) => Keep(g, Rotate(g, r, key, room, cid))
      case DoSubmit(r, cmd, room, id) => SubmitSigned(g, r, cmd, room, id).0
      case DoResolve(r, q, room) => Resolve(g, r, q, room).0
  }

  function Empty(cfg: Config, peers: Peers, now: int): Reg {
    Reg(Start(cfg, peers, now), map[], map[], map[], map[], map[], map[])
  }

  function RunTo(g: Reg, steps: seq<Step>): Reg {
    if steps == [] then g else Next(RunTo(g, steps[..|steps| - 1]), steps[|steps| - 1])
  }
}
