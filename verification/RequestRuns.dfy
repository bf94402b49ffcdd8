/** Over every run, a request id is committed at most once and never also cancelled, and all
    answers about it agree. */
module RequestRuns {
  import opened Prelude
  import opened PeerPlan
  import opened AuthorityModel
  import opened AuthorityInvariants
  import opened AuthorityRuns
  import opened Requests

  predicate ReceiptOk(g: Reg, k: ReceiptKey)
    requires k in g.receipts
  {
    var i := g.receipts[k];
    && !k.kind.KCommand? && (i.principal, k.rid) in g.requests && g.requests[(i.principal, k.rid)] == None
    && i.credential in g.credentials && g.credentials[i.credential].key == k.key
  }

  ghost predicate ReceiptsOk(g: Reg) {
    && (forall k | k in g.receipts :: ReceiptOk(g, k))
    && (forall j, k | j in g.receipts && k in g.receipts && j.rid == k.rid
                      && g.receipts[j].principal == g.receipts[k].principal :: j == k)
  }

  /** The credential receipt for a principal's request. */
  predicate ReceiptFor(g: Reg, p: Principal, rid: Rid, k: ReceiptKey) {
    k in g.receipts && k.rid == rid && g.receipts[k].principal == p
  }

  predicate RequestOk(g: Reg, q: (Principal, Rid))
    requires q in g.requests
  {
    if g.requests[q].Some? then g.requests[q].value in g.sys.db.operations
    else exists k | k in g.receipts :: ReceiptFor(g, q.0, q.1, k)
  }

  /** No request is both accepted and cancelled, and an accepted one has its one result. */
  ghost predicate RegOk(g: Reg) {
    && Good(g.sys) && ReceiptsOk(g) && (forall q | q in g.requests :: RequestOk(g, q))
    && g.requests.Keys !! g.cancellations.Keys
  }

  ghost predicate Grows(g: Reg, h: Reg) {
    && Later(g.sys.db, h.sys.db)
    && (forall q | q in g.requests :: q in h.requests && h.requests[q] == g.requests[q])
    && (forall k | k in g.receipts :: k in h.receipts && h.receipts[k] == g.receipts[k])
    && (forall q | q in g.cancellations :: q in h.cancellations && h.cancellations[q] == g.cancellations[q])
  }

  lemma GrowsTransitive(g: Reg, h: Reg, i: Reg)
    requires Grows(g, h) && Grows(h, i)
    ensures Grows(g, i)
  {
    LaterTransitive(g.sys.db, h.sys.db, i.sys.db);
    hide Later;
  }

  lemma RequestKept(g: Reg, h: Reg, q: (Principal, Rid))
    requires q in g.requests && RequestOk(g, q) && q in h.requests && h.requests[q] == g.requests[q]
             && Later(g.sys.db, h.sys.db)
    requires forall k | k in g.receipts :: k in h.receipts && h.receipts[k] == g.receipts[k]
    ensures RequestOk(h, q)
  {
    if h.requests[q].None? {
      var k :| k in g.receipts && ReceiptFor(g, q.0, q.1, k);
      assert ReceiptFor(h, q.0, q.1, k);
    }
  }

  /** Only the authority's state, nonces and activations change. */
  lemma SideOk(g: Reg, h: Reg)
    requires RegOk(g) && Good(h.sys) && Later(g.sys.db, h.sys.db)
    requires h.requests == g.requests && h.receipts == g.receipts && h.cancellations == g.cancellations
             && h.credentials == g.credentials
    ensures RegOk(h) && Grows(g, h)
  {
    hide Good, Later;
    forall k | k in h.receipts ensures ReceiptOk(h, k) { assert ReceiptOk(g, k); }
    forall q | q in h.requests ensures RequestOk(h, q) {
      assert RequestOk(g, q);
      RequestKept(g, h, q);
    }
  }

  lemma ConsumeFacts(g: Reg, r: Signed, aid: Option<Aid>, key: AuthKey)
    requires Consume(g, r, aid, key).Ok?
    ensures var c := Consume(g, r, aid, key).value;
            var q := (PrincipalOf(r, aid), r.rid);
            && c == g.(challenges := c.challenges, requests := c.requests)
            && (if r.purpose.Mutate? then q !in g.requests && q !in g.cancellations
                && c.requests == g.requests[q := None]
                else c.requests == g.requests)
  {
  }

  lemma RequestsAdded(g: Reg, h: Reg, q: (Principal, Rid), k: ReceiptKey, cid: Cid)
    requires forall p | p in g.requests :: RequestOk(g, p)
    requires Later(g.sys.db, h.sys.db) && k.rid == q.1 && q !in g.requests && k !in g.receipts
    requires h.requests == g.requests[q := None] && h.receipts == g.receipts[k := Issued(q.0, cid)]
    ensures forall p | p in h.requests :: RequestOk(h, p)
  {
    forall p | p in h.requests ensures RequestOk(h, p) {
      hide Later, RequestOk;
      if p == q { RequestWith(h, q, k); } else { RequestKept(g, h, p); }
    }
  }

  /** A new credential: the request and its receipt appear together. */
  lemma ReceiptAdded(g: Reg, h: Reg, q: (Principal, Rid), k: ReceiptKey, cid: Cid)
    requires RegOk(g) && q !in g.requests && q !in g.cancellations && k !in g.receipts && cid !in g.credentials
    requires Good(h.sys) && Later(g.sys.db, h.sys.db) && !k.kind.KCommand? && k.rid == q.1
    requires h.requests == g.requests[q := None] && h.receipts == g.receipts[k := Issued(q.0, cid)]
             && h.cancellations == g.cancellations
    requires cid in h.credentials && h.credentials[cid].key == k.key
    requires forall c | c in g.credentials :: c in h.credentials && h.credentials[c].key == g.credentials[c].key
    ensures RegOk(h) && Grows(g, h)
  {
    hide Good, Later, RequestOk;
    ReceiptsAdded(g, h, q, k, cid);
    hide ReceiptsOk;
    RequestsAdded(g, h, q, k, cid);
  }

  lemma RequestWith(h: Reg, q: (Principal, Rid), k: ReceiptKey)
    requires q in h.requests && h.requests[q].None? && k in h.receipts && k.rid == q.1 && h.receipts[k].principal == q.0
    ensures RequestOk(h, q)
  {
    assert ReceiptFor(h, q.0, q.1, k);
  }

  lemma ReceiptsAdded(g: Reg, h: Reg, q: (Principal, Rid), k: ReceiptKey, cid: Cid)
    requires ReceiptsOk(g) && q !in g.requests && k !in g.receipts && cid !in g.credentials && !k.kind.KCommand?
             && k.rid == q.1
    requires h.requests == g.requests[q := None] && h.receipts == g.receipts[k := Issued(q.0, cid)]
    requires cid in h.credentials && h.credentials[cid].key == k.key
    requires forall c | c in g.credentials :: c in h.credentials && h.credentials[c].key == g.credentials[c].key
    ensures ReceiptsOk(h)
  {
    UniqueAdded(g, h, q, k, cid);
    forall j | j in h.receipts ensures ReceiptOk(h, j) { if j != k { assert ReceiptOk(g, j); } }
  }

  lemma UniqueAdded(g: Reg, h: Reg, q: (Principal, Rid), k: ReceiptKey, cid: Cid)
    requires ReceiptsOk(g) && q !in g.requests && k.rid == q.1 && h.receipts == g.receipts[k := Issued(q.0, cid)]
    ensures forall j, l | j in h.receipts && l in h.receipts && j.rid == l.rid
            && h.receipts[j].principal == h.receipts[l].principal
              :: j == l
  {
    forall j | j in g.receipts && j.rid == q.1 ensures g.receipts[j].principal != q.0 { assert ReceiptOk(g, j); }
  }

  lemma ActivateOk(g: Reg, r: Signed, aid: Aid, verifier: string, key: AuthKey, room: bool, did: DeviceId, cid: Cid)
    requires RegOk(g) && Activate(g, r, aid, verifier, key, room, did, cid).Ok?
    ensures var h := Activate(g, r, aid, verifier, key, room, did, cid).value; RegOk(h) && Grows(g, h)
  {
    var h := Activate(g, r, aid, verifier, key, room, did, cid).value;
    ConsumeFacts(g, r, Some(aid), key);
    ApplyGood(g.sys, EEnroll(did, g.activations[aid].owner, g.activations[aid].until));
    hide Consume, Take, Good, Later, KeyTaken;
    ReceiptAdded(g, h, (ByActivation(aid), r.rid), ReceiptKey(KActivate, r.rid, key), cid);
  }

  lemma RotateOk(g: Reg, r: Signed, key: AuthKey, room: bool, cid: Cid)
    requires RegOk(g) && Rotate(g, r, key, room, cid).Ok?
    ensures var h := Rotate(g, r, key, room, cid).value; RegOk(h) && Grows(g, h)
  {
    var h := Rotate(g, r, key, room, cid).value;
    ConsumeFacts(g, r, None, g.credentials[r.credential].key);
    LaterSame(g.sys.db);
    hide Consume, Later, KeyTaken, Usable;
    ReceiptAdded(g, h, (ByCredential(r.credential), r.rid), ReceiptKey(KRotate, r.rid, key), cid);
  }

  lemma CommitNames(db: Db, cmd: Command, now: int, budget: nat, id: OpId)
    requires cmd.device in db.devices && (cmd.verb == ApplyKey ==> cmd.target.Some?)
    ensures id in Commit(db, cmd, now, budget, id).operations
  {
  }

  /** The command's operation is in the tables when its request is recorded. */
  lemma SubmitNames(db: Db, cfg: Config, cmd: Command, now: int, room: bool, id: OpId)
    requires Submit(db, cfg, cmd, now, room, id).1.Ok?
    ensures Submit(db, cfg, cmd, now, room, id).1.value in Submit(db, cfg, cmd, now, room, id).0.operations
  {
    hide Commit, DegradeDevice, Assignable, Permitted, OverdueWork, Routable;
    if cmd.device in db.devices && (cmd.verb == ApplyKey ==> cmd.target.Some?) {
      CommitNames(db, cmd, now, cfg.budget, id);
    }
    hide Admissible;
  }

  lemma TakesSubmit(s: Sys, cmd: Command, room: bool, id: OpId)
    requires s.proc.Free?
    ensures Take(s, ESubmit(cmd, room, id)).db == Submit(s.db, s.cfg, cmd, s.now, room, id).0
  {
    hide Submit;
  }

  lemma SubmitSignedOk(g: Reg, r: Signed, cmd: Command, room: bool, id: OpId)
    requires RegOk(g) && g.sys.proc.Free?
    ensures var h := SubmitSigned(g, r, cmd, room, id).0; RegOk(h) && Grows(g, h)
  {
    var h := SubmitSigned(g, r, cmd, room, id).0;
    LaterSame(g.sys.db);
    hide Later, Good, Take, Submit, Consume;
    if h != g {
      var own := cmd.(device := r.device, actor := r.device, owner := g.sys.db.devices[r.device].owner);
      var result := Submit(g.sys.db, g.sys.cfg, own, g.sys.now, room, id).1;
      ApplyGood(g.sys, ESubmit(own, room, id));
      if result.Err? {
        SideOk(g, h);
      } else {
        ConsumeFacts(g, r, None, g.credentials[r.credential].key);
        SubmitNames(g.sys.db, g.sys.cfg, own, g.sys.now, room, id);
        TakesSubmit(g.sys, own, room, id);
        OperationAdded(g, h, (ByCredential(r.credential), r.rid), result.value);
      }
    }
  }

  lemma OperationAdded(g: Reg, h: Reg, q: (Principal, Rid), o: OpId)
    requires RegOk(g) && q !in g.requests && q !in g.cancellations && Good(h.sys) && Later(g.sys.db, h.sys.db)
    requires o in h.sys.db.operations && h.requests == g.requests[q := Some(o)]
    requires h.receipts == g.receipts && h.cancellations == g.cancellations && h.credentials == g.credentials
    ensures RegOk(h) && Grows(g, h)
  {
    hide Good;
    forall k | k in h.receipts ensures ReceiptOk(h, k) { assert ReceiptOk(g, k); }
    forall p | p in h.requests ensures RequestOk(h, p) {
      if p != q {
        assert RequestOk(g, p);
        RequestKept(g, h, p);
      }
    }
  }

  function Asked(r: Signed, q: Query): Principal {
    if q.kind.KActivate? then ByActivation(q.aid) else ByCredential(r.credential)
  }

  /** Resolve changes at most the nonce and, for an unused request id, its cancellation. */
  lemma ResolveShape(g: Reg, r: Signed, q: Query, room: bool)
    ensures var h := Resolve(g, r, q, room).0;
            var p := (Asked(r, q), q.rid);
            && h == g.(challenges := h.challenges, cancellations := h.cancellations)
            && (p in g.requests ==> h.cancellations == g.cancellations)
            && (forall x | x in g.cancellations :: x in h.cancellations && h.cancellations[x] == g.cancellations[x])
            && (forall x | x in h.cancellations :: x in g.cancellations || x == p)
  {
    hide Answers, Spent, OwnCancellations, Found;
  }

  lemma ResolveOk(g: Reg, r: Signed, q: Query, room: bool)
    requires RegOk(g)
    ensures var h := Resolve(g, r, q, room).0; RegOk(h) && Grows(g, h)
  {
    var h := Resolve(g, r, q, room).0;
    ResolveShape(g, r, q, room);
    LaterSame(g.sys.db);
    hide Resolve, Good, Later;
    forall k | k in h.receipts ensures ReceiptOk(h, k) { assert ReceiptOk(g, k); }
    forall p | p in h.requests ensures RequestOk(h, p) {
      assert RequestOk(g, p);
      RequestKept(g, h, p);
    }
  }

  lemma AuthorityNextOk(g: Reg, e: Event)
    requires RegOk(g)
    ensures RegOk(Next(g, Authority(e))) && Grows(g, Next(g, Authority(e)))
  {
    assert Good(g.sys);
    hide RegOk, Grows, Good, Later, Take;
    ApplyGood(g.sys, e);
    var h := g.(sys := Take(g.sys, e));
    assert Next(g, Authority(e)) == h;
    hide Next;
    SideOk(g, h);
  }

  lemma PlainNext(g: Reg, e: Step)
    requires e.Issue? || e.Nonce?
    ensures Next(g, e) == g.(activations := Next(g, e).activations, challenges := Next(g, e).challenges)
  {
  }

  lemma PlainNextOk(g: Reg, e: Step)
    requires RegOk(g) && (e.Issue? || e.Nonce?)
    ensures RegOk(Next(g, e)) && Grows(g, Next(g, e))
  {
    PlainNext(g, e);
    LaterSame(g.sys.db);
    assert Good(g.sys);
    hide RegOk, Grows, Good, Later, Next;
    SideOk(g, Next(g, e));
  }

  lemma NothingOk(g: Reg)
    requires RegOk(g)
    ensures Grows(g, g)
  {
    LaterSame(g.sys.db);
    SideOk(g, g);
    hide RegOk;
  }

  lemma SignedNextOk(g: Reg, e: Step)
    requires RegOk(g) && (e.DoActivate? || e.DoRotate? || e.DoSubmit? || e.DoResolve?)
    ensures RegOk(Next(g, e)) && Grows(g, Next(g, e))
  {
    hide RegOk, Grows, Activate, Rotate, SubmitSigned, Resolve;
    NothingOk(g);
    if g.sys.proc.Free? {
      match e {
        case DoActivate(r, aid, verifier, key, room, did, cid) =>
          if Activate(g, r, aid, verifier, key, room, did, cid).Ok? {
            ActivateOk(g, r, aid, verifier, key, room, did, cid);
          }
        case DoRotate(r, key, room, cid) => if Rotate(g, r, key, room, cid).Ok? { RotateOk(g, r, key, room, cid); }
        case DoSubmit(r, cmd, room, id) => SubmitSignedOk(g, r, cmd, room, id);
        case DoResolve(r, q, room) => ResolveOk(g, r, q, room);
      }
    }
  }

  lemma NextOk(g: Reg, e: Step)
    requires RegOk(g)
    ensures RegOk(Next(g, e)) && Grows(g, Next(g, e))
  {
    hide RegOk, Grows, Next;
    if e.Authority? {
      AuthorityNextOk(g, e.e);
    } else if e.Issue? || e.Nonce? {
      PlainNextOk(g, e);
    } else {
      SignedNextOk(g, e);
    }
  }

  lemma {:induction false} RunOk(g: Reg, steps: seq<Step>)
    requires RegOk(g)
    ensures RegOk(RunTo(g, steps)) && Grows(g, RunTo(g, steps))
  {
    if steps == [] {
      LaterSame(g.sys.db);
    } else {
      hide RegOk, Grows, Next;
      var h := RunTo(g, steps[..|steps| - 1]);
      RunOk(g, steps[..|steps| - 1]);
      NextOk(h, steps[|steps| - 1]);
      GrowsTransitive(g, h, RunTo(g, steps));
    }
  }

  lemma ReachableOk(cfg: Config, peers: Peers, now: int, steps: seq<Step>)
    ensures RegOk(RunTo(Empty(cfg, peers, now), steps))
  {
    StartGood(cfg, peers, now);
    hide Good, RunTo, Start;
    assert RegOk(Empty(cfg, peers, now));
    hide RegOk;
    RunOk(Empty(cfg, peers, now), steps);
  }

  // ---------------------------------------------------------------- what is promised

  /** After a cancellation the request can never land: no later state has it accepted or
      holds a receipt for it, and the cancellation stands. */
  lemma CancelledNeverLands(cfg: Config, peers: Peers, now: int, before: seq<Step>, after: seq<Step>,
                            q: (Principal, Rid))
    requires q in RunTo(Empty(cfg, peers, now), before).cancellations
    ensures var g := RunTo(Empty(cfg, peers, now), before);
            var h := RunTo(g, after);
            && q in h.cancellations && h.cancellations[q] == g.cancellations[q] && q !in h.requests
            && forall k | k in h.receipts :: !ReceiptFor(h, q.0, q.1, k)
  {
    var g := RunTo(Empty(cfg, peers, now), before);
    ReachableOk(cfg, peers, now, before);
    hide RunTo;
    RunOk(g, after);
    var h := RunTo(g, after);
    hide Good, Later;
    forall k | k in h.receipts ensures !ReceiptFor(h, q.0, q.1, k) { assert ReceiptOk(h, k); }
  }

  /** What an answer says about the tables. */
  predicate Says(g: Reg, q: (Principal, Rid), a: Answer) {
    match a
    case Committed(cid) => exists k | k in g.receipts :: ReceiptFor(g, q.0, q.1, k) && g.receipts[k].credential == cid
    case Done(o) => q in g.requests && g.requests[q] == Some(o)
    case Cancelled => q in g.cancellations && q !in g.requests
  }

  lemma ResolveSays(g: Reg, r: Signed, q: Query, room: bool)
    requires Resolve(g, r, q, room).1.Ok?
    ensures Says(Resolve(g, r, q, room).0, (Asked(r, q), q.rid), Resolve(g, r, q, room).1.value)
  {
    var (h, a) := Resolve(g, r, q, room);
    var id := Identity(g, r, q);
    hide Answers, Spent, OwnCancellations, Identity;
    IdentityAsks(g, r, q);
    var (aid, key, owner) := id.value;
    var p := PrincipalOf(r, aid);
    if Found(g, r, q, p, key).Some? && a.value.Committed? {
      assert ReceiptFor(h, p, q.rid, ReceiptKey(q.kind, q.rid, key));
    }
  }

  lemma IdentityAsks(g: Reg, r: Signed, q: Query)
    requires Identity(g, r, q).Ok?
    ensures PrincipalOf(r, Identity(g, r, q).value.0) == Asked(r, q)
  {
  }

  lemma SaysOneThing(g: Reg, h: Reg, q: (Principal, Rid), a: Answer, b: Answer)
    requires RegOk(g) && RegOk(h) && Grows(g, h) && Says(g, q, a) && Says(h, q, b)
    ensures a == b
  {
    hide Good, Later;
    if q in h.requests { assert RequestOk(h, q); }
    if a.Committed? {
      var k :| k in g.receipts && ReceiptFor(g, q.0, q.1, k) && g.receipts[k].credential == a.credential;
      assert ReceiptOk(h, k);
    }
    if b.Committed? {
      var k :| k in h.receipts && ReceiptFor(h, q.0, q.1, k) && h.receipts[k].credential == b.credential;
      assert ReceiptOk(h, k);
    }
  }

  /** Whatever is asked about one principal's request, however often and whatever happens in
      between, every answer names the same credential or operation, or the same cancellation. */
  lemma AnswersAgree(cfg: Config, peers: Peers, now: int, before: seq<Step>, r: Signed, q: Query, room: bool,
                     between: seq<Step>, r': Signed, q': Query, room': bool)
    requires var g := RunTo(Empty(cfg, peers, now), before);
             var h := RunTo(Resolve(g, r, q, room).0, between);
             && Resolve(g, r, q, room).1.Ok? && Resolve(h, r', q', room').1.Ok?
             && Asked(r, q) == Asked(r', q') && q.rid == q'.rid
    ensures var g := RunTo(Empty(cfg, peers, now), before);
            var h := RunTo(Resolve(g, r, q, room).0, between);
            Resolve(g, r, q, room).1 == Resolve(h, r', q', room').1
  {
    var g := RunTo(Empty(cfg, peers, now), before);
    var g' := Resolve(g, r, q, room).0;
    var h := RunTo(g', between);
    var h' := Resolve(h, r', q', room').0;
    ReachableOk(cfg, peers, now, before);
    hide RegOk, Grows, Resolve, RunTo, Says;
    ResolveOk(g, r, q, room);
    RunOk(g', between);
    ResolveOk(h, r', q', room');
    GrowsTransitive(g', h, h');
    ResolveSays(g, r, q, room);
    ResolveSays(h, r', q', room');
    SaysOneThing(g', h', (Asked(r, q), q.rid), Resolve(g, r, q, room).1.value, Resolve(h, r', q', room').1.value);
  }

  /** A request id that was accepted once is never accepted again, in any later state: the
      mutation it asks for is refused and leaves credentials and receipts alone. */
  lemma CommitsOnce(cfg: Config, peers: Peers, now: int, before: seq<Step>, after: seq<Step>, q: (Principal, Rid),
                    r: Signed, aid: Option<Aid>, key: AuthKey)
    requires q in RunTo(Empty(cfg, peers, now), before).requests && q == (PrincipalOf(r, aid), r.rid)
             && r.purpose.Mutate?
    ensures var g := RunTo(Empty(cfg, peers, now), before);
            var h := RunTo(g, after);
            && q in h.requests && h.requests[q] == g.requests[q] && Consume(h, r, aid, key).Err?
            && (forall k | ReceiptFor(h, q.0, q.1, k) :: ReceiptFor(g, q.0, q.1, k) && h.receipts[k] == g.receipts[k])
  {
    var g := RunTo(Empty(cfg, peers, now), before);
    ReachableOk(cfg, peers, now, before);
    hide RunTo, RegOk, Grows, ReceiptFor, Answers, Spent;
    RunOk(g, after);
    SameReceipts(g, RunTo(g, after), q);
  }

  lemma SameReceipts(g: Reg, h: Reg, q: (Principal, Rid))
    requires RegOk(g) && RegOk(h) && Grows(g, h) && q in g.requests
    ensures q in h.requests && h.requests[q] == g.requests[q]
    ensures forall k | ReceiptFor(h, q.0, q.1, k) :: ReceiptFor(g, q.0, q.1, k) && h.receipts[k] == g.receipts[k]
  {
    hide Good, Later;
    assert RequestOk(g, q);
    forall k | ReceiptFor(h, q.0, q.1, k) ensures ReceiptFor(g, q.0, q.1, k) && h.receipts[k] == g.receipts[k] {
      assert ReceiptOk(h, k);
      var j :| j in g.receipts && ReceiptFor(g, q.0, q.1, j);
      assert j == k;
    }
  }
}
