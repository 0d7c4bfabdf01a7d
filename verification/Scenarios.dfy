/** Runs of the protocol, built step by step: the material of the witnesses in Limits. */
module Scenarios {
  import opened Base
  import opened Text
  import opened Routing
  import opened Domain
  import opened Lookups
  import opened Protocol
  import opened Refinement
  import opened Steps
  import opened Runs
  import opened Progress
  import opened Traces

  // ---------- One step at a time ----------

  /** Not a store failure, a lost reply or a crash. */
  predicate Harmless(ch: Choice) {
    ch != Fault && ch != Lost && ch != Crash
  }

  /** Nothing goes wrong in the run. */
  predicate FaultFree(ls: seq<Label>) {
    forall l :: l in ls && l.Act? ==> Harmless(l.ch)
  }

  /** `ls'` leads to `s'`, and nothing goes wrong in it that did not in `ls`. */
  ghost predicate Follows(cfg: Config, ls: seq<Label>, ls': seq<Label>, s': State) {
    Reaches(cfg, ls', s') && (FaultFree(ls) ==> FaultFree(ls'))
  }

  /** Only call `c` moves from `s` to `s'`; the others keep their locks and keys, and the records only grow. */
  ghost predicate Alone(s: State, s': State, c: CallId) {
    && c in s'.calls && s'.calls == s.calls[c := s'.calls[c]]
    && LogGrows(s.sh, s'.sh, c) && LocksKept(s.sh, s'.sh, c)
  }

  lemma AloneTransitive(s: State, s1: State, s': State, c: CallId)
    requires Alone(s, s1, c) && Alone(s1, s', c)
    ensures Alone(s, s', c)
  {
  }

  /** A new call begins. */
  lemma Begun(cfg: Config, ls: seq<Label>, s: State, c: CallId, req: Request)
    requires Reaches(cfg, ls, s) && CanStart(cfg, s, c, req)
    ensures Follows(cfg, ls, ls + [Start(c, req)], s.(calls := s.calls[c := NewCall(s, req)]))
    ensures Alone(s, s.(calls := s.calls[c := NewCall(s, req)]), c)
  {
    assert (ls + [Start(c, req)])[..|ls|] == ls;
  }

  /** Call `c` takes one step at the end of a run. */
  lemma Acted(cfg: Config, ls: seq<Label>, s: State, c: CallId, ch: Choice, n: Next)
    requires Reaches(cfg, ls, s) && c in s.calls && Step(cfg, s.sh, c, s.calls[c], ch) == Some(n)
    ensures Reaches(cfg, ls + [Act(c, ch)], State(n.sh, s.calls[c := n.call]))
    ensures Harmless(ch) ==> Follows(cfg, ls, ls + [Act(c, ch)], State(n.sh, s.calls[c := n.call]))
    ensures Alone(s, State(n.sh, s.calls[c := n.call]), c)
  {
    assert (ls + [Act(c, ch)])[..|ls|] == ls;
    RunKeeps(cfg, ls, s);
    ActKeeps(cfg, s, c, ch);
  }

  /** A finished call holds nothing. */
  lemma FinishedFrees(cfg: Config, ls: seq<Label>, s: State, c: CallId)
    requires Reaches(cfg, ls, s) && c in s.calls && s.calls[c].Finished()
    ensures HoldsNothing(s.sh, c)
  {
    RunKeeps(cfg, ls, s);
    FinishedIsIdle(cfg, s.sh, c, s.calls[c]);
  }

  lemma FinishedIsIdle(cfg: Config, sh: Shared, c: CallId, call: Call)
    requires CallInv(cfg, sh, c, call) && call.Finished()
    ensures HoldsNothing(sh, c)
  {
  }

  // ---------- Payments ----------

  /** The request's key is not found. */
  predicate KeyUnseen(db: Db, key: string) {
    Trim(key) == "" || KeyLookup(db, key, None)
  }

  /** Call `c` carries payment `a` and is about to ask the gateway. */
  ghost predicate AtGateway(s: State, c: CallId, a: PayArgs) {
    c in s.calls && s.calls[c].req == PayReq(a) && s.calls[c].pc.PayGateway?
  }

  /** It draws an id and the time, and touches nothing else. */
  ghost predicate Draws(sh: Shared, sh': Shared) {
    sh' == sh.(owner := sh'.owner, clock := sh'.clock)
  }

  /** A new call finds neither its key nor a live payment of its order, and reaches the gateway. */
  lemma Approaches(cfg: Config, ls: seq<Label>, s: State, c: CallId, a: PayArgs, latest: Option<Id>)
    returns (ls': seq<Label>, s': State)
    requires Reaches(cfg, ls, s) && CanStart(cfg, s, c, PayReq(a))
    requires KeyUnseen(s.sh.db, a.key) && NotLive(s.sh.db, a.orderId, latest)
    requires GetGatewayOrDefault(cfg.router, a.gateway).Ok?
    ensures Follows(cfg, ls, ls', s') && Alone(s, s', c) && AtGateway(s', c, a) && Draws(s.sh, s'.sh)
  {
    Begun(cfg, ls, s, c, PayReq(a));
    var s0 := s.(calls := s.calls[c := NewCall(s, PayReq(a))]);
    ls', s' := Nears(cfg, ls + [Start(c, PayReq(a))], s0, c, a, latest);
    AloneTransitive(s, s0, s', c);
  }

  lemma Nears(cfg: Config, ls: seq<Label>, s: State, c: CallId, a: PayArgs, latest: Option<Id>)
    returns (ls': seq<Label>, s': State)
    requires Reaches(cfg, ls, s) && c in s.calls && s.calls[c].req == PayReq(a) && s.calls[c].pc == PayLookup
    requires KeyUnseen(s.sh.db, a.key) && NotLive(s.sh.db, a.orderId, latest)
    requires GetGatewayOrDefault(cfg.router, a.gateway).Ok?
    ensures Follows(cfg, ls, ls', s') && Alone(s, s', c) && AtGateway(s', c, a) && Draws(s.sh, s'.sh)
  {
    var s0;
    ls', s0 := PassesKey(cfg, ls, s, c, a);
    ls', s' := PassesOrder(cfg, ls', s0, c, a, latest);
    AloneTransitive(s, s0, s', c);
  }

  lemma PassesKey(cfg: Config, ls: seq<Label>, s: State, c: CallId, a: PayArgs) returns (ls': seq<Label>, s': State)
    requires Reaches(cfg, ls, s) && c in s.calls && s.calls[c].req == PayReq(a) && s.calls[c].pc == PayLookup
    requires KeyUnseen(s.sh.db, a.key)
    ensures Follows(cfg, ls, ls', s') && Alone(s, s', c) && s'.sh == s.sh
    ensures s'.calls[c].req == PayReq(a) && s'.calls[c].pc == PayOrder
  {
    var ch := if Trim(a.key) == "" then Go else Found(None);
    var n := Goto(s.sh, s.calls[c], PayOrder);
    assert PayLookupStep(cfg, s.sh, c, s.calls[c], ch) == Some(n);
    Acted(cfg, ls, s, c, ch, n);
    ls', s' := ls + [Act(c, ch)], State(n.sh, s.calls[c := n.call]);
  }

  lemma PassesOrder(cfg: Config, ls: seq<Label>, s: State, c: CallId, a: PayArgs, latest: Option<Id>)
    returns (ls': seq<Label>, s': State)
    requires Reaches(cfg, ls, s) && c in s.calls && s.calls[c].req == PayReq(a) && s.calls[c].pc == PayOrder
    requires NotLive(s.sh.db, a.orderId, latest) && GetGatewayOrDefault(cfg.router, a.gateway).Ok?
    ensures Follows(cfg, ls, ls', s') && Alone(s, s', c) && AtGateway(s', c, a) && Draws(s.sh, s'.sh)
  {
    var g := GetGatewayOrDefault(cfg.router, a.gateway).value;
    var pid := FreshId(s.sh.owner);
    var ch := FoundFresh(latest, pid);
    var n := Goto(Draw(s.sh, c, pid), s.calls[c], PayGateway(g, NewPayment(a, pid, s.sh.clock, g.name)));
    assert PayOrderStep(cfg, s.sh, c, s.calls[c], ch) == Some(n);
    Acted(cfg, ls, s, c, ch, n);
    ls', s' := ls + [Act(c, ch)], State(n.sh, s.calls[c := n.call]);
  }

  /** The call asks its gateway, which answers `res`. */
  lemma Asks(cfg: Config, ls: seq<Label>, s: State, c: CallId, a: PayArgs, res: GatewayResult)
    returns (ls': seq<Label>, s': State)
    requires Reaches(cfg, ls, s) && AtGateway(s, c, a)
    ensures Follows(cfg, ls, ls', s') && Alone(s, s', c)
    ensures s'.calls[c].req == PayReq(a) && s'.calls[c].pc.PayBegin? && s'.calls[c].pc.p == s.calls[c].pc.p
    ensures s'.sh == s.sh.(gateway := s'.sh.gateway) && |s'.sh.gateway| == |s.sh.gateway| + 1
    ensures var g := s'.sh.gateway[|s.sh.gateway|]; g.ChargeCall? && g.cid == c && g.result == res
  {
    var PayGateway(g, p) := s.calls[c].pc;
    var sh := s.sh.(gateway := s.sh.gateway + [ChargeCall(c, g, a.amount, p.currency, res)]);
    var n := Goto(sh, s.calls[c], PayBegin(p, res, |s.sh.gateway|));
    assert PayGatewayStep(cfg, s.sh, c, s.calls[c], Outcome(res)) == Some(n);
    Acted(cfg, ls, s, c, Outcome(res), n);
    ls', s' := ls + [Act(c, Outcome(res))], State(n.sh, s.calls[c := n.call]);
  }

  // ---------- Refunds ----------

  /** Call `c` carries refund `a` and has just looked for its correlation id. */
  ghost predicate AtRead(s: State, c: CallId, a: RefundArgs) {
    c in s.calls && s.calls[c].req == RefundReq(a) && s.calls[c].pc.RefundRead?
  }

  /** A new refund call finds no refund of its correlation id and goes on to read the payment. */
  lemma Enters(cfg: Config, ls: seq<Label>, s: State, c: CallId, a: RefundArgs) returns (ls': seq<Label>, s': State)
    requires Reaches(cfg, ls, s) && CanStart(cfg, s, c, RefundReq(a)) && NotYetRefunded(s.sh.db, a)
    ensures Follows(cfg, ls, ls', s') && Alone(s, s', c) && AtRead(s', c, a) && s'.sh == s.sh
  {
    Begun(cfg, ls, s, c, RefundReq(a));
    var s0 := s.(calls := s.calls[c := NewCall(s, RefundReq(a))]);
    ls', s' := PassesId(cfg, ls + [Start(c, RefundReq(a))], s0, c, a);
    AloneTransitive(s, s0, s', c);
  }

  lemma PassesId(cfg: Config, ls: seq<Label>, s: State, c: CallId, a: RefundArgs) returns (ls': seq<Label>, s': State)
    requires Reaches(cfg, ls, s) && c in s.calls && s.calls[c].req == RefundReq(a) && s.calls[c].pc == RefundLookup
    requires NotYetRefunded(s.sh.db, a)
    ensures Follows(cfg, ls, ls', s') && Alone(s, s', c) && AtRead(s', c, a) && s'.sh == s.sh
  {
    var ch := if Trim(a.correlationId) == "" then Go else Found(None);
    var n := Goto(s.sh, s.calls[c], RefundRead);
    assert RefundLookupStep(cfg, s.sh, c, s.calls[c], ch) == Some(n);
    Acted(cfg, ls, s, c, ch, n);
    ls', s' := ls + [Act(c, ch)], State(n.sh, s.calls[c := n.call]);
  }

  /** Only the lock on the payment of `a` is taken, and ids are drawn. */
  ghost predicate TakesLock(s: State, s': State, c: CallId, a: RefundArgs) {
    && s'.sh == s.sh.(locks := s.sh.locks[a.paymentId := c], owner := s'.sh.owner, clock := s'.sh.clock)
    && c in s'.calls && s'.calls[c].req == RefundReq(a) && s'.calls[c].pc.RefundFold?
  }

  /** It reads the payment, opens a transaction and takes the row lock. */
  lemma Locks(cfg: Config, ls: seq<Label>, s: State, c: CallId, a: RefundArgs) returns (ls': seq<Label>, s': State)
    requires Reaches(cfg, ls, s) && AtRead(s, c, a) && RefundPrecheck(cfg.router, s.sh.db, a).Ok?
    requires a.paymentId !in s.sh.locks
    ensures Follows(cfg, ls, ls', s') && Alone(s, s', c) && TakesLock(s, s', c, a)
  {
    var s0;
    ls', s0 := ReadsPayment(cfg, ls, s, c, a);
    ls', s' := Begins(cfg, ls', s0, c, a);
    AloneTransitive(s, s0, s', c);
  }

  lemma ReadsPayment(cfg: Config, ls: seq<Label>, s: State, c: CallId, a: RefundArgs)
    returns (ls': seq<Label>, s': State)
    requires Reaches(cfg, ls, s) && AtRead(s, c, a) && RefundPrecheck(cfg.router, s.sh.db, a).Ok?
    ensures Follows(cfg, ls, ls', s') && Alone(s, s', c) && Draws(s.sh, s'.sh)
    ensures s'.calls[c].req == RefundReq(a) && s'.calls[c].pc.RefundBegin?
  {
    var rid := FreshId(s.sh.owner);
    var (p, g) := RefundPrecheck(cfg.router, s.sh.db, a).value;
    var n := Goto(Draw(s.sh, c, rid), s.calls[c], RefundBegin(g, NewRefund(a, rid, s.sh.clock, p.currency)));
    assert RefundReadStep(cfg, s.sh, c, s.calls[c], Fresh(rid)) == Some(n);
    Acted(cfg, ls, s, c, Fresh(rid), n);
    ls', s' := ls + [Act(c, Fresh(rid))], State(n.sh, s.calls[c := n.call]);
  }

  /** The payment of `a` is there to be locked and refunded. */
  ghost predicate Lockable(sh: Shared, a: RefundArgs) {
    a.paymentId !in sh.locks && a.paymentId in sh.db.payments && Refundable(sh.db.payments[a.paymentId].status)
  }

  lemma Begins(cfg: Config, ls: seq<Label>, s: State, c: CallId, a: RefundArgs) returns (ls': seq<Label>, s': State)
    requires Reaches(cfg, ls, s) && c in s.calls && s.calls[c].req == RefundReq(a) && s.calls[c].pc.RefundBegin?
    requires Lockable(s.sh, a)
    ensures Follows(cfg, ls, ls', s') && Alone(s, s', c) && TakesLock(s, s', c, a)
  {
    var RefundBegin(g, r) := s.calls[c].pc;
    var n := Goto(s.sh, s.calls[c], RefundLock(g, r));
    var s0 := State(n.sh, s.calls[c := n.call]);
    assert RefundBeginStep(cfg, s.sh, c, s.calls[c], Go) == Some(n);
    Acted(cfg, ls, s, c, Go, n);
    ls', s' := LocksRow(cfg, ls + [Act(c, Go)], s0, c, a);
    AloneTransitive(s, s0, s', c);
  }

  lemma LocksRow(cfg: Config, ls: seq<Label>, s: State, c: CallId, a: RefundArgs) returns (ls': seq<Label>, s': State)
    requires Reaches(cfg, ls, s) && c in s.calls && s.calls[c].req == RefundReq(a) && s.calls[c].pc.RefundLock?
    requires Lockable(s.sh, a)
    ensures Follows(cfg, ls, ls', s') && Alone(s, s', c) && TakesLock(s, s', c, a)
  {
    var RefundLock(g, r) := s.calls[c].pc;
    var n := Goto(s.sh.(locks := s.sh.locks[a.paymentId := c]), s.calls[c],
                  RefundFold(g, r, s.sh.db.payments[a.paymentId]));
    assert RefundLockStep(cfg, s.sh, c, s.calls[c], Go) == Some(n);
    Acted(cfg, ls, s, c, Go, n);
    ls', s' := ls + [Act(c, Go)], State(n.sh, s.calls[c := n.call]);
  }

  /** What remains of the payment covers refund `a`. */
  ghost predicate Fits(db: Db, a: RefundArgs) {
    a.paymentId in db.payments && a.amount <= db.payments[a.paymentId].amount - Total(db.refunds, a.paymentId)
  }

  // ---------- On to the commit ----------

  /** A call whose gateway answers, or answered, `res`; a refund call holds its lock. */
  predicate Underway(pc: Pc, res: GatewayResult) {
    || pc.PayGateway? || pc.RefundFold? || pc.RefundCreate? || pc.RefundMark? || pc.RefundProcess? || pc.RefundGateway?
    || ((pc.PayBegin? || pc.PayInsert? || pc.PayMark? || pc.PayAudit? || pc.PayFinish? || pc.PayCommit?)
        && pc.res == res)
    || ((pc.RefundAudit? || pc.RefundFinish? || pc.RefundStore? || pc.RefundCommit?) && pc.res == res)
  }

  /** No row and no other call holds the stored form of the key. */
  ghost predicate KeyClear(sh: Shared, c: CallId, key: string) {
    NullString(key).Some? ==>
      && KeyFree(sh.db, NullString(key).value)
      && (NullString(key).value in sh.keys ==> sh.keys[NullString(key).value] == c)
  }

  /** Nothing stands in the way of the call: its key is free, or what remains covers the refund. */
  ghost predicate Clear(sh: Shared, c: CallId, req: Request) {
    match req
    case PayReq(a) => FitsNumeric(a.amount) && KeyClear(sh, c, a.key)
    case RefundReq(a) => Fits(sh.db, a)
    case StatusReq(_, _) => false
  }

  /** A step towards the commit that does not touch the tables. */
  ghost predicate Advance(sh: Shared, call: Call, n: Option<Next>, res: GatewayResult) {
    && n.Some? && n.value.sh.db == sh.db && n.value.sh.locks == sh.locks && n.value.sh.log == sh.log
    && n.value.call.req == call.req && Underway(n.value.call.pc, res) && Rank(n.value.call.pc) < Rank(call.pc)
  }

  lemma PayAdvances(cfg: Config, sh: Shared, c: CallId, call: Call, res: GatewayResult)
    requires call.req.PayReq? && Underway(call.pc, res)
    requires call.pc.PayBegin? || call.pc.PayMark? || call.pc.PayFinish?
    ensures Advance(sh, call, PayStep(cfg, sh, c, call, Go), res)
  {
  }

  lemma InsertAdvances(cfg: Config, sh: Shared, c: CallId, call: Call, res: GatewayResult)
    requires call.req.PayReq? && PayOutsideTx(cfg, sh, c, call) && call.pc.PayInsert? && call.pc.res == res
    requires Clear(sh, c, call.req)
    ensures Advance(sh, call, PayInsertStep(cfg, sh, c, call, Go), res)
  {
  }

  lemma FoldAdvances(cfg: Config, sh: Shared, c: CallId, call: Call, res: GatewayResult)
    requires call.req.RefundReq? && RefundInTx(cfg, sh, c, call) && call.pc.RefundFold? && Fits(sh.db, call.req.refund)
    ensures Advance(sh, call, RefundFoldStep(cfg, sh, c, call, Go), res)
  {
    assert Overlay(sh.db, call.buf).refunds == sh.db.refunds;
  }

  lemma OpenAdvances(cfg: Config, sh: Shared, c: CallId, call: Call, res: GatewayResult)
    requires call.req.RefundReq? && (call.pc.RefundCreate? || call.pc.RefundMark? || call.pc.RefundProcess?)
    ensures Advance(sh, call, RefundStep(cfg, sh, c, call, Go), res)
  {
  }

  lemma CloseAdvances(cfg: Config, sh: Shared, c: CallId, call: Call, res: GatewayResult)
    requires call.req.RefundReq? && (call.pc.RefundFinish? || call.pc.RefundStore?) && call.pc.res == res
    ensures Advance(sh, call, RefundStep(cfg, sh, c, call, Go), res)
  {
  }

  lemma PayAskAdvances(cfg: Config, sh: Shared, c: CallId, call: Call, res: GatewayResult)
    requires call.req.PayReq? && call.pc.PayGateway?
    ensures Advance(sh, call, PayGatewayStep(cfg, sh, c, call, Outcome(res)), res)
  {
  }

  lemma RefundAskAdvances(cfg: Config, sh: Shared, c: CallId, call: Call, res: GatewayResult)
    requires call.req.RefundReq? && call.pc.RefundGateway?
    ensures Advance(sh, call, RefundGatewayStep(cfg, sh, c, call, Outcome(res)), res)
  {
  }

  lemma PayAuditAdvances(cfg: Config, sh: Shared, c: CallId, call: Call, res: GatewayResult, tid: Id)
    requires call.req.PayReq? && call.pc.PayAudit? && call.pc.res == res && tid !in sh.owner
    ensures Advance(sh, call, PayAuditStep(cfg, sh, c, call, Fresh(tid)), res)
  {
  }

  lemma RefundAuditAdvances(cfg: Config, sh: Shared, c: CallId, call: Call, res: GatewayResult, tid: Id)
    requires call.req.RefundReq? && call.pc.RefundAudit? && call.pc.res == res && tid !in sh.owner
    ensures Advance(sh, call, RefundAuditStep(cfg, sh, c, call, Fresh(tid)), res)
  {
    var RefundAudit(r, locked, remaining, _, gi) := call.pc;
    var n := RefundAuditStep(cfg, sh, c, call, Fresh(tid)).value;
    assert n.sh == Draw(sh, c, tid) && n.call.pc == RefundFinish(r, locked, remaining, res, gi, tid);
  }

  lemma RefundHolds(cfg: Config, sh: Shared, c: CallId, call: Call, res: GatewayResult)
    requires CallInv(cfg, sh, c, call) && call.req.RefundReq? && Underway(call.pc, res)
    ensures RefundInTx(cfg, sh, c, call)
  {
  }

  lemma RefundAdvances(cfg: Config, sh: Shared, c: CallId, call: Call, res: GatewayResult) returns (ch: Choice)
    requires CallInv(cfg, sh, c, call) && call.req.RefundReq? && Underway(call.pc, res) && !call.pc.RefundCommit?
    requires Fits(sh.db, call.req.refund)
    ensures Harmless(ch) && Advance(sh, call, RefundStep(cfg, sh, c, call, ch), res)
  {
    ch := Go;
    RefundHolds(cfg, sh, c, call, res);
    if call.pc.RefundFold? {
      FoldAdvances(cfg, sh, c, call, res);
    } else if call.pc.RefundGateway? {
      ch := Outcome(res);
      RefundAskAdvances(cfg, sh, c, call, res);
    } else if call.pc.RefundAudit? {
      var tid := FreshId(sh.owner);
      ch := Fresh(tid);
      RefundAuditAdvances(cfg, sh, c, call, res, tid);
    } else if call.pc.RefundFinish? || call.pc.RefundStore? {
      CloseAdvances(cfg, sh, c, call, res);
    } else {
      OpenAdvances(cfg, sh, c, call, res);
    }
  }

  lemma PaymentAdvances(cfg: Config, sh: Shared, c: CallId, call: Call, res: GatewayResult) returns (ch: Choice)
    requires CallInv(cfg, sh, c, call) && call.req.PayReq? && Underway(call.pc, res) && !call.pc.PayCommit?
    requires Clear(sh, c, call.req)
    ensures Harmless(ch) && Advance(sh, call, PayStep(cfg, sh, c, call, ch), res)
  {
    ch := Go;
    if call.pc.PayGateway? {
      ch := Outcome(res);
      PayAskAdvances(cfg, sh, c, call, res);
    } else if call.pc.PayAudit? {
      var tid := FreshId(sh.owner);
      ch := Fresh(tid);
      PayAuditAdvances(cfg, sh, c, call, res, tid);
    } else if call.pc.PayInsert? {
      InsertAdvances(cfg, sh, c, call, res);
    } else {
      PayAdvances(cfg, sh, c, call, res);
    }
  }

  lemma OwnCommit(cfg: Config, sh: Shared, c: CallId, call: Call)
    requires CallInv(cfg, sh, c, call) && AtCommit(call.pc)
    ensures if call.req.PayReq? then call.pc.PayCommit? else call.req.RefundReq? && call.pc.RefundCommit?
  {
  }

  /** The step that takes call `c` one further towards its commit. */
  lemma Advances(cfg: Config, sh: Shared, c: CallId, call: Call, res: GatewayResult) returns (ch: Choice)
    requires CallInv(cfg, sh, c, call) && Underway(call.pc, res) && Clear(sh, c, call.req) && !AtCommit(call.pc)
    ensures Harmless(ch) && Advance(sh, call, Step(cfg, sh, c, call, ch), res)
  {
    if call.req.PayReq? {
      ch := PaymentAdvances(cfg, sh, c, call, res);
    } else {
      ch := RefundAdvances(cfg, sh, c, call, res);
    }
  }

  /** Nothing comes into the way of a call that moves alone. */
  lemma StaysClear(sh: Shared, sh': Shared, c: CallId, req: Request)
    requires Clear(sh, c, req) && sh'.db == sh.db && LocksKept(sh, sh', c)
    ensures Clear(sh', c, req)
  {
  }

  /** Call `c` moves alone from `s` to `s'`, and neither the tables nor the row locks change. */
  ghost predicate Rises(s: State, s': State, c: CallId) {
    && Alone(s, s', c) && s'.sh.db == s.sh.db && s'.sh.locks == s.sh.locks && s'.sh.log == s.sh.log
    && c in s.calls && s'.calls[c].req == s.calls[c].req
  }

  lemma OneAdvance(cfg: Config, ls: seq<Label>, s: State, c: CallId, res: GatewayResult)
    returns (ls': seq<Label>, s': State)
    requires Reaches(cfg, ls, s) && c in s.calls && Underway(s.calls[c].pc, res) && Clear(s.sh, c, s.calls[c].req)
    requires !AtCommit(s.calls[c].pc)
    ensures Follows(cfg, ls, ls', s') && Rises(s, s', c) && Clear(s'.sh, c, s.calls[c].req)
    ensures Underway(s'.calls[c].pc, res) && Rank(s'.calls[c].pc) < Rank(s.calls[c].pc)
  {
    RunKeeps(cfg, ls, s);
    var ch := Advances(cfg, s.sh, c, s.calls[c], res);
    var n := Step(cfg, s.sh, c, s.calls[c], ch).value;
    Acted(cfg, ls, s, c, ch, n);
    ls', s' := ls + [Act(c, ch)], State(n.sh, s.calls[c := n.call]);
    StaysClear(s.sh, s'.sh, c, s.calls[c].req);
  }

  lemma {:induction false} RunsToCommit(cfg: Config, ls: seq<Label>, s: State, c: CallId, res: GatewayResult)
    returns (ls': seq<Label>, s': State)
    requires Reaches(cfg, ls, s) && c in s.calls && Underway(s.calls[c].pc, res) && Clear(s.sh, c, s.calls[c].req)
    ensures Follows(cfg, ls, ls', s') && Rises(s, s', c) && AtCommit(s'.calls[c].pc) && s'.calls[c].pc.res == res
    decreases Rank(s.calls[c].pc)
  {
    if AtCommit(s.calls[c].pc) {
      ls', s' := ls, s;
    } else {
      var s0;
      ls', s0 := OneAdvance(cfg, ls, s, c, res);
      ls', s' := RunsToCommit(cfg, ls', s0, c, res);
      AloneTransitive(s, s0, s', c);
    }
  }

  // ---------- The commit ----------

  /** Call `c` moves alone and ends with one event, holding nothing. */
  ghost predicate Ends(s: State, s': State, c: CallId) {
    && Alone(s, s', c) && c in s.calls && s'.calls[c].Finished() && s'.calls[c].req == s.calls[c].req
    && HoldsNothing(s'.sh, c)
    && |s'.sh.log| == |s.sh.log| + 1 && s'.sh.log == s.sh.log + [s'.sh.log[|s.sh.log|]]
    && s'.sh.log[|s.sh.log|].cid == c && s'.sh.log[|s.sh.log|].req == s.calls[c].req
  }

  /** A step that ends the call with its event. */
  lemma ActsLast(cfg: Config, ls: seq<Label>, s: State, c: CallId, ch: Choice, n: Next, e: Event)
    requires Reaches(cfg, ls, s) && c in s.calls && Step(cfg, s.sh, c, s.calls[c], ch) == Some(n) && Harmless(ch)
    requires n.sh.log == s.sh.log + [e] && e.cid == c && e.req == n.call.req == s.calls[c].req && n.call.Finished()
    ensures Follows(cfg, ls, ls + [Act(c, ch)], State(n.sh, s.calls[c := n.call]))
    ensures Ends(s, State(n.sh, s.calls[c := n.call]), c)
  {
    Acted(cfg, ls, s, c, ch, n);
    FinishedFrees(cfg, ls + [Act(c, ch)], State(n.sh, s.calls[c := n.call]), c);
  }

  lemma EndsAfter(s: State, s0: State, s': State, c: CallId)
    requires Rises(s, s0, c) && Ends(s0, s', c)
    ensures Ends(s, s', c)
  {
    AloneTransitive(s, s0, s', c);
  }

  lemma CommitsPayment(cfg: Config, ls: seq<Label>, s: State, c: CallId) returns (ls': seq<Label>, s': State)
    requires Reaches(cfg, ls, s) && c in s.calls && s.calls[c].req.PayReq? && s.calls[c].pc.PayCommit?
    ensures Follows(cfg, ls, ls', s') && Ends(s, s', c) && s'.sh.db == Overlay(s.sh.db, s.calls[c].buf)
    ensures s'.sh.log[|s.sh.log|].op.ChargeOp? && s'.sh.log[|s.sh.log|].op.res == s.calls[c].pc.res
  {
    var PayCommit(p, res, gi, tid) := s.calls[c].pc;
    var op := ChargeOp(p.id, tid, p.createdAt, res, gi);
    var n := CommitStep(s.sh, c, s.calls[c], op, Paid(p), Go).value;
    assert PayCommitStep(cfg, s.sh, c, s.calls[c], Go) == Some(n);
    ActsLast(cfg, ls, s, c, Go, n, Event(c, s.calls[c].req, op, Paid(p)));
    ls', s' := ls + [Act(c, Go)], State(n.sh, s.calls[c := n.call]);
  }

  lemma CommitsRefund(cfg: Config, ls: seq<Label>, s: State, c: CallId) returns (ls': seq<Label>, s': State)
    requires Reaches(cfg, ls, s) && c in s.calls && s.calls[c].req.RefundReq? && s.calls[c].pc.RefundCommit?
    ensures Follows(cfg, ls, ls', s') && Ends(s, s', c) && s'.sh.db == Overlay(s.sh.db, s.calls[c].buf)
    ensures s'.sh.log[|s.sh.log|].op.RefundOp? && s'.sh.log[|s.sh.log|].op.res == s.calls[c].pc.res
  {
    var RefundCommit(r, res, gi, tid) := s.calls[c].pc;
    var op := RefundOp(r.id, tid, r.createdAt, res, gi);
    var n := CommitStep(s.sh, c, s.calls[c], op, RefundMade(r), Go).value;
    assert RefundCommitStep(cfg, s.sh, c, s.calls[c], Go) == Some(n);
    ActsLast(cfg, ls, s, c, Go, n, Event(c, s.calls[c].req, op, RefundMade(r)));
    ls', s' := ls + [Act(c, Go)], State(n.sh, s.calls[c := n.call]);
  }

  /** What a payment of `a` did to the tables. */
  ghost predicate PaidAs(db: Db, db': Db, router: Router, a: PayArgs, p: Payment, tid: Id, res: GatewayResult) {
    && GetGatewayOrDefault(router, a.gateway).Ok? && p.id !in db.payments && tid !in db.txns
    && p == Charged(NewPayment(a, p.id, p.createdAt, GetGatewayOrDefault(router, a.gateway).value.name), res)
    && db' == Db(db.payments[p.id := p], db.refunds, db.txns[tid := ChargeRow(a, p, tid, res)])
  }

  lemma PaysAtCommit(cfg: Config, sh: Shared, c: CallId, call: Call)
    requires CallInv(cfg, sh, c, call) && call.req.PayReq? && call.pc.PayCommit?
    ensures PaidAs(sh.db, Overlay(sh.db, call.buf), cfg.router, call.req.pay, call.pc.p, call.pc.tid, call.pc.res)
  {
    var p, tid := call.pc.p, call.pc.tid;
    assert PayInTx(cfg, sh, c, call);
    MergeOne(sh.db.payments, p.id, p);
    MergeOne(sh.db.txns, tid, ChargeRow(call.req.pay, p, tid, call.pc.res));
  }

  /** Call `c` charges payment `p` and commits it. */
  ghost predicate PaysOff(cfg: Config, s: State, s': State, c: CallId, a: PayArgs, p: Payment, tid: Id,
                          res: GatewayResult) {
    && Ends(s, s', c) && PaidAs(s.sh.db, s'.sh.db, cfg.router, a, p, tid, res)
    && s'.sh.log[|s.sh.log|].op.ChargeOp? && s'.sh.log[|s.sh.log|].op.res == res
  }

  /** A call at the gateway runs to its commit, undisturbed. */
  lemma Pays(cfg: Config, ls: seq<Label>, s: State, c: CallId, a: PayArgs, res: GatewayResult)
    returns (ls': seq<Label>, s': State, p: Payment, tid: Id)
    requires Reaches(cfg, ls, s) && AtGateway(s, c, a) && Clear(s.sh, c, PayReq(a))
    ensures Follows(cfg, ls, ls', s') && PaysOff(cfg, s, s', c, a, p, tid, res)
  {
    var s0;
    ls', s0 := RunsToCommit(cfg, ls, s, c, res);
    ls', s', p, tid := Collects(cfg, ls', s0, c, a, res);
    EndsAfter(s, s0, s', c);
  }

  /** The commit of a payment. */
  lemma Collects(cfg: Config, ls: seq<Label>, s: State, c: CallId, a: PayArgs, res: GatewayResult)
    returns (ls': seq<Label>, s': State, p: Payment, tid: Id)
    requires Reaches(cfg, ls, s) && c in s.calls && s.calls[c].req == PayReq(a)
    requires AtCommit(s.calls[c].pc) && s.calls[c].pc.res == res
    ensures Follows(cfg, ls, ls', s') && PaysOff(cfg, s, s', c, a, p, tid, res)
  {
    RunKeeps(cfg, ls, s);
    OwnCommit(cfg, s.sh, c, s.calls[c]);
    p, tid := s.calls[c].pc.p, s.calls[c].pc.tid;
    PaysAtCommit(cfg, s.sh, c, s.calls[c]);
    ls', s' := CommitsPayment(cfg, ls, s, c);
  }

  /** What a refund of `a` did to the tables. */
  ghost predicate RefundedAs(db: Db, db': Db, a: RefundArgs, r: Refund, tid: Id, res: GatewayResult) {
    && a.paymentId in db.payments && r.id !in db.refunds && tid !in db.txns
    && r == Settled(NewRefund(a, r.id, r.createdAt, db.payments[a.paymentId].currency), res)
    && db' == RefundedDb(db, a, r, res, tid)
  }

  lemma RefundsAtCommit(cfg: Config, sh: Shared, c: CallId, call: Call)
    requires call.req.RefundReq? && call.pc.RefundCommit? && RefundInTx(cfg, sh, c, call)
    ensures RefundedAs(sh.db, Overlay(sh.db, call.buf), call.req.refund, call.pc.r, call.pc.tid, call.pc.res)
    ensures call.req.refund.paymentId in sh.locks && sh.locks[call.req.refund.paymentId] == c
  {
    RefundOverlay(cfg, sh, c, call);
  }

  /** Call `c` refunds `r` and commits it. */
  ghost predicate PaysBack(s: State, s': State, c: CallId, a: RefundArgs, r: Refund, tid: Id, res: GatewayResult) {
    && Ends(s, s', c) && RefundedAs(s.sh.db, s'.sh.db, a, r, tid, res)
    && s'.sh.log[|s.sh.log|].op.RefundOp? && s'.sh.log[|s.sh.log|].op.res == res
  }

  /** It holds the lock and runs up to its commit, undisturbed. */
  lemma Prepares(cfg: Config, ls: seq<Label>, s: State, c: CallId, a: RefundArgs, res: GatewayResult)
    returns (ls': seq<Label>, s': State)
    requires Reaches(cfg, ls, s) && AtRead(s, c, a) && RefundCheck(cfg.router, s.sh.db, a).Ok?
    requires a.paymentId !in s.sh.locks
    ensures Follows(cfg, ls, ls', s') && Alone(s, s', c) && s'.sh.db == s.sh.db && s'.sh.log == s.sh.log
    ensures s'.calls[c].req == RefundReq(a) && AtCommit(s'.calls[c].pc) && s'.calls[c].pc.res == res
  {
    var s0;
    ls', s0 := Locks(cfg, ls, s, c, a);
    ls', s' := RunsToCommit(cfg, ls', s0, c, res);
    AloneTransitive(s, s0, s', c);
  }

  /** A call that has just looked for its correlation id runs to its commit, undisturbed. */
  lemma Refunds(cfg: Config, ls: seq<Label>, s: State, c: CallId, a: RefundArgs, res: GatewayResult)
    returns (ls': seq<Label>, s': State, r: Refund, tid: Id)
    requires Reaches(cfg, ls, s) && AtRead(s, c, a) && RefundCheck(cfg.router, s.sh.db, a).Ok?
    requires a.paymentId !in s.sh.locks
    ensures Follows(cfg, ls, ls', s') && PaysBack(s, s', c, a, r, tid, res)
  {
    var s0;
    ls', s0 := Prepares(cfg, ls, s, c, a, res);
    ls', s', r, tid := Settles(cfg, ls', s0, c, a, res);
    AloneTransitive(s, s0, s', c);
  }

  /** The commit of a refund. */
  lemma Settles(cfg: Config, ls: seq<Label>, s: State, c: CallId, a: RefundArgs, res: GatewayResult)
    returns (ls': seq<Label>, s': State, r: Refund, tid: Id)
    requires Reaches(cfg, ls, s) && c in s.calls && s.calls[c].req == RefundReq(a)
    requires AtCommit(s.calls[c].pc) && s.calls[c].pc.res == res
    ensures Follows(cfg, ls, ls', s') && PaysBack(s, s', c, a, r, tid, res)
  {
    RunKeeps(cfg, ls, s);
    OwnCommit(cfg, s.sh, c, s.calls[c]);
    RefundHolds(cfg, s.sh, c, s.calls[c], res);
    r, tid := s.calls[c].pc.r, s.calls[c].pc.tid;
    RefundsAtCommit(cfg, s.sh, c, s.calls[c]);
    ls', s' := CommitsRefund(cfg, ls, s, c);
  }

  // ---------- Status updates ----------

  /** The status of payment `p` becomes `st`, and nothing else changes. */
  ghost predicate Sets(s: State, s': State, c: CallId, p: Id, st: PaymentStatus) {
    && Alone(s, s', c) && s'.calls[c].Finished() && p in s.sh.db.payments
    && var db := s.sh.db.(payments := s.sh.db.payments[p := s.sh.db.payments[p].(status := st)]);
    && s'.sh == s.sh.(db := db, log := s'.sh.log)
  }

  /** A status call runs from start to end, undisturbed. */
  lemma Updates(cfg: Config, ls: seq<Label>, s: State, c: CallId, p: Id, st: PaymentStatus)
    returns (ls': seq<Label>, s': State)
    requires Reaches(cfg, ls, s) && CanStart(cfg, s, c, StatusReq(p, st)) && p in s.sh.db.payments && p !in s.sh.locks
    ensures Follows(cfg, ls, ls', s') && Sets(s, s', c, p, st)
  {
    Begun(cfg, ls, s, c, StatusReq(p, st));
    var s0 := s.(calls := s.calls[c := NewCall(s, StatusReq(p, st))]);
    ls', s' := Rewrites(cfg, ls + [Start(c, StatusReq(p, st))], s0, c, p, st);
    AloneTransitive(s, s0, s', c);
  }

  lemma Rewrites(cfg: Config, ls: seq<Label>, s: State, c: CallId, p: Id, st: PaymentStatus)
    returns (ls': seq<Label>, s': State)
    requires Reaches(cfg, ls, s) && c in s.calls && s.calls[c].req == StatusReq(p, st) && s.calls[c].pc == StatusRead
    requires p in s.sh.db.payments && p !in s.sh.locks
    ensures Follows(cfg, ls, ls', s') && Sets(s, s', c, p, st)
  {
    var n := Goto(s.sh, s.calls[c], StatusWrite(s.sh.db.payments[p].(status := st)));
    var s0 := State(n.sh, s.calls[c := n.call]);
    assert StatusReadStep(cfg, s.sh, c, s.calls[c], Go) == Some(n);
    Acted(cfg, ls, s, c, Go, n);
    ls', s' := WritesStatus(cfg, ls + [Act(c, Go)], s0, c, p, st);
    AloneTransitive(s, s0, s', c);
  }

  lemma WritesStatus(cfg: Config, ls: seq<Label>, s: State, c: CallId, p: Id, st: PaymentStatus)
    returns (ls': seq<Label>, s': State)
    requires Reaches(cfg, ls, s) && c in s.calls && s.calls[c].req == StatusReq(p, st)
    requires p in s.sh.db.payments && p !in s.sh.locks
    requires s.calls[c].pc == StatusWrite(s.sh.db.payments[p].(status := st))
    ensures Follows(cfg, ls, ls', s') && Sets(s, s', c, p, st)
  {
    var n := StatusWriteStep(cfg, s.sh, c, s.calls[c], Go).value;
    Acted(cfg, ls, s, c, Go, n);
    ls', s' := ls + [Act(c, Go)], State(n.sh, s.calls[c := n.call]);
  }

  // ---------- A call that loses its insert ----------

  /** The stored form of the key is committed, and no call holds it. */
  ghost predicate KeyCommitted(sh: Shared, key: string) {
    && NullString(key).Some? && !KeyFree(sh.db, NullString(key).value) && NullString(key).value !in sh.keys
  }

  /** Call `c` charges, finds its key committed, and ends with an answer read. */
  ghost predicate Loses(s: State, s': State, c: CallId, a: PayArgs, res: GatewayResult) {
    && Ends(s, s', c) && s'.sh.db == s.sh.db && s'.sh.log[|s.sh.log|].op == ReadOp
    && |s'.sh.gateway| == |s.sh.gateway| + 1
    && var g := s'.sh.gateway[|s.sh.gateway|];
    && g.ChargeCall? && g.cid == c && g.result == res
  }

  /** A call at the gateway is charged although its key is committed by now. */
  lemma ChargesInVain(cfg: Config, ls: seq<Label>, s: State, c: CallId, a: PayArgs, res: GatewayResult)
    returns (ls': seq<Label>, s': State)
    requires Reaches(cfg, ls, s) && AtGateway(s, c, a) && FitsNumeric(a.amount) && KeyCommitted(s.sh, a.key)
    ensures Follows(cfg, ls, ls', s') && Loses(s, s', c, a, res)
  {
    var s0;
    RunKeeps(cfg, ls, s);
    assert s.calls[c].pc.p.key == NullString(a.key) && s.calls[c].pc.p.amount == a.amount;
    ls', s0 := Asks(cfg, ls, s, c, a, res);
    ls', s' := Refused(cfg, ls', s0, c, a);
    AloneTransitive(s, s0, s', c);
  }

  /** Call `c` ends with an answer read. */
  ghost predicate Reads(s: State, s': State, c: CallId) {
    Ends(s, s', c) && s'.sh.db == s.sh.db && s'.sh.gateway == s.sh.gateway && s'.sh.log[|s.sh.log|].op == ReadOp
  }

  lemma Refused(cfg: Config, ls: seq<Label>, s: State, c: CallId, a: PayArgs) returns (ls': seq<Label>, s': State)
    requires Reaches(cfg, ls, s) && c in s.calls && s.calls[c].req == PayReq(a) && s.calls[c].pc.PayBegin?
    requires s.calls[c].pc.p.key == NullString(a.key) && FitsNumeric(s.calls[c].pc.p.amount)
    requires KeyCommitted(s.sh, a.key)
    ensures Follows(cfg, ls, ls', s') && Reads(s, s', c)
  {
    var PayBegin(p, res, gi) := s.calls[c].pc;
    var n := Goto(s.sh, s.calls[c], PayInsert(p, res, gi));
    var s0 := State(n.sh, s.calls[c := n.call]);
    assert PayBeginStep(cfg, s.sh, c, s.calls[c], Go) == Some(n);
    Acted(cfg, ls, s, c, Go, n);
    ls', s' := Collides(cfg, ls + [Act(c, Go)], s0, c, a);
    EndsAfter(s, s0, s', c);
  }

  lemma Collides(cfg: Config, ls: seq<Label>, s: State, c: CallId, a: PayArgs) returns (ls': seq<Label>, s': State)
    requires Reaches(cfg, ls, s) && c in s.calls && s.calls[c].req == PayReq(a) && s.calls[c].pc.PayInsert?
    requires s.calls[c].pc.p.key == NullString(a.key) && FitsNumeric(s.calls[c].pc.p.amount)
    requires KeyCommitted(s.sh, a.key)
    ensures Follows(cfg, ls, ls', s') && Reads(s, s', c)
  {
    var n := Goto(s.sh, s.calls[c], Aborting(UniqueViolation, 0));
    var s0 := State(n.sh, s.calls[c := n.call]);
    assert PayInsertStep(cfg, s.sh, c, s.calls[c], Go) == Some(n);
    Acted(cfg, ls, s, c, Go, n);
    ls', s' := RollsBack(cfg, ls + [Act(c, Go)], s0, c, a);
    EndsAfter(s, s0, s', c);
  }

  lemma RollsBack(cfg: Config, ls: seq<Label>, s: State, c: CallId, a: PayArgs) returns (ls': seq<Label>, s': State)
    requires Reaches(cfg, ls, s) && c in s.calls && s.calls[c].req == PayReq(a) && NullString(a.key).Some?
    requires s.calls[c].pc == Aborting(UniqueViolation, 0)
    ensures Follows(cfg, ls, ls', s') && Reads(s, s', c)
  {
    var s0;
    ls', s0 := Undoes(cfg, ls, s, c, a);
    ls', s' := Recovers(cfg, ls', s0, c, a);
    AloneTransitive(s, s0, s', c);
  }

  lemma Undoes(cfg: Config, ls: seq<Label>, s: State, c: CallId, a: PayArgs) returns (ls': seq<Label>, s': State)
    requires Reaches(cfg, ls, s) && c in s.calls && s.calls[c].req == PayReq(a) && NullString(a.key).Some?
    requires s.calls[c].pc == Aborting(UniqueViolation, 0)
    ensures Follows(cfg, ls, ls', s') && Alone(s, s', c) && s'.calls[c].req == PayReq(a) && s'.calls[c].pc == PayRecover
    ensures s'.sh == s.sh.(locks := s'.sh.locks, keys := s'.sh.keys)
  {
    var n := EndTx(s.sh, c, s.calls[c], PayRecover);
    assert PayRollbackStep(cfg, s.sh, c, s.calls[c], Go) == Some(n);
    Acted(cfg, ls, s, c, Go, n);
    ls', s' := ls + [Act(c, Go)], State(n.sh, s.calls[c := n.call]);
  }

  lemma Recovers(cfg: Config, ls: seq<Label>, s: State, c: CallId, a: PayArgs) returns (ls': seq<Label>, s': State)
    requires Reaches(cfg, ls, s) && c in s.calls && s.calls[c].req == PayReq(a) && s.calls[c].pc == PayRecover
    ensures Follows(cfg, ls, ls', s') && Reads(s, s', c)
  {
    var row := KeyLookupAnswers(s.sh.db, a.key);
    var resp := if row.None? then Rejected(UniqueViolation) else PaymentFound(s.sh.db.payments[row.value]);
    var n := Answer(s.sh, c, s.calls[c], resp);
    assert PayRecoverStep(cfg, s.sh, c, s.calls[c], Found(row)) == Some(n);
    ActsLast(cfg, ls, s, c, Found(row), n, Event(c, s.calls[c].req, ReadOp, resp));
    ls', s' := ls + [Act(c, Found(row))], State(n.sh, s.calls[c := n.call]);
  }

  // ---------- A call that is broken off ----------

  /** Call `c` ends with a store error, and only locks and keys change. */
  ghost predicate BreaksOff(s: State, s': State, c: CallId) {
    && Alone(s, s', c) && c in s.calls && s'.calls[c].req == s.calls[c].req && s'.calls[c].Finished()
    && HoldsNothing(s'.sh, c) && s'.sh == s.sh.(locks := s'.sh.locks, keys := s'.sh.keys)
  }

  /** The transaction of a charged payment cannot begin. */
  lemma CannotBegin(cfg: Config, ls: seq<Label>, s: State, c: CallId) returns (ls': seq<Label>, s': State)
    requires Reaches(cfg, ls, s) && c in s.calls && s.calls[c].req.PayReq? && s.calls[c].pc.PayBegin?
    ensures Reaches(cfg, ls', s') && BreaksOff(s, s', c)
  {
    var n := GiveUp(s.sh, s.calls[c]);
    assert PayBeginStep(cfg, s.sh, c, s.calls[c], Fault) == Some(n);
    Acted(cfg, ls, s, c, Fault, n);
    ls', s' := ls + [Act(c, Fault)], State(n.sh, s.calls[c := n.call]);
    FinishedFrees(cfg, ls', s', c);
  }

  /** The commit of a refund fails. */
  lemma CannotCommit(cfg: Config, ls: seq<Label>, s: State, c: CallId) returns (ls': seq<Label>, s': State)
    requires Reaches(cfg, ls, s) && c in s.calls && s.calls[c].req.RefundReq? && s.calls[c].pc.RefundCommit?
    ensures Reaches(cfg, ls', s') && BreaksOff(s, s', c)
  {
    var n := EndTx(s.sh, c, s.calls[c], Done(Rejected(StoreFailure), 0));
    assert RefundCommitStep(cfg, s.sh, c, s.calls[c], Fault) == Some(n);
    Acted(cfg, ls, s, c, Fault, n);
    ls', s' := ls + [Act(c, Fault)], State(n.sh, s.calls[c := n.call]);
    FinishedFrees(cfg, ls', s', c);
  }
}
