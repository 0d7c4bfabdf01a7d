/**
  Replays: a call whose key or correlation id is already committed answers from the stored row and does nothing else.
*/
module Idempotency {
  import opened Base
  import opened Text
  import opened Domain
  import opened Protocol
  import opened Refinement
  import opened Runs

  /** The call has made no gateway call and written nothing. */
  ghost predicate NoEffect(sh: Shared, c: CallId) {
    && (forall i :: 0 <= i < |sh.gateway| ==> sh.gateway[i].cid != c)
    && (forall i :: 0 <= i < |sh.log| && sh.log[i].cid == c ==> sh.log[i].op == ReadOp)
  }

  // ---------- Payments by idempotency key ----------

  /** Still looking its key up, answered with the row stored under it, refused by the store, or gone. */
  predicate KeyReplayPc(pc: Pc, k: string) {
    || pc.PayLookup?
    || (pc.Done? && pc.resp.PaymentFound? && pc.resp.found.key == Some(k))
    || (pc.Done? && pc.resp == Rejected(StoreFailure))
    || pc.Gone?
  }

  ghost predicate KeyReplaying(s: State, c: CallId, k: string) {
    && c in s.calls && s.calls[c].req.PayReq? && s.calls[c].req.pay.key == k
    && KeyReplayPc(s.calls[c].pc, k) && NoEffect(s.sh, c) && !KeyFree(s.sh.db, k)
  }

  lemma LookupHits(cfg: Config, sh: Shared, c: CallId, call: Call, ch: Choice)
    requires call.req.PayReq? && call.pc.PayLookup? && !KeyFree(sh.db, call.req.pay.key)
    requires Trimmed(call.req.pay.key) && call.req.pay.key != "" && NoEffect(sh, c)
    requires PayLookupStep(cfg, sh, c, call, ch).Some?
    ensures var n := PayLookupStep(cfg, sh, c, call, ch).value;
      && n.call.req == call.req && KeyReplayPc(n.call.pc, call.req.pay.key)
      && NoEffect(n.sh, c) && n.sh.db == sh.db
  {
    TrimmedIffFixed(call.req.pay.key);
  }

  lemma OthersLeave(sh: Shared, sh': Shared, c: CallId, d: CallId)
    requires c != d && Guarantee(sh, sh', c) && NoEffect(sh, d)
    ensures NoEffect(sh', d)
  {
    forall i | 0 <= i < |sh'.gateway|
      ensures sh'.gateway[i].cid != d
    {
      assert i < |sh.gateway| ==> sh'.gateway[i] == sh.gateway[i];
    }
    forall i | 0 <= i < |sh'.log| && sh'.log[i].cid == d
      ensures sh'.log[i].op == ReadOp
    {
      assert i < |sh.log| ==> sh'.log[i] == sh.log[i];
    }
  }

  /** The call itself stays in its replay. */
  lemma KeyReplayOwn(cfg: Config, sh: Shared, c: CallId, call: Call, ch: Choice, k: string)
    requires call.req.PayReq? && call.req.pay.key == k && Trimmed(k) && k != "" && !KeyFree(sh.db, k)
    requires KeyReplayPc(call.pc, k) && NoEffect(sh, c) && Step(cfg, sh, c, call, ch).Some?
    ensures var n := Step(cfg, sh, c, call, ch).value;
      n.call.req == call.req && KeyReplayPc(n.call.pc, k) && NoEffect(n.sh, c)
  {
    if ch != Crash {
      assert call.pc.PayLookup?;
      LookupHits(cfg, sh, c, call, ch);
    }
  }

  lemma KeyReplayMove(cfg: Config, s: State, l: Label, c: CallId, k: string)
    requires StateInv(cfg, s) && KeyReplaying(s, c, k) && Move(cfg, s, l).Some? && Trimmed(k) && k != ""
    ensures KeyReplaying(Move(cfg, s, l).value, c, k)
  {
    if l.Act? {
      var n := Step(cfg, s.sh, l.c, s.calls[l.c], l.ch).value;
      ActKeeps(cfg, s, l.c, l.ch);
      KeyStaysTaken(s.sh, n.sh, l.c, k);
      if l.c != c {
        OthersLeave(s.sh, n.sh, l.c, c);
      } else {
        KeyReplayOwn(cfg, s.sh, c, s.calls[c], l.ch, k);
      }
    }
  }

  /**
    A payment call that starts after a payment with its trimmed key has committed returns a row with that key (the only
    one there is), calls no gateway and changes nothing, whatever else happens meanwhile.
  */
  lemma {:induction false} KeyReplay(cfg: Config, ls: seq<Label>, n: nat, early: State, late: State, c: CallId,
                                     a: PayArgs)
    requires n < |ls| && Reaches(cfg, ls[..n], early) && Reaches(cfg, ls, late)
    requires ls[n] == Start(c, PayReq(a)) && Trimmed(a.key) && a.key != "" && !KeyFree(early.sh.db, a.key)
    ensures KeyReplaying(late, c, a.key)
    decreases |ls|
  {
    var m := |ls| - 1;
    var before := Run(cfg, INIT, ls[..m]).value;
    RunKeeps(cfg, ls[..m], before);
    if n == m {
    } else {
      assert ls[..m][..n] == ls[..n];
      KeyReplay(cfg, ls[..m], n, early, before, c, a);
      KeyReplayMove(cfg, before, ls[m], c, a.key);
    }
  }

  // ---------- Refunds by correlation id ----------

  ghost predicate CorrelationTaken(db: Db, corr: string) {
    exists r :: r in db.refunds && db.refunds[r].correlationId == Some(corr)
  }

  predicate RefundReplayPc(pc: Pc, corr: string) {
    || pc.RefundLookup?
    || (pc.Done? && pc.resp.RefundFound? && pc.resp.foundRefund.correlationId == Some(corr))
    || (pc.Done? && pc.resp == Rejected(StoreFailure))
    || pc.Gone?
  }

  ghost predicate RefundReplaying(s: State, c: CallId, corr: string) {
    && c in s.calls && s.calls[c].req.RefundReq? && s.calls[c].req.refund.correlationId == corr
    && RefundReplayPc(s.calls[c].pc, corr) && NoEffect(s.sh, c) && CorrelationTaken(s.sh.db, corr)
  }

  lemma CorrelationHits(cfg: Config, sh: Shared, c: CallId, call: Call, ch: Choice)
    requires call.req.RefundReq? && call.pc.RefundLookup? && CorrelationTaken(sh.db, call.req.refund.correlationId)
    requires Trimmed(call.req.refund.correlationId) && call.req.refund.correlationId != "" && NoEffect(sh, c)
    requires RefundLookupStep(cfg, sh, c, call, ch).Some?
    ensures var n := RefundLookupStep(cfg, sh, c, call, ch).value;
      n.call.req == call.req && RefundReplayPc(n.call.pc, call.req.refund.correlationId) && NoEffect(n.sh, c)
      && n.sh.db == sh.db
  {
    TrimmedIffFixed(call.req.refund.correlationId);
  }

  lemma CorrelationStays(sh: Shared, sh': Shared, c: CallId, corr: string)
    requires Guarantee(sh, sh', c) && CorrelationTaken(sh.db, corr)
    ensures CorrelationTaken(sh'.db, corr)
  {
    var r :| r in sh.db.refunds && sh.db.refunds[r].correlationId == Some(corr);
    assert sh'.db.refunds[r].correlationId == Some(corr);
  }

  /** The call itself stays in its replay. */
  lemma RefundReplayOwn(cfg: Config, sh: Shared, c: CallId, call: Call, ch: Choice, corr: string)
    requires call.req.RefundReq? && call.req.refund.correlationId == corr && Trimmed(corr) && corr != ""
    requires CorrelationTaken(sh.db, corr)
    requires RefundReplayPc(call.pc, corr) && NoEffect(sh, c) && Step(cfg, sh, c, call, ch).Some?
    ensures var n := Step(cfg, sh, c, call, ch).value;
      n.call.req == call.req && RefundReplayPc(n.call.pc, corr) && NoEffect(n.sh, c)
  {
    if ch != Crash {
      assert call.pc.RefundLookup?;
      CorrelationHits(cfg, sh, c, call, ch);
    }
  }

  lemma RefundReplayMove(cfg: Config, s: State, l: Label, c: CallId, corr: string)
    requires StateInv(cfg, s) && RefundReplaying(s, c, corr)
    requires Move(cfg, s, l).Some? && Trimmed(corr) && corr != ""
    ensures RefundReplaying(Move(cfg, s, l).value, c, corr)
  {
    if l.Act? {
      var n := Step(cfg, s.sh, l.c, s.calls[l.c], l.ch).value;
      ActKeeps(cfg, s, l.c, l.ch);
      CorrelationStays(s.sh, n.sh, l.c, corr);
      if l.c != c {
        OthersLeave(s.sh, n.sh, l.c, c);
      } else {
        RefundReplayOwn(cfg, s.sh, c, s.calls[c], l.ch, corr);
      }
    }
  }

  /**
    A refund call that starts after a refund with its trimmed correlation id has committed returns one, and does nothing
    else.
  */
  lemma {:induction false} RefundReplay(cfg: Config, ls: seq<Label>, n: nat, early: State, late: State, c: CallId,
                                        a: RefundArgs)
    requires n < |ls| && Reaches(cfg, ls[..n], early) && Reaches(cfg, ls, late)
    requires ls[n] == Start(c, RefundReq(a)) && Trimmed(a.correlationId) && a.correlationId != ""
    requires CorrelationTaken(early.sh.db, a.correlationId)
    ensures RefundReplaying(late, c, a.correlationId)
    decreases |ls|
  {
    var m := |ls| - 1;
    var before := Run(cfg, INIT, ls[..m]).value;
    RunKeeps(cfg, ls[..m], before);
    if n == m {
    } else {
      assert ls[..m][..n] == ls[..n];
      RefundReplay(cfg, ls[..m], n, early, before, c, a);
      RefundReplayMove(cfg, before, ls[m], c, a.correlationId);
    }
  }
}
