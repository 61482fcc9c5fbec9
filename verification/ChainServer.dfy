/** A chain server whose handlers update its fields in place, as src-cpp/server
    does. Each handler is proved to compute the function on values that the rest of
    the project reasons about, and to keep the server at the bank run on its log. */
module ChainServers {
  import opened Bank
  import opened Replicas
  import opened Extension
  import opened HandOver
  import opened StepDowns

  class ChainServer {
    var balances: map<AccountId, int>
    var processed: map<Key, Entry>
    var sent: seq<Entry>
    var seqNo: nat
    var isHead: bool
    var isTail: bool
    var extending: bool
    var pre: Option<Addr>
    var succ: Option<Addr>
    var bankHeads: map<BankId, Addr>
    /** The updates applied so far. */
    ghost var log: seq<Request>

    function Value(): Replica
      reads this
    {
      Replica(balances, processed, sent, seqNo, isHead, isTail, extending, pre, succ)
    }

    ghost predicate Valid()
      reads this
    {
      Refines(Value(), log)
    }

    constructor (isHead: bool, isTail: bool, pre: Option<Addr>, succ: Option<Addr>, bankHeads: map<BankId, Addr>)
      ensures Value() == Fresh(isHead, isTail, pre, succ) && log == [] && this.bankHeads == bankHeads
      ensures Valid()
    {
      balances, processed, sent, seqNo := map[], map[], [], 0;
      this.isHead, this.isTail, extending := isHead, isTail, false;
      this.pre, this.succ, this.bankHeads := pre, succ, bankHeads;
      log := [];
    }

    // --------------------------------------------------------------- accounts

    method GetOrCreateAccount(a: AccountId) returns (isNew: bool)
      modifies this`balances
      ensures isNew == (a !in old(balances)) && balances == Open(old(balances), a)
    {
      isNew := a !in balances;
      if isNew { balances := balances[a := 0]; }
    }

    method GetBalance(a: AccountId) returns (b: int)
      modifies this`balances
      ensures balances == Open(old(balances), a) && b == Balance(old(balances), a)
    {
      b := 0;
      if a !in balances { balances := balances[a := 0]; } else { b := balances[a]; }
    }

    method UpdateBalance(r: Request) returns (outcome: Outcome)
      modifies this`balances
      ensures balances == Move(old(balances), r).0 && outcome == Move(old(balances), r).1
    {
      var _ := GetOrCreateAccount(r.account);
      if r.kind == Withdraw || r.kind == Transfer {
        if balances[r.account] < r.amount { return InsufficientFunds; }
        balances := balances[r.account := balances[r.account] - r.amount];
      } else {
        balances := balances[r.account := balances[r.account] + r.amount];
      }
      outcome := Processed;
    }

    // ------------------------------------------------------------- duplicates

    method SearchSentList(id: ReqId) returns (found: Option<Entry>)
      ensures found == FindSent(sent, id)
    {
      var i := 0;
      while i < |sent|
        invariant i <= |sent| && FindSent(sent, id) == FindSent(sent[i..], id)
      {
        if sent[i].req.id == id { return Some(sent[i]); }
        assert sent[i..][1..] == sent[i + 1..];
        i := i + 1;
      }
      found := None;
    }

    method CheckUpdateRequest(r: Request) returns (check: Check, first: Option<Entry>)
      modifies this`balances
      ensures balances == Open(old(balances), r.account)
      ensures first == Known(old(Value()), r)
      ensures check == if first == None then NewReq
                       else if r == first.value.req.(id := r.id, account := r.account) then Resend else Conflict
      ensures old(Valid()) && NamesAccount(log, r) ==> check == EntryAt(log + [r], |log|).check
    {
      hide Refines;
      if Refines(Value(), log) && NamesAccount(log, r) { UpdateReplyRefines(Value(), log, r); }
      var isNew := GetOrCreateAccount(r.account);
      if isNew { return NewReq, None; }
      if KeyOf(r) in processed {
        first := Some(processed[KeyOf(r)]);
      } else {
        first := SearchSentList(r.id);
        if first == None { return NewReq, None; }
      }
      check := if Consistent(r, first.value.req) then Resend else Conflict;
    }

    method UpdateRequestReply(r: Request, n: nat) returns (e: Entry)
      modifies this`balances
      ensures Value() == UpdateReply(old(Value()), r, n).0 && e == UpdateReply(old(Value()), r, n).1
    {
      hide Known;
      var check, first := CheckUpdateRequest(r);
      match check
      case Conflict =>
        var b := GetBalance(r.account);
        e := Entry(r, n, check, Reply(r.id, r.account, InconsistentWithHistory, b));
      case Resend =>
        e := Entry(r, n, check, first.value.reply);
      case NewReq =>
        var outcome := UpdateBalance(r);
        var b := GetBalance(r.account);
        e := Entry(r, n, check, Reply(r.id, r.account, outcome, b));
    }

    method InsertProcessedList(e: Entry)
      modifies this`processed
      ensures processed == InsertProcessed(old(processed), e)
    {
      if KeyOf(e.req) !in processed { processed := processed[KeyOf(e.req) := e]; }
    }

    // ---------------------------------------------------------------- updates

    method HandleTransfer(e: Entry) returns (out: Out)
      modifies this`processed, this`sent
      ensures Value() == Replicas.HandleTransfer(old(Value()), e).0 && out == Replicas.HandleTransfer(old(Value()), e).1
      ensures out.replies ==
              if e.reply.outcome == Processed &&
                 (e.check == NewReq || exists j :: 0 <= j < |sent| && SameIdAndAccount(sent[j].req, e.req)) then []
              else [e]
      ensures out.transfers == if e.check == NewReq && e.reply.outcome == Processed then [e] else []
    {
      out := SILENT;
      if e.check == NewReq {
        InsertProcessedList(e);
        if e.reply.outcome == Processed {
          sent := sent + [e];
          out := out.(transfers := [e]);
        }
      }
      if e.reply.outcome != Processed { return out.(replies := [e]); }
      if e.check != NewReq {
        var i, processing := 0, false;
        while i < |sent| && !processing
          invariant i <= |sent| && (!processing ==> forall j :: 0 <= j < i ==> KeyOf(sent[j].req) != KeyOf(e.req))
          invariant processing ==> InSent(sent, e.req)
          decreases |sent| - i, !processing
        {
          if sent[i].req.id == e.req.id && sent[i].req.account == e.req.account {
            processing := true;
          } else {
            i := i + 1;
          }
        }
        if !processing { out := out.(replies := [e]); }
      }
    }

    /** Head and internal servers. */
    method RelayUpdate(r: Request, n: nat) returns (out: Out)
      requires seqNo == n
      modifies this`balances, this`sent
      ensures Relay(old(Value()), r, n) == Done(Value(), out)
    {
      hide UpdateReply;
      ReplyKeepsRest(Value(), r, n, n);
      var e := UpdateRequestReply(r, n);
      sent := sent + [e];
      out := SILENT.(forwards := [e]);
    }

    /** Tail and single servers; only a tail that is not also the head acks. */
    method ConcludeUpdate(r: Request, n: nat) returns (out: Out)
      requires seqNo == n
      modifies this`balances, this`processed, this`sent
      ensures Conclude(old(Value()), r, n) == Done(Value(), out)
    {
      hide UpdateReply, InsertProcessed;
      ReplyKeepsRest(Value(), r, n, n);
      var e := UpdateRequestReply(r, n);
      if r.kind == Transfer {
        out := HandleTransfer(e);
        hide Replicas.HandleTransfer;
      } else {
        if e.check == NewReq { InsertProcessedList(e); }
        if extending { sent := sent + [e]; }
        out := SILENT.(replies := [e]);
      }
      if !isHead && sent == [] { out := out.(acks := [n]); }
    }

    /** An update request, with the number its sender gave it; `ok` is false when the gap assertion fails. */
    method ReceiveRequest(r: Request, stamp: nat) returns (ok: bool, out: Out)
      modifies this
      ensures ok <==> ReceiveUpdate(old(Value()), r, stamp).Done?
      ensures ok ==> ReceiveUpdate(old(Value()), r, stamp) == Done(Value(), out)
      ensures log == (if seqNo > old(seqNo) then old(log) + [r] else old(log)) && bankHeads == old(bankHeads)
      ensures old(Valid()) && NamesAccount(old(log), r) && (old(isHead) || stamp <= |old(log)| + 1) ==> ok && Valid()
    {
      hide Relay, Conclude, Refines;
      ghost var was, before := Value(), log;
      SequenceOf(was, before);
      ShiftNumber(was, r, was.seqNo + 1);
      if Refines(was, before) && NamesAccount(before, r) && (isHead || stamp <= |before| + 1) {
        ReceiveUpdateRefines(was, before, r, stamp);
      }
      ok, out := true, SILENT;
      if isHead && !isTail {
        seqNo := seqNo + 1;
        out := RelayUpdate(r, seqNo);
      } else if isHead && isTail {
        seqNo := seqNo + 1;
        out := ConcludeUpdate(r, seqNo);
      } else {
        if stamp <= seqNo { return; }
        if seqNo != stamp - 1 { return false, out; }
        seqNo := stamp;
        if !isHead && isTail {
          out := ConcludeUpdate(r, stamp);
        } else {
          out := RelayUpdate(r, stamp);
        }
      }
      log := log + [r];
    }

    /** `ok` is false when the server is not the tail: the assertion fails. */
    method ReceiveQuery(a: AccountId) returns (ok: bool, balance: int)
      modifies this`balances
      ensures ok <==> isTail
      ensures ok ==> Value() == HandleQuery(old(Value()), a).0 && balance == HandleQuery(old(Value()), a).1
      ensures ok ==> balances == if a in old(balances) then old(balances) else old(balances)[a := 0]
      ensures !ok ==> Value() == old(Value())
      ensures old(Valid()) ==> Valid() && (ok ==> balance == Balance(Run(log).balances, a))
    {
      hide Refines;
      ghost var was := Value();
      if Refines(was, log) {
        QueryRefines(was, log, a);
        QueryBalance(was, log, a);
      }
      ok, balance := isTail, 0;
      if ok { balance := GetBalance(a); }
    }

    // ------------------------------------------------------- acks and repair

    method ReceiveAck(k: nat) returns (out: Out)
      modifies this`processed, this`sent
      ensures Replicas.ReceiveAck(old(Value()), k) == Done(Value(), out)
      ensures old(Valid()) && !isTail ==> Valid()
    {
      ghost var was := Value();
      while sent != [] && sent[0].seqNo <= k
        invariant Acknowledge(Value(), k) == Acknowledge(was, k)
        invariant Value() == was.(processed := processed, sent := sent)
        decreases |sent|
      {
        InsertProcessedList(sent[0]);
        sent := sent[1..];
      }
      out := if isHead then SILENT else SILENT.(acks := [k]);
      hide Refines, Acknowledge;
      if Refines(was, log) && !isTail { AcknowledgeRefines(was, log, k); }
    }

    method BecomeHead()
      modifies this`isHead
      ensures Replicas.ToBeHead(old(Value())) == Done(Value(), SILENT)
      ensures old(Valid()) ==> Valid()
    {
      isHead := true;
    }

    method BecomeTail() returns (out: Out)
      modifies this`isTail, this`processed, this`sent
      ensures Replicas.ToBeTail(old(Value())) == Done(Value(), out)
      ensures old(Valid()) && (forall r :: r in log ==> r.kind != Transfer) ==> Valid() && sent == []
    {
      hide Refines, Promote, TransfersOf, InsertProcessed;
      ghost var was := Value();
      isTail := true;
      var i := 0;
      while i < |sent|
        invariant i <= |sent| && isTail
        invariant TransfersOf(was.sent) == sent[..i] + TransfersOf(sent[i..])
        invariant Promote(was.processed, was.sent) == Promote(processed, sent[i..])
        decreases |sent| - i
      {
        PromoteFrom(processed, sent, i);
        if sent[i].req.kind != Transfer {
          InsertProcessedList(sent[i]);
          EraseFacts(sent, i);
          sent := sent[..i] + sent[i + 1..];
        } else {
          EraseFacts(sent, i);
          i := i + 1;
        }
      }
      PromoteFrom(processed, sent, i);
      out := if sent != [] then SILENT.(transfers := sent) else if isHead then SILENT else SILENT.(acks := [seqNo]);
      if Refines(was, log) && (forall r :: r in log ==> r.kind != Transfer) { ToBeTailRefines(was, log); }
    }

    /** S+ answers the master with its sequence number. */
    method ReceiveNewPreServer(p: Addr) returns (n: nat)
      modifies this`pre
      ensures NewPreServer(old(Value()), p) == Done(Value(), SILENT) && n == seqNo
      ensures old(Valid()) ==> Valid() && n == |log|
    {
      pre := Some(p);
      n := seqNo;
    }

    /** S- sends again what S+ lacks. */
    method ReceiveNewSuccServer(x: Addr, n: nat) returns (out: Out)
      modifies this`succ
      ensures NewSuccServer(old(Value()), x, n) == Done(Value(), out)
      ensures old(Valid()) ==> Valid()
      ensures old(Valid()) && !isTail && Acked(Value()) <= n <= |log| ==>
                |out.forwards| == |log| - n && EndsWith(log, out.forwards)
    {
      hide Refines, Above, Run, EntryAt, EndsWith, Acked;
      ghost var was := Value();
      succ := Some(x);
      out := SILENT;
      var i := 0;
      while i < |sent|
        invariant i <= |sent| && out == SILENT.(forwards := out.forwards) && Value() == was.(succ := Some(x))
        invariant Above(sent, n) == out.forwards + Above(sent[i..], n)
      {
        AboveFrom(sent, n, i);
        if sent[i].seqNo > n { out := out.(forwards := out.forwards + [sent[i]]); }
        i := i + 1;
      }
      AboveFrom(sent, n, i);
      LinkRefines(was, log, x, n);
    }

    // --------------------------------------------------------------- transfers

    /** The destination bank's reply; `ok` is false when it does not say that the transfer was processed. */
    method ReceiveTransferReply(reply: Reply) returns (ok: bool, out: Out)
      modifies this`sent
      ensures ok <==> reply.outcome == Processed
      ensures ok ==> TransferReply(old(Value()), reply.id, reply.account) == Done(Value(), out)
      ensures !ok ==> Value() == old(Value())
    {
      hide Answered, Unanswered;
      out := SILENT;
      if reply.outcome != Processed { return false, out; }
      ok := true;
      var id, a, i := reply.id, reply.account, 0;
      ghost var was := sent;
      while i < |sent|
        invariant i <= |sent|
        invariant Answered(was, id, a) == out.replies + Answered(sent[i..], id, a)
        invariant Unanswered(was, id, a) == sent[..i] + Unanswered(sent[i..], id, a)
        invariant out == SILENT.(replies := out.replies, acks := if out.replies != [] && sent == [] &&
                  !isHead then [seqNo] else [])
        decreases |sent| - i
      {
        AnsweredFrom(sent, id, a, i);
        if sent[i].req.id == id && sent[i].req.destAccount == a {
          out := out.(replies := out.replies + [sent[i]]);
          EraseFacts(sent, i);
          sent := sent[..i] + sent[i + 1..];
          if sent == [] && !isHead { out := out.(acks := [seqNo]); }
        } else {
          EraseFacts(sent, i);
          i := i + 1;
        }
      }
      AnsweredFrom(sent, id, a, i);
    }

    /** Another bank has a new head; `ok` is false when an assertion fails. */
    method ReceiveNewHead(bank: BankId, head: Addr) returns (ok: bool, out: Out)
      modifies this`bankHeads
      ensures ok <==> bank in old(bankHeads) && HandleNewHead(Value(), bank).Done?
      ensures ok ==> bankHeads == old(bankHeads)[bank := head] && HandleNewHead(Value(), bank) == Done(Value(), out)
    {
      out := SILENT;
      if bank !in bankHeads { return false, out; }
      bankHeads := bankHeads[bank := head];
      if isTail {
        var i := 0;
        while i < |sent|
          invariant i <= |sent| && out == SILENT.(transfers := out.transfers)
          invariant forall j :: 0 <= j < i ==> IsTransfer(sent[j])
          invariant ToBank(sent, bank) == out.transfers + ToBank(sent[i..], bank)
        {
          if sent[i].req.kind != Transfer { return false, out; }
          assert sent[i..][1..] == sent[i + 1..];
          if sent[i].req.destBank == bank { out := out.(transfers := out.transfers + [sent[i]]); }
          i := i + 1;
        }
      }
      ok := true;
    }

    // --------------------------------------------------------------- extension

    method OrderExtension(joiner: Addr) returns (ok: bool)
      modifies this`extending, this`succ
      ensures ok <==> sent == []
      ensures ok ==> ReceiveExtendServer(old(Value()), joiner) == Done(Value(), SILENT)
      ensures ok && old(Valid()) ==> Valid()
    {
      if sent != [] { return false; }
      extending, succ := true, Some(joiner);
      ok := true;
    }

    /** The snapshot, in the order the two maps happen to be walked. */
    method SendSnapshot(self: Addr) returns (ms: seq<ExtendMsg>)
      ensures IsSnapshot(Cpp, Value(), self, ms)
    {
      ghost var accounts: seq<AccountId>, keys: seq<Key> := [], [];
      var accountMsgs, historyMsgs := [], [];
      var left := balances.Keys;
      while left != {}
        invariant left <= balances.Keys && Enumerates(accounts, balances.Keys - left)
        invariant accountMsgs == AccountMsgs(accounts, balances)
        decreases left
      {
        var a :| a in left;
        AccountMsgsSnoc(accounts, a, balances);
        EnumeratesSnoc(accounts, a, balances.Keys - left);
        assert balances.Keys - (left - {a}) == (balances.Keys - left) + {a};
        accountMsgs := accountMsgs + [AccountMsg(a, balances[a])];
        accounts, left := accounts + [a], left - {a};
      }
      var keysLeft := processed.Keys;
      while keysLeft != {}
        invariant keysLeft <= processed.Keys && Enumerates(keys, processed.Keys - keysLeft)
        invariant historyMsgs == HistoryMsgs(keys, processed)
        decreases keysLeft
      {
        var k :| k in keysLeft;
        HistoryMsgsSnoc(keys, k, processed);
        EnumeratesSnoc(keys, k, processed.Keys - keysLeft);
        assert processed.Keys - (keysLeft - {k}) == (processed.Keys - keysLeft) + {k};
        historyMsgs := historyMsgs + [HistoryMsg(processed[k])];
        keys, keysLeft := keys + [k], keysLeft - {k};
      }
      assert balances.Keys - left == balances.Keys && processed.Keys - keysLeft == processed.Keys;
      ms := [Start(self)] + (accountMsgs + historyMsgs);
    }

    /** Under the lock: the sent list, the final message, and no longer tail. */
    method SendSentList() returns (ms: seq<ExtendMsg>)
      modifies this`isTail, this`extending
      ensures ms == FinalMsgs(Cpp, sent) && Value() == StepDown(Cpp, old(Value())) && !isTail && !extending
    {
      ms := [];
      var i := 0;
      while i < |sent|
        invariant i <= |sent| && SentMsgs(sent) == ms + SentMsgs(sent[i..])
      {
        assert sent[i..][1..] == sent[i + 1..];
        ms := ms + [SentMsg(sent[i])];
        i := i + 1;
      }
      ms := ms + [Fin];
      extending, isTail := false, false;
    }

    /** A message of src-cpp's hand-over; `ok` is false when the account exists already. */
    method ReceiveExtendMsg(msg: ExtendMsg) returns (ok: bool)
      requires msg.Start? || msg.AccountMsg? || msg.HistoryMsg? || msg.SentMsg? || msg.Fin?
      modifies this
      ensures ok <==> ReceiveExtend(old(Value()), msg).Some?
      ensures ok ==> ReceiveExtend(old(Value()), msg) == Some(Value())
      ensures ok <==> !(msg.AccountMsg? && msg.account in old(balances))
      ensures ok && !msg.Start? ==>
                forall k :: k in old(processed) ==> k in processed && processed[k] == old(processed[k])
      ensures bankHeads == old(bankHeads)
    {
      hide UpdateReply;
      ok := true;
      match msg
      case Start(p) =>
        processed, balances, seqNo, pre := map[], map[], 0, Some(p);
      case AccountMsg(a, b) =>
        if a in balances { return false; }
        balances := balances[a := b];
      case HistoryMsg(e) =>
        if e.seqNo > seqNo { seqNo := e.seqNo; }
        InsertProcessedList(e);
      case SentMsg(e) =>
        if e.seqNo > seqNo { seqNo := e.seqNo; }
        ReplyKeepsRest(Value(), e.req, e.seqNo, seqNo);
        var e1 := UpdateRequestReply(e.req, e.seqNo);
        if e1.check == NewReq { InsertProcessedList(e1); }
      case Fin =>
        isTail := true;
    }

    /** The joining server failed. */
    method ExtendFailed()
      modifies this`extending, this`sent, this`isTail
      ensures Value() == ExtendingServerFail(old(Value()))
      ensures old((Valid() && isTail) || IsAhead(Value(), log)) ==>
                (Valid() <==> forall e :: e in old(sent) ==> KeyOf(e.req) in processed)
    {
      ghost var was := Value();
      hide Refines;
      if (Refines(was, log) && isTail) || IsAhead(was, log) { FailKeepsExactly(was, log); }
      extending, sent, isTail := false, [], true;
    }
  }

  // ---------------------------------------------------------------- auxiliary

  /** What remains of a promotion from index `i` on. */
  lemma {:induction false} PromoteFrom(p: map<Key, Entry>, es: seq<Entry>, i: nat)
    requires i <= |es|
    ensures i == |es| ==> Promote(p, es[i..]) == p && TransfersOf(es[i..]) == []
    ensures i < |es| && IsTransfer(es[i]) ==>
              Promote(p, es[i..]) == Promote(p, es[i + 1..]) &&
              TransfersOf(es[i..]) == [es[i]] + TransfersOf(es[i + 1..])
    ensures i < |es| && !IsTransfer(es[i]) ==>
              Promote(p, es[i..]) == Promote(InsertProcessed(p, es[i]), es[i + 1..]) &&
              TransfersOf(es[i..]) == TransfersOf(es[i + 1..])
  {
    hide InsertProcessed;
    if i < |es| { EraseFacts(es, i); }
  }

  /** What remains of a bank's reply to answer from index `i` on. */
  lemma {:induction false} AnsweredFrom(es: seq<Entry>, id: ReqId, a: AccountId, i: nat)
    requires i <= |es|
    ensures i == |es| ==> Answered(es[i..], id, a) == [] && Unanswered(es[i..], id, a) == []
    ensures i < |es| && Answers(es[i], id, a) ==>
              Answered(es[i..], id, a) == [es[i]] + Answered(es[i + 1..], id, a) &&
              Unanswered(es[i..], id, a) == Unanswered(es[i + 1..], id, a)
    ensures i < |es| && !Answers(es[i], id, a) ==>
              Answered(es[i..], id, a) == Answered(es[i + 1..], id, a) &&
              Unanswered(es[i..], id, a) == [es[i]] + Unanswered(es[i + 1..], id, a)
  {
    if i < |es| { EraseFacts(es, i); }
  }

  /** Erasing element `i`, or stepping over it, leaves the same elements to look at. */
  lemma {:induction false} EraseFacts(es: seq<Entry>, i: nat)
    requires i < |es|
    ensures es[i..][0] == es[i] && es[i..][1..] == es[i + 1..] && es[..i + 1] == es[..i] + [es[i]]
    ensures var es' := es[..i] + es[i + 1..]; es'[..i] == es[..i] && es'[i..] == es[i + 1..]
  {
  }

  lemma {:induction false} ReplyKeepsRest(s: Replica, r: Request, n: nat, m: nat)
    ensures UpdateReply(s, r, n).0 == s.(balances := UpdateReply(s, r, n).0.balances)
    ensures UpdateReply(s.(seqNo := m), r, n).0 == UpdateReply(s, r, n).0.(seqNo := m)
    ensures UpdateReply(s.(seqNo := m), r, n).1 == UpdateReply(s, r, n).1
  {
    hide Move;
  }

  /** A server may take the new number before it handles the update. */
  lemma {:induction false} ShiftNumber(s: Replica, r: Request, n: nat)
    ensures Relay(s.(seqNo := n), r, n) == Relay(s, r, n)
    ensures Conclude(s.(seqNo := n), r, n) == Conclude(s, r, n)
  {
    hide UpdateReply, InsertProcessed;
    ReplyKeepsRest(s, r, n, n);
  }

  lemma {:induction false} AboveFrom(es: seq<Entry>, n: nat, i: nat)
    requires i <= |es|
    ensures Above(es[i..], n) ==
            if i == |es| then [] else (if es[i].seqNo > n then [es[i]] else []) + Above(es[i + 1..], n)
  {
    if i < |es| { EraseFacts(es, i); }
  }

  /** A new link leaves the books alone; what S+ lacks, S- has in its sent list. */
  lemma {:induction false} LinkRefines(s: Replica, log: seq<Request>, x: Addr, n: nat)
    ensures var t := s.(succ := Some(x)); Acked(t) == Acked(s) && (Refines(s, log) ==> Refines(t, log))
    ensures Refines(s, log) && !s.isTail && Acked(s) <= n <= |log| ==>
              |Above(s.sent, n)| == |log| - n && EndsWith(log, Above(s.sent, n))
  {
    hide Run, EntryAt, Above;
    if Refines(s, log) && !s.isTail && Acked(s) <= n <= |log| { AboveIsRun(log, s.sent, n); }
  }

  lemma {:induction false} SequenceOf(s: Replica, log: seq<Request>)
    ensures Refines(s, log) ==> s.seqNo == |log|
  {
  }

  lemma {:induction false} QueryBalance(s: Replica, log: seq<Request>, a: AccountId)
    requires Refines(s, log)
    ensures HandleQuery(s, a).1 == Balance(Run(log).balances, a)
  {
    hide Run;
  }

  lemma {:induction false} EnumeratesSnoc<T(!new)>(xs: seq<T>, x: T, all: set<T>)
    requires Enumerates(xs, all) && x !in all
    ensures Enumerates(xs + [x], all + {x})
  {
    assert forall i :: 0 <= i < |xs| ==> xs[i] in all;
  }

  lemma {:induction false} AccountMsgsSnoc(accounts: seq<AccountId>, a: AccountId, m: map<AccountId, int>)
    ensures AccountMsgs(accounts + [a], m) == AccountMsgs(accounts, m) + [AccountMsg(a, Balance(m, a))]
    decreases |accounts|
  {
    if accounts != [] {
      assert (accounts + [a])[1..] == accounts[1..] + [a];
      AccountMsgsSnoc(accounts[1..], a, m);
    }
  }

  lemma {:induction false} HistoryMsgsSnoc(keys: seq<Key>, k: Key, h: map<Key, Entry>)
    requires k in h && forall j :: j in keys ==> j in h
    ensures HistoryMsgs(keys + [k], h) == HistoryMsgs(keys, h) + [HistoryMsg(h[k])]
    decreases |keys|
  {
    if keys != [] {
      assert (keys + [k])[1..] == keys[1..] + [k];
      HistoryMsgsSnoc(keys[1..], k, h);
    }
  }
}
