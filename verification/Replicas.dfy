/** What each handler of a chain server does to the server's state and what it
    sends, as functions on values. The class `ChainServer` is proved to compute
    these functions; the chain is built from them. The predicate `Refines` ties
    a server's state to the log it has applied. */
module Replicas {
  import opened Bank

  type Addr = nat

  /** The fields of a chain server. `processed` is keyed by request id and
      account; `sent` is in arrival order. */
  datatype Replica = Replica(
    balances: map<AccountId, int>, processed: map<Key, Entry>, sent: seq<Entry>, seqNo: nat,
    isHead: bool, isTail: bool, extending: bool, pre: Option<Addr>, succ: Option<Addr>)

  /** What one handler sends: requests to the successor, acks to the
      predecessor, replies to clients, transfers to another bank's head. */
  datatype Out = Out(forwards: seq<Entry>, acks: seq<nat>, replies: seq<Entry>, transfers: seq<Entry>)

  const SILENT := Out([], [], [], [])

  /** `Abort` is a failed assertion. */
  datatype Step = Abort | Done(rep: Replica, out: Out)

  function Fresh(isHead: bool, isTail: bool, pre: Option<Addr>, succ: Option<Addr>): Replica {
    Replica(map[], map[], [], 0, isHead, isTail, false, pre, succ)
  }

  // ------------------------------------------------------------- duplicates

  /** The first entry of the sent list with this request id; accounts are not compared. */
  function FindSent(sent: seq<Entry>, id: ReqId): Option<Entry> {
    if sent == [] then None
    else if sent[0].req.id == id then Some(sent[0])
    else FindSent(sent[1..], id)
  }

  /** The two-level lookup: processed map first, then sent list. */
  function Lookup(s: Replica, r: Request): Option<Entry> {
    if KeyOf(r) in s.processed then Some(s.processed[KeyOf(r)]) else FindSent(s.sent, r.id)
  }

  /** The earlier request under `r`'s id, if any. An account that is only now
      created cannot have a history. */
  function Known(s: Replica, r: Request): Option<Entry> {
    if r.account in s.balances then Lookup(s, r) else None
  }

  function Open(m: map<AccountId, int>, a: AccountId): map<AccountId, int> {
    if a in m then m else m[a := 0]
  }

  /** Judges `r`, moves its money if it is new, and builds its record. */
  function UpdateReply(s: Replica, r: Request, n: nat): (Replica, Entry) {
    var m := Open(s.balances, r.account);
    match Known(s, r)
    case None =>
      var (m', outcome) := Move(m, r);
      (s.(balances := m'), Entry(r, n, NewReq, Reply(r.id, r.account, outcome, m'[r.account])))
    case Some(first) =>
      if Consistent(r, first.req) then (s.(balances := m), Entry(r, n, Resend, first.reply))
      else (s.(balances := m),
            Entry(r, n, Conflict, Reply(r.id, r.account, InconsistentWithHistory, m[r.account])))
  }

  function InsertProcessed(p: map<Key, Entry>, e: Entry): map<Key, Entry> {
    if KeyOf(e.req) in p then p else p[KeyOf(e.req) := e]
  }

  // ---------------------------------------------------------------- updates

  /** Head and internal servers: apply, remember in the sent list, pass on. */
  function Relay(s: Replica, r: Request, n: nat): Step {
    var (s1, e) := UpdateReply(s, r, n);
    Done(s1.(seqNo := n, sent := s1.sent + [e]), SILENT.(forwards := [e]))
  }

  predicate InSent(sent: seq<Entry>, r: Request) {
    exists i :: 0 <= i < |sent| && KeyOf(sent[i].req) == KeyOf(r)
  }

  /** A transfer at the tail. A new successful one stays in the sent list, unanswered,
      until the destination bank replies; a resend is answered unless still pending. */
  function HandleTransfer(s: Replica, e: Entry): (Replica, Out) {
    var isNew := e.check == NewReq;
    var ok := e.reply.outcome == Processed;
    var s1 := if isNew then s.(processed := InsertProcessed(s.processed, e)) else s;
    if isNew && ok then (s1.(sent := s1.sent + [e]), SILENT.(transfers := [e]))
    else if !ok || !InSent(s1.sent, e.req) then (s1, SILENT.(replies := [e]))
    else (s1, SILENT)
  }

  /** Tail and single servers: apply, record as processed, answer the client. */
  function Conclude(s: Replica, r: Request, n: nat): Step {
    var (s0, e) := UpdateReply(s, r, n);
    var s1 := s0.(seqNo := n);
    var (s2, out) :=
      if r.kind == Transfer then HandleTransfer(s1, e)
      else (s1.(processed := if e.check == NewReq then InsertProcessed(s1.processed, e) else s1.processed,
                sent := if s1.extending then s1.sent + [e] else s1.sent),
            SILENT.(replies := [e]));
    // a pending transfer holds the ack back
    Done(s2, if !s2.isHead && s2.sent == [] then out.(acks := [n]) else out)
  }

  /** An update request arrives; `stamp` is the sequence number it carries. */
  function ReceiveUpdate(s: Replica, r: Request, stamp: nat): Step {
    if s.isHead then
      if s.isTail then Conclude(s, r, s.seqNo + 1) else Relay(s, r, s.seqNo + 1)
    else if stamp <= s.seqNo then Done(s, SILENT)
    else if stamp != s.seqNo + 1 then Abort
    else if s.isTail then Conclude(s, r, stamp) else Relay(s, r, stamp)
  }

  function HandleQuery(s: Replica, a: AccountId): (Replica, int) {
    (s.(balances := Open(s.balances, a)), Balance(s.balances, a))
  }

  // ------------------------------------------------------- acks and repair

  /** Moves entries up to number `k` from the sent list to the processed map. */
  function Acknowledge(s: Replica, k: nat): Replica
    decreases |s.sent|
  {
    if s.sent != [] && s.sent[0].seqNo <= k then
      Acknowledge(s.(processed := InsertProcessed(s.processed, s.sent[0]), sent := s.sent[1..]), k)
    else s
  }

  function ReceiveAck(s: Replica, k: nat): Step {
    Done(Acknowledge(s, k), if s.isHead then SILENT else SILENT.(acks := [k]))
  }

  function ToBeHead(s: Replica): Step { Done(s.(isHead := true), SILENT) }

  predicate IsTransfer(e: Entry) { e.req.kind == Transfer }

  /** All but the transfers of `es`, inserted into the processed map. */
  function Promote(p: map<Key, Entry>, es: seq<Entry>): map<Key, Entry>
    decreases |es|
  {
    if es == [] then p
    else Promote(if IsTransfer(es[0]) then p else InsertProcessed(p, es[0]), es[1..])
  }

  function TransfersOf(es: seq<Entry>): seq<Entry> {
    if es == [] then []
    else if IsTransfer(es[0]) then [es[0]] + TransfersOf(es[1..]) else TransfersOf(es[1..])
  }

  /** The new tail takes its sent list as processed, except for transfers, which it forwards again. */
  function ToBeTail(s: Replica): Step {
    var left := TransfersOf(s.sent);
    Done(s.(isTail := true, processed := Promote(s.processed, s.sent), sent := left),
         if left != [] then SILENT.(transfers := left)
         else if s.isHead then SILENT else SILENT.(acks := [s.seqNo]))
  }

  /** The entries S- sends again to S+: those above the number S+ reported. */
  function Above(es: seq<Entry>, n: nat): seq<Entry> {
    if es == [] then []
    else if es[0].seqNo > n then [es[0]] + Above(es[1..], n) else Above(es[1..], n)
  }

  function NewPreServer(s: Replica, pre: Addr): Step { Done(s.(pre := Some(pre)), SILENT) }

  function NewSuccServer(s: Replica, succ: Addr, n: nat): Step {
    Done(s.(succ := Some(succ)), SILENT.(forwards := Above(s.sent, n)))
  }

  // --------------------------------------------------------------- transfers

  predicate Answers(e: Entry, id: ReqId, account: AccountId) {
    e.req.id == id && e.req.destAccount == account
  }

  function Answered(es: seq<Entry>, id: ReqId, account: AccountId): seq<Entry> {
    if es == [] then []
    else if Answers(es[0], id, account) then [es[0]] + Answered(es[1..], id, account)
    else Answered(es[1..], id, account)
  }

  function Unanswered(es: seq<Entry>, id: ReqId, account: AccountId): seq<Entry> {
    if es == [] then []
    else if Answers(es[0], id, account) then Unanswered(es[1..], id, account)
    else [es[0]] + Unanswered(es[1..], id, account)
  }

  /** The destination bank answered: reply to the client, and ack once nothing is pending. */
  function TransferReply(s: Replica, id: ReqId, account: AccountId): Step {
    var hits := Answered(s.sent, id, account);
    var left := Unanswered(s.sent, id, account);
    Done(s.(sent := left),
         SILENT.(replies := hits,
                 acks := if hits != [] && left == [] && !s.isHead then [s.seqNo] else []))
  }

  function ToBank(es: seq<Entry>, bank: BankId): seq<Entry> {
    if es == [] then []
    else (if es[0].req.destBank == bank then [es[0]] else []) + ToBank(es[1..], bank)
  }

  /** A bank has a new head: the tail forwards every transfer to that bank again. Its sent list must hold nothing
      else. */
  function HandleNewHead(s: Replica, bank: BankId): Step {
    if !s.isTail then Done(s, SILENT)
    else if exists i :: 0 <= i < |s.sent| && !IsTransfer(s.sent[i]) then Abort
    else Done(s, SILENT.(transfers := ToBank(s.sent, bank)))
  }

  /** The request the destination bank receives for a transfer. */
  function Outgoing(r: Request): Request {
    Request(r.id, TransferTo, r.destAccount, r.destBank, r.amount, 0, 0)
  }

  // ------------------------------------------------------------- refinement

  /** How much of the log is in the processed map. */
  function Acked(s: Replica): nat {
    if s.isTail || |s.sent| > s.seqNo then s.seqNo else s.seqNo - |s.sent|
  }

  /** `sent` is the run of records that ends with the last log entry. */
  ghost predicate EndsWith(log: seq<Request>, sent: seq<Entry>) {
    |sent| <= |log| &&
    forall i :: 0 <= i < |sent| ==> sent[i] == EntryAt(log, |log| - |sent| + i)
  }

  predicate PendingTransfer(e: Entry) { IsTransfer(e) && Effective(e) }

  /** The server has applied exactly `log`: its balances and its history are
      those of the bank run on it, its history split at `Acked` between
      processed map and sent list. */
  ghost predicate Refines(s: Replica, log: seq<Request>) {
    && s.seqNo == |log|
    && (forall r :: r in log ==> r.account in s.balances)
    && (forall a :: Balance(s.balances, a) == Balance(Run(log).balances, a))
    && s.processed == Run(log[..Acked(s)]).history
    && (if s.isTail then
          forall e :: e in s.sent ==> IsEntry(log, e) && (s.extending || PendingTransfer(e))
        else EndsWith(log, s.sent))
  }

  /** Every request with `r`'s id names `r`'s account. */
  ghost predicate NamesAccount(log: seq<Request>, r: Request) {
    forall q :: q in log && q.id == r.id ==> q.account == r.account
  }

  /** The record of the first log entry with `r`'s key. */
  ghost function FirstRecord(log: seq<Request>, r: Request): Option<Entry> {
    if HasKey(log, KeyOf(r)) then Some(EntryAt(log, FirstIndex(log, KeyOf(r)))) else None
  }

  /** The first sent entry with `r`'s id, if there is one, names `r`'s account. */
  predicate FindsAccount(sent: seq<Entry>, r: Request) {
    forall m :: 0 <= m < |sent| && sent[m].req.id == r.id && (forall j :: 0 <= j < m ==> sent[j].req.id != r.id) ==>
      sent[m].req.account == r.account
  }

  lemma {:induction false} FindSentIsFirst(sent: seq<Entry>, id: ReqId)
    ensures FindSent(sent, id) == None ==> forall e :: e in sent ==> e.req.id != id
    ensures FindSent(sent, id).Some? ==>
              exists m :: 0 <= m < |sent| && sent[m] == FindSent(sent, id).value && sent[m].req.id == id &&
                          forall j :: 0 <= j < m ==> sent[j].req.id != id
  {
    if sent != [] && sent[0].req.id != id {
      FindSentIsFirst(sent[1..], id);
      match FindSent(sent[1..], id)
      case None =>
      case Some(e) =>
        var m :| 0 <= m < |sent[1..]| && sent[1..][m] == e && e.req.id == id &&
                 forall j :: 0 <= j < m ==> sent[1..][j].req.id != id;
        assert sent[m + 1] == e;
        forall j | 0 <= j < m + 1 ensures sent[j].req.id != id {
          if j > 0 { assert sent[j] == sent[1..][j - 1]; }
        }
    }
  }

  /** First occurrences are the same in a log and in a prefix that has the key. */
  lemma {:induction false} FirstInPrefix(log: seq<Request>, n: nat, k: Key)
    requires n <= |log| && HasKey(log[..n], k)
    ensures HasKey(log, k) && FirstIndex(log, k) == FirstIndex(log[..n], k)
    ensures EntryAt(log, FirstIndex(log, k)) == EntryAt(log[..n], FirstIndex(log[..n], k))
  {
    var p := log[..n];
    var i := FirstIndex(p, k);
    assert log[i] == p[i] && forall j :: 0 <= j < i ==> log[j] == p[j];
    assert KeyOf(log[i]) == k;
    var f := FirstIndex(log, k);
    assert f == i;
    EntryAtPrefix(p, log, i);
  }

  lemma {:induction false} SentFields(log: seq<Request>, sent: seq<Entry>)
    requires EndsWith(log, sent)
    ensures forall i {:trigger sent[i]} :: 0 <= i < |sent| ==>
              sent[i].req == log[|log| - |sent| + i] && sent[i].seqNo == |log| - |sent| + i + 1
  {
    hide Run, Serve;
    forall i {:trigger sent[i]} | 0 <= i < |sent|
      ensures sent[i].req == log[|log| - |sent| + i] && sent[i].seqNo == |log| - |sent| + i + 1
    {
      EntryFields(log, |log| - |sent| + i);
    }
  }

  lemma {:induction false} FindsAccountIs(sent: seq<Entry>, r: Request)
    ensures FindsAccount(sent, r) <==>
            (FindSent(sent, r.id).Some? ==> FindSent(sent, r.id).value.req.account == r.account)
  {
    FindSentIsFirst(sent, r.id);
  }

  /** A key that is absent from the processed part is found, if at all, in the run that ends the log. */
  lemma {:induction false} FirstInSent(log: seq<Request>, sent: seq<Entry>, r: Request)
    requires EndsWith(log, sent) && !HasKey(log[..|log| - |sent|], KeyOf(r))
    ensures FindSent(sent, r.id) == FirstRecord(log, r) <==> FindsAccount(sent, r)
  {
    hide Run, EntryAt, Serve, FindsAccount, FindSent;
    var k, a, found := KeyOf(r), |log| - |sent|, FindSent(sent, r.id);
    FindSentIsFirst(sent, r.id);
    FindsAccountIs(sent, r);
    SentFields(log, sent);
    forall j | 0 <= j < a ensures KeyOf(log[j]) != k { assert log[j] == log[..a][j]; }
    if found.Some? {
      var m :| 0 <= m < |sent| && sent[m] == found.value && sent[m].req.id == r.id &&
               forall j :: 0 <= j < m ==> sent[j].req.id != r.id;
      if found.value.req.account == r.account {
        forall j | 0 <= j < a + m ensures KeyOf(log[j]) != k {
          if j >= a { assert sent[j - a].req == log[j]; }
        }
        FirstAt(log, k, a + m);
      } else if HasKey(log, k) {
        EntryFields(log, FirstIndex(log, k));
      }
    } else {
      forall j | 0 <= j < |log| ensures KeyOf(log[j]) != k {
        if j >= a { assert sent[j - a] in sent; }
      }
    }
  }

  /** The two-level lookup finds the record of the first log entry with that
      id and account, exactly when what it meets in the sent list names the same account. */
  lemma {:induction false} LookupExactly(s: Replica, log: seq<Request>, r: Request)
    requires Refines(s, log)
    ensures Lookup(s, r) == FirstRecord(log, r) <==> (KeyOf(r) in s.processed || FindsAccount(s.sent, r))
    ensures Known(s, r) == FirstRecord(log, r) <==>
              (r.account !in s.balances || KeyOf(r) in s.processed || FindsAccount(s.sent, r))
  {
    if HasKey(log, KeyOf(r)) { assert log[FirstIndex(log, KeyOf(r))] in log; }
    var k, a := KeyOf(r), Acked(s);
    HistoryIsFirsts(log[..a], k);
    hide Run, Serve;
    if HasKey(log[..a], k) {
      FirstInPrefix(log, a, k);
    } else if s.isTail {
      assert log[..a] == log;
      FindSentIsFirst(s.sent, r.id);
      if FindSent(s.sent, r.id).Some? {
        var e := FindSent(s.sent, r.id).value;
        assert e in s.sent;
        assert KeyOf(log[e.seqNo - 1]) == KeyOf(e.req);
      }
    } else {
      FirstInSent(log, s.sent, r);
    }
  }

  /** With one account per request id, the lookup is always right. */
  lemma {:induction false} TwoLevelLookup(s: Replica, log: seq<Request>, r: Request)
    requires Refines(s, log) && NamesAccount(log, r)
    ensures Lookup(s, r) == FirstRecord(log, r)
  {
    hide Run, Serve, EntryAt;
    LookupExactly(s, log, r);
    FindSentIsFirst(s.sent, r.id);
    if FindSent(s.sent, r.id).Some? {
      var m :| 0 <= m < |s.sent| && s.sent[m] == FindSent(s.sent, r.id).value && s.sent[m].req.id == r.id;
      SentInLog(s, log, m);
    }
  }

  lemma {:induction false} SentInLog(s: Replica, log: seq<Request>, m: nat)
    requires Refines(s, log) && m < |s.sent|
    ensures s.sent[m].req in log && IsEntry(log, s.sent[m])
  {
    hide Run, Serve;
    if s.isTail {
      assert s.sent[m] in s.sent;
      EntryFields(log, s.sent[m].seqNo - 1);
    } else {
      EntryFields(log, |log| - |s.sent| + m);
    }
  }

  lemma {:induction false} UpdateReplyServes(s: Replica, b: Ledger, r: Request, n: nat)
    requires forall a :: Balance(s.balances, a) == Balance(b.balances, a)
    requires Known(s, r) == if KeyOf(r) in b.history then Some(b.history[KeyOf(r)]) else None
    ensures var (s1, e) := UpdateReply(s, r, n);
            e == Serve(b, r, n).1 && s1 == s.(balances := s1.balances) &&
            s1.balances.Keys == s.balances.Keys + {r.account} &&
            forall a :: Balance(s1.balances, a) == Balance(Serve(b, r, n).0.balances, a)
  {
    var (s1, e) := UpdateReply(s, r, n);
    assert Balance(s.balances, r.account) == Balance(b.balances, r.account);
    forall a ensures Balance(s1.balances, a) == Balance(Serve(b, r, n).0.balances, a) {
      assert Balance(s.balances, a) == Balance(b.balances, a);
    }
  }

  /** The server judges and answers `r` as the bank run on its log does. */
  lemma {:induction false} UpdateReplyRefines(s: Replica, log: seq<Request>, r: Request)
    requires Refines(s, log) && NamesAccount(log, r)
    ensures var (s1, e) := UpdateReply(s, r, |log| + 1);
            e == EntryAt(log + [r], |log|) &&
            s1 == s.(balances := s1.balances) &&
            (forall q :: q in log + [r] ==> q.account in s1.balances) &&
            forall a :: Balance(s1.balances, a) == Balance(Run(log + [r]).balances, a)
  {
    RunSnoc(log, r);
    hide Run, EntryAt, Serve;
    HistoryIsFirsts(log, KeyOf(r));
    TwoLevelLookup(s, log, r);
    if HasKey(log, KeyOf(r)) {
      assert log[FirstIndex(log, KeyOf(r))] in log;
    }
    UpdateReplyServes(s, Run(log), r, |log| + 1);
    hide UpdateReply;
  }

  lemma {:induction false} InsertIsServe(log: seq<Request>, i: nat)
    requires i < |log|
    ensures InsertProcessed(Run(log[..i]).history, EntryAt(log, i)) == Run(log[..i + 1]).history
    ensures EntryAt(log, i).check != NewReq ==> Run(log[..i]).history == Run(log[..i + 1]).history
  {
    RunStep(log, i);
  }

  /** What the server may send on accepting the last entry of `log`. */
  ghost predicate SendsFor(s: Replica, log: seq<Request>, out: Out)
    requires log != []
  {
    && out.forwards == (if s.isTail then [] else [EntryAt(log, |log| - 1)])
    && (out.acks == [] || (out.acks == [|log|] && s.isTail && s.sent == []))
    && (!s.isTail ==> out.replies == [] && out.transfers == [])
    && (forall e :: e in out.replies ==> IsEntry(log, e))
    && (forall e :: e in out.transfers ==> IsEntry(log, e) && PendingTransfer(e))
  }

  predicate SameRole(s: Replica, t: Replica) {
    s.isHead == t.isHead && s.isTail == t.isTail && s.extending == t.extending &&
    s.pre == t.pre && s.succ == t.succ
  }

  lemma {:induction false} EndsWithSnoc(log: seq<Request>, sent: seq<Entry>, r: Request)
    requires EndsWith(log, sent)
    ensures EndsWith(log + [r], sent + [EntryAt(log + [r], |log|)])
  {
    hide Run, Serve, EntryAt;
    var log' := log + [r];
    var sent' := sent + [EntryAt(log', |log|)];
    forall i | 0 <= i < |sent'| ensures sent'[i] == EntryAt(log', |log'| - |sent'| + i) {
      if i < |sent| { EntryAtPrefix(log, log', |log| - |sent| + i); }
    }
  }

  lemma {:induction false} EndsWithFits(log: seq<Request>, sent: seq<Entry>)
    requires EndsWith(log, sent)
    ensures |sent| <= |log|
  {
  }

  lemma {:induction false} RelayRefines(s: Replica, log: seq<Request>, r: Request)
    requires Refines(s, log) && NamesAccount(log, r) && !s.isTail
    ensures var t := Relay(s, r, |log| + 1);
            t.Done? && Refines(t.rep, log + [r]) && SendsFor(t.rep, log + [r], t.out) &&
            SameRole(s, t.rep) && Acked(t.rep) == Acked(s)
  {
    hide Run, Serve, EntryAt, UpdateReply, EndsWith;
    UpdateReplyRefines(s, log, r);
    EndsWithSnoc(log, s.sent, r);
    EndsWithFits(log, s.sent);
    assert (log + [r])[..Acked(s)] == log[..Acked(s)];
  }

  /** What becomes of the sent list of a tail on accepting record `e`. */
  function TailSent(s: Replica, e: Entry): seq<Entry> {
    if (s.extending && !IsTransfer(e)) || PendingTransfer(e) then s.sent + [e] else s.sent
  }

  /** The tail's books after record `e`. */
  function TailBooks(s: Replica, e: Entry): Replica {
    s.(sent := TailSent(s, e),
       processed := if e.check == NewReq then InsertProcessed(s.processed, e) else s.processed)
  }

  lemma {:induction false} HandleTransferShape(s: Replica, e: Entry)
    requires IsTransfer(e)
    ensures var (t, out) := HandleTransfer(s, e);
            t == TailBooks(s, e) && out.forwards == [] && out.acks == [] &&
            (out.replies == [] || out.replies == [e]) &&
            out.transfers == (if PendingTransfer(e) then [e] else [])
  {
    hide InsertProcessed, InSent;
  }

  lemma {:induction false} ConcludeShape(s: Replica, r: Request, n: nat)
    ensures var t := Conclude(s, r, n); var (s0, e) := UpdateReply(s, r, n);
            t.Done? && e.req == r && t.rep == TailBooks(s0.(seqNo := n), e) &&
            t.out.forwards == [] && (t.out.replies == [] || t.out.replies == [e]) &&
            t.out.acks == (if !s0.isHead && t.rep.sent == [] then [n] else []) &&
            t.out.transfers == (if PendingTransfer(e) then [e] else [])
  {
    var (s0, e) := UpdateReply(s, r, n);
    assert e.req == r by { hide Move, Known; }
    hide UpdateReply, InsertProcessed;
    if r.kind == Transfer { HandleTransferShape(s0.(seqNo := n), e); }
    hide HandleTransfer;
  }

  /** A tail answers every update at once, except a successful transfer that is still pending:
      that one is in its sent list afterwards. */
  lemma {:induction false} AnsweredUnlessPending(s: Replica, r: Request, n: nat)
    ensures var t := Conclude(s, r, n); var e := UpdateReply(s, r, n).1;
            t.Done? &&
            t.out.replies == if r.kind == Transfer && e.reply.outcome == Processed &&
            (exists j :: 0 <= j < |t.rep.sent| && SameIdAndAccount(t.rep.sent[j].req, r)) then [] else [e]
  {
    var (s0, e) := UpdateReply(s, r, n);
    assert e.req == r by { hide Move, Known; }
    hide UpdateReply, InsertProcessed;
    if PendingTransfer(e) { assert KeyOf((s0.sent + [e])[|s0.sent|].req) == KeyOf(r); }
  }

  /** A transfer sent again by its client changes nothing and is not forwarded. While it is pending it is not
      answered; once it is no longer, it gets the reply it got when it was new. */
  lemma {:induction false} RepeatedTransfer(s: Replica, log: seq<Request>, r: Request, f: nat)
    requires Refines(s, log) && NamesAccount(log, r) && s.isTail && r.kind == Transfer
    requires f < |log| && log[f] == r && EntryAt(log, f).check == NewReq
    ensures var t := Conclude(s, r, |log| + 1); var reply := EntryAt(log, f).reply;
            t.Done? && t.rep.sent == s.sent && t.rep.processed == s.processed && t.out.transfers == [] &&
            t.out.replies == if reply.outcome == Processed &&
            (exists j :: 0 <= j < |s.sent| && SameIdAndAccount(s.sent[j].req, r)) then []
            else [Entry(r, |log| + 1, Resend, reply)]
  {
    hide Run, EntryAt, UpdateReply, Refines, Conclude;
    UpdateReplyRefines(s, log, r);
    ResendRecord(log, f);
    ConcludeShape(s, r, |log| + 1);
    AnsweredUnlessPending(s, r, |log| + 1);
  }

  lemma {:induction false} TailBooksRefine(s: Replica, log: seq<Request>, r: Request, s1: Replica)
    requires Refines(s, log) && s.isTail
    requires s1 == s.(balances := s1.balances, seqNo := |log| + 1)
    requires forall q :: q in log + [r] ==> q.account in s1.balances
    requires forall a :: Balance(s1.balances, a) == Balance(Run(log + [r]).balances, a)
    ensures Refines(TailBooks(s1, EntryAt(log + [r], |log|)), log + [r])
  {
    var log', e := log + [r], EntryAt(log + [r], |log|);
    assert log[..|log|] == log && log'[..|log'|] == log' && log'[..|log|] == log;
    InsertIsServe(log', |log|);
    EntryFields(log', |log|);
    hide Run, Serve, EntryAt, InsertProcessed;
    forall x | x in s.sent ensures IsEntry(log', x) { EntryStays(log, log', x); }
    hide IsEntry;
  }

  lemma {:induction false} ConcludeRefines(s: Replica, log: seq<Request>, r: Request)
    requires Refines(s, log) && NamesAccount(log, r) && s.isTail
    ensures var t := Conclude(s, r, |log| + 1); var e := EntryAt(log + [r], |log|);
            t.Done? && Refines(t.rep, log + [r]) && SendsFor(t.rep, log + [r], t.out) && SameRole(s, t.rep) &&
            t.rep.sent == TailSent(s, e) && (PendingTransfer(e) ==> t.out.transfers == [e])
  {
    hide Run, Serve, EntryAt, UpdateReply, Conclude, InsertProcessed;
    UpdateReplyRefines(s, log, r);
    ConcludeShape(s, r, |log| + 1);
    EntryFields(log + [r], |log|);
    TailBooksRefine(s, log, r, UpdateReply(s, r, |log| + 1).0.(seqNo := |log| + 1));
    hide Refines, IsEntry;
  }

  lemma {:induction false} EntryStays(p: seq<Request>, q: seq<Request>, e: Entry)
    requires p <= q && IsEntry(p, e)
    ensures IsEntry(q, e)
  {
    hide Run, Serve;
    EntryAtPrefix(p, q, e.seqNo - 1);
  }

  /** An update that is accepted extends the log by one; any other leaves it.
      The assertion fails only on a gap. */
  lemma {:induction false} ReceiveUpdateRefines(s: Replica, log: seq<Request>, r: Request, stamp: nat)
    requires Refines(s, log) && NamesAccount(log, r)
    requires s.isHead || stamp <= |log| + 1
    ensures var t := ReceiveUpdate(s, r, stamp);
            t.Done? && SameRole(s, t.rep) &&
            if s.isHead || stamp == |log| + 1 then
              Refines(t.rep, log + [r]) && SendsFor(t.rep, log + [r], t.out) &&
              (!s.isTail ==> Acked(t.rep) == Acked(s))
            else t == Done(s, SILENT)
  {
    hide Run, Serve, EntryAt, Conclude, Relay;
    if s.isTail { ConcludeRefines(s, log, r); } else { RelayRefines(s, log, r); }
    assert s.seqNo == |log|;
    hide Refines, SendsFor;
  }

  lemma {:induction false} EndsWithTail(log: seq<Request>, sent: seq<Entry>)
    requires EndsWith(log, sent) && sent != []
    ensures EndsWith(log, sent[1..]) && sent[0] == EntryAt(log, |log| - |sent|)
    ensures sent[0].seqNo == |log| - |sent| + 1
  {
    hide Run, Serve;
    EntryFields(log, |log| - |sent|);
    hide EntryAt;
    assert forall i :: 0 <= i < |sent[1..]| ==> sent[1..][i] == sent[i + 1];
  }

  /** An ack moves entries from the sent list to the processed map, in log order. */
  lemma {:induction false} AcknowledgeRefines(s: Replica, log: seq<Request>, k: nat)
    requires Refines(s, log) && !s.isTail
    ensures var t := Acknowledge(s, k);
            Refines(t, log) && SameRole(s, t) && t.balances == s.balances && t.seqNo == s.seqNo &&
            Acked(t) == if k <= Acked(s) then Acked(s) else if k <= |log| then k else |log|
    decreases |s.sent|
  {
    hide Run, Serve, EntryAt;
    if s.sent != [] {
      EndsWithTail(log, s.sent);
      if s.sent[0].seqNo <= k {
        InsertIsServe(log, Acked(s));
        var s1 := s.(processed := InsertProcessed(s.processed, s.sent[0]), sent := s.sent[1..]);
        hide InsertProcessed, EndsWith;
        AcknowledgeRefines(s1, log, k);
      }
    }
  }

  /** An ack goes on to the predecessor with its number, unless the server is the head; nothing else is sent. */
  lemma {:induction false} AckPassedOn(s: Replica, log: seq<Request>, k: nat)
    requires Refines(s, log) && !s.isTail
    ensures var t := ReceiveAck(s, k);
            t.Done? && Refines(t.rep, log) &&
            Acked(t.rep) == (if k <= Acked(s) then Acked(s) else if k <= |log| then k else |log|) &&
            t.out.acks == (if s.isHead then [] else [k]) &&
            t.out.forwards == [] && t.out.replies == [] && t.out.transfers == []
  {
    hide Refines, Acknowledge;
    AcknowledgeRefines(s, log, k);
  }

  lemma {:induction false} PromoteIsRun(log: seq<Request>, es: seq<Entry>)
    requires EndsWith(log, es)
    requires forall e :: e in es && IsTransfer(e) ==> e.check != NewReq
    ensures Promote(Run(log[..|log| - |es|]).history, es) == Run(log).history
    decreases |es|
  {
    hide Run, Serve, EntryAt;
    if es != [] {
      EndsWithTail(log, es);
      InsertIsServe(log, |log| - |es|);
      assert es[0] in es;
      PromoteIsRun(log, es[1..]);
    } else {
      assert log[..|log|] == log;
    }
  }

  lemma {:induction false} PromoteAdds(p: map<Key, Entry>, es: seq<Entry>, k: Key)
    ensures k in Promote(p, es) && k !in p ==> !IsTransfer(Promote(p, es)[k])
    ensures k in p ==> k in Promote(p, es) && Promote(p, es)[k] == p[k]
    decreases |es|
  {
    if es != [] {
      PromoteAdds(if IsTransfer(es[0]) then p else InsertProcessed(p, es[0]), es[1..], k);
    }
  }

  lemma {:induction false} TransfersOfNone(es: seq<Entry>)
    ensures TransfersOf(es) == [] <==> forall e :: e in es ==> !IsTransfer(e)
  {
    if es != [] {
      TransfersOfNone(es[1..]);
      assert es == [es[0]] + es[1..];
    }
  }

  /** A new entry at index `i` is in the history as itself, and its key is not in the log before it. */
  lemma {:induction false} NewIsFirst(log: seq<Request>, i: nat)
    requires i < |log| && EntryAt(log, i).check == NewReq
    ensures var k := KeyOf(log[i]);
            k in Run(log).history && Run(log).history[k] == EntryAt(log, i) &&
            forall j :: 0 <= j <= i ==> k !in Run(log[..j]).history
  {
    var k := KeyOf(log[i]);
    JudgedAgainst(log, i);
    HistoryIsFirsts(log, k);
    hide Run, Serve, EntryAt;
    forall j | 0 <= j < i ensures KeyOf(log[j]) != k { assert KeyOf(log[..i][j]) == KeyOf(log[j]); }
    FirstAt(log, k, i);
    forall j | 0 <= j <= i ensures k !in Run(log[..j]).history { HistoryIsFirsts(log[..j], k); }
  }

  /** The new tail's processed map is the whole history exactly when no
      transfer in its sent list is a first occurrence. */
  lemma {:induction false} ToBeTailExactly(s: Replica, log: seq<Request>)
    requires Refines(s, log) && !s.isTail
    ensures ToBeTail(s).rep.processed == Run(log).history <==>
            forall e :: e in s.sent && IsTransfer(e) ==> e.check != NewReq
  {
    hide Run, Serve, EntryAt;
    var a := Acked(s);
    if forall e :: e in s.sent && IsTransfer(e) ==> e.check != NewReq {
      PromoteIsRun(log, s.sent);
    } else {
      var e :| e in s.sent && IsTransfer(e) && e.check == NewReq;
      var i :| 0 <= i < |s.sent| && s.sent[i] == e;
      NewIsFirst(log, a + i);
      SentFields(log, s.sent);
      PromoteAdds(s.processed, s.sent, KeyOf(e.req));
    }
  }

  /** Without transfers the new tail keeps its log, with everything processed and nothing pending. */
  lemma {:induction false} ToBeTailRefines(s: Replica, log: seq<Request>)
    requires Refines(s, log) && (forall r :: r in log ==> r.kind != Transfer)
    ensures var t := ToBeTail(s);
            Refines(t.rep, log) && t.rep.sent == [] && t.rep.isTail &&
            t.out == if s.isHead then SILENT else SILENT.(acks := [|log|])
  {
    hide Run, Serve, EntryAt;
    forall i | 0 <= i < |s.sent| ensures !IsTransfer(s.sent[i]) { SentInLog(s, log, i); }
    TransfersOfNone(s.sent);
    assert log[..|log|] == log;
    if s.isTail { PromoteNoop(s.processed, s.sent, log); } else { ToBeTailExactly(s, log); }
  }

  // ---------------------------------------------------- parts of the sent list

  /** `kept` is what the list holds at the indices `idx`, in the same order. */
  ghost predicate Picks(es: seq<Entry>, kept: seq<Entry>, idx: seq<nat>) {
    && |idx| == |kept|
    && (forall j :: 0 <= j < |idx| ==> idx[j] < |es| && kept[j] == es[idx[j]])
    && (forall i, j :: 0 <= i < j < |idx| ==> idx[i] < idx[j])
  }

  ghost function Shifted(idx: seq<nat>, hit: bool): seq<nat> {
    (if hit then [0] else []) + seq(|idx|, j requires 0 <= j < |idx| => idx[j] + 1)
  }

  lemma {:induction false} PicksFrom(es: seq<Entry>, kept: seq<Entry>, idx: seq<nat>, hit: bool)
    requires es != [] && Picks(es[1..], kept, idx)
    ensures Picks(es, (if hit then [es[0]] else []) + kept, Shifted(idx, hit))
    ensures forall i :: 0 <= i < |es| ==> (i in Shifted(idx, hit) <==> if i == 0 then hit else i - 1 in idx)
  {
    forall i | 0 <= i < |es| ensures i in Shifted(idx, hit) <==> if i == 0 then hit else i - 1 in idx {
      ShiftedHas(idx, hit, i);
    }
  }

  lemma {:induction false} ShiftedHas(idx: seq<nat>, hit: bool, i: nat)
    ensures i in Shifted(idx, hit) <==> if i == 0 then hit else i - 1 in idx
  {
    var out := Shifted(idx, hit);
    if i > 0 && i - 1 in idx {
      var j :| 0 <= j < |idx| && idx[j] == i - 1;
      assert out[j + if hit then 1 else 0] == i;
    }
  }

  lemma {:induction false} PicksNone()
    ensures Picks([], [], [])
  {
  }

  /** The transfers of a list, each once and in order. */
  lemma {:induction false} TransfersPicked(es: seq<Entry>) returns (idx: seq<nat>)
    ensures Picks(es, TransfersOf(es), idx)
    ensures forall i :: 0 <= i < |es| ==> (i in idx <==> es[i].req.kind == Transfer)
    decreases |es|
  {
    hide TransfersOf, Picks, Shifted;
    TransfersOfUnfold(es);
    if es == [] {
      idx := [];
      PicksNone();
    } else {
      var hit := es[0].req.kind == Transfer;
      var rest := TransfersPicked(es[1..]);
      PicksFrom(es, TransfersOf(es[1..]), rest, hit);
      idx := Shifted(rest, hit);
      forall i | 0 <= i < |es| ensures i in idx <==> es[i].req.kind == Transfer {
        if i > 0 { assert es[1..][i - 1] == es[i]; }
      }
    }
  }

  lemma {:induction false} TransfersOfUnfold(es: seq<Entry>)
    ensures TransfersOf(es) ==
            if es == [] then []
            else (if es[0].req.kind == Transfer then [es[0]] else []) + TransfersOf(es[1..])
  {
  }

  /** A promoted tail's sent list is what it held of transfers, in order, and these it forwards; everything else is in
      its processed map, which keeps what it had. */
  lemma {:induction false} ToBeTailSplits(s: Replica)
    ensures var t := ToBeTail(s);
            t.Done? && t.rep == s.(isTail := true, processed := t.rep.processed, sent := t.rep.sent) &&
            t.out.transfers == t.rep.sent && t.out.replies == [] && t.out.forwards == [] &&
            t.out.acks == if t.rep.sent == [] && !s.isHead then [s.seqNo] else []
    ensures exists idx :: Picks(s.sent, ToBeTail(s).rep.sent, idx) &&
                          forall i :: 0 <= i < |s.sent| ==> (i in idx <==> s.sent[i].req.kind == Transfer)
    ensures forall k :: k in ToBeTail(s).rep.processed <==> k in s.processed || HoldsOther(s.sent, k)
    ensures forall k :: k in s.processed ==> ToBeTail(s).rep.processed[k] == s.processed[k]
  {
    hide Promote, TransfersOf, HoldsOther;
    var idx := TransfersPicked(s.sent);
    forall k ensures k in ToBeTail(s).rep.processed <==> k in s.processed || HoldsOther(s.sent, k) {
      PromoteKeys(s.processed, s.sent, k);
    }
    forall k | k in s.processed
      ensures k in ToBeTail(s).rep.processed && ToBeTail(s).rep.processed[k] == s.processed[k]
    {
      PromoteKeys(s.processed, s.sent, k);
    }
  }

  /** Some entry under id and account `k` is not a transfer. */
  ghost predicate HoldsOther(es: seq<Entry>, k: (ReqId, AccountId)) {
    exists i :: 0 <= i < |es| && es[i].req.kind != Transfer && (es[i].req.id, es[i].req.account) == k
  }

  lemma {:induction false} PromoteKeys(p: map<Key, Entry>, es: seq<Entry>, k: Key)
    ensures k in Promote(p, es) <==> k in p || HoldsOther(es, k)
    ensures k in p ==> Promote(p, es)[k] == p[k]
    decreases |es|
  {
    if es != [] {
      PromoteKeys(if IsTransfer(es[0]) then p else InsertProcessed(p, es[0]), es[1..], k);
      assert forall i :: 0 <= i < |es[1..]| ==> es[1..][i] == es[i + 1];
      assert forall i :: 0 < i < |es| ==> es[i] == es[1..][i - 1];
    }
  }

  lemma {:induction false} PromoteNoop(p: map<Key, Entry>, es: seq<Entry>, log: seq<Request>)
    requires p == Run(log).history && forall e :: e in es ==> IsEntry(log, e)
    ensures Promote(p, es) == p
    decreases |es|
  {
    if es != [] {
      assert es[0] in es;
      var i := es[0].seqNo - 1;
      EntryFields(log, i);
      HistoryIsFirsts(log, KeyOf(es[0].req));
      hide Run, Serve, EntryAt;
      assert HasKey(log, KeyOf(log[i]));
      PromoteNoop(p, es[1..], log);
    }
  }

  /** S- sends again every sent entry above the reported number, in order and without a gap. */
  lemma {:induction false} AboveIsRun(log: seq<Request>, es: seq<Entry>, n: nat)
    requires EndsWith(log, es)
    ensures var m := if n <= |log| - |es| then |log| - |es| else if n <= |log| then n else |log|;
            |Above(es, n)| == |log| - m && EndsWith(log, Above(es, n))
    decreases |es|
  {
    hide Run, Serve, EntryAt;
    if es != [] {
      EndsWithTail(log, es);
      AboveIsRun(log, es[1..], n);
      if es[0].seqNo > n {
        assert Above(es, n) == [es[0]] + Above(es[1..], n);
      }
    }
  }

  lemma {:induction false} AnsweredSplit(es: seq<Entry>, id: ReqId, account: AccountId, e: Entry)
    ensures e in Answered(es, id, account) <==> e in es && Answers(e, id, account)
    ensures e in Unanswered(es, id, account) <==> e in es && !Answers(e, id, account)
    decreases |es|
  {
    if es != [] {
      AnsweredSplit(es[1..], id, account, e);
      assert es == [es[0]] + es[1..];
    }
  }

  lemma {:induction false} AnsweredPicked(es: seq<Entry>, id: ReqId, account: AccountId) returns (idx: seq<nat>)
    ensures Picks(es, Answered(es, id, account), idx)
    ensures forall i :: 0 <= i < |es| ==> (i in idx <==> es[i].req.id == id && es[i].req.destAccount == account)
    decreases |es|
  {
    hide Answered, Picks, Shifted;
    AnsweredUnfold(es, id, account);
    if es == [] {
      idx := [];
      PicksNone();
    } else {
      var hit := es[0].req.id == id && es[0].req.destAccount == account;
      var rest := AnsweredPicked(es[1..], id, account);
      PicksFrom(es, Answered(es[1..], id, account), rest, hit);
      idx := Shifted(rest, hit);
      forall i | 0 <= i < |es| ensures i in idx <==> es[i].req.id == id && es[i].req.destAccount == account {
        if i > 0 { assert es[1..][i - 1] == es[i]; }
      }
    }
  }

  lemma {:induction false} AnsweredUnfold(es: seq<Entry>, id: ReqId, account: AccountId)
    ensures Answered(es, id, account) ==
            if es == [] then []
            else
              (if es[0].req.id == id && es[0].req.destAccount == account then [es[0]] else []) +
              Answered(es[1..], id, account)
  {
  }

  lemma {:induction false} UnansweredPicked(es: seq<Entry>, id: ReqId, account: AccountId) returns (idx: seq<nat>)
    ensures Picks(es, Unanswered(es, id, account), idx)
    ensures forall i :: 0 <= i < |es| ==> (i in idx <==> !(es[i].req.id == id && es[i].req.destAccount == account))
    decreases |es|
  {
    hide Unanswered, Picks, Shifted;
    UnansweredUnfold(es, id, account);
    if es == [] {
      idx := [];
      PicksNone();
    } else {
      var hit := !(es[0].req.id == id && es[0].req.destAccount == account);
      var rest := UnansweredPicked(es[1..], id, account);
      PicksFrom(es, Unanswered(es[1..], id, account), rest, hit);
      idx := Shifted(rest, hit);
      forall i | 0 <= i < |es| ensures i in idx <==> !(es[i].req.id == id && es[i].req.destAccount == account) {
        if i > 0 { assert es[1..][i - 1] == es[i]; }
      }
    }
  }

  lemma {:induction false} UnansweredUnfold(es: seq<Entry>, id: ReqId, account: AccountId)
    ensures Unanswered(es, id, account) ==
            if es == [] then []
            else
              (if !(es[0].req.id == id && es[0].req.destAccount == account) then [es[0]] else []) +
              Unanswered(es[1..], id, account)
  {
  }

  /** The destination's reply answers exactly the pending requests it names, by their id and the account they pay
      into, keeps the others in order, and is acked once nothing is left. */
  lemma {:induction false} TransferReplyExactly(s: Replica, log: seq<Request>, id: ReqId, account: AccountId)
    requires Refines(s, log) && s.isTail
    ensures var t := TransferReply(s, id, account);
            t.Done? && Refines(t.rep, log) && t.rep == s.(sent := t.rep.sent) &&
            t.out.acks == (if s.sent != [] && t.rep.sent == [] && !s.isHead then [|log|] else []) &&
            t.out.forwards == [] && t.out.transfers == []
    ensures exists idx :: Picks(s.sent, TransferReply(s, id, account).out.replies, idx) &&
                          forall i :: 0 <= i < |s.sent| ==>
                            (i in idx <==> s.sent[i].req.id == id && s.sent[i].req.destAccount == account)
    ensures exists idx :: Picks(s.sent, TransferReply(s, id, account).rep.sent, idx) &&
                          forall i :: 0 <= i < |s.sent| ==>
                            (i in idx <==> !(s.sent[i].req.id == id && s.sent[i].req.destAccount == account))
  {
    hide Run, Answers, IsEntry;
    var idx := AnsweredPicked(s.sent, id, account);
    var rest := UnansweredPicked(s.sent, id, account);
    ReplyKeepsBooks(s, log, id, account);
  }

  lemma {:induction false} ReplyKeepsBooks(s: Replica, log: seq<Request>, id: ReqId, account: AccountId)
    requires Refines(s, log) && s.isTail
    ensures var t := TransferReply(s, id, account);
            t.Done? && Refines(t.rep, log) && t.rep == s.(sent := t.rep.sent) &&
            (forall e :: e in t.out.replies <==> e in s.sent && Answers(e, id, account)) &&
            (forall e :: e in t.rep.sent <==> e in s.sent && !Answers(e, id, account)) &&
            t.out.acks == (if s.sent != [] && t.rep.sent == [] && !s.isHead then [|log|] else [])
  {
    hide Run, Answers, IsEntry;
    var t := TransferReply(s, id, account);
    forall e ensures e in t.out.replies <==> e in s.sent && Answers(e, id, account) {
      AnsweredSplit(s.sent, id, account, e);
    }
    forall e ensures e in t.rep.sent <==> e in s.sent && !Answers(e, id, account) {
      AnsweredSplit(s.sent, id, account, e);
    }
    if s.sent != [] {
      assert s.sent[0] in s.sent;
      assert s.sent[0] in t.out.replies || s.sent[0] in t.rep.sent;
    }
  }

  /** On a new head of a bank a tail forwards again what its sent list holds for that bank, in order, unless that list
      holds anything but transfers; then the assertion fails. A server that is not the tail does nothing. */
  lemma {:induction false} NewHeadForwards(s: Replica, bank: BankId)
    ensures var t := HandleNewHead(s, bank);
            (t.Abort? <==> s.isTail && exists i :: 0 <= i < |s.sent| && s.sent[i].req.kind != Transfer) &&
            (t.Done? ==> t.rep == s && t.out == SILENT.(transfers := t.out.transfers) &&
                         (!s.isTail ==> t.out.transfers == []))
    ensures var t := HandleNewHead(s, bank);
            t.Done? && s.isTail ==>
              exists idx :: Picks(s.sent, t.out.transfers, idx) &&
                            forall i :: 0 <= i < |s.sent| ==> (i in idx <==> s.sent[i].req.destBank == bank)
  {
    hide ToBank;
    var idx := BankPicked(s.sent, bank);
  }

  lemma {:induction false} BankPicked(es: seq<Entry>, bank: BankId) returns (idx: seq<nat>)
    ensures Picks(es, ToBank(es, bank), idx)
    ensures forall i :: 0 <= i < |es| ==> (i in idx <==> es[i].req.destBank == bank)
    decreases |es|
  {
    hide ToBank, Picks, Shifted;
    ToBankUnfold(es, bank);
    if es == [] {
      idx := [];
      PicksNone();
    } else {
      var hit := es[0].req.destBank == bank;
      var rest := BankPicked(es[1..], bank);
      PicksFrom(es, ToBank(es[1..], bank), rest, hit);
      idx := Shifted(rest, hit);
      forall i | 0 <= i < |es| ensures i in idx <==> es[i].req.destBank == bank {
        if i > 0 { assert es[1..][i - 1] == es[i]; }
      }
    }
  }

  lemma {:induction false} ToBankUnfold(es: seq<Entry>, bank: BankId)
    ensures ToBank(es, bank) ==
            if es == [] then []
            else (if es[0].req.destBank == bank then [es[0]] else []) + ToBank(es[1..], bank)
  {
  }

  lemma {:induction false} ToBankIs(es: seq<Entry>, bank: BankId, e: Entry)
    ensures e in ToBank(es, bank) <==> e in es && e.req.destBank == bank
  {
    if es != [] {
      ToBankIs(es[1..], bank, e);
      assert es == [es[0]] + es[1..];
    }
  }

  // --------------------------------------------- where one id names two accounts

  /** One id for two accounts sets head and tail apart: the head takes the
      third request for a resend of the first, the tail pays it. */
  lemma {:induction false} SharedIdSplitsChain()
    ensures var r1 := Request(1, Deposit, 1, 1, 10, 0, 0);
            var r2 := Request(2, Deposit, 2, 1, 5, 0, 0);
            var r3 := Request(1, Deposit, 2, 1, 10, 0, 0);
            var h := Fresh(true, false, None, Some(1));
            var t := Fresh(false, true, Some(0), None);
            var h3 := ReceiveUpdate(ReceiveUpdate(ReceiveUpdate(h, r1, 0).rep, r2, 0).rep, r3, 0).rep;
            var t3 := ReceiveUpdate(ReceiveUpdate(ReceiveUpdate(t, r1, 1).rep, r2, 2).rep, r3, 3).rep;
            Balance(h3.balances, 2) == 5 && Balance(t3.balances, 2) == 15
  {
    var r1 := Request(1, Deposit, 1, 1, 10, 0, 0);
    var r2 := Request(2, Deposit, 2, 1, 5, 0, 0);
    var r3 := Request(1, Deposit, 2, 1, 10, 0, 0);
    var h := Fresh(true, false, None, Some(1));
    var t := Fresh(false, true, Some(0), None);
    var h1 := ReceiveUpdate(h, r1, 0).rep;
    var h2 := ReceiveUpdate(h1, r2, 0).rep;
    assert FindSent(h2.sent, 1) == Some(h2.sent[0]) && h2.sent[0].req == r1;
    var t1 := ReceiveUpdate(t, r1, 1).rep;
    var t2 := ReceiveUpdate(t1, r2, 2).rep;
    assert t2.processed.Keys == {(1, 1), (2, 2)} && t2.sent == [];
  }
}
