/** The hand-over of the tail role as a state machine, with updates going on,
    old tails crashing and new servers failing along the way. */
module HandOver {
  import opened Bank
  import opened Replicas
  import opened Extension

  // ---------------------------------------------------- what a snapshot holds

  /** The number of the last new entry: all that a history tells about sequence numbers. */
  function LastNew(log: seq<Request>): nat {
    if log == [] then 0
    else if EntryAt(log, |log| - 1).check == NewReq then |log| else LastNew(log[..|log| - 1])
  }

  lemma {:induction false} LastNewBound(log: seq<Request>)
    ensures LastNew(log) <= |log|
    ensures LastNew(log) == |log| <==> log == [] || EntryAt(log, |log| - 1).check == NewReq
  {
    hide Run, Serve, EntryAt;
    if log != [] { LastNewBound(log[..|log| - 1]); }
  }

  lemma {:induction false} HistorySeq(log: seq<Request>)
    ensures KeyedByRecord(Run(log).history)
    ensures forall k :: k in Run(log).history ==> Run(log).history[k].seqNo <= LastNew(log)
    ensures LastNew(log) == 0 || exists k :: k in Run(log).history && Run(log).history[k].seqNo == LastNew(log)
  {
    hide Run, EntryAt, LastNew;
    if log == [] {
      NoHistory();
    } else {
      var p, r := log[..|log| - 1], log[|log| - 1];
      assert log == p + [r];
      HistorySeq(p);
      LastNewBound(p);
      LastNewStep(log);
      HistoryStep(p, r);
      var h, h' := Run(p).history, Run(log).history;
      if EntryAt(log, |p|).check == NewReq {
        assert h'[KeyOf(r)].seqNo == |log|;
      } else if LastNew(p) != 0 {
        var k :| k in h && h[k].seqNo == LastNew(p);
        assert h'[k].seqNo == LastNew(p);
      }
    }
  }

  lemma {:induction false} NoHistory()
    ensures Run([]).history == map[] && LastNew([]) == 0
  {
  }

  lemma {:induction false} LastNewStep(log: seq<Request>)
    requires log != []
    ensures LastNew(log) == if EntryAt(log, |log| - 1).check == NewReq then |log| else LastNew(log[..|log| - 1])
  {
    hide Run, EntryAt;
  }

  lemma {:induction false} HistoryStep(p: seq<Request>, r: Request)
    ensures var e := EntryAt(p + [r], |p|);
            e.seqNo == |p| + 1 && e.req == r &&
            if e.check == NewReq then Run(p + [r]).history == Run(p).history[KeyOf(r) := e]
            else Run(p + [r]).history == Run(p).history
  {
    RunSnoc(p, r);
  }

  lemma {:induction false} UnnamedIsEmpty(log: seq<Request>, a: AccountId)
    requires forall r :: r in log ==> r.account != a
    ensures Balance(Run(log).balances, a) == 0
  {
    if log != [] {
      var p, r := log[..|log| - 1], log[|log| - 1];
      assert log == p + [r];
      RunSnoc(p, r);
      UnnamedIsEmpty(p, a);
    }
  }

  /** The server as it would be as a tail at number `n`. */
  function AsTail(s: Replica, n: nat): Replica { s.(isTail := true, extending := false, seqNo := n) }

  /** `s` holds the books of a tail that has applied `log`, whatever its own number. */
  ghost predicate Books(s: Replica, log: seq<Request>) {
    s.sent == [] && Refines(AsTail(s, |log|), log)
  }

  /** The number the new server ends up with, once the updates from number `|log| - k` on are replayed. */
  function HandedSeq(v: Version, log: seq<Request>, k: nat): nat {
    if v == Da || k > 0 then |log| else LastNew(log)
  }

  lemma {:induction false} SameBooks(s: Replica, log: seq<Request>, t: Replica)
    requires Refines(s, log) && s.isTail
    requires t.sent == [] && t.processed == s.processed
    requires forall r :: r in log ==> r.account in t.balances
    requires forall a :: Balance(t.balances, a) == Balance(s.balances, a)
    ensures Books(t, log)
  {
    hide Run;
  }

  lemma {:induction false} TailHistory(s: Replica, log: seq<Request>)
    requires Refines(s, log) && s.isTail
    ensures s.processed == Run(log).history && s.seqNo == |log| && forall r :: r in log ==> r.account in s.balances
    ensures forall a :: Balance(s.balances, a) == Balance(Run(log).balances, a)
  {
    hide Run;
    assert log[..|log|] == log;
  }

  /** The pieces of a src-cpp snapshot, taken by any server, rebuild the tail's books. */
  lemma {:induction false} LoadCpp(
      x: Replica, s: Replica, log: seq<Request>, self: Addr, accounts: seq<AccountId>, keys: seq<Key>)
    requires x.sent == [] && Refines(s, log) && s.isTail
    requires Enumerates(accounts, s.balances.Keys) && Enumerates(keys, s.processed.Keys)
    ensures var t := Take(x, [Start(self)] + (AccountMsgs(accounts, s.balances) + HistoryMsgs(keys, s.processed)));
            t.Some? && Books(t.value, log) && t.value.seqNo == LastNew(log) &&
            t.value == x.(balances := s.balances, processed := s.processed, seqNo := LastNew(log),
                          pre := Option.Some(self))
  {
    TailHistory(s, log);
    MaxIsLastNew(log, keys);
    OpenedAll(accounts, s.balances);
    hide Run, Refines, Books, Take, Opened, MaxSeq, LastNew;
    var m, h := s.balances, s.processed;
    var x0 := x.(balances := map[], processed := map[], seqNo := 0, pre := Option.Some(self));
    var x1 := x0.(balances := Opened(map[], accounts, m));
    StartClears(x, self, AccountMsgs(accounts, m) + HistoryMsgs(keys, h));
    TakeAccounts(x0, accounts, m);
    TakeAppend(x0, AccountMsgs(accounts, m), HistoryMsgs(keys, h));
    TakeHistories(x1, keys, h);
    var t := Take(x1, HistoryMsgs(keys, h)).value;
    assert t.balances == m && t.processed == h;
    SameBooks(s, log, t);
  }

  lemma {:induction false} OpenedAll(accounts: seq<AccountId>, m: map<AccountId, int>)
    requires Enumerates(accounts, m.Keys)
    ensures Opened(map[], accounts, m) == m
  {
    hide Opened;
    var t := Opened(map[], accounts, m);
    forall a ensures a in t <==> a in m { OpenedIs(map[], accounts, m, a); }
    forall a | a in m ensures t[a] == m[a] { OpenedIs(map[], accounts, m, a); }
  }

  /** The greatest number in a history, in whatever order it is walked. */
  lemma {:induction false} MaxIsLastNew(log: seq<Request>, keys: seq<Key>)
    requires Enumerates(keys, Run(log).history.Keys)
    ensures KeyedByRecord(Run(log).history) && MaxSeq(0, keys, Run(log).history) == LastNew(log)
  {
    HistorySeq(log);
    hide Run, MaxSeq, LastNew;
    MaxSeqIs(0, keys, Run(log).history);
  }

  lemma {:induction false} StartClears(x: Replica, self: Addr, ms: seq<ExtendMsg>)
    ensures Take(x, [Start(self)] + ms) ==
            Take(x.(balances := map[], processed := map[], seqNo := 0, pre := Option.Some(self)), ms)
  {
    assert ([Start(self)] + ms)[1..] == ms;
  }

  lemma {:induction false} BeginClears(x: Replica, self: Addr, n: nat, ms: seq<ExtendMsg>)
    ensures Take(x, [Begin(self, n)] + ms) ==
            Take(x.(balances := map[], processed := map[], sent := [], seqNo := n, pre := Option.Some(self)), ms)
  {
    assert ([Begin(self, n)] + ms)[1..] == ms;
  }

  lemma {:induction false} LoadDa(x: Replica, s: Replica, log: seq<Request>, self: Addr, accounts: seq<AccountId>)
    requires Refines(s, log) && s.isTail
    requires forall a :: a in accounts ==> a in s.balances
    requires forall k :: k in s.processed ==> k.1 in accounts
    ensures var t := Take(x, [Begin(self, s.seqNo)] + PieceMsgs(accounts, s.balances, s.processed));
            t.Some? && Books(t.value, log) &&
            t.value == x.(balances := t.value.balances, processed := s.processed, sent := [], seqNo := |log|,
                          pre := Option.Some(self))
  {
    hide Run, Refines, Books, Take, PieceMsgs, Opened, Balance;
    TailHistory(s, log);
    var m, h := s.balances, s.processed;
    var x0 := x.(balances := map[], processed := map[], sent := [], seqNo := s.seqNo, pre := Option.Some(self));
    BeginClears(x, self, s.seqNo, PieceMsgs(accounts, m, h));
    PiecesRebuild(x0, accounts, m, h);
    PiecesCover(s, log, accounts);
    SameBooks(s, log, Take(x0, PieceMsgs(accounts, m, h)).value);
  }

  lemma {:induction false} PiecesRebuild(
      x: Replica, accounts: seq<AccountId>, m: map<AccountId, int>, h: map<Key, Entry>)
    requires x.processed == map[] && forall k :: k in h ==> k.1 in accounts
    ensures Take(x, PieceMsgs(accounts, m, h)) ==
            Some(x.(balances := Opened(x.balances, accounts, m), processed := h))
  {
    hide Take, PieceMsgs, Opened;
    TakePieces(x, accounts, m, h);
    assert Take(x, PieceMsgs(accounts, m, h)).value.processed == h;
  }

  /** The accounts with a history are all that matter. */
  lemma {:induction false} PiecesCover(s: Replica, log: seq<Request>, accounts: seq<AccountId>)
    requires Refines(s, log) && s.isTail
    requires forall k :: k in s.processed ==> k.1 in accounts
    ensures forall r :: r in log ==> r.account in Opened(map[], accounts, s.balances)
    ensures forall a :: Balance(Opened(map[], accounts, s.balances), a) == Balance(s.balances, a)
  {
    TailHistory(s, log);
    hide Run, Refines, Opened;
    forall r | r in log ensures r.account in accounts && r.account in Opened(map[], accounts, s.balances) {
      InHistory(log, r);
      OpenedIs(map[], accounts, s.balances, r.account);
    }
    forall a ensures Balance(Opened(map[], accounts, s.balances), a) == Balance(s.balances, a) {
      OpenedIs(map[], accounts, s.balances, a);
      if a !in accounts { UnnamedIsEmpty(log, a); }
    }
  }

  lemma {:induction false} InHistory(log: seq<Request>, r: Request)
    requires r in log
    ensures KeyOf(r) in Run(log).history
  {
    HistoryIsFirsts(log, KeyOf(r));
    hide Run;
    var i :| 0 <= i < |log| && log[i] == r;
    assert HasKey(log, KeyOf(r));
  }

  // ------------------------------------------------------------------ replay

  /** Replaying an update that is in the books already changes nothing. */
  lemma {:induction false} ReplayOld(s: Replica, p: seq<Request>, r: Request, n: nat)
    requires Books(s, p) && r in p
    ensures UpdateReply(s, r, n).0 == s && UpdateReply(s, r, n).1.check != NewReq
    ensures UpdateReply(s, r, n).1.req == r && KeyOf(r) in s.processed
  {
    InHistory(p, r);
    TailHistory(AsTail(s, |p|), p);
    hide Run, Refines;
  }

  lemma {:induction false} ReplyIgnoresRole(s: Replica, r: Request, n: nat, m: nat)
    ensures var (s1, e) := UpdateReply(s, r, n);
            s1 == s.(balances := s1.balances) &&
            UpdateReply(AsTail(s, m), r, n).0 == AsTail(s1, m) && UpdateReply(AsTail(s, m), r, n).1 == e
  {
    hide Move;
  }

  /** Replaying the next update extends the books by it. */
  lemma {:induction false} ReplayNext(s: Replica, p: seq<Request>, r: Request)
    requires Books(s, p) && NamesAccount(p, r) && r.kind != Transfer
    ensures var (s1, e) := UpdateReply(s, r, |p| + 1);
            e == EntryAt(p + [r], |p|) && e.req == r && s1 == s.(balances := s1.balances) &&
            var t := if e.check == NewReq then s1.(processed := InsertProcessed(s1.processed, e)) else s1;
            Books(t, p + [r]) && (e.check != NewReq ==> KeyOf(r) in s.processed)
  {
    hide UpdateReply, Run, EntryAt, Refines, NamesAccount;
    var u := AsTail(s, |p|);
    UpdateReplyRefines(u, p, r);
    ReplyIgnoresRole(s, r, |p| + 1, |p|);
    var (s1, e) := UpdateReply(s, r, |p| + 1);
    var u1 := AsTail(s1, |p|);
    TailBooksRefine(u, p, r, u1.(seqNo := |p| + 1));
    EntryFields(p + [r], |p|);
    OldKey(p, r);
    TailHistory(u, p);
    var t := if e.check == NewReq then s1.(processed := InsertProcessed(s1.processed, e)) else s1;
    assert AsTail(t, |p| + 1) == TailBooks(u1.(seqNo := |p| + 1), e);
  }

  lemma {:induction false} OldKey(p: seq<Request>, r: Request)
    ensures EntryAt(p + [r], |p|).check != NewReq ==> KeyOf(r) in Run(p).history
  {
    RunSnoc(p, r);
  }

  /** A log that extension can carry: one account to a request id, and no transfers. */
  ghost predicate Proper(log: seq<Request>) {
    (forall r :: r in log ==> r.kind != Transfer && NamesAccount(log, r))
  }

  lemma {:induction false} ProperPrefix(log: seq<Request>, i: nat)
    requires Proper(log) && i < |log|
    ensures NamesAccount(log[..i], log[i]) && log[i].kind != Transfer && log[..i + 1] == log[..i] + [log[i]]
  {
    assert log[i] in log;
  }

  /** Books do not depend on the server's number. */
  lemma {:induction false} BooksAnyNumber(s: Replica, p: seq<Request>, n: nat)
    requires Books(s, p)
    ensures Books(s.(seqNo := n), p)
  {
    hide Refines;
    assert AsTail(s.(seqNo := n), |p|) == AsTail(s, |p|);
  }

  /** One replayed update, in src-cpp: log entry `i`, with the books at `log[..c]`. */
  lemma {:induction false} ReplayOneCpp(s: Replica, log: seq<Request>, c: nat, i: nat)
    requires Proper(log) && i <= c <= |log| && i < |log| && Books(s, log[..c])
    ensures var t := ApplySent(s, EntryAt(log, i));
            Books(t, log[..if i < c then c else c + 1]) && t.seqNo == Later(s.seqNo, i + 1) && SameRole(t, s)
  {
    hide Books, Run, EntryAt, Proper, UpdateReply, InsertProcessed;
    var r, s0 := log[i], s.(seqNo := Later(s.seqNo, i + 1));
    EntryFields(log, i);
    ProperPrefix(log, i);
    BooksAnyNumber(s, log[..c], s0.seqNo);
    if i < c {
      assert log[..c][i] == r;
      ReplayOld(s0, log[..c], r, i + 1);
    } else {
      ReplayNext(s0, log[..c], r);
    }
  }

  /** The same in src-da, where the server's number tells how far its books are. */
  lemma {:induction false} ReplayOneDa(s: Replica, log: seq<Request>, c: nat, i: nat)
    requires Proper(log) && i <= c <= |log| && i < |log| && Books(s, log[..c]) && s.seqNo == c
    ensures var t := ApplyAbove(s, EntryAt(log, i));
            Books(t, log[..if i < c then c else c + 1]) && t.seqNo == (if i < c then c else c + 1) && SameRole(t, s)
  {
    hide Books, Run, EntryAt, Proper, UpdateReply;
    EntryFields(log, i);
    ProperPrefix(log, i);
    if i == c {
      BooksAnyNumber(s, log[..c], c + 1);
      ReplayNext(s.(seqNo := c + 1), log[..c], log[i]);
    }
  }

  lemma {:induction false} ReplayCpp(s: Replica, log: seq<Request>, c: nat, es: seq<Entry>)
    requires Proper(log) && EndsWith(log, es) && |log| - |es| <= c <= |log| && Books(s, log[..c]) && s.seqNo <= |log|
    ensures var t := Take(s, SentMsgs(es));
            t.Some? && Books(t.value, log) && t.value.seqNo == (if es == [] then s.seqNo else |log|) &&
            SameRole(t.value, s)
    decreases |es|
  {
    hide Books, Run, EntryAt, Proper, ApplySent, EndsWith;
    if es == [] {
      assert log[..c] == log;
    } else {
      EndsWithTail(log, es);
      EndsWithFits(log, es);
      var i := |log| - |es|;
      ReplayOneCpp(s, log, c, i);
      assert SentMsgs(es)[1..] == SentMsgs(es[1..]);
      EntryFields(log, i);
      ReplayCpp(ApplySent(s, es[0]), log, if i < c then c else c + 1, es[1..]);
    }
  }

  lemma {:induction false} ReplayDa(s: Replica, log: seq<Request>, c: nat, es: seq<Entry>)
    requires Proper(log) && EndsWith(log, es) && |log| - |es| <= c <= |log| && Books(s, log[..c]) && s.seqNo == c
    ensures var t := ApplyAllAbove(s, es); Books(t, log) && t.seqNo == |log| && SameRole(t, s)
    decreases |es|
  {
    hide Books, Run, EntryAt, Proper, ApplyAbove, EndsWith;
    if es == [] {
      assert log[..c] == log;
    } else {
      EndsWithTail(log, es);
      EndsWithFits(log, es);
      var i := |log| - |es|;
      ReplayOneDa(s, log, c, i);
      ReplayDa(ApplyAbove(s, es[0]), log, if i < c then c else c + 1, es[1..]);
    }
  }

  // ------------------------------------------------------------ state machine

  /** `Idle`: no order yet. `Ordered`: the order is here, no snapshot yet. `Sending`: a
      snapshot of the first `c` updates is going out. `Closing`: the rest is going out,
      under the lock. `Closed`: the old tail has stepped down. `GaveUp`: a send
      failed, and the tail goes on without sending any more. */
  datatype Phase = Idle | Ordered | Sending(c: nat) | Closing | Closed | GaveUp

  /** The tail with its address and the log it has applied; the joining server with its address; the messages on
      their way to it, and those the tail has still to send. */
  datatype Hand = Hand(tail: Replica, tailAt: Addr, log: seq<Request>, joiner: Replica, joinerAt: Addr,
                       wire: seq<ExtendMsg>, queue: seq<ExtendMsg>, phase: Phase, aborted: bool)

  /** `TailCrash` puts the tail's predecessor in its place and loses all but `k` messages on
      their way; `JoinerCrash` brings in another joining server. `NewHead` is the master's notice that a bank has
      a new head, `BecomeHead` and `NewPre` are its orders when servers before the tail crash. `GiveUp` is
      src-cpp's sending thread that finds the joining server dead. */
  datatype HandLabel =
    | Update(r: Request, stamp: nat)
    | Query(account: AccountId)
    | Order
    | Snapshot(ms: seq<ExtendMsg>)
    | Send
    | Deliver
    | Close
    | TailCrash(tail: Replica, tailAt: Addr, log: seq<Request>, k: nat)
    | JoinerCrash(next: Replica, nextAt: Addr)
    | NewHead(bank: BankId)
    | BecomeHead
    | NewPre(pre: Addr)
    | GiveUp

  /** An aborted tail does nothing more; its predecessor takes its place, and what it sent still arrives. */
  ghost predicate HandEnabled(v: Version, h: Hand, l: HandLabel) {
    (h.aborted ==> l.Deliver? || l.TailCrash?) &&
    match l
    case Update(r, stamp) =>
      (h.phase.Idle? || h.phase.Ordered? || h.phase.Sending? || h.phase.GaveUp?) &&
      Proper(h.log + [r]) && (h.tail.isHead || stamp <= |h.log| + 1)
    case Query(_) => true
    case Order => h.phase.Idle?
    case Snapshot(ms) => h.phase.Ordered? && IsSnapshot(v, h.tail, h.tailAt, ms)
    case Send => h.queue != []
    case Deliver => h.wire != []
    case Close => h.phase.Sending? && h.queue == []
    case TailCrash(tail, _, log, k) =>
      !h.phase.Closed? && k <= |h.wire| && h.log <= log && Proper(log) &&
      tail.isTail && !tail.extending && tail.sent == [] && Refines(tail, log)
    case JoinerCrash(x, _) => !h.phase.Closed? && x.sent == [] && !x.isTail
    case NewHead(_) => true
    case BecomeHead => true
    case NewPre(_) => true
    case GiveUp => v == Cpp && h.queue != []
  }

  ghost function HandNext(v: Version, h: Hand, l: HandLabel): Hand
    requires HandEnabled(v, h, l)
  {
    match l
    case Update(r, stamp) => (
      match ReceiveUpdate(h.tail, r, stamp)
      case Abort => h.(aborted := true)
      case Done(t, _) => h.(tail := t, log := if t.seqNo > h.tail.seqNo then h.log + [r] else h.log))
    case Query(a) => if h.tail.isTail then h.(tail := HandleQuery(h.tail, a).0) else h.(aborted := true)
    case Order => (
      match ReceiveExtendServer(h.tail, h.joinerAt)
      case Abort => h.(aborted := true)
      case Done(t, _) => h.(tail := t, phase := Ordered))
    case Snapshot(ms) => h.(queue := ms, phase := Sending(|h.log|))
    case Send =>
      var h1 := h.(wire := h.wire + [h.queue[0]], queue := h.queue[1..]);
      if h.phase.Closing? && |h.queue| == 1 then h1.(tail := StepDown(v, h.tail), phase := Closed) else h1
    case Deliver => (
      match ReceiveExtend(h.joiner, h.wire[0])
      case None => h.(aborted := true)
      case Some(t) => h.(joiner := t, wire := h.wire[1..]))
    case Close => h.(queue := FinalMsgs(v, h.tail.sent), phase := Closing)
    case TailCrash(tail, at, log, k) =>
      h.(tail := tail, tailAt := at, log := log, wire := h.wire[..k], queue := [], phase := Idle, aborted := false)
    case JoinerCrash(x, at) =>
      h.(tail := if v == Da then AbortExtending(h.tail).0 else ExtendingServerFail(h.tail),
         joiner := x, joinerAt := at, wire := [], queue := [], phase := Idle)
    case NewHead(bank) =>
      if v == Da then h
      else (match HandleNewHead(h.tail, bank)
            case Abort => h.(aborted := true)
            case Done(t, _) => h.(tail := t))
    case BecomeHead => h.(tail := ToBeHead(h.tail).rep)
    case NewPre(p) => h.(tail := NewPreServer(h.tail, p).rep)
    case GiveUp => h.(queue := [], phase := GaveUp)
  }

  ghost predicate IsHandRun(v: Version, h: Hand, ls: seq<HandLabel>)
    decreases |ls|
  {
    ls != [] ==> HandEnabled(v, h, ls[0]) && IsHandRun(v, HandNext(v, h, ls[0]), ls[1..])
  }

  ghost function HandAfter(v: Version, h: Hand, ls: seq<HandLabel>): Hand
    requires IsHandRun(v, h, ls)
    decreases |ls|
  {
    if ls == [] then h else HandAfter(v, HandNext(v, h, ls[0]), ls[1..])
  }

  /** A tail with log `log`, and a server that has received nothing yet. */
  function InitialHand(tail: Replica, tailAt: Addr, log: seq<Request>, joiner: Replica, joinerAt: Addr): Hand {
    Hand(tail, tailAt, log, joiner, joinerAt, [], [], Idle, false)
  }

  ghost predicate MayExtend(h: Hand) {
    h == InitialHand(h.tail, h.tailAt, h.log, h.joiner, h.joinerAt) &&
    h.tail.isTail && !h.tail.extending && h.tail.sent == [] && Refines(h.tail, h.log) && Proper(h.log) &&
    h.joiner.sent == [] && !h.joiner.isTail
  }

  // ---------------------------------------------------------------- invariant

  /** While it is the tail, the old tail refines its log, and its sent list is what it took since the order. */
  ghost predicate TailOk(h: Hand) {
    h.phase.Closed? || (
      h.tail.isTail && Refines(h.tail, h.log) &&
      if h.phase.Idle? then !h.tail.extending && h.tail.sent == []
      else h.tail.extending && EndsWith(h.log, h.tail.sent) && h.tail.succ == Option.Some(h.joinerAt))
  }

  /** What the joining server will be once everything sent, or still to be sent from the queue, has arrived. */
  ghost predicate JoinerOk(v: Version, h: Hand) {
    h.joiner.sent == [] &&
    var t := Take(h.joiner, h.wire + h.queue);
    t.Some? &&
    match h.phase
    case Idle => h.queue == []
    case Ordered => h.queue == []
    case GaveUp => h.queue == []
    case Sending(c) =>
      |h.log| - |h.tail.sent| <= c <= |h.log| && Books(t.value, h.log[..c]) &&
      t.value.seqNo == HandedSeq(v, h.log[..c], 0) && t.value.pre == Option.Some(h.tailAt)
    case Closing =>
      h.queue != [] && Books(t.value, h.log) && t.value.isTail &&
      t.value.seqNo == HandedSeq(v, h.log, |h.tail.sent|) && t.value.pre == Option.Some(h.tailAt)
    case Closed => h.queue == [] && Books(t.value, h.log) && t.value.isTail && SteppedDown(v, h, t.value)
  }

  /** The old tail has the books of its log, as the new one has, and the two are linked; and how the numbers compare. */
  ghost predicate SteppedDown(v: Version, h: Hand, t: Replica) {
    !h.tail.isTail && !h.tail.extending && h.tail.succ == Option.Some(h.joinerAt) && t.pre == Option.Some(h.tailAt) &&
    h.tail.seqNo == |h.log| && EndsWith(h.log, h.tail.sent) &&
    Refines(h.tail.(isTail := true, sent := []), h.log) &&
    t.seqNo == HandedSeq(v, h.log, |h.tail.sent|)
  }

  ghost predicate HandInv(v: Version, h: Hand) {
    Proper(h.log) && TailOk(h) && JoinerOk(v, h)
  }

  predicate MakesTail(m: ExtendMsg) { m.Fin? || m.SentList? }

  /** The joining server is no tail until the last message has arrived, the only one that makes it so. */
  ghost predicate RoleWaits(h: Hand) {
    var ms, last := h.wire + h.queue, h.phase.Closing? || h.phase.Closed?;
    (h.joiner.isTail ==> h.phase.Closed? && h.wire == []) &&
    forall i :: 0 <= i < |ms| - (if last then 1 else 0) ==> !MakesTail(ms[i])
  }

  // ------------------------------------------------------------------- steps

  /** A tail that takes an update during extension keeps it in the sent list. */
  lemma {:induction false} TailTakes(s: Replica, log: seq<Request>, r: Request, stamp: nat)
    requires Refines(s, log) && s.isTail && (s.extending ==> EndsWith(log, s.sent)) && (!s.extending ==> s.sent == [])
    requires Proper(log + [r]) && (s.isHead || stamp <= |log| + 1)
    ensures var t := ReceiveUpdate(s, r, stamp);
            t.Done? && t.rep.isTail && t.rep.extending == s.extending && t.rep.succ == s.succ &&
            var log' := if t.rep.seqNo > s.seqNo then log + [r] else log;
            Proper(log') && Refines(t.rep, log') && log <= log' &&
            (s.extending ==> EndsWith(log', t.rep.sent) && |log'| - |t.rep.sent| == |log| - |s.sent|) &&
            (!s.extending ==> t.rep.sent == [])
  {
    hide Run, EntryAt, Conclude, EndsWith, UpdateReply;
    NamesLast(log, r);
    ReceiveUpdateRefines(s, log, r, stamp);
    ConcludeRefines(s, log, r);
    if s.extending { EndsWithSnoc(log, s.sent, r); }
    EntryFields(log + [r], |log|);
    SeqIs(s, log);
    hide Refines, SendsFor;
  }

  lemma {:induction false} NamesLast(log: seq<Request>, r: Request)
    requires Proper(log + [r])
    ensures Proper(log) && NamesAccount(log, r) && r.kind != Transfer
  {
    assert r in log + [r] && forall q :: q in log ==> q in log + [r];
  }

  lemma {:induction false} SeqIs(s: Replica, log: seq<Request>)
    requires Refines(s, log)
    ensures s.seqNo == |log|
  {
  }

  lemma {:induction false} ReceiveKeepsSent(s: Replica, msg: ExtendMsg)
    requires s.sent == [] && ReceiveExtend(s, msg).Some?
    ensures ReceiveExtend(s, msg).value.sent == []
  {
    match msg {
      case SentList(es) => AboveKeepsSent(s, es);
      case _ =>
    }
  }

  lemma {:induction false} AboveKeepsSent(s: Replica, es: seq<Entry>)
    requires s.sent == []
    ensures ApplyAllAbove(s, es).sent == []
    decreases |es|
  {
    if es != [] { AboveKeepsSent(ApplyAbove(s, es[0]), es[1..]); }
  }

  /** A cut-short wire is still one that the joining server takes without complaint. */
  lemma {:induction false} WireCut(s: Replica, wire: seq<ExtendMsg>, queue: seq<ExtendMsg>, k: nat)
    requires k <= |wire| && Take(s, wire + queue).Some?
    ensures Take(s, wire[..k]).Some?
  {
    hide Take;
    assert wire + queue == wire[..k] + (wire[k..] + queue);
    TakeAppend(s, wire[..k], wire[k..] + queue);
  }

  lemma {:induction false} TakeKeepsSent(s: Replica, ms: seq<ExtendMsg>)
    requires s.sent == [] && Take(s, ms).Some?
    ensures Take(s, ms).value.sent == []
    decreases |ms|
  {
    hide ReceiveExtend;
    if ms != [] {
      ReceiveKeepsSent(s, ms[0]);
      TakeKeepsSent(ReceiveExtend(s, ms[0]).value, ms[1..]);
    }
  }

  lemma {:induction false} UpdateKeeps(v: Version, h: Hand, r: Request, stamp: nat)
    requires HandInv(v, h) && HandEnabled(v, h, Update(r, stamp))
    ensures HandInv(v, HandNext(v, h, Update(r, stamp)))
    ensures HandNext(v, h, Update(r, stamp)).aborted == h.aborted
  {
    hide Take, Books, Refines, EndsWith, ReceiveUpdate, Proper, HandedSeq, LastNew;
    TailTakes(h.tail, h.log, r, stamp);
    var h' := HandNext(v, h, Update(r, stamp));
    assert h.phase.Sending? ==> h'.log[..h.phase.c] == h.log[..h.phase.c];
  }

  lemma {:induction false} QueryRefines(s: Replica, log: seq<Request>, a: AccountId)
    requires Refines(s, log)
    ensures Refines(HandleQuery(s, a).0, log)
  {
    hide Run;
  }

  lemma {:induction false} QueryKeeps(v: Version, h: Hand, a: AccountId)
    requires HandInv(v, h) && HandEnabled(v, h, Query(a))
    ensures HandInv(v, HandNext(v, h, Query(a)))
    ensures HandNext(v, h, Query(a)).aborted <==> h.phase.Closed?
  {
    hide Take, Books, Refines, EndsWith, Proper, HandedSeq, LastNew;
    if h.tail.isTail { QueryRefines(h.tail, h.log, a); }
  }

  lemma {:induction false} FlagsRefine(s: Replica, log: seq<Request>, extending: bool, succ: Option<Addr>)
    requires Refines(s, log) && s.isTail && s.sent == []
    ensures Refines(s.(extending := extending, succ := succ), log) && EndsWith(log, [])
  {
  }

  lemma {:induction false} OrderKeeps(v: Version, h: Hand)
    requires HandInv(v, h) && HandEnabled(v, h, Order)
    ensures HandInv(v, HandNext(v, h, Order))
    ensures HandNext(v, h, Order).aborted == h.aborted
  {
    hide Take, Books, Refines, EndsWith, Proper, HandedSeq, LastNew;
    FlagsRefine(h.tail, h.log, true, Option.Some(h.joinerAt));
  }

  lemma {:induction false} SnapshotLoads(
      v: Version, x: Replica, s: Replica, log: seq<Request>, self: Addr, ms: seq<ExtendMsg>)
    requires x.sent == [] && Refines(s, log) && s.isTail && IsSnapshot(v, s, self, ms)
    ensures var t := Take(x, ms);
            t.Some? && Books(t.value, log) && t.value.seqNo == HandedSeq(v, log, 0) &&
            t.value.pre == Option.Some(self)
  {
    hide Take, Books, Refines, LastNew;
    if v == Cpp {
      var accounts, keys :| Enumerates(accounts, s.balances.Keys) && Enumerates(keys, s.processed.Keys) &&
        ms == [Start(self)] + (AccountMsgs(accounts, s.balances) + HistoryMsgs(keys, s.processed));
      LoadCpp(x, s, log, self, accounts, keys);
    } else {
      var accounts :|
        (forall a :: a in accounts ==> a in s.balances) && (forall k :: k in s.processed ==> k.1 in accounts) &&
        ms == [Begin(self, s.seqNo)] + PieceMsgs(accounts, s.balances, s.processed);
      LoadDa(x, s, log, self, accounts);
    }
  }

  lemma {:induction false} SnapshotKeeps(v: Version, h: Hand, ms: seq<ExtendMsg>)
    requires HandInv(v, h) && HandEnabled(v, h, Snapshot(ms))
    ensures HandInv(v, HandNext(v, h, Snapshot(ms)))
    ensures HandNext(v, h, Snapshot(ms)).aborted == h.aborted
  {
    hide Take, Books, Refines, EndsWith, Proper, HandedSeq, LastNew, IsSnapshot;
    assert h.wire + h.queue == h.wire && h.log[..|h.log|] == h.log;
    TakeKeepsSent(h.joiner, h.wire);
    TakeAppend(h.joiner, h.wire, ms);
    SnapshotLoads(v, Take(h.joiner, h.wire).value, h.tail, h.log, h.tailAt, ms);
    EndsWithFits(h.log, h.tail.sent);
  }

  lemma {:induction false} StepsDown(v: Version, s: Replica, log: seq<Request>)
    requires Refines(s, log) && s.isTail && EndsWith(log, s.sent)
    ensures var t := StepDown(v, s);
            t.seqNo == |log| && !t.isTail && !t.extending && t.succ == s.succ && EndsWith(log, t.sent) &&
            Refines(t.(isTail := true, sent := []), log)
    ensures v == Cpp ==> StepDown(v, s).sent == s.sent
  {
    hide Run, EntryAt;
  }

  lemma {:induction false} SendKeeps(v: Version, h: Hand)
    requires HandInv(v, h) && HandEnabled(v, h, Send)
    ensures HandInv(v, HandNext(v, h, Send))
    ensures HandNext(v, h, Send).aborted == h.aborted
  {
    hide Take, Books, Refines, EndsWith, Proper, LastNew, StepDown;
    assert (h.wire + [h.queue[0]]) + h.queue[1..] == h.wire + h.queue;
    if h.phase.Closing? { StepsDown(v, h.tail, h.log); }
  }

  lemma {:induction false} DeliverKeeps(v: Version, h: Hand)
    requires HandInv(v, h) && HandEnabled(v, h, Deliver)
    ensures HandInv(v, HandNext(v, h, Deliver))
    ensures HandNext(v, h, Deliver).aborted == h.aborted
  {
    hide ReceiveExtend, Books, Refines, EndsWith, Proper, HandedSeq, LastNew;
    assert (h.wire + h.queue)[1..] == h.wire[1..] + h.queue;
    TakeHead(h.joiner, h.wire + h.queue);
    hide Take;
    ReceiveKeepsSent(h.joiner, h.wire[0]);
  }

  lemma {:induction false} TakeHead(s: Replica, ms: seq<ExtendMsg>)
    requires ms != [] && Take(s, ms).Some?
    ensures ReceiveExtend(s, ms[0]).Some? && Take(s, ms) == Take(ReceiveExtend(s, ms[0]).value, ms[1..])
  {
    hide ReceiveExtend;
  }

  /** The final messages bring a server with the snapshot's books to the old tail's. */
  lemma {:induction false} FinalReplays(v: Version, t: Replica, log: seq<Request>, c: nat, sent: seq<Entry>)
    requires Proper(log) && EndsWith(log, sent) && |log| - |sent| <= c <= |log|
    requires Books(t, log[..c]) && t.seqNo == HandedSeq(v, log[..c], 0)
    ensures var u := Take(t, FinalMsgs(v, sent));
            u.Some? && Books(u.value, log) && u.value.isTail && u.value.seqNo == HandedSeq(v, log, |sent|) &&
            u.value.pre == t.pre
  {
    hide Refines, EndsWith, Proper, LastNew, EntryAt, ApplyAllAbove;
    LastNewBound(log[..c]);
    EndsWithFits(log, sent);
    if v == Cpp {
      hide ReceiveExtend, Take, Books;
      ReplayCpp(t, log, c, sent);
      TakeAppend(t, SentMsgs(sent), [Fin]);
      assert sent == [] ==> log[..c] == log;
      FinTakes(Take(t, SentMsgs(sent)).value, log);
    } else {
      ReplayDa(t, log, c, sent);
      SentListTakes(t, sent);
    }
  }

  lemma {:induction false} FinTakes(t: Replica, log: seq<Request>)
    requires Books(t, log)
    ensures Take(t, [Fin]) == Some(t.(isTail := true)) && Books(t.(isTail := true), log)
  {
    hide Refines;
  }

  lemma {:induction false} SentListTakes(t: Replica, sent: seq<Entry>)
    ensures Take(t, [SentList(sent)]) == Some(ApplyAllAbove(t, sent).(isTail := true))
  {
    hide ApplyAllAbove;
  }

  lemma {:induction false} CloseKeeps(v: Version, h: Hand)
    requires HandInv(v, h) && HandEnabled(v, h, Close)
    ensures HandInv(v, HandNext(v, h, Close))
    ensures HandNext(v, h, Close).aborted == h.aborted
  {
    hide Take, Books, Refines, EndsWith, Proper, HandedSeq, LastNew;
    assert h.wire + h.queue == h.wire;
    TakeAppend(h.joiner, h.wire, FinalMsgs(v, h.tail.sent));
    FinalReplays(v, Take(h.joiner, h.wire).value, h.log, h.phase.c, h.tail.sent);
  }

  lemma {:induction false} TailCrashKeeps(v: Version, h: Hand, tail: Replica, at: Addr, log: seq<Request>, k: nat)
    requires HandInv(v, h) && HandEnabled(v, h, TailCrash(tail, at, log, k))
    ensures HandInv(v, HandNext(v, h, TailCrash(tail, at, log, k)))
  {
    hide Take, Books, Refines, EndsWith, Proper, HandedSeq, LastNew;
    assert h.wire[..k] + [] == h.wire[..k];
    WireCut(h.joiner, h.wire, h.queue, k);
  }

  /** A tail that drops its sent list loses nothing. */
  lemma {:induction false} TailFails(s: Replica, log: seq<Request>)
    requires Refines(s, log) && s.isTail
    ensures Refines(ExtendingServerFail(s), log)
  {
    hide Run;
  }

  lemma {:induction false} JoinerCrashKeeps(v: Version, h: Hand, x: Replica, at: Addr)
    requires HandInv(v, h) && HandEnabled(v, h, JoinerCrash(x, at))
    ensures HandInv(v, HandNext(v, h, JoinerCrash(x, at)))
    ensures HandNext(v, h, JoinerCrash(x, at)).aborted == h.aborted
  {
    hide Books, Refines, EndsWith, Proper, HandedSeq, LastNew;
    TailFails(h.tail, h.log);
  }

  /** Two assertions of the old tail can fail. In src-cpp, a new head at any bank while the extending tail has taken
      updates trips the one that its sent list holds only transfers. In both programs, a query after the tail has
      stepped down trips the one that it is the tail: clients hear of the new tail only later. */
  predicate Tripping(v: Version, h: Hand, l: HandLabel) {
    (v == Cpp && l.NewHead? && !h.phase.Closed? && h.tail.sent != []) || (l.Query? && h.phase.Closed?)
  }

  lemma {:induction false} ProperSent(s: Replica, log: seq<Request>)
    requires Refines(s, log) && Proper(log)
    ensures forall i :: 0 <= i < |s.sent| ==> !IsTransfer(s.sent[i])
  {
    hide Run, EntryAt, Refines;
    forall i | 0 <= i < |s.sent| ensures !IsTransfer(s.sent[i]) { SentInLog(s, log, i); }
  }

  lemma {:induction false} NewHeadKeeps(v: Version, h: Hand, bank: BankId)
    requires HandInv(v, h) && HandEnabled(v, h, NewHead(bank))
    ensures HandInv(v, HandNext(v, h, NewHead(bank)))
    ensures HandNext(v, h, NewHead(bank)).aborted <==> Tripping(v, h, NewHead(bank))
  {
    hide Take, Books, Refines, EndsWith, Proper, HandedSeq, LastNew, ToBank, IsTransfer;
    if !h.phase.Closed? {
      ProperSent(h.tail, h.log);
      if h.tail.sent != [] { assert !IsTransfer(h.tail.sent[0]); }
    }
  }

  lemma {:induction false} RoleRefines(s: Replica, log: seq<Request>, isHead: bool, pre: Option<Addr>)
    requires Refines(s, log)
    ensures Refines(s.(isHead := isHead, pre := pre), log)
  {
    hide Run, EntryAt;
  }

  lemma {:induction false} RepairKeeps(v: Version, h: Hand, l: HandLabel)
    requires HandInv(v, h) && (l.BecomeHead? || l.NewPre?) && HandEnabled(v, h, l)
    ensures HandInv(v, HandNext(v, h, l))
    ensures HandNext(v, h, l).aborted == h.aborted
  {
    hide Take, Books, Refines, EndsWith, Proper, HandedSeq, LastNew;
    var t := HandNext(v, h, l).tail;
    if !h.phase.Closed? { RoleRefines(h.tail, h.log, t.isHead, t.pre); }
    if h.phase.Closed? { RoleRefines(h.tail.(isTail := true, sent := []), h.log, t.isHead, t.pre); }
  }

  lemma {:induction false} GiveUpKeeps(v: Version, h: Hand)
    requires HandInv(v, h) && HandEnabled(v, h, GiveUp)
    ensures HandInv(v, HandNext(v, h, GiveUp))
    ensures HandNext(v, h, GiveUp).aborted == h.aborted
  {
    hide Take, Books, Refines, EndsWith, Proper, HandedSeq, LastNew;
    assert h.wire + [] == h.wire && h.wire[..|h.wire|] == h.wire;
    WireCut(h.joiner, h.wire, h.queue, |h.wire|);
  }

  lemma {:induction false} PlainKeepsRole(s: Replica, m: ExtendMsg)
    requires ReceiveExtend(s, m).Some? && !MakesTail(m)
    ensures ReceiveExtend(s, m).value.isTail == s.isTail
  {
    match m {
      case SentMsg(e) => ReplyIgnoresRole(s.(seqNo := Later(s.seqNo, e.seqNo)), e.req, e.seqNo, 0);
      case _ =>
    }
  }

  lemma {:induction false} PlainPieces(
      accounts: seq<AccountId>, m: map<AccountId, int>, keys: seq<Key>, h: map<Key, Entry>, es: seq<Entry>)
    ensures forall i :: 0 <= i < |AccountMsgs(accounts, m)| ==> !MakesTail(AccountMsgs(accounts, m)[i])
    ensures forall i :: 0 <= i < |PieceMsgs(accounts, m, h)| ==> !MakesTail(PieceMsgs(accounts, m, h)[i])
    ensures (forall k :: k in keys ==> k in h) ==>
              forall i :: 0 <= i < |HistoryMsgs(keys, h)| ==> !MakesTail(HistoryMsgs(keys, h)[i])
    ensures forall i :: 0 <= i < |SentMsgs(es)| ==> !MakesTail(SentMsgs(es)[i])
    decreases |accounts|, |keys|, |es|
  {
    if accounts != [] {
      PlainPieces(accounts[1..], m, keys, h, es);
    } else if keys != [] {
      PlainPieces(accounts, m, keys[1..], h, es);
    } else if es != [] {
      PlainPieces(accounts, m, keys, h, es[1..]);
    }
  }

  lemma {:induction false} PlainSnapshot(v: Version, s: Replica, self: Addr, ms: seq<ExtendMsg>)
    requires IsSnapshot(v, s, self, ms)
    ensures forall i :: 0 <= i < |ms| ==> !MakesTail(ms[i])
  {
    hide AccountMsgs, HistoryMsgs, PieceMsgs;
    match v {
      case Cpp =>
        var accounts, keys :| Enumerates(accounts, s.balances.Keys) && Enumerates(keys, s.processed.Keys) &&
          ms == [Start(self)] + (AccountMsgs(accounts, s.balances) + HistoryMsgs(keys, s.processed));
        PlainPieces(accounts, s.balances, keys, s.processed, []);
      case Da =>
        var accounts :|
          (forall a :: a in accounts ==> a in s.balances) && (forall k :: k in s.processed ==> k.1 in accounts) &&
          ms == [Begin(self, s.seqNo)] + PieceMsgs(accounts, s.balances, s.processed);
        PlainPieces(accounts, s.balances, [], s.processed, []);
    }
  }

  lemma {:induction false} PlainFinal(v: Version, sent: seq<Entry>)
    ensures var ms := FinalMsgs(v, sent);
            ms != [] && forall i :: 0 <= i < |ms| - 1 ==> !MakesTail(ms[i])
  {
    PlainPieces([], map[], [], map[], sent);
  }

  lemma {:induction false} RestartWaits(v: Version, h: Hand, l: HandLabel)
    requires HandInv(v, h) && HandEnabled(v, h, l) && RoleWaits(h)
    requires l.TailCrash? || l.JoinerCrash? || l.GiveUp? || l.Snapshot? || l.Close?
    ensures RoleWaits(HandNext(v, h, l))
  {
    hide Take, Books, Refines, EndsWith, Proper, HandedSeq, LastNew, IsSnapshot, ReceiveExtend, FinalMsgs,
      AbortExtending;
    match l
    case Snapshot(ms) =>
      PlainSnapshot(v, h.tail, h.tailAt, ms);
      assert h.wire + h.queue == h.wire;
    case Close =>
      PlainFinal(v, h.tail.sent);
      assert h.wire + h.queue == h.wire;
    case TailCrash(_, _, _, k) => assert h.wire[..k] + [] <= h.wire + h.queue;
    case JoinerCrash(_, _) => assert HandNext(v, h, l).wire + HandNext(v, h, l).queue == [];
    case GiveUp => assert h.wire + [] <= h.wire + h.queue;
  }

  lemma {:induction false} StepWaits(v: Version, h: Hand, l: HandLabel)
    requires HandInv(v, h) && HandEnabled(v, h, l) && RoleWaits(h)
    ensures RoleWaits(HandNext(v, h, l))
  {
    hide Take, Books, Refines, EndsWith, Proper, HandedSeq, LastNew, IsSnapshot, ReceiveExtend, FinalMsgs, StepDown,
      ReceiveUpdate, ReceiveExtendServer, HandleNewHead, AbortExtending;
    if l.TailCrash? || l.JoinerCrash? || l.GiveUp? || l.Snapshot? || l.Close? {
      RestartWaits(v, h, l);
    } else if l.Send? {
      assert (h.wire + [h.queue[0]]) + h.queue[1..] == h.wire + h.queue;
    } else if l.Deliver? {
      TakeHead(h.joiner, h.wire + h.queue);
      if !MakesTail(h.wire[0]) { PlainKeepsRole(h.joiner, h.wire[0]); }
      assert h.wire[1..] + h.queue == (h.wire + h.queue)[1..];
    }
  }

  /** Every step keeps the invariant; the tail aborts exactly in the steps that trip an assertion. */
  lemma {:induction false} HandStepKeeps(v: Version, h: Hand, l: HandLabel)
    requires HandInv(v, h) && HandEnabled(v, h, l)
    ensures HandInv(v, HandNext(v, h, l))
    ensures HandNext(v, h, l).aborted <==> !l.TailCrash? && (h.aborted || Tripping(v, h, l))
    ensures RoleWaits(h) ==> RoleWaits(HandNext(v, h, l))
  {
    AbortedOnly(v, h, l);
    hide HandInv, HandEnabled, HandNext, RoleWaits;
    if RoleWaits(h) { StepWaits(v, h, l); }
    match l
    case Update(r, stamp) => UpdateKeeps(v, h, r, stamp);
    case Query(a) => QueryKeeps(v, h, a);
    case Order => OrderKeeps(v, h);
    case Snapshot(ms) => SnapshotKeeps(v, h, ms);
    case Send => SendKeeps(v, h);
    case Deliver => DeliverKeeps(v, h);
    case Close => CloseKeeps(v, h);
    case TailCrash(tail, at, log, k) => TailCrashKeeps(v, h, tail, at, log, k);
    case JoinerCrash(x, at) => JoinerCrashKeeps(v, h, x, at);
    case NewHead(bank) => NewHeadKeeps(v, h, bank);
    case BecomeHead => RepairKeeps(v, h, l);
    case NewPre(p) => RepairKeeps(v, h, l);
    case GiveUp => GiveUpKeeps(v, h);
  }

  lemma {:induction false} AbortedOnly(v: Version, h: Hand, l: HandLabel)
    requires HandEnabled(v, h, l)
    ensures h.aborted ==> l.Deliver? || l.TailCrash?
  {
    hide IsSnapshot, Proper, Refines;
  }

  predicate Replaced(ls: seq<HandLabel>) { exists i :: 0 <= i < |ls| && ls[i].TailCrash? }

  /** Somewhere in the run an assertion of the tail is tripped, and no other tail has taken its place since. */
  ghost predicate Trips(v: Version, h: Hand, ls: seq<HandLabel>)
    requires IsHandRun(v, h, ls)
    decreases |ls|
  {
    ls != [] && ((Tripping(v, h, ls[0]) && !Replaced(ls[1..])) || Trips(v, HandNext(v, h, ls[0]), ls[1..]))
  }

  lemma {:induction false} HandRunKeeps(v: Version, h: Hand, ls: seq<HandLabel>)
    requires HandInv(v, h) && IsHandRun(v, h, ls)
    ensures var t := HandAfter(v, h, ls);
            HandInv(v, t) && (RoleWaits(h) ==> RoleWaits(t)) &&
            (t.aborted <==> (h.aborted && !Replaced(ls)) || Trips(v, h, ls))
    decreases |ls|
  {
    hide HandInv, HandEnabled, HandNext, Tripping, RoleWaits;
    if ls != [] {
      HandStepKeeps(v, h, ls[0]);
      HandRunKeeps(v, HandNext(v, h, ls[0]), ls[1..]);
      TripNotCrash(v, h, ls[0]);
      assert Replaced(ls) <==> ls[0].TailCrash? || Replaced(ls[1..]) by {
        if i :| 0 <= i < |ls[1..]| && ls[1..][i].TailCrash? { assert ls[i + 1].TailCrash?; }
        if i :| 1 <= i < |ls| && ls[i].TailCrash? { assert ls[1..][i - 1].TailCrash?; }
      }
    }
  }

  lemma {:induction false} TripNotCrash(v: Version, h: Hand, l: HandLabel)
    ensures Tripping(v, h, l) ==> !l.TailCrash?
  {
  }

  lemma {:induction false} InitialHandKeeps(v: Version, h: Hand)
    requires MayExtend(h)
    ensures HandInv(v, h) && RoleWaits(h)
  {
    hide Refines, Proper, Books;
  }

  // ----------------------------------------------------------------- results

  lemma {:induction false} StepGrows(v: Version, h: Hand, l: HandLabel)
    requires HandEnabled(v, h, l)
    ensures h.log <= HandNext(v, h, l).log
  {
    hide ReceiveUpdate, ReceiveExtend, StepDown, Refines, IsSnapshot, Proper;
  }

  lemma {:induction false} HandLogGrows(v: Version, h: Hand, ls: seq<HandLabel>)
    requires IsHandRun(v, h, ls)
    ensures h.log <= HandAfter(v, h, ls).log
    decreases |ls|
  {
    hide HandNext, HandEnabled;
    if ls != [] {
      StepGrows(v, h, ls[0]);
      HandLogGrows(v, HandNext(v, h, ls[0]), ls[1..]);
    }
  }

  /** The two servers hold the same books, those of the bank run on the log. */
  ghost predicate SameBank(tail: Replica, joiner: Replica, log: seq<Request>) {
    && (forall a :: Balance(joiner.balances, a) == Balance(tail.balances, a) == Balance(Run(log).balances, a))
    && joiner.processed == tail.processed == Run(log).history
    && joiner.sent == []
  }

  lemma {:induction false} BooksAgree(s: Replica, t: Replica, log: seq<Request>)
    requires Books(s, log) && Refines(t.(isTail := true, sent := []), log)
    ensures SameBank(t, s, log)
    ensures s.isTail && s.seqNo == |log| ==> Refines(s, log)
  {
    hide Run;
    assert log[..|log|] == log;
  }

  /** Over every run - updates and queries at any time, new heads, the old tail becoming head, any number of
      transfers cut short by crashes of the old tail or of the joining server - the old tail is down at the end if
      and only if one of two assertions failed and nobody has replaced it: src-cpp's on a new head while it has
      taken updates, and both programs' on a query after it has stepped down. No other assertion fails. Nothing is
      lost. The two are never tail at once, and the new one is tail as soon as the final message has arrived. Then
      they are linked both ways, the old one extends no more, and the new one has its balances and history; in src-da
      its number too. */
  lemma {:induction false} HandOverExact(v: Version, h0: Hand, ls: seq<HandLabel>)
    requires MayExtend(h0) && IsHandRun(v, h0, ls)
    ensures var h := HandAfter(v, h0, ls);
            (h.aborted <==> Trips(v, h0, ls)) && h0.log <= h.log &&
            (!h.phase.Closed? ==> Refines(h.tail, h.log)) && (h.tail.isTail <==> !h.phase.Closed?) &&
            (h.joiner.isTail <==> h.phase.Closed? && h.wire == []) &&
            (h.phase.Closed? && h.wire == [] ==>
               !h.tail.extending && h.tail.succ == Option.Some(h.joinerAt) && h.joiner.pre == Option.Some(h.tailAt) &&
               h.tail.seqNo == |h.log| && SameBank(h.tail, h.joiner, h.log) &&
               (v == Da || h.tail.sent != [] ==> h.joiner.seqNo == h.tail.seqNo && Refines(h.joiner, h.log)))
  {
    hide Refines, Books, SameBank, Proper, EndsWith, LastNew, HandNext, HandEnabled;
    InitialHandKeeps(v, h0);
    HandRunKeeps(v, h0, ls);
    HandLogGrows(v, h0, ls);
    hide MayExtend, IsHandRun, HandAfter;
    var h := HandAfter(v, h0, ls);
    if h.phase.Closed? && h.wire == [] {
      assert h.wire + h.queue == [];
      BooksAgree(h.joiner, h.tail, h.log);
    }
  }

  /** How the transfer came about does not matter: two hand-overs that end with the same log end with
      the same new tail, whatever restarts either went through and whichever program ran. */
  lemma {:induction false} RestartsDoNotMatter(
      v: Version, g: Hand, ls: seq<HandLabel>, v': Version, g': Hand, ls': seq<HandLabel>)
    requires MayExtend(g) && IsHandRun(v, g, ls) && MayExtend(g') && IsHandRun(v', g', ls')
    requires var h, h' := HandAfter(v, g, ls), HandAfter(v', g', ls');
             h.phase.Closed? && h.wire == [] && h'.phase.Closed? && h'.wire == [] && h.log == h'.log
    ensures var h, h' := HandAfter(v, g, ls), HandAfter(v', g', ls');
            h.joiner.processed == h'.joiner.processed &&
            forall a :: Balance(h.joiner.balances, a) == Balance(h'.joiner.balances, a)
  {
    hide Run, Refines, MayExtend, IsHandRun, HandAfter;
    HandOverExact(v, g, ls);
    HandOverExact(v', g', ls');
  }

  /** In src-cpp the new tail ends with the old one's number exactly when an update came in during
      the transfer or the last one before it was not a repeat; otherwise the next update trips the gap assertion. */
  lemma {:induction false} SequenceExactly(h0: Hand, ls: seq<HandLabel>, r: Request)
    requires MayExtend(h0) && IsHandRun(Cpp, h0, ls)
    requires var h := HandAfter(Cpp, h0, ls);
             h.phase.Closed? && h.wire == [] && !h.joiner.isHead
    ensures var h := HandAfter(Cpp, h0, ls);
            var exact := h.tail.sent != [] || h.log == [] || EntryAt(h.log, |h.log| - 1).check == NewReq;
            (h.joiner.seqNo == h.tail.seqNo <==> exact) &&
            (ReceiveUpdate(h.joiner, r, |h.log| + 1).Abort? <==> !exact)
  {
    hide Refines, Books, Proper, EndsWith, EntryAt, LastNew, HandNext, HandEnabled, Conclude, Relay;
    InitialHandKeeps(Cpp, h0);
    HandRunKeeps(Cpp, h0, ls);
    hide MayExtend, IsHandRun, HandAfter;
    var h := HandAfter(Cpp, h0, ls);
    assert h.wire + h.queue == [];
    LastNewBound(h.log);
    ConcludeDone(h.joiner, r, |h.log| + 1);
  }

  lemma {:induction false} ConcludeDone(s: Replica, r: Request, n: nat)
    ensures Conclude(s, r, n).Done? && Relay(s, r, n).Done?
  {
    hide UpdateReply, HandleTransfer;
  }

  /** One deposit, sent twice, then a transfer of the history: src-cpp counts 1, src-da 2. */
  lemma {:induction false} RepeatFallsShort()
    ensures var r := Request(1, Deposit, 1, 1, 10, 0, 0);
            var one := ReceiveUpdate(Fresh(false, true, Option.Some(0), None), r, 1).rep;
            var two := ReceiveUpdate(one, r, 2).rep;
            var e := two.processed[(1, 1)];
            var x := Fresh(false, false, None, None);
            two.seqNo == 2 && two.processed == map[(1, 1) := e] && two.balances == map[1 := 10] &&
            Take(x, [Start(1), AccountMsg(1, 10), HistoryMsg(e), Fin]).Some? &&
            Take(x, [Start(1), AccountMsg(1, 10), HistoryMsg(e), Fin]).value.seqNo == 1
  {
    var r := Request(1, Deposit, 1, 1, 10, 0, 0);
    var one := ReceiveUpdate(Fresh(false, true, Option.Some(0), None), r, 1).rep;
    var two := ReceiveUpdate(one, r, 2).rep;
    var e := two.processed[(1, 1)];
    var x0 := Fresh(false, false, None, None);
    var ms := [Start(1), AccountMsg(1, 10), HistoryMsg(e), Fin];
    assert ms[1..] == [AccountMsg(1, 10), HistoryMsg(e), Fin];
    assert ms[1..][1..] == [HistoryMsg(e), Fin];
    assert ms[1..][1..][1..] == [Fin];
    assert ms[1..][1..][1..][1..] == [];
    var x1 := ReceiveExtend(x0, ms[0]).value;
    var x2 := ReceiveExtend(x1, AccountMsg(1, 10)).value;
    var x3 := ReceiveExtend(x2, HistoryMsg(e)).value;
    assert Take(x3, [Fin]).Some? && Take(x3, [Fin]).value.seqNo == 1;
    assert Take(x2, ms[1..][1..]) == Take(x3, [Fin]);
    assert Take(x1, ms[1..]) == Take(x2, ms[1..][1..]);
  }

  /** An order to extend, one deposit, and a new head at any bank: src-cpp's tail aborts. */
  lemma {:induction false} NewHeadTrips(tail: Replica, joiner: Replica, bank: BankId)
    requires tail == Fresh(false, true, Option.Some(0), None) && joiner == Fresh(false, false, None, None)
    ensures var ls := [Order, Update(Request(1, Deposit, 1, 1, 10, 0, 0), 1), NewHead(bank)];
            var h := InitialHand(tail, 1, [], joiner, 2);
            MayExtend(h) && IsHandRun(Cpp, h, ls) && HandAfter(Cpp, h, ls).aborted
  {
    hide Refines, HandNext, HandEnabled, IsHandRun, HandAfter;
    var r := Request(1, Deposit, 1, 1, 10, 0, 0);
    var h := InitialHand(tail, 1, [], joiner, 2);
    var ls := [Order, Update(r, 1), NewHead(bank)];
    FreshRefines(tail);
    OrderStep(Cpp, h);
    var h1 := HandNext(Cpp, h, ls[0]);
    DepositStep(h1, r);
    var h2 := HandNext(Cpp, h1, ls[1]);
    TripStep(h2, bank);
    var h3 := HandNext(Cpp, h2, ls[2]);
    NoStep(Cpp, h3);
    assert [ls[0]] + [ls[1], ls[2]] == ls && [ls[1]] + [ls[2]] == [ls[1], ls[2]] && [ls[2]] + [] == [ls[2]];
    OneStep(Cpp, h2, ls[2], []);
    OneStep(Cpp, h1, ls[1], [ls[2]]);
    OneStep(Cpp, h, ls[0], [ls[1], ls[2]]);
  }

  /** An order to extend, the transfer of an empty bank, and a query by a client that has not heard of the new tail yet:
      the old tail aborts, in both programs. */
  lemma {:induction false} QueryTrips(v: Version, tail: Replica, joiner: Replica, a: AccountId)
    requires tail == Fresh(false, true, Option.Some(0), None) && joiner == Fresh(false, false, None, None)
    ensures var ms := if v == Cpp then [Start(1)] else [Begin(1, 0)];
            var ls := [Order, Snapshot(ms), Send, Close, Send, Query(a)];
            var h := InitialHand(tail, 1, [], joiner, 2);
            MayExtend(h) && IsHandRun(v, h, ls) && HandAfter(v, h, ls).aborted
  {
    hide Refines, HandNext, HandEnabled, IsHandRun, HandAfter;
    var ms := if v == Cpp then [Start(1)] else [Begin(1, 0)];
    var h := InitialHand(tail, 1, [], joiner, 2);
    var ls := [Order, Snapshot(ms), Send, Close, Send, Query(a)];
    FreshRefines(tail);
    OrderStep(v, h);
    var h1 := HandNext(v, h, ls[0]);
    EmptySnapshot(v, h1, ms);
    var h2 := HandNext(v, h1, ls[1]);
    SendOne(v, h2);
    var h3 := HandNext(v, h2, ls[2]);
    CloseEmpty(v, h3);
    var h4 := HandNext(v, h3, ls[3]);
    SendOne(v, h4);
    var h5 := HandNext(v, h4, ls[4]);
    QueryStep(v, h5, a);
    var h6 := HandNext(v, h5, ls[5]);
    NoStep(v, h6);
    var l1, l2, l3, l4, l5 := ls[1..], ls[2..], ls[3..], ls[4..], ls[5..];
    assert l5 == [ls[5]] + [] && l4 == [ls[4]] + l5 && l3 == [ls[3]] + l4;
    assert l2 == [ls[2]] + l3 && l1 == [ls[1]] + l2 && ls == [ls[0]] + l1;
    OneStep(v, h5, ls[5], []);
    OneStep(v, h4, ls[4], l5);
    OneStep(v, h3, ls[3], l4);
    OneStep(v, h2, ls[2], l3);
    OneStep(v, h1, ls[1], l2);
    OneStep(v, h, ls[0], l1);
  }

  lemma {:induction false} EmptySnapshot(v: Version, h: Hand, ms: seq<ExtendMsg>)
    requires h.phase.Ordered? && !h.aborted && h.tailAt == 1 && h.tail.balances == map[] && h.tail.processed == map[] &&
             h.tail.seqNo == 0
    requires ms == if v == Cpp then [Start(1)] else [Begin(1, 0)]
    ensures HandEnabled(v, h, Snapshot(ms))
    ensures HandNext(v, h, Snapshot(ms)) == h.(queue := ms, phase := Sending(|h.log|))
  {
    var accounts: seq<AccountId>, keys: seq<Key> := [], [];
    if v == Cpp {
      assert Enumerates(accounts, h.tail.balances.Keys) && Enumerates(keys, h.tail.processed.Keys);
      assert ms == [Start(1)] + (AccountMsgs(accounts, h.tail.balances) + HistoryMsgs(keys, h.tail.processed));
    } else {
      assert ms == [Begin(1, h.tail.seqNo)] + PieceMsgs(accounts, h.tail.balances, h.tail.processed);
    }
    assert IsSnapshot(v, h.tail, 1, ms);
  }

  lemma {:induction false} SendOne(v: Version, h: Hand)
    requires |h.queue| == 1 && !h.aborted
    ensures HandEnabled(v, h, Send)
    ensures var t := HandNext(v, h, Send);
            t.queue == [] && !t.aborted &&
            if h.phase.Closing? then t.phase.Closed? && !t.tail.isTail else t.phase == h.phase && t.tail == h.tail
  {
    assert h.queue[1..] == [];
  }

  lemma {:induction false} CloseEmpty(v: Version, h: Hand)
    requires h.phase.Sending? && h.queue == [] && !h.aborted && h.tail.sent == []
    ensures HandEnabled(v, h, Close)
    ensures var t := HandNext(v, h, Close); |t.queue| == 1 && t.phase == Closing && !t.aborted
  {
  }

  lemma {:induction false} QueryStep(v: Version, h: Hand, a: AccountId)
    requires !h.aborted && !h.tail.isTail
    ensures HandEnabled(v, h, Query(a)) && HandNext(v, h, Query(a)).aborted
  {
  }

  lemma {:induction false} NoStep(v: Version, h: Hand)
    ensures IsHandRun(v, h, []) && HandAfter(v, h, []) == h
  {
  }

  lemma {:induction false} OrderStep(v: Version, h: Hand)
    requires h.phase.Idle? && !h.aborted && h.tail.sent == []
    ensures HandEnabled(v, h, Order)
    ensures HandNext(v, h, Order) ==
            h.(tail := h.tail.(extending := true, succ := Option.Some(h.joinerAt)), phase := Ordered)
  {
  }

  lemma {:induction false} DepositStep(h: Hand, r: Request)
    requires h.phase.Ordered? && !h.aborted && h.log == [] && r.kind == Deposit
    requires h.tail.isTail && !h.tail.isHead && h.tail.extending && h.tail.sent == [] && h.tail.seqNo == 0
    ensures HandEnabled(Cpp, h, Update(r, 1))
    ensures var t := HandNext(Cpp, h, Update(r, 1));
            t.phase == Ordered && !t.aborted && t.tail.isTail && t.tail.sent != [] && !IsTransfer(t.tail.sent[0])
  {
    TakesDeposit(h.tail, r);
    hide ReceiveUpdate;
  }

  lemma {:induction false} TripStep(h: Hand, bank: BankId)
    requires !h.aborted && h.tail.isTail && h.tail.sent != [] && !IsTransfer(h.tail.sent[0])
    ensures HandEnabled(Cpp, h, NewHead(bank)) && HandNext(Cpp, h, NewHead(bank)).aborted
  {
  }

  lemma {:induction false} OneStep(v: Version, h: Hand, l: HandLabel, ls: seq<HandLabel>)
    requires HandEnabled(v, h, l) && IsHandRun(v, HandNext(v, h, l), ls)
    ensures IsHandRun(v, h, [l] + ls) && HandAfter(v, h, [l] + ls) == HandAfter(v, HandNext(v, h, l), ls)
  {
    hide HandEnabled, HandNext;
    assert ([l] + ls)[1..] == ls;
  }

  lemma {:induction false} FreshRefines(s: Replica)
    requires s == Fresh(s.isHead, s.isTail, s.pre, s.succ)
    ensures Refines(s, []) && Proper([])
  {
  }

  lemma {:induction false} TakesDeposit(s: Replica, r: Request)
    requires s.isTail && !s.isHead && s.extending && s.sent == [] && s.seqNo == 0 && r.kind == Deposit
    ensures var t := ReceiveUpdate(s, r, 1);
            t.Done? && t.rep.isTail && t.rep.seqNo == 1 && |t.rep.sent| == 1 && t.rep.sent[0].req == r
  {
    ReplyFor(s, r, 1);
    hide UpdateReply;
  }

  lemma {:induction false} ReplyFor(s: Replica, r: Request, n: nat)
    ensures var (s1, e) := UpdateReply(s, r, n); s1 == s.(balances := s1.balances) && e.req == r && e.seqNo == n
  {
    hide Move;
  }

  // -------------------------------------------------------------- completion

  lemma {:induction false} CanEnumerate<T(!new)>(all: set<T>)
    ensures exists xs :: Enumerates(xs, all)
    decreases all
  {
    if all == {} {
      var none: seq<T> := [];
      assert Enumerates(none, all);
    } else {
      var x :| x in all;
      CanEnumerate(all - {x});
      var xs :| Enumerates(xs, all - {x});
      assert forall i :: 0 <= i < |xs| ==> xs[i] in all - {x};
      assert Enumerates(xs + [x], all);
    }
  }

  lemma {:induction false} CanSnapshot(v: Version, s: Replica, log: seq<Request>, self: Addr)
    requires Refines(s, log) && s.isTail
    ensures exists ms :: IsSnapshot(v, s, self, ms)
  {
    CanEnumerate(s.balances.Keys);
    var accounts :| Enumerates(accounts, s.balances.Keys);
    if v == Cpp {
      CanEnumerate(s.processed.Keys);
      var keys :| Enumerates(keys, s.processed.Keys);
      var ms := AccountMsgs(accounts, s.balances) + HistoryMsgs(keys, s.processed);
      assert IsSnapshot(v, s, self, [Start(self)] + ms);
    } else {
      forall k | k in s.processed ensures k.1 in accounts { ProcessedAccount(s, log, k); }
      assert IsSnapshot(v, s, self, [Begin(self, s.seqNo)] + PieceMsgs(accounts, s.balances, s.processed));
    }
  }

  lemma {:induction false} ProcessedAccount(s: Replica, log: seq<Request>, k: Key)
    requires Refines(s, log) && s.isTail && k in s.processed
    ensures k.1 in s.balances
  {
    TailHistory(s, log);
    HistoryIsFirsts(log, k);
    hide Run, Refines;
    assert log[FirstIndex(log, k)] in log;
  }

  function PhasesLeft(p: Phase): nat {
    match p
    case Idle => 4
    case Ordered => 3
    case Sending(_) => 2
    case Closing => 1
    case Closed => 0
    case GaveUp => 5
  }

  /** How far a hand-over is from its end: the tail's replacement, phases, messages to send, messages to arrive. */
  ghost predicate Nearer(h': Hand, h: Hand) {
    (h.aborted && !h'.aborted) ||
    (h'.aborted == h.aborted && PhasesLeft(h'.phase) < PhasesLeft(h.phase)) ||
    (h'.aborted == h.aborted && h'.phase == h.phase && |h'.queue| < |h.queue|) ||
    (h'.aborted == h.aborted && h'.phase == h.phase && h'.queue == h.queue && |h'.wire| < |h.wire|)
  }

  /** The next step of a hand-over that nothing disturbs. */
  lemma {:induction false} NextStep(v: Version, h: Hand)
    requires HandInv(v, h) && !(h.phase.Closed? && h.wire == [])
    ensures exists l :: HandEnabled(v, h, l) && Nearer(HandNext(v, h, l), h)
  {
    hide Take, Books, Refines, EndsWith, Proper, HandedSeq, LastNew, IsSnapshot, ReceiveExtend, StepDown, ReceiveUpdate;
    if h.aborted && !h.phase.Closed? {
      TailFails(h.tail, h.log);
      assert HandEnabled(v, h, TailCrash(ExtendingServerFail(h.tail), h.tailAt, h.log, 0));
    } else if h.wire != [] {
      TakeHead(h.joiner, h.wire + h.queue);
      assert HandEnabled(v, h, Deliver);
    } else if h.queue != [] {
      assert HandEnabled(v, h, Send);
    } else {
      match h.phase {
        case Idle => assert HandEnabled(v, h, Order);
        case Ordered =>
          CanSnapshot(v, h.tail, h.log, h.tailAt);
          var ms :| IsSnapshot(v, h.tail, h.tailAt, ms);
          assert HandEnabled(v, h, Snapshot(ms));
        case Sending(_) => assert HandEnabled(v, h, Close);
        case GaveUp => assert HandEnabled(v, h, JoinerCrash(Fresh(false, false, None, None), 0));
        case Closing =>
        case Closed =>
      }
    }
  }

  /** A hand-over can be completed from wherever it is: no crash leaves it stuck. */
  lemma {:induction false} HandOverCompletes(v: Version, h: Hand)
    requires HandInv(v, h)
    ensures exists ls :: IsHandRun(v, h, ls) && var t := HandAfter(v, h, ls); t.phase.Closed? && t.wire == []
    decreases h.aborted, PhasesLeft(h.phase), |h.queue|, |h.wire|
  {
    hide HandInv, HandEnabled, HandNext, PhasesLeft;
    if h.phase.Closed? && h.wire == [] {
      assert IsHandRun(v, h, []) && HandAfter(v, h, []) == h;
    } else {
      NextStep(v, h);
      var l :| HandEnabled(v, h, l) && Nearer(HandNext(v, h, l), h);
      HandStepKeeps(v, h, l);
      var h' := HandNext(v, h, l);
      HandOverCompletes(v, h');
      var ls :| IsHandRun(v, h', ls) && var t := HandAfter(v, h', ls); t.phase.Closed? && t.wire == [];
      assert ([l] + ls)[1..] == ls;
      assert IsHandRun(v, h, [l] + ls) && HandAfter(v, h, [l] + ls) == HandAfter(v, h', ls);
    }
  }

  // ------------------------------------------------------------ around it

  /** The predecessor of a crashed tail, once told to be tail, can carry on the transfer. */
  lemma {:induction false} PredecessorTakesOver(v: Version, h: Hand, s: Replica, at: Addr, log: seq<Request>, k: nat)
    requires !h.phase.Closed? && k <= |h.wire|
    requires h.log <= log && Proper(log) && Refines(s, log) && !s.extending
    ensures HandEnabled(v, h, TailCrash(ToBeTail(s).rep, at, log, k))
  {
    hide Refines, Promote, NamesAccount;
    ToBeTailRefines(s, log);
  }
}
