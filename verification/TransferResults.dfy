/** Money across two chains: nothing is lost, nothing is made, nothing arrives twice. */
module TransferResults {
  import opened Bank
  import opened Replicas
  import opened Masters
  import opened Chains
  import opened ChainSteps
  import opened ChainResults
  import opened Transfers

  // ------------------------------------------------------------- two logs

  /** The destination's log takes transfers only from the source's: each incoming
      request is a successful transfer of `src`, and shares its id with no other request of `dst`. */
  ghost predicate Matched(src: seq<Request>, dst: seq<Request>) {
    && (forall r :: r in dst && r.kind == TransferTo ==>
          exists i :: 0 <= i < |src| && PendingTransfer(EntryAt(src, i)) && Outgoing(src[i]) == r)
    && (forall q, r :: q in dst && r in dst && r.kind == TransferTo && q.id == r.id ==> q == r)
  }

  /** No two successful transfers of the log share an id. */
  ghost predicate TransfersDistinct(src: seq<Request>) {
    forall i, j :: 0 <= i < |src| && 0 <= j < |src| && src[i].id == src[j].id ==>
      PendingTransfer(EntryAt(src, i)) && PendingTransfer(EntryAt(src, j)) ==> i == j
  }

  /** Total amount of the successful transfers among the first `n` entries of `src` that
      are (`there`) or are not in the log `dst`. */
  function Sent(src: seq<Request>, n: nat, dst: seq<Request>, there: bool): int
    requires n <= |src|
  {
    if n == 0 then 0
    else Sent(src, n - 1, dst, there) +
         if PendingTransfer(EntryAt(src, n - 1)) && (Outgoing(src[n - 1]) in dst) == there
         then src[n - 1].amount else 0
  }

  /** Taken at the source, not yet paid in at the destination. */
  function InFlight(src: seq<Request>, dst: seq<Request>): int { Sent(src, |src|, dst, false) }

  lemma {:induction false} MovedPrefix(log: seq<Request>, n: nat, k: Kind)
    requires n < |log|
    ensures Moved(log[..n + 1], k) ==
            Moved(log[..n], k) + (var e := EntryAt(log, n); if Effective(e) &&
            log[n].kind == k then log[n].amount else 0)
  {
    hide Run, Serve, EntryAt;
    assert log[..n + 1] == log[..n] + [log[n]];
    MovedSnoc(log[..n], log[n], k);
    EntryAtPrefix(log[..n + 1], log, n);
  }

  /** What the source's transfers took is either in flight or has arrived. */
  lemma {:induction false} SentSplits(src: seq<Request>, n: nat, dst: seq<Request>)
    requires n <= |src|
    ensures Moved(src[..n], Transfer) == Sent(src, n, dst, true) + Sent(src, n, dst, false)
  {
    hide Run, Serve, EntryAt;
    if n > 0 {
      SentSplits(src, n - 1, dst);
      MovedPrefix(src, n - 1, Transfer);
      EntryFields(src, n - 1);
    }
  }

  /** A request that enters the destination's log for the first time brings in
      the amount of the one transfer it comes from. */
  lemma {:induction false} SentSnoc(src: seq<Request>, n: nat, dst: seq<Request>, r: Request)
    requires n <= |src| && TransfersDistinct(src) && r !in dst
    ensures Sent(src, n, dst + [r], true) == Sent(src, n, dst, true) +
            if exists i :: 0 <= i < n && PendingTransfer(EntryAt(src, i)) && Outgoing(src[i]) == r then r.amount else 0
  {
    hide Run, Serve, EntryAt, PendingTransfer;
    if n > 0 {
      SentSnoc(src, n - 1, dst, r);
      if PendingTransfer(EntryAt(src, n - 1)) && Outgoing(src[n - 1]) == r {
        assert forall i :: 0 <= i < n - 1 && PendingTransfer(EntryAt(src, i)) ==> Outgoing(src[i]) != r;
      }
    }
  }

  lemma {:induction false} SentSame(src: seq<Request>, n: nat, dst: seq<Request>, dst': seq<Request>)
    requires n <= |src| && forall i :: 0 <= i < n ==> (Outgoing(src[i]) in dst <==> Outgoing(src[i]) in dst')
    ensures Sent(src, n, dst, true) == Sent(src, n, dst', true)
  {
    hide Run, Serve, EntryAt, PendingTransfer;
    if n > 0 { SentSame(src, n - 1, dst, dst'); }
  }

  /** An incoming transfer is paid in when it is first seen, and only then. */
  lemma {:induction false} IncomingEffect(dst: seq<Request>, n: nat)
    requires n < |dst| && dst[n].kind == TransferTo
    requires forall q :: q in dst && q.id == dst[n].id ==> q == dst[n]
    ensures Effective(EntryAt(dst, n)) <==> dst[n] !in dst[..n]
    ensures EntryAt(dst, n).reply.outcome == Processed
  {
    JudgedAgainst(dst, n);
    hide Run, EntryAt;
    if HasKey(dst[..n], KeyOf(dst[n])) {
      var f := FirstIndex(dst[..n], KeyOf(dst[n]));
      assert dst[f] in dst && dst[f] == dst[..n][f];
      JudgedAgainst(dst, f);
      FirstIncoming(dst, f);
    } else {
      assert forall j :: 0 <= j < n ==> KeyOf(dst[..n][j]) != KeyOf(dst[n]);
      FirstIncoming(dst, n);
    }
  }

  lemma {:induction false} FirstIncoming(dst: seq<Request>, n: nat)
    requires n < |dst| && dst[n].kind == TransferTo
    ensures EntryAt(dst, n).check == NewReq ==> EntryAt(dst, n).reply.outcome == Processed
  {
    hide Run;
  }

  /** What has arrived is what the destination paid in. */
  lemma {:induction false} ArrivedIsPaidIn(src: seq<Request>, dst: seq<Request>, n: nat)
    requires Matched(src, dst) && TransfersDistinct(src) && n <= |dst|
    ensures Sent(src, |src|, dst[..n], true) == Moved(dst[..n], TransferTo)
  {
    hide Run, Serve, EntryAt, PendingTransfer;
    if n == 0 {
      SentNone(src, |src|);
    } else {
      var p, r := dst[..n - 1], dst[n - 1];
      assert dst[..n] == p + [r] && r in dst;
      ArrivedIsPaidIn(src, dst, n - 1);
      MovedPrefix(dst, n - 1, TransferTo);
      if r.kind == TransferTo {
        IncomingEffect(dst, n - 1);
        if r in p { SentSame(src, |src|, p, p + [r]); } else { SentSnoc(src, |src|, p, r); }
      } else {
        SentSame(src, |src|, p, p + [r]);
      }
    }
  }

  lemma {:induction false} SentNone(src: seq<Request>, n: nat)
    requires n <= |src|
    ensures Sent(src, n, [], true) == 0
  {
    hide Run, Serve, EntryAt, PendingTransfer;
    if n > 0 { SentNone(src, n - 1); }
  }

  /** What one log's transfers took is in flight or was paid in by the other log. */
  lemma {:induction false} TransfersArrive(src: seq<Request>, dst: seq<Request>)
    requires Matched(src, dst) && TransfersDistinct(src)
    ensures Moved(src, Transfer) == Moved(dst, TransferTo) + InFlight(src, dst)
  {
    hide Run, Serve, EntryAt, Matched, TransfersDistinct;
    assert src[..|src|] == src && dst[..|dst|] == dst;
    SentSplits(src, |src|, dst);
    ArrivedIsPaidIn(src, dst, |dst|);
  }

  /** The money in two logs that take transfers from each other, and between them, is what
      was deposited minus what was withdrawn. */
  lemma {:induction false} LogsConserve(a: seq<Request>, b: seq<Request>)
    requires Matched(a, b) && TransfersDistinct(a) && Matched(b, a) && TransfersDistinct(b)
    ensures Sum(Run(a).balances) + Sum(Run(b).balances) + InFlight(a, b) + InFlight(b, a) ==
            Moved(a, Deposit) + Moved(b, Deposit) - Moved(a, Withdraw) - Moved(b, Withdraw)
  {
    hide Run, Serve, EntryAt, Matched, TransfersDistinct, InFlight;
    SumOfBalances(a);
    SumOfBalances(b);
    TransfersArrive(a, b);
    TransfersArrive(b, a);
  }

  lemma {:induction false} SumDrop(m: map<AccountId, int>, a: AccountId)
    ensures Sum(m) == Balance(m, a) + Sum(m - {a})
  {
    if a in m { SumRemove(m, a); } else { assert m - {a} == m; }
  }

  lemma {:induction false} SameAfterDrop(m: map<AccountId, int>, n: map<AccountId, int>, a: AccountId)
    requires forall b :: Balance(m, b) == Balance(n, b)
    ensures forall b :: Balance(m - {a}, b) == Balance(n - {a}, b)
  {
    forall b ensures Balance(m - {a}, b) == Balance(n - {a}, b) { assert Balance(m, b) == Balance(n, b); }
  }

  lemma {:induction false} SameWithin(m: map<AccountId, int>, n: map<AccountId, int>, keys: set<AccountId>)
    requires m.Keys <= keys && n.Keys <= keys
    requires forall a :: Balance(m, a) == Balance(n, a)
    ensures Sum(m) == Sum(n)
    decreases keys
  {
    if keys == {} {
      assert m == map[] && n == map[];
    } else {
      hide Sum;
      var a :| a in keys;
      assert Balance(m, a) == Balance(n, a);
      SumDrop(m, a);
      SumDrop(n, a);
      SameAfterDrop(m, n, a);
      SameWithin(m - {a}, n - {a}, keys - {a});
    }
  }

  /** Accounts at balance 0 do not matter. */
  lemma {:induction false} SumSame(m: map<AccountId, int>, n: map<AccountId, int>)
    requires forall a :: Balance(m, a) == Balance(n, a)
    ensures Sum(m) == Sum(n)
  {
    SameWithin(m, n, m.Keys + n.Keys);
  }

  // ------------------------------------------------------------- two chains

  lemma {:induction false} CommittedIssued(s: State)
    requires Inv(s)
    ensures Sane(s) && forall r :: r in Committed(s) ==> r in s.issued && (r.kind == Transfer ==> s.pinned)
  {
    hide Inv;
    InvSane(s);
    InvOrigins(s);
    assert Live(s, LastLive(s));
  }

  lemma {:induction false} IncomingSource(p: Pair, r: Request)
    requires Inv(p.src) && Sources(p) && r in p.dst.issued && r.kind == TransferTo
    ensures Sane(p.src)
    ensures var src := Committed(p.src);
            exists i :: 0 <= i < |src| && PendingTransfer(EntryAt(src, i)) && Outgoing(src[i]) == r
  {
    hide Inv, Run, Serve, EntryAt, PendingTransfer;
    InvSane(p.src);
    var e :| e in p.src.forwarded && r == Outgoing(e.req);
    ForwardedPinned(p.src, e);
    TailLive(p.src);
    ForwardedIsEntry(p.src, e);
    EntryFieldsOf(L'(p.src), e);
    assert Outgoing(Committed(p.src)[e.seqNo - 1]) == r;
  }

  lemma {:induction false} PairLogs(p: Pair)
    requires Inv(p.src) && Inv(p.dst) && Ids(p) && Sources(p)
    ensures Sane(p.src) && Sane(p.dst)
    ensures Matched(Committed(p.src), Committed(p.dst)) && TransfersDistinct(Committed(p.src))
  {
    hide Inv, Run, Serve, EntryAt, PendingTransfer;
    CommittedIssued(p.src);
    CommittedIssued(p.dst);
    var src, dst := Committed(p.src), Committed(p.dst);
    forall r | r in dst && r.kind == TransferTo
      ensures exists i :: 0 <= i < |src| && PendingTransfer(EntryAt(src, i)) && Outgoing(src[i]) == r
    {
      IncomingSource(p, r);
    }
    forall q, r | q in dst && r in dst && r.kind == TransferTo && q.id == r.id ensures q == r {
      IncomingUnique(p, q, r);
    }
    DistinctTransfers(p.src);
  }

  lemma {:induction false} DistinctTransfers(s: State)
    requires Inv(s)
    ensures Sane(s) && TransfersDistinct(Committed(s))
  {
    hide Inv, Run, Serve, EntryAt, PendingTransfer;
    CommittedIssued(s);
    var log := Committed(s);
    forall i, j | 0 <= i < |log| && 0 <= j < |log| && log[i].id == log[j].id &&
                  PendingTransfer(EntryAt(log, i)) && PendingTransfer(EntryAt(log, j)) ensures i == j
    {
      EntryFields(log, i);
      EntryFields(log, j);
      PendingPins(s, i);
      TailLive(s);
      ForwardedUnique(s, EntryAt(log, i), EntryAt(log, j));
    }
  }

  /** A committed transfer means that the chain may send transfers. */
  lemma {:induction false} PendingPins(s: State, i: nat)
    requires Inv(s) && Sane(s) && i < |Committed(s)| && PendingTransfer(EntryAt(Committed(s), i))
    ensures s.pinned
  {
    hide Inv, Run, Serve, EntryAt;
    CommittedIssued(s);
    EntryFields(Committed(s), i);
    assert Committed(s)[i] in Committed(s);
  }

  /** Two chains seen in one of the two directions. */
  function Seen(p: Pair, back: bool): Pair { if back then Swap(p) else p }

  lemma {:induction false} SeenInv(a: Setup, b: Setup, ls: seq<PairLabel>, back: bool)
    requires MayStart(a, b) && PairRun(InitialPair(a, b), ls)
    ensures PairInv(Seen(PairAfter(InitialPair(a, b), ls), back))
  {
    hide PairInv, PairApply, PairEnabled, Initial;
    InitialPairKeeps(a, b);
    PairRunKeeps(InitialPair(a, b), ls);
    SwapInv(PairAfter(InitialPair(a, b), ls));
  }

  lemma {:induction false} PairFacts(p: Pair)
    requires PairInv(p)
    ensures Inv(p.src) && Inv(p.dst) && Ids(p) && Sources(p) && Ids(Swap(p)) && Sources(Swap(p))
    ensures Sane(p.src) && Sane(p.dst)
    ensures p.src.pinned ==> Tracked(p) && AcksSettled(p)
  {
    hide Inv, Tracked, AcksSettled;
    InvSane(p.src);
    InvSane(p.dst);
  }

  /** Money is conserved: over every run, the balances at the two chains' last live servers plus the
      transfers one has committed and the other not, in both directions, are the deposits minus the
      withdrawals of both banks, each counted once. */
  lemma {:induction false} MoneyConserved(a: Setup, b: Setup, ls: seq<PairLabel>)
    requires MayStart(a, b) && PairRun(InitialPair(a, b), ls)
    ensures var p := PairAfter(InitialPair(a, b), ls);
            Sane(p.src) && Sane(p.dst) &&
            (var src, dst := Committed(p.src), Committed(p.dst);
             Sum(p.src.nodes[LastLive(p.src)].rep.balances) + Sum(p.dst.nodes[LastLive(p.dst)].rep.balances) +
               InFlight(src, dst) + InFlight(dst, src) ==
               Moved(src, Deposit) + Moved(dst, Deposit) - Moved(src, Withdraw) - Moved(dst, Withdraw))
  {
    hide Inv, Run, PairApply, PairEnabled, Initial, InFlight, Moved, Matched, TransfersDistinct, Ids, Sources, Tracked,
      AcksSettled, Refines, PairInv;
    SeenInv(a, b, ls, false);
    var p := PairAfter(InitialPair(a, b), ls);
    PairFacts(p);
    PairLogs(p);
    PairLogs(Swap(p));
    LogsConserve(Committed(p.src), Committed(p.dst));
    TailSum(p.src, LastLive(p.src));
    TailSum(p.dst, LastLive(p.dst));
  }

  lemma {:induction false} TailSum(s: State, x: Addr)
    requires Inv(s) && x in s.live && x in s.nodes
    ensures Sum(s.nodes[x].rep.balances) == Sum(Run(L(s, x)).balances)
  {
    hide Inv, Run, Refines;
    InvBooks(s, x);
    RefinesBalances(s.nodes[x].rep, L(s, x));
    SumSame(s.nodes[x].rep.balances, Run(L(s, x)).balances);
  }

  /** Each incoming transfer is paid in at most once, and with the amount its one source transfer took. */
  lemma {:induction false} PaidInOnce(a: Setup, b: Setup, ls: seq<PairLabel>, back: bool, i: nat, j: nat)
    requires MayStart(a, b) && PairRun(InitialPair(a, b), ls)
    requires var p := Seen(PairAfter(InitialPair(a, b), ls), back);
             Sane(p.dst) && i < |Committed(p.dst)| && j < |Committed(p.dst)| &&
             (var log := Committed(p.dst);
              log[i].kind == TransferTo && Effective(EntryAt(log, i)) &&
              log[j].kind == TransferTo && Effective(EntryAt(log, j)) && log[i].id == log[j].id)
    ensures i == j
    ensures var p := Seen(PairAfter(InitialPair(a, b), ls), back); var dst := Committed(p.dst);
            Sane(p.src) &&
            exists k :: 0 <= k < |Committed(p.src)| && PendingTransfer(EntryAt(Committed(p.src), k)) &&
              var r := Committed(p.src)[k];
              dst[i].id == r.id && dst[i].amount == r.amount && dst[i].bank == r.destBank &&
              dst[i].account == r.destAccount && dst[i].destBank == 0 && dst[i].destAccount == 0
  {
    hide Inv, Run, Serve, EntryAt, PairApply, PairEnabled, Initial, Ids, Sources, Tracked, AcksSettled, PairInv, Seen;
    SeenInv(a, b, ls, back);
    var p := Seen(PairAfter(InitialPair(a, b), ls), back);
    PairFacts(p);
    PairLogs(p);
    var dst := Committed(p.dst);
    assert dst[i] in dst && dst[j] in dst;
    assert dst[i] == dst[j];
    NewUnique(dst, i, j);
  }

  /** A successful transfer that a chain has committed is held in a server's sent list until the
      other bank has applied it: at the tail itself, and at every server before it. */
  lemma {:induction false} HeldUntilApplied(a: Setup, b: Setup, ls: seq<PairLabel>, back: bool, x: Addr, i: nat)
    requires MayStart(a, b) && PairRun(InitialPair(a, b), ls)
    requires var p := Seen(PairAfter(InitialPair(a, b), ls), back);
             Sane(p.src) && x in p.src.live &&
             i < |Committed(p.src)| && PendingTransfer(EntryAt(Committed(p.src), i))
    ensures var p := Seen(PairAfter(InitialPair(a, b), ls), back); var log := Committed(p.src);
            EntryAt(log, i) in p.src.nodes[x].rep.sent || Applied(p.dst, log[i])
  {
    hide Inv, Run, Serve, EntryAt, PairApply, PairEnabled, Initial, Ids, Sources, Tracked, AcksSettled, PairInv, Seen,
      Applied, PendingTransfer;
    SeenInv(a, b, ls, back);
    var p := Seen(PairAfter(InitialPair(a, b), ls), back);
    PairFacts(p);
    PendingPins(p.src, i);
    HeldAt(p, x, i);
  }

  lemma {:induction false} HeldAt(p: Pair, x: Addr, i: nat)
    requires Inv(p.src) && p.src.pinned && Tracked(p) && AcksSettled(p) && Sane(p.src) && x in p.src.live
    requires i < |Committed(p.src)| && PendingTransfer(EntryAt(Committed(p.src), i))
    ensures var log := Committed(p.src); EntryAt(log, i) in p.src.nodes[x].rep.sent || Applied(p.dst, log[i])
  {
    hide Inv, Run, Serve, EntryAt, Applied, PendingTransfer, Acked;
    TailLive(p.src);
    InvSane(p.src);
    var log, t := Committed(p.src), Tail(p.src);
    assert Live(p.src, x);
    if x != t {
      var k := Acked(p.src.nodes[x].rep);
      NotTail(p.src, x);
      assert log <= L(p.src, x);
      SentListCovers(p.src, x, t, i);
      if i < k {
        assert Settled(log, p.dst, k);
      } else {
        EntryAtPrefix(log, L(p.src, x), i);
        assert p.src.nodes[x].rep.sent[i - k] in p.src.nodes[x].rep.sent;
      }
    }
  }

  /** On a new head of `bank` a tail that sends transfers never aborts; it forwards only transfers it
      forwarded before, and every one of them to that bank that the bank has not applied. */
  lemma {:induction false} NewHeadForwardsPending(a: Setup, b: Setup, ls: seq<PairLabel>, back: bool, bank: BankId)
    requires MayStart(a, b) && PairRun(InitialPair(a, b), ls)
    requires Seen(PairAfter(InitialPair(a, b), ls), back).src.pinned
    ensures var p := Seen(PairAfter(InitialPair(a, b), ls), back); var log := L'(p.src);
            Tail(p.src) in p.src.nodes &&
            var s := p.src.nodes[Tail(p.src)].rep; var t := HandleNewHead(s, bank);
            t.Done? && t.rep == s && t.out == SILENT.(transfers := t.out.transfers) &&
            (forall e :: e in t.out.transfers ==> e in p.src.forwarded && e.req.destBank == bank) &&
            forall i :: 0 <= i < |log| && PendingTransfer(EntryAt(log, i)) ==>
              log[i].destBank != bank || Applied(p.dst, log[i]) || EntryAt(log, i) in t.out.transfers
  {
    hide Inv, Run, Serve, EntryAt, PairApply, PairEnabled, Initial, Ids, Sources, Tracked, AcksSettled, PairInv, Seen,
      Applied, PendingTransfer, IsTransfer, IsEntry, ToBank;
    SeenInv(a, b, ls, back);
    var p := Seen(PairAfter(InitialPair(a, b), ls), back);
    PairFacts(p);
    TailLive(p.src);
    ForwardsAgain(p, bank);
  }

  lemma {:induction false} ForwardsAgain(p: Pair, bank: BankId)
    requires Inv(p.src) && p.src.pinned && Tracked(p) && Live(p.src, Tail(p.src))
    ensures var log := L'(p.src); var s := p.src.nodes[Tail(p.src)].rep; var t := HandleNewHead(s, bank);
            t.Done? && t.rep == s && t.out == SILENT.(transfers := t.out.transfers) &&
            (forall e :: e in t.out.transfers ==> e in p.src.forwarded && e.req.destBank == bank) &&
            forall i :: 0 <= i < |log| && PendingTransfer(EntryAt(log, i)) ==>
              log[i].destBank != bank || Applied(p.dst, log[i]) || EntryAt(log, i) in t.out.transfers
  {
    hide Inv, Run, Serve, EntryAt, Applied, PendingTransfer, IsTransfer, IsEntry, ToBank;
    TailLive(p.src);
    var log, s := L'(p.src), p.src.nodes[Tail(p.src)].rep;
    forall e | e in s.sent ensures IsTransfer(e) && e in p.src.forwarded { SentWasForwarded(p, e); }
    forall e ensures e in ToBank(s.sent, bank) <==> e in s.sent && e.req.destBank == bank { ToBankIs(s.sent, bank, e); }
    forall i | 0 <= i < |log| && PendingTransfer(EntryAt(log, i)) && log[i].destBank == bank && !Applied(p.dst, log[i])
      ensures EntryAt(log, i) in ToBank(s.sent, bank)
    {
      EntryFields(log, i);
    }
  }

  lemma {:induction false} SentWasForwarded(p: Pair, e: Entry)
    requires Inv(p.src) && p.src.pinned && Tracked(p)
    requires Live(p.src, Tail(p.src)) && e in p.src.nodes[Tail(p.src)].rep.sent
    ensures IsTransfer(e) && e in p.src.forwarded
  {
    hide Inv, Run, Serve, EntryAt, Applied;
    TailLive(p.src);
    TailSentPends(p.src, e);
  }

  lemma {:induction false} NotTail(s: State, x: Addr)
    requires Inv(s) && Live(s, x) && x != Tail(s)
    ensures !s.nodes[x].rep.isTail
  {
    hide Structure, Prefixes, Contents, Gaps, Links, Repairs, Replies, Books, Origins, AckBound;
  }

  /** The reply to a transfer always says that it was processed. */
  lemma {:induction false} TransferReplySaysProcessed(a: Setup, b: Setup, ls: seq<PairLabel>, back: bool, d: Entry)
    requires MayStart(a, b) && PairRun(InitialPair(a, b), ls)
    requires Chains.ToUpdate(d) in Seen(PairAfter(InitialPair(a, b), ls), back).dst.answers && d.req.kind == TransferTo
    ensures d.reply.outcome == Processed
  {
    hide Inv, Run, Serve, EntryAt, PairApply, PairEnabled, Initial, Ids, Sources, Tracked, AcksSettled, PairInv,
      Seen, IsEntry;
    SeenInv(a, b, ls, back);
    var p := Seen(PairAfter(InitialPair(a, b), ls), back);
    PairFacts(p);
    PairLogs(p);
    InvOrigins(p.dst);
    assert Live(p.dst, LastLive(p.dst));
    var log := Committed(p.dst);
    assert AnswerOk(log, Chains.ToUpdate(d));
    EntryFieldsOf(log, d);
    IncomingEffect(log, d.seqNo - 1);
  }

  lemma {:induction false} EntryFieldsOf(log: seq<Request>, d: Entry)
    requires IsEntry(log, d)
    ensures 1 <= d.seqNo <= |log| && d == EntryAt(log, d.seqNo - 1) && log[d.seqNo - 1] == d.req && d.req in log
  {
    EntryFields(log, d.seqNo - 1);
  }

  // ------------------------------------------- where the source's tail is promoted

  lemma {:induction false} TransfersOfIs(es: seq<Entry>, e: Entry)
    ensures e in TransfersOf(es) <==> e in es && IsTransfer(e)
  {
    if es != [] {
      TransfersOfIs(es[1..], e);
      assert es == [es[0]] + es[1..];
    }
  }

  /** The requests another bank receives for the transfers `es`. */
  function Outgoings(es: seq<Entry>): seq<Request> {
    if es == [] then [] else [Outgoing(es[0].req)] + Outgoings(es[1..])
  }

  /** The transfers in `es` that took money, each once. */
  function Successful(es: seq<Entry>): seq<Entry> {
    if es == [] then [] else (if PendingTransfer(es[0]) then [es[0]] else []) + Successful(es[1..])
  }

  ghost predicate Covers(a: seq<Request>, b: seq<Request>) {
    forall k :: HasKey(a, k) ==> HasKey(b, k)
  }

  lemma {:induction false} PayStep(log: seq<Request>, r: Request)
    requires r.kind == TransferTo
    ensures Sum(Run(log + [r]).balances) == Sum(Run(log).balances) + if HasKey(log, KeyOf(r)) then 0 else r.amount
  {
    RunSnoc(log, r);
    HistoryIsFirsts(log, KeyOf(r));
    hide Run;
    if !HasKey(log, KeyOf(r)) {
      SumUpdate(Run(log).balances, r.account, Balance(Run(log).balances, r.account) + r.amount);
    }
  }

  lemma {:induction false} CoversSnoc(a: seq<Request>, b: seq<Request>, r: Request)
    ensures Covers(a + [r], b) <==> Covers(a, b) && HasKey(b, KeyOf(r))
    ensures Covers(b, a) ==> Covers(b, a + [r]) && Covers(b + [r], a + [r])
    ensures !HasKey(a, KeyOf(r)) && !HasKey(b, KeyOf(r)) ==> (Covers(a + [r], b + [r]) <==> Covers(a, b))
    ensures HasKey(a, KeyOf(r)) && HasKey(b, KeyOf(r)) ==> (Covers(a + [r], b + [r]) <==> Covers(a, b))
  {
    hide HasKey;
    forall k ensures HasKey(a + [r], k) <==> HasKey(a, k) || KeyOf(r) == k { HasKeySnoc(a, r, k); }
    forall k ensures HasKey(b + [r], k) <==> HasKey(b, k) || KeyOf(r) == k { HasKeySnoc(b, r, k); }
    assert HasKey(a + [r], KeyOf(r));
  }

  /** A transfer that took money is the first request under its id. */
  ghost predicate FirstUnderId(es: seq<Entry>) {
    forall i, j :: 0 <= i < j < |es| && PendingTransfer(es[j]) ==> es[i].req.id != es[j].req.id
  }

  /** `a` has been paid all transfers so far, `b` only the successful ones. */
  ghost predicate PaidMore(a: seq<Request>, b: seq<Request>, es: seq<Entry>) {
    && Covers(b, a)
    && (forall e :: e in es && PendingTransfer(e) && HasKey(a, KeyOf(Outgoing(e.req))) ==>
          HasKey(b, KeyOf(Outgoing(e.req))))
    && Sum(Run(a).balances) >= Sum(Run(b).balances)
    && (Sum(Run(a).balances) == Sum(Run(b).balances) <==> Covers(a, b))
  }

  lemma {:induction false} PaidStep(a: seq<Request>, b: seq<Request>, e: Entry, rest: seq<Entry>)
    requires PaidMore(a, b, [e] + rest) && IsTransfer(e) && e.req.amount > 0
    requires forall f :: f in rest && PendingTransfer(f) ==> f.req.id != e.req.id
    ensures PaidMore(a + [Outgoing(e.req)], if PendingTransfer(e) then b + [Outgoing(e.req)] else b, rest)
  {
    hide Run, Sum, HasKey, Covers, PendingTransfer;
    var r := Outgoing(e.req);
    PayStep(a, r);
    PayStep(b, r);
    CoversSnoc(a, b, r);
    CoverKey(b, a, KeyOf(r));
    CoverKey(a, b, KeyOf(r));
    assert e in [e] + rest;
    forall f | f in rest && PendingTransfer(f)
      ensures HasKey(a + [r], KeyOf(Outgoing(f.req))) <==> HasKey(a, KeyOf(Outgoing(f.req)))
      ensures HasKey(b + [r], KeyOf(Outgoing(f.req))) <==> HasKey(b, KeyOf(Outgoing(f.req)))
    {
      HasKeySnoc(a, r, KeyOf(Outgoing(f.req)));
      HasKeySnoc(b, r, KeyOf(Outgoing(f.req)));
    }
    assert forall f :: f in rest ==> f in [e] + rest;
  }

  lemma {:induction false} CoverKey(a: seq<Request>, b: seq<Request>, k: Key)
    ensures Covers(a, b) && HasKey(a, k) ==> HasKey(b, k)
  {
    hide HasKey;
  }

  lemma {:induction false} PaysMore(a: seq<Request>, b: seq<Request>, es: seq<Entry>)
    requires PaidMore(a, b, es) && FirstUnderId(es) && forall e :: e in es ==> e.req.amount > 0
    ensures PaidMore(a + Outgoings(TransfersOf(es)), b + Outgoings(Successful(es)), [])
    decreases |es|
  {
    hide PaidMore, PendingTransfer;
    if es == [] {
      assert a + [] == a && b + [] == b;
      assert es == [];
    } else {
      var e, rest, r := es[0], es[1..], Outgoing(es[0].req);
      assert es == [e] + rest && e in es;
      assert forall f :: f in rest ==> f in es;
      assert FirstUnderId(rest) by { assert forall i :: 0 <= i < |rest| ==> rest[i] == es[i + 1]; }
      forall f | f in rest && PendingTransfer(f) ensures f.req.id != e.req.id {
        var i :| 0 <= i < |rest| && rest[i] == f;
        assert es[i + 1] == f;
      }
      var b' := if PendingTransfer(e) then b + [r] else b;
      SuccessfulStep(b, es);
      if IsTransfer(e) {
        PaidStep(a, b, e, rest);
        PaysMore(a + [r], b', rest);
        assert a + Outgoings(TransfersOf(es)) == (a + [r]) + Outgoings(TransfersOf(rest)) by {
          assert TransfersOf(es) == [e] + TransfersOf(rest);
          assert ([e] + TransfersOf(rest))[1..] == TransfersOf(rest);
        }
      } else {
        PaidLess(a, b, e, rest);
        PaysMore(a, b, rest);
      }
    }
  }

  lemma {:induction false} PaidLess(a: seq<Request>, b: seq<Request>, e: Entry, rest: seq<Entry>)
    requires PaidMore(a, b, [e] + rest)
    ensures PaidMore(a, b, rest)
  {
    hide Run, Sum, HasKey, Covers, PendingTransfer;
    assert forall f :: f in rest ==> f in [e] + rest;
  }

  lemma {:induction false} SuccessfulStep(b: seq<Request>, es: seq<Entry>)
    requires es != []
    ensures var b' := if PendingTransfer(es[0]) then b + [Outgoing(es[0].req)] else b;
            b + Outgoings(Successful(es)) == b' + Outgoings(Successful(es[1..]))
    ensures PendingTransfer(es[0]) ==> IsTransfer(es[0])
  {
    hide Effective;
    var more := Successful(es[1..]);
    if PendingTransfer(es[0]) {
      assert ([es[0]] + more)[1..] == more;
      assert Outgoings([es[0]] + more) == [Outgoing(es[0].req)] + Outgoings(more);
      assert b + ([Outgoing(es[0].req)] + Outgoings(more)) == (b + [Outgoing(es[0].req)]) + Outgoings(more);
    } else {
      assert [] + more == more;
    }
  }

  lemma {:induction false} OutgoingKeys(a: seq<Request>, es: seq<Entry>, k: Key)
    ensures HasKey(a + Outgoings(es), k) <==> HasKey(a, k) || exists e :: e in es && KeyOf(Outgoing(e.req)) == k
    decreases |es|
  {
    hide HasKey;
    if es == [] {
      assert a + Outgoings(es) == a;
    } else {
      var r := Outgoing(es[0].req);
      assert a + Outgoings(es) == (a + [r]) + Outgoings(es[1..]);
      HasKeySnoc(a, r, k);
      OutgoingKeys(a + [r], es[1..], k);
      assert es == [es[0]] + es[1..];
    }
  }

  lemma {:induction false} SentFirsts(s: Replica, log: seq<Request>)
    requires Refines(s, log) && !s.isTail && forall r :: r in log ==> NamesAccount(log, r)
    ensures FirstUnderId(s.sent)
  {
    hide Run, EntryAt;
    SentFields(log, s.sent);
    EndsWithFits(log, s.sent);
    var c := |log| - |s.sent|;
    forall i, j | 0 <= i < j < |s.sent| && PendingTransfer(s.sent[j]) ensures s.sent[i].req.id != s.sent[j].req.id {
      if s.sent[i].req.id == s.sent[j].req.id {
        assert log[c + i] in log && log[c + j] in log;
        NewNotAfter(log, c + i, c + j);
      }
    }
  }

  /** A promoted tail forwards every transfer in its sent list. The other bank then pays at least what the successful
      ones took, and exactly that if and only if every request it receives has the key of a successful
      one or of one that it knew already; otherwise money is made. */
  lemma {:induction false} PromotionPaysExactly(s: Replica, log: seq<Request>, dst: seq<Request>)
    requires Refines(s, log) && !s.isTail
    requires forall r :: r in log ==> NamesAccount(log, r) && r.amount > 0
    ensures var paid := Sum(Run(dst + Outgoings(Replicas.ToBeTail(s).out.transfers)).balances);
            var fair := Sum(Run(dst + Outgoings(Successful(s.sent))).balances);
            paid >= fair &&
            (paid == fair <==> forall e :: e in s.sent && IsTransfer(e) ==>
                                 HasKey(dst + Outgoings(Successful(s.sent)), KeyOf(Outgoing(e.req))))
  {
    hide Run, EntryAt, Sum, Refines, PendingTransfer, HasKey, Promote, Outgoings;
    var all, good := Outgoings(TransfersOf(s.sent)), Outgoings(Successful(s.sent));
    assert Replicas.ToBeTail(s).out.transfers == TransfersOf(s.sent);
    SentFirsts(s, log);
    SentAmounts(s, log);
    PaysMore(dst, dst, s.sent);
    forall k
      ensures HasKey(dst + all, k) <==>
              HasKey(dst, k) || exists e :: e in TransfersOf(s.sent) && KeyOf(Outgoing(e.req)) == k
    {
      OutgoingKeys(dst, TransfersOf(s.sent), k);
    }
    forall k ensures HasKey(dst, k) ==> HasKey(dst + good, k) { OutgoingKeys(dst, Successful(s.sent), k); }
    forall e ensures e in TransfersOf(s.sent) <==> e in s.sent && IsTransfer(e) { TransfersOfIs(s.sent, e); }
    hide TransfersOf, Successful;
  }

  lemma {:induction false} SentAmounts(s: Replica, log: seq<Request>)
    requires Refines(s, log) && forall r :: r in log ==> r.amount > 0
    ensures forall e :: e in s.sent ==> e.req.amount > 0
  {
    hide Run, EntryAt, Refines;
    forall i | 0 <= i < |s.sent| ensures s.sent[i].req.amount > 0 { SentInLog(s, log, i); }
  }

  /** One such input: a transfer refused at the source is paid in at the destination. */
  lemma {:induction false} PromotionForgesMoney()
    ensures var r := Request(1, Transfer, 1, 1, 10, 2, 7);
            var s := ReceiveUpdate(Fresh(false, false, Option.Some(0), Option.Some(2)), r, 1).rep;
            s.sent != [] && s.sent[0].reply.outcome == InsufficientFunds &&
            Replicas.ToBeTail(s).out.transfers == [s.sent[0]] &&
            Run([r]).balances == map[1 := 0] && Run([Outgoing(s.sent[0].req)]).balances == map[7 := 10]
  {
    var r := Request(1, Transfer, 1, 1, 10, 2, 7);
    var s := ReceiveUpdate(Fresh(false, false, Option.Some(0), Option.Some(2)), r, 1).rep;
    RunSnoc([], r);
    RunSnoc([], Outgoing(r));
    assert [] + [r] == [r] && [] + [Outgoing(r)] == [Outgoing(r)];
    assert s.sent == [s.sent[0]] && TransfersOf(s.sent) == [s.sent[0]] + TransfersOf(s.sent[1..]);
  }
}
