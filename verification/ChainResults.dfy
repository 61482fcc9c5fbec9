/** What the invariant gives over whole runs of one chain. */
module ChainResults {
  import opened Bank
  import opened Replicas
  import opened Masters
  import opened Chains
  import opened ChainSteps

  /** Every state of every run from the initial chain satisfies the invariant. */
  lemma {:induction false} RunKeeps(s: State, ls: seq<Label>)
    requires Inv(s) && IsRun(s, ls)
    ensures Inv(After(s, ls))
    decreases |ls|
  {
    hide Inv, Apply, Enabled;
    if ls != [] {
      StepKeeps(s, ls[0]);
      RunKeeps(Apply(s, ls[0]), ls[1..]);
    }
  }

  lemma {:induction false} HasFirst(a: set<Addr>, z: Addr)
    requires z in a
    ensures exists x :: x in a && forall y :: y in a ==> x <= y
    decreases z
  {
    if y :| y in a && y < z { HasFirst(a, y); }
  }

  lemma {:induction false} HasLast(a: set<Addr>)
    requires a != {}
    ensures exists x :: x in a && forall y :: y in a ==> y <= x
    decreases a
  {
    var z :| z in a;
    var rest := a - {z};
    assert forall y :: y in a ==> y == z || y in rest;
    if rest != {} {
      HasLast(rest);
      var x :| x in rest && forall y :: y in rest ==> y <= x;
      var w := if z <= x then x else z;
      assert w in a && forall y :: y in a ==> y <= w;
    }
  }

  /** The first live server: the head, or the one that will be told so. */
  ghost function FirstLive(s: State): (x: Addr)
    requires s.live != {}
    ensures x in s.live && forall y :: y in s.live ==> x <= y
  {
    var z :| z in s.live;
    HasFirst(s.live, z);
    var x :| x in s.live && forall y :: y in s.live ==> x <= y;
    x
  }

  /** The last live server: the tail, or the one that will be told so. */
  ghost function LastLive(s: State): (x: Addr)
    requires s.live != {}
    ensures x in s.live && forall y :: y in s.live ==> y <= x
  {
    HasLast(s.live);
    var x :| x in s.live && forall y :: y in s.live ==> y <= x;
    x
  }

  ghost predicate Sane(s: State) { s.live != {} && s.live <= s.nodes.Keys }

  /** The longest log: what the chain has accepted. */
  ghost function Accepted(s: State): seq<Request>
    requires Sane(s)
  {
    L(s, FirstLive(s))
  }

  /** The shortest log: what every live server has applied, and only what it
      holds is answered. */
  ghost function Committed(s: State): seq<Request>
    requires Sane(s)
  {
    L(s, LastLive(s))
  }

  lemma {:induction false} InvSane(s: State)
    requires Inv(s)
    ensures Sane(s) && !s.aborted
    ensures forall x :: Live(s, x) ==> Committed(s) <= L(s, x) <= Accepted(s)
  {
    hide Roles, Contents, Gaps, AckBound, Links, Repairs, Books, Origins, Replies, RosterOk;
    forall x | Live(s, x) ensures Committed(s) <= L(s, x) <= Accepted(s) {
      assert Live(s, FirstLive(s)) && Live(s, LastLive(s));
    }
  }

  /** Whatever happened, a live server has applied the first `seqNo` requests of
      the accepted log: its balances are the bank's on that prefix, its two
      lists together are the prefix's history, and later servers hold shorter prefixes. */
  lemma {:induction false} ServersRunPrefixes(bank: BankId, n: nat, pinned: bool, ls: seq<Label>, x: Addr)
    requires n > 0 && IsRun(Initial(bank, n, pinned), ls)
    requires x in After(Initial(bank, n, pinned), ls).live
    ensures var s := After(Initial(bank, n, pinned), ls);
            Sane(s) && !s.aborted &&
            (var rep := s.nodes[x].rep;
             rep.seqNo <= |Accepted(s)| &&
             (var log := Accepted(s)[..rep.seqNo];
              Refines(rep, log) &&
              (forall a :: Balance(rep.balances, a) == Balance(Run(log).balances, a)) &&
              (forall y :: y in s.live && x < y ==> s.nodes[y].rep.seqNo <= rep.seqNo) &&
              (forall r :: r in s.issued ==> Lookup(rep, r) == FirstRecord(log, r))))
  {
    hide Initial, Run, Serve, EntryAt, Inv, Refines;
    var s := After(Initial(bank, n, pinned), ls);
    InitialKeeps(bank, n, pinned);
    RunKeeps(Initial(bank, n, pinned), ls);
    InvSane(s);
    InvBooks(s, x);
    assert Live(s, x);
    var rep := s.nodes[x].rep;
    RefinesLength(rep, L(s, x));
    assert Accepted(s)[..rep.seqNo] == L(s, x);
    RefinesBalances(rep, L(s, x));
    forall y | y in s.live && x < y ensures s.nodes[y].rep.seqNo <= rep.seqNo {
      InvBooks(s, y);
      RefinesLength(s.nodes[y].rep, L(s, y));
      InvPrefix(s, x, y);
    }
    forall r | r in s.issued ensures Lookup(rep, r) == FirstRecord(L(s, x), r) {
      NamesFromIssued(s, x, r) by { InvOrigins(s); }
      TwoLevelLookup(rep, L(s, x), r);
    }
  }

  lemma {:induction false} InvBooks(s: State, x: Addr)
    requires Inv(s) && x in s.live
    ensures x in s.nodes && Refines(s.nodes[x].rep, L(s, x))
  {
    hide Refines, Roles, Contents, Gaps, AckBound, Links, Repairs, Prefixes, Origins, Replies, RosterOk;
    assert Live(s, x);
  }

  lemma {:induction false} InvPrefix(s: State, x: Addr, y: Addr)
    requires Inv(s) && x in s.live && y in s.live && x < y
    ensures x in s.nodes && y in s.nodes && L(s, y) <= L(s, x)
  {
    hide Refines, Roles, Contents, Gaps, AckBound, Links, Repairs, Books, Origins, Replies, RosterOk;
    assert Live(s, x) && Live(s, y);
  }

  lemma {:induction false} InvOrigins(s: State)
    requires Inv(s)
    ensures Origins(s) && Replies(s) && AckBound(s) && Links(s)
  {
  }

  lemma {:induction false} RefinesBalances(rep: Replica, log: seq<Request>)
    requires Refines(rep, log)
    ensures forall a :: Balance(rep.balances, a) == Balance(Run(log).balances, a)
  {
  }

  // ------------------------------------------------------ nothing is lost

  lemma {:induction false} ReceiveLive(s: State, z: Addr, r: Request, stamp: nat)
    requires z in s.nodes
    ensures Receive(s, z, r, stamp).live == s.live && Receive(s, z, r, stamp).lost == s.lost
  {
    hide ReceiveUpdate;
  }

  /** The server a step stops: one that crashes, or that gets a query without being the tail. */
  function Stopped(s: State, l: Label): set<Addr> {
    match l
    case Crash(x) => {x}
    case ClientQuery(x, _) => if x in s.nodes && !s.nodes[x].rep.isTail && s.live != {x} then {x} else {}
    case _ => {}
  }

  /** Servers only die, and only by a crash or by a query that is not for them. */
  lemma {:induction false} LiveAfter(s: State, l: Label)
    requires Enabled(s, l)
    ensures Apply(s, l).live == s.live - Stopped(s, l)
  {
    hide Receive, Settle, HandleNotice, PostAll, NotifyCrash, RosterOk, ReqsTo, AcksTo, CtlOf, ReceiveAck,
      TransferReply,
      HandleNewHead, HandleQuery;
    match l
    case ClientReq(z, r) => ReceiveLive(s.(issued := s.issued + {r}), z, r, 0);
    case DeliverReq(a, z) => ReceiveLive(s, z, ReqsTo(s, a, z)[0].req, ReqsTo(s, a, z)[0].seqNo);
    case DeliverAck(a, z) => SettleLive(s, z, ReceiveAck(s.nodes[z].rep, AcksTo(s, a, z)[0]));
    case DeliverCtl(z) => NoticeLogs(s, z, CtlOf(s, z)[0]);
    case BankReply(z, id, account) => SettleLive(s, z, TransferReply(s.nodes[z].rep, id, account));
    case OtherBankHead(z, bank) => SettleLive(s, z, HandleNewHead(s.nodes[z].rep, bank));
    case _ =>
  }

  lemma {:induction false} SettleLive(s: State, z: Addr, t: Step)
    requires z in s.nodes
    ensures Settle(s, z, t).live == s.live && Settle(s, z, t).lost == s.lost
    ensures forall x: Addr :: x in s.nodes ==> x in Settle(s, z, t).nodes && L(Settle(s, z, t), x) == L(s, x)
  {
  }

  /** A notice changes no log and kills no server. */
  lemma {:induction false} NoticeLogs(s: State, z: Addr, c: Notice)
    requires z in s.nodes
    ensures var t := HandleNotice(s, z, c);
            t.live == s.live && t.lost == s.lost &&
            forall x: Addr :: x in s.nodes ==> x in t.nodes && L(t, x) == L(s, x)
  {
    hide Settle;
    var rep := s.nodes[z].rep;
    match c {
      case ToBeHead => SettleLive(s, z, Replicas.ToBeHead(rep));
      case ToBeTail => SettleLive(s, z, Replicas.ToBeTail(rep));
      case NewPre(p) => SettleLive(s, z, NewPreServer(rep, p));
      case NewSucc(y, n) => SettleLive(s, z, NewSuccServer(rep, y, n));
      case NewHead(bank, _) => SettleLive(s, z, HandleNewHead(rep, bank));
      case _ =>
    }
  }

  /** A step only appends to the log of a server that survives it, by at most one request. */
  lemma {:induction false} LogsGrow(s: State, l: Label, x: Addr)
    requires Inv(s) && Enabled(s, l) && x in Apply(s, l).live
    ensures var t := Apply(s, l);
            x in s.live && x in s.nodes && x in t.nodes &&
            (L(t, x) == L(s, x) || (|L(t, x)| == |L(s, x)| + 1 && L(s, x) <= L(t, x)))
  {
    hide Inv, Receive, Settle, HandleNotice, PostAll, NotifyCrash, ReqsTo, AcksTo, CtlOf, ReceiveAck, TransferReply,
      HandleNewHead, HandleQuery;
    InvStructure(s);
    LiveAfter(s, l);
    match l
    case ClientReq(z, r) => ReceiveLog(s.(issued := s.issued + {r}), z, r, 0, x);
    case DeliverReq(a, z) => ReceiveLog(s, z, ReqsTo(s, a, z)[0].req, ReqsTo(s, a, z)[0].seqNo, x);
    case DeliverAck(a, z) => SettleLive(s, z, ReceiveAck(s.nodes[z].rep, AcksTo(s, a, z)[0]));
    case DeliverCtl(z) => NoticeLogs(s, z, CtlOf(s, z)[0]);
    case BankReply(z, id, account) => SettleLive(s, z, TransferReply(s.nodes[z].rep, id, account));
    case OtherBankHead(z, bank) => SettleLive(s, z, HandleNewHead(s.nodes[z].rep, bank));
    case _ =>
  }

  lemma {:induction false} ReceiveLog(s: State, z: Addr, r: Request, stamp: nat, x: Addr)
    requires z in s.nodes && x in s.nodes
    ensures var t := Receive(s, z, r, stamp);
            t.live == s.live && x in t.nodes && (L(t, x) == L(s, x) || (x == z && L(t, x) == L(s, x) + [r]))
  {
    hide ReceiveUpdate;
  }

  /** The committed log never loses or changes an entry in a step ... */
  lemma {:induction false} CommittedStep(s: State, l: Label)
    requires Inv(s) && Enabled(s, l)
    ensures Sane(s) && Sane(Apply(s, l)) && Committed(s) <= Committed(Apply(s, l))
  {
    hide Inv, Apply, Enabled;
    var t := Apply(s, l);
    StepKeeps(s, l);
    InvSane(s);
    InvSane(t);
    LogsGrow(s, l, LastLive(t));
    assert Live(s, LastLive(t));
    PrefixTrans(Committed(s), L(s, LastLive(t)), Committed(t));
  }

  /** ... nor over any run: an update the tail has answered survives every series
      of head, tail and internal crashes that leaves one server alive. */
  lemma {:induction false} CommittedNeverLost(s: State, ls: seq<Label>)
    requires Inv(s) && IsRun(s, ls)
    ensures Sane(s) && Sane(After(s, ls)) && Committed(s) <= Committed(After(s, ls))
    decreases |ls|
  {
    hide Inv, Apply, Enabled, Committed;
    InvSane(s);
    if ls != [] {
      var t := Apply(s, ls[0]);
      StepKeeps(s, ls[0]);
      CommittedStep(s, ls[0]);
      CommittedNeverLost(t, ls[1..]);
      PrefixTrans(Committed(s), Committed(t), Committed(After(s, ls)));
    }
  }

  /** Every reply the chain ever gave is one the single bank gives on the committed
      log: an update's reply is that bank's record of its entry, a query's balance is the
      balance after a prefix of the log. */
  lemma {:induction false} RepliesAreSequential(bank: BankId, n: nat, pinned: bool, ls: seq<Label>, a: Answer)
    requires n > 0 && IsRun(Initial(bank, n, pinned), ls)
    requires a in After(Initial(bank, n, pinned), ls).answers
    ensures var s := After(Initial(bank, n, pinned), ls); Sane(s) && AnswerOk(Committed(s), a)
  {
    hide Initial, Inv, AnswerOk;
    var s := After(Initial(bank, n, pinned), ls);
    InitialKeeps(bank, n, pinned);
    RunKeeps(Initial(bank, n, pinned), ls);
    InvSane(s);
    InvOrigins(s);
    assert Live(s, LastLive(s));
  }

  /** The assertion on queries fails exactly at a server that is not the tail. That server stops as in a crash
      and answers nothing, and the bank is lost if it was the last one. */
  lemma {:induction false} QueryFailsExactly(s: State, x: Addr, a: AccountId)
    requires Inv(s) && Enabled(s, ClientQuery(x, a))
    ensures var t := Apply(s, ClientQuery(x, a));
            if s.nodes[x].rep.isTail then t.live == s.live && !t.lost && |t.answers| == |s.answers| + 1
            else t.answers == s.answers && t.nodes == s.nodes &&
                 if s.live == {x} then t.lost else x !in t.live && !t.lost
  {
    hide Inv, HandleQuery;
  }

  /** Only a query loses the bank, and only while a single server lives that is not yet the tail. */
  lemma {:induction false} LostExactly(s: State, l: Label)
    requires Inv(s) && Enabled(s, l)
    ensures Apply(s, l).lost <==>
            l.ClientQuery? && s.live == {l.x} && l.x in s.nodes && !s.nodes[l.x].rep.isTail
  {
    hide Inv, Receive, Settle, HandleNotice, PostAll, NotifyCrash, RosterOk, ReqsTo, AcksTo, CtlOf, ReceiveAck,
      TransferReply, HandleNewHead, HandleQuery;
    match l
    case ClientReq(z, r) => ReceiveLive(s.(issued := s.issued + {r}), z, r, 0);
    case DeliverReq(a, z) => ReceiveLive(s, z, ReqsTo(s, a, z)[0].req, ReqsTo(s, a, z)[0].seqNo);
    case DeliverAck(a, z) => SettleLive(s, z, ReceiveAck(s.nodes[z].rep, AcksTo(s, a, z)[0]));
    case DeliverCtl(z) => NoticeLogs(s, z, CtlOf(s, z)[0]);
    case BankReply(z, id, account) => SettleLive(s, z, TransferReply(s.nodes[z].rep, id, account));
    case OtherBankHead(z, bank) => SettleLive(s, z, HandleNewHead(s.nodes[z].rep, bank));
    case _ =>
  }

  /** A server that is not the head ignores a client's request. */
  lemma {:induction false} WrongHeadIgnores(s: State, x: Addr, r: Request)
    requires Enabled(s, ClientReq(x, r)) && !s.nodes[x].rep.isHead
    ensures var t := Apply(s, ClientReq(x, r)); t.nodes == s.nodes && t.reqs == s.reqs && t.answers == s.answers
  {
    var n := s.nodes[x];
    assert ReceiveUpdate(n.rep, r, 0) == Done(n.rep, SILENT);
    assert Node(n.rep, n.log) == n && s.nodes[x := n] == s.nodes;
    assert s.answers + [] == s.answers;
  }

  /** Told of a new head of a bank, its own or another, a tail forwards again what its sent list holds for that bank;
      any other server does nothing. */
  lemma {:induction false} NewHeadNoticed(s: State, l: Label, x: Addr, bank: BankId)
    requires Inv(s) && Enabled(s, l) && x in s.nodes
    requires l == OtherBankHead(x, bank) ||
             (l == DeliverCtl(x) && CtlOf(s, x)[0].NewHead? && CtlOf(s, x)[0].bank == bank)
    ensures var t := Apply(s, l); var again := set e | e in s.nodes[x].rep.sent && e.req.destBank == bank;
            t.nodes == s.nodes && t.reqs == s.reqs && t.acks == s.acks && t.answers == s.answers &&
            t.forwarded == s.forwarded + if s.nodes[x].rep.isTail then again else {}
  {
    hide Inv, Settle, HandleNewHead, CtlOf, PopCtl, PopReq, PopAck, Receive;
    StepKeeps(s, l);
    InvStructure(Apply(s, l));
    var u := Settle(s, x, HandleNewHead(s.nodes[x].rep, bank));
    if l.DeliverCtl? {
      assert HandleNotice(s, x, CtlOf(s, x)[0]) == u;
      PopCtlOnly(u, x);
    }
    NewHeadSettled(s, x, bank);
  }

  lemma {:induction false} PopCtlOnly(s: State, x: Addr)
    ensures PopCtl(s, x) == s.(ctl := PopCtl(s, x).ctl)
  {
    hide CtlOf;
  }

  lemma {:induction false} NewHeadSettled(s: State, x: Addr, bank: BankId)
    requires x in s.nodes && !Settle(s, x, HandleNewHead(s.nodes[x].rep, bank)).aborted
    ensures var t := Settle(s, x, HandleNewHead(s.nodes[x].rep, bank));
            var again := set e | e in s.nodes[x].rep.sent && e.req.destBank == bank;
            t.nodes == s.nodes && t.reqs == s.reqs && t.acks == s.acks && t.answers == s.answers &&
            t.forwarded == s.forwarded + if s.nodes[x].rep.isTail then again else {}
  {
    hide HandleNewHead, Emit;
    var rep := s.nodes[x].rep;
    NewHeadResends(rep, bank);
    EmitsTransfers(s, x, HandleNewHead(rep, bank).out.transfers);
  }

  lemma {:induction false} NewHeadResends(rep: Replica, bank: BankId)
    requires HandleNewHead(rep, bank).Done?
    ensures var t := HandleNewHead(rep, bank);
            t.rep == rep && t.out == SILENT.(transfers := t.out.transfers) &&
            (set e | e in t.out.transfers) ==
            if rep.isTail then set e | e in rep.sent && e.req.destBank == bank else {}
  {
    hide ToBank, IsTransfer;
    forall e ensures e in ToBank(rep.sent, bank) <==> e in rep.sent && e.req.destBank == bank {
      ToBankIs(rep.sent, bank, e);
    }
  }

  lemma {:induction false} EmitsTransfers(s: State, x: Addr, es: seq<Entry>)
    requires x in s.nodes
    ensures var n := s.nodes[x];
            Emit(s, x, Node(n.rep, n.log), SILENT.(transfers := es)) ==
            s.(forwarded := s.forwarded + set e | e in es)
  {
    var n := s.nodes[x];
    assert Node(n.rep, n.log) == n && s.nodes[x := n] == s.nodes;
    assert s.answers + [] == s.answers;
  }

  /** A query is answered from the whole committed log of its moment ... */
  lemma {:induction false} QueryIsCurrent(s: State, x: Addr, a: AccountId)
    requires Inv(s) && Enabled(s, ClientQuery(x, a)) && s.nodes[x].rep.isTail
    ensures Sane(s)
    ensures Apply(s, ClientQuery(x, a)).answers ==
              s.answers + [ToQuery(|Committed(s)|, a, Balance(Run(Committed(s)).balances, a))]
  {
    hide Run, HandleQuery, Contents, Gaps, AckBound, Links, Repairs, Books, Origins, Replies;
    InvSane(s);
    NothingAfterTail(s, x);
    assert Live(s, LastLive(s)) && Live(s, x);
    QueryOk(s, x, a);
  }

  /** ... and a client's request enters the log after everything answered so far. */
  lemma {:induction false} RequestComesAfter(s: State, x: Addr, r: Request)
    requires Inv(s) && Enabled(s, ClientReq(x, r)) && s.nodes[x].rep.isHead
    ensures var t := Apply(s, ClientReq(x, r));
            Sane(s) && x in t.nodes && L(t, x) == Accepted(s) + [r] && |Committed(s)| <= |Accepted(s)|
  {
    hide ReceiveUpdate, Contents, Gaps, AckBound, Links, Repairs, Refines, Replies, Emit;
    InvSane(s);
    Bounds(s);
    assert Live(s, FirstLive(s));
    assert x == FirstLive(s);
    assert Live(s, LastLive(s));
    var s1 := s.(issued := s.issued + {r});
    NamesFromIssued(s1, x, r) by { hide *; IssueKeeps(s, r); InvOrigins(s1); }
    RefinesLength(s.nodes[x].rep, L(s, x));
    ReceiveUpdateRefines(s.nodes[x].rep, L(s, x), r, 0);
    RefinesLength(ReceiveUpdate(s.nodes[x].rep, r, 0).rep, L(s, x) + [r]);
    ReceiveLog(s1, x, r, 0, x);
    var u := ReceiveUpdate(s.nodes[x].rep, r, 0);
    EmitFrame(s1, x, Node(u.rep, L(s, x) + [r]), u.out);
  }

  // ------------------------------------------------------ sent lists and repair

  /** A server that is not the tail has in its sent list, in order, every entry of its log that some live server
      after it lacks; what it has dropped from the list, all live servers have applied. */
  lemma {:induction false} SentListCovers(s: State, x: Addr, y: Addr, i: nat)
    requires Inv(s) && Live(s, x) && Live(s, y) && !s.nodes[x].rep.isTail && i < |L(s, x)|
    ensures EndsWith(L(s, x), s.nodes[x].rep.sent)
    ensures var sent, a := s.nodes[x].rep.sent, Acked(s.nodes[x].rep);
            |sent| == |L(s, x)| - a &&
            if i < a then i < |L(s, y)| else sent[i - a] == EntryAt(L(s, x), i)
  {
    hide Inv, Run, Serve, EntryAt;
    InvBooks(s, x);
    InvOrigins(s);
    EndsWithFits(L(s, x), s.nodes[x].rep.sent);
    assert Everywhere(s, Acked(s.nodes[x].rep));
  }

  /** Once S- is linked to S+ and the channel between them is empty, S+ holds exactly S-'s log,
      whatever a dead server left in other channels. */
  lemma {:induction false} LinkedDrained(s: State, x: Addr, y: Addr)
    requires Inv(s) && Live(s, x) && Live(s, y)
    requires s.nodes[x].rep.succ == Some(y) && ReqsTo(s, x, y) == []
    ensures L(s, y) == L(s, x)
  {
    hide Inv;
    InvOrigins(s);
    InvPrefix(s, x, y) by { hide *; InvOrigins(s); LinkBelow(s, x, y); }
    assert Reach([], |L(s, y)|) == |L(s, y)|;
  }

  lemma {:induction false} LinkBelow(s: State, x: Addr, y: Addr)
    requires Links(s) && Live(s, x) && Live(s, y) && s.nodes[x].rep.succ == Some(y)
    ensures x < y
  {
  }

  // ------------------------------------------------------ the abstract chain

  /** All an outsider sees of a chain: the accepted log and how much of it is committed. */
  datatype Outline = Outline(log: seq<Request>, committed: nat)

  ghost function Outlined(s: State): Outline
    requires Sane(s)
  {
    Outline(Accepted(s), |Committed(s)|)
  }

  /** The log grows by one request or is cut back, never below the committed
      mark, and the mark never falls. */
  ghost predicate OutlineNext(a: Outline, b: Outline) {
    && a.committed <= |a.log| && b.committed <= |b.log|
    && a.committed <= b.committed && a.log[..a.committed] <= b.log
    && (b.log <= a.log || (|b.log| == |a.log| + 1 && a.log <= b.log))
  }

  /** Every step of the chain is a step of its outline. */
  lemma {:induction false} ChainRefinesOutline(s: State, l: Label)
    requires Inv(s) && Enabled(s, l)
    ensures Sane(s) && Sane(Apply(s, l)) && OutlineNext(Outlined(s), Outlined(Apply(s, l)))
  {
    hide Inv, Apply, Enabled;
    var t := Apply(s, l);
    StepKeeps(s, l);
    InvSane(s);
    InvSane(t);
    CommittedStep(s, l);
    assert Live(s, LastLive(s)) && Live(t, LastLive(t)) && Live(t, FirstLive(t));
    LogsGrow(s, l, FirstLive(t));
    assert Live(s, FirstLive(t));
    assert Committed(s) == Accepted(s)[..|Committed(s)|];
    PrefixTrans(Committed(s), Committed(t), Accepted(t));
    if FirstLive(t) != FirstLive(s) {
      CrashOnly(s, l);
    }
  }

  /** When the first live server changes, the step was its crash, and no log moved. */
  lemma {:induction false} CrashOnly(s: State, l: Label)
    requires Inv(s) && Enabled(s, l) && Sane(s) && Sane(Apply(s, l)) && FirstLive(Apply(s, l)) != FirstLive(s)
    ensures Apply(s, l).nodes == s.nodes
  {
    hide Inv, Receive, Emit, HandleNotice, Settle, PostAll, NotifyCrash, RosterOk;
    LiveAfter(s, l);
    assert Stopped(s, l) != {} by { assert s.live - {} == s.live; }
  }
}
