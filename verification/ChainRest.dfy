/** Rest can be reached: from every reachable state, once no more servers crash and no more requests arrive,
    detecting the dead and delivering what is on its way brings the chain to the state that
    `RepairCompletes` is about. */
module ChainRest {
  import opened Bank
  import opened Replicas
  import opened Masters
  import opened Chains
  import opened ChainSteps
  import opened ChainResults
  import opened ChainRepair

  /** The master's work, and deliveries. */
  predicate Repairing(l: Label) { l.Detect? || l.MasterRelay? || l.DeliverCtl? || l.DeliverReq? }

  ghost predicate RepairRun(s: State, ms: seq<Label>, t: State) {
    IsRun(s, ms) && (forall l :: l in ms ==> Repairing(l)) && After(s, ms) == t
  }

  ghost predicate Leads(s: State, t: State) { exists ms :: RepairRun(s, ms, t) }

  lemma {:induction false} LeadsNowhere(s: State)
    ensures Leads(s, s)
  {
    assert RepairRun(s, [], s);
  }

  lemma {:induction false} LeadsOn(s: State, l: Label, t: State)
    requires Enabled(s, l) && Repairing(l) && Leads(Apply(s, l), t)
    ensures Leads(s, t)
  {
    hide Enabled, Apply;
    var ms :| RepairRun(Apply(s, l), ms, t);
    assert ([l] + ms)[1..] == ms;
    assert RepairRun(s, [l] + ms, t);
  }

  lemma {:induction false} RunTrans(s: State, ms: seq<Label>, ns: seq<Label>, t: State)
    requires IsRun(s, ms) && IsRun(After(s, ms), ns) && After(After(s, ms), ns) == t
    ensures IsRun(s, ms + ns) && After(s, ms + ns) == t
    decreases |ms|
  {
    hide Enabled, Apply;
    if ms == [] {
      assert ms + ns == ns;
    } else {
      assert (ms + ns)[1..] == ms[1..] + ns;
      RunTrans(Apply(s, ms[0]), ms[1..], ns, t);
    }
  }

  lemma {:induction false} LeadsTrans(s: State, t: State, u: State)
    requires Leads(s, t) && Leads(t, u)
    ensures Leads(s, u)
  {
    hide IsRun, After;
    var ms :| RepairRun(s, ms, t);
    var ns :| RepairRun(t, ns, u);
    RunTrans(s, ms, ns, u);
    assert RepairRun(s, ms + ns, u);
  }

  // ------------------------------------------------------ all dead are detected

  ghost predicate AllKnown(s: State) { forall x :: x in s.roster.servers ==> x in s.live }

  lemma {:induction false} CanDetect(s: State, x: Addr)
    requires Inv(s) && !s.lost && x in s.roster.servers && x !in s.live
    ensures Enabled(s, Detect(x)) && !Apply(s, Detect(x)).lost &&
            |Apply(s, Detect(x)).roster.servers| < |s.roster.servers|
  {
    hide Roles, Prefixes, Contents, Gaps, AckBound, Links, Repairs, Books, Origins, Replies, RosterOk, PostAll;
    var z :| z in s.live;
    assert Live(s, z) && z in s.roster.servers;
    EndsDiffer(s.roster, x, z);
    FewerServers(s.roster, x);
    hide NotifyCrash;
  }

  lemma {:induction false} EndsDiffer(ro: Roster, x: Addr, z: Addr)
    requires RosterOk(ro) && ro.extending == None && x in ro.servers && z in ro.servers && x != z
    ensures Repairable(ro, x)
  {
  }

  lemma {:induction false} FewerServers(ro: Roster, x: Addr)
    requires Repairable(ro, x)
    ensures |NotifyCrash(ro, x).0.servers| < |ro.servers|
  {
    hide RosterOk, Broadcast;
  }

  lemma {:induction false} DetectAll(s: State) returns (t: State)
    requires Inv(s) && !s.lost
    ensures Leads(s, t) && Inv(t) && AllKnown(t) && !t.lost
    decreases |s.roster.servers|
  {
    hide Inv, Enabled, Apply, Leads;
    if AllKnown(s) {
      t := s;
      LeadsNowhere(s);
    } else {
      var x :| x in s.roster.servers && x !in s.live;
      CanDetect(s, x);
      StepKeeps(s, Detect(x));
      t := DetectAll(Apply(s, Detect(x)));
      LeadsOn(s, Detect(x), t);
    }
  }

  // ------------------------------------------------------- notices and reports

  /** No live server has a notice left, of those below `k`. */
  ghost predicate NoNotices(s: State, k: nat) { forall y: Addr :: Live(s, y) && y < k ==> CtlOf(s, y) == [] }

  /** No notice on its way makes a server report. */
  ghost predicate NoReports(s: State) {
    s.inbox == [] && forall y: Addr, c: Notice :: Live(s, y) && c in CtlOf(s, y) ==> !c.NewPre?
  }

  ghost predicate Bounded(s: State, n: nat) { forall y: Addr :: Live(s, y) ==> y < n }

  ghost predicate SameChain(s: State, t: State) { 
    t.live == s.live && t.nodes.Keys == s.nodes.Keys && t.roster == s.roster && t.lost == s.lost
  }

  lemma {:induction false} StillThere(s: State, t: State, n: nat)
    requires SameChain(s, t)
    ensures forall y: Addr :: Live(t, y) <==> Live(s, y)
    ensures t.lost == s.lost && (Bounded(t, n) <==> Bounded(s, n)) && (AllKnown(t) <==> AllKnown(s))
  {
    assert forall y: Addr :: Live(t, y) <==> Live(s, y);
  }

  lemma {:induction false} NoticeDelivered(s: State, y: Addr, k: nat)
    requires Enabled(s, DeliverCtl(y)) && NoNotices(s, y)
    ensures var t := Apply(s, DeliverCtl(y));
            SameChain(s, t) && NoNotices(t, y) && |CtlOf(t, y)| < |CtlOf(s, y)| && (NoReports(s) ==> NoReports(t))
  {
    NoticeFrame(s, y);
    hide Apply, CtlOf;
    var t := Apply(s, DeliverCtl(y));
    assert forall z: Addr :: Live(t, z) <==> Live(s, z);
    assert CtlOf(s, y)[0] in CtlOf(s, y);
  }

  lemma {:induction false} DeliverNotices(s: State, y: nat, n: nat) returns (t: State)
    requires Inv(s) && !s.lost && Bounded(s, n) && NoNotices(s, y) && y <= n
    ensures Leads(s, t) && Inv(t) && NoNotices(t, n) && SameChain(s, t) && (NoReports(s) ==> NoReports(t))
    decreases n - y, |CtlOf(s, y)|
  {
    hide Inv, Apply, Leads, CtlOf, NoReports;
    if y == n {
      t := s;
      LeadsNowhere(s);
    } else if !Live(s, y) || CtlOf(s, y) == [] {
      t := DeliverNotices(s, y + 1, n);
    } else {
      NoticeDelivered(s, y, n);
      StillThere(s, Apply(s, DeliverCtl(y)), n);
      StepKeeps(s, DeliverCtl(y));
      t := DeliverNotices(Apply(s, DeliverCtl(y)), y, n);
      LeadsOn(s, DeliverCtl(y), t);
    }
  }

  lemma {:induction false} ReportRelayed(s: State)
    requires Enabled(s, MasterRelay) && forall y: Addr, c: Notice :: Live(s, y) && c in CtlOf(s, y) ==> !c.NewPre?
    ensures var t := Apply(s, MasterRelay);
            SameChain(s, t) && |t.inbox| < |s.inbox| &&
            forall y: Addr, c: Notice :: Live(t, y) && c in CtlOf(t, y) ==> !c.NewPre?
  {
    var t, m := Apply(s, MasterRelay), s.inbox[0];
    forall y: Addr, c: Notice | Live(t, y) && c in CtlOf(t, y) ensures !c.NewPre? {
      PostAdds(s.ctl, Letter(m.pre, NewSucc(m.succ, m.n)), y, c);
      assert Live(s, y);
    }
  }

  lemma {:induction false} RelayAll(s: State) returns (t: State)
    requires Inv(s) && !s.lost && forall y: Addr, c: Notice :: Live(s, y) && c in CtlOf(s, y) ==> !c.NewPre?
    ensures Leads(s, t) && Inv(t) && SameChain(s, t) && NoReports(t)
    decreases |s.inbox|
  {
    hide Inv, Apply, Leads, CtlOf;
    if s.inbox == [] {
      t := s;
      LeadsNowhere(s);
    } else {
      ReportRelayed(s);
      StepKeeps(s, MasterRelay);
      t := RelayAll(Apply(s, MasterRelay));
      LeadsOn(s, MasterRelay, t);
    }
  }

  // ------------------------------------------------------------------ requests

  /** No request is left from a live server to one below `y`, nor to `y` from one below `a`. */
  ghost predicate NoRequests(s: State, y: nat, a: nat) {
    forall p: Addr, q: Addr :: Live(s, p) && Live(s, q) && (q < y || (q == y && p < a)) ==> ReqsTo(s, p, q) == []
  }

  /** Taking a request adds only to channels further down the chain. */
  lemma {:induction false} RequestDelivered(s: State, a: Addr, y: Addr)
    requires Inv(s) && Live(s, a) && Enabled(s, DeliverReq(a, y))
    ensures var t := Apply(s, DeliverReq(a, y));
            SameChain(s, t) && t.ctl == s.ctl && t.inbox == s.inbox &&
            ReqsTo(t, a, y) == ReqsTo(s, a, y)[1..] &&
            forall p: Addr, q: Addr :: Live(s, q) && !(p == y && y < q) && !(p == a && q == y) ==>
              ReqsTo(t, p, q) == ReqsTo(s, p, q)
  {
    hide Inv, ReceiveUpdate, ReqsTo, Emit, PopReq, Reach;
    var e, n := ReqsTo(s, a, y)[0], s.nodes[y];
    InvOrigins(s);
    assert Live(s, y);
    SuccAbove(s, y);
    ReceiveKept(s, y, e.req, e.seqNo);
    ReceiveRole(n.rep, e.req, e.seqNo);
    var u := Receive(s, y, e.req, e.seqNo);
    ReceiveReqs(s, y, e.req, e.seqNo);
    PopReqs(u, a, y);
  }

  lemma {:induction false} SuccAbove(s: State, y: Addr)
    requires Links(s) && Live(s, y)
    ensures forall z: Addr :: Live(s, z) && s.nodes[y].rep.succ == Some(z) ==> y < z
  {
  }

  lemma {:induction false} ReceiveReqs(s: State, y: Addr, r: Request, stamp: nat)
    requires y in s.nodes
    ensures forall p: Addr, q: Addr :: !(p == y && s.nodes[y].rep.succ == Some(q)) ==>
              ReqsTo(Receive(s, y, r, stamp), p, q) == ReqsTo(s, p, q)
  {
    hide ReceiveUpdate, Emit, ReqsTo, AcksTo;
    var n, t := s.nodes[y], ReceiveUpdate(s.nodes[y].rep, r, stamp);
    ReceiveRole(n.rep, r, stamp);
    if t.Done? {
      EmitFrame(s, y, Node(t.rep, if t.rep.seqNo > n.rep.seqNo then n.log + [r] else n.log), t.out);
    } else {
      AlikeReqs(s, s.(aborted := true));
    }
  }

  lemma {:induction false} PopReqs(u: State, a: Addr, y: Addr)
    ensures var t := PopReq(u, a, y);
            t == u.(reqs := t.reqs) &&
            (ReqsTo(u, a, y) != [] ==> ReqsTo(t, a, y) == ReqsTo(u, a, y)[1..]) &&
            forall p: Addr, q: Addr :: !(p == a && q == y) ==> ReqsTo(t, p, q) == ReqsTo(u, p, q)
  {
  }

  // ----------------------------------------------------- what the tail makes of them

  /** No request is on its way up the chain, and the tail the master names is at work. */
  ghost predicate Descending(s: State) {
    (forall a: Addr, y: Addr :: Live(s, a) && Live(s, y) && y <= a ==> ReqsTo(s, a, y) == []) &&
    Live(s, s.roster.tail) && s.nodes[s.roster.tail].rep.isTail
  }

  /** Server `x`, the tail, has answered every update it has taken since, except for transfers. */
  ghost predicate Answering(s: State, t: State, x: Addr) {
    x in s.nodes && x in t.nodes && L(s, x) <= L(t, x) &&
    (forall c :: c in s.answers ==> c in t.answers) &&
    (forall k :: |L(s, x)| <= k < |L(t, x)| && L(t, x)[k].kind != Transfer ==>
       ToUpdate(EntryAt(L(t, x), k)) in t.answers) &&
    ((forall k :: |L(s, x)| <= k < |L(t, x)| ==> L(t, x)[k].kind != Transfer) ==>
       t.nodes[x].rep.sent == s.nodes[x].rep.sent)
  }

  /** Deliveries between live servers down the chain: the first server's log stays, the tail answers. */
  ghost predicate Descends(s: State, t: State) {
    SameChain(s, t) && t.pinned == s.pinned && t.issued == s.issued && Descending(t) &&
    Answering(s, t, s.roster.tail) &&
    (forall h: Addr :: Live(s, h) && (forall z: Addr :: Live(s, z) ==> h <= z) ==> h in t.nodes && L(t, h) == L(s, h))
  }

  lemma {:induction false} DescendsNowhere(s: State)
    ensures Descending(s) ==> Descends(s, s)
  {
    hide EntryAt, ReqsTo;
  }

  lemma {:induction false} AnsweringTrans(s: State, t: State, u: State, x: Addr)
    requires Answering(s, t, x) && Answering(t, u, x)
    ensures Answering(s, u, x)
  {
    hide Run, Serve, EntryAt;
    forall k | |L(s, x)| <= k < |L(u, x)| && L(u, x)[k].kind != Transfer
      ensures ToUpdate(EntryAt(L(u, x), k)) in u.answers
    {
      if k < |L(t, x)| { EntryAtPrefix(L(t, x), L(u, x), k); }
    }
    if forall k :: |L(s, x)| <= k < |L(u, x)| ==> L(u, x)[k].kind != Transfer {
      assert forall k :: |L(s, x)| <= k < |L(t, x)| ==> L(t, x)[k] == L(u, x)[k];
    }
  }

  lemma {:induction false} StillDescending(s: State, t: State)
    requires Descends(s, t)
    ensures Descending(t)
  {
  }

  lemma {:induction false} DescendsTrans(s: State, t: State, u: State)
    requires Descends(s, t) && Descends(t, u)
    ensures Descends(s, u)
  {
    hide EntryAt, ReqsTo, Answering, Descending;
    AnsweringTrans(s, t, u, s.roster.tail);
    StillThere(s, t, 0);
  }

  lemma {:induction false} TailConcludes(rep: Replica, log: seq<Request>, r: Request)
    requires Refines(rep, log) && NamesAccount(log, r) && rep.isTail && !rep.extending
    ensures var t := Conclude(rep, r, |log| + 1);
            t.Done? && (r.kind != Transfer ==> t.rep.sent == rep.sent && t.out.replies == [EntryAt(log + [r], |log|)])
  {
    hide Run, EntryAt, UpdateReply, Conclude, Refines;
    ConcludeRefines(rep, log, r);
    UpdateReplyRefines(rep, log, r);
    AnsweredUnlessPending(rep, r, |log| + 1);
    EntryFields(log + [r], |log|);
  }

  /** Server `y` gets an update: it takes it or not, and as the tail it answers what it takes. */
  lemma {:induction false} ReceiveAnswers(s: State, y: Addr, r: Request, stamp: nat)
    requires Inv(s) && MayTake(s, y, r, stamp)
    ensures var t := Receive(s, y, r, stamp);
            y in t.nodes && (forall x: Addr :: x in s.nodes && x != y ==> x in t.nodes && t.nodes[x] == s.nodes[x]) &&
            (forall c :: c in s.answers ==> c in t.answers) &&
            L(t, y) == (if s.nodes[y].rep.isHead || stamp == |L(s, y)| + 1 then L(s, y) + [r] else L(s, y)) &&
            t.nodes[y].rep.isTail == s.nodes[y].rep.isTail &&
            (s.nodes[y].rep.isTail ==> Answering(s, t, y))
  {
    hide Structure, Prefixes, Contents, Gaps, AckBound, Links, Repairs, Replies, Refines, Emit, Conclude, Relay,
      EntryAt,
      Run, Serve, SendsFor;
    var rep, log := s.nodes[y].rep, L(s, y);
    NamesFromIssued(s, y, r);
    RefinesLength(rep, log);
    ReceiveUpdateRefines(rep, log, r, stamp);
    var u := ReceiveUpdate(rep, r, stamp);
    var t := Receive(s, y, r, stamp);
    if rep.isHead || stamp == |log| + 1 {
      RefinesLength(u.rep, log + [r]);
      if rep.isTail { TailConcludes(rep, log, r); }
      EmitAnswers(s, y, Node(u.rep, log + [r]), u.out);
      if rep.isTail { AnsweredOne(s, t, y, r); }
    } else {
      EmitAnswers(s, y, Node(u.rep, log), u.out);
      AnsweringStill(s, t, y);
    }
  }

  /** Whatever a tail adds to its log it answers in the same step, all but transfers. */
  lemma {:induction false} AnsweredWhenTaken(s: State, l: Label, x: Addr, i: nat)
    requires Inv(s) && Enabled(s, l) && x in Apply(s, l).live && x in s.nodes && s.nodes[x].rep.isTail
    requires x in Apply(s, l).nodes && |L(s, x)| <= i < |L(Apply(s, l), x)| && L(Apply(s, l), x)[i].kind != Transfer
    ensures ToUpdate(EntryAt(L(Apply(s, l), x), i)) in Apply(s, l).answers
  {
    hide Inv, Receive, Settle, HandleNotice, PostAll, NotifyCrash, ReqsTo, AcksTo, CtlOf, ReceiveAck, TransferReply,
      HandleNewHead, HandleQuery, EntryAt, MayTake, PopReq, PopAck, PopCtl, Stop;
    InvStructure(s);
    if !l.ClientReq? && !l.DeliverReq? { LogsStay(s, l, x); }
    match l
    case ClientReq(z, r) =>
      var s1 := s.(issued := s.issued + {r});
      ReceiveLog(s1, z, r, 0, x);
      if z == x {
        IssueKeeps(s, r);
        HeadMayTake(s, x, r);
        ReceiveAnswers(s1, x, r, 0);
      }
    case DeliverReq(a, z) =>
      var e := ReqsTo(s, a, z)[0];
      ReceiveLog(s, z, e.req, e.seqNo, x);
      PopReqs(Receive(s, z, e.req, e.seqNo), a, z);
      if z == x {
        FrontMayBeTaken(s, a, x);
        ReceiveAnswers(s, x, e.req, e.seqNo);
      }
    case _ =>
  }

  lemma {:induction false} LogsStay(s: State, l: Label, x: Addr)
    requires Enabled(s, l) && x in s.nodes && !l.ClientReq? && !l.DeliverReq?
    ensures x in Apply(s, l).nodes && L(Apply(s, l), x) == L(s, x)
  {
    hide Settle, HandleNotice, PostAll, NotifyCrash, AcksTo, CtlOf, ReceiveAck, TransferReply, HandleNewHead,
      HandleQuery;
    match l
    case DeliverAck(a, z) => SettleLive(s, z, ReceiveAck(s.nodes[z].rep, AcksTo(s, a, z)[0]));
    case DeliverCtl(z) => NoticeLogs(s, z, CtlOf(s, z)[0]);
    case BankReply(z, id, account) => SettleLive(s, z, TransferReply(s.nodes[z].rep, id, account));
    case OtherBankHead(z, bank) => SettleLive(s, z, HandleNewHead(s.nodes[z].rep, bank));
    case _ =>
  }

  lemma {:induction false} HeadMayTake(s: State, x: Addr, r: Request)
    requires Live(s, x)
    ensures MayTake(s.(issued := s.issued + {r}), x, r, 0)
  {
  }

  lemma {:induction false} AnsweredOne(s: State, t: State, x: Addr, r: Request)
    requires x in s.nodes && x in t.nodes && L(t, x) == L(s, x) + [r] && forall c :: c in s.answers ==> c in t.answers
    requires r.kind != Transfer ==>
               ToUpdate(EntryAt(L(s, x) + [r], |L(s, x)|)) in t.answers && t.nodes[x].rep.sent == s.nodes[x].rep.sent
    ensures Answering(s, t, x)
  {
    hide EntryAt;
    assert L(t, x)[|L(s, x)|] == r;
  }

  lemma {:induction false} EmitAnswers(s: State, x: Addr, n: Node, out: Out)
    ensures var t := Emit(s, x, n, out);
            t.nodes == s.nodes[x := n] && (forall c :: c in s.answers ==> c in t.answers) &&
            forall e :: e in out.replies ==> ToUpdate(e) in t.answers
  {
    var t := Emit(s, x, n, out);
    forall e | e in out.replies ensures ToUpdate(e) in t.answers {
      var i :| 0 <= i < |out.replies| && out.replies[i] == e;
      assert t.answers[|s.answers| + i] == ToUpdate(e);
    }
  }

  lemma {:induction false} StepDescends(s: State, a: Addr, y: Addr)
    requires Inv(s) && Descending(s) && Live(s, a) && Enabled(s, DeliverReq(a, y))
    ensures Descends(s, Apply(s, DeliverReq(a, y)))
  {
    hide Inv, Receive, MayTake, ReqsTo, PopReq, EntryAt, Answering, Links;
    var e, t := ReqsTo(s, a, y)[0], Apply(s, DeliverReq(a, y));
    assert Live(s, y);
    FrontMayBeTaken(s, a, y);
    RequestDelivered(s, a, y);
    ReceiveAnswers(s, y, e.req, e.seqNo);
    var u := Receive(s, y, e.req, e.seqNo);
    PopReqs(u, a, y);
    ReceiveRest(s, y, e.req, e.seqNo);
    StillThere(s, t, 0);
    AnsweringNodes(s, u, t, s.roster.tail);
    if y != s.roster.tail { AnsweringStill(s, t, s.roster.tail); }
  }

  lemma {:induction false} ReceiveRest(s: State, y: Addr, r: Request, stamp: nat)
    requires y in s.nodes
    ensures var t := Receive(s, y, r, stamp); t.issued == s.issued && t.pinned == s.pinned
  {
    hide ReceiveUpdate;
  }

  lemma {:induction false} AnsweringNodes(s: State, u: State, t: State, x: Addr)
    requires t.nodes == u.nodes && t.answers == u.answers
    ensures Answering(s, u, x) ==> Answering(s, t, x)
  {
    hide EntryAt;
  }

  lemma {:induction false} AnsweringStill(s: State, t: State, x: Addr)
    requires x in s.nodes && x in t.nodes && t.nodes[x] == s.nodes[x] && forall c :: c in s.answers ==> c in t.answers
    ensures Answering(s, t, x)
  {
    hide EntryAt;
  }

  lemma {:induction false} DeliverRequests(s: State, y: nat, a: nat, n: nat) returns (t: State)
    requires Inv(s) && !s.lost && Bounded(s, n) && y <= n && a <= n && NoRequests(s, y, a)
    ensures Leads(s, t) && Inv(t) && SameChain(s, t) && t.ctl == s.ctl && t.inbox == s.inbox && NoRequests(t, n, 0)
    ensures Descending(s) ==> Descends(s, t)
    decreases n - y, n - a, |ReqsTo(s, a, y)|
  {
    hide Inv, Apply, Leads, ReqsTo, Descending, Descends;
    if y == n {
      t := s;
      LeadsNowhere(s);
      DescendsNowhere(s);
    } else if a == n {
      t := DeliverRequests(s, y + 1, 0, n);
    } else if !Live(s, a) || !Live(s, y) || ReqsTo(s, a, y) == [] {
      t := DeliverRequests(s, y, a + 1, n);
    } else {
      RequestDelivered(s, a, y);
      StepKeeps(s, DeliverReq(a, y));
      var u := Apply(s, DeliverReq(a, y));
      StillThere(s, u, n);
      t := DeliverRequests(u, y, a, n);
      LeadsOn(s, DeliverReq(a, y), t);
      if Descending(s) {
        StepDescends(s, a, y);
        StillDescending(s, u);
        DescendsTrans(s, u, t);
      }
    }
  }

  // ---------------------------------------------------------------------- rest

  lemma {:induction false} NoneLeft(s: State, n: nat)
    requires NoNotices(s, n) && Bounded(s, n)
    ensures forall y: Addr :: Live(s, y) ==> CtlOf(s, y) == []
  {
    hide CtlOf;
  }

  lemma {:induction false} HasBound(s: State)
    requires s.live != {}
    ensures exists n: nat :: Bounded(s, n)
  {
    assert Bounded(s, LastLive(s) + 1);
  }

  lemma {:induction false} CanRest(s: State)
    requires Inv(s) && !s.lost
    ensures exists t :: Leads(s, t) && AtRest(t) && !t.lost
  {
    hide Inv, Leads, CtlOf, ReqsTo;
    var t1 := DetectAll(s);
    InvSane(t1);
    HasBound(t1);
    var n: nat :| Bounded(t1, n);
    var t2 := DeliverNotices(t1, 0, n);
    StillThere(t1, t2, n);
    NoneLeft(t2, n);
    var t3 := RelayAll(t2);
    StillThere(t2, t3, n);
    var t4 := DeliverNotices(t3, 0, n);
    StillThere(t3, t4, n);
    var t5 := DeliverRequests(t4, 0, 0, n);
    StillThere(t4, t5, n);
    NoneLeft(t4, n);
    LeadsTrans(s, t1, t2);
    LeadsTrans(s, t2, t3);
    LeadsTrans(s, t3, t4);
    LeadsTrans(s, t4, t5);
    AlikeCtl(t4, t5);
  }

  /** From every reachable state some run of detections and deliveries alone reaches rest, and with it
      a repaired chain. */
  lemma {:induction false} RepairReachable(bank: BankId, n: nat, pinned: bool, ls: seq<Label>)
    requires n > 0 && IsRun(Initial(bank, n, pinned), ls) && !After(Initial(bank, n, pinned), ls).lost
    ensures exists ms :: IsRun(After(Initial(bank, n, pinned), ls), ms) && (forall l :: l in ms ==> Repairing(l)) &&
                         AtRest(After(After(Initial(bank, n, pinned), ls), ms))
  {
    hide Initial, Inv, AtRest, IsRun, After;
    InitialKeeps(bank, n, pinned);
    RunKeeps(Initial(bank, n, pinned), ls);
    var s := After(Initial(bank, n, pinned), ls);
    CanRest(s);
    var t :| Leads(s, t) && AtRest(t) && !t.lost;
    var ms :| RepairRun(s, ms, t);
  }

  // --------------------------------------------------------------- a lost bank

  /** A chain of two whose tail has crashed, and a query that overtakes the order to be tail: nothing is left, although
      the query went to the server the master names as tail. */
  lemma {:induction false} QueryOvertakes(bank: BankId, a: AccountId)
    ensures var ls := [Label.Crash(1), Detect(1)]; var s := Initial(bank, 2, false);
            IsRun(s, ls) && After(s, ls).roster.tail == 0 && After(s, ls).live == {0} &&
            Enabled(After(s, ls), ClientQuery(0, a)) && Apply(After(s, ls), ClientQuery(0, a)).lost
  {
    hide NotifyCrash, PostAll, IsRun, After;
    var s := Initial(bank, 2, false);
    TwoServers(bank);
    var s1 := Apply(s, Label.Crash(1));
    RosterOfTwo(s.roster);
    var s2 := Apply(s1, Detect(1));
    RunOfTwo(s, Label.Crash(1), Detect(1));
  }

  lemma {:induction false} TwoServers(bank: BankId)
    ensures var s := Initial(bank, 2, false);
            s.live == {0, 1} && s.nodes.Keys == {0, 1} && !s.nodes[0].rep.isTail && !s.lost && !s.pinned &&
            s.roster == Roster(bank, [0, 1], 0, 1, None)
  {
    var s := Initial(bank, 2, false);
    assert Numbers(1) == {0} && Numbers(2) == {0, 1};
    assert s.roster.servers == [0, 1];
  }

  lemma {:induction false} RosterOfTwo(ro: Roster)
    requires ro == Roster(ro.bank, [0, 1], 0, 1, None)
    ensures Repairable(ro, 1) && NotifyCrash(ro, 1).0.tail == 0
  {
    IndexIs(ro.servers, 1);
  }

  lemma {:induction false} RunOfTwo(s: State, l: Label, m: Label)
    requires Enabled(s, l) && Enabled(Apply(s, l), m)
    ensures IsRun(s, [l, m]) && After(s, [l, m]) == Apply(Apply(s, l), m)
  {
    hide Enabled, Apply;
    var s1 := Apply(s, l);
    assert [l, m][1..] == [m] && [m][1..] == [];
    assert IsRun(s1, [m]) && After(s1, [m]) == Apply(s1, m) by {
      assert IsRun(Apply(s1, m), []) && After(Apply(s1, m), []) == Apply(s1, m);
    }
  }
}
