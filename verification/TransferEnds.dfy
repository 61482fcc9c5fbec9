/** Transfers can be completed: from every reachable state of two chains, some run of detections, deliveries,
    arrivals of forwarded transfers and replies leaves every transfer between the two banks applied by all living
    servers of both. */
module TransferEnds {
  import opened Bank
  import opened Replicas
  import opened Masters
  import opened Chains
  import opened ChainSteps
  import opened ChainResults
  import opened ChainRepair
  import opened ChainRest
  import opened Transfers
  import opened TransferResults

  // ------------------------------------------------------------- one chain at rest

  ghost predicate Resting(s: State) { Inv(s) && Mending(s) && AtRest(s) && !s.lost }

  /** The first and the last listed server of a chain at rest. */
  lemma {:induction false} RestingEnds(s: State)
    requires Resting(s)
    ensures var q := s.roster.servers;
            |q| > 0 && q[0] == s.roster.head && q[|q| - 1] == s.roster.tail && Sane(s) &&
            Live(s, s.roster.head) && s.nodes[s.roster.head].rep.isHead &&
            Live(s, s.roster.tail) && s.nodes[s.roster.tail].rep.isTail && !s.nodes[s.roster.tail].rep.extending &&
            (forall x: Addr :: Live(s, x) ==> s.roster.head <= x) && Descending(s)
  {
    hide Inv, Mending, ReqsTo, CtlOf;
    RestEnds(s);
    InvStructure(s);
    InvSane(s);
    RosterEnds(s);
    NotExtending(s, s.roster.tail);
  }

  lemma {:induction false} RosterEnds(s: State)
    requires Structure(s)
    ensures var q := s.roster.servers; |q| > 0 && q[0] == s.roster.head && q[|q| - 1] == s.roster.tail
    ensures forall x: Addr :: Live(s, x) ==> s.roster.head <= x
  {
    Bounds(s);
  }

  lemma {:induction false} RestingLogs(s: State, x: Addr)
    requires Resting(s) && Live(s, x)
    ensures Sane(s) && L(s, x) == L(s, s.roster.head) && L(s, x) == Committed(s) && s.roster.head in s.nodes
  {
    hide Inv, Mending, AtRest, Refines;
    RestingEnds(s);
    RestAll(s);
    InvSane(s);
    assert Live(s, LastLive(s));
  }

  /** The head takes an incoming transfer, and nothing is on its way yet except to its successor. */
  lemma {:induction false} HeadTakes(s: State, r: Request)
    requires Resting(s) && r.kind == TransferTo && Enabled(s, ClientReq(s.roster.head, r))
    ensures var h := s.roster.head; var t := Apply(s, ClientReq(h, r));
            Inv(t) && Mending(t) && SameChain(s, t) && t.ctl == s.ctl && t.inbox == s.inbox && t.pinned == s.pinned &&
            Descending(t) && Answering(s, t, s.roster.tail) && h in s.nodes && h in t.nodes && L(t, h) == L(s, h) + [r]
  {
    hide Inv, Mending, Receive, ReqsTo, CtlOf, EntryAt, Answering, Descending;
    RestingEnds(s);
    var h, s1 := s.roster.head, s.(issued := s.issued + {r});
    StepKeeps(s, ClientReq(h, r));
    StepMends(s, ClientReq(h, r));
    IssueKeeps(s, r);
    ReceiveAnswers(s1, h, r, 0);
    ReceiveKept(s1, h, r, 0);
    ReceiveRest(s1, h, r, 0);
    ReceiveReqs(s1, h, r, 0);
    AlikeReqs(s, s1);
    var t := Apply(s, ClientReq(h, r));
    StillThere(s, t, 0);
    HeadSends(s, s1, t, h);
    if h != s.roster.tail { AnsweringStill(s, t, s.roster.tail); } else { AnsweringIssued(s, s1, t, h); }
  }

  lemma {:induction false} AnsweringIssued(s: State, s1: State, t: State, x: Addr)
    requires s1.nodes == s.nodes && s1.answers == s.answers && Answering(s1, t, x)
    ensures Answering(s, t, x)
  {
    hide EntryAt;
  }

  lemma {:induction false} HeadSends(s: State, s1: State, t: State, h: Addr)
    requires Descending(s) && AtRest(s) && Inv(s) && Live(s, h) && SameChain(s, t)
    requires s1.nodes == s.nodes
    requires forall p: Addr, q: Addr :: !(p == h && s.nodes[h].rep.succ == Some(q)) ==>
               ReqsTo(t, p, q) == ReqsTo(s, p, q)
    requires s.roster.tail in t.nodes && t.nodes[s.roster.tail].rep.isTail
    ensures Descending(t)
  {
    hide Inv, ReqsTo, CtlOf;
    InvOrigins(s);
    SuccAbove(s, h);
    StillThere(s, t, 0);
  }

  /** An incoming transfer arrives at a chain at rest: the chain comes to rest again, with the transfer in every log
      and the tail's reply given. */
  lemma {:induction false} Arrive(s: State, r: Request) returns (t: State)
    requires Resting(s) && r.kind == TransferTo && Enabled(s, ClientReq(s.roster.head, r))
    ensures Leads(Apply(s, ClientReq(s.roster.head, r)), t) && Resting(t) && SameChain(s, t) && t.pinned == s.pinned
    ensures var x := s.roster.tail;
            x in s.nodes && x in t.nodes && L(t, x) == L(s, x) + [r] &&
            ToUpdate(EntryAt(L(t, x), |L(s, x)|)) in t.answers && t.nodes[x].rep.sent == s.nodes[x].rep.sent
  {
    hide Inv, Mending, Enabled, Apply, Leads, ReqsTo, CtlOf, EntryAt, Answering, Descending;
    HeadTakes(s, r);
    var u := Apply(s, ClientReq(s.roster.head, r));
    InvSane(u);
    HasBound(u);
    var n: nat :| Bounded(u, n);
    t := DeliverRequests(u, 0, 0, n);
    LeadsMends(u, t);
    RestAgain(s, u, t, n);
    AnsweringTrans(s, u, t, s.roster.tail);
    RestingEnds(s);
    RestingLogs(s, s.roster.tail);
    RestingEnds(t);
    RestingLogs(t, t.roster.tail);
    HeadStays(s, u, t);
    OneMore(s, t, s.roster.tail, r);
  }

  lemma {:induction false} HeadStays(s: State, u: State, t: State)
    requires Resting(s) && SameChain(s, u) && Descends(u, t)
    ensures s.roster.head in u.nodes && s.roster.head in t.nodes && L(t, s.roster.head) == L(u, s.roster.head)
  {
    hide Inv, Mending, AtRest, Answering, Descending;
    RestingEnds(s);
    StillThere(s, u, 0);
  }

  lemma {:induction false} RestAgain(s: State, u: State, t: State, n: nat)
    requires AtRest(s) && SameChain(s, u) && u.ctl == s.ctl && u.inbox == s.inbox && Bounded(u, n)
    requires SameChain(u, t) && t.ctl == u.ctl && t.inbox == u.inbox && NoRequests(t, n, 0)
    ensures AtRest(t)
  {
    StillThere(s, u, n);
    StillThere(u, t, n);
    AlikeCtl(s, t);
    hide ReqsTo, CtlOf;
  }

  lemma {:induction false} LeadsMends(s: State, t: State)
    requires Inv(s) && Mending(s) && Leads(s, t)
    ensures Inv(t) && Mending(t)
  {
    hide Inv, Mending;
    var ms :| RepairRun(s, ms, t);
    RunKeeps(s, ms);
    RunMends(s, ms);
  }

  lemma {:induction false} OneMore(s: State, t: State, x: Addr, r: Request)
    requires Answering(s, t, x) && L(t, x) == L(s, x) + [r] && r.kind != Transfer
    ensures ToUpdate(EntryAt(L(t, x), |L(s, x)|)) in t.answers && t.nodes[x].rep.sent == s.nodes[x].rep.sent
  {
    hide EntryAt;
  }

  // ------------------------------------------------------------------ two chains

  /** Detections, deliveries, arrivals of forwarded transfers and replies to them. */
  predicate Settling(l: PairLabel) {
    match l
    case Src(k) => Repairing(k) || (k.ClientReq? && k.r.kind == TransferTo)
    case Dst(k) => Repairing(k) || (k.ClientReq? && k.r.kind == TransferTo)
    case _ => true
  }

  ghost predicate SettlingRun(p: Pair, ls: seq<PairLabel>, q: Pair) {
    PairRun(p, ls) && (forall l :: l in ls ==> Settling(l)) && PairAfter(p, ls) == q
  }

  ghost predicate PairLeads(p: Pair, q: Pair) { exists ls :: SettlingRun(p, ls, q) }

  lemma {:induction false} PairLeadsOn(p: Pair, l: PairLabel, q: Pair)
    requires PairEnabled(p, l) && Settling(l) && PairLeads(PairApply(p, l), q)
    ensures PairLeads(p, q)
  {
    hide PairEnabled, PairApply;
    var ls :| SettlingRun(PairApply(p, l), ls, q);
    assert ([l] + ls)[1..] == ls;
    assert SettlingRun(p, [l] + ls, q);
  }

  lemma {:induction false} PairLeadsNowhere(p: Pair)
    ensures PairLeads(p, p)
  {
    assert SettlingRun(p, [], p);
  }

  lemma {:induction false} PairRunTrans(p: Pair, ls: seq<PairLabel>, ms: seq<PairLabel>)
    requires PairRun(p, ls) && PairRun(PairAfter(p, ls), ms)
    ensures PairRun(p, ls + ms) && PairAfter(p, ls + ms) == PairAfter(PairAfter(p, ls), ms)
    decreases |ls|
  {
    hide PairEnabled, PairApply;
    if ls == [] {
      assert ls + ms == ms;
    } else {
      assert (ls + ms)[1..] == ls[1..] + ms;
      PairRunTrans(PairApply(p, ls[0]), ls[1..], ms);
    }
  }

  lemma {:induction false} PairLeadsTrans(p: Pair, q: Pair, r: Pair)
    requires PairLeads(p, q) && PairLeads(q, r)
    ensures PairLeads(p, r)
  {
    hide PairRun, PairAfter;
    var ls :| SettlingRun(p, ls, q);
    var ms :| SettlingRun(q, ms, r);
    PairRunTrans(p, ls, ms);
    assert SettlingRun(p, ls + ms, r);
  }

  function Flip(l: PairLabel): PairLabel {
    match l
    case Src(k) => Dst(k)
    case Dst(k) => Src(k)
    case AnswerSrc(x, d) => AnswerDst(x, d)
    case AnswerDst(x, d) => AnswerSrc(x, d)
  }

  function FlipAll(ls: seq<PairLabel>): seq<PairLabel> { if ls == [] then [] else [Flip(ls[0])] + FlipAll(ls[1..]) }

  lemma {:induction false} FlipRun(p: Pair, ls: seq<PairLabel>)
    requires PairRun(p, ls) && forall l :: l in ls ==> Settling(l)
    ensures PairRun(Swap(p), FlipAll(ls)) && PairAfter(Swap(p), FlipAll(ls)) == Swap(PairAfter(p, ls))
    ensures forall l :: l in FlipAll(ls) ==> Settling(l)
    decreases |ls|
  {
    if ls != [] {
      FlipStep(p, ls[0]);
      hide PairEnabled, PairApply, Repairing;
      assert ls[0] in ls;
      FlipRun(PairApply(p, ls[0]), ls[1..]);
      assert FlipAll(ls)[1..] == FlipAll(ls[1..]);
    }
  }

  lemma {:induction false} FlipStep(p: Pair, l: PairLabel)
    requires PairEnabled(p, l)
    ensures PairEnabled(Swap(p), Flip(l)) && PairApply(Swap(p), Flip(l)) == Swap(PairApply(p, l))
    ensures Settling(l) ==> Settling(Flip(l))
  {
    hide SideEnabled, AnswerEnabled, Apply, Repairing;
    assert Swap(Swap(p)) == p;
  }

  lemma {:induction false} PairLeadsSwap(p: Pair, q: Pair)
    requires PairLeads(Swap(p), q)
    ensures PairLeads(p, Swap(q))
  {
    hide PairRun, PairAfter, Settling;
    var ls :| SettlingRun(Swap(p), ls, q);
    FlipRun(Swap(p), ls);
    assert Swap(Swap(p)) == p;
    assert SettlingRun(p, FlipAll(ls), Swap(q));
  }

  /** What one chain can do by itself, the pair can. */
  lemma {:induction false} LiftRun(p: Pair, ms: seq<Label>)
    requires IsRun(p.dst, ms) && forall l :: l in ms ==> Repairing(l)
    ensures PairLeads(p, p.(dst := After(p.dst, ms)))
    decreases |ms|
  {
    hide Enabled, Apply, PairLeads;
    if ms == [] {
      assert p.(dst := p.dst) == p;
      PairLeadsNowhere(p);
    } else {
      assert ms[0] in ms;
      LiftStep(p, ms[0]);
      var q := p.(dst := Apply(p.dst, ms[0]));
      LiftRun(q, ms[1..]);
      assert q.(dst := After(q.dst, ms[1..])) == p.(dst := After(p.dst, ms));
      PairLeadsOn(p, Dst(ms[0]), p.(dst := After(p.dst, ms)));
    }
  }

  lemma {:induction false} LiftStep(p: Pair, l: Label)
    requires Enabled(p.dst, l) && Repairing(l)
    ensures PairEnabled(p, Dst(l)) && PairApply(p, Dst(l)) == p.(dst := Apply(p.dst, l)) && Settling(Dst(l))
  {
    hide Enabled, Apply;
  }

  lemma {:induction false} Lift(p: Pair, t: State)
    requires Leads(p.dst, t)
    ensures PairLeads(p, p.(dst := t))
  {
    hide IsRun, After, PairLeads;
    var ms :| RepairRun(p.dst, ms, t);
    LiftRun(p, ms);
  }

  lemma {:induction false} PairLeadsKeeps(p: Pair, q: Pair)
    requires PairInv(p) && PairLeads(p, q)
    ensures PairInv(q)
  {
    hide PairInv, PairEnabled, PairApply;
    var ls :| SettlingRun(p, ls, q);
    PairRunKeeps(p, ls);
  }

  // ------------------------------------------------------- one transfer is served

  lemma {:induction false} UnansweredFewer(es: seq<Entry>, id: ReqId, account: AccountId, e: Entry)
    requires e in es && Answers(e, id, account)
    ensures |Unanswered(es, id, account)| < |es|
    decreases |es|
  {
    UnansweredAtMost(es[1..], id, account);
    if !Answers(es[0], id, account) {
      assert e in es[1..];
      UnansweredFewer(es[1..], id, account, e);
    }
  }

  lemma {:induction false} UnansweredAtMost(es: seq<Entry>, id: ReqId, account: AccountId)
    ensures |Unanswered(es, id, account)| <= |es|
    decreases |es|
  {
    if es != [] { UnansweredAtMost(es[1..], id, account); }
  }

  /** A reply that reaches the tail changes nothing but what is pending there. */
  lemma {:induction false} ReplySettles(s: State, id: ReqId, account: AccountId)
    requires Resting(s) && s.pinned
    ensures Enabled(s, BankReply(s.roster.tail, id, account))
    ensures var x := s.roster.tail; var t := Apply(s, BankReply(x, id, account));
            Resting(t) && SameChain(s, t) && t.pinned && x in s.nodes && x in t.nodes &&
            L(t, x) == L(s, x) && t.nodes[x].rep.sent == Unanswered(s.nodes[x].rep.sent, id, account)
  {
    hide Inv, Mending, ReqsTo, CtlOf, AcksTo, Answered, Unanswered, Emit;
    RestingEnds(s);
    var x := s.roster.tail;
    var l := BankReply(x, id, account);
    var rep := s.nodes[x].rep;
    StepKeeps(s, l);
    StepMends(s, l);
    var t, u := Apply(s, l), TransferReply(rep, id, account);
    EmitFrame(s, x, Node(u.rep, L(s, x)), u.out);
    StillThere(s, t, 0);
    assert forall a: Addr, y: Addr :: ReqsTo(s, a, y) + [] == ReqsTo(s, a, y);
    AlikeCtl(s, t);
  }

  ghost predicate BothResting(p: Pair) { PairInv(p) && Resting(p.src) && Resting(p.dst) }

  /** Both chains stand as they stood, with the same tails. */
  ghost predicate SamePair(p: Pair, q: Pair) {
    SameChain(p.src, q.src) && SameChain(p.dst, q.dst) && q.src.pinned == p.src.pinned && q.dst.pinned == p.dst.pinned
  }

  function SentAt(s: State): seq<Entry> { if Tail(s) in s.nodes then s.nodes[Tail(s)].rep.sent else [] }

  /** A pending transfer to the other bank, with both chains at rest: it is forwarded again, arrives, is answered,
      and leaves. */
  lemma {:induction false} ServeOne(p: Pair, e: Entry) returns (q: Pair)
    requires BothResting(p) && p.src.pinned && e in SentAt(p.src) && e.req.destBank == p.dst.roster.bank
    ensures PairLeads(p, q) && BothResting(q) && SamePair(p, q)
    ensures |SentAt(q.src)| < |SentAt(p.src)| && SentAt(q.dst) == SentAt(p.dst)
  {
    hide Inv, Mending, AtRest, PairInv, PairLeads, Enabled, Apply, EntryAt, IsEntry, MayIssue, Tracked, AcksSettled,
      Leads;
    PairFacts(p);
    RestingEnds(p.src);
    RestingEnds(p.dst);
    SentWasForwarded(p, e);
    var r, h, x := Outgoing(e.req), p.dst.roster.head, p.dst.roster.tail;
    ForwardedMayArrive(p, e, h);
    ArrivalEnabled(p, h, r);
    var t := Arrive(p.dst, r);
    var p1, p2 := p.(dst := Apply(p.dst, ClientReq(h, r))), p.(dst := t);
    Lift(p1, t);
    assert p1.(dst := t) == p2;
    PairLeadsOn(p, Dst(ClientReq(h, r)), p2);
    PairLeadsKeeps(p, p2);
    var d := EntryAt(L(t, x), |L(p.dst, x)|);
    ReplyOf(L(p.dst, x), r);
    ReplySettles(p.src, d.reply.id, d.reply.account);
    AnswerArrives(p2, d);
    q := PairApply(p2, AnswerSrc(Tail(p.src), d));
    PairLeadsNowhere(q);
    PairLeadsOn(p2, AnswerSrc(Tail(p.src), d), q);
    PairLeadsTrans(p, p2, q);
    PairLeadsKeeps(p, q);
    UnansweredFewer(SentAt(p.src), d.reply.id, d.reply.account, e);
  }

  lemma {:induction false} ArrivalEnabled(p: Pair, h: Addr, r: Request)
    requires PairEnabled(p, Dst(ClientReq(h, r))) && r.kind == TransferTo
    ensures Enabled(p.dst, ClientReq(h, r)) && Settling(Dst(ClientReq(h, r)))
    ensures PairApply(p, Dst(ClientReq(h, r))) == p.(dst := Apply(p.dst, ClientReq(h, r)))
  {
    hide Enabled, Apply, MayIssue;
  }

  lemma {:induction false} ReplyOf(log: seq<Request>, r: Request)
    ensures var d := EntryAt(log + [r], |log|); d.req == r && d.reply.id == r.id && d.reply.account == r.account
  {
    EntryFields(log + [r], |log|);
    ReplyKey(log + [r], |log|);
    hide EntryAt;
  }

  lemma {:induction false} AnswerArrives(p: Pair, d: Entry)
    requires Chains.ToUpdate(d) in p.dst.answers && d.req.kind == TransferTo
    requires Enabled(p.src, BankReply(Tail(p.src), d.reply.id, d.reply.account))
    ensures var l := AnswerSrc(Tail(p.src), d);
            PairEnabled(p, l) && Settling(l) &&
            PairApply(p, l) == p.(src := Apply(p.src, BankReply(Tail(p.src), d.reply.id, d.reply.account)))
  {
    hide Enabled, Apply;
  }

  ghost predicate NonePending(p: Pair) { forall e :: e in SentAt(p.src) ==> e.req.destBank != p.dst.roster.bank }

  lemma {:induction false} ServeAll(p: Pair) returns (q: Pair)
    requires BothResting(p) && p.src.pinned
    ensures PairLeads(p, q) && BothResting(q) && SamePair(p, q) && NonePending(q) && SentAt(q.dst) == SentAt(p.dst)
    decreases |SentAt(p.src)|
  {
    hide BothResting, PairLeads, SentAt;
    if NonePending(p) {
      q := p;
      PairLeadsNowhere(p);
    } else {
      var e :| e in SentAt(p.src) && e.req.destBank == p.dst.roster.bank;
      var p1 := ServeOne(p, e);
      q := ServeAll(p1);
      PairLeadsTrans(p, p1, q);
    }
  }

  // ------------------------------------------------------------------------ the end

  lemma {:induction false} RestDst(p: Pair) returns (q: Pair)
    requires PairInv(p) && Mending(p.dst) && !p.dst.lost
    ensures PairLeads(p, q) && PairInv(q) && Resting(q.dst) && q.src == p.src
  {
    hide Inv, Mending, AtRest, PairLeads, Leads, Tracked, AcksSettled, Ids, Sources;
    CanRest(p.dst);
    var t :| Leads(p.dst, t) && AtRest(t) && !t.lost;
    LeadsMends(p.dst, t);
    Lift(p, t);
    q := p.(dst := t);
    PairLeadsKeeps(p, q);
  }

  lemma {:induction false} RestBoth(p: Pair) returns (q: Pair)
    requires PairInv(p) && Mending(p.src) && Mending(p.dst) && !p.src.lost && !p.dst.lost
    ensures PairLeads(p, q) && BothResting(q)
  {
    hide PairInv, Mending, Resting, PairLeads;
    var p1 := RestDst(p);
    SwapInv(p1);
    var p2 := RestDst(Swap(p1));
    PairLeadsSwap(p1, p2);
    q := Swap(p2);
    SwapInv(p2);
    PairLeadsTrans(p, p1, q);
  }

  lemma {:induction false} SwapResting(p: Pair)
    requires BothResting(p)
    ensures BothResting(Swap(p))
  {
    hide PairInv, Resting;
    SwapInv(p);
  }

  /** Nothing is pending between the two banks, in this direction. */
  ghost predicate Finished(p: Pair) { p.src.pinned ==> NonePending(p) }

  lemma {:induction false} ServeBoth(p: Pair) returns (q: Pair)
    requires BothResting(p)
    ensures PairLeads(p, q) && BothResting(q) && Finished(q) && Finished(Swap(q))
  {
    hide BothResting, PairLeads, SentAt, SameChain;
    var p1 := p;
    PairLeadsNowhere(p);
    if p.src.pinned { p1 := ServeAll(p); }
    var p2 := p1;
    PairLeadsNowhere(p1);
    if p1.dst.pinned {
      SwapResting(p1);
      var r := ServeAll(Swap(p1));
      PairLeadsSwap(p1, r);
      SwapResting(r);
      p2 := Swap(r);
      SameBank(p1, r);
    }
    PairLeadsTrans(p, p1, p2);
    q := p2;
  }

  lemma {:induction false} SameBank(p: Pair, r: Pair)
    requires SamePair(Swap(p), r) && SentAt(r.dst) == SentAt(p.src) && Finished(p)
    ensures Finished(Swap(r))
  {
    hide SentAt;
  }

  /** Every transfer to the other bank that the chain has committed is in every living server's log there. */
  ghost predicate Delivered(p: Pair) {
    Sane(p.src) &&
    var log := Committed(p.src);
    forall i, x: Addr :: 0 <= i < |log| && PendingTransfer(EntryAt(log, i)) && Live(p.dst, x) ==>
      log[i].destBank == p.dst.roster.bank ==> Outgoing(log[i]) in L(p.dst, x)
  }

  lemma {:induction false} FinishedIsDelivered(p: Pair)
    requires BothResting(p) && Finished(p)
    ensures Delivered(p)
  {
    hide Inv, Mending, AtRest, PairInv, Run, Serve, EntryAt, Tracked, AcksSettled, PendingTransfer;
    PairFacts(p);
    RestingEnds(p.src);
    InvSane(p.dst);
    var log := Committed(p.src);
    forall i, x: Addr | 0 <= i < |log| && PendingTransfer(EntryAt(log, i)) &&
                        log[i].destBank == p.dst.roster.bank && Live(p.dst, x)
      ensures Outgoing(log[i]) in L(p.dst, x)
    {
      PendingPins(p.src, i);
      HeldAt(p, Tail(p.src), i);
      EntryFields(log, i);
      assert Committed(p.dst) <= L(p.dst, x);
    }
  }

  lemma {:induction false} PairMends(p: Pair, ls: seq<PairLabel>)
    requires PairInv(p) && Mending(p.src) && Mending(p.dst) && PairRun(p, ls)
    ensures Mending(PairAfter(p, ls).src) && Mending(PairAfter(p, ls).dst)
    decreases |ls|
  {
    hide PairInv, PairApply, PairEnabled, Mending;
    if ls != [] {
      PairStepKeeps(p, ls[0]);
      PairStepMends(p, ls[0]);
      PairMends(PairApply(p, ls[0]), ls[1..]);
    }
  }

  lemma {:induction false} PairStepMends(p: Pair, l: PairLabel)
    requires PairInv(p) && Mending(p.src) && Mending(p.dst) && PairEnabled(p, l)
    ensures Mending(PairApply(p, l).src) && Mending(PairApply(p, l).dst)
  {
    hide Inv, Mending, Enabled, Apply, MayIssue, Ids, Direction;
    match l
    case Src(k) => StepMends(p.src, k);
    case Dst(k) => StepMends(p.dst, k);
    case AnswerSrc(x, d) => StepMends(p.src, BankReply(x, d.reply.id, d.reply.account));
    case AnswerDst(x, d) => StepMends(p.dst, BankReply(x, d.reply.id, d.reply.account));
  }

  /** From every reachable state in which neither bank is lost, some run without new requests brings both chains to
      rest with every committed transfer between them in the logs of all living servers of both banks, and none of
      them pending. */
  lemma {:induction false} TransfersComplete(a: Setup, b: Setup, ls: seq<PairLabel>)
    requires MayStart(a, b) && PairRun(InitialPair(a, b), ls)
    requires !PairAfter(InitialPair(a, b), ls).src.lost && !PairAfter(InitialPair(a, b), ls).dst.lost
    ensures exists ms, q :: SettlingRun(PairAfter(InitialPair(a, b), ls), ms, q) &&
                            AtRest(q.src) && AtRest(q.dst) && Finished(q) && Finished(Swap(q)) &&
                            Delivered(q) && Delivered(Swap(q))
  {
    hide PairInv, PairApply, PairEnabled, Initial, Mending, AtRest, Finished, Delivered, SettlingRun, PairRun,
      PairAfter, Inv;
    InitialPairKeeps(a, b);
    InitialMends(a.bank, a.servers, a.pinned);
    InitialMends(b.bank, b.servers, b.pinned);
    PairRunKeeps(InitialPair(a, b), ls);
    PairMends(InitialPair(a, b), ls);
    var p := PairAfter(InitialPair(a, b), ls);
    var p1 := RestBoth(p);
    var q := ServeBoth(p1);
    PairLeadsTrans(p, p1, q);
    FinishedIsDelivered(q);
    SwapResting(q);
    FinishedIsDelivered(Swap(q));
    var ms :| SettlingRun(p, ms, q);
  }

  /** A pending transfer waits for the other bank's reply: no other step takes it out of the tail's sent list. */
  lemma {:induction false} PendingWaits(p: Pair, l: Label, e: Entry)
    requires PairInv(p) && p.src.pinned && SideEnabled(p, l) && e in SentAt(p.src)
    ensures e in SentAt(Apply(p.src, l))
  {
    hide Inv, Enabled, Apply, MayIssue, EntryAt, AcksMoved, Tracked, AcksSettled;
    StepMoves(p.src, l);
    hide MoveOf;
    OnlyRepliesFree(p.src, l);
    assert Tail(Apply(p.src, l)) == Tail(p.src);
  }

  lemma {:induction false} OnlyRepliesFree(s: State, l: Label)
    requires !l.BankReply?
    ensures !MoveOf(s, l).Freed?
  {
    hide ReqsTo;
  }
}
