/** Repair completes: whatever crashed and in whatever order the notices and
    reports travelled, once nothing is in flight the surviving servers form a
    chain again and all hold the same log. */
module ChainRepair {
  import opened Bank
  import opened Replicas
  import opened Masters
  import opened Chains
  import opened ChainSteps
  import opened ChainResults

  /** The successor `x` ends up with after taking the notices `q`. */
  function NoticedSucc(q: seq<Notice>, d: Option<Addr>): Option<Addr> {
    if q == [] then d else NoticedSucc(q[1..], if q[0].NewSucc? then Some(q[0].succ) else d)
  }

  /** The successor `x` ends up with after the reports `q` have been relayed to it. */
  function ReportedSucc(q: seq<Report>, x: Addr, d: Option<Addr>): Option<Addr> {
    if q == [] then d else ReportedSucc(q[1..], x, if q[0].pre == x then Some(q[0].succ) else d)
  }

  /** The successor `x` has once everything on its way to it has arrived. */
  function FinalSucc(s: State, x: Addr): Option<Addr>
    requires x in s.nodes
  {
    ReportedSucc(s.inbox, x, NoticedSucc(CtlOf(s, x), s.nodes[x].rep.succ))
  }

  /** Listed neighbours that are both alive are linked, or the last word on its
      way to the first, or the notice to the second, will link them. */
  ghost predicate WillLink(s: State) {
    forall x: Addr, y: Addr :: Live(s, x) && Live(s, y) && Adjacent(s.roster.servers, x, y) ==>
      NewPre(x) in CtlOf(s, y) || FinalSucc(s, x) == Some(y)
  }

  ghost predicate WillLead(s: State) {
    && (Live(s, s.roster.head) ==> s.nodes[s.roster.head].rep.isHead || ToBeHead in CtlOf(s, s.roster.head))
    && (Live(s, s.roster.tail) ==> s.nodes[s.roster.tail].rep.isTail || ToBeTail in CtlOf(s, s.roster.tail))
  }

  lemma {:induction false} NoticedSnoc(q: seq<Notice>, c: Notice, d: Option<Addr>)
    ensures NoticedSucc(q + [c], d) == if c.NewSucc? then Some(c.succ) else NoticedSucc(q, d)
    decreases |q|
  {
    if q == [] {
      assert (q + [c])[1..] == [];
    } else {
      assert (q + [c])[1..] == q[1..] + [c];
      NoticedSnoc(q[1..], c, if q[0].NewSucc? then Some(q[0].succ) else d);
    }
  }

  lemma {:induction false} ReportedSnoc(q: seq<Report>, m: Report, x: Addr, d: Option<Addr>)
    ensures ReportedSucc(q + [m], x, d) == if m.pre == x then Some(m.succ) else ReportedSucc(q, x, d)
    decreases |q|
  {
    if q == [] {
      assert (q + [m])[1..] == [];
    } else {
      assert (q + [m])[1..] == q[1..] + [m];
      ReportedSnoc(q[1..], m, x, if q[0].pre == x then Some(q[0].succ) else d);
    }
  }

  /** The predecessor `y` ends up with after taking the notices `q`. */
  function NoticedPre(q: seq<Notice>, d: Option<Addr>): Option<Addr> {
    if q == [] then d else NoticedPre(q[1..], if q[0].NewPre? then Some(q[0].pre) else d)
  }

  /** The last word on its way to a live server names its listed predecessor. */
  ghost predicate WillBack(s: State) {
    forall x: Addr, y: Addr :: Live(s, y) && Adjacent(s.roster.servers, x, y) ==>
      NoticedPre(CtlOf(s, y), s.nodes[y].rep.pre) == Some(x)
  }

  lemma {:induction false} NoticedPreSnoc(q: seq<Notice>, c: Notice, d: Option<Addr>)
    ensures NoticedPre(q + [c], d) == if c.NewPre? then Some(c.pre) else NoticedPre(q, d)
    decreases |q|
  {
    if q == [] {
      assert (q + [c])[1..] == [];
    } else {
      assert (q + [c])[1..] == q[1..] + [c];
      NoticedPreSnoc(q[1..], c, if q[0].NewPre? then Some(q[0].pre) else d);
    }
  }

  /** Server `x`'s head and tail flags only rise, its neighbours change only by a notice. */
  ghost predicate Kept(s: State, t: State, x: Addr) {
    x in s.nodes && x in t.nodes &&
    t.nodes[x].rep.succ == s.nodes[x].rep.succ && t.nodes[x].rep.pre == s.nodes[x].rep.pre &&
    (s.nodes[x].rep.isHead ==> t.nodes[x].rep.isHead) && (s.nodes[x].rep.isTail ==> t.nodes[x].rep.isTail)
  }

  /** Steps that move no notice, no report and no list entry. */
  lemma {:induction false} QuietKeeps(s: State, t: State)
    requires Mending(s)
    requires t.live <= s.live && t.nodes.Keys == s.nodes.Keys
    requires t.roster == s.roster && t.ctl == s.ctl && t.inbox == s.inbox
    requires forall x: Addr :: x in s.nodes ==> Kept(s, t, x)
    ensures Mending(t)
  {
    hide NoticedSucc, NoticedPre, ReportedSucc, Adjacent;
    AlikeCtl(s, t);
    assert forall y: Addr :: Live(t, y) ==> Live(s, y);
    hide CtlOf;
  }

  lemma {:induction false} AcknowledgeRole(rep: Replica, k: nat)
    ensures SameRole(rep, Acknowledge(rep, k))
    decreases |rep.sent|
  {
    if rep.sent != [] && rep.sent[0].seqNo <= k {
      AcknowledgeRole(rep.(processed := InsertProcessed(rep.processed, rep.sent[0]), sent := rep.sent[1..]), k);
    }
  }

  lemma {:induction false} ReceiveRole(rep: Replica, r: Request, stamp: nat)
    ensures ReceiveUpdate(rep, r, stamp).Done? ==> SameRole(rep, ReceiveUpdate(rep, r, stamp).rep)
  {
    hide Move, Lookup, InsertProcessed, InSent;
  }

  lemma {:induction false} ReceiveKept(s: State, z: Addr, r: Request, stamp: nat)
    requires z in s.nodes
    ensures var t := Receive(s, z, r, stamp);
            t.live == s.live && t.nodes.Keys == s.nodes.Keys && t.roster == s.roster && t.ctl == s.ctl &&
            t.lost == s.lost && t.inbox == s.inbox && forall x: Addr :: x in s.nodes ==> Kept(s, t, x)
  {
    hide ReceiveUpdate;
    ReceiveRole(s.nodes[z].rep, r, stamp);
  }

  lemma {:induction false} SettleKept(s: State, z: Addr, t: Step)
    requires z in s.nodes && t.Done?
    ensures var u := Settle(s, z, t);
            u.live == s.live && u.nodes.Keys == s.nodes.Keys && u.roster == s.roster &&
            u.ctl == s.ctl && u.inbox == s.inbox && u.lost == s.lost
    ensures SameRole(s.nodes[z].rep, t.rep) ==> forall x: Addr :: x in s.nodes ==> Kept(s, Settle(s, z, t), x)
    ensures Settle(s, z, t).nodes == s.nodes[z := Node(t.rep, s.nodes[z].log)]
  {
  }

  lemma {:induction false} NewHeadSettles(s: State, z: Addr, bank: BankId)
    requires z in s.nodes
    ensures var u := Settle(s, z, HandleNewHead(s.nodes[z].rep, bank));
            u.live == s.live && u.nodes == s.nodes && u.roster == s.roster && u.ctl == s.ctl && u.inbox == s.inbox &&
            u.lost == s.lost
  {
    hide ToBank;
    assert Node(s.nodes[z].rep, s.nodes[z].log) == s.nodes[z];
    assert s.nodes[z := s.nodes[z]] == s.nodes;
  }

  /** What a step that moves no notice, report or list entry leaves alone. */
  ghost predicate Quiet(s: State, t: State) {
    && t.live <= s.live && t.nodes.Keys == s.nodes.Keys
    && t.roster == s.roster && t.ctl == s.ctl && t.inbox == s.inbox
    && forall x: Addr :: x in s.nodes ==> Kept(s, t, x)
  }

  lemma {:induction false} QuietSettle(s: State, z: Addr, t: Step)
    requires z in s.nodes && t.Done? && SameRole(s.nodes[z].rep, t.rep)
    ensures Quiet(s, Settle(s, z, t))
  {
    hide Settle;
    SettleKept(s, z, t);
  }

  lemma {:induction false} QuietQuery(s: State, x: Addr, a: AccountId)
    requires Enabled(s, ClientQuery(x, a))
    ensures Quiet(s, Apply(s, ClientQuery(x, a)))
  {
    hide Quiet, Stop;
    var rep := HandleQuery(s.nodes[x].rep, a).0;
    assert SameRole(s.nodes[x].rep, rep);
    if s.nodes[x].rep.isTail {
      QuietNode(s, Apply(s, ClientQuery(x, a)), x, Node(rep, s.nodes[x].log));
    } else {
      QuietStop(s, x);
    }
  }

  lemma {:induction false} QuietNode(s: State, t: State, x: Addr, n: Node)
    requires x in s.nodes && t == s.(nodes := s.nodes[x := n], answers := t.answers) && SameRole(s.nodes[x].rep, n.rep)
    ensures Quiet(s, t)
  {
  }

  lemma {:induction false} QuietStop(s: State, x: Addr)
    ensures Quiet(s, Stop(s, x))
  {
    hide Quiet;
    if s.live == {x} {
      QuietSame(s, s.(lost := true));
    } else {
      QuietSame(s, s.(live := s.live - {x}));
    }
  }

  lemma {:induction false} QuietSame(s: State, t: State)
    requires t.live <= s.live && t.nodes == s.nodes && t.roster == s.roster && t.ctl == s.ctl && t.inbox == s.inbox
    ensures Quiet(s, t)
  {
  }

  lemma {:induction false} PopsQuiet(s: State, u: State, a: Addr, x: Addr)
    requires Quiet(s, u)
    ensures Quiet(s, PopReq(u, a, x)) && Quiet(s, PopAck(u, a, x))
  {
    hide ReqsTo, AcksTo;
  }

  lemma {:induction false} QuietStep(s: State, l: Label)
    requires Inv(s) && Enabled(s, l) && Mending(s)
    requires !l.DeliverCtl? && !l.MasterRelay? && !l.Detect?
    ensures Mending(Apply(s, l))
  {
    hide Inv, Mending, Receive, Settle, Acknowledge, Answered, Unanswered, ReqsTo, AcksTo, HandleNewHead, HandleQuery,
      PopReq, PopAck;
    match l {
      case ClientReq(x, r) => ReceiveKept(s.(issued := s.issued + {r}), x, r, 0);
      case ClientQuery(x, a) => QuietQuery(s, x, a);
      case DeliverReq(a, x) =>
        ReceiveKept(s, x, ReqsTo(s, a, x)[0].req, ReqsTo(s, a, x)[0].seqNo);
        PopsQuiet(s, Receive(s, x, ReqsTo(s, a, x)[0].req, ReqsTo(s, a, x)[0].seqNo), a, x);
      case DeliverAck(a, x) =>
        AcknowledgeRole(s.nodes[x].rep, AcksTo(s, a, x)[0]);
        QuietSettle(s, x, ReceiveAck(s.nodes[x].rep, AcksTo(s, a, x)[0]));
        PopsQuiet(s, Settle(s, x, ReceiveAck(s.nodes[x].rep, AcksTo(s, a, x)[0])), a, x);
      case Crash(x) =>
      case BankReply(x, id, account) => QuietSettle(s, x, TransferReply(s.nodes[x].rep, id, account));
      case OtherBankHead(x, bank) => NewHeadSettles(s, x, bank);
    }
    assert Quiet(s, Apply(s, l));
    QuietKeeps(s, Apply(s, l));
  }

  lemma {:induction false} RelayLinks(s: State)
    requires Inv(s) && Enabled(s, MasterRelay) && WillLink(s) && WillLead(s)
    ensures WillLink(Apply(s, MasterRelay)) && WillLead(Apply(s, MasterRelay))
  {
    hide Inv, Adjacent;
    var t, m := Apply(s, MasterRelay), s.inbox[0];
    forall x: Addr | x in s.nodes ensures FinalSucc(t, x) == FinalSucc(s, x) {
      NoticedSnoc(CtlOf(s, x), NewSucc(m.succ, m.n), s.nodes[x].rep.succ);
    }
    assert forall y: Addr, c: Notice :: c in CtlOf(s, y) ==> c in CtlOf(t, y);
    hide FinalSucc, CtlOf;
    assert forall y: Addr :: Live(t, y) <==> Live(s, y);
  }

  lemma {:induction false} RelayBacks(s: State)
    requires Enabled(s, MasterRelay) && WillBack(s)
    ensures WillBack(Apply(s, MasterRelay))
  {
    hide Adjacent, NoticedPre;
    var t, m := Apply(s, MasterRelay), s.inbox[0];
    forall y: Addr | y in s.nodes
      ensures NoticedPre(CtlOf(t, y), s.nodes[y].rep.pre) == NoticedPre(CtlOf(s, y), s.nodes[y].rep.pre)
    {
      NoticedPreSnoc(CtlOf(s, y), NewSucc(m.succ, m.n), s.nodes[y].rep.pre);
    }
    hide CtlOf;
    assert forall y: Addr :: Live(t, y) <==> Live(s, y);
  }

  /** A query at the server the master names as tail fails only while the order to be tail is on its way to it. */
  lemma {:induction false} QueryAtNamedTail(s: State, a: AccountId)
    requires Inv(s) && Mending(s) && Enabled(s, ClientQuery(s.roster.tail, a))
    ensures s.nodes[s.roster.tail].rep.isTail || ToBeTail in CtlOf(s, s.roster.tail)
  {
    hide Inv, WillLink, WillBack, CtlOf;
  }

  /** The only live server that can be told that `x` precedes it is `x`'s listed neighbour. */
  lemma {:induction false} OnlyNeighbour(s: State, x: Addr, y: Addr, z: Addr)
    requires Inv(s) && Live(s, x) && Live(s, y) && Live(s, z)
    requires Adjacent(s.roster.servers, x, y) && NewPre(x) in CtlOf(s, z)
    ensures z == y
  {
    hide Contents, Gaps, AckBound, Links, Books, Origins, Replies, Roles, Prefixes, RosterOk, CtlOf;
    var i :| 0 <= i < |s.roster.servers| - 1 && s.roster.servers[i] == x && s.roster.servers[i + 1] == y;
    var j :| 0 <= j < |s.roster.servers| && s.roster.servers[j] == z;
    assert Next(s, x, z);
    assert x < z && j > i;
    assert y <= z;
    assert !(x < y < z);
  }

  lemma {:induction false} NoticeLinks(s: State, z: Addr)
    requires Inv(s) && Enabled(s, DeliverCtl(z)) && WillLink(s) && WillLead(s)
    ensures WillLink(Apply(s, DeliverCtl(z)))
  {
    hide Inv, Adjacent, Settle, ReportedSucc, TransfersOf, Promote, Above, WillLead;
    var t, c, rep := Apply(s, DeliverCtl(z)), CtlOf(s, z)[0], s.nodes[z].rep;
    assert c in CtlOf(s, z);
    NoticeFrame(s, z);
    forall x: Addr, y: Addr | Live(t, x) && Live(t, y) && Adjacent(t.roster.servers, x, y)
      ensures NewPre(x) in CtlOf(t, y) || FinalSucc(t, x) == Some(y)
    {
      if c == NewPre(x) {
        OnlyNeighbour(s, x, y, z);
        ReportedSnoc(s.inbox, Report(x, z, rep.seqNo), x, NoticedSucc(CtlOf(t, x), t.nodes[x].rep.succ));
      } else {
        if c.NewPre? {
          ReportedSnoc(s.inbox, Report(c.pre, z, rep.seqNo), x, NoticedSucc(CtlOf(t, x), t.nodes[x].rep.succ));
        }
        assert NoticedSucc(CtlOf(t, x), t.nodes[x].rep.succ) == NoticedSucc(CtlOf(s, x), s.nodes[x].rep.succ);
        assert NewPre(x) in CtlOf(s, y) ==> NewPre(x) in CtlOf(t, y);
      }
    }
  }

  /** What delivering a notice does to notices, reports and roles. */
  lemma {:induction false} NoticeFrame(s: State, z: Addr)
    requires Enabled(s, DeliverCtl(z))
    ensures var t, c, rep := Apply(s, DeliverCtl(z)), CtlOf(s, z)[0], s.nodes[z].rep;
            t.live == s.live && t.nodes.Keys == s.nodes.Keys && t.roster == s.roster && t.lost == s.lost &&
            (forall x: Addr :: CtlOf(t, x) == if x == z then CtlOf(s, x)[1..] else CtlOf(s, x)) &&
            (forall x: Addr :: x in s.nodes && x != z ==> t.nodes[x] == s.nodes[x]) &&
            t.nodes[z].rep.succ == (if c.NewSucc? then Some(c.succ) else rep.succ) &&
            t.nodes[z].rep.pre == (if c.NewPre? then Some(c.pre) else rep.pre) &&
            t.inbox == (if c.NewPre? then s.inbox + [Report(c.pre, z, rep.seqNo)] else s.inbox) &&
            (rep.isHead || c == ToBeHead ==> t.nodes[z].rep.isHead) &&
            (rep.isTail || c == ToBeTail ==> t.nodes[z].rep.isTail)
  {
    hide HandleNotice, ReqsTo, AcksTo;
    NoticeHandled(s, z, CtlOf(s, z)[0]);
    PopNotices(HandleNotice(s, z, CtlOf(s, z)[0]), s, z);
  }

  lemma {:induction false} PopNotices(u: State, s: State, z: Addr)
    requires u.ctl == s.ctl
    ensures var t := PopCtl(u, z);
            t == u.(ctl := t.ctl) &&
            forall x: Addr :: CtlOf(t, x) == if x == z && CtlOf(s, x) != [] then CtlOf(s, x)[1..] else CtlOf(s, x)
  {
  }

  lemma {:induction false} NoticeHandled(s: State, z: Addr, c: Notice)
    requires z in s.nodes
    ensures var t, rep := HandleNotice(s, z, c), s.nodes[z].rep;
            t.live == s.live && t.nodes.Keys == s.nodes.Keys && t.roster == s.roster && t.ctl == s.ctl &&
            t.lost == s.lost &&
            (forall x: Addr :: x in s.nodes && x != z ==> t.nodes[x] == s.nodes[x]) &&
            t.nodes[z].rep.succ == (if c.NewSucc? then Some(c.succ) else rep.succ) &&
            t.nodes[z].rep.pre == (if c.NewPre? then Some(c.pre) else rep.pre) &&
            t.inbox == (if c.NewPre? then s.inbox + [Report(c.pre, z, rep.seqNo)] else s.inbox) &&
            (rep.isHead || c == ToBeHead ==> t.nodes[z].rep.isHead) &&
            (rep.isTail || c == ToBeTail ==> t.nodes[z].rep.isTail)
  {
    hide TransfersOf, Promote, Above, Settle, Emit, HandleNewHead;
    var rep := s.nodes[z].rep;
    match c {
      case ToBeHead => SettleKept(s, z, Replicas.ToBeHead(rep));
      case ToBeTail => SettleKept(s, z, Replicas.ToBeTail(rep));
      case NewPre(p) => SettleKept(s, z, NewPreServer(rep, p));
      case NewSucc(y, n) => SettleKept(s, z, NewSuccServer(rep, y, n));
      case NewHead(bank, _) => NewHeadSettles(s, z, bank);
      case _ =>
    }
  }

  lemma {:induction false} NoticeLeads(s: State, z: Addr)
    requires Enabled(s, DeliverCtl(z)) && WillLead(s)
    ensures WillLead(Apply(s, DeliverCtl(z)))
  {
    hide Apply, CtlOf;
    NoticeFrame(s, z);
    var t, c := Apply(s, DeliverCtl(z)), CtlOf(s, z)[0];
    assert CtlOf(s, z) == [c] + CtlOf(t, z);
  }

  lemma {:induction false} NoticeBacks(s: State, z: Addr)
    requires Enabled(s, DeliverCtl(z)) && WillBack(s)
    ensures WillBack(Apply(s, DeliverCtl(z)))
  {
    hide Apply, CtlOf, Adjacent;
    NoticeFrame(s, z);
    var t := Apply(s, DeliverCtl(z));
    assert forall y: Addr :: Live(t, y) <==> Live(s, y);
    assert NoticedPre(CtlOf(t, z), t.nodes[z].rep.pre) == NoticedPre(CtlOf(s, z), s.nodes[z].rep.pre);
    hide NoticedPre;
  }

  /** Posting letters that tell `y` of no other predecessor than `x`. */
  lemma {:induction false} PostAllBacks(ctl: map<Addr, seq<Notice>>, ls: seq<Letter>, x: Addr, y: Addr, d: Option<Addr>)
    requires forall l :: l in ls && l.to == y && l.notice.NewPre? ==> l.notice.pre == x
    requires NoticedPre(if y in ctl then ctl[y] else [], d) == Some(x) || Letter(y, NewPre(x)) in ls
    ensures NoticedPre(if y in PostAll(ctl, ls) then PostAll(ctl, ls)[y] else [], d) == Some(x)
    decreases |ls|
  {
    hide NoticedPre;
    if ls != [] {
      var ctl' := Post(ctl, ls[0]);
      assert ls[0] in ls && forall l :: l in ls ==> l == ls[0] || l in ls[1..];
      NoticedPreSnoc(if y in ctl then ctl[y] else [], ls[0].notice, d);
      assert ls[0].to == y && ls[0].notice.NewPre? ==> ls[0] == Letter(y, NewPre(x));
      PostAllBacks(ctl', ls[1..], x, y, d);
    }
  }

  /** The one predecessor named to a server is the one it has in the repaired list. */
  lemma {:induction false} NamedPredecessor(ro: Roster, d: Addr, x: Addr, y: Addr)
    requires Repairable(ro, d) && ro.extending == None && Adjacent(NotifyCrash(ro, d).0.servers, x, y)
    ensures var ls := NotifyCrash(ro, d).1;
            (forall l :: l in ls && l.to == y && l.notice.NewPre? ==> l.notice.pre == x) &&
            (Adjacent(ro.servers, x, y) || Letter(y, NewPre(x)) in ls)
  {
    hide NotifyCrash, RosterOk, Remove, Adjacent;
    CrashLetters(ro, d);
    CrashRepair(ro, d);
    NewNeighbours(ro.servers, d, x, y);
    var (ro', ls) := NotifyCrash(ro, d);
    DistinctList(ro');
    forall l | l in ls && l.to == y && l.notice.NewPre? ensures l.notice.pre == x {
      OnePredecessor(ro'.servers, x, l.notice.pre, y);
    }
  }

  lemma {:induction false} OnePredecessor(servers: seq<Addr>, x: Addr, p: Addr, y: Addr)
    requires Distinct(servers) && Adjacent(servers, x, y) && Adjacent(servers, p, y)
    ensures p == x
  {
    var i :| 0 <= i < |servers| - 1 && servers[i] == x && servers[i + 1] == y;
    var j :| 0 <= j < |servers| - 1 && servers[j] == p && servers[j + 1] == y;
    assert i + 1 == j + 1;
  }

  lemma {:induction false} DetectBacks(s: State, d: Addr)
    requires Inv(s) && Enabled(s, Detect(d)) && WillBack(s)
    ensures WillBack(Apply(s, Detect(d)))
  {
    hide Inv, NotifyCrash, PostAll, Adjacent, RosterOk, NoticedPre;
    InvStructure(s);
    var t, ls := Apply(s, Detect(d)), NotifyCrash(s.roster, d).1;
    forall x: Addr, y: Addr | Live(t, y) && Adjacent(t.roster.servers, x, y)
      ensures NoticedPre(CtlOf(t, y), t.nodes[y].rep.pre) == Some(x)
    {
      assert Live(s, y);
      NamedPredecessor(s.roster, d, x, y);
      PostAllBacks(s.ctl, ls, x, y, s.nodes[y].rep.pre);
    }
  }

  lemma {:induction false} PostKeepsOrder(ctl: map<Addr, seq<Notice>>, l: Letter, x: Addr, d: Option<Addr>)
    requires !l.notice.NewSucc?
    ensures var q, p := if x in ctl then ctl[x] else [], if x in Post(ctl, l) then Post(ctl, l)[x] else [];
            NoticedSucc(p, d) == NoticedSucc(q, d) && (forall c :: c in q ==> c in p) &&
            (x == l.to ==> l.notice in p)
  {
    NoticedSnoc(if x in ctl then ctl[x] else [], l.notice, d);
  }

  lemma {:induction false} PostAllKeepsOrder(ctl: map<Addr, seq<Notice>>, ls: seq<Letter>, x: Addr, d: Option<Addr>)
    requires forall l :: l in ls ==> !l.notice.NewSucc?
    ensures var q, p := if x in ctl then ctl[x] else [], if x in PostAll(ctl, ls) then PostAll(ctl, ls)[x] else [];
            NoticedSucc(p, d) == NoticedSucc(q, d) && (forall c :: c in q ==> c in p) &&
            (forall l :: l in ls && x == l.to ==> l.notice in p)
    decreases |ls|
  {
    if ls != [] {
      assert ls[0] in ls;
      PostKeepsOrder(ctl, ls[0], x, d);
      hide Post;
      PostAllKeepsOrder(Post(ctl, ls[0]), ls[1..], x, d);
      assert forall l :: l in ls ==> l == ls[0] || l in ls[1..];
    }
  }

  /** After a removal, neighbours were neighbours before, or stood on both sides of the dead server. */
  lemma {:induction false} NewNeighbours(servers: seq<Addr>, d: Addr, x: Addr, y: Addr)
    requires Distinct(servers) && d in servers && Adjacent(Remove(servers, d), x, y)
    ensures Adjacent(servers, x, y) || (Adjacent(servers, x, d) && Adjacent(servers, d, y))
  {
    RemoveFacts(servers, d);
    var i, rest := IndexOf(servers, d), Remove(servers, d);
    var j :| 0 <= j < |rest| - 1 && rest[j] == x && rest[j + 1] == y;
    if j + 1 < i {
      assert servers[j] == x && servers[j + 1] == y;
    } else if j >= i {
      assert servers[j + 1] == x && servers[j + 1 + 1] == y;
    } else {
      assert servers[j] == x && servers[j + 1] == d && servers[j + 1 + 1] == y;
    }
  }

  /** An internal crash sends the notice that joins the neighbours; any other removes an end. */
  lemma {:induction false} CrashLetters(ro: Roster, d: Addr)
    requires Repairable(ro, d) && ro.extending == None
    ensures var (ro', ls) := NotifyCrash(ro, d);
            ro'.servers == Remove(ro.servers, d) && Distinct(ro.servers) &&
            (forall l :: l in ls ==> !l.notice.NewSucc?) &&
            (forall x: Addr, y: Addr :: Adjacent(ro.servers, x, d) && Adjacent(ro.servers, d, y) ==>
               Letter(y, NewPre(x)) in ls) &&
            (d == ro.head ==> Letter(ro'.head, ToBeHead) in ls) && (d != ro.head ==> ro'.head == ro.head) &&
            (d == ro.tail ==> Letter(ro'.tail, ToBeTail) in ls) && (d != ro.tail ==> ro'.tail == ro.tail)
  {
    hide Remove, Broadcast;
    CrashRepair(ro, d);
    Neighbours(ro, d);
    forall x: Addr, y: Addr | Adjacent(ro.servers, x, d) && Adjacent(ro.servers, d, y)
      ensures Letter(y, NewPre(x)) in NotifyCrash(ro, d).1
    {
      var i :| 0 <= i < |ro.servers| - 1 && ro.servers[i] == x && ro.servers[i + 1] == d;
      IndexIs(ro.servers, i + 1);
    }
  }

  lemma {:induction false} DetectLinks(s: State, d: Addr)
    requires Inv(s) && Enabled(s, Detect(d)) && WillLink(s) && WillLead(s)
    ensures WillLink(Apply(s, Detect(d))) && WillLead(Apply(s, Detect(d)))
  {
    hide Inv, NotifyCrash, PostAll, Adjacent, Remove, RosterOk, ReportedSucc, NoticedSucc;
    InvStructure(s);
    var t := Apply(s, Detect(d));
    CrashLetters(s.roster, d);
    var ls := NotifyCrash(s.roster, d).1;
    forall x: Addr | x in s.nodes
      ensures FinalSucc(t, x) == FinalSucc(s, x)
      ensures forall c :: c in CtlOf(s, x) ==> c in CtlOf(t, x)
      ensures forall l :: l in ls && l.to == x ==> l.notice in CtlOf(t, x)
    {
      PostAllKeepsOrder(s.ctl, ls, x, s.nodes[x].rep.succ);
    }
    assert forall y: Addr :: Live(t, y) <==> Live(s, y);
    forall x: Addr, y: Addr | Live(t, x) && Live(t, y) && Adjacent(t.roster.servers, x, y)
      ensures NewPre(x) in CtlOf(t, y) || FinalSucc(t, x) == Some(y)
    {
      NewNeighbours(s.roster.servers, d, x, y);
    }
  }

  ghost predicate Mending(s: State) { WillLink(s) && WillLead(s) && WillBack(s) }

  lemma {:induction false} StepMends(s: State, l: Label)
    requires Inv(s) && Enabled(s, l) && Mending(s)
    ensures Mending(Apply(s, l))
  {
    hide Inv, WillLink, WillLead, WillBack, Apply;
    match l
    case DeliverCtl(x) => NoticeLinks(s, x); NoticeLeads(s, x); NoticeBacks(s, x);
    case MasterRelay => RelayLinks(s); RelayBacks(s);
    case Detect(x) => DetectLinks(s, x); DetectBacks(s, x);
    case _ => QuietStep(s, l);
  }

  lemma {:induction false} RunMends(s: State, ls: seq<Label>)
    requires Inv(s) && IsRun(s, ls) && Mending(s)
    ensures Mending(After(s, ls))
    decreases |ls|
  {
    hide Inv, Apply, Enabled, Mending;
    if ls != [] {
      StepKeeps(s, ls[0]);
      StepMends(s, ls[0]);
      RunMends(Apply(s, ls[0]), ls[1..]);
    }
  }

  lemma {:induction false} InitialMends(bank: BankId, n: nat, pinned: bool)
    requires n > 0
    ensures Mending(Initial(bank, n, pinned))
  {
    hide Initial, Structure, ReqsTo, AcksTo, CtlOf;
    InitialShape(bank, n, pinned);
    InitialPlain(bank, n, pinned);
    var s := Initial(bank, n, pinned);
    InitialServers(bank, n, pinned);
    assert forall d :: NoticedSucc([], d) == d && NoticedPre([], d) == d;
    assert forall x, d :: ReportedSucc([], x, d) == d;
  }

  lemma {:induction false} InitialServers(bank: BankId, n: nat, pinned: bool)
    requires n > 0
    ensures forall x: Addr, y: Addr :: Adjacent(Initial(bank, n, pinned).roster.servers, x, y) ==> y == x + 1 && y < n
  {
  }

  // ----------------------------------------------------------------- at rest

  /** Every crash is known to the master and nothing is in flight between live servers. */
  ghost predicate AtRest(s: State) {
    && (forall x :: x in s.roster.servers ==> x in s.live)
    && s.inbox == []
    && (forall y: Addr :: Live(s, y) ==> CtlOf(s, y) == [])
    && (forall x: Addr, y: Addr :: Live(s, x) && Live(s, y) ==> ReqsTo(s, x, y) == [])
  }

  lemma {:induction false} RestLink(s: State, i: nat)
    requires Inv(s) && Mending(s) && AtRest(s) && i + 1 < |s.roster.servers|
    ensures var x, y := s.roster.servers[i], s.roster.servers[i + 1];
            Live(s, x) && Live(s, y) && s.nodes[x].rep.succ == Some(y) && s.nodes[y].rep.pre == Some(x) &&
            L(s, x) == L(s, y)
  {
    hide Inv, ReqsTo, CtlOf;
    InvStructure(s);
    var x, y := s.roster.servers[i], s.roster.servers[i + 1];
    assert Adjacent(s.roster.servers, x, y);
    assert Live(s, x) && Live(s, y);
    assert NewPre(x) !in CtlOf(s, y);
    LinkedDrained(s, x, y);
  }

  lemma {:induction false} RestLogs(s: State, i: nat)
    requires Inv(s) && Mending(s) && AtRest(s) && i < |s.roster.servers|
    ensures s.roster.servers[0] in s.nodes && s.roster.servers[i] in s.nodes
    ensures L(s, s.roster.servers[i]) == L(s, s.roster.servers[0])
  {
    hide Inv, Mending, WillLink;
    InvStructure(s);
    assert s.roster.servers[0] in s.roster.servers && s.roster.servers[i] in s.roster.servers;
    if i > 0 {
      RestLogs(s, i - 1);
      RestLink(s, i - 1);
    }
  }

  /** However many crashes there were, and however their repairs interleaved with each
      other and with updates: at rest the listed servers are the live ones, linked in
      order from a head to a tail, and all hold the same log. */
  lemma {:induction false} RepairCompletes(bank: BankId, n: nat, pinned: bool, ls: seq<Label>)
    requires n > 0 && IsRun(Initial(bank, n, pinned), ls) && AtRest(After(Initial(bank, n, pinned), ls))
    ensures var s := After(Initial(bank, n, pinned), ls); var q := s.roster.servers;
            Sane(s) && |q| > 0 &&
            (forall x :: x in s.live <==> x in q) &&
            s.nodes[q[0]].rep.isHead && s.nodes[q[|q| - 1]].rep.isTail &&
            (forall i :: 0 <= i < |q| - 1 ==>
               s.nodes[q[i]].rep.succ == Some(q[i + 1]) && s.nodes[q[i + 1]].rep.pre == Some(q[i])) &&
            (forall x :: x in s.live ==> L(s, x) == Accepted(s) && Refines(s.nodes[x].rep, Accepted(s)))
  {
    hide Initial, Inv, Mending, Refines, AtRest;
    var s := After(Initial(bank, n, pinned), ls);
    InitialKeeps(bank, n, pinned);
    RunKeeps(Initial(bank, n, pinned), ls);
    InitialMends(bank, n, pinned);
    RunMends(Initial(bank, n, pinned), ls);
    InvStructure(s);
    InvSane(s);
    RestEnds(s);
    var q := s.roster.servers;
    forall i | 0 <= i < |q| - 1
      ensures s.nodes[q[i]].rep.succ == Some(q[i + 1]) && s.nodes[q[i + 1]].rep.pre == Some(q[i])
    {
      RestLink(s, i);
    }
    RestAll(s);
  }

  lemma {:induction false} RestEnds(s: State)
    requires Inv(s) && Mending(s) && AtRest(s)
    ensures var q := s.roster.servers;
            Sane(s) && |q| > 0 && (forall x :: x in s.live <==> x in q) &&
            s.nodes[q[0]].rep.isHead && s.nodes[q[|q| - 1]].rep.isTail
  {
    hide Inv, WillLink, WillBack, CtlOf, ReqsTo;
    InvStructure(s);
    var q := s.roster.servers;
    assert Live(s, q[0]) && Live(s, q[|q| - 1]);
    forall x | x in s.live ensures x in q { assert Live(s, x); }
  }

  lemma {:induction false} RestAll(s: State)
    requires Inv(s) && Mending(s) && AtRest(s)
    ensures Sane(s) && forall x :: x in s.live ==> L(s, x) == Accepted(s) && Refines(s.nodes[x].rep, Accepted(s))
  {
    hide Inv, Mending, AtRest, Refines;
    InvSane(s);
    forall x | x in s.live ensures L(s, x) == Accepted(s) && Refines(s.nodes[x].rep, Accepted(s)) {
      RestOne(s, x);
      RestOne(s, FirstLive(s));
      InvBooks(s, x);
    }
  }

  lemma {:induction false} RestOne(s: State, x: Addr)
    requires Inv(s) && Mending(s) && AtRest(s) && x in s.live
    ensures |s.roster.servers| > 0 && s.roster.servers[0] in s.nodes && x in s.nodes
    ensures L(s, x) == L(s, s.roster.servers[0])
  {
    hide Inv, Mending, AtRest;
    InvStructure(s);
    assert Live(s, x);
    var i :| 0 <= i < |s.roster.servers| && s.roster.servers[i] == x;
    RestLogs(s, i);
  }
}
