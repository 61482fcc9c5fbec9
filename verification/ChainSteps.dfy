/** Every step of the chain keeps the invariant. */
module ChainSteps {
  import opened Bank
  import opened Replicas
  import opened Masters
  import opened Chains

  // --------------------------------------------------------------- channels

  lemma {:induction false} ReachUp(q: seq<Entry>, n: nat, m: nat)
    requires n <= m
    ensures n <= Reach(q, n) <= Reach(q, m)
    ensures NoGap(q, n) ==> NoGap(q, m)
  {
    if q != [] { ReachUp(q[1..], Max(n, q[0].seqNo), Max(m, q[0].seqNo)); }
  }

  lemma {:induction false} ReachAppend(q: seq<Entry>, p: seq<Entry>, n: nat)
    ensures Reach(q + p, n) == Reach(p, Reach(q, n))
    ensures NoGap(q, n) && NoGap(p, Reach(q, n)) ==> NoGap(q + p, n)
  {
    if q == [] {
      assert q + p == p;
    } else {
      assert (q + p)[1..] == q[1..] + p;
      ReachAppend(q[1..], p, Max(n, q[0].seqNo));
    }
  }

  lemma {:induction false} ReachOne(e: Entry, n: nat)
    ensures Reach([e], n) == Max(n, e.seqNo) && (NoGap([e], n) <==> e.seqNo <= n + 1)
  {
    assert [e][1..] == [];
    assert Reach([e][1..], Max(n, e.seqNo)) == Max(n, e.seqNo);
  }

  /** The run of records that ends a log carries a server from anywhere it
      overlaps to the end of the log. */
  lemma {:induction false} RunReaches(log: seq<Request>, es: seq<Entry>, n: nat)
    requires EndsWith(log, es) && |log| - |es| <= n
    ensures NoGap(es, n) && Reach(es, n) >= |log|
    decreases |es|
  {
    hide Run, Serve, EntryAt, EndsWith;
    if es != [] {
      EndsWithTail(log, es);
      RunReaches(log, es[1..], Max(n, es[0].seqNo));
    } else {
      EndsWithFits(log, es);
    }
  }

  lemma {:induction false} PrefixTrans(a: seq<Request>, b: seq<Request>, c: seq<Request>)
    requires a <= b <= c
    ensures a <= c
  {
  }

  /** Listed servers lie between head and tail. */
  lemma {:induction false} Bounds(s: State)
    requires Structure(s)
    ensures forall x: Addr :: Live(s, x) ==> s.roster.head <= x <= s.roster.tail
  {
    forall x: Addr | Live(s, x) ensures s.roster.head <= x <= s.roster.tail {
      var i :| 0 <= i < |s.roster.servers| && s.roster.servers[i] == x;
    }
  }

  // ------------------------------------------------- one server moves and sends

  ghost predicate RoleOk(s: State, x: Addr, rep: Replica) {
    && (rep.isHead ==> x == s.roster.head)
    && (rep.isTail ==> x == s.roster.tail)
    && !rep.extending
    && (rep.pre.Some? ==> rep.pre.value < x)
    && (s.pinned && x == s.roster.tail ==> rep.isTail)
  }

  /** Every other live server has applied update number `k`, and `log` has it too. */
  ghost predicate Others(s: State, x: Addr, log: seq<Request>, k: nat) {
    k <= |log| && forall z :: Live(s, z) && z != x ==> k <= |L(s, z)|
  }

  ghost predicate ForwardsOk(s: State, x: Addr, n: Node, out: Out) {
    && (forall e :: e in out.forwards ==> Matches(n.log, e) && e.req in s.issued)
    && (forall y: Addr :: Live(s, y) && n.rep.succ == Some(y) ==>
          var reach := Reach(ReqsTo(s, x, y), |L(s, y)|);
          Next(s, x, y) && NoGap(out.forwards, reach) && Reach(out.forwards, reach) >= |n.log|)
  }

  ghost predicate RepliesOk(s: State, x: Addr, n: Node, out: Out) {
    && (out.replies != [] || out.transfers != [] ==> forall z: Addr :: Live(s, z) ==> z <= x)
    && (forall e :: e in out.replies ==> IsEntry(n.log, e))
    && (forall e :: e in out.transfers ==> IsEntry(n.log, e) && PendingTransfer(e))
  }

  /** What makes a move of server `x` to `n` with output `out` safe. */
  ghost predicate EmitOk(s: State, x: Addr, n: Node, out: Out) {
    && Live(s, x)
    && L(s, x) <= n.log && (forall w: Addr :: Live(s, w) && w < x ==> n.log <= L(s, w))
    && (forall r :: r in n.log ==> r in s.issued)
    && Refines(n.rep, n.log) && RoleOk(s, x, n.rep)
    && (s.nodes[x].rep.isHead ==> n.rep.isHead)
    && ForwardsOk(s, x, n, out)
    && (forall k :: k in out.acks ==> Others(s, x, n.log, k)) && Others(s, x, n.log, Acked(n.rep))
    && RepliesOk(s, x, n, out)
  }

  /** The frame of such a move. */
  ghost predicate Emitted(s: State, x: Addr, n: Node, out: Out, t: State) {
    && t.nodes == s.nodes[x := n]
    && t.live == s.live && t.roster == s.roster && t.ctl == s.ctl && t.inbox == s.inbox
    && t.issued == s.issued && t.pinned == s.pinned && t.aborted == s.aborted && t.lost == s.lost
    && (forall a: Addr, y: Addr :: ReqsTo(t, a, y) ==
          if a == x && n.rep.succ == Some(y) then ReqsTo(s, a, y) + out.forwards else ReqsTo(s, a, y))
    && (forall a: Addr, y: Addr :: AcksTo(t, a, y) ==
          if a == x && n.rep.pre == Some(y) then AcksTo(s, a, y) + out.acks else AcksTo(s, a, y))
    && (forall c :: c in t.answers ==> c in s.answers || (c.ToUpdate? && c.e in out.replies))
    && (forall e :: e in t.forwarded ==> e in s.forwarded || e in out.transfers)
  }

  lemma {:induction false} EmitFrame(s: State, x: Addr, n: Node, out: Out)
    ensures Emitted(s, x, n, out, Emit(s, x, n, out))
  {
  }

  lemma {:induction false} EmitLogs(s: State, x: Addr, n: Node, out: Out, t: State)
    requires Structure(s) && Roles(s) && Prefixes(s)
    requires EmitOk(s, x, n, out) && Emitted(s, x, n, out, t)
    ensures Structure(t) && Roles(t) && Prefixes(t)
  {
    hide Refines, ForwardsOk, RepliesOk, Others, ReqsTo, AcksTo;
    forall y: Addr, z: Addr | Live(t, y) && Live(t, z) && y < z ensures L(t, z) <= L(t, y) {
      assert Live(s, y) && Live(s, z);
      if y == x { PrefixTrans(L(s, z), L(s, x), n.log); }
    }
  }

  lemma {:induction false} EmitContents(s: State, x: Addr, n: Node, out: Out, t: State)
    requires Structure(s) && Prefixes(s) && Contents(s)
    requires EmitOk(s, x, n, out) && Emitted(s, x, n, out, t)
    ensures Contents(t)
  {
    hide Refines, RepliesOk, Others, ReqsTo, AcksTo;
    forall a: Addr, w: Addr, y: Addr, e: Entry | Live(t, w) && Live(t, y) && w < y && e in ReqsTo(t, a, y)
      ensures Matches(L(t, w), e)
    {
      EmitContent(s, x, n, out, t, a, w, y, e);
    }
  }

  lemma {:induction false} EmitContent(
      s: State, x: Addr, n: Node, out: Out, t: State, a: Addr, w: Addr, y: Addr, e: Entry)
    requires Contents(s) && EmitOk(s, x, n, out) && Emitted(s, x, n, out, t)
    requires Live(t, w) && Live(t, y) && w < y && e in ReqsTo(t, a, y)
    ensures Matches(L(t, w), e)
  {
    hide Refines, RepliesOk, Others, ReqsTo, AcksTo, RoleOk;
    assert Live(s, w) && Live(s, y) && L(s, w) <= L(t, w);
    if e in ReqsTo(s, a, y) {
      assert Matches(L(s, w), e);
    } else {
      assert a == x && n.rep.succ == Some(y) && e in out.forwards;
      assert Matches(n.log, e) && Next(s, x, y);
      assert n.log <= L(t, w);
    }
  }

  lemma {:induction false} EmitGaps(s: State, x: Addr, n: Node, out: Out, t: State)
    requires Gaps(s)
    requires EmitOk(s, x, n, out) && Emitted(s, x, n, out, t)
    ensures Gaps(t)
  {
    hide Refines, RepliesOk, Others, ReqsTo, AcksTo, NoGap, Reach;
    forall a: Addr, y: Addr | Live(t, y) && !t.nodes[y].rep.isHead ensures NoGap(ReqsTo(t, a, y), |L(t, y)|) {
      assert NoGap(ReqsTo(s, a, y), |L(s, y)|);
      if a == x && n.rep.succ == Some(y) {
        assert Next(s, x, y);
        ReachAppend(ReqsTo(s, a, y), out.forwards, |L(s, y)|);
      } else {
        ReachUp(ReqsTo(s, a, y), |L(s, y)|, |L(t, y)|);
      }
    }
  }

  lemma {:induction false} EmitAcks(s: State, x: Addr, n: Node, out: Out, t: State)
    requires Structure(s) && AckBound(s)
    requires EmitOk(s, x, n, out) && Emitted(s, x, n, out, t)
    ensures AckBound(t)
  {
    hide Refines, RepliesOk, ForwardsOk, ReqsTo, AcksTo;
    Bounds(s);
    hide Structure, Acked, Reach, NoGap;
    forall k: nat | Everywhere(s, k) || Others(s, x, n.log, k) ensures Everywhere(t, k) {
      assert forall z: Addr :: Live(t, z) ==> Live(s, z);
    }
    forall a: Addr, y: Addr, k: nat | k in AcksTo(t, a, y) ensures Everywhere(t, k) {
      if k !in AcksTo(s, a, y) { assert k in out.acks; }
    }
    forall y: Addr | Live(t, y) ensures Everywhere(t, Acked(t.nodes[y].rep)) {
      if y != x { assert Everywhere(s, Acked(s.nodes[y].rep)); }
    }
  }

  lemma {:induction false} EmitLinks(s: State, x: Addr, n: Node, out: Out, t: State)
    requires Links(s)
    requires EmitOk(s, x, n, out) && Emitted(s, x, n, out, t)
    ensures Links(t)
  {
    hide Refines, RepliesOk, Others, ReqsTo, AcksTo, NoGap, Reach, CtlOf;
    assert forall z: Addr :: Live(t, z) <==> Live(s, z);
    forall w: Addr, y: Addr | Live(t, w) && Live(t, y) && t.nodes[w].rep.succ == Some(y)
      ensures Next(t, w, y) && Reach(ReqsTo(t, w, y), |L(t, y)|) >= |L(t, w)|
    {
      if w == x {
        ReachAppend(ReqsTo(s, w, y), out.forwards, |L(s, y)|);
      } else {
        ReachUp(ReqsTo(s, w, y), |L(s, y)|, |L(t, y)|);
      }
    }
  }

  lemma {:induction false} EmitRepairs(s: State, x: Addr, n: Node, out: Out, t: State)
    requires Repairs(s)
    requires EmitOk(s, x, n, out) && Emitted(s, x, n, out, t)
    ensures Repairs(t)
  {
    hide Refines, RepliesOk, ForwardsOk, Others, ReqsTo, AcksTo;
    assert forall z: Addr :: Live(t, z) <==> Live(s, z);
    assert forall x: Addr, y: Addr :: Next(s, x, y) ==> Next(t, x, y);
    assert forall y: Addr :: Live(s, y) ==> |L(s, y)| <= |L(t, y)|;
    assert forall y: Addr :: CtlOf(t, y) == CtlOf(s, y);
  }

  lemma {:induction false} AnswerStays(p: seq<Request>, q: seq<Request>, a: Answer)
    requires p <= q && AnswerOk(p, a)
    ensures AnswerOk(q, a)
  {
    hide Run, Serve, EntryAt, IsEntry;
    match a
    case ToUpdate(e) => EntryStays(p, q, e);
    case ToQuery(k, _, _) => assert p[..k] == q[..k];
  }

  lemma {:induction false} EmitReplies(s: State, x: Addr, n: Node, out: Out, t: State)
    requires Structure(s) && Roles(s) && Prefixes(s) && Replies(s)
    requires EmitOk(s, x, n, out) && Emitted(s, x, n, out, t)
    ensures Replies(t)
  {
    hide Refines, ForwardsOk, Others, ReqsTo, AcksTo, IsEntry;
    EmitLogs(s, x, n, out, t);
    forall y: Addr, c: Answer | Live(t, y) && c in t.answers ensures AnswerOk(L(t, y), c) {
      if c in s.answers {
        AnswerStays(L(s, y), L(t, y), c);
      } else {
        assert c.e in out.replies && IsEntry(n.log, c.e);
        assert Live(s, y) && y <= x;
        EntryStays(n.log, L(t, y), c.e);
      }
    }
    forall y: Addr, e: Entry | Live(t, y) && e in t.forwarded ensures IsEntry(L(t, y), e) && PendingTransfer(e) {
      if e in s.forwarded {
        EntryStays(L(s, y), L(t, y), e);
      } else {
        assert Live(s, y) && y <= x;
        EntryStays(n.log, L(t, y), e);
      }
    }
  }

  lemma {:induction false} EmitKeeps(s: State, x: Addr, n: Node, out: Out)
    requires Inv(s) && EmitOk(s, x, n, out)
    ensures Inv(Emit(s, x, n, out))
  {
    var t := Emit(s, x, n, out);
    EmitFrame(s, x, n, out);
    hide Emit;
    EmitLogs(s, x, n, out, t);
    EmitContents(s, x, n, out, t);
    EmitGaps(s, x, n, out, t);
    EmitAcks(s, x, n, out, t);
    EmitLinks(s, x, n, out, t);
    EmitRepairs(s, x, n, out, t);
    EmitReplies(s, x, n, out, t);
    EmitBooks(s, x, n, out, t);
  }

  lemma {:induction false} EmitBooks(s: State, x: Addr, n: Node, out: Out, t: State)
    requires Books(s) && Origins(s)
    requires EmitOk(s, x, n, out) && Emitted(s, x, n, out, t)
    ensures Books(t) && Origins(t)
  {
    hide Refines, RepliesOk, Others, ReqsTo, AcksTo, NoGap, Reach;
  }

  // --------------------------------------------------------------- handlers

  lemma {:induction false} NothingAfterTail(s: State, x: Addr)
    requires Structure(s) && Live(s, x) && x == s.roster.tail
    ensures forall z: Addr :: Live(s, z) ==> z <= x
    ensures forall y: Addr :: Live(s, y) ==> !Next(s, x, y)
  {
    Bounds(s);
  }

  /** Staying put and sending nothing forward keeps the links. */
  lemma {:induction false} NoForwards(s: State, x: Addr, n: Node, out: Out)
    requires Links(s) && Live(s, x) && n.log == L(s, x)
    requires n.rep.succ == s.nodes[x].rep.succ && out.forwards == []
    ensures ForwardsOk(s, x, n, out)
  {
  }

  lemma {:induction false} NamesFromIssued(s: State, x: Addr, r: Request)
    requires Origins(s) && Live(s, x) && r in s.issued
    ensures NamesAccount(L(s, x), r)
  {
  }

  /** Server `x` may take `r` with stamp `stamp`: it is the head, or everything
      before it already has that entry and there is no gap. */
  ghost predicate MayTake(s: State, x: Addr, r: Request, stamp: nat) {
    Live(s, x) && r in s.issued &&
    (s.nodes[x].rep.isHead ||
     (stamp <= |L(s, x)| + 1 &&
      (stamp == |L(s, x)| + 1 ==>
         forall w: Addr :: Live(s, w) && w < x ==> |L(s, x)| < |L(s, w)| && L(s, w)[|L(s, x)|] == r)))
  }

  lemma {:induction false} TakeForwards(s: State, x: Addr, n: Node, out: Out, r: Request)
    requires Structure(s) && Links(s) && Live(s, x) && r in s.issued
    requires n.log == L(s, x) + [r] && n.rep.succ == s.nodes[x].rep.succ
    requires (n.rep.isTail ==> x == s.roster.tail) && SendsFor(n.rep, n.log, out)
    ensures ForwardsOk(s, x, n, out)
  {
    hide Run, Serve, EntryAt, IsEntry;
    EntryFields(n.log, |n.log| - 1);
    if n.rep.isTail {
      NothingAfterTail(s, x);
    } else {
      forall y: Addr | Live(s, y) && n.rep.succ == Some(y)
        ensures var reach := Reach(ReqsTo(s, x, y), |L(s, y)|);
                Next(s, x, y) && NoGap(out.forwards, reach) && Reach(out.forwards, reach) >= |n.log|
      {
        ReachOne(out.forwards[0], Reach(ReqsTo(s, x, y), |L(s, y)|));
      }
    }
  }

  lemma {:induction false} TakeOthers(s: State, x: Addr, log: seq<Request>, rep: Replica)
    requires Structure(s) && Live(s, x) && (forall w: Addr :: Live(s, w) && w < x ==> log <= L(s, w))
    requires x == s.roster.tail
    ensures Others(s, x, log, |log|)
  {
    NothingAfterTail(s, x);
  }

  lemma {:induction false} TailAcked(rep: Replica)
    requires rep.isTail
    ensures Acked(rep) == rep.seqNo
  {
  }

  lemma {:induction false} TakeOk(s: State, x: Addr, n: Node, out: Out, r: Request, stamp: nat)
    requires Inv(s) && MayTake(s, x, r, stamp)
    requires s.nodes[x].rep.isHead || stamp == |L(s, x)| + 1
    requires n.log == L(s, x) + [r]
    requires Refines(n.rep, n.log) && SendsFor(n.rep, n.log, out) && SameRole(s.nodes[x].rep, n.rep)
    requires !n.rep.isTail ==> Acked(n.rep) == Acked(s.nodes[x].rep)
    ensures EmitOk(s, x, n, out)
  {
    hide Run, Serve, EntryAt, IsEntry, Contents, Gaps, Repairs, Replies, Refines, ForwardsOk, Links, Acked;
    RefinesLength(n.rep, n.log);
    TakeForwards(s, x, n, out, r);
    Bounds(s);
    forall w: Addr | Live(s, w) && w < x ensures n.log <= L(s, w) {
      assert L(s, x) <= L(s, w);
    }
    if n.rep.isTail {
      NothingAfterTail(s, x);
      TakeOthers(s, x, n.log, n.rep);
      TailAcked(n.rep);
    } else {
      assert Everywhere(s, Acked(s.nodes[x].rep));
    }
  }

  lemma {:induction false} SameOk(s: State, x: Addr)
    requires Inv(s) && Live(s, x)
    ensures EmitOk(s, x, s.nodes[x], SILENT)
  {
    hide Refines, ForwardsOk, Links, Contents, Gaps, Repairs, Replies, IsEntry, Acked, ReqsTo, AcksTo, CtlOf;
    NoForwards(s, x, s.nodes[x], SILENT);
    assert Everywhere(s, Acked(s.nodes[x].rep));
  }

  lemma {:induction false} ReceiveKeeps(s: State, x: Addr, r: Request, stamp: nat)
    requires Inv(s) && MayTake(s, x, r, stamp)
    ensures Inv(Receive(s, x, r, stamp))
    ensures !Receive(s, x, r, stamp).aborted
  {
    hide Structure, Roles, Prefixes, Contents, Gaps, AckBound, Links, Repairs, Replies, Refines, SendsFor, EmitOk,
      ReceiveUpdate, Emit;
    var n := s.nodes[x];
    NamesFromIssued(s, x, r);
    RefinesLength(n.rep, n.log);
    ReceiveUpdateRefines(n.rep, n.log, r, stamp);
    var t := ReceiveUpdate(n.rep, r, stamp);
    if n.rep.isHead || stamp == |n.log| + 1 {
      RefinesLength(t.rep, n.log + [r]);
      TakeOk(s, x, Node(t.rep, n.log + [r]), t.out, r, stamp);
      EmitKeeps(s, x, Node(t.rep, n.log + [r]), t.out);
    } else {
      SameOk(s, x);
      EmitKeeps(s, x, n, SILENT);
    }
    NotAborted(Receive(s, x, r, stamp));
  }

  lemma {:induction false} NotAborted(s: State)
    requires Structure(s)
    ensures !s.aborted
  {
  }

  lemma {:induction false} RefinesLength(rep: Replica, log: seq<Request>)
    requires Refines(rep, log)
    ensures rep.seqNo == |log| && Acked(rep) <= |log|
  {
  }

  lemma {:induction false} AcknowledgeNothing(rep: Replica, k: nat)
    requires rep.sent == []
    ensures Acknowledge(rep, k) == rep
  {
  }

  lemma {:induction false} AckOk(s: State, x: Addr, k: nat)
    requires Inv(s) && Live(s, x) && Everywhere(s, k)
    requires s.nodes[x].rep.isTail ==> s.nodes[x].rep.sent == []
    ensures var t := ReceiveAck(s.nodes[x].rep, k); EmitOk(s, x, Node(t.rep, L(s, x)), t.out)
  {
    hide Run, Serve, EntryAt, IsEntry, Contents, Gaps, Repairs, Replies, ReqsTo, AcksTo, CtlOf, Reach, NoGap,
      Refines, Acknowledge, Acked;
    var rep, t := s.nodes[x].rep, ReceiveAck(s.nodes[x].rep, k);
    if rep.isTail { AcknowledgeNothing(rep, k); } else { AcknowledgeRefines(rep, L(s, x), k); }
    NoForwards(s, x, Node(t.rep, L(s, x)), t.out);
    hide ForwardsOk, Links;
    assert Everywhere(s, Acked(rep));
  }

  lemma {:induction false} TailPends(rep: Replica, log: seq<Request>, i: nat)
    requires Refines(rep, log) && rep.isTail && !rep.extending && i < |rep.sent|
    ensures rep.sent[i].req in log && IsTransfer(rep.sent[i])
  {
    hide Run, Serve, EntryAt, IsEntry;
    SentInLog(rep, log, i);
    assert rep.sent[i] in rep.sent;
  }

  /** A tail that has no transfers has nothing pending, so acks do nothing to it. */
  lemma {:induction false} TailIdle(s: State, x: Addr)
    requires Inv(s) && Live(s, x) && s.nodes[x].rep.isTail && !s.pinned
    ensures s.nodes[x].rep.sent == []
  {
    hide Run, Serve, EntryAt, Contents, Gaps, Repairs, Replies, Links, Refines;
    if s.nodes[x].rep.sent != [] { TailPends(s.nodes[x].rep, L(s, x), 0); }
  }

  lemma {:induction false} HeadOk(s: State, x: Addr)
    requires Inv(s) && Live(s, x) && x == s.roster.head
    ensures var t := Replicas.ToBeHead(s.nodes[x].rep); EmitOk(s, x, Node(t.rep, L(s, x)), t.out)
  {
    hide Inv, Run, Serve, EntryAt, IsEntry, Next, Reach, NoGap, ReqsTo;
    var rep := s.nodes[x].rep;
    SameOk(s, x);
    assert Refines(rep.(isHead := true), L(s, x));
  }

  lemma {:induction false} TailOk(s: State, x: Addr)
    requires Inv(s) && Live(s, x) && x == s.roster.tail && !s.pinned
    ensures var t := Replicas.ToBeTail(s.nodes[x].rep); EmitOk(s, x, Node(t.rep, L(s, x)), t.out)
  {
    hide Run, Serve, EntryAt, IsEntry, Contents, Gaps, Repairs, Replies, ReqsTo, AcksTo, CtlOf, Reach, NoGap;
    var rep, t, log := s.nodes[x].rep, Replicas.ToBeTail(s.nodes[x].rep), L(s, x);
    ToBeTailRefines(rep, log);
    hide Promote, TransfersOf;
    RefinesLength(t.rep, log);
    hide Refines;
    NoForwards(s, x, Node(t.rep, log), t.out);
    hide ForwardsOk, Links;
    TakeOthers(s, x, log, t.rep);
  }

  lemma {:induction false} PreOk(s: State, x: Addr, p: Addr)
    requires Inv(s) && Live(s, x) && p < x
    ensures var t := NewPreServer(s.nodes[x].rep, p); EmitOk(s, x, Node(t.rep, L(s, x)), t.out)
  {
    hide Inv, Run, Serve, EntryAt, IsEntry, Next, Reach, NoGap, ReqsTo;
    var rep := s.nodes[x].rep;
    SameOk(s, x);
    assert Refines(rep.(pre := Some(p)), L(s, x));
  }

  lemma {:induction false} AboveIn(es: seq<Entry>, n: nat, e: Entry)
    requires e in Above(es, n)
    ensures e in es
  {
    if es[0].seqNo > n {
      if e != es[0] { AboveIn(es[1..], n, e); }
    } else {
      AboveIn(es[1..], n, e);
    }
  }

  lemma {:induction false} SuccForwards(s: State, x: Addr, y: Addr, n: nat)
    requires Inv(s) && Live(s, x) && (Live(s, y) ==> Next(s, x, y) && n <= |L(s, y)|)
    ensures var t := NewSuccServer(s.nodes[x].rep, y, n); ForwardsOk(s, x, Node(t.rep, L(s, x)), t.out)
  {
    hide Run, Serve, EntryAt, IsEntry, Contents, Gaps, Repairs, Replies, ReqsTo, AcksTo, CtlOf, Reach, NoGap, Links,
      EndsWith;
    var rep, log := s.nodes[x].rep, L(s, x);
    var es := Above(rep.sent, n);
    forall e | e in es ensures Matches(log, e) && e.req in s.issued {
      AboveIn(rep.sent, n, e);
      var i :| 0 <= i < |rep.sent| && rep.sent[i] == e;
      SentInLog(rep, log, i);
      SentMatches(log, e);
    }
    if Live(s, y) {
      if rep.isTail { NothingAfterTail(s, x); }
      var reach := Reach(ReqsTo(s, x, y), |L(s, y)|);
      ReachUp(ReqsTo(s, x, y), |L(s, y)|, |L(s, y)|);
      assert Everywhere(s, Acked(rep));
      EndsWithFits(log, rep.sent);
      AboveIsRun(log, rep.sent, n);
      RunReaches(log, es, reach);
    }
  }

  lemma {:induction false} SentMatches(log: seq<Request>, e: Entry)
    requires IsEntry(log, e)
    ensures Matches(log, e)
  {
    EntryFields(log, e.seqNo - 1);
  }

  lemma {:induction false} SuccOk(s: State, x: Addr, y: Addr, n: nat)
    requires Inv(s) && Live(s, x) && (Live(s, y) ==> Next(s, x, y) && n <= |L(s, y)|)
    ensures var t := NewSuccServer(s.nodes[x].rep, y, n); EmitOk(s, x, Node(t.rep, L(s, x)), t.out)
  {
    hide Inv, Run, Serve, EntryAt, IsEntry, Next, ForwardsOk, Above;
    var rep := s.nodes[x].rep;
    SameOk(s, x);
    SuccForwards(s, x, y, n);
    assert Refines(rep.(succ := Some(y)), L(s, x));
  }

  lemma {:induction false} BankReplyOk(s: State, x: Addr, id: ReqId, account: AccountId)
    requires Inv(s) && Live(s, x) && s.nodes[x].rep.isTail
    ensures var t := TransferReply(s.nodes[x].rep, id, account); EmitOk(s, x, Node(t.rep, L(s, x)), t.out)
  {
    hide Run, Serve, EntryAt, IsEntry, Contents, Gaps, Repairs, Replies, ReqsTo, AcksTo, CtlOf, Reach, NoGap;
    var rep, log, t := s.nodes[x].rep, L(s, x), TransferReply(s.nodes[x].rep, id, account);
    forall e ensures (e in t.rep.sent || e in t.out.replies) ==> e in rep.sent {
      AnsweredSplit(rep.sent, id, account, e);
    }
    hide Answered, Unanswered;
    assert Refines(t.rep, log);
    assert forall e :: e in t.out.replies ==> IsEntry(log, e);
    NoForwards(s, x, Node(t.rep, log), t.out);
    hide ForwardsOk, Links;
    TakeOthers(s, x, log, t.rep);
    NothingAfterTail(s, x);
  }

  /** The assertion on a new head never fails: a tail's sent list holds pending transfers only. */
  lemma {:induction false} NewHeadOk(s: State, x: Addr, bank: BankId)
    requires Inv(s) && Live(s, x)
    ensures var t := HandleNewHead(s.nodes[x].rep, bank);
            t.Done? && t.rep == s.nodes[x].rep && EmitOk(s, x, Node(t.rep, L(s, x)), t.out)
  {
    hide Run, Serve, EntryAt, IsEntry, Contents, Gaps, Repairs, Replies, ReqsTo, AcksTo, CtlOf, Reach, NoGap, ToBank,
      Refines;
    var rep, log := s.nodes[x].rep, L(s, x);
    NewHeadOut(rep, log, bank);
    var t := HandleNewHead(rep, bank);
    hide HandleNewHead;
    NoForwards(s, x, Node(rep, log), t.out);
    hide ForwardsOk, Links;
    assert Everywhere(s, Acked(rep));
    if rep.isTail { NothingAfterTail(s, x); }
    hide Acked, PendingTransfer;
  }

  lemma {:induction false} NewHeadOut(rep: Replica, log: seq<Request>, bank: BankId)
    requires Refines(rep, log) && !rep.extending
    ensures var t := HandleNewHead(rep, bank);
            t.Done? && t.rep == rep && t.out == SILENT.(transfers := t.out.transfers) &&
            (!rep.isTail ==> t.out.transfers == []) &&
            forall e :: e in t.out.transfers ==> e in rep.sent && IsEntry(log, e) && PendingTransfer(e)
  {
    hide Run, EntryAt, IsEntry, Effective;
    if rep.isTail {
      forall i | 0 <= i < |rep.sent| ensures IsTransfer(rep.sent[i]) { assert rep.sent[i] in rep.sent; }
      forall e ensures e in ToBank(rep.sent, bank) <==> e in rep.sent && e.req.destBank == bank {
        ToBankIs(rep.sent, bank, e);
      }
    }
  }

  lemma {:induction false} NewHeadKeeps(s: State, x: Addr, bank: BankId)
    requires Inv(s) && Live(s, x)
    ensures Inv(Settle(s, x, HandleNewHead(s.nodes[x].rep, bank)))
  {
    hide Inv, Emit, EmitOk, HandleNewHead;
    NewHeadOk(s, x, bank);
    var t := HandleNewHead(s.nodes[x].rep, bank);
    EmitKeeps(s, x, Node(t.rep, L(s, x)), t.out);
  }

  lemma {:induction false} OtherBankHeadKeeps(s: State, x: Addr, bank: BankId)
    requires Inv(s) && Enabled(s, OtherBankHead(x, bank))
    ensures Inv(Apply(s, OtherBankHead(x, bank)))
  {
    hide Inv, Settle;
    NewHeadKeeps(s, x, bank);
  }

  // ------------------------------------------- channels, master, crashes

  lemma {:induction false} PopReqKeeps(s: State, a: Addr, x: Addr)
    requires Inv(s) && Live(s, x)
    requires ReqsTo(s, a, x) != [] && !s.nodes[x].rep.isHead ==> ReqsTo(s, a, x)[0].seqNo <= |L(s, x)|
    ensures Inv(PopReq(s, a, x))
  {
    hide Refines, AckBound, Repairs, Replies, Prefixes, Structure, Roles, Next, NamesAccount, OneAccount;
    var t := PopReq(s, a, x);
    assert forall b: Addr, y: Addr :: ReqsTo(t, b, y) == ReqsTo(s, b, y) ||
             (b == a && y == x && ReqsTo(s, b, y) != [] && ReqsTo(t, b, y) == ReqsTo(s, b, y)[1..]);
    assert forall y: Addr :: Live(t, y) <==> Live(s, y);
    SameRest(s, t);
    hide ReqsTo;
    forall b: Addr, y: Addr | Live(t, y) && !t.nodes[y].rep.isHead ensures NoGap(ReqsTo(t, b, y), |L(t, y)|) {
      assert NoGap(ReqsTo(s, b, y), |L(s, y)|);
    }
    forall w: Addr, y: Addr | Live(t, w) && Live(t, y) && t.nodes[w].rep.succ == Some(y)
      ensures Next(t, w, y) && Reach(ReqsTo(t, w, y), |L(t, y)|) >= |L(t, w)|
    {
      if Next(s, w, y) { NextSame(s, t, w, y); NotHead(s, w, y); }
    }
  }

  lemma {:induction false} NextSame(s: State, t: State, x: Addr, y: Addr)
    requires Next(s, x, y) && forall z: Addr :: Live(t, z) ==> Live(s, z)
    ensures Next(t, x, y)
  {
  }

  lemma {:induction false} NotHead(s: State, x: Addr, y: Addr)
    requires Structure(s) && Roles(s) && Live(s, x) && Live(s, y) && x < y
    ensures !s.nodes[y].rep.isHead
  {
    Bounds(s);
  }

  lemma {:induction false} AlikeCtl(s: State, t: State)
    requires s.ctl == t.ctl
    ensures forall y: Addr :: CtlOf(t, y) == CtlOf(s, y)
  {
  }

  /** Parts of the invariant depend only on parts of the state: on the servers and their notices ... */
  lemma {:induction false} SameServers(s: State, t: State)
    requires Structure(s) && Roles(s) && Prefixes(s) && Books(s)
    requires t.nodes == s.nodes && t.live == s.live && t.roster == s.roster && t.ctl == s.ctl
    requires t.pinned == s.pinned && t.aborted == s.aborted
    ensures Structure(t) && Roles(t) && Prefixes(t) && Books(t)
  {
    hide Refines, CtlOf, RosterOk, Increasing;
    assert forall y: Addr :: Live(t, y) <==> Live(s, y);
    AlikeCtl(s, t);
  }

  /** ... on acks and repair messages ... */
  lemma {:induction false} SameAcks(s: State, t: State)
    requires AckBound(s) && Repairs(s)
    requires t.nodes == s.nodes && t.live == s.live && t.roster == s.roster && t.pinned == s.pinned
    requires t.acks == s.acks && t.ctl == s.ctl && t.inbox == s.inbox
    ensures AckBound(t) && Repairs(t)
  {
    hide AcksTo, CtlOf, Acked;
    assert forall y: Addr :: Live(t, y) <==> Live(s, y);
    AlikeAcks(s, t);
    AlikeCtl(s, t);
    assert forall k: nat :: Everywhere(s, k) ==> Everywhere(t, k);
    assert forall x: Addr, y: Addr :: Next(s, x, y) ==> Next(t, x, y);
  }

  /** ... and on the requests on their way. */
  lemma {:induction false} SameRequests(s: State, t: State)
    requires Contents(s) && Gaps(s) && Links(s)
    requires t.nodes == s.nodes && t.live == s.live && t.reqs == s.reqs
    ensures Contents(t) && Gaps(t) && Links(t)
  {
    AlikeReqs(s, t);
    hide ReqsTo, Reach, NoGap, Matches;
    assert forall y: Addr :: Live(t, y) <==> Live(s, y);
    assert forall x: Addr, y: Addr :: Next(s, x, y) ==> Next(t, x, y);
  }

  lemma {:induction false} AlikeReqs(s: State, t: State)
    requires s.reqs == t.reqs
    ensures forall a: Addr, y: Addr :: ReqsTo(t, a, y) == ReqsTo(s, a, y)
  {
  }

  lemma {:induction false} SameRest(s: State, t: State)
    requires Inv(s) && t == s.(reqs := t.reqs)
    ensures Structure(t) && Roles(t) && Prefixes(t) && AckBound(t) && Repairs(t) && Replies(t) && Books(t)
  {
    hide Structure, Roles, Prefixes, AckBound, Repairs, Books, Contents, Gaps, Links, Origins, AnswerOk, IsEntry;
    SameServers(s, t);
    SameAcks(s, t);
    assert forall y: Addr :: Live(t, y) <==> Live(s, y);
  }

  /** Logs and requests stay; acks and live servers may go, notices and reports may change. */
  ghost predicate Frame(s: State, t: State) {
    && t == s.(acks := t.acks, ctl := t.ctl, inbox := t.inbox, live := t.live)
    && t.live <= s.live && t.live != {} && (s.pinned ==> s.roster.tail in t.live)
    && (forall a: Addr, y: Addr, k: nat :: k in AcksTo(t, a, y) ==> k in AcksTo(s, a, y))
  }

  lemma {:induction false} FrameAcks(s: State, t: State)
    requires AckBound(s) && Frame(s, t)
    ensures AckBound(t)
  {
    hide Acked, AcksTo;
    assert forall y: Addr :: Live(t, y) ==> Live(s, y);
    assert forall k: nat :: Everywhere(s, k) ==> Everywhere(t, k);
  }

  lemma {:induction false} FrameKeeps(s: State, t: State)
    requires Inv(s) && Frame(s, t) && Roles(t) && Repairs(t)
    ensures Inv(t)
  {
    hide Refines, AnswerOk, IsEntry, Reach, NoGap, OneAccount, Matches, AckBound, Repairs, Roles, CtlOf, AcksTo;
    assert forall y: Addr :: Live(t, y) ==> Live(s, y);
    assert forall a: Addr, y: Addr :: ReqsTo(t, a, y) == ReqsTo(s, a, y);
    assert forall x: Addr, y: Addr :: Next(s, x, y) ==> Next(t, x, y);
    FrameAcks(s, t);
  }

  /** A report or notice that joins neighbours. */
  ghost predicate ReportOk(s: State, m: Report) {
    Live(s, m.pre) && Live(s, m.succ) ==> Next(s, m.pre, m.succ) && m.n <= |L(s, m.succ)|
  }

  ghost predicate NoticeOk(s: State, y: Addr, c: Notice) {
    && (c.NewPre? ==> c.pre < y && (Live(s, c.pre) ==> Next(s, c.pre, y)))
    && (c.NewSucc? ==> ReportOk(s, Report(y, c.succ, c.n)))
  }

  lemma {:induction false} NoticesKeepRepairs(s: State, t: State)
    requires Repairs(s) && t.nodes == s.nodes && t.live <= s.live
    requires forall y: Addr, c: Notice :: Live(s, y) && c in CtlOf(t, y) ==> c in CtlOf(s, y) || NoticeOk(s, y, c)
    requires forall m :: m in t.inbox ==> m in s.inbox || ReportOk(s, m)
    ensures Repairs(t)
  {
    hide CtlOf;
    assert forall y: Addr :: Live(t, y) ==> Live(s, y);
    assert forall x: Addr, y: Addr :: Next(s, x, y) ==> Next(t, x, y);
  }

  /** Fewer notices, fewer reports. */
  ghost predicate Less(s: State, t: State) {
    && Frame(s, t)
    && (forall y: Addr, c: Notice :: c in CtlOf(t, y) ==> c in CtlOf(s, y))
    && (forall m :: m in t.inbox ==> m in s.inbox)
  }

  lemma {:induction false} LessKeeps(s: State, t: State)
    requires Inv(s) && Less(s, t)
    ensures Inv(t)
  {
    hide Refines, CtlOf, AcksTo, Acked, Contents, Gaps, Links, Prefixes, AckBound, Origins, Replies, Books, Repairs,
      NoticeOk, ReportOk;
    assert forall y: Addr :: Live(t, y) ==> Live(s, y);
    NoticesKeepRepairs(s, t);
    FrameKeeps(s, t);
  }

  lemma {:induction false} PopLess(s: State, a: Addr, x: Addr)
    requires Structure(s)
    ensures Less(s, PopAck(s, a, x)) && Less(s, PopCtl(s, x))
  {
  }

  lemma {:induction false} ReportKeeps(s: State, m: Report)
    requires Inv(s) && ReportOk(s, m)
    ensures Inv(s.(inbox := s.inbox + [m]))
  {
    hide Refines, CtlOf, AcksTo, Acked, Contents, Gaps, Links, Prefixes, AckBound, Origins, Replies, Books, Repairs,
      NoticeOk, ReportOk;
    var t := s.(inbox := s.inbox + [m]);
    AlikeChannels(s, t);
    assert forall y: Addr :: Live(t, y) <==> Live(s, y);
    NoticesKeepRepairs(s, t);
    FrameKeeps(s, t);
  }

  lemma {:induction false} AlikeChannels(s: State, t: State)
    requires s.reqs == t.reqs && s.acks == t.acks && s.ctl == t.ctl
    ensures forall a: Addr, y: Addr :: ReqsTo(t, a, y) == ReqsTo(s, a, y) && AcksTo(t, a, y) == AcksTo(s, a, y)
    ensures forall y: Addr :: CtlOf(t, y) == CtlOf(s, y)
  {
  }

  lemma {:induction false} PostAdds(ctl: map<Addr, seq<Notice>>, l: Letter, y: Addr, c: Notice)
    ensures y in Post(ctl, l) && c in Post(ctl, l)[y] ==> (y in ctl && c in ctl[y]) || Letter(y, c) == l
  {
  }

  lemma {:induction false} PostAllAdds(ctl: map<Addr, seq<Notice>>, ls: seq<Letter>, y: Addr, c: Notice)
    ensures y in PostAll(ctl, ls) && c in PostAll(ctl, ls)[y] ==> (y in ctl && c in ctl[y]) || Letter(y, c) in ls
    decreases |ls|
  {
    if ls != [] {
      PostAdds(ctl, ls[0], y, c);
      hide Post;
      PostAllAdds(Post(ctl, ls[0]), ls[1..], y, c);
    }
  }

  lemma {:induction false} RelayKeeps(s: State)
    requires Inv(s) && Enabled(s, MasterRelay)
    ensures Inv(Apply(s, MasterRelay))
  {
    hide Refines, AcksTo, Acked, Contents, Gaps, Links, Prefixes, AckBound, Origins, Replies, Books, Post, Next;
    var m, t := s.inbox[0], Apply(s, MasterRelay);
    assert m in s.inbox && forall k :: k in s.inbox[1..] ==> k in s.inbox;
    var l := Letter(m.pre, NewSucc(m.succ, m.n));
    forall y: Addr, c: Notice | c in CtlOf(t, y) ensures c in CtlOf(s, y) || Letter(y, c) == l {
      PostAdds(s.ctl, l, y, c);
    }
    assert ReportOk(s, m);
    NoticesKeepRepairs(s, t);
    RelayRoles(s, t, l);
    AlikeAcks(s, t);
    FrameKeeps(s, t);
  }

  lemma {:induction false} RelayRoles(s: State, t: State, l: Letter)
    requires Roles(s) && t == s.(ctl := t.ctl, inbox := t.inbox) && l.notice.NewSucc?
    requires forall y: Addr, c: Notice :: c in CtlOf(t, y) ==> c in CtlOf(s, y) || Letter(y, c) == l
    ensures Roles(t)
  {
    hide CtlOf;
    assert forall y: Addr :: Live(t, y) <==> Live(s, y);
  }

  lemma {:induction false} AlikeAcks(s: State, t: State)
    requires s.acks == t.acks
    ensures forall a: Addr, y: Addr :: AcksTo(t, a, y) == AcksTo(s, a, y)
  {
  }

  /** Around a dead server of an increasing list, neighbours become neighbours. */
  lemma {:induction false} AdjacentNext(s: State, p: Addr, x: Addr, y: Addr)
    requires Structure(s) && x !in s.live
    requires Adjacent(s.roster.servers, p, x) && Adjacent(s.roster.servers, x, y)
    ensures Next(s, p, y)
  {
    var i :| 0 <= i < |s.roster.servers| - 1 && s.roster.servers[i] == p && s.roster.servers[i + 1] == x;
    var j :| 0 <= j < |s.roster.servers| - 1 && s.roster.servers[j] == x && s.roster.servers[j + 1] == y;
    assert j == i + 1;
    forall z: Addr | Live(s, z) ensures !(p < z < y) {
      var k :| 0 <= k < |s.roster.servers| && s.roster.servers[k] == z;
      assert k != i + 1;
      assert k <= i || k >= i + 2;
    }
  }

  lemma {:induction false} DetectKeeps(s: State, x: Addr)
    requires Inv(s) && Enabled(s, Detect(x))
    ensures Inv(Apply(s, Detect(x)))
  {
    hide Refines, AcksTo, CtlOf, Acked, Contents, Gaps, Links, Prefixes, AckBound, Origins, Replies, Books, Roles,
      Repairs, NotifyCrash, PostAll, RosterOk, Next;
    var t := Apply(s, Detect(x));
    DetectRoster(s, x);
    DetectNotices(s, x);
    DetectRoles(s, t, x);
    DetectRepairs(s, t, x);
    assert forall y: Addr :: Live(t, y) <==> Live(s, y);
    DetectRest(s, t);
  }

  /** Every notice in flight was there, or is one of the master's repair messages. */
  lemma {:induction false} DetectNotices(s: State, x: Addr)
    requires Structure(s) && Enabled(s, Detect(x))
    ensures var t := Apply(s, Detect(x));
            forall y: Addr, c: Notice :: c in CtlOf(t, y) ==>
              c in CtlOf(s, y) || RepairDue(s.roster, t.roster, x, Letter(y, c))
  {
    hide PostAll, NotifyCrash, RosterOk, Adjacent, RepairDue;
    var t := Apply(s, Detect(x));
    CrashRepair(s.roster, x);
    forall y: Addr, c: Notice | c in CtlOf(t, y)
      ensures c in CtlOf(s, y) || RepairDue(s.roster, t.roster, x, Letter(y, c))
    {
      PostAllAdds(s.ctl, NotifyCrash(s.roster, x).1, y, c);
    }
  }

  lemma {:induction false} DetectRoles(s: State, t: State, x: Addr)
    requires Structure(s) && Roles(s) && Repairable(s.roster, x) && x !in s.live
    requires t == s.(roster := t.roster, ctl := t.ctl)
    requires x != s.roster.head ==> t.roster.head == s.roster.head
    requires x != s.roster.tail ==> t.roster.tail == s.roster.tail
    requires forall y: Addr, c: Notice :: c in CtlOf(t, y) ==>
               c in CtlOf(s, y) || RepairDue(s.roster, t.roster, x, Letter(y, c))
    ensures Roles(t)
  {
    hide CtlOf, Adjacent, RosterOk;
    assert forall y: Addr :: Live(t, y) <==> Live(s, y);
  }

  lemma {:induction false} DetectRepairs(s: State, t: State, x: Addr)
    requires Structure(s) && Repairs(s) && x !in s.live
    requires t == s.(roster := t.roster, ctl := t.ctl)
    requires forall y: Addr, c: Notice :: c in CtlOf(t, y) ==>
               c in CtlOf(s, y) || RepairDue(s.roster, t.roster, x, Letter(y, c))
    ensures Repairs(t)
  {
    hide CtlOf, Adjacent, RosterOk, Next, Repairs, Structure;
    forall y: Addr, c: Notice | Live(s, y) && c in CtlOf(t, y) ensures c in CtlOf(s, y) || NoticeOk(s, y, c) {
      if c.NewPre? && c !in CtlOf(s, y) {
        AdjacentNext(s, c.pre, x, y);
        NextLess(s, c.pre, y);
      }
    }
    NoticesKeepRepairs(s, t);
  }

  lemma {:induction false} NextLess(s: State, x: Addr, y: Addr)
    requires Next(s, x, y)
    ensures x < y
  {
  }

  /** The roster after the crash of a dead server: same order, same end points unless it was one. */
  lemma {:induction false} DetectRoster(s: State, x: Addr)
    requires Structure(s) && Enabled(s, Detect(x))
    ensures var ro := NotifyCrash(s.roster, x).0;
            RosterOk(ro) && Increasing(ro.servers) && ro.extending == None &&
            (forall y :: y in ro.servers <==> y in s.roster.servers && y != x) &&
            (x != s.roster.head ==> ro.head == s.roster.head) && (x != s.roster.tail ==> ro.tail == s.roster.tail)
  {
    hide RosterOk, Increasing, NotifyCrash, PostAll;
    OrderKept(s.roster, x);
  }

  lemma {:induction false} OrderKept(ro: Roster, x: Addr)
    requires Repairable(ro, x) && Increasing(ro.servers) && ro.extending == None
    ensures var ro' := NotifyCrash(ro, x).0;
            RosterOk(ro') && Increasing(ro'.servers) && ro'.extending == None &&
            (forall y :: y in ro'.servers <==> y in ro.servers && y != x) &&
            (x != ro.head ==> ro'.head == ro.head) && (x != ro.tail ==> ro'.tail == ro.tail)
  {
    hide RosterOk, Distinct, Broadcast;
    CrashKeepsRoster(ro, x);
    RosterDistinct(ro);
    RemoveFacts(ro.servers, x);
    hide Remove, IndexOf;
  }

  lemma {:induction false} RosterDistinct(ro: Roster)
    requires RosterOk(ro)
    ensures Distinct(ro.servers)
  {
  }

  lemma {:induction false} DetectRest(s: State, t: State)
    requires Inv(s) && t == s.(roster := t.roster, ctl := t.ctl) && Roles(t) && Repairs(t) && Structure(t)
    requires s.pinned ==> t.roster.tail == s.roster.tail
    ensures Inv(t)
  {
    hide Refines, AnswerOk, IsEntry, Reach, NoGap, OneAccount, Matches, Repairs, Roles, CtlOf, AcksTo, Acked, Structure;
    assert forall y: Addr :: Live(t, y) <==> Live(s, y);
    assert forall a: Addr, y: Addr :: ReqsTo(t, a, y) == ReqsTo(s, a, y);
    AlikeAcks(s, t);
    assert forall k: nat :: Everywhere(s, k) ==> Everywhere(t, k);
    assert forall x: Addr, y: Addr :: Next(s, x, y) ==> Next(t, x, y);
  }

  // ------------------------------------------------------------- every step

  lemma {:induction false} IssueKeeps(s: State, r: Request)
    requires Inv(s) && OneAccount(s.issued + {r}) && (r.kind == Transfer ==> s.pinned)
    ensures Inv(s.(issued := s.issued + {r}))
  {
    hide Structure, Roles, Prefixes, AckBound, Repairs, Books, Contents, Gaps, Links, AnswerOk, IsEntry, ReqsTo;
    var t := s.(issued := s.issued + {r});
    SameServers(s, t);
    SameAcks(s, t);
    SameRequests(s, t);
    AlikeReqs(s, t);
    assert forall y: Addr :: Live(t, y) <==> Live(s, y);
  }

  lemma {:induction false} ClientReqKeeps(s: State, x: Addr, r: Request)
    requires Inv(s) && Enabled(s, ClientReq(x, r))
    ensures Inv(Apply(s, ClientReq(x, r)))
  {
    hide Inv, Receive;
    IssueKeeps(s, r);
    ReceiveKeeps(s.(issued := s.issued + {r}), x, r, 0);
  }

  /** What arriving at `x` changes: `x`'s log by at most the request, and no channel at its front. */
  lemma {:induction false} ReceiveEffect(s: State, x: Addr, r: Request, stamp: nat, a: Addr)
    requires Inv(s) && MayTake(s, x, r, stamp) && ReqsTo(s, a, x) != []
    ensures var t := Receive(s, x, r, stamp);
            Live(t, x) && ReqsTo(t, a, x) != [] && ReqsTo(t, a, x)[0] == ReqsTo(s, a, x)[0] &&
            t.nodes[x].rep.isHead == s.nodes[x].rep.isHead &&
            (!s.nodes[x].rep.isHead ==> stamp <= |L(t, x)|)
  {
    hide Structure, Roles, Prefixes, Contents, Gaps, AckBound, Links, Repairs, Replies, Refines, SendsFor,
      ReceiveUpdate, Emit, ReqsTo;
    var n := s.nodes[x];
    NamesFromIssued(s, x, r);
    RefinesLength(n.rep, n.log);
    ReceiveUpdateRefines(n.rep, n.log, r, stamp);
    var t := ReceiveUpdate(n.rep, r, stamp);
    if n.rep.isHead || stamp == |n.log| + 1 { RefinesLength(t.rep, n.log + [r]); }
    EmitFrame(s, x, Node(t.rep, if t.rep.seqNo > n.rep.seqNo then n.log + [r] else n.log), t.out);
  }

  lemma {:induction false} FrontMayBeTaken(s: State, a: Addr, x: Addr)
    requires Inv(s) && Live(s, x) && ReqsTo(s, a, x) != []
    ensures var e := ReqsTo(s, a, x)[0]; MayTake(s, x, e.req, e.seqNo)
  {
    hide Structure, Roles, Prefixes, AckBound, Links, Repairs, Replies, Refines, ReqsTo, Books, OneAccount;
    var e := ReqsTo(s, a, x)[0];
    assert e in ReqsTo(s, a, x);
    if !s.nodes[x].rep.isHead {
      assert NoGap(ReqsTo(s, a, x), |L(s, x)|);
      forall w: Addr | Live(s, w) && w < x ensures Matches(L(s, w), e) { }
    }
  }

  lemma {:induction false} DeliverReqKeeps(s: State, a: Addr, x: Addr)
    requires Inv(s) && Enabled(s, DeliverReq(a, x))
    ensures Inv(Apply(s, DeliverReq(a, x)))
  {
    hide Inv, Receive, MayTake, ReqsTo, PopReq;
    var e := ReqsTo(s, a, x)[0];
    FrontMayBeTaken(s, a, x);
    ReceiveKeeps(s, x, e.req, e.seqNo);
    ReceiveEffect(s, x, e.req, e.seqNo, a);
    PopReqKeeps(Receive(s, x, e.req, e.seqNo), a, x);
  }

  lemma {:induction false} DeliverAckKeeps(s: State, a: Addr, x: Addr)
    requires Inv(s) && Enabled(s, DeliverAck(a, x))
    ensures Inv(Apply(s, DeliverAck(a, x)))
  {
    hide Emit, Contents, Gaps, Links, Repairs, Replies, Refines, Books, Prefixes, Origins, AcksTo, EmitOk, RosterOk,
      Increasing, Acked, Acknowledge;
    var k := AcksTo(s, a, x)[0];
    assert k in AcksTo(s, a, x);
    if s.nodes[x].rep.isTail { TailIdle(s, x); }
    AckOk(s, x, k);
    var t := ReceiveAck(s.nodes[x].rep, k);
    var s1 := Emit(s, x, Node(t.rep, L(s, x)), t.out);
    EmitKeeps(s, x, Node(t.rep, L(s, x)), t.out);
    PopLess(s1, a, x);
    LessKeeps(s1, PopAck(s1, a, x));
  }

  lemma {:induction false} NoticeKeeps(s: State, x: Addr, c: Notice)
    requires Inv(s) && Live(s, x) && c in CtlOf(s, x)
    ensures Inv(HandleNotice(s, x, c))
  {
    hide Emit, Contents, Gaps, Links, Replies, Refines, Books, Prefixes, Origins, AckBound, EmitOk, Structure, CtlOf;
    var rep, log := s.nodes[x].rep, L(s, x);
    match c
    case ToBeHead =>
      HeadOk(s, x);
      EmitKeeps(s, x, Node(Replicas.ToBeHead(rep).rep, log), Replicas.ToBeHead(rep).out);
    case ToBeTail =>
      TailOk(s, x);
      EmitKeeps(s, x, Node(Replicas.ToBeTail(rep).rep, log), Replicas.ToBeTail(rep).out);
    case NewPre(p) =>
      PreOk(s, x, p);
      var t := Emit(s, x, Node(NewPreServer(rep, p).rep, log), SILENT);
      EmitKeeps(s, x, Node(NewPreServer(rep, p).rep, log), SILENT);
      EmitFrame(s, x, Node(NewPreServer(rep, p).rep, log), SILENT);
      assert rep.seqNo == |log| by { BooksLength(s, x); }
      assert forall y: Addr :: Live(t, y) <==> Live(s, y);
      ReportKeeps(t, Report(p, x, rep.seqNo));
    case NewSucc(y, n) =>
      SuccOk(s, x, y, n);
      EmitKeeps(s, x, Node(NewSuccServer(rep, y, n).rep, log), NewSuccServer(rep, y, n).out);
    case NewHead(bank, _) => NewHeadKeeps(s, x, bank);
    case _ =>
  }

  lemma {:induction false} BooksLength(s: State, x: Addr)
    requires Books(s) && Live(s, x)
    ensures s.nodes[x].rep.seqNo == |L(s, x)|
  {
  }

  lemma {:induction false} DeliverCtlKeeps(s: State, x: Addr)
    requires Inv(s) && Enabled(s, DeliverCtl(x))
    ensures Inv(Apply(s, DeliverCtl(x)))
  {
    hide Inv, HandleNotice, CtlOf;
    var c := CtlOf(s, x)[0];
    NoticeKeeps(s, x, c);
    var t := HandleNotice(s, x, c);
    assert Structure(t) by { InvStructure(t); }
    PopLess(t, x, x);
    LessKeeps(t, PopCtl(t, x));
  }

  lemma {:induction false} InvStructure(s: State)
    requires Inv(s)
    ensures Structure(s)
  {
  }

  lemma {:induction false} QueryOk(s: State, x: Addr, a: AccountId)
    requires Inv(s) && Live(s, x)
    ensures EmitOk(s, x, Node(HandleQuery(s.nodes[x].rep, a).0, L(s, x)), SILENT)
    ensures HandleQuery(s.nodes[x].rep, a).1 == Balance(Run(L(s, x)).balances, a)
  {
    hide Inv, Run, Serve, EntryAt, IsEntry, Next, Reach, NoGap, ReqsTo;
    var rep, log := s.nodes[x].rep, L(s, x);
    SameOk(s, x);
    var t := HandleQuery(rep, a).0;
    assert Balance(rep.balances, a) == Balance(Run(log).balances, a);
    forall b ensures Balance(t.balances, b) == Balance(Run(log).balances, b) {
      assert Balance(rep.balances, b) == Balance(Run(log).balances, b);
    }
    assert Refines(t, log);
  }

  lemma {:induction false} AnswerKeeps(s: State, c: Answer)
    requires Inv(s) && forall x :: Live(s, x) ==> AnswerOk(L(s, x), c)
    ensures Inv(s.(answers := s.answers + [c]))
  {
    hide Structure, Roles, Prefixes, AckBound, Repairs, Books, Contents, Gaps, Links, AnswerOk, IsEntry, ReqsTo,
      OneAccount;
    var t := s.(answers := s.answers + [c]);
    SameServers(s, t);
    SameAcks(s, t);
    SameRequests(s, t);
    AlikeReqs(s, t);
    assert forall y: Addr :: Live(t, y) <==> Live(s, y);
  }

  lemma {:induction false} SilentEmit(s: State, x: Addr, n: Node)
    ensures Emit(s, x, n, SILENT) == s.(nodes := s.nodes[x := n])
  {
  }

  lemma {:induction false} QueryAnswer(s: State, x: Addr, a: AccountId)
    requires Inv(s) && Live(s, x) && s.nodes[x].rep.isTail
    ensures forall z :: Live(s, z) ==>
              AnswerOk(L(s, z), ToQuery(|L(s, x)|, a, Balance(Run(L(s, x)).balances, a)))
  {
    hide Run, Contents, Gaps, Links, Repairs, Replies, Refines, Books, Origins, AckBound;
    NothingAfterTail(s, x);
    assert L(s, x)[..|L(s, x)|] == L(s, x);
    forall z: Addr | Live(s, z) ensures L(s, z)[..|L(s, x)|] == L(s, x) && |L(s, x)| <= |L(s, z)| {
      if z != x { assert L(s, x) <= L(s, z); }
    }
  }

  lemma {:induction false} ClientQueryKeeps(s: State, x: Addr, a: AccountId)
    requires Inv(s) && Enabled(s, ClientQuery(x, a)) && s.nodes[x].rep.isTail
    ensures Inv(Apply(s, ClientQuery(x, a)))
  {
    hide Inv, Run, HandleQuery, AnswerOk, EmitOk, Emit;
    var n := s.nodes[x];
    var n' := n.(rep := HandleQuery(n.rep, a).0);
    QueryOk(s, x, a);
    QueryAnswer(s, x, a);
    EmitKeeps(s, x, n', SILENT);
    SilentEmit(s, x, n');
    var t := s.(nodes := s.nodes[x := n']);
    assert forall z :: Live(t, z) ==> Live(s, z) && L(t, z) == L(s, z);
    AnswerKeeps(t, ToQuery(|n.log|, a, HandleQuery(n.rep, a).1));
  }

  lemma {:induction false} CrashKeeps(s: State, x: Addr)
    requires Inv(s) && Enabled(s, Label.Crash(x))
    ensures Inv(Apply(s, Label.Crash(x)))
  {
    hide Contents, Gaps, Links, Repairs, Replies, Refines, Books, Origins, AckBound, Roles, Prefixes, RosterOk,
      Increasing;
    var t := Apply(s, Label.Crash(x));
    AlikeChannels(s, t);
    hide ReqsTo, AcksTo, CtlOf;
    assert t.live == {} ==> s.live <= {x};
    LessKeeps(s, t);
  }

  /** A query at a server that is not the tail stops that server, no more. */
  lemma {:induction false} StopKeeps(s: State, x: Addr, a: AccountId)
    requires Inv(s) && Enabled(s, ClientQuery(x, a)) && !s.nodes[x].rep.isTail
    ensures Inv(Apply(s, ClientQuery(x, a)))
  {
    hide Inv, Stop;
    if s.live == {x} {
      LostKeeps(s);
    } else {
      PinnedTail(s, x);
      CrashKeeps(s, x);
    }
    StopIs(s, x);
  }

  lemma {:induction false} StopIs(s: State, x: Addr)
    ensures Stop(s, x) == if s.live == {x} then s.(lost := true) else s.(live := s.live - {x})
  {
  }

  lemma {:induction false} PinnedTail(s: State, x: Addr)
    requires Inv(s) && Live(s, x) && !s.nodes[x].rep.isTail
    ensures s.pinned ==> x != s.roster.tail
  {
    hide Structure, Prefixes, Contents, Gaps, AckBound, Links, Repairs, Books, Origins, Replies;
  }

  lemma {:induction false} LostKeeps(s: State)
    requires Inv(s)
    ensures Inv(s.(lost := true))
  {
    hide Structure, Roles, Prefixes, AckBound, Repairs, Books, Contents, Gaps, Links, AnswerOk, IsEntry, ReqsTo;
    var t := s.(lost := true);
    SameServers(s, t);
    SameAcks(s, t);
    SameRequests(s, t);
    AlikeReqs(s, t);
    assert forall y: Addr :: Live(t, y) <==> Live(s, y);
  }

  /** Every step of the chain, whatever its label, keeps the invariant. */
  lemma {:induction false} StepKeeps(s: State, l: Label)
    requires Inv(s) && Enabled(s, l)
    ensures Inv(Apply(s, l))
  {
    hide Inv, Apply;
    match l
    case ClientReq(x, r) => ClientReqKeeps(s, x, r);
    case ClientQuery(x, a) => if s.nodes[x].rep.isTail { ClientQueryKeeps(s, x, a); } else { StopKeeps(s, x, a); }
    case DeliverReq(a, x) => DeliverReqKeeps(s, a, x);
    case DeliverAck(a, x) => DeliverAckKeeps(s, a, x);
    case DeliverCtl(x) => DeliverCtlKeeps(s, x);
    case MasterRelay => RelayKeeps(s);
    case Crash(x) => CrashKeeps(s, x);
    case Detect(x) => DetectKeeps(s, x);
    case BankReply(x, id, account) => BankReplyKeeps(s, x, id, account);
    case OtherBankHead(x, bank) => OtherBankHeadKeeps(s, x, bank);
  }

  lemma {:induction false} BankReplyKeeps(s: State, x: Addr, id: ReqId, account: AccountId)
    requires Inv(s) && Enabled(s, BankReply(x, id, account))
    ensures Inv(Apply(s, BankReply(x, id, account)))
  {
    hide Inv, Emit, EmitOk, Answered, Unanswered;
    BankReplyOk(s, x, id, account);
    var t := TransferReply(s.nodes[x].rep, id, account);
    EmitKeeps(s, x, Node(t.rep, L(s, x)), t.out);
  }

  lemma {:induction false} InitialShape(bank: BankId, n: nat, pinned: bool)
    requires n > 0
    ensures var s := Initial(bank, n, pinned);
            Structure(s) &&
            (forall x: Addr :: Live(s, x) ==> s.nodes[x] == InitialNode(n, x) && x < n) &&
            (forall a: Addr, y: Addr :: ReqsTo(s, a, y) == [] && AcksTo(s, a, y) == []) &&
            (forall y: Addr :: CtlOf(s, y) == [])
  {
    var s := Initial(bank, n, pinned);
    assert n - 1 in s.live;
    forall x: Addr | Live(s, x) ensures x in s.roster.servers { assert s.roster.servers[x] == x; }
  }

  lemma {:induction false} EmptyRefines(rep: Replica)
    requires rep == Fresh(rep.isHead, rep.isTail, rep.pre, rep.succ)
    ensures Refines(rep, []) && Acked(rep) == 0
  {
  }

  /** The chain before its first request satisfies the invariant. */
  lemma {:induction false} InitialKeeps(bank: BankId, n: nat, pinned: bool)
    requires n > 0
    ensures Inv(Initial(bank, n, pinned))
  {
    hide Initial, Refines, Acked, Structure, ReqsTo, AcksTo, CtlOf, AnswerOk, IsEntry;
    var s := Initial(bank, n, pinned);
    InitialShape(bank, n, pinned);
    InitialPlain(bank, n, pinned);
    forall x: Addr | Live(s, x) ensures Refines(s.nodes[x].rep, L(s, x)) && Acked(s.nodes[x].rep) == 0 {
      EmptyRefines(s.nodes[x].rep);
    }
    assert NoGap([], 0);
    assert Reach([], 0) == 0;
  }

  lemma {:induction false} InitialPlain(bank: BankId, n: nat, pinned: bool)
    requires n > 0
    ensures var s := Initial(bank, n, pinned);
            s.pinned == pinned && !s.lost && s.roster.head == 0 && s.roster.tail == n - 1 && s.inbox == [] &&
            s.issued == {} && s.answers == [] && s.forwarded == {}
  {
  }
}
