/** Without failures, transfers and new requests, delivering what is queued comes to an end,
    and at the end all servers are equal and nothing waits for an ack. */
module Convergence {
  import opened Bank
  import opened Replicas
  import opened Masters
  import opened Chains
  import opened ChainSteps
  import opened ChainResults

  predicate Delivery(l: Label) { l.DeliverReq? || l.DeliverAck? }

  /** Steps of a run without failures of a chain of `n`; queries go to its tail. */
  predicate Undisturbed(l: Label, n: nat) { Delivery(l) || l.ClientReq? || (l.ClientQuery? && l.x + 1 == n) }

  ghost predicate Drained(s: State) {
    forall l :: Delivery(l) ==> !Enabled(s, l)
  }

  // --------------------------------------------------------------- undisturbed

  /** Server `x` in the line of `n`. */
  predicate InLine(rep: Replica, x: Addr, n: nat) {
    && rep.isHead == (x == 0) && rep.isTail == (x + 1 == n) && !rep.extending
    && rep.pre == (if x > 0 then Some(x - 1) else None)
    && rep.succ == (if x + 1 < n then Some(x + 1) else None)
    && (rep.isTail ==> rep.sent == [])
  }

  ghost predicate Lined(s: State, n: nat) {
    && n > 0 && !s.pinned && !s.lost && s.live == s.nodes.Keys
    && (forall x: Addr :: x in s.nodes <==> x < n)
    && (forall x: Addr :: x in s.nodes ==> InLine(s.nodes[x].rep, x, n))
    && (forall a: Addr, x: Addr :: ReqsTo(s, a, x) != [] ==> x == a + 1 && x < n)
    && (forall a: Addr, x: Addr :: AcksTo(s, a, x) != [] ==> a == x + 1 && a < n)
  }

  /** How far acks `q` take a server that counts `m` as acked. */
  function AckReach(q: seq<nat>, m: nat): nat {
    if q == [] then m else AckReach(q[1..], Max(m, q[0]))
  }

  lemma {:induction false} AckReachAtLeast(q: seq<nat>, m: nat)
    ensures AckReach(q, m) >= m
    decreases |q|
  {
    if q != [] { AckReachAtLeast(q[1..], Max(m, q[0])); }
  }

  lemma {:induction false} AckReachAppend(q: seq<nat>, k: nat, m: nat)
    ensures AckReach(q + [k], m) == Max(AckReach(q, m), k)
    decreases |q|
  {
    if q == [] {
      assert [k][1..] == [];
    } else {
      assert (q + [k])[1..] == q[1..] + [k];
      AckReachAppend(q[1..], k, Max(m, q[0]));
    }
  }

  /** With the acks on their way, a server counts as acked what its successor does. */
  ghost predicate Acking(s: State, n: nat) {
    forall x: Addr, y: Addr :: x in s.nodes && y in s.nodes && y == x + 1 ==>
      AckReach(AcksTo(s, y, x), Acked(s.nodes[x].rep)) >= Acked(s.nodes[y].rep)
  }

  ghost predicate Calm(s: State, n: nat) { Inv(s) && Lined(s, n) && Acking(s, n) }

  // ------------------------------------------------------------------- handlers

  /** What a server in line does with an update it accepts. */
  ghost predicate Absorbed(s: Replica, t: Replica, out: Out, k: nat) {
    SameRole(s, t) && t.seqNo == k &&
    if s.isTail then
      t.sent == [] && Acked(t) == k && out.forwards == [] && out.acks == (if s.isHead then [] else [k])
    else Acked(t) == Acked(s) && |out.forwards| == 1 && out.acks == []
  }

  lemma {:induction false} Absorbs(s: Replica, log: seq<Request>, r: Request, stamp: nat)
    requires Refines(s, log) && NamesAccount(log, r) && r.kind != Transfer
    requires s.isHead || stamp <= |log| + 1
    requires !s.extending && (s.isTail ==> s.sent == [])
    ensures var t := ReceiveUpdate(s, r, stamp);
            t.Done? && if s.isHead || stamp == |log| + 1 then Absorbed(s, t.rep, t.out, |log| + 1)
                       else t == Done(s, SILENT)
  {
    hide Run, Serve, EntryAt, UpdateReply, Conclude;
    RefinesLength(s, log);
    ReceiveUpdateRefines(s, log, r, stamp);
    var t := ReceiveUpdate(s, r, stamp);
    if s.isHead || stamp == |log| + 1 {
      RefinesLength(t.rep, log + [r]);
      EntryFields(log + [r], |log|);
      if s.isTail {
        ConcludeRefines(s, log, r);
        ConcludeShape(s, r, |log| + 1);
        ConcludeHead(s, r, |log| + 1);
      }
    }
  }

  lemma {:induction false} ConcludeHead(s: Replica, r: Request, n: nat)
    ensures UpdateReply(s, r, n).0.isHead == s.isHead
  {
    hide Known, Move;
  }

  // ---------------------------------------------------------------------- work

  /** Messages on link `j`, each with the number of deliveries it can still cause. */
  function LinkWork(s: State, n: nat, j: nat): nat
    requires 0 < j < n
  {
    |ReqsTo(s, j - 1, j)| * (2 * n - 1 - j) + |AcksTo(s, j, j - 1)| * j
  }

  function Load(s: State, n: nat, k: nat): nat
    requires k < n
  {
    if k == 0 then 0 else Load(s, n, k - 1) + LinkWork(s, n, k)
  }

  function Work(s: State, n: nat): nat
    requires n > 0
  {
    Load(s, n, n - 1)
  }

  function Gain(s: State, t: State, n: nat, k: nat, j: nat): int
    requires k < n
  {
    if 0 < j <= k then LinkWork(t, n, j) - LinkWork(s, n, j) else 0
  }

  /** A step at server `i` changes the links `i` and `i + 1` only. */
  lemma {:induction false} LoadChange(s: State, t: State, n: nat, k: nat, i: nat)
    requires k < n
    requires forall j :: 0 < j <= k && j != i && j != i + 1 ==> LinkWork(t, n, j) == LinkWork(s, n, j)
    ensures Load(t, n, k) - Load(s, n, k) == Gain(s, t, n, k, i) + Gain(s, t, n, k, i + 1)
    decreases k
  {
    hide LinkWork;
    if k > 0 { LoadChange(s, t, n, k - 1, i); }
  }

  lemma {:induction false} LinkWorkIs(s: State, t: State, n: nat, j: nat, dr: int, da: int)
    requires 0 < j < n
    requires |ReqsTo(t, j - 1, j)| == |ReqsTo(s, j - 1, j)| + dr && |AcksTo(t, j, j - 1)| == |AcksTo(s, j, j - 1)| + da
    ensures LinkWork(t, n, j) == LinkWork(s, n, j) + dr * (2 * n - 1 - j) + da * j
  {
    hide ReqsTo, AcksTo;
    Distributes(|ReqsTo(s, j - 1, j)|, dr, 2 * n - 1 - j);
    Distributes(|AcksTo(s, j, j - 1)|, da, j);
  }

  lemma {:induction false} Distributes(a: int, b: int, c: int)
    ensures (a + b) * c == a * c + b * c
  {
  }

  // ------------------------------------------------------------------- one step

  /** Server `x` takes the front of channel `a` - `x`, if `front`, and moves to `n'` with `out`. */
  ghost predicate ReqStep(s: State, t: State, n: nat, x: Addr, rep: Replica, out: Out, front: bool) {
    && x in s.nodes && x in t.nodes && t.nodes.Keys == s.nodes.Keys && t.nodes[x].rep == rep
    && t.live == s.live && t.pinned == s.pinned && t.lost == s.lost
    && (forall y: Addr :: y in s.nodes && y != x ==> t.nodes[y] == s.nodes[y])
    && (forall a: Addr, y: Addr :: ReqsTo(t, a, y) ==
          if front && y == x && a + 1 == x then (if ReqsTo(s, a, x) == [] then [] else ReqsTo(s, a, x)[1..])
          else if a == x && y == x + 1 && y < n then ReqsTo(s, a, y) + out.forwards else ReqsTo(s, a, y))
    && (forall a: Addr, y: Addr :: AcksTo(t, a, y) ==
          if a == x && y + 1 == x then AcksTo(s, a, y) + out.acks else AcksTo(s, a, y))
  }

  lemma {:induction false} ReceiveSteps(s: State, n: nat, x: Addr, r: Request, stamp: nat)
    requires Lined(s, n) && x < n && ReceiveUpdate(s.nodes[x].rep, r, stamp).Done?
    requires SameRole(s.nodes[x].rep, ReceiveUpdate(s.nodes[x].rep, r, stamp).rep)
    ensures var u := ReceiveUpdate(s.nodes[x].rep, r, stamp); var t := Receive(s, x, r, stamp);
            ReqStep(s, t, n, x, u.rep, u.out, false) &&
            (x > 0 ==> ReqStep(s, PopReq(t, x - 1, x), n, x, u.rep, u.out, true))
  {
    hide ReceiveUpdate, Emit, Emitted, ReqsTo, AcksTo, PopReq, ReqStep;
    var u, t := ReceiveUpdate(s.nodes[x].rep, r, stamp), Receive(s, x, r, stamp);
    var nd := Node(u.rep, if u.rep.seqNo > s.nodes[x].rep.seqNo then L(s, x) + [r] else L(s, x));
    EmitFrame(s, x, nd, u.out);
    EmittedStep(s, n, x, nd, u.out, t);
    if x > 0 { PoppedStep(s, n, x, u.rep, u.out, t); }
  }

  lemma {:induction false} EmittedStep(s: State, n: nat, x: Addr, nd: Node, out: Out, t: State)
    requires Lined(s, n) && x < n && Emitted(s, x, nd, out, t) && SameRole(s.nodes[x].rep, nd.rep)
    ensures ReqStep(s, t, n, x, nd.rep, out, false)
  {
    hide ReqsTo, AcksTo;
    assert InLine(s.nodes[x].rep, x, n);
  }

  lemma {:induction false} PoppedStep(s: State, n: nat, x: Addr, rep: Replica, out: Out, t: State)
    requires ReqStep(s, t, n, x, rep, out, false) && x > 0
    ensures ReqStep(s, PopReq(t, x - 1, x), n, x, rep, out, true)
  {
    hide ReqsTo, AcksTo, PopReq;
    PopReqQueues(t, x - 1, x);
  }

  lemma {:induction false} PopReqQueues(t: State, a: Addr, x: Addr)
    ensures var u := PopReq(t, a, x);
            u == t.(reqs := u.reqs) &&
            (forall b: Addr, y: Addr :: AcksTo(u, b, y) == AcksTo(t, b, y)) &&
            (forall b: Addr, y: Addr :: ReqsTo(u, b, y) ==
               if b == a && y == x && ReqsTo(t, a, x) != [] then ReqsTo(t, a, x)[1..] else ReqsTo(t, b, y))
  {
  }

  /** Taking an update leaves the line in order ... */
  lemma {:induction false} TakingLines(s: State, t: State, n: nat, x: Addr, rep: Replica, out: Out, front: bool, k: nat)
    requires Lined(s, n) && ReqStep(s, t, n, x, rep, out, front)
    requires Absorbed(s.nodes[x].rep, rep, out, k) || (rep == s.nodes[x].rep && out == SILENT)
    ensures Lined(t, n)
  {
    hide Acked, ReqsTo, AcksTo;
    assert x < n && InLine(s.nodes[x].rep, x, n) && InLine(rep, x, n);
    hide InLine, Absorbed;
  }

  /** ... and acks what the tail has. */
  lemma {:induction false} TakingAcks(s: State, t: State, n: nat, x: Addr, rep: Replica, out: Out, front: bool, k: nat)
    requires Lined(s, n) && Acking(s, n) && ReqStep(s, t, n, x, rep, out, front)
    requires Absorbed(s.nodes[x].rep, rep, out, k) || (rep == s.nodes[x].rep && out == SILENT)
    ensures Acking(t, n)
  {
    hide Acked, ReqsTo, AcksTo;
    assert x < n && InLine(s.nodes[x].rep, x, n);
    hide Lined;
    forall y: Addr, z: Addr | y in t.nodes && z in t.nodes && z == y + 1
      ensures AckReach(AcksTo(t, z, y), Acked(t.nodes[y].rep)) >= Acked(t.nodes[z].rep)
    {
      if z == x && out.acks != [] { AckReachAppend(AcksTo(s, z, y), k, Acked(s.nodes[y].rep)); }
      assert AcksTo(s, z, y) + [] == AcksTo(s, z, y);
    }
  }

  lemma {:induction false} TakingKeeps(s: State, t: State, n: nat, x: Addr, rep: Replica, out: Out, front: bool, k: nat)
    requires Lined(s, n) && Acking(s, n) && ReqStep(s, t, n, x, rep, out, front)
    requires Absorbed(s.nodes[x].rep, rep, out, k) || (rep == s.nodes[x].rep && out == SILENT)
    ensures Lined(t, n) && Acking(t, n)
  {
    hide Acked, Lined, Acking, ReqStep, Absorbed;
    TakingLines(s, t, n, x, rep, out, front, k);
    TakingAcks(s, t, n, x, rep, out, front, k);
  }

  lemma {:induction false} AbsorbedSends(s: State, n: nat, x: Addr, rep: Replica, out: Out, k: nat)
    requires Lined(s, n) && 0 < x < n
    requires Absorbed(s.nodes[x].rep, rep, out, k) || (rep == s.nodes[x].rep && out == SILENT)
    ensures |out.forwards| <= 1 && |out.acks| <= 1 && (x + 1 < n ==> out.acks == [])
  {
    hide Acked, ReqsTo, AcksTo;
    assert InLine(s.nodes[x].rep, x, n);
  }

  /** Delivering a request is work done. */
  lemma {:induction false} TakingWorks(s: State, t: State, n: nat, x: Addr, rep: Replica, out: Out)
    requires 0 < x < n && ReqStep(s, t, n, x, rep, out, true) && ReqsTo(s, x - 1, x) != []
    requires |out.forwards| <= 1 && |out.acks| <= 1 && (x + 1 < n ==> out.acks == [])
    ensures Work(t, n) < Work(s, n)
  {
    hide LinkWork, ReqsTo, AcksTo, Load;
    forall j | 0 < j < n && j != x && j != x + 1 ensures LinkWork(t, n, j) == LinkWork(s, n, j) {
      LinkWorkIs(s, t, n, j, 0, 0);
    }
    LoadChange(s, t, n, n - 1, x);
    LinkWorkIs(s, t, n, x, -1, |out.acks|);
    if x + 1 < n { LinkWorkIs(s, t, n, x + 1, |out.forwards|, 0); }
    hide ReqStep;
  }

  lemma {:induction false} ReqDelivered(s: State, n: nat, a: Addr, x: Addr)
    requires Calm(s, n) && Enabled(s, DeliverReq(a, x))
    ensures var t := Apply(s, DeliverReq(a, x)); Lined(t, n) && Acking(t, n) && Work(t, n) < Work(s, n)
  {
    hide Inv, MayTake, ReqsTo, AcksTo, Refines, ReceiveUpdate, Receive, PopReq, Absorbed, ReqStep, Acking, Work;
    var e, rep := ReqsTo(s, a, x)[0], s.nodes[x].rep;
    FrontMayBeTaken(s, a, x);
    FrontFits(s, a, x);
    Absorbs(rep, L(s, x), e.req, e.seqNo);
    AbsorbedRole(rep, ReceiveUpdate(rep, e.req, e.seqNo), |L(s, x)| + 1);
    ReceiveSteps(s, n, x, e.req, e.seqNo);
    var u, t := ReceiveUpdate(rep, e.req, e.seqNo), Apply(s, DeliverReq(a, x));
    TakingKeeps(s, t, n, x, u.rep, u.out, true, |L(s, x)| + 1);
    AbsorbedSends(s, n, x, u.rep, u.out, |L(s, x)| + 1);
    TakingWorks(s, t, n, x, u.rep, u.out);
  }

  lemma {:induction false} AbsorbedRole(s: Replica, u: Step, k: nat)
    requires u.Done? && (Absorbed(s, u.rep, u.out, k) || u == Done(s, SILENT))
    ensures SameRole(s, u.rep)
  {
  }

  /** Whatever is queued may be judged: it was issued, is no transfer, and leaves no gap. */
  lemma {:induction false} FrontFits(s: State, a: Addr, x: Addr)
    requires Inv(s) && !s.pinned && Live(s, x) && ReqsTo(s, a, x) != []
    ensures var e := ReqsTo(s, a, x)[0];
            Refines(s.nodes[x].rep, L(s, x)) && NamesAccount(L(s, x), e.req) && e.req.kind != Transfer &&
            (s.nodes[x].rep.isHead || e.seqNo <= |L(s, x)| + 1)
  {
    hide Structure, Roles, Prefixes, AckBound, Links, Repairs, Replies, Refines, ReqsTo, Contents;
    var e := ReqsTo(s, a, x)[0];
    assert e in ReqsTo(s, a, x);
    NamesFromIssued(s, x, e.req);
    assert s.nodes[x].rep.isHead || NoGap(ReqsTo(s, a, x), |L(s, x)|);
  }

  lemma {:induction false} ClientTaken(s: State, n: nat, x: Addr, r: Request)
    requires Calm(s, n) && Enabled(s, ClientReq(x, r))
    ensures var t := Apply(s, ClientReq(x, r)); Lined(t, n) && Acking(t, n)
  {
    hide Inv, ReqsTo, AcksTo, Refines, ReceiveUpdate, Receive, Absorbed, ReqStep, Acking;
    var s1, rep := s.(issued := s.issued + {r}), s.nodes[x].rep;
    IssueKeeps(s, r);
    SameQueues(s, s1, n);
    InvBooks(s1, x);
    NamesFromIssued(s1, x, r) by { InvOrigins(s1); }
    Absorbs(rep, L(s, x), r, 0);
    AbsorbedRole(rep, ReceiveUpdate(rep, r, 0), |L(s, x)| + 1);
    ReceiveSteps(s1, n, x, r, 0);
    var u := ReceiveUpdate(rep, r, 0);
    TakingKeeps(s1, Receive(s1, x, r, 0), n, x, u.rep, u.out, false, |L(s, x)| + 1);
  }

  lemma {:induction false} SameQueues(s: State, t: State, n: nat)
    requires Lined(s, n) && Acking(s, n)
    requires t.nodes == s.nodes && t.live == s.live && t.pinned == s.pinned && t.lost == s.lost &&
             t.reqs == s.reqs && t.acks == s.acks
    ensures Lined(t, n) && Acking(t, n)
  {
    hide ReqsTo, AcksTo, Acked, InLine;
    SameChannels(s, t);
  }

  lemma {:induction false} QueryAnswered(s: State, n: nat, x: Addr, a: AccountId)
    requires Calm(s, n) && Enabled(s, ClientQuery(x, a)) && x + 1 == n
    ensures var t := Apply(s, ClientQuery(x, a)); Lined(t, n) && Acking(t, n)
  {
    LineAt(s, n, x);
    hide Inv, ReqsTo, AcksTo, Acked, Acking, Lined;
    var t := Apply(s, ClientQuery(x, a));
    SameChannels(s, t);
    OpenedAcked(s.nodes[x].rep, a);
    BalancesOnly(s, t, n, x);
  }

  lemma {:induction false} SameChannels(s: State, t: State)
    requires t.reqs == s.reqs && t.acks == s.acks
    ensures forall a: Addr, y: Addr :: ReqsTo(t, a, y) == ReqsTo(s, a, y) && AcksTo(t, a, y) == AcksTo(s, a, y)
  {
  }

  lemma {:induction false} OpenedAcked(rep: Replica, a: AccountId)
    ensures var rep' := HandleQuery(rep, a).0; Acked(rep') == Acked(rep) && rep' == rep.(balances := rep'.balances)
  {
  }

  lemma {:induction false} BalancesOnly(s: State, t: State, n: nat, x: Addr)
    requires Lined(s, n) && Acking(s, n) && x in s.nodes && x in t.nodes
    requires t.live == s.live && t.pinned == s.pinned && t.lost == s.lost && t.nodes == s.nodes[x := t.nodes[x]]
    requires forall a: Addr, y: Addr :: ReqsTo(t, a, y) == ReqsTo(s, a, y) && AcksTo(t, a, y) == AcksTo(s, a, y)
    requires t.nodes[x].rep == s.nodes[x].rep.(balances := t.nodes[x].rep.balances)
    requires Acked(t.nodes[x].rep) == Acked(s.nodes[x].rep)
    ensures Lined(t, n) && Acking(t, n)
  {
    hide ReqsTo, AcksTo, Acked, Acking, Lined;
    SameKeys(s.nodes, t.nodes, x);
    BalancesLines(s, t, n, x);
    BalancesAcks(s, t, n, x);
  }

  lemma {:induction false} SameKeys(m: map<Addr, Node>, m': map<Addr, Node>, x: Addr)
    requires x in m && x in m' && m' == m[x := m'[x]]
    ensures m'.Keys == m.Keys && forall y: Addr :: y in m && y != x ==> m'[y] == m[y]
  {
  }

  lemma {:induction false} BalancesLines(s: State, t: State, n: nat, x: Addr)
    requires Lined(s, n) && x in s.nodes && x in t.nodes && t.nodes.Keys == s.nodes.Keys
    requires t.live == s.live && t.pinned == s.pinned && t.lost == s.lost
    requires forall y: Addr :: y in s.nodes && y != x ==> t.nodes[y] == s.nodes[y]
    requires forall a: Addr, y: Addr :: ReqsTo(t, a, y) == ReqsTo(s, a, y) && AcksTo(t, a, y) == AcksTo(s, a, y)
    requires t.nodes[x].rep == s.nodes[x].rep.(balances := t.nodes[x].rep.balances)
    ensures Lined(t, n)
  {
    hide ReqsTo, AcksTo;
    assert InLine(s.nodes[x].rep, x, n) && InLine(t.nodes[x].rep, x, n);
    hide InLine;
  }

  lemma {:induction false} BalancesAcks(s: State, t: State, n: nat, x: Addr)
    requires Acking(s, n) && x in s.nodes && x in t.nodes && t.nodes.Keys == s.nodes.Keys
    requires forall y: Addr :: y in s.nodes && y != x ==> t.nodes[y] == s.nodes[y]
    requires forall a: Addr, y: Addr :: AcksTo(t, a, y) == AcksTo(s, a, y)
    requires Acked(t.nodes[x].rep) == Acked(s.nodes[x].rep)
    ensures Acking(t, n)
  {
    hide ReqsTo, AcksTo, Acked;
  }

  // ----------------------------------------------------------------------- acks

  /** What delivering an ack from `x + 1` to `x` changes. */
  ghost predicate AckStep(s: State, t: State, n: nat, x: Addr, rep: Replica, k: nat) {
    && x in s.nodes && t.nodes.Keys == s.nodes.Keys && x in t.nodes && t.nodes[x].rep == rep
    && t.live == s.live && t.pinned == s.pinned && t.lost == s.lost
    && (forall y: Addr :: y in s.nodes && y != x ==> t.nodes[y] == s.nodes[y])
    && (forall a: Addr, y: Addr :: ReqsTo(t, a, y) == ReqsTo(s, a, y))
    && AcksTo(s, x + 1, x) != [] && AcksTo(s, x + 1, x)[0] == k
    && (forall a: Addr, y: Addr :: AcksTo(t, a, y) ==
          if a == x + 1 && y == x then AcksTo(s, a, y)[1..]
          else if a == x && y + 1 == x then AcksTo(s, a, y) + [k] else AcksTo(s, a, y))
  }

  lemma {:induction false} AckSteps(s: State, n: nat, x: Addr)
    requires Lined(s, n) && x in s.nodes && AcksTo(s, x + 1, x) != []
    requires SameRole(s.nodes[x].rep, Acknowledge(s.nodes[x].rep, AcksTo(s, x + 1, x)[0]))
    ensures var k := AcksTo(s, x + 1, x)[0];
            Enabled(s, DeliverAck(x + 1, x)) &&
            AckStep(s, Apply(s, DeliverAck(x + 1, x)), n, x, Acknowledge(s.nodes[x].rep, k), k)
  {
    hide Acknowledge, Emit, Emitted, ReqsTo, AcksTo, PopAck, AckStep;
    var k := AcksTo(s, x + 1, x)[0];
    var u := ReceiveAck(s.nodes[x].rep, k);
    var t := Settle(s, x, u);
    EmitFrame(s, x, Node(u.rep, L(s, x)), u.out);
    AckPopped(s, n, x, Node(u.rep, L(s, x)), u.out, t, k);
  }

  lemma {:induction false} AckPopped(s: State, n: nat, x: Addr, nd: Node, out: Out, t: State, k: nat)
    requires Lined(s, n) && x in s.nodes && AcksTo(s, x + 1, x) != [] && k == AcksTo(s, x + 1, x)[0]
    requires SameRole(s.nodes[x].rep, nd.rep) && Emitted(s, x, nd, out, t)
    requires out == if nd.rep.isHead then SILENT else SILENT.(acks := [k])
    ensures AckStep(s, PopAck(t, x + 1, x), n, x, nd.rep, k)
  {
    hide ReqsTo, AcksTo, PopAck;
    assert InLine(s.nodes[x].rep, x, n);
    PopAckQueues(t, x + 1, x);
  }

  lemma {:induction false} PopAckQueues(t: State, a: Addr, x: Addr)
    ensures var u := PopAck(t, a, x);
            u == t.(acks := u.acks) &&
            (forall b: Addr, y: Addr :: ReqsTo(u, b, y) == ReqsTo(t, b, y)) &&
            (forall b: Addr, y: Addr :: AcksTo(u, b, y) ==
               if b == a && y == x && AcksTo(t, a, x) != [] then AcksTo(t, a, x)[1..] else AcksTo(t, b, y))
  {
  }

  lemma {:induction false} AckingLines(s: State, t: State, n: nat, x: Addr, rep: Replica, k: nat)
    requires Lined(s, n) && AckStep(s, t, n, x, rep, k) && SameRole(s.nodes[x].rep, rep)
    ensures Lined(t, n)
  {
    hide ReqsTo, AcksTo;
    assert x + 1 < n && InLine(s.nodes[x].rep, x, n) && InLine(rep, x, n);
    hide InLine;
  }

  lemma {:induction false} AckingAcks(s: State, t: State, n: nat, x: Addr, rep: Replica, k: nat)
    requires Acking(s, n) && AckStep(s, t, n, x, rep, k)
    requires Acked(rep) == Max(Acked(s.nodes[x].rep), k)
    ensures Acking(t, n)
  {
    hide Acked, ReqsTo, AcksTo;
    forall y: Addr, z: Addr | y in t.nodes && z in t.nodes && z == y + 1
      ensures AckReach(AcksTo(t, z, y), Acked(t.nodes[y].rep)) >= Acked(t.nodes[z].rep)
    {
      if z == x { AckReachAppend(AcksTo(s, z, y), k, Acked(s.nodes[y].rep)); }
    }
  }

  /** Delivering an ack is work done. */
  lemma {:induction false} AckingWorks(s: State, t: State, n: nat, x: Addr, rep: Replica, k: nat)
    requires Lined(s, n) && AckStep(s, t, n, x, rep, k)
    ensures Work(t, n) < Work(s, n)
  {
    hide Acked, LinkWork, ReqsTo, AcksTo, Load;
    assert x + 1 < n;
    forall j | 0 < j < n && j != x && j != x + 1 ensures LinkWork(t, n, j) == LinkWork(s, n, j) {
      LinkWorkIs(s, t, n, j, 0, 0);
    }
    LoadChange(s, t, n, n - 1, x);
    LinkWorkIs(s, t, n, x + 1, 0, -1);
    if x > 0 { LinkWorkIs(s, t, n, x, 0, 1); }
  }

  lemma {:induction false} AckDelivered(s: State, n: nat, a: Addr, x: Addr)
    requires Calm(s, n) && Enabled(s, DeliverAck(a, x))
    ensures var t := Apply(s, DeliverAck(a, x)); Lined(t, n) && Acking(t, n) && Work(t, n) < Work(s, n)
  {
    hide Inv, AcksTo, ReqsTo, Refines, Acked, Acknowledge, AckStep, Acking, Work, Settle, PopAck;
    assert a == x + 1;
    var k, rep := AcksTo(s, a, x)[0], s.nodes[x].rep;
    InvBooks(s, x);
    AckBounded(s, a, x);
    AcknowledgeRefines(rep, L(s, x), k);
    AckSteps(s, n, x);
    var t := Apply(s, DeliverAck(a, x));
    AckingLines(s, t, n, x, Acknowledge(rep, k), k);
    AckingAcks(s, t, n, x, Acknowledge(rep, k), k);
    AckingWorks(s, t, n, x, Acknowledge(rep, k), k);
  }

  lemma {:induction false} AckBounded(s: State, a: Addr, x: Addr)
    requires Inv(s) && Live(s, x) && AcksTo(s, a, x) != []
    ensures AcksTo(s, a, x)[0] <= |L(s, x)| && Acked(s.nodes[x].rep) <= |L(s, x)|
  {
    hide Structure, Roles, Prefixes, Links, Repairs, Replies, Refines, AcksTo, Contents, Gaps, Books, Origins;
    var k := AcksTo(s, a, x)[0];
    assert k in AcksTo(s, a, x);
    assert Everywhere(s, k) && Everywhere(s, Acked(s.nodes[x].rep));
  }

  // ----------------------------------------------------------------------- runs

  lemma {:induction false} StepCalm(s: State, n: nat, l: Label)
    requires Calm(s, n) && Undisturbed(l, n) && Enabled(s, l)
    ensures Calm(Apply(s, l), n)
    ensures Delivery(l) ==> Work(Apply(s, l), n) < Work(s, n)
  {
    hide Inv, Lined, Acking, Work, Apply, Enabled;
    StepKeeps(s, l);
    match l
    case ClientReq(x, r) => ClientTaken(s, n, x, r);
    case ClientQuery(x, a) => QueryAnswered(s, n, x, a);
    case DeliverReq(a, x) => ReqDelivered(s, n, a, x);
    case DeliverAck(a, x) => AckDelivered(s, n, a, x);
    case _ =>
  }

  lemma {:induction false} CalmLine(s: State, n: nat)
    requires Calm(s, n)
    ensures n > 0
  {
  }

  lemma {:induction false} RunCalm(s: State, n: nat, ls: seq<Label>)
    requires Calm(s, n) && IsRun(s, ls) && forall l :: l in ls ==> Undisturbed(l, n)
    ensures Calm(After(s, ls), n)
    decreases |ls|
  {
    hide Calm, Apply, Enabled;
    if ls != [] {
      StepCalm(s, n, ls[0]);
      RunCalm(Apply(s, ls[0]), n, ls[1..]);
    }
  }

  /** Deliveries alone can go on for no longer than there is work. */
  lemma {:induction false} DeliveryTerminates(s: State, n: nat, ms: seq<Label>)
    requires Calm(s, n) && IsRun(s, ms) && forall l :: l in ms ==> Delivery(l)
    ensures n > 0 && Work(After(s, ms), n) + |ms| <= Work(s, n)
    decreases |ms|
  {
    hide Calm, Apply, Enabled, Work;
    CalmLine(s, n);
    if ms != [] {
      StepCalm(s, n, ms[0]);
      DeliveryTerminates(Apply(s, ms[0]), n, ms[1..]);
    }
  }

  /** And wherever they stop for want of messages can be reached. */
  lemma {:induction false} CanDrain(s: State, n: nat)
    requires Calm(s, n)
    ensures n > 0 && exists ms :: IsRun(s, ms) && (forall l :: l in ms ==> Delivery(l)) && Drained(After(s, ms))
    decreases if n > 0 then Work(s, n) else 0
  {
    hide Calm, Apply, Enabled, Work;
    CalmLine(s, n);
    if Drained(s) {
      assert IsRun(s, []) && After(s, []) == s;
    } else {
      var l :| Delivery(l) && Enabled(s, l);
      StepCalm(s, n, l);
      CanDrain(Apply(s, l), n);
      var ms :| IsRun(Apply(s, l), ms) && (forall l :: l in ms ==> Delivery(l)) && Drained(After(Apply(s, l), ms));
      assert ([l] + ms)[1..] == ms;
      assert IsRun(s, [l] + ms) && Drained(After(s, [l] + ms));
    }
  }

  /** At rest every log is the tail's, and all of it is acked. */
  lemma {:induction false} RestFrom(s: State, n: nat, x: Addr)
    requires Calm(s, n) && Drained(s) && x < n
    ensures x in s.nodes && n - 1 in s.nodes && L(s, x) == L(s, n - 1) && s.nodes[x].rep.sent == []
    decreases n - x
  {
    hide Inv, Refines, Acked, ReqsTo, AcksTo, Enabled, InLine;
    InvBooks(s, x);
    AckedAll(s.nodes[x].rep, L(s, x));
    LineAt(s, n, x);
    if x + 1 < n {
      RestFrom(s, n, x + 1);
      InvBooks(s, x + 1);
      AckedAll(s.nodes[x + 1].rep, L(s, x + 1));
      NothingQueued(s, x, x + 1);
      NothingQueued(s, x + 1, x);
      LinkedDrained(s, x, x + 1);
    }
  }

  lemma {:induction false} NothingQueued(s: State, a: Addr, x: Addr)
    requires Drained(s) && !s.lost && x in s.live && x in s.nodes
    ensures ReqsTo(s, a, x) == [] && AcksTo(s, a, x) == []
  {
    assert !Enabled(s, DeliverReq(a, x)) && !Enabled(s, DeliverAck(a, x));
  }

  lemma {:induction false} LineAt(s: State, n: nat, x: Addr)
    requires Lined(s, n) && x < n
    ensures x in s.live && x in s.nodes && InLine(s.nodes[x].rep, x, n)
    ensures s.nodes[x].rep.isTail == (x + 1 == n) && (x + 1 == n ==> s.nodes[x].rep.sent == [])
    ensures x + 1 < n ==> s.nodes[x].rep.succ == Some(x + 1)
    ensures !s.lost
  {
  }

  lemma {:induction false} AckedAll(rep: Replica, log: seq<Request>)
    requires Refines(rep, log)
    ensures rep.isTail || rep.sent == [] ==> Acked(rep) == |log|
    ensures Acked(rep) >= |log| && !rep.isTail ==> rep.sent == []
  {
    hide Run, EntryAt;
  }

  lemma {:induction false} InitialCalm(bank: BankId, n: nat)
    requires n > 0
    ensures Calm(Initial(bank, n, false), n)
  {
    hide Initial, Inv, Acked, ReqsTo, AcksTo, Refines;
    var s := Initial(bank, n, false);
    InitialKeeps(bank, n, false);
    InitialShape(bank, n, false);
    InitialPlain(bank, n, false);
    InitialKeys(bank, n);
    forall x: Addr | x in s.nodes ensures InLine(s.nodes[x].rep, x, n) && Acked(s.nodes[x].rep) == 0 {
      assert Live(s, x);
      EmptyRefines(s.nodes[x].rep);
    }
  }

  lemma {:induction false} InitialKeys(bank: BankId, n: nat)
    requires n > 0
    ensures var s := Initial(bank, n, false); s.live == s.nodes.Keys && forall x: Addr :: x in s.nodes <==> x < n
  {
  }

  /** After any run without failures, deliveries `ms` come to an end within a bound known beforehand;
      when none is left, all servers hold the head's log with its balances, and every sent list is empty. */
  lemma {:induction false} DeliveryConverges(bank: BankId, n: nat, ls: seq<Label>, ms: seq<Label>)
    requires n > 0 && IsRun(Initial(bank, n, false), ls) && forall l :: l in ls ==> Undisturbed(l, n)
    requires IsRun(After(Initial(bank, n, false), ls), ms) && forall l :: l in ms ==> Delivery(l)
    ensures |ms| <= Work(After(Initial(bank, n, false), ls), n)
    ensures var t := After(After(Initial(bank, n, false), ls), ms);
            Drained(t) ==>
              forall x: Addr :: x < n ==>
                0 in t.nodes && x in t.nodes && t.nodes[x].rep.sent == [] && L(t, x) == L(t, 0) &&
                Refines(t.nodes[x].rep, L(t, 0)) && t.nodes[x].rep.processed == Run(L(t, 0)).history
  {
    hide Calm, Initial, Drained, Apply, Enabled, Work, Refines, Run;
    InitialCalm(bank, n);
    RunCalm(Initial(bank, n, false), n, ls);
    var s := After(Initial(bank, n, false), ls);
    DeliveryTerminates(s, n, ms);
    RunCalm(s, n, ms);
    var t := After(s, ms);
    hide IsRun, After;
    if Drained(t) {
      forall x: Addr | x < n
        ensures 0 in t.nodes && x in t.nodes && t.nodes[x].rep.sent == [] && L(t, x) == L(t, 0) &&
                Refines(t.nodes[x].rep, L(t, 0)) && t.nodes[x].rep.processed == Run(L(t, 0)).history
      {
        RestFrom(t, n, x);
        RestFrom(t, n, 0);
        CalmBooks(t, n, x);
      }
    }
  }

  lemma {:induction false} CalmBooks(s: State, n: nat, x: Addr)
    requires Calm(s, n) && x < n
    ensures x in s.nodes && Refines(s.nodes[x].rep, L(s, x))
    ensures s.nodes[x].rep.sent == [] ==> s.nodes[x].rep.processed == Run(L(s, x)).history
  {
    hide Inv, Run;
    InvBooks(s, x);
    assert L(s, x)[..|L(s, x)|] == L(s, x);
  }
}
