/** One bank's chain as a state machine: servers joined by FIFO channels, a
    master that notices crashes some time after they happen, and an
    environment that sends, resends and loses what it likes. Servers are
    numbered along the initial chain. A step is a label; what it does is a
    function of the state and the label. */
module Chains {
  import opened Bank
  import opened Replicas
  import opened Masters

  /** A server with the log of update requests it has applied. The log is
      bookkeeping: no handler looks at it. */
  datatype Node = Node(rep: Replica, log: seq<Request>)

  /** S+ tells the master its sequence number. */
  datatype Report = Report(pre: Addr, succ: Addr, n: nat)

  /** A reply the tail sent: to an update, or to a query answered after `k` updates. */
  datatype Answer = ToUpdate(e: Entry) | ToQuery(k: nat, account: AccountId, balance: int)

  /** Channels are kept by sender and receiver. `issued` holds every request a
      client ever sent, `forwarded` every transfer sent on to another bank. A
      pinned chain is one whose tail does not crash; only such a chain is given transfers. A failed
      assertion stops its server, like a crash: the one on queries does so as it happens, `lost` when it stops the
      last server; `aborted` records any other. */
  datatype State = State(
    nodes: map<Addr, Node>, live: set<Addr>, roster: Roster,
    reqs: map<(Addr, Addr), seq<Entry>>, acks: map<(Addr, Addr), seq<nat>>,
    ctl: map<Addr, seq<Notice>>, inbox: seq<Report>,
    issued: set<Request>, answers: seq<Answer>, forwarded: set<Entry>,
    pinned: bool, aborted: bool, lost: bool)

  function ReqsTo(s: State, a: Addr, b: Addr): seq<Entry> {
    if (a, b) in s.reqs then s.reqs[(a, b)] else []
  }

  function AcksTo(s: State, a: Addr, b: Addr): seq<nat> {
    if (a, b) in s.acks then s.acks[(a, b)] else []
  }

  function CtlOf(s: State, a: Addr): seq<Notice> {
    if a in s.ctl then s.ctl[a] else []
  }

  // ------------------------------------------------------------------- steps

  datatype Label =
    | ClientReq(x: Addr, r: Request)
    | ClientQuery(x: Addr, account: AccountId)
    | DeliverReq(src: Addr, x: Addr)
    | DeliverAck(src: Addr, x: Addr)
    | DeliverCtl(x: Addr)
    | MasterRelay
    | Crash(x: Addr)
    | Detect(x: Addr)
    | BankReply(x: Addr, id: ReqId, account: AccountId)
    | OtherBankHead(x: Addr, bank: BankId)

  ghost predicate OneAccount(reqs: set<Request>) {
    forall q, r :: q in reqs && r in reqs && q.id == r.id ==> q.account == r.account
  }

  /** Clients may be wrong about which server is the head or the tail. */
  ghost predicate Enabled(s: State, l: Label) {
    !s.lost &&
    match l
    case ClientReq(x, r) =>
      x in s.live && x in s.nodes && OneAccount(s.issued + {r}) && (r.kind == Transfer ==> s.pinned)
    case ClientQuery(x, _) => x in s.live && x in s.nodes
    case DeliverReq(a, x) => x in s.live && x in s.nodes && ReqsTo(s, a, x) != []
    case DeliverAck(a, x) => x in s.live && x in s.nodes && AcksTo(s, a, x) != []
    case DeliverCtl(x) => x in s.live && x in s.nodes && CtlOf(s, x) != []
    case MasterRelay => s.inbox != []
    case Crash(x) => x in s.live && s.live != {x} && (s.pinned ==> x != s.roster.tail)
    case Detect(x) => x in s.roster.servers && x !in s.live && Repairable(s.roster, x)
    case BankReply(x, _, _) => x in s.live && x in s.nodes && s.nodes[x].rep.isTail && s.pinned
    case OtherBankHead(x, _) => x in s.live && x in s.nodes
  }

  function ToUpdates(es: seq<Entry>): seq<Answer> { seq(|es|, i requires 0 <= i < |es| => ToUpdate(es[i])) }

  /** Server `x` moves to `n` and sends `out`. */
  function Emit(s: State, x: Addr, n: Node, out: Out): State {
    s.(nodes := s.nodes[x := n],
       reqs := if n.rep.succ.Some? && out.forwards != []
               then s.reqs[(x, n.rep.succ.value) := ReqsTo(s, x, n.rep.succ.value) + out.forwards] else s.reqs,
       acks := if n.rep.pre.Some? && out.acks != []
               then s.acks[(x, n.rep.pre.value) := AcksTo(s, x, n.rep.pre.value) + out.acks] else s.acks,
       answers := s.answers + ToUpdates(out.replies),
       forwarded := s.forwarded + (set e | e in out.transfers))
  }

  /** An update request with stamp `stamp` reaches `x`. */
  function Receive(s: State, x: Addr, r: Request, stamp: nat): State
    requires x in s.nodes
  {
    var n := s.nodes[x];
    match ReceiveUpdate(n.rep, r, stamp)
    case Abort => s.(aborted := true)
    case Done(rep, out) =>
      Emit(s, x, Node(rep, if rep.seqNo > n.rep.seqNo then n.log + [r] else n.log), out)
  }

  function PopReq(s: State, a: Addr, x: Addr): State {
    if ReqsTo(s, a, x) == [] then s else s.(reqs := s.reqs[(a, x) := ReqsTo(s, a, x)[1..]])
  }

  function PopAck(s: State, a: Addr, x: Addr): State {
    if AcksTo(s, a, x) == [] then s else s.(acks := s.acks[(a, x) := AcksTo(s, a, x)[1..]])
  }

  function PopCtl(s: State, x: Addr): State {
    if CtlOf(s, x) == [] then s else s.(ctl := s.ctl[x := CtlOf(s, x)[1..]])
  }

  /** A handler that leaves the log alone. */
  function Settle(s: State, x: Addr, t: Step): State
    requires x in s.nodes
  {
    match t
    case Abort => s.(aborted := true)
    case Done(rep, out) => Emit(s, x, Node(rep, s.nodes[x].log), out)
  }

  function HandleNotice(s: State, x: Addr, c: Notice): State
    requires x in s.nodes
  {
    var rep := s.nodes[x].rep;
    match c
    case ToBeHead => Settle(s, x, Replicas.ToBeHead(rep))
    case ToBeTail => Settle(s, x, Replicas.ToBeTail(rep))
    case NewPre(p) => Settle(s, x, NewPreServer(rep, p)).(inbox := s.inbox + [Report(p, x, rep.seqNo)])
    case NewSucc(y, n) => Settle(s, x, NewSuccServer(rep, y, n))
    case NewHead(bank, _) => Settle(s, x, HandleNewHead(rep, bank))
    case _ => s
  }

  function Post(ctl: map<Addr, seq<Notice>>, l: Letter): map<Addr, seq<Notice>> {
    ctl[l.to := (if l.to in ctl then ctl[l.to] else []) + [l.notice]]
  }

  function PostAll(ctl: map<Addr, seq<Notice>>, ls: seq<Letter>): map<Addr, seq<Notice>>
    decreases |ls|
  {
    if ls == [] then ctl else PostAll(Post(ctl, ls[0]), ls[1..])
  }

  /** A failed assertion stops server `x`. */
  function Stop(s: State, x: Addr): State {
    if s.live == {x} then s.(lost := true) else s.(live := s.live - {x})
  }

  ghost function Apply(s: State, l: Label): State
    requires Enabled(s, l)
  {
    match l
    case ClientReq(x, r) => Receive(s.(issued := s.issued + {r}), x, r, 0)
    case ClientQuery(x, a) =>
      var n := s.nodes[x];
      var (rep, b) := HandleQuery(n.rep, a);
      if !n.rep.isTail then Stop(s, x)
      else s.(nodes := s.nodes[x := n.(rep := rep)], answers := s.answers + [ToQuery(|n.log|, a, b)])
    case DeliverReq(a, x) =>
      var e := ReqsTo(s, a, x)[0];
      PopReq(Receive(s, x, e.req, e.seqNo), a, x)
    case DeliverAck(a, x) =>
      PopAck(Settle(s, x, ReceiveAck(s.nodes[x].rep, AcksTo(s, a, x)[0])), a, x)
    case DeliverCtl(x) => PopCtl(HandleNotice(s, x, CtlOf(s, x)[0]), x)
    case MasterRelay =>
      var m := s.inbox[0];
      s.(inbox := s.inbox[1..], ctl := Post(s.ctl, Letter(m.pre, NewSucc(m.succ, m.n))))
    case Crash(x) => s.(live := s.live - {x})
    case Detect(x) =>
      var (ro, letters) := NotifyCrash(s.roster, x);
      s.(roster := ro, ctl := PostAll(s.ctl, letters))
    case BankReply(x, id, account) => Settle(s, x, TransferReply(s.nodes[x].rep, id, account))
    case OtherBankHead(x, bank) => Settle(s, x, HandleNewHead(s.nodes[x].rep, bank))
  }

  function Numbers(n: nat): (r: set<Addr>)
    ensures forall i: Addr :: i in r <==> i < n
  {
    if n == 0 then {} else Numbers(n - 1) + {n - 1}
  }

  /** Server `i` of a chain of `n`, before its first request. */
  function InitialNode(n: nat, i: Addr): Node {
    Node(Fresh(i == 0, i + 1 == n, if i > 0 then Some(i - 1) else None, if i + 1 < n then Some(i + 1) else None), [])
  }

  function Initial(bank: BankId, n: nat, pinned: bool): State
    requires n > 0
  {
    State(map i | i in Numbers(n) :: InitialNode(n, i), Numbers(n),
          Roster(bank, seq(n, i => i), 0, n - 1, None),
          map[], map[], map[], [], {}, [], {}, pinned, false, false)
  }

  ghost predicate IsRun(s: State, ls: seq<Label>)
    decreases |ls|
  {
    ls != [] ==> Enabled(s, ls[0]) && IsRun(Apply(s, ls[0]), ls[1..])
  }

  ghost function After(s: State, ls: seq<Label>): State
    requires IsRun(s, ls)
    decreases |ls|
  {
    if ls == [] then s else After(Apply(s, ls[0]), ls[1..])
  }

  // --------------------------------------------------------------- invariant

  ghost predicate Live(s: State, x: Addr) { x in s.live && x in s.nodes }

  function L(s: State, x: Addr): seq<Request>
    requires x in s.nodes
  {
    s.nodes[x].log
  }

  ghost predicate Increasing(servers: seq<Addr>) {
    forall i, j :: 0 <= i < j < |servers| ==> servers[i] < servers[j]
  }

  ghost predicate Structure(s: State) {
    && !s.aborted
    && s.live <= s.nodes.Keys && s.live != {}
    && RosterOk(s.roster) && s.roster.extending == None && Increasing(s.roster.servers)
    && (forall x :: Live(s, x) ==> x in s.roster.servers)
    && (s.pinned ==> s.roster.tail in s.live)
  }

  /** No live server lies between `x` and `y`. */
  ghost predicate Next(s: State, x: Addr, y: Addr) {
    x < y && forall z: Addr :: Live(s, z) ==> !(x < z < y)
  }

  /** Only the first listed server is or becomes head, only the last one tail. */
  ghost predicate Roles(s: State) {
    forall x :: Live(s, x) ==>
      var rep := s.nodes[x].rep;
      && (rep.isHead || ToBeHead in CtlOf(s, x) ==> x == s.roster.head)
      && (rep.isTail || ToBeTail in CtlOf(s, x) ==> x == s.roster.tail)
      && !rep.extending
      && (rep.pre.Some? ==> rep.pre.value < x)
      && (s.pinned ==> ToBeTail !in CtlOf(s, x) && (x == s.roster.tail ==> rep.isTail))
  }

  /** A later server's log is a prefix of an earlier one's. */
  ghost predicate Prefixes(s: State) {
    forall x, y :: Live(s, x) && Live(s, y) && x < y ==> L(s, y) <= L(s, x)
  }

  predicate Matches(log: seq<Request>, e: Entry) {
    1 <= e.seqNo <= |log| && log[e.seqNo - 1] == e.req
  }

  /** Whatever is on its way to a server, its live predecessors have applied. */
  ghost predicate Contents(s: State) {
    forall a, x, y, e :: Live(s, x) && Live(s, y) && x < y && e in ReqsTo(s, a, y) ==> Matches(L(s, x), e)
  }

  function Max(a: nat, b: nat): nat { if a < b then b else a }

  /** How far a server at `n` gets by taking everything in `q`. */
  function Reach(q: seq<Entry>, n: nat): nat {
    if q == [] then n else Reach(q[1..], Max(n, q[0].seqNo))
  }

  /** Taking `q` in order, a server at `n` never meets a gap. */
  ghost predicate NoGap(q: seq<Entry>, n: nat) {
    q != [] ==> q[0].seqNo <= n + 1 && NoGap(q[1..], Max(n, q[0].seqNo))
  }

  ghost predicate Gaps(s: State) {
    forall a, y :: Live(s, y) && !s.nodes[y].rep.isHead ==> NoGap(ReqsTo(s, a, y), |L(s, y)|)
  }

  /** Every live server has applied update number `k`. */
  ghost predicate Everywhere(s: State, k: nat) {
    forall x :: Live(s, x) ==> k <= |L(s, x)|
  }

  /** What is acked, or counted as acked, is everywhere. */
  ghost predicate AckBound(s: State) {
    && (forall a, y, k :: k in AcksTo(s, a, y) ==> Everywhere(s, k))
    && (forall y :: Live(s, y) ==> Everywhere(s, Acked(s.nodes[y].rep)))
    && (s.pinned ==> forall a: Addr, k: nat :: k !in AcksTo(s, a, s.roster.tail))
  }

  /** A server whose successor is alive is linked to the next live server and
      has sent it everything it has itself. */
  ghost predicate Links(s: State) {
    forall x: Addr, y: Addr :: Live(s, x) && Live(s, y) && s.nodes[x].rep.succ == Some(y) ==>
      Next(s, x, y) && Reach(ReqsTo(s, x, y), |L(s, y)|) >= |L(s, x)|
  }

  /** Repair messages join neighbours and carry a number that S+ has reached. */
  ghost predicate Repairs(s: State) {
    && (forall x: Addr, y: Addr :: Live(s, y) && NewPre(x) in CtlOf(s, y) ==> x < y && (Live(s, x) ==> Next(s, x, y)))
    && (forall m :: m in s.inbox && Live(s, m.pre) && Live(s, m.succ) ==>
          Next(s, m.pre, m.succ) && m.n <= |L(s, m.succ)|)
    && (forall x: Addr, y: Addr, n: nat :: Live(s, x) && Live(s, y) && NewSucc(y, n) in CtlOf(s, x) ==>
          Next(s, x, y) && n <= |L(s, y)|)
  }

  ghost predicate Books(s: State) {
    forall x :: Live(s, x) ==> Refines(s.nodes[x].rep, L(s, x))
  }

  ghost predicate Origins(s: State) {
    && OneAccount(s.issued)
    && (forall r :: r in s.issued && r.kind == Transfer ==> s.pinned)
    && (forall x, r :: Live(s, x) && r in L(s, x) ==> r in s.issued)
    && (forall a, y, e :: e in ReqsTo(s, a, y) ==> e.req in s.issued)
  }

  ghost predicate AnswerOk(log: seq<Request>, a: Answer) {
    match a
    case ToUpdate(e) => IsEntry(log, e)
    case ToQuery(k, account, balance) => k <= |log| && balance == Balance(Run(log[..k]).balances, account)
  }

  ghost predicate Replies(s: State) {
    && (forall x, a :: Live(s, x) && a in s.answers ==> AnswerOk(L(s, x), a))
    && (forall x, e :: Live(s, x) && e in s.forwarded ==> IsEntry(L(s, x), e) && PendingTransfer(e))
  }

  ghost predicate Inv(s: State) {
    && Structure(s) && Roles(s) && Prefixes(s) && Contents(s) && Gaps(s) && AckBound(s)
    && Links(s) && Repairs(s) && Books(s) && Origins(s) && Replies(s)
  }
}
