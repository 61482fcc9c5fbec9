/** Transfers between two chains, in both directions at once. A tail forwards each new successful
    transfer to the other bank's head, again whenever it is told of a new head there, and withholds
    its acks until nothing is pending; the other bank answers what its tail applies. A forwarded
    request may arrive any number of times or never, and so may the replies. Either chain may
    crash as it likes, except for the tail of a chain that sends transfers. */
module Transfers {
  import opened Bank
  import opened Replicas
  import opened Masters
  import opened Chains
  import opened ChainSteps
  import opened ChainResults

  /** Two chains, seen in the direction from `src` to `dst`. */
  datatype Pair = Pair(src: State, dst: State)

  /** The same two chains, seen in the other direction. */
  function Swap(p: Pair): Pair { Pair(p.dst, p.src) }

  /** A step of either chain, or a reply of one bank's tail to a transfer that reaches the other's. */
  datatype PairLabel =
    | Src(l: Label)
    | Dst(l: Label)
    | AnswerSrc(x: Addr, d: Entry)
    | AnswerDst(x: Addr, d: Entry)

  /** What reaches `src` as a client's request: a transfer forwarded to this bank, or a request of this bank's own
      clients. A client's request id belongs to one bank; it reaches the other bank only as a forwarded transfer. */
  ghost predicate MayIssue(p: Pair, r: Request) {
    if r.kind == TransferTo then
      exists e :: e in p.dst.forwarded && r == Outgoing(e.req) && e.req.destBank == p.src.roster.bank
    else forall q :: q in p.dst.issued && q.id == r.id ==> q.kind == TransferTo
  }

  ghost predicate SideEnabled(p: Pair, k: Label) {
    Enabled(p.src, k) && !k.BankReply? && (k.ClientReq? ==> MayIssue(p, k.r))
  }

  ghost predicate AnswerEnabled(p: Pair, x: Addr, d: Entry) {
    Chains.ToUpdate(d) in p.dst.answers && d.req.kind == TransferTo &&
    Enabled(p.src, BankReply(x, d.reply.id, d.reply.account))
  }

  ghost predicate PairEnabled(p: Pair, l: PairLabel) {
    match l
    case Src(k) => SideEnabled(p, k)
    case Dst(k) => SideEnabled(Swap(p), k)
    case AnswerSrc(x, d) => AnswerEnabled(p, x, d)
    case AnswerDst(x, d) => AnswerEnabled(Swap(p), x, d)
  }

  ghost function PairApply(p: Pair, l: PairLabel): Pair
    requires PairEnabled(p, l)
  {
    match l
    case Src(k) => p.(src := Apply(p.src, k))
    case Dst(k) => p.(dst := Apply(p.dst, k))
    case AnswerSrc(x, d) => p.(src := Apply(p.src, BankReply(x, d.reply.id, d.reply.account)))
    case AnswerDst(x, d) => p.(dst := Apply(p.dst, BankReply(x, d.reply.id, d.reply.account)))
  }

  // --------------------------------------------------------------- invariant

  function Tail(s: State): Addr { s.roster.tail }

  ghost predicate Applied(dst: State, r: Request) {
    Sane(dst) && Outgoing(r) in Committed(dst)
  }

  /** Two requests of different banks share an id only if one of them is the other, forwarded. */
  ghost predicate Ids(p: Pair) {
    forall r, q :: r in p.src.issued && q in p.dst.issued && r.id == q.id ==>
      (r.kind == TransferTo <==> q.kind != TransferTo)
  }

  /** Incoming transfers arrive only by being forwarded. */
  ghost predicate Sources(p: Pair) {
    forall r :: r in p.dst.issued && r.kind == TransferTo ==> exists e :: e in p.src.forwarded && r == Outgoing(e.req)
  }

  /** Each successful transfer the source committed was forwarded, and is still pending or has been applied. */
  ghost predicate Tracked(p: Pair) {
    Tail(p.src) in p.src.nodes &&
    var n := p.src.nodes[Tail(p.src)];
    forall i :: 0 <= i < |n.log| && PendingTransfer(EntryAt(n.log, i)) ==>
      EntryAt(n.log, i) in p.src.forwarded && (EntryAt(n.log, i) in n.rep.sent || Applied(p.dst, n.log[i]))
  }

  /** All transfers among the first `k` entries of `log` have been applied at the destination. */
  ghost predicate Settled(log: seq<Request>, dst: State, k: nat) {
    forall i :: 0 <= i < k && i < |log| && PendingTransfer(EntryAt(log, i)) ==> Applied(dst, log[i])
  }

  /** Acks, and what servers before the tail dropped from their sent lists, stay below unapplied transfers. */
  ghost predicate AcksSettled(p: Pair) {
    Tail(p.src) in p.src.nodes &&
    var log := L(p.src, Tail(p.src));
    && (forall a, y, k :: k in AcksTo(p.src, a, y) ==> Settled(log, p.dst, k))
    && (forall y: Addr :: Live(p.src, y) && y != Tail(p.src) ==> Settled(log, p.dst, Acked(p.src.nodes[y].rep)))
  }

  /** Transfers from `src` to `dst` are in order. */
  ghost predicate Direction(p: Pair) {
    Sources(p) && (p.src.pinned ==> Tracked(p) && AcksSettled(p))
  }

  ghost predicate PairInv(p: Pair) {
    Inv(p.src) && Inv(p.dst) && Ids(p) && Direction(p) && Direction(Swap(p))
  }

  lemma {:induction false} SwapInv(p: Pair)
    requires PairInv(p)
    ensures PairInv(Swap(p))
  {
    hide Inv, Direction;
  }

  // --------------------------------------------------------- facts about logs

  lemma {:induction false} NewUnique(log: seq<Request>, i: nat, j: nat)
    requires i < |log| && j < |log| && KeyOf(log[i]) == KeyOf(log[j])
    requires EntryAt(log, i).check == NewReq && EntryAt(log, j).check == NewReq
    ensures i == j
  {
    hide Run, Serve, EntryAt;
    if i < j { NewNotAfter(log, i, j); }
    if j < i { NewNotAfter(log, j, i); }
  }

  lemma {:induction false} NewNotAfter(log: seq<Request>, i: nat, j: nat)
    requires i < j < |log| && KeyOf(log[i]) == KeyOf(log[j])
    ensures EntryAt(log, j).check != NewReq
  {
    hide Run, Serve, EntryAt;
    JudgedAgainst(log, j);
    assert KeyOf(log[..j][i]) == KeyOf(log[j]);
  }

  /** A reply carries the id and the account of the request it answers. */
  lemma {:induction false} ReplyKey(log: seq<Request>, i: nat)
    requires i < |log|
    ensures EntryAt(log, i).reply.id == log[i].id && EntryAt(log, i).reply.account == log[i].account
  {
    HistoryIsFirsts(log[..i], KeyOf(log[i]));
    if HasKey(log[..i], KeyOf(log[i])) {
      var f := FirstIndex(log[..i], KeyOf(log[i]));
      HistoryIsFirsts(log[..i][..f], KeyOf(log[i]));
    }
  }

  lemma {:induction false} TailLive(s: State)
    requires Inv(s) && s.pinned
    ensures Live(s, Tail(s)) && s.nodes[Tail(s)].rep.isTail && !s.nodes[Tail(s)].rep.extending
    ensures Sane(s) && LastLive(s) == Tail(s) && Committed(s) == L(s, Tail(s))
  {
    hide Contents, Gaps, AckBound, Links, Repairs, Books, Origins, Replies, Prefixes, RosterOk;
    InvSane(s);
    assert Live(s, Tail(s)) && Live(s, LastLive(s));
    NothingAfterTail(s, Tail(s));
  }

  /** Two forwarded transfers with one id are the same. */
  lemma {:induction false} ForwardedUnique(s: State, d: Entry, e: Entry)
    requires Inv(s) && s.pinned && d.req.id == e.req.id
    requires IsEntry(L'(s), d) && PendingTransfer(d) && IsEntry(L'(s), e) && PendingTransfer(e)
    ensures d == e
  {
    hide Inv, Run, Serve, EntryAt;
    TailLive(s);
    InvOrigins(s);
    var log := L'(s);
    EntryFields(log, d.seqNo - 1);
    EntryFields(log, e.seqNo - 1);
    assert d.req in log && e.req in log;
    NewUnique(log, d.seqNo - 1, e.seqNo - 1);
  }

  /** The source tail's log. */
  function L'(s: State): seq<Request> { if Tail(s) in s.nodes then L(s, Tail(s)) else [] }

  lemma {:induction false} ForwardedIsEntry(s: State, e: Entry)
    requires Inv(s) && s.pinned && e in s.forwarded
    ensures IsEntry(L'(s), e) && PendingTransfer(e)
  {
    hide Inv, IsEntry;
    TailLive(s);
    InvOrigins(s);
  }

  /** Only a chain whose tail does not crash forwards transfers. */
  lemma {:induction false} ForwardedPinned(s: State, e: Entry)
    requires Inv(s) && e in s.forwarded
    ensures s.pinned
  {
    hide Inv, Run, Serve, EntryAt;
    InvSane(s);
    InvOrigins(s);
    assert Live(s, LastLive(s));
    EntryFields(Committed(s), e.seqNo - 1);
    assert e.req in Committed(s);
  }

  lemma {:induction false} NothingForwarded(s: State)
    requires Inv(s)
    ensures s.pinned || s.forwarded == {}
  {
    hide Inv;
    forall e ensures e in s.forwarded ==> s.pinned { if e in s.forwarded { ForwardedPinned(s, e); } }
  }

  /** Requests of the destination that share an id with an incoming transfer are that transfer. */
  lemma {:induction false} IncomingUnique(p: Pair, q: Request, r: Request)
    requires Inv(p.src) && Ids(p) && Sources(p)
    requires q in p.dst.issued && r in p.dst.issued && q.id == r.id && r.kind == TransferTo
    ensures q == r
  {
    hide Inv, IsEntry;
    var e :| e in p.src.forwarded && r == Outgoing(e.req);
    ForwardedPinned(p.src, e);
    ForwardedIsEntry(p.src, e);
    ForwardedIssued(p.src, e);
    assert q.kind == TransferTo;
    var d :| d in p.src.forwarded && q == Outgoing(d.req);
    ForwardedIsEntry(p.src, d);
    ForwardedUnique(p.src, d, e);
  }

  lemma {:induction false} ForwardedIssued(s: State, e: Entry)
    requires Inv(s) && s.pinned && e in s.forwarded
    ensures e.req in s.issued && e.req in L'(s)
  {
    hide Inv, Run, Serve, EntryAt;
    ForwardedIsEntry(s, e);
    TailLive(s);
    InvOrigins(s);
    EntryFields(L'(s), e.seqNo - 1);
  }

  /** A forwarded transfer is always accepted by the destination's environment assumption. */
  lemma {:induction false} ForwardedMayArrive(p: Pair, e: Entry, x: Addr)
    requires PairInv(p) && e in p.src.forwarded && e.req.destBank == p.dst.roster.bank
    requires x in p.dst.live && x in p.dst.nodes && !p.dst.lost
    ensures PairEnabled(p, Dst(ClientReq(x, Outgoing(e.req))))
  {
    hide Inv, IsEntry, Tracked, AcksSettled;
    var r := Outgoing(e.req);
    ForwardedPinned(p.src, e);
    ForwardedIssued(p.src, e);
    ForwardedIsEntry(p.src, e);
    InvOrigins(p.dst);
    forall q | q in p.dst.issued && q.id == r.id ensures q.account == r.account {
      assert q.kind == TransferTo;
      var d :| d in p.src.forwarded && q == Outgoing(d.req);
      ForwardedIsEntry(p.src, d);
      ForwardedUnique(p.src, d, e);
    }
  }

  // ------------------------------------------------------- the source's steps

  /** What one step does to the source's tail, to the forwarded transfers and to the acks. */
  datatype Move = Idle | Took(r: Request) | Freed(id: ReqId, account: AccountId)

  ghost predicate TailMoved(s: State, t: State, m: Move) {
    Tail(t) == Tail(s) && Tail(s) in s.nodes && Tail(s) in t.nodes &&
    var n, n' := s.nodes[Tail(s)], t.nodes[Tail(s)];
    match m
    case Idle => n'.log == n.log && n'.rep.sent == n.rep.sent && s.forwarded <= t.forwarded &&
                 forall e :: e in t.forwarded ==> e in s.forwarded || e in n.rep.sent
    case Took(r) =>
      var e := EntryAt(n.log + [r], |n.log|);
      n'.log == n.log + [r] && n'.rep.sent == TailSent(n.rep, e) &&
      t.forwarded == s.forwarded + (if PendingTransfer(e) then {e} else {})
    case Freed(id, account) =>
      n'.log == n.log && n'.rep.sent == Unanswered(n.rep.sent, id, account) && t.forwarded == s.forwarded
  }

  /** An ack is old, or the tail sent it with nothing pending; what a server counts as acked was, or was acked to it. */
  ghost predicate AcksMoved(s: State, t: State) {
    Tail(s) in t.nodes &&
    (forall a, y, k :: k in AcksTo(t, a, y) ==>
       (exists b, z :: k in AcksTo(s, b, z)) || (k == |L(t, Tail(s))| && t.nodes[Tail(s)].rep.sent == [])) &&
    (forall y: Addr :: Live(t, y) && y != Tail(s) ==>
       Live(s, y) &&
       (Acked(t.nodes[y].rep) <= Acked(s.nodes[y].rep) ||
        exists b, z, k :: k in AcksTo(s, b, z) && Acked(t.nodes[y].rep) <= k))
  }

  ghost predicate OtherEmit(s: State, z: Addr, n: Node, out: Out) {
    Live(s, z) && out.transfers == [] &&
    (forall k :: k in out.acks ==> exists b, y :: k in AcksTo(s, b, y)) &&
    (Acked(n.rep) <= Acked(s.nodes[z].rep) || exists b, y, k :: k in AcksTo(s, b, y) && Acked(n.rep) <= k)
  }

  ghost predicate TailEmit(s: State, n: Node, out: Out, m: Move) {
    Live(s, Tail(s)) &&
    (forall k :: k in out.acks ==> k == |n.log| && n.rep.sent == []) &&
    var log, sent := L(s, Tail(s)), s.nodes[Tail(s)].rep.sent;
    match m
    case Idle => n.log == log && n.rep.sent == sent && forall e :: e in out.transfers ==> e in sent
    case Took(r) =>
      var e := EntryAt(log + [r], |log|);
      n.log == log + [r] && n.rep.sent == TailSent(s.nodes[Tail(s)].rep, e) &&
      out.transfers == (if PendingTransfer(e) then [e] else [])
    case Freed(id, account) =>
      n.log == log && n.rep.sent == Unanswered(sent, id, account) && out.transfers == []
  }

  /** Server `z` moves; when it is not the tail it forwards no transfer, sends
      only known acks, and counts nothing as acked that was not. */
  lemma {:induction false} EmitMoves(s: State, z: Addr, n: Node, out: Out, m: Move)
    requires Inv(s) && s.pinned && Live(s, z)
    requires if z == Tail(s) then TailEmit(s, n, out, m) else m == Idle && OtherEmit(s, z, n, out)
    ensures TailMoved(s, Emit(s, z, n, out), m) && AcksMoved(s, Emit(s, z, n, out))
  {
    hide Inv, Run, Serve, EntryAt, Acked, Unanswered, TailSent, AcksTo;
    TailLive(s);
    EmitFrame(s, z, n, out);
    var t := Emit(s, z, n, out);
    forall a: Addr, y: Addr, k: nat | k in AcksTo(t, a, y) ensures
      (exists b, w :: k in AcksTo(s, b, w)) || (k == |L(t, Tail(s))| && t.nodes[Tail(s)].rep.sent == [])
    {
      assert k in AcksTo(s, a, y) || k in out.acks;
    }
  }

  /** What a step of the source does to its tail. */
  function MoveOf(s: State, l: Label): Move {
    match l
    case ClientReq(z, r) => if z == Tail(s) && z in s.nodes && s.nodes[z].rep.isHead then Took(r) else Idle
    case DeliverReq(a, z) =>
      var q := ReqsTo(s, a, z);
      if z == Tail(s) && z in s.nodes && q != [] && (s.nodes[z].rep.isHead || q[0].seqNo == |L(s, z)| + 1)
      then Took(q[0].req) else Idle
    case BankReply(z, id, account) => if z == Tail(s) then Freed(id, account) else Idle
    case _ => Idle
  }

  lemma {:induction false} ReceiveMoves(s: State, z: Addr, r: Request, stamp: nat)
    requires Inv(s) && s.pinned && MayTake(s, z, r, stamp)
    ensures var t := Receive(s, z, r, stamp);
            var taken := z == Tail(s) && (s.nodes[z].rep.isHead || stamp == |L(s, z)| + 1);
            TailMoved(s, t, if taken then Took(r) else Idle) && AcksMoved(s, t)
  {
    hide Structure, Roles, Prefixes, Contents, Gaps, AckBound, Links, Repairs, Replies, Refines, Emit, Conclude,
      Relay, TailMoved, AcksMoved, EntryAt, Run, Serve;
    TailLive(s);
    var rep, log := s.nodes[z].rep, L(s, z);
    NamesFromIssued(s, z, r);
    RefinesLength(rep, log);
    if rep.isHead || stamp == |log| + 1 {
      if rep.isTail { ConcludeMove(s, z, r); } else { RelayMove(s, z, r); }
    } else {
      EmitMoves(s, z, s.nodes[z], SILENT, Idle);
    }
  }

  lemma {:induction false} ConcludeMove(s: State, z: Addr, r: Request)
    requires Inv(s) && s.pinned && Live(s, z) && s.nodes[z].rep.isTail && r in s.issued
    ensures var t := Conclude(s.nodes[z].rep, r, |L(s, z)| + 1);
            var u := Emit(s, z, Node(t.rep, L(s, z) + [r]), t.out);
            z == Tail(s) && t.Done? && t.rep.seqNo == |L(s, z)| + 1 &&
            TailMoved(s, u, Took(r)) && AcksMoved(s, u)
  {
    hide Structure, Prefixes, Contents, Gaps, AckBound, Links, Repairs, Replies, Refines, Emit, Conclude, TailMoved,
      AcksMoved, EntryAt, Run, Serve;
    TailLive(s);
    var rep, log := s.nodes[z].rep, L(s, z);
    NamesFromIssued(s, z, r);
    RefinesLength(rep, log);
    ConcludeRefines(rep, log, r);
    ConcludeTransfers(rep, log, r);
    var t := Conclude(rep, r, |log| + 1);
    RefinesLength(t.rep, log + [r]);
    EmitMoves(s, z, Node(t.rep, log + [r]), t.out, Took(r));
  }

  lemma {:induction false} ConcludeTransfers(rep: Replica, log: seq<Request>, r: Request)
    requires Refines(rep, log) && NamesAccount(log, r) && rep.isTail
    ensures var t := Conclude(rep, r, |log| + 1); var e := EntryAt(log + [r], |log|);
            t.Done? && t.out.transfers == if PendingTransfer(e) then [e] else []
  {
    hide Run, Serve, EntryAt, UpdateReply, Conclude, PendingTransfer;
    UpdateReplyRefines(rep, log, r);
    ConcludeShape(rep, r, |log| + 1);
  }

  lemma {:induction false} RelayMove(s: State, z: Addr, r: Request)
    requires Inv(s) && s.pinned && Live(s, z) && !s.nodes[z].rep.isTail && r in s.issued
    ensures var t := Relay(s.nodes[z].rep, r, |L(s, z)| + 1);
            var u := Emit(s, z, Node(t.rep, L(s, z) + [r]), t.out);
            z != Tail(s) && t.Done? && t.rep.seqNo == |L(s, z)| + 1 &&
            TailMoved(s, u, Idle) && AcksMoved(s, u)
  {
    hide Structure, Roles, Prefixes, Contents, Gaps, AckBound, Links, Repairs, Replies, Refines, Emit, Relay,
      TailMoved, AcksMoved, EntryAt, Run, Serve;
    TailLive(s);
    var rep, log := s.nodes[z].rep, L(s, z);
    NamesFromIssued(s, z, r);
    RefinesLength(rep, log);
    RelayRefines(rep, log, r);
    var t := Relay(rep, r, |log| + 1);
    RefinesLength(t.rep, log + [r]);
    EmitMoves(s, z, Node(t.rep, log + [r]), t.out, Idle);
  }

  lemma {:induction false} AckMoves(s: State, a: Addr, z: Addr)
    requires Inv(s) && s.pinned && Enabled(s, DeliverAck(a, z))
    ensures var t := Settle(s, z, ReceiveAck(s.nodes[z].rep, AcksTo(s, a, z)[0]));
            TailMoved(s, t, Idle) && AcksMoved(s, t)
  {
    hide Structure, Roles, Prefixes, Contents, Gaps, Links, Repairs, Replies, Refines, Emit, TailMoved, AcksMoved,
      EntryAt, Run, Serve, Acknowledge, AcksTo;
    TailLive(s);
    var rep, k := s.nodes[z].rep, AcksTo(s, a, z)[0];
    assert k in AcksTo(s, a, z);
    assert z != Tail(s);
    if rep.isTail { TailIs(s, z); }
    AcknowledgeRefines(rep, L(s, z), k);
    EmitMoves(s, z, Node(ReceiveAck(rep, k).rep, L(s, z)), ReceiveAck(rep, k).out, Idle);
  }

  lemma {:induction false} TailIs(s: State, z: Addr)
    requires Inv(s) && Live(s, z) && s.nodes[z].rep.isTail
    ensures z == Tail(s)
  {
    hide Structure, Prefixes, Contents, Gaps, Links, Repairs, Replies, Books, Origins, AckBound;
  }

  lemma {:induction false} NoticeMoves(s: State, z: Addr, c: Notice)
    requires Inv(s) && s.pinned && Live(s, z) && c in CtlOf(s, z)
    ensures TailMoved(s, HandleNotice(s, z, c), Idle) && AcksMoved(s, HandleNotice(s, z, c))
  {
    hide Structure, Prefixes, Contents, Gaps, AckBound, Links, Repairs, Replies, Refines, EntryAt, Run, Serve, CtlOf,
      Emit, Above, Promote, TransfersOf;
    TailLive(s);
    var rep, log := s.nodes[z].rep, L(s, z);
    assert c != ToBeTail;
    match c {
      case ToBeHead => EmitMoves(s, z, Node(Replicas.ToBeHead(rep).rep, log), SILENT, Idle);
      case NewPre(p) => EmitMoves(s, z, Node(NewPreServer(rep, p).rep, log), SILENT, Idle);
      case NewSucc(y, n) =>
        EmitMoves(s, z, Node(NewSuccServer(rep, y, n).rep, log), NewSuccServer(rep, y, n).out, Idle);
      case NewHead(bank, _) => NewHeadMoves(s, z, bank);
      case _ =>
    }
    if c.NewPre? {
      var u := Emit(s, z, Node(NewPreServer(rep, c.pre).rep, log), SILENT);
      AlikeAcks(u, HandleNotice(s, z, c));
    }
  }

  lemma {:induction false} NewHeadMoves(s: State, z: Addr, bank: BankId)
    requires Inv(s) && s.pinned && Live(s, z)
    ensures var t := Settle(s, z, HandleNewHead(s.nodes[z].rep, bank)); TailMoved(s, t, Idle) && AcksMoved(s, t)
  {
    hide Inv, Run, Serve, EntryAt, Emit, HandleNewHead, TailMoved, AcksMoved, Refines;
    TailLive(s);
    InvBooks(s, z);
    NotExtending(s, z);
    NewHeadOut(s.nodes[z].rep, L(s, z), bank);
    var t := HandleNewHead(s.nodes[z].rep, bank);
    if s.nodes[z].rep.isTail { TailIs(s, z); }
    EmitMoves(s, z, Node(t.rep, L(s, z)), t.out, Idle);
  }

  lemma {:induction false} NotExtending(s: State, z: Addr)
    requires Inv(s) && Live(s, z)
    ensures !s.nodes[z].rep.extending
  {
    hide Structure, Prefixes, Contents, Gaps, Links, Repairs, Replies, Books, Origins, AckBound;
  }

  lemma {:induction false} BankReplyMoves(s: State, z: Addr, id: ReqId, account: AccountId)
    requires Inv(s) && Enabled(s, BankReply(z, id, account))
    ensures var t := Apply(s, BankReply(z, id, account)); TailMoved(s, t, Freed(id, account)) && AcksMoved(s, t)
  {
    hide Structure, Prefixes, Contents, Gaps, AckBound, Links, Repairs, Replies, Refines, EntryAt, Run, Serve, Emit,
      Answered, Unanswered, TailMoved, AcksMoved;
    TailLive(s);
    TailIs(s, z);
    var rep, log := s.nodes[z].rep, L(s, z);
    RefinesLength(rep, log);
    var t := TransferReply(rep, id, account);
    EmitMoves(s, z, Node(t.rep, log), t.out, Freed(id, account));
  }

  /** The moves of a state survive dropping messages and touching what they do not mention. */
  lemma {:induction false} MoveFrame(s: State, s1: State, t1: State, t: State, m: Move)
    requires TailMoved(s1, t1, m) && AcksMoved(s1, t1)
    requires s1 == s.(issued := s1.issued)
    requires t.nodes == t1.nodes && t.live <= t1.live && t.forwarded == t1.forwarded && Tail(t) == Tail(t1)
    requires forall a: Addr, y: Addr, k: nat :: k in AcksTo(t, a, y) ==> k in AcksTo(t1, a, y)
    ensures TailMoved(s, t, m) && AcksMoved(s, t)
  {
    hide Run, Serve, EntryAt, Acked, TailSent, Unanswered, AcksTo;
    AlikeAcks(s, s1);
    assert forall y: Addr :: Live(t, y) ==> Live(t1, y);
    assert forall y: Addr :: Live(s1, y) ==> Live(s, y);
  }

  lemma {:induction false} IdleStill(s: State)
    requires Inv(s) && s.pinned
    ensures TailMoved(s, s, Idle) && AcksMoved(s, s)
  {
    hide Inv, AcksTo;
    TailLive(s);
  }

  lemma {:induction false} StepMoves(s: State, l: Label)
    requires Inv(s) && s.pinned && Enabled(s, l)
    ensures TailMoved(s, Apply(s, l), MoveOf(s, l)) && AcksMoved(s, Apply(s, l))
  {
    hide Inv, TailMoved, AcksMoved, Receive, Settle, HandleNotice, NotifyCrash, PostAll, RosterOk, Post, MayTake,
      Acknowledge, ReqsTo, AcksTo, CtlOf, PopReq, PopAck, PopCtl, TransferReply;
    var t := Apply(s, l);
    TailLive(s);
    match l {
      case ClientReq(z, r) => ClientMoves(s, z, r);
      case ClientQuery(z, a) =>
        if s.nodes[z].rep.isTail {
          QueryMoves(s, z, a);
        } else {
          IdleStill(s);
          AlikeAcks(s, t);
          MoveFrame(s, s, s, t, Idle);
        }
      case DeliverReq(a, z) => DeliverReqMoves(s, a, z);
      case DeliverAck(a, z) =>
        AckMoves(s, a, z);
        var u := Settle(s, z, ReceiveAck(s.nodes[z].rep, AcksTo(s, a, z)[0]));
        PopFacts(u, a, z);
        MoveFrame(s, s, u, t, Idle);
      case DeliverCtl(z) =>
        var c := CtlOf(s, z)[0];
        NoticeMoves(s, z, c);
        var u := HandleNotice(s, z, c);
        PopFacts(u, z, z);
        MoveFrame(s, s, u, t, Idle);
      case MasterRelay => IdleStill(s); AlikeAcks(s, t); MoveFrame(s, s, s, t, Idle);
      case Crash(z) => IdleStill(s); AlikeAcks(s, t); MoveFrame(s, s, s, t, Idle);
      case Detect(z) => IdleStill(s); AlikeAcks(s, t); DetectTail(s, z); MoveFrame(s, s, s, t, Idle);
      case BankReply(z, id, account) => TailIs(s, z); BankReplyMoves(s, z, id, account);
      case OtherBankHead(z, bank) => NewHeadMoves(s, z, bank);
    }
  }

  lemma {:induction false} DetectTail(s: State, z: Addr)
    requires Inv(s) && s.pinned && Enabled(s, Detect(z))
    ensures Tail(Apply(s, Detect(z))) == Tail(s)
  {
    hide Inv, NotifyCrash, PostAll, RosterOk;
    InvStructure(s);
    DetectRoster(s, z);
  }

  lemma {:induction false} PopFacts(u: State, a: Addr, z: Addr)
    ensures var t := PopAck(u, a, z);
            t == u.(acks := t.acks) && forall b: Addr, y: Addr, k: nat :: k in AcksTo(t, b, y) ==> k in AcksTo(u, b, y)
    ensures var t := PopCtl(u, z);
            t == u.(ctl := t.ctl) && forall b: Addr, y: Addr :: AcksTo(t, b, y) == AcksTo(u, b, y)
    ensures var t := PopReq(u, a, z);
            t == u.(reqs := t.reqs) && forall b: Addr, y: Addr :: AcksTo(t, b, y) == AcksTo(u, b, y)
  {
    hide PopAck, PopCtl, PopReq, AcksTo;
    PopAckFacts(u, a, z);
    PopCtlFacts(u, z);
    PopReqFacts(u, a, z);
    AlikeAcks(u, PopCtl(u, z));
    AlikeAcks(u, PopReq(u, a, z));
  }

  lemma {:induction false} PopAckFacts(u: State, a: Addr, z: Addr)
    ensures var t := PopAck(u, a, z);
            t == u.(acks := t.acks) && forall b: Addr, y: Addr, k: nat :: k in AcksTo(t, b, y) ==> k in AcksTo(u, b, y)
  {
  }

  lemma {:induction false} PopCtlFacts(u: State, z: Addr)
    ensures PopCtl(u, z) == u.(ctl := PopCtl(u, z).ctl)
  {
    hide CtlOf;
  }

  lemma {:induction false} PopReqFacts(u: State, a: Addr, z: Addr)
    ensures PopReq(u, a, z) == u.(reqs := PopReq(u, a, z).reqs)
  {
    hide ReqsTo;
  }

  lemma {:induction false} ClientMoves(s: State, z: Addr, r: Request)
    requires Inv(s) && s.pinned && Enabled(s, ClientReq(z, r))
    ensures var t := Apply(s, ClientReq(z, r)); TailMoved(s, t, MoveOf(s, ClientReq(z, r))) && AcksMoved(s, t)
  {
    hide Inv, TailMoved, AcksMoved, Receive;
    var s1 := s.(issued := s.issued + {r});
    IssueKeeps(s, r);
    ReceiveMoves(s1, z, r, 0);
    MoveFrame(s, s1, Receive(s1, z, r, 0), Apply(s, ClientReq(z, r)), MoveOf(s, ClientReq(z, r)));
  }

  lemma {:induction false} DeliverReqMoves(s: State, a: Addr, z: Addr)
    requires Inv(s) && s.pinned && Enabled(s, DeliverReq(a, z))
    ensures var t := Apply(s, DeliverReq(a, z)); TailMoved(s, t, MoveOf(s, DeliverReq(a, z))) && AcksMoved(s, t)
  {
    hide Inv, TailMoved, AcksMoved, Receive, MayTake, ReqsTo, PopReq;
    var e := ReqsTo(s, a, z)[0];
    FrontMayBeTaken(s, a, z);
    ReceiveMoves(s, z, e.req, e.seqNo);
    var u := Receive(s, z, e.req, e.seqNo);
    PopFacts(u, a, z);
    MoveFrame(s, s, u, Apply(s, DeliverReq(a, z)), MoveOf(s, DeliverReq(a, z)));
  }

  lemma {:induction false} QueryMoves(s: State, z: Addr, a: AccountId)
    requires Inv(s) && s.pinned && Enabled(s, ClientQuery(z, a)) && s.nodes[z].rep.isTail
    ensures var t := Apply(s, ClientQuery(z, a)); TailMoved(s, t, Idle) && AcksMoved(s, t)
  {
    hide Inv, AcksTo;
    TailLive(s);
    AlikeAcks(s, Apply(s, ClientQuery(z, a)));
  }

  // ------------------------------------------------------- both chains' steps

  lemma {:induction false} ReceiveIssued(s: State, z: Addr, r: Request, stamp: nat)
    requires z in s.nodes
    ensures Receive(s, z, r, stamp).issued == s.issued && Receive(s, z, r, stamp).pinned == s.pinned
  {
    hide ReceiveUpdate;
  }

  lemma {:induction false} IssuedAfter(s: State, l: Label)
    requires Enabled(s, l)
    ensures Apply(s, l).issued == if l.ClientReq? then s.issued + {l.r} else s.issued
    ensures Apply(s, l).pinned == s.pinned
  {
    hide Receive, ReceiveUpdate, PostAll, NotifyCrash, RosterOk, ReqsTo, AcksTo, CtlOf, HandleNotice, TransferReply,
      ReceiveAck, PopReq, PopAck, PopCtl, Emit;
    match l
    case ClientReq(z, r) => ReceiveIssued(s.(issued := s.issued + {r}), z, r, 0);
    case DeliverReq(a, z) =>
      ReceiveIssued(s, z, ReqsTo(s, a, z)[0].req, ReqsTo(s, a, z)[0].seqNo);
      PopFacts(Receive(s, z, ReqsTo(s, a, z)[0].req, ReqsTo(s, a, z)[0].seqNo), a, z);
    case DeliverAck(a, z) =>
      SettleIssued(s, z, ReceiveAck(s.nodes[z].rep, AcksTo(s, a, z)[0]));
      PopFacts(Settle(s, z, ReceiveAck(s.nodes[z].rep, AcksTo(s, a, z)[0])), a, z);
    case DeliverCtl(z) =>
      NoticeIssued(s, z, CtlOf(s, z)[0]);
      PopFacts(HandleNotice(s, z, CtlOf(s, z)[0]), z, z);
    case BankReply(z, id, account) => SettleIssued(s, z, TransferReply(s.nodes[z].rep, id, account));
    case OtherBankHead(z, bank) => SettleIssued(s, z, HandleNewHead(s.nodes[z].rep, bank));
    case _ =>
  }

  lemma {:induction false} SettleIssued(s: State, z: Addr, t: Step)
    requires z in s.nodes
    ensures Settle(s, z, t).issued == s.issued && Settle(s, z, t).pinned == s.pinned
  {
  }

  lemma {:induction false} NoticeIssued(s: State, z: Addr, c: Notice)
    requires z in s.nodes
    ensures HandleNotice(s, z, c).issued == s.issued && HandleNotice(s, z, c).pinned == s.pinned
  {
    hide ReqsTo, AcksTo, Above, Promote, TransfersOf, HandleNewHead;
  }

  /** The source moves while the destination stays: tracking survives, provided
      whatever is freed has been applied. */
  lemma {:induction false} TrackedMove(p: Pair, t: State, m: Move)
    requires Tracked(p) && TailMoved(p.src, t, m)
    requires m.Freed? ==>
               forall e :: e in p.src.nodes[Tail(p.src)].rep.sent && Answers(e, m.id, m.account) ==>
                 Applied(p.dst, e.req)
    requires !p.src.nodes[Tail(p.src)].rep.extending
    ensures Tracked(p.(src := t))
  {
    hide Run, Serve, EntryAt, Applied, PendingTransfer, Unanswered;
    var n, n' := p.src.nodes[Tail(p.src)], t.nodes[Tail(p.src)];
    forall i | 0 <= i < |n'.log| && PendingTransfer(EntryAt(n'.log, i))
      ensures EntryAt(n'.log, i) in t.forwarded && (EntryAt(n'.log, i) in n'.rep.sent || Applied(p.dst, n'.log[i]))
    {
      if i < |n.log| { EntryAtPrefix(n.log, n'.log, i); }
      if m.Freed? {
        EntryFields(n.log, i);
        AnsweredSplit(n.rep.sent, m.id, m.account, EntryAt(n.log, i));
      }
    }
  }

  lemma {:induction false} SettledLess(log: seq<Request>, log': seq<Request>, dst: State, k: nat, j: nat)
    requires Settled(log, dst, k) && j <= k <= |log| && log <= log'
    ensures Settled(log', dst, j)
  {
    hide Run, Serve, EntryAt, PendingTransfer, Applied;
    forall i | 0 <= i < j && PendingTransfer(EntryAt(log', i)) ensures Applied(dst, log'[i]) {
      EntryAtPrefix(log, log', i);
    }
  }

  /** With nothing pending at the tail, everything it has is settled. */
  lemma {:induction false} NothingPending(p: Pair)
    requires Tracked(p) && p.src.nodes[Tail(p.src)].rep.sent == []
    ensures Settled(L(p.src, Tail(p.src)), p.dst, |L(p.src, Tail(p.src))|)
  {
    hide Run, Serve, EntryAt, PendingTransfer, Applied;
  }

  lemma {:induction false} AcksSettledMove(p: Pair, t: State)
    requires Inv(p.src) && p.src.pinned && AcksSettled(p)
    requires AcksMoved(p.src, t) && Tail(t) == Tail(p.src) && Tail(t) in t.nodes
    requires L'(p.src) <= L'(t) && Tracked(p.(src := t))
    ensures AcksSettled(p.(src := t))
  {
    hide Inv, Run, Serve, EntryAt, PendingTransfer, Applied, Tracked, Settled, Acked, AcksTo;
    var x := Tail(p.src);
    TailLive(p.src);
    InvOrigins(p.src);
    var log, log' := L(p.src, x), L(t, x);
    forall a: Addr, y: Addr, k: nat | k in AcksTo(t, a, y) ensures Settled(log', p.dst, k) {
      if b: Addr, z: Addr :| k in AcksTo(p.src, b, z) {
        assert Everywhere(p.src, k);
        SettledLess(log, log', p.dst, k, k);
      } else {
        NothingPending(p.(src := t));
      }
    }
    forall y: Addr | Live(t, y) && y != Tail(t) ensures Settled(log', p.dst, Acked(t.nodes[y].rep)) {
      var j := Acked(t.nodes[y].rep);
      if j <= Acked(p.src.nodes[y].rep) {
        assert Everywhere(p.src, Acked(p.src.nodes[y].rep));
        SettledLess(log, log', p.dst, Acked(p.src.nodes[y].rep), j);
      } else {
        var b: Addr, z: Addr, k: nat :| k in AcksTo(p.src, b, z) && j <= k;
        assert Everywhere(p.src, k);
        SettledLess(log, log', p.dst, k, j);
      }
    }
  }

  lemma {:induction false} MoveGrows(s: State, t: State, m: Move)
    requires TailMoved(s, t, m)
    ensures L'(s) <= L'(t) && s.forwarded <= t.forwarded
  {
    hide Run, Serve, EntryAt;
  }

  /** A chain's own step keeps its outgoing transfers in order ... */
  lemma {:induction false} OwnDirection(p: Pair, l: Label)
    requires PairInv(p) && SideEnabled(p, l)
    ensures Direction(p.(src := Apply(p.src, l)))
  {
    hide Inv, Enabled, Apply, TailMoved, AcksMoved, Tracked, AcksSettled;
    var t := Apply(p.src, l);
    StepKeeps(p.src, l);
    IssuedAfter(p.src, l);
    if p.src.pinned {
      StepMoves(p.src, l);
      MoveGrows(p.src, t, MoveOf(p.src, l));
      TailLive(p.src);
      TailLive(t);
      MoveTail(p.src, t, MoveOf(p.src, l));
      TrackedMove(p, t, MoveOf(p.src, l));
      AcksSettledMove(p, t);
    } else {
      NothingForwarded(p.src);
    }
  }

  /** ... and its incoming ones. */
  lemma {:induction false} OtherDirection(p: Pair, l: Label)
    requires Inv(p.dst) && Direction(p) && Enabled(p.dst, l)
    requires l.ClientReq? && l.r.kind == TransferTo ==> exists e :: e in p.src.forwarded && l.r == Outgoing(e.req)
    ensures Direction(p.(dst := Apply(p.dst, l)))
  {
    hide Inv, Enabled, Apply, Committed, EntryAt, Run, Serve, PendingTransfer, AcksTo, Acked;
    var t := Apply(p.dst, l);
    StepKeeps(p.dst, l);
    IssuedAfter(p.dst, l);
    CommittedStep(p.dst, l);
    forall r | Applied(p.dst, r) ensures Applied(t, r) { }
    forall log: seq<Request>, k: nat | Settled(log, p.dst, k) ensures Settled(log, t, k) { }
    hide Applied, Settled;
  }

  /** A request that may be issued shares its id as it should. */
  lemma {:induction false} IssueIds(p: Pair, r: Request)
    requires PairInv(p) && MayIssue(p, r)
    ensures forall q :: q in p.dst.issued && r.id == q.id ==> (r.kind == TransferTo <==> q.kind != TransferTo)
  {
    hide Inv, IsEntry, Tracked, AcksSettled;
    if r.kind == TransferTo {
      var e :| e in p.dst.forwarded && r == Outgoing(e.req);
      ForwardedPinned(p.dst, e);
      ForwardedIssued(p.dst, e);
      ForwardedIsEntry(p.dst, e);
      forall q | q in p.dst.issued && r.id == q.id ensures q.kind != TransferTo {
        if q.kind == TransferTo {
          var d :| d in p.src.forwarded && q == Outgoing(d.req);
          ForwardedPinned(p.src, d);
          ForwardedIssued(p.src, d);
          ForwardedIsEntry(p.src, d);
          assert false;
        }
      }
    }
  }

  lemma {:induction false} SideKeeps(p: Pair, l: Label)
    requires PairInv(p) && SideEnabled(p, l)
    ensures PairInv(p.(src := Apply(p.src, l)))
  {
    hide Inv, Enabled, Apply, Direction;
    StepKeeps(p.src, l);
    IssuedAfter(p.src, l);
    OwnDirection(p, l);
    OtherDirection(Swap(p), l);
    if l.ClientReq? { IssueIds(p, l.r); }
    hide MayIssue;
  }

  lemma {:induction false} MoveTail(s: State, t: State, m: Move)
    requires TailMoved(s, t, m)
    ensures Tail(t) == Tail(s)
  {
    hide Run, Serve, EntryAt;
  }

  /** A reply of the destination frees only transfers that the destination has applied. */
  lemma {:induction false} AnswerFrees(p: Pair, d: Entry, e: Entry)
    requires Inv(p.src) && p.src.pinned && Inv(p.dst) && Sources(p)
    requires Chains.ToUpdate(d) in p.dst.answers && d.req.kind == TransferTo
    requires Tail(p.src) in p.src.nodes && e in p.src.nodes[Tail(p.src)].rep.sent
    requires Answers(e, d.reply.id, d.reply.account)
    ensures Applied(p.dst, e.req)
  {
    hide Inv, Run, Serve, EntryAt, IsEntry;
    TailLive(p.src);
    InvSane(p.dst);
    InvOrigins(p.dst);
    var log := Committed(p.dst);
    assert Live(p.dst, LastLive(p.dst));
    assert AnswerOk(log, Chains.ToUpdate(d));
    CommittedEntry(p.dst, d);
    var f :| f in p.src.forwarded && d.req == Outgoing(f.req);
    ForwardedIsEntry(p.src, f);
    TailSentPends(p.src, e);
    ForwardedUnique(p.src, e, f);
  }

  lemma {:induction false} CommittedEntry(s: State, d: Entry)
    requires Inv(s) && Sane(s) && IsEntry(Committed(s), d)
    ensures d.req in Committed(s) && d.req in s.issued && d.reply.id == d.req.id && d.reply.account == d.req.account
  {
    hide Inv, Run, Serve, EntryAt;
    InvOrigins(s);
    EntryFields(Committed(s), d.seqNo - 1);
    ReplyKey(Committed(s), d.seqNo - 1);
    assert Live(s, LastLive(s));
  }

  lemma {:induction false} TailSentPends(s: State, e: Entry)
    requires Inv(s) && s.pinned && Tail(s) in s.nodes && e in s.nodes[Tail(s)].rep.sent
    ensures IsEntry(L'(s), e) && PendingTransfer(e)
  {
    hide Inv, Run, Serve, EntryAt, IsEntry;
    TailLive(s);
    InvBooks(s, Tail(s));
  }

  lemma {:induction false} AnswerDirection(p: Pair, x: Addr, d: Entry)
    requires PairInv(p) && AnswerEnabled(p, x, d)
    ensures Direction(p.(src := Apply(p.src, BankReply(x, d.reply.id, d.reply.account))))
  {
    hide Inv, Apply, TailMoved, AcksMoved, Tracked, AcksSettled, Applied, Answers;
    var l := BankReply(x, d.reply.id, d.reply.account);
    var t := Apply(p.src, l);
    StepKeeps(p.src, l);
    IssuedAfter(p.src, l);
    TailLive(p.src);
    TailIs(p.src, x);
    StepMoves(p.src, l);
    MoveGrows(p.src, t, MoveOf(p.src, l));
    TailLive(t);
    MoveTail(p.src, t, MoveOf(p.src, l));
    forall e | e in p.src.nodes[Tail(p.src)].rep.sent && Answers(e, d.reply.id, d.reply.account)
      ensures Applied(p.dst, e.req)
    {
      AnswerFrees(p, d, e);
    }
    TrackedMove(p, t, MoveOf(p.src, l));
    AcksSettledMove(p, t);
  }

  lemma {:induction false} AnswerKeepsPair(p: Pair, x: Addr, d: Entry)
    requires PairInv(p) && AnswerEnabled(p, x, d)
    ensures PairInv(p.(src := Apply(p.src, BankReply(x, d.reply.id, d.reply.account))))
  {
    hide Inv, Enabled, Apply, Direction;
    var l := BankReply(x, d.reply.id, d.reply.account);
    StepKeeps(p.src, l);
    IssuedAfter(p.src, l);
    AnswerDirection(p, x, d);
    OtherDirection(Swap(p), l);
  }

  /** Every step of either chain keeps the transfers in both directions in order. */
  lemma {:induction false} PairStepKeeps(p: Pair, l: PairLabel)
    requires PairInv(p) && PairEnabled(p, l)
    ensures PairInv(PairApply(p, l))
  {
    hide PairInv, SideEnabled, AnswerEnabled, Apply;
    match l {
      case Src(k) => SideKeeps(p, k);
      case Dst(k) => SwapInv(p); SideKeeps(Swap(p), k);
      case AnswerSrc(x, d) => AnswerKeepsPair(p, x, d);
      case AnswerDst(x, d) => SwapInv(p); AnswerKeepsPair(Swap(p), x, d);
    }
    var q := PairApply(p, l);
    if l.Dst? || l.AnswerDst? {
      assert q == Swap(Swap(q));
      SwapInv(Swap(q));
    }
  }

  ghost predicate PairRun(p: Pair, ls: seq<PairLabel>)
    decreases |ls|
  {
    ls != [] ==> PairEnabled(p, ls[0]) && PairRun(PairApply(p, ls[0]), ls[1..])
  }

  ghost function PairAfter(p: Pair, ls: seq<PairLabel>): Pair
    requires PairRun(p, ls)
    decreases |ls|
  {
    if ls == [] then p else PairAfter(PairApply(p, ls[0]), ls[1..])
  }

  /** A bank's chain to start with: its name, its servers, and whether its tail stays up. */
  datatype Setup = Setup(bank: BankId, servers: nat, pinned: bool)

  predicate MayStart(a: Setup, b: Setup) { a.bank != b.bank && a.servers > 0 && b.servers > 0 }

  function InitialPair(a: Setup, b: Setup): Pair
    requires MayStart(a, b)
  {
    Pair(Initial(a.bank, a.servers, a.pinned), Initial(b.bank, b.servers, b.pinned))
  }

  lemma {:induction false} PairRunKeeps(p: Pair, ls: seq<PairLabel>)
    requires PairInv(p) && PairRun(p, ls)
    ensures PairInv(PairAfter(p, ls))
    decreases |ls|
  {
    hide PairInv, PairApply, PairEnabled;
    if ls != [] {
      PairStepKeeps(p, ls[0]);
      PairRunKeeps(PairApply(p, ls[0]), ls[1..]);
    }
  }

  lemma {:induction false} InitialDirection(a: Setup, b: Setup)
    requires MayStart(a, b)
    ensures Direction(InitialPair(a, b))
  {
    hide Inv, Initial, EntryAt, Applied, Acked, AcksTo;
    InitialKeeps(a.bank, a.servers, a.pinned);
    InitialPlain(a.bank, a.servers, a.pinned);
    InitialPlain(b.bank, b.servers, b.pinned);
    InitialShape(a.bank, a.servers, a.pinned);
    var s := Initial(a.bank, a.servers, a.pinned);
    if a.pinned {
      TailLive(s);
      forall y: Addr | Live(s, y) ensures Acked(s.nodes[y].rep) == 0 { EmptyRefines(s.nodes[y].rep); }
    }
  }

  lemma {:induction false} InitialPairKeeps(a: Setup, b: Setup)
    requires MayStart(a, b)
    ensures PairInv(InitialPair(a, b))
  {
    hide Inv, Initial, Direction;
    InitialKeeps(a.bank, a.servers, a.pinned);
    InitialKeeps(b.bank, b.servers, b.pinned);
    InitialPlain(a.bank, a.servers, a.pinned);
    InitialDirection(a, b);
    InitialDirection(b, a);
  }
}
