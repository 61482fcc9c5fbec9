/** The master's orders seen from a server: handled in the order in which they were sent, they trip no assertion
    and leave each server with the role and the neighbours the master's list gives it. */
module Orders {
  import opened Bank
  import opened Replicas
  import opened Masters
  import opened Extension
  import HandOver

  /** A src-cpp server handles one order. */
  function Obey(s: Replica, c: Notice): Step {
    match c
    case ToBeHead => Replicas.ToBeHead(s)
    case ToBeTail => Replicas.ToBeTail(s)
    case NewPre(p) => NewPreServer(s, p)
    case NewSucc(y, n) => NewSuccServer(s, y, n)
    case ExtendServer(j) => ReceiveExtendServer(s, j)
    case ExtendFail => Done(ExtendingServerFail(s), SILENT)
    case NewHead(bank, _) => HandleNewHead(s, bank)
  }

  /** The server after handling the letters to `y` one by one; `None` if an assertion failed. */
  function ObeyAll(s: Replica, y: Addr, letters: seq<Letter>): Option<Replica>
    decreases |letters|
  {
    if letters == [] then Some(s)
    else if letters[0].to != y then ObeyAll(s, y, letters[1..])
    else
      match Obey(s, letters[0].notice)
      case Abort => None
      case Done(t, _) => ObeyAll(t, y, letters[1..])
  }

  lemma {:induction false} ObeyFirst(s: Replica, y: Addr, l: Letter, rest: seq<Letter>)
    ensures ObeyAll(s, y, [l] + rest) ==
            if l.to != y then ObeyAll(s, y, rest)
            else
              match Obey(s, l.notice)
              case Abort => None
              case Done(t, _) => ObeyAll(t, y, rest)
  {
    hide Obey;
    assert ([l] + rest)[1..] == rest;
  }

  lemma {:induction false} ObeyNone(s: Replica, y: Addr)
    ensures ObeyAll(s, y, []) == Some(s)
  {
  }

  /** Notices of new heads change nothing at a server whose sent list, if it is the tail, holds only transfers. */
  lemma {:induction false} ObeyNewHeads(s: Replica, y: Addr, letters: seq<Letter>)
    requires forall l :: l in letters ==> l.notice.NewHead?
    requires s.isTail ==> forall e :: e in s.sent ==> IsTransfer(e)
    ensures ObeyAll(s, y, letters) == Some(s)
    decreases |letters|
  {
    if letters != [] {
      assert letters[0] in letters;
      ObeyNewHeads(s, y, letters[1..]);
    }
  }

  lemma {:induction false} PendingOnly(s: Replica, log: seq<Request>)
    requires Refines(s, log) && !s.extending
    ensures s.isTail ==> forall e :: e in s.sent ==> IsTransfer(e)
  {
    hide IsEntry;
  }

  lemma {:induction false} HeadOrders(ro: Roster, x: Addr, y: Addr, s: Replica, log: seq<Request>)
    requires Repairable(ro, x) && Refines(s, log) && !s.extending && x == ro.head
    ensures var (ro', letters) := NotifyCrash(ro, x); var t := ObeyAll(s, y, letters);
            t.Some? && Refines(t.value, log) && (y == ro'.head ==> t.value.isHead)
  {
    hide Refines, Broadcast, Repaired, ObeyAll, IndexOf, RosterOk;
    Neighbours(ro, x);
    var (ro', letters) := NotifyCrash(ro, x);
    var heads := Broadcast(ro'.servers, ro.extending, ro.bank, ro'.head);
    BroadcastNames(ro'.servers, ro.extending, ro.bank, ro'.head);
    HandOver.RoleRefines(s, log, true, s.pre);
    PendingOnly(s, log);
    NewHeadPlace(ro, x);
    ObeyFirst(s, y, Letter(ro'.head, Notice.ToBeHead), heads);
    ObeyNewHeads(s, y, heads);
    ObeyNewHeads(s.(isHead := true), y, heads);
  }

  lemma {:induction false} NewHeadPlace(ro: Roster, x: Addr)
    requires Repairable(ro, x) && x == ro.head
    ensures var (ro', letters) := NotifyCrash(ro, x);
            letters == [Letter(ro'.head, Notice.ToBeHead)] + Broadcast(ro'.servers, ro.extending, ro.bank, ro'.head)
  {
    hide Broadcast;
    Neighbours(ro, x);
  }

  lemma {:induction false} TailOrders(ro: Roster, x: Addr, y: Addr, s: Replica, log: seq<Request>)
    requires Repairable(ro, x) && Refines(s, log) && x == ro.tail && forall r :: r in log ==> r.kind != Transfer
    ensures var (ro', letters) := NotifyCrash(ro, x); var t := ObeyAll(s, y, letters);
            t.Some? && Refines(t.value, log) &&
            (y == ro'.tail ==>
               t.value.isTail && t.value.sent == [] &&
               (ro'.extending.Some? ==> t.value.extending && t.value.succ == ro'.extending))
  {
    hide Refines, ObeyAll, IndexOf, RosterOk, Promote, TransfersOf, Remove;
    Neighbours(ro, x);
    var (ro', letters) := NotifyCrash(ro, x);
    ToBeTailRefines(s, log);
    var t := Replicas.ToBeTail(s).rep;
    ObeyNone(s, y);
    ObeyNone(t, y);
    ObeyFirst(s, y, Letter(ro'.tail, Notice.ToBeTail), letters[1..]);
    if ro.extending.Some? {
      var j := ro.extending.value;
      HandOver.FlagsRefine(t, log, true, Some(j));
      ObeyFirst(t, y, Letter(ro'.tail, ExtendServer(j)), []);
      ObeyFirst(s, y, Letter(ro'.tail, ExtendServer(j)), []);
      ObeyNone(t.(extending := true, succ := Some(j)), y);
      assert letters[1..] == [Letter(ro'.tail, ExtendServer(j))] + [];
    } else {
      assert letters[1..] == [];
    }
    assert letters == [Letter(ro'.tail, Notice.ToBeTail)] + letters[1..];
  }

  lemma {:induction false} OtherOrders(ro: Roster, x: Addr, y: Addr, s: Replica, log: seq<Request>)
    requires Repairable(ro, x) && Refines(s, log) && x != ro.head && x != ro.tail
    requires ro.extending == Some(x) && y == ro.tail ==> s.isTail
    ensures var (ro', letters) := NotifyCrash(ro, x); var t := ObeyAll(s, y, letters);
            t.Some? && Refines(t.value, log) &&
            (ro.extending == Some(x) && y == ro'.tail ==> t.value.isTail && !t.value.extending && t.value.sent == []) &&
            (ro.extending != Some(x) && Adjacent(ro.servers, x, y) ==>
               t.value.pre.Some? && Adjacent(ro'.servers, t.value.pre.value, y))
  {
    hide Refines, ObeyAll, IndexOf, RosterOk, Remove, Adjacent, Distinct, Broadcast;
    Neighbours(ro, x);
    CrashRepair(ro, x);
    var (ro', letters) := NotifyCrash(ro, x);
    assert letters == [letters[0]] + [];
    ObeyFirst(s, y, letters[0], []);
    ObeyNone(s, y);
    DistinctList(ro);
    if ro.extending == Some(x) {
      JoinerIsAfterTail(ro, x);
      ObeyNone(ExtendingServerFail(s), y);
      if y == ro.tail { HandOver.TailFails(s, log); }
    } else {
      assert letters[0] in letters;
      AdjacentIs(ro.servers, x, y);
      var p := letters[0].notice.pre;
      HandOver.RoleRefines(s, log, s.isHead, Some(p));
      ObeyNone(s.(pre := Some(p)), y);
    }
  }

  /** After the crash of server `x`, the letters to any server `y`, handled in the order in which they were sent, trip
      no assertion: `y` keeps its log and has the place the repaired list gives it. A new tail that is to extend the
      chain is the tail first, so that the order to extend finds its sent list empty. */
  lemma {:induction false} OrdersObeyed(ro: Roster, x: Addr, y: Addr, s: Replica, log: seq<Request>)
    requires Repairable(ro, x) && Refines(s, log) && forall r :: r in log ==> r.kind != Transfer
    requires s.extending ==> x != ro.head
    requires ro.extending == Some(x) && y == ro.tail ==> s.isTail
    ensures var (ro', letters) := NotifyCrash(ro, x); var t := ObeyAll(s, y, letters);
            t.Some? && Refines(t.value, log) &&
            (x == ro.head && y == ro'.head ==> t.value.isHead) &&
            (x == ro.tail && y == ro'.tail ==>
               t.value.isTail && t.value.sent == [] &&
               (ro'.extending.Some? ==> t.value.extending && t.value.succ == ro'.extending)) &&
            (ro.extending == Some(x) && y == ro'.tail ==> t.value.isTail && !t.value.extending && t.value.sent == []) &&
            (x != ro.head && x != ro.tail && ro.extending != Some(x) && Adjacent(ro.servers, x, y) ==>
               t.value.pre.Some? && Adjacent(ro'.servers, t.value.pre.value, y))
  {
    hide Refines, ObeyAll, RosterOk, Adjacent, NotifyCrash;
    Neighbours(ro, x);
    if x == ro.head {
      HeadOrders(ro, x, y, s, log);
    } else if x == ro.tail {
      TailOrders(ro, x, y, s, log);
    } else {
      OtherOrders(ro, x, y, s, log);
    }
  }
}
