/** The master's list of one bank's servers and the repair messages it sends:
    first as functions on values, then as the class that searches and edits
    the list in place, proved to compute them. */
module Masters {
  import opened Bank
  import opened Replicas

  datatype Notice =
    | ToBeHead
    | ToBeTail
    | NewPre(pre: Addr)
    | NewSucc(succ: Addr, n: nat)
    | ExtendServer(joiner: Addr)
    | ExtendFail
    | NewHead(bank: BankId, head: Addr)

  datatype Letter = Letter(to: Addr, notice: Notice)

  /** One bank's server list with its three pointers; a joining server is last. */
  datatype Roster = Roster(bank: BankId, servers: seq<Addr>, head: Addr, tail: Addr, extending: Option<Addr>)

  function IndexOf(servers: seq<Addr>, x: Addr): (i: nat)
    requires x in servers
    ensures i < |servers| && servers[i] == x && forall j :: 0 <= j < i ==> servers[j] != x
  {
    if servers[0] == x then 0 else 1 + IndexOf(servers[1..], x)
  }

  function Remove(servers: seq<Addr>, x: Addr): seq<Addr>
    requires x in servers
  {
    var i := IndexOf(servers, x);
    servers[..i] + servers[i + 1..]
  }

  /** The server after `x`; `x` is not the last one. */
  function SuccOf(servers: seq<Addr>, x: Addr): Addr
    requires x in servers && IndexOf(servers, x) + 1 < |servers|
  {
    servers[IndexOf(servers, x) + 1]
  }

  /** The server before `x`; `x` is not the first one. */
  function PreOf(servers: seq<Addr>, x: Addr): Addr
    requires x in servers && IndexOf(servers, x) > 0
  {
    servers[IndexOf(servers, x) - 1]
  }

  predicate Distinct(servers: seq<Addr>) {
    forall i, j :: 0 <= i < j < |servers| ==> servers[i] != servers[j]
  }

  /** Duplicate-free, head first, tail last or just before the joining server. */
  predicate RosterOk(ro: Roster) {
    && Distinct(ro.servers)
    && |ro.servers| >= (if ro.extending == None then 1 else 2)
    && ro.head == ro.servers[0]
    && (ro.extending == None ==> ro.tail == ro.servers[|ro.servers| - 1])
    && (ro.extending.Some? ==>
          ro.extending.value == ro.servers[|ro.servers| - 1] && ro.tail == ro.servers[|ro.servers| - 2])
  }

  /** A crash the master can repair: of a listed server that is not the only one holding the data. */
  predicate Repairable(ro: Roster, x: Addr) {
    RosterOk(ro) && x in ro.servers && !(x == ro.head && x == ro.tail)
  }

  lemma {:induction false} IndexIs(servers: seq<Addr>, i: nat)
    requires Distinct(servers) && i < |servers|
    ensures IndexOf(servers, servers[i]) == i
  {
    assert IndexOf(servers, servers[i]) <= i;
  }

  /** The neighbour searches a crash causes find a neighbour. */
  lemma {:induction false} Neighbours(ro: Roster, x: Addr)
    requires Repairable(ro, x)
    ensures x != ro.head ==> IndexOf(ro.servers, x) > 0
    ensures x != ro.tail && ro.extending != Some(x) ==> IndexOf(ro.servers, x) + 1 < |ro.servers|
    ensures x == ro.head ==> IndexOf(ro.servers, x) == 0
    ensures ro.extending == Some(x) ==> x != ro.head && x != ro.tail
    ensures x == ro.tail || ro.extending == Some(x) ==>
              IndexOf(ro.servers, x) == |ro.servers| - (if x == ro.tail && ro.extending.Some? then 2 else 1)
  {
    IndexIs(ro.servers, 0);
    IndexIs(ro.servers, |ro.servers| - 1);
    IndexIs(ro.servers, if ro.extending.Some? then |ro.servers| - 2 else 0);
  }

  /** The new-head notice goes to every listed server but the joining one. */
  function Broadcast(servers: seq<Addr>, extending: Option<Addr>, bank: BankId, head: Addr): seq<Letter> {
    if servers == [] then []
    else (if Some(servers[0]) == extending then [] else [Letter(servers[0], NewHead(bank, head))])
         + Broadcast(servers[1..], extending, bank, head)
  }

  /** The messages that repair the chain after the crash of `x`. */
  function RepairLetters(ro: Roster, x: Addr): seq<Letter>
    requires Repairable(ro, x)
  {
    Neighbours(ro, x);
    if x == ro.head then [Letter(SuccOf(ro.servers, x), ToBeHead)]
    else if x == ro.tail then
      [Letter(PreOf(ro.servers, x), ToBeTail)] +
      if ro.extending.Some? then [Letter(PreOf(ro.servers, x), ExtendServer(ro.extending.value))] else []
    else if Some(x) == ro.extending then [Letter(PreOf(ro.servers, x), ExtendFail)]
    else [Letter(SuccOf(ro.servers, x), NewPre(PreOf(ro.servers, x)))]
  }

  /** The list after the crash of `x`. */
  function Repaired(ro: Roster, x: Addr): Roster
    requires Repairable(ro, x)
  {
    Neighbours(ro, x);
    var rest := ro.(servers := Remove(ro.servers, x));
    if x == ro.head then rest.(head := SuccOf(ro.servers, x))
    else if x == ro.tail then rest.(tail := PreOf(ro.servers, x))
    else if Some(x) == ro.extending then rest.(extending := None)
    else rest
  }

  /** The master's reaction to the crash of `x`, as far as `x`'s own bank is concerned. */
  function NotifyCrash(ro: Roster, x: Addr): (Roster, seq<Letter>)
    requires Repairable(ro, x)
  {
    var ro' := Repaired(ro, x);
    (ro', RepairLetters(ro, x) +
          if x == ro.head then Broadcast(ro'.servers, ro.extending, ro.bank, ro'.head) else [])
  }

  /** A server asks to join while no other one does. */
  function HandleJoin(ro: Roster, x: Addr): (Roster, seq<Letter>)
    requires RosterOk(ro) && ro.extending == None && x !in ro.servers
  {
    (ro.(servers := ro.servers + [x], extending := Some(x)), [Letter(ro.tail, ExtendServer(x))])
  }

  /** The joining server reports that it acts as the tail. */
  function HandleExtendFinish(ro: Roster, x: Addr): Roster {
    ro.(tail := x, extending := None)
  }

  datatype Event = Crash(x: Addr) | Join(x: Addr) | Finish(x: Addr)

  predicate Legal(ro: Roster, ev: Event) {
    match ev
    case Crash(x) => Repairable(ro, x)
    case Join(x) => RosterOk(ro) && ro.extending == None && x !in ro.servers
    case Finish(x) => RosterOk(ro) && ro.extending == Some(x)
  }

  function React(ro: Roster, ev: Event): Roster
    requires Legal(ro, ev)
  {
    match ev
    case Crash(x) => NotifyCrash(ro, x).0
    case Join(x) => HandleJoin(ro, x).0
    case Finish(x) => HandleExtendFinish(ro, x)
  }

  ghost predicate LegalRun(ro: Roster, evs: seq<Event>)
    decreases |evs|
  {
    evs != [] ==> Legal(ro, evs[0]) && LegalRun(React(ro, evs[0]), evs[1..])
  }

  ghost function AfterEvents(ro: Roster, evs: seq<Event>): Roster
    requires LegalRun(ro, evs)
    decreases |evs|
  {
    if evs == [] then ro else AfterEvents(React(ro, evs[0]), evs[1..])
  }

  /** `a` and `b` are neighbours in the list, in this order. */
  ghost predicate Adjacent(servers: seq<Addr>, a: Addr, b: Addr) {
    exists i :: 0 <= i < |servers| - 1 && servers[i] == a && servers[i + 1] == b
  }

  /** Removing an element shifts what follows it and joins its neighbours. */
  lemma {:induction false} RemoveFacts(servers: seq<Addr>, x: Addr)
    requires Distinct(servers) && x in servers
    ensures var i := IndexOf(servers, x); var rest := Remove(servers, x);
            |rest| == |servers| - 1 && Distinct(rest) &&
            (forall j :: 0 <= j < |rest| ==> rest[j] == servers[if j < i then j else j + 1]) &&
            (forall y :: y in rest <==> y in servers && y != x) &&
            (0 < i && i + 1 < |servers| ==> Adjacent(rest, servers[i - 1], servers[i + 1]))
  {
    var i, rest := IndexOf(servers, x), Remove(servers, x);
    forall y ensures y in rest <==> y in servers && y != x {
      if y in servers && y != x {
        var k := IndexOf(servers, y);
        assert rest[if k < i then k else k - 1] == y;
      }
    }
    if 0 < i && i + 1 < |servers| {
      assert rest[i - 1] == servers[i - 1] && rest[i] == servers[i + 1];
    }
  }

  /** The messages that are due when `x` leaves `ro` and `ro'` remains. */
  ghost predicate RepairDue(ro: Roster, ro': Roster, x: Addr, letter: Letter) {
    match letter.notice
    case ToBeHead => x == ro.head && letter.to == ro'.head
    case ToBeTail => x == ro.tail && letter.to == ro'.tail
    case NewPre(p) => x != ro.tail && ro.extending != Some(x) &&
                      Adjacent(ro.servers, p, x) && Adjacent(ro.servers, x, letter.to)
    case ExtendFail => ro.extending == Some(x) && letter.to == ro'.tail
    case ExtendServer(j) => x == ro.tail && ro.extending == Some(j) && letter.to == ro'.tail
    case NewHead(b, h) => x == ro.head && b == ro.bank && h == ro'.head && Some(letter.to) != ro.extending &&
    letter.to in ro'.servers
    case NewSucc(_, _) => false
  }

  lemma {:induction false} BroadcastFrom(servers: seq<Addr>, i: nat, extending: Option<Addr>, bank: BankId, h: Addr)
    requires i <= |servers|
    ensures Broadcast(servers[i..], extending, bank, h) ==
            if i == |servers| then []
            else (if Some(servers[i]) == extending then [] else [Letter(servers[i], NewHead(bank, h))])
                 + Broadcast(servers[i + 1..], extending, bank, h)
  {
    if i < |servers| { assert servers[i..][1..] == servers[i + 1..]; }
  }

  lemma {:induction false} BroadcastNames(servers: seq<Addr>, extending: Option<Addr>, bank: BankId, h: Addr)
    ensures forall l :: l in Broadcast(servers, extending, bank, h) <==>
              l.notice == NewHead(bank, h) && l.to in servers && Some(l.to) != extending
  {
    if servers != [] { BroadcastNames(servers[1..], extending, bank, h); }
  }

  lemma {:induction false} AdjacentIs(servers: seq<Addr>, x: Addr, y: Addr)
    requires Distinct(servers) && x in servers
    ensures Adjacent(servers, x, y) <==> IndexOf(servers, x) + 1 < |servers| && SuccOf(servers, x) == y
    ensures Adjacent(servers, y, x) <==> IndexOf(servers, x) > 0 && PreOf(servers, x) == y
  {
    var i := IndexOf(servers, x);
    if Adjacent(servers, x, y) {
      var j :| 0 <= j < |servers| - 1 && servers[j] == x && servers[j + 1] == y;
      IndexIs(servers, j);
    }
    if Adjacent(servers, y, x) {
      var j :| 0 <= j < |servers| - 1 && servers[j] == y && servers[j + 1] == x;
      IndexIs(servers, j + 1);
    }
    assert i > 0 ==> servers[i - 1 + 1] == x;
  }

  lemma {:induction false} CrashKeepsRoster(ro: Roster, x: Addr)
    requires Repairable(ro, x)
    ensures var ro' := NotifyCrash(ro, x).0;
            RosterOk(ro') && forall y :: y in ro'.servers <==> y in ro.servers && y != x
  {
    hide Remove, Broadcast, Distinct, Adjacent, IndexOf;
    DistinctList(ro);
    RemoveFacts(ro.servers, x);
    Neighbours(ro, x);
    var servers, rest := ro.servers, Remove(ro.servers, x);
    var last := |rest| - 1;
    if x == ro.head {
      assert rest[0] == servers[1] && rest[last] == servers[last + 1];
      if ro.extending.Some? { assert rest[last - 1] == servers[last]; }
    } else if x == ro.tail {
      assert rest[0] == servers[0];
      if ro.extending.Some? { assert rest[last] == servers[last + 1] && rest[last - 1] == servers[last - 1]; }
    } else if ro.extending == Some(x) {
      assert rest[0] == servers[0] && rest[last] == servers[last];
    } else {
      assert rest[0] == servers[0] && rest[last] == servers[last + 1];
      if ro.extending.Some? { assert rest[last - 1] == servers[last]; }
    }
  }

  predicate TakesRole(n: Notice) { n.ToBeHead? || n.ToBeTail? }

  /** No message is sent twice, and an order to be head or tail goes out before anything else. */
  ghost predicate InOrder(letters: seq<Letter>) {
    forall i, j :: 0 <= i < j < |letters| ==> letters[i] != letters[j] && !TakesRole(letters[j].notice)
  }

  /** Crash by crash: the list loses exactly the dead server and keeps its order, exactly the messages that are
      due go out, each once and an order to be head or tail first, and those for an internal crash join the two
      servers that are adjacent afterwards. */
  lemma {:induction false} CrashRepair(ro: Roster, x: Addr)
    requires Repairable(ro, x)
    ensures var (ro', letters) := NotifyCrash(ro, x);
            RosterOk(ro') && ro'.servers == Without(ro.servers, x) && ro'.bank == ro.bank &&
            (forall y :: y in ro'.servers <==> y in ro.servers && y != x) &&
            (forall l :: l in letters <==> RepairDue(ro, ro', x, l)) && InOrder(letters) &&
            (forall l :: l in letters && l.notice.NewPre? ==> Adjacent(ro'.servers, l.notice.pre, l.to)) &&
            (ro'.extending.Some? ==> Adjacent(ro'.servers, ro'.tail, ro'.extending.value))
  {
    hide Remove, Broadcast, Distinct, Adjacent, RosterOk, IndexOf, RepairDue, InOrder, Without;
    CrashKeepsRoster(ro, x);
    Neighbours(ro, x);
    SentInOrder(ro, x);
    var (ro', letters) := NotifyCrash(ro, x);
    forall l ensures l in letters <==> RepairDue(ro, ro', x, l) { DueExactly(ro, x, l); }
    DistinctList(ro);
    RemoveIsWithout(ro.servers, x);
    RemoveFacts(ro.servers, x);
    if ro'.extending.Some? { LastAdjacent(ro'); }
    forall l | l in letters && l.notice.NewPre? ensures Adjacent(ro'.servers, l.notice.pre, l.to) {
      BroadcastNames(ro'.servers, ro.extending, ro.bank, ro'.head);
      assert l.to == SuccOf(ro.servers, x) && l.notice.pre == PreOf(ro.servers, x);
    }
  }

  /** The list without `x`. */
  function Without(servers: seq<Addr>, x: Addr): seq<Addr> {
    if servers == [] then []
    else (if servers[0] == x then [] else [servers[0]]) + Without(servers[1..], x)
  }

  lemma {:induction false} WithoutAbsent(servers: seq<Addr>, x: Addr)
    requires x !in servers
    ensures Without(servers, x) == servers
  {
    if servers != [] {
      WithoutAbsent(servers[1..], x);
      assert servers == [servers[0]] + servers[1..];
    }
  }

  lemma {:induction false} WithoutAt(servers: seq<Addr>, x: Addr, i: nat)
    requires i < |servers| && servers[i] == x && forall j :: 0 <= j < |servers| && j != i ==> servers[j] != x
    ensures Without(servers, x) == servers[..i] + servers[i + 1..]
    decreases i
  {
    var rest := servers[1..];
    if i == 0 {
      assert x !in rest;
      WithoutAbsent(rest, x);
      assert servers[..0] + rest == rest;
    } else {
      assert rest[i - 1] == x && forall j :: 0 <= j < |rest| ==> rest[j] == servers[j + 1];
      WithoutAt(rest, x, i - 1);
      assert servers[0] != x && Without(servers, x) == [servers[0]] + Without(rest, x);
      assert servers[..i] == [servers[0]] + rest[..i - 1] && servers[i + 1..] == rest[i..];
      assert [servers[0]] + (rest[..i - 1] + rest[i..]) == servers[..i] + servers[i + 1..];
    }
  }

  lemma {:induction false} RemoveIsWithout(servers: seq<Addr>, x: Addr)
    requires Distinct(servers) && x in servers
    ensures Remove(servers, x) == Without(servers, x)
  {
    hide Without;
    WithoutAt(servers, x, IndexOf(servers, x));
  }

  lemma {:induction false} BroadcastOnce(servers: seq<Addr>, extending: Option<Addr>, bank: BankId, h: Addr)
    requires Distinct(servers)
    ensures InOrder(Broadcast(servers, extending, bank, h))
  {
    hide InOrder, Broadcast;
    BroadcastFrom(servers, 0, extending, bank, h);
    assert servers[0..] == servers;
    if servers != [] {
      var rest := Broadcast(servers[1..], extending, bank, h);
      BroadcastOnce(servers[1..], extending, bank, h);
      BroadcastNames(servers[1..], extending, bank, h);
      if Some(servers[0]) != extending {
        InOrderAfter(Letter(servers[0], NewHead(bank, h)), rest);
      } else {
        assert [] + rest == rest;
      }
    } else {
      NoLetters();
    }
  }

  lemma {:induction false} NoLetters()
    ensures InOrder([])
  {
  }

  lemma {:induction false} InOrderAfter(l: Letter, ls: seq<Letter>)
    requires InOrder(ls) && l !in ls && forall m :: m in ls ==> !TakesRole(m.notice)
    ensures InOrder([l] + ls)
  {
    var all := [l] + ls;
    forall i, j | 0 <= i < j < |all| ensures all[i] != all[j] && !TakesRole(all[j].notice) {
      assert all[j] == ls[j - 1] && ls[j - 1] in ls;
    }
  }

  lemma {:induction false} SentInOrder(ro: Roster, x: Addr)
    requires Repairable(ro, x)
    ensures InOrder(NotifyCrash(ro, x).1)
  {
    hide Remove, Broadcast, IndexOf, Distinct, InOrder;
    Neighbours(ro, x);
    CrashKeepsRoster(ro, x);
    var (ro', letters) := NotifyCrash(ro, x);
    DistinctList(ro');
    OwnInOrder(ro, x);
    if x == ro.head {
      var heads := Broadcast(ro'.servers, ro.extending, ro.bank, ro'.head);
      BroadcastOnce(ro'.servers, ro.extending, ro.bank, ro'.head);
      BroadcastNames(ro'.servers, ro.extending, ro.bank, ro'.head);
      InOrderAfter(Letter(ro'.head, ToBeHead), heads);
      assert letters == [Letter(ro'.head, ToBeHead)] + heads;
    } else {
      assert letters == RepairLetters(ro, x);
    }
  }

  lemma {:induction false} JoinerIsAfterTail(ro: Roster, x: Addr)
    requires RosterOk(ro) && ro.extending == Some(x)
    ensures x in ro.servers && IndexOf(ro.servers, x) > 0 && PreOf(ro.servers, x) == ro.tail
  {
    IndexIs(ro.servers, |ro.servers| - 1);
  }

  lemma {:induction false} DistinctList(ro: Roster)
    requires RosterOk(ro)
    ensures Distinct(ro.servers)
  {
  }

  lemma {:induction false} DueExactly(ro: Roster, x: Addr, l: Letter)
    requires Repairable(ro, x)
    ensures var (ro', letters) := NotifyCrash(ro, x); l in letters <==> RepairDue(ro, ro', x, l)
  {
    hide Remove, Broadcast, Distinct, Adjacent, RosterOk, IndexOf;
    Neighbours(ro, x);
    DistinctList(ro);
    var ro' := NotifyCrash(ro, x).0;
    BroadcastNames(ro'.servers, ro.extending, ro.bank, ro'.head);
    if ro.extending == Some(x) { JoinerIsAfterTail(ro, x); }
    if l.notice.NewPre? {
      AdjacentIs(ro.servers, x, l.to);
      AdjacentIs(ro.servers, x, l.notice.pre);
    }
  }

  lemma {:induction false} LastAdjacent(ro: Roster)
    requires RosterOk(ro) && ro.extending.Some?
    ensures Adjacent(ro.servers, ro.tail, ro.extending.value)
  {
    assert ro.servers[|ro.servers| - 2 + 1] == ro.extending.value;
  }

  /** A joining server is put after the tail, the only one told of it, and told to extend; nothing else changes. */
  lemma {:induction false} JoinExtends(ro: Roster, x: Addr)
    requires RosterOk(ro) && ro.extending == None && x !in ro.servers
    ensures var (ro', letters) := HandleJoin(ro, x);
            RosterOk(ro') && ro'.extending == Some(x) && ro'.head == ro.head && ro'.tail == ro.tail &&
            |letters| == 1 && letters[0].notice == ExtendServer(x) && Adjacent(ro'.servers, letters[0].to, x)
  {
    LastAdjacent(HandleJoin(ro, x).0);
  }

  /** The servers that were there or joined and have not crashed since, oldest first. */
  function Survivors(servers: seq<Addr>, evs: seq<Event>): seq<Addr>
    decreases |evs|
  {
    if evs == [] then servers
    else
      match evs[0]
      case Crash(x) => Survivors(Without(servers, x), evs[1..])
      case Join(x) => Survivors(servers + [x], evs[1..])
      case Finish(_) => Survivors(servers, evs[1..])
  }

  /** Over every legal run of crashes, joins and finishes the list holds the survivors and keeps its shape. */
  lemma {:induction false} RosterSafe(ro: Roster, evs: seq<Event>)
    requires RosterOk(ro) && LegalRun(ro, evs)
    ensures var ro' := AfterEvents(ro, evs);
            RosterOk(ro') && ro'.bank == ro.bank && ro'.servers == Survivors(ro.servers, evs)
    decreases |evs|
  {
    hide Without, NotifyCrash;
    if evs != [] {
      if evs[0].Crash? { CrashRepair(ro, evs[0].x); }
      RosterSafe(React(ro, evs[0]), evs[1..]);
    }
  }

  lemma {:induction false} TakenOut(ro: Roster, x: Addr)
    requires Repairable(ro, x)
    ensures RosterOk(Repaired(ro, x)) && Repaired(ro, x).servers == Without(ro.servers, x)
    ensures InOrder(RepairLetters(ro, x))
  {
    hide RosterOk, Repaired, RepairLetters, Broadcast, InOrder, Without, Adjacent, RepairDue;
    CrashRepair(ro, x);
    OwnInOrder(ro, x);
  }

  // --------------------------------------------------------------- in place

  /** The master's record of one bank: a list that is appended to and erased
      from, searched from the front, and three pointers. */
  class BankServerChain {
    const bank: BankId
    var servers: seq<Addr>
    var head: Addr
    var tail: Addr
    var extending: Option<Addr>

    function Value(): Roster
      reads this
    {
      Roster(bank, servers, head, tail, extending)
    }

    constructor (bank: BankId, servers: seq<Addr>)
      requires servers != [] && Distinct(servers)
      ensures RosterOk(Value()) && Value() == Roster(bank, servers, servers[0], servers[|servers| - 1], None)
    {
      this.bank, this.servers := bank, servers;
      head, tail, extending := servers[0], servers[|servers| - 1], None;
    }

    /** The search loops test the element before the bound; they stop inside the list. */
    method Find(x: Addr) returns (i: nat)
      requires x in servers
      ensures i < |servers| && i == IndexOf(servers, x)
    {
      i := 0;
      while servers[i] != x && i < |servers|
        invariant i < |servers| && forall j :: 0 <= j < i ==> servers[j] != x
        decreases |servers| - i
      {
        i := i + 1;
      }
    }

    method AppendNode(x: Addr)
      modifies this`servers
      ensures servers == old(servers) + [x]
    {
      servers := servers + [x];
    }

    method RemoveNode(x: Addr)
      requires x in servers
      modifies this`servers
      ensures servers == Remove(old(servers), x)
    {
      var i := Find(x);
      servers := servers[..i] + servers[i + 1..];
    }

    method SuccServerAddr(x: Addr) returns (s: Addr)
      requires x in servers && IndexOf(servers, x) + 1 < |servers|
      ensures s == SuccOf(servers, x)
    {
      var i := Find(x);
      s := servers[i + 1];
    }

    method PreServerAddr(x: Addr) returns (p: Addr)
      requires x in servers && IndexOf(servers, x) > 0
      ensures p == PreOf(servers, x)
    {
      var i := Find(x);
      p := servers[i - 1];
    }

    method BroadcastNewHead(ofBank: BankId, h: Addr) returns (letters: seq<Letter>)
      ensures letters == Broadcast(servers, extending, ofBank, h)
    {
      hide Broadcast;
      letters := [];
      var i := 0;
      while i < |servers|
        invariant i <= |servers|
        invariant letters + Broadcast(servers[i..], extending, ofBank, h) == Broadcast(servers, extending, ofBank, h)
      {
        BroadcastFrom(servers, i, extending, ofBank, h);
        if Some(servers[i]) != extending { letters := letters + [Letter(servers[i], NewHead(ofBank, h))]; }
        i := i + 1;
      }
      BroadcastFrom(servers, i, extending, ofBank, h);
    }

    /** Takes the crashed server out and names the repair messages. */
    method TakeOut(x: Addr) returns (letters: seq<Letter>)
      requires Repairable(Value(), x)
      modifies this
      ensures RosterOk(Value())
      ensures Value() == Repaired(old(Value()), x) && letters == RepairLetters(old(Value()), x)
      ensures servers == Without(old(servers), x) && InOrder(letters)
    {
      ghost var was := Value();
      hide RosterOk, Remove, Broadcast, Distinct, InOrder, Without;
      TakenOut(was, x);
      Neighbours(was, x);
      if x == head && x != tail {
        var h := SuccServerAddr(x);
        letters := [Letter(h, ToBeHead)];
        head := h;
        RemoveNode(x);
      } else if x != head && x == tail {
        var t := PreServerAddr(x);
        letters := [Letter(t, ToBeTail)];
        tail := t;
        RemoveNode(x);
        if extending.Some? { letters := letters + [Letter(tail, ExtendServer(extending.value))]; }
      } else if x != head && x != tail && Some(x) != extending {
        var s := SuccServerAddr(x);
        var p := PreServerAddr(x);
        letters := [Letter(s, NewPre(p))];
        RemoveNode(x);
      } else {
        var p := PreServerAddr(x);
        letters := [Letter(p, ExtendFail)];
        RemoveNode(x);
        extending := None;
      }
    }

    method ReceiveJoin(x: Addr) returns (letters: seq<Letter>)
      requires RosterOk(Value()) && extending == None && x !in servers
      modifies this
      ensures RosterOk(Value())
      ensures Value() == HandleJoin(old(Value()), x).0 && letters == HandleJoin(old(Value()), x).1
      ensures |letters| == 1 && letters[0].notice == ExtendServer(x) && Adjacent(servers, letters[0].to, x)
    {
      JoinExtends(Value(), x);
      AppendNode(x);
      IndexIs(servers, |servers| - 1);
      var p := PreServerAddr(x);
      letters := [Letter(p, ExtendServer(x))];
      extending := Some(x);
    }

    method ReceiveExtendFinish(x: Addr)
      requires RosterOk(Value()) && extending == Some(x)
      modifies this
      ensures RosterOk(Value())
      ensures Value() == HandleExtendFinish(old(Value()), x)
    {
      tail := x;
      extending := None;
    }
  }

  // ---------------------------------------------------------------- all banks

  /** A message to a server of one of the banks. */
  datatype Bulletin = Bulletin(bank: BankId, letter: Letter)

  function Tagged(bank: BankId, ls: seq<Letter>): seq<Bulletin> {
    if ls == [] then [] else [Bulletin(bank, ls[0])] + Tagged(bank, ls[1..])
  }

  /** Every bank's servers hear of a bank's new head, all but the joining ones. */
  function BroadcastAll(ros: seq<Roster>, bank: BankId, head: Addr): seq<Bulletin> {
    if ros == [] then []
    else
      Tagged(ros[0].bank, Broadcast(ros[0].servers, ros[0].extending, bank, head)) + BroadcastAll(ros[1..], bank, head)
  }

  /** The master's whole reaction to the crash of server `x` of bank number `k`. */
  function NotifyBanks(ros: seq<Roster>, k: nat, x: Addr): (seq<Roster>, seq<Bulletin>)
    requires k < |ros| && Repairable(ros[k], x)
  {
    var ros' := ros[k := Repaired(ros[k], x)];
    (ros', Tagged(ros[k].bank, RepairLetters(ros[k], x)) +
           if x == ros[k].head then BroadcastAll(ros', ros[k].bank, ros'[k].head) else [])
  }

  /** Every list has its shape, and no bank is listed twice. */
  ghost predicate BanksOk(ros: seq<Roster>) {
    (forall i :: 0 <= i < |ros| ==> RosterOk(ros[i])) &&
    forall i, j :: 0 <= i < j < |ros| ==> ros[i].bank != ros[j].bank
  }

  /** A message to a listed server of `ro`'s bank that is not the joining one. */
  predicate ToListed(ro: Roster, b: Bulletin) {
    b.bank == ro.bank && b.letter.to in ro.servers && Some(b.letter.to) != ro.extending
  }

  lemma {:induction false} TaggedAre(bank: BankId, ls: seq<Letter>, b: Bulletin)
    ensures b in Tagged(bank, ls) <==> b.bank == bank && b.letter in ls
  {
    if ls != [] {
      TaggedAre(bank, ls[1..], b);
      assert ls == [ls[0]] + ls[1..];
    }
  }

  lemma {:induction false} BroadcastAllNames(ros: seq<Roster>, bank: BankId, h: Addr, b: Bulletin)
    ensures b in BroadcastAll(ros, bank, h) <==>
            b.letter.notice == NewHead(bank, h) &&
            exists j :: 0 <= j < |ros| && ToListed(ros[j], b)
  {
    hide Broadcast, Tagged;
    if ros != [] {
      TaggedAre(ros[0].bank, Broadcast(ros[0].servers, ros[0].extending, bank, h), b);
      BroadcastNames(ros[0].servers, ros[0].extending, bank, h);
      BroadcastAllNames(ros[1..], bank, h, b);
      assert forall j :: 0 <= j < |ros[1..]| ==> ros[1..][j] == ros[j + 1];
      assert forall j :: 0 < j < |ros| ==> ros[j] == ros[1..][j - 1];
    }
  }

  /** Over all banks: only the crashed server's list changes; its own bank's servers get exactly the
      messages that are due, and the other banks' servers hear of a new head and of nothing else. */
  lemma {:induction false} BanksRepair(ros: seq<Roster>, k: nat, x: Addr)
    requires BanksOk(ros) && k < |ros| && Repairable(ros[k], x)
    ensures var (ros', bulletins) := NotifyBanks(ros, k, x);
            BanksOk(ros') && ros' == ros[k := NotifyCrash(ros[k], x).0] && AllInOrder(bulletins) &&
            forall b :: b in bulletins <==>
              (b.bank == ros[k].bank && RepairDue(ros[k], ros'[k], x, b.letter)) ||
              (x == ros[k].head && b.letter.notice == NewHead(ros[k].bank, ros'[k].head) &&
               exists j :: 0 <= j < |ros| && j != k && ToListed(ros[j], b))
  {
    hide RosterOk, BroadcastAll, Tagged, Repaired, RepairLetters, RepairDue, ToListed, AllInOrder;
    CrashRepair(ros[k], x);
    KeepsExtending(ros[k], x);
    BulletinsInOrder(ros, k, x);
    forall b
      ensures b in NotifyBanks(ros, k, x).1 <==>
        (b.bank == ros[k].bank && RepairDue(ros[k], Repaired(ros[k], x), x, b.letter)) ||
        (x == ros[k].head && b.letter.notice == NewHead(ros[k].bank, Repaired(ros[k], x).head) &&
         exists j :: 0 <= j < |ros| && j != k && ToListed(ros[j], b))
    {
      BulletinDue(ros, k, x, b);
    }
  }

  ghost predicate AllInOrder(bs: seq<Bulletin>) {
    forall i, j :: 0 <= i < j < |bs| ==> bs[i] != bs[j] && !TakesRole(bs[j].letter.notice)
  }

  lemma {:induction false} AllInOrderJoined(bs: seq<Bulletin>, cs: seq<Bulletin>)
    requires AllInOrder(bs) && AllInOrder(cs)
    requires forall j :: 0 <= j < |cs| ==> !TakesRole(cs[j].letter.notice)
    requires forall i, j :: 0 <= i < |bs| && 0 <= j < |cs| ==> bs[i] != cs[j]
    ensures AllInOrder(bs + cs)
  {
    var all := bs + cs;
    forall i, j | 0 <= i < j < |all| ensures all[i] != all[j] && !TakesRole(all[j].letter.notice) {
      if j >= |bs| { assert all[j] == cs[j - |bs|]; }
    }
  }

  lemma {:induction false} FewInOrder(bs: seq<Bulletin>)
    requires |bs| <= 1
    ensures AllInOrder(bs)
  {
  }

  lemma {:induction false} InOrderRest(ls: seq<Letter>)
    requires InOrder(ls) && ls != []
    ensures InOrder(ls[1..]) && ls[0] !in ls[1..] && forall l :: l in ls[1..] ==> !TakesRole(l.notice)
  {
    assert forall i :: 0 <= i < |ls[1..]| ==> ls[1..][i] == ls[i + 1];
  }

  lemma {:induction false} TaggedInOrder(bank: BankId, ls: seq<Letter>)
    requires InOrder(ls)
    ensures AllInOrder(Tagged(bank, ls))
  {
    hide InOrder, AllInOrder;
    if ls == [] {
      FewInOrder(Tagged(bank, ls));
    } else {
      InOrderRest(ls);
      TaggedInOrder(bank, ls[1..]);
      var first, rest := [Bulletin(bank, ls[0])], Tagged(bank, ls[1..]);
      FewInOrder(first);
      forall j | 0 <= j < |rest| ensures rest[j] != first[0] && !TakesRole(rest[j].letter.notice) {
        TaggedAre(bank, ls[1..], rest[j]);
      }
      AllInOrderJoined(first, rest);
    }
  }

  lemma {:induction false} BroadcastAllOnce(ros: seq<Roster>, bank: BankId, h: Addr)
    requires BanksOk(ros)
    ensures AllInOrder(BroadcastAll(ros, bank, h))
  {
    hide Broadcast, Tagged, RosterOk, InOrder, AllInOrder;
    if ros == [] {
      FewInOrder(BroadcastAll(ros, bank, h));
    } else {
      assert forall i :: 0 <= i < |ros[1..]| ==> ros[1..][i] == ros[i + 1];
      BroadcastAllOnce(ros[1..], bank, h);
      DistinctList(ros[0]);
      var letters := Broadcast(ros[0].servers, ros[0].extending, bank, h);
      BroadcastOnce(ros[0].servers, ros[0].extending, bank, h);
      var first, rest := Tagged(ros[0].bank, letters), BroadcastAll(ros[1..], bank, h);
      TaggedInOrder(ros[0].bank, letters);
      forall i | 0 <= i < |first| ensures first[i].bank == ros[0].bank {
        TaggedAre(ros[0].bank, letters, first[i]);
      }
      forall j | 0 <= j < |rest| ensures rest[j].bank != ros[0].bank && !TakesRole(rest[j].letter.notice) {
        BroadcastAllNames(ros[1..], bank, h, rest[j]);
      }
      AllInOrderJoined(first, rest);
    }
  }

  lemma {:induction false} BulletinsInOrder(ros: seq<Roster>, k: nat, x: Addr)
    requires BanksOk(ros) && k < |ros| && Repairable(ros[k], x)
    ensures AllInOrder(NotifyBanks(ros, k, x).1)
  {
    hide RosterOk, BroadcastAll, Tagged, Repaired, RepairLetters, InOrder, AllInOrder;
    var ro' := Repaired(ros[k], x);
    var ros' := ros[k := ro'];
    CrashRepair(ros[k], x);
    var letters := RepairLetters(ros[k], x);
    OwnInOrder(ros[k], x);
    TaggedInOrder(ros[k].bank, letters);
    var first := Tagged(ros[k].bank, letters);
    if x == ros[k].head {
      BroadcastAllOnce(ros', ros[k].bank, ro'.head);
      var rest := BroadcastAll(ros', ros[k].bank, ro'.head);
      forall i | 0 <= i < |first| ensures first[i].letter.notice == ToBeHead {
        TaggedAre(ros[k].bank, letters, first[i]);
      }
      forall j | 0 <= j < |rest| ensures rest[j].letter.notice == NewHead(ros[k].bank, ro'.head) {
        BroadcastAllNames(ros', ros[k].bank, ro'.head, rest[j]);
      }
      AllInOrderJoined(first, rest);
    } else {
      assert NotifyBanks(ros, k, x).1 == first + [] && first + [] == first;
    }
  }

  lemma {:induction false} OwnInOrder(ro: Roster, x: Addr)
    requires Repairable(ro, x)
    ensures InOrder(RepairLetters(ro, x))
    ensures x == ro.head ==> forall l :: l in RepairLetters(ro, x) ==> l.notice == ToBeHead
  {
    hide RosterOk, IndexOf;
    Neighbours(ro, x);
  }

  lemma {:induction false} BulletinDue(ros: seq<Roster>, k: nat, x: Addr, b: Bulletin)
    requires BanksOk(ros) && k < |ros| && Repairable(ros[k], x)
    ensures b in NotifyBanks(ros, k, x).1 <==>
              (b.bank == ros[k].bank && RepairDue(ros[k], Repaired(ros[k], x), x, b.letter)) ||
              (x == ros[k].head && b.letter.notice == NewHead(ros[k].bank, Repaired(ros[k], x).head) &&
               exists j :: 0 <= j < |ros| && j != k && ToListed(ros[j], b))
  {
    hide RosterOk, Broadcast, BroadcastAll, Tagged, Repaired, RepairLetters, RepairDue, ToListed;
    var ro' := Repaired(ros[k], x);
    var ros' := ros[k := ro'];
    CrashRepair(ros[k], x);
    KeepsExtending(ros[k], x);
    if x == ros[k].head { OwnBroadcast(ros[k], ro', b); }
    TaggedAre(ros[k].bank, RepairLetters(ros[k], x), b);
    BroadcastAllNames(ros', ros[k].bank, ro'.head, b);
    assert (exists j :: 0 <= j < |ros'| && ToListed(ros'[j], b)) <==>
           (ToListed(ro', b) || exists j :: 0 <= j < |ros| && j != k && ToListed(ros[j], b)) by {
      if ToListed(ro', b) { assert ToListed(ros'[k], b); }
      if j :| 0 <= j < |ros| && j != k && ToListed(ros[j], b) { assert ToListed(ros'[j], b); }
    }
  }

  lemma {:induction false} OwnBroadcast(ro: Roster, ro': Roster, b: Bulletin)
    requires ro'.bank == ro.bank && ro'.extending == ro.extending
    ensures b.bank == ro.bank && b.letter in Broadcast(ro'.servers, ro.extending, ro.bank, ro'.head) <==>
            b.letter.notice == NewHead(ro.bank, ro'.head) && ToListed(ro', b)
  {
    BroadcastNames(ro'.servers, ro.extending, ro.bank, ro'.head);
  }

  lemma {:induction false} KeepsExtending(ro: Roster, x: Addr)
    requires Repairable(ro, x)
    ensures Repaired(ro, x).bank == ro.bank && (x == ro.head ==> Repaired(ro, x).extending == ro.extending)
  {
  }

  lemma {:induction false} BroadcastAllFrom(ros: seq<Roster>, i: nat, bank: BankId, h: Addr)
    requires i <= |ros|
    ensures BroadcastAll(ros[i..], bank, h) ==
            if i == |ros| then []
            else
              Tagged(ros[i].bank, Broadcast(ros[i].servers, ros[i].extending, bank, h)) +
              BroadcastAll(ros[i + 1..], bank, h)
  {
    hide Tagged, Broadcast;
    if i < |ros| { assert ros[i..][1..] == ros[i + 1..]; }
  }

  lemma {:induction false} BanksStayOk(ros: seq<Roster>, k: nat, x: Addr)
    requires BanksOk(ros) && k < |ros| && Repairable(ros[k], x)
    ensures BanksOk(ros[k := Repaired(ros[k], x)])
  {
    hide RosterOk, Repaired, RepairLetters, RepairDue, BroadcastAll, Tagged, ToListed, AllInOrder;
    BanksRepair(ros, k, x);
  }

  class Master {
    var chains: seq<BankServerChain>

    ghost predicate Valid()
      reads this, chains
    {
      (forall i, j :: 0 <= i < j < |chains| ==> chains[i] != chains[j]) && BanksOk(Rosters())
    }

    ghost function Rosters(): seq<Roster>
      reads this, chains
    {
      seq(|chains|, i requires 0 <= i < |chains| reads this, chains => chains[i].Value())
    }

    constructor (chains: seq<BankServerChain>)
      requires forall i, j :: 0 <= i < j < |chains| ==> chains[i] != chains[j] && chains[i].bank != chains[j].bank
      requires forall i :: 0 <= i < |chains| ==> RosterOk(chains[i].Value())
      ensures Valid() && this.chains == chains
    {
      this.chains := chains;
    }

    /** Tells every bank's servers of bank `bank`'s new head. */
    method BroadcastNewHead(bank: BankId, h: Addr) returns (bulletins: seq<Bulletin>)
      ensures bulletins == BroadcastAll(Rosters(), bank, h)
    {
      hide Tagged, Broadcast, BroadcastAll;
      bulletins := [];
      ghost var ros := Rosters();
      var i := 0;
      while i < |chains|
        invariant i <= |chains| && bulletins + BroadcastAll(ros[i..], bank, h) == BroadcastAll(ros, bank, h)
      {
        BroadcastAllFrom(ros, i, bank, h);
        assert ros[i] == chains[i].Value();
        var letters := chains[i].BroadcastNewHead(bank, h);
        bulletins := bulletins + Tagged(chains[i].bank, letters);
        i := i + 1;
      }
      BroadcastAllFrom(ros, i, bank, h);
    }

    method NotifyServerCrash(k: nat, x: Addr) returns (bulletins: seq<Bulletin>)
      requires Valid() && k < |chains| && Repairable(chains[k].Value(), x)
      modifies chains[k]
      ensures Valid() && chains == old(chains)
      ensures Rosters() == NotifyBanks(old(Rosters()), k, x).0
      ensures bulletins == NotifyBanks(old(Rosters()), k, x).1
    {
      hide RosterOk, Repaired, RepairLetters, RepairDue, Broadcast, BroadcastAll, Tagged, ToListed, InOrder, Without;
      ghost var was := Rosters();
      BanksStayOk(was, k, x);
      var wasHead := x == chains[k].head;
      var letters := chains[k].TakeOut(x);
      assert Rosters() == was[k := Repaired(was[k], x)];
      bulletins := Tagged(chains[k].bank, letters);
      if wasHead {
        var more := BroadcastNewHead(chains[k].bank, chains[k].head);
        bulletins := bulletins + more;
      }
    }
  }
}
