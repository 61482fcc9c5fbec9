/** A new server joins at the end of the chain: the tail sends it a snapshot
    piece by piece while it goes on taking updates, then the updates it took
    since, then hands over the tail role. Both programs of the repository do
    this; they differ in the messages and in how the new server gets its
    sequence number. */
module Extension {
  import opened Bank
  import opened Replicas

  /** `Cpp` stands for src-cpp, `Da` for src-da. */
  datatype Version = Cpp | Da

  datatype ExtendMsg =
    // src-cpp
    | Start(sender: Addr)
    | AccountMsg(account: AccountId, balance: int)
    | HistoryMsg(e: Entry)
    | SentMsg(e: Entry)
    | Fin
    // src-da
    | Begin(sender: Addr, n: nat)
    | AccountHistory(account: AccountId, balance: int, history: map<Key, Entry>)
    | SentList(es: seq<Entry>)

  function Later(a: nat, b: nat): nat { if a < b then b else a }

  // ---------------------------------------------------------- the new server

  /** A replayed update in src-cpp: judged again, whatever its number. */
  function ApplySent(s: Replica, e: Entry): Replica {
    var (s1, e1) := UpdateReply(s.(seqNo := Later(s.seqNo, e.seqNo)), e.req, e.seqNo);
    if e1.check == NewReq then s1.(processed := InsertProcessed(s1.processed, e1)) else s1
  }

  /** A replayed update in src-da: skipped unless its number is above the server's own. */
  function ApplyAbove(s: Replica, e: Entry): Replica {
    if e.seqNo > s.seqNo then
      var (s1, e1) := UpdateReply(s.(seqNo := e.seqNo), e.req, e.seqNo);
      s1.(processed := InsertProcessed(s1.processed, e1))
    else s
  }

  function ApplyAllAbove(s: Replica, es: seq<Entry>): Replica
    decreases |es|
  {
    if es == [] then s else ApplyAllAbove(ApplyAbove(s, es[0]), es[1..])
  }

  function OfAccount(h: map<Key, Entry>, a: AccountId): map<Key, Entry> {
    map k | k in h && k.1 == a :: h[k]
  }

  function NotOfAccount(h: map<Key, Entry>, a: AccountId): map<Key, Entry> {
    map k | k in h && k.1 != a :: h[k]
  }

  /** One message of the hand-over arrives; `None` is a failed assertion. */
  function ReceiveExtend(s: Replica, msg: ExtendMsg): Option<Replica> {
    match msg
    case Start(p) => Some(s.(balances := map[], processed := map[], seqNo := 0, pre := Option.Some(p)))
    case AccountMsg(a, b) => if a in s.balances then None else Some(s.(balances := s.balances[a := b]))
    case HistoryMsg(e) =>
      Some(s.(seqNo := Later(s.seqNo, e.seqNo), processed := InsertProcessed(s.processed, e)))
    case SentMsg(e) => Some(ApplySent(s, e))
    case Fin => Some(s.(isTail := true))
    case Begin(p, n) => Some(s.(balances := map[], processed := map[], sent := [], seqNo := n, pre := Option.Some(p)))
    case AccountHistory(a, b, h) =>
      Some(s.(balances := s.balances[a := b], processed := NotOfAccount(s.processed, a) + h))
    case SentList(es) => Some(ApplyAllAbove(s, es).(isTail := true))
  }

  function Take(s: Replica, ms: seq<ExtendMsg>): Option<Replica>
    decreases |ms|
  {
    if ms == [] then Some(s)
    else
      match ReceiveExtend(s, ms[0])
      case None => None
      case Some(t) => Take(t, ms[1..])
  }

  // ------------------------------------------------------------ the old tail

  ghost predicate Enumerates<T(!new)>(xs: seq<T>, all: set<T>) {
    (forall i, j :: 0 <= i < j < |xs| ==> xs[i] != xs[j]) && forall x :: x in xs <==> x in all
  }

  function AccountMsgs(accounts: seq<AccountId>, m: map<AccountId, int>): seq<ExtendMsg> {
    if accounts == [] then []
    else [AccountMsg(accounts[0], Balance(m, accounts[0]))] + AccountMsgs(accounts[1..], m)
  }

  function HistoryMsgs(keys: seq<Key>, h: map<Key, Entry>): seq<ExtendMsg>
    requires forall k :: k in keys ==> k in h
  {
    if keys == [] then [] else [HistoryMsg(h[keys[0]])] + HistoryMsgs(keys[1..], h)
  }

  function PieceMsgs(accounts: seq<AccountId>, m: map<AccountId, int>, h: map<Key, Entry>): seq<ExtendMsg> {
    if accounts == [] then []
    else
      [AccountHistory(accounts[0], Balance(m, accounts[0]), OfAccount(h, accounts[0]))] + PieceMsgs(accounts[1..], m, h)
  }

  function SentMsgs(es: seq<Entry>): seq<ExtendMsg> {
    if es == [] then [] else [SentMsg(es[0])] + SentMsgs(es[1..])
  }

  /** The snapshot of `s` in pieces, in whatever order the maps are walked. In
      src-da an account comes with its part of the history; accounts without history may be left out. */
  ghost predicate IsSnapshot(v: Version, s: Replica, self: Addr, ms: seq<ExtendMsg>) {
    match v
    case Cpp =>
      exists accounts, keys ::
        Enumerates(accounts, s.balances.Keys) && Enumerates(keys, s.processed.Keys) &&
        ms == [Start(self)] + (AccountMsgs(accounts, s.balances) + HistoryMsgs(keys, s.processed))
    case Da =>
      exists accounts ::
        (forall a :: a in accounts ==> a in s.balances) && (forall k :: k in s.processed ==> k.1 in accounts) &&
        ms == [Begin(self, s.seqNo)] + PieceMsgs(accounts, s.balances, s.processed)
  }

  /** What follows once the snapshot is out: the updates taken since, and the tail role. */
  function FinalMsgs(v: Version, sent: seq<Entry>): seq<ExtendMsg> {
    match v
    case Cpp => SentMsgs(sent) + [Fin]
    case Da => [SentList(sent)]
  }

  /** The order to extend the chain; the sent list must be empty. */
  function ReceiveExtendServer(s: Replica, joiner: Addr): Step {
    if s.sent != [] then Abort else Done(s.(extending := true, succ := Option.Some(joiner)), SILENT)
  }

  /** The final message is out. src-da empties the sent list, src-cpp keeps it. */
  function StepDown(v: Version, s: Replica): Replica {
    s.(isTail := false, extending := false, sent := if v == Da then [] else s.sent)
  }

  /** src-cpp: the new server failed; drop the sent list and be the tail. */
  function ExtendingServerFail(s: Replica): Replica {
    s.(extending := false, sent := [], isTail := true)
  }

  function InsertAll(p: map<Key, Entry>, es: seq<Entry>): map<Key, Entry>
    decreases |es|
  {
    if es == [] then p else InsertAll(InsertProcessed(p, es[0]), es[1..])
  }

  /** src-da: a server that is no longer the tail first takes its sent list as processed. */
  function AbortExtending(s: Replica): (Replica, Out) {
    (s.(processed := if s.isTail then s.processed else InsertAll(s.processed, s.sent),
        sent := [], isTail := true, extending := false),
     if s.isTail || s.isHead || s.sent == [] then SILENT else SILENT.(acks := [s.sent[|s.sent| - 1].seqNo]))
  }

  // ----------------------------------------------------- loading a snapshot

  lemma {:induction false} TakeAppend(s: Replica, ms: seq<ExtendMsg>, ns: seq<ExtendMsg>)
    ensures Take(s, ms + ns) == match Take(s, ms) case None => None case Some(t) => Take(t, ns)
    decreases |ms|
  {
    hide ReceiveExtend;
    if ms == [] {
      assert ms + ns == ns;
    } else {
      assert (ms + ns)[1..] == ms[1..] + ns;
      match ReceiveExtend(s, ms[0]) {
        case None =>
        case Some(t) => TakeAppend(t, ms[1..], ns);
      }
    }
  }

  /** A map with `accounts` set to their balance in `m`. */
  function Opened(b: map<AccountId, int>, accounts: seq<AccountId>, m: map<AccountId, int>): map<AccountId, int>
    decreases |accounts|
  {
    if accounts == [] then b else Opened(b[accounts[0] := Balance(m, accounts[0])], accounts[1..], m)
  }

  lemma {:induction false} OpenedIs(
      b: map<AccountId, int>, accounts: seq<AccountId>, m: map<AccountId, int>, a: AccountId)
    ensures a in Opened(b, accounts, m) <==> a in b || a in accounts
    ensures a in accounts ==> Opened(b, accounts, m)[a] == Balance(m, a)
    ensures a in b && a !in accounts ==> Opened(b, accounts, m)[a] == b[a]
    decreases |accounts|
  {
    if accounts != [] {
      OpenedIs(b[accounts[0] := Balance(m, accounts[0])], accounts[1..], m, a);
      assert accounts == [accounts[0]] + accounts[1..];
    }
  }

  lemma {:induction false} TakeAccounts(s: Replica, accounts: seq<AccountId>, m: map<AccountId, int>)
    requires forall i, j :: 0 <= i < j < |accounts| ==> accounts[i] != accounts[j]
    requires forall a :: a in accounts ==> a !in s.balances
    ensures Take(s, AccountMsgs(accounts, m)) == Some(s.(balances := Opened(s.balances, accounts, m)))
    decreases |accounts|
  {
    if accounts != [] {
      assert AccountMsgs(accounts, m)[1..] == AccountMsgs(accounts[1..], m);
      TakeAccounts(s.(balances := s.balances[accounts[0] := Balance(m, accounts[0])]), accounts[1..], m);
    }
  }

  /** The greatest number among `n` and those of the records under `keys`. */
  function MaxSeq(n: nat, keys: seq<Key>, h: map<Key, Entry>): nat
    requires forall k :: k in keys ==> k in h
    decreases |keys|
  {
    if keys == [] then n else MaxSeq(Later(n, h[keys[0]].seqNo), keys[1..], h)
  }

  lemma {:induction false} MaxSeqIs(n: nat, keys: seq<Key>, h: map<Key, Entry>)
    requires forall k :: k in keys ==> k in h
    ensures var m := MaxSeq(n, keys, h);
            m >= n && (forall k :: k in keys ==> m >= h[k].seqNo) &&
            (m == n || exists k :: k in keys && m == h[k].seqNo)
    decreases |keys|
  {
    if keys != [] {
      MaxSeqIs(Later(n, h[keys[0]].seqNo), keys[1..], h);
      assert keys == [keys[0]] + keys[1..];
    }
  }

  /** The history is keyed by its own records. */
  predicate KeyedByRecord(h: map<Key, Entry>) {
    forall k :: k in h ==> KeyOf(h[k].req) == k
  }

  lemma {:induction false} TakeHistories(s: Replica, keys: seq<Key>, h: map<Key, Entry>)
    requires KeyedByRecord(h) && forall k :: k in keys ==> k in h
    requires forall k :: k in s.processed ==> k in h && s.processed[k] == h[k]
    ensures var t := Take(s, HistoryMsgs(keys, h));
            t.Some? && t.value == s.(processed := t.value.processed, seqNo := MaxSeq(s.seqNo, keys, h)) &&
            (forall k :: k in t.value.processed <==> k in s.processed || k in keys) &&
            (forall k :: k in t.value.processed ==> k in h && t.value.processed[k] == h[k])
    decreases |keys|
  {
    if keys != [] {
      var e := h[keys[0]];
      var s1 := s.(seqNo := Later(s.seqNo, e.seqNo), processed := InsertProcessed(s.processed, e));
      assert HistoryMsgs(keys, h)[1..] == HistoryMsgs(keys[1..], h);
      TakeHistories(s1, keys[1..], h);
      assert forall k :: k in keys <==> k == keys[0] || k in keys[1..];
    }
  }

  lemma {:induction false} OpenedSnoc(b: map<AccountId, int>, accounts: seq<AccountId>, m: map<AccountId, int>)
    ensures Opened(b, accounts, m) ==
            if accounts == [] then b else Opened(b[accounts[0] := Balance(m, accounts[0])], accounts[1..], m)
  {
  }

  lemma {:induction false} TakePieces(s: Replica, accounts: seq<AccountId>, m: map<AccountId, int>, h: map<Key, Entry>)
    ensures var t := Take(s, PieceMsgs(accounts, m, h));
            t.Some? && t.value == s.(balances := Opened(s.balances, accounts, m), processed := t.value.processed) &&
            (forall k :: k in t.value.processed <==> k in (if k.1 in accounts then h else s.processed)) &&
            (forall k :: k in t.value.processed ==>
               t.value.processed[k] == (if k.1 in accounts then h else s.processed)[k])
    decreases |accounts|
  {
    hide UpdateReply, ApplyAllAbove, ApplySent, InsertProcessed, Opened, Balance;
    OpenedSnoc(s.balances, accounts, m);
    if accounts != [] {
      var a := accounts[0];
      var s1 := s.(balances := s.balances[a := Balance(m, a)],
                   processed := NotOfAccount(s.processed, a) + OfAccount(h, a));
      assert PieceMsgs(accounts, m, h)[1..] == PieceMsgs(accounts[1..], m, h);
      TakePieces(s1, accounts[1..], m, h);
      assert forall c :: c in accounts <==> c == a || c in accounts[1..];
    }
  }
}
