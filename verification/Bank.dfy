/** The bank as one sequential machine: a fold over a log of update requests.
    Every server of a chain computes a prefix of this fold, and every other
    module states its results against it. Identifiers are compared only for
    equality, so they are modelled as natural numbers; money is `int`. */
module Bank {
  type ReqId = nat
  type AccountId = nat
  type BankId = nat

  datatype Option<+T> = None | Some(value: T)

  datatype Kind = Deposit | Withdraw | Transfer | TransferTo

  /** An update request. `destBank` and `destAccount` are 0 when unset. */
  datatype Request = Request(id: ReqId, kind: Kind, account: AccountId, bank: BankId,
                             amount: int, destBank: BankId, destAccount: AccountId)

  datatype Outcome = Processed | InconsistentWithHistory | InsufficientFunds

  datatype Reply = Reply(id: ReqId, account: AccountId, outcome: Outcome, balance: int)

  /** The verdict of the duplicate check: first sight, identical resend, or a
      different request under a known id. */
  datatype Check = NewReq | Resend | Conflict

  /** A request together with its sequence number and what the bank made of it. */
  datatype Entry = Entry(req: Request, seqNo: nat, check: Check, reply: Reply)

  /** The key of the history: request id and account. */
  type Key = (ReqId, AccountId)

  function KeyOf(r: Request): Key { (r.id, r.account) }

  datatype Ledger = Ledger(balances: map<AccountId, int>, history: map<Key, Entry>)

  const EMPTY := Ledger(map[], map[])

  /** An account that does not exist counts as balance 0. */
  function Balance(m: map<AccountId, int>, a: AccountId): int {
    if a in m then m[a] else 0
  }

  /** Two requests under the same id are consistent when these fields agree;
      the account is not compared. */
  predicate Consistent(r: Request, q: Request) {
    r.kind == q.kind && r.bank == q.bank && r.amount == q.amount &&
    r.destBank == q.destBank && r.destAccount == q.destAccount
  }

  predicate TakesMoney(r: Request) { r.kind == Withdraw || r.kind == Transfer }

  /** Moves the money of a new request, unless funds are short. */
  function Move(m: map<AccountId, int>, r: Request): (map<AccountId, int>, Outcome) {
    var held := Balance(m, r.account);
    if TakesMoney(r) && held < r.amount then (m[r.account := held], InsufficientFunds)
    else if TakesMoney(r) then (m[r.account := held - r.amount], Processed)
    else (m[r.account := held + r.amount], Processed)
  }

  /** Serves request `r` under sequence number `n`. */
  function Serve(b: Ledger, r: Request, n: nat): (Ledger, Entry) {
    if KeyOf(r) in b.history then
      var first := b.history[KeyOf(r)];
      if Consistent(r, first.req) then (b, Entry(r, n, Resend, first.reply))
      else (b, Entry(r, n, Conflict,
                     Reply(r.id, r.account, InconsistentWithHistory, Balance(b.balances, r.account))))
    else
      var (m, outcome) := Move(b.balances, r);
      var e := Entry(r, n, NewReq, Reply(r.id, r.account, outcome, m[r.account]));
      (Ledger(m, b.history[KeyOf(r) := e]), e)
  }

  function Run(log: seq<Request>): Ledger {
    if log == [] then EMPTY
    else Serve(Run(log[..|log| - 1]), log[|log| - 1], |log|).0
  }

  /** What the bank made of log entry `i`, numbered from 1 as the head does. */
  function EntryAt(log: seq<Request>, i: nat): Entry
    requires i < |log|
  {
    Serve(Run(log[..i]), log[i], i + 1).1
  }

  /** `e` is the bank's record of the log entry with its sequence number. */
  predicate IsEntry(log: seq<Request>, e: Entry) {
    1 <= e.seqNo <= |log| && e == EntryAt(log, e.seqNo - 1)
  }

  lemma {:induction false} RunSnoc(log: seq<Request>, r: Request)
    ensures Run(log + [r]) == Serve(Run(log), r, |log| + 1).0
    ensures EntryAt(log + [r], |log|) == Serve(Run(log), r, |log| + 1).1
  {
    assert (log + [r])[..|log|] == log;
  }

  lemma {:induction false} RunStep(log: seq<Request>, i: nat)
    requires i < |log|
    ensures Run(log[..i + 1]) == Serve(Run(log[..i]), log[i], i + 1).0
  {
    assert log[..i + 1] == log[..i] + [log[i]];
    RunSnoc(log[..i], log[i]);
  }

  lemma {:induction false} EntryFields(log: seq<Request>, i: nat)
    requires i < |log|
    ensures EntryAt(log, i).req == log[i] && EntryAt(log, i).seqNo == i + 1 && IsEntry(log, EntryAt(log, i))
  {
  }

  /** The record of an entry depends only on the log up to it. */
  lemma {:induction false} EntryAtPrefix(p: seq<Request>, q: seq<Request>, i: nat)
    requires p <= q && i < |p|
    ensures EntryAt(p, i) == EntryAt(q, i)
  {
    assert p[..i] == q[..i];
  }

  // ---------------------------------------------------------------- history

  predicate HasKey(log: seq<Request>, k: Key) {
    exists i :: 0 <= i < |log| && KeyOf(log[i]) == k
  }

  /** The least index that carries key `k`. */
  ghost function FirstIndex(log: seq<Request>, k: Key): (i: nat)
    requires HasKey(log, k)
    ensures i < |log| && KeyOf(log[i]) == k
    ensures forall j :: 0 <= j < i ==> KeyOf(log[j]) != k
  {
    if KeyOf(log[0]) == k then 0
    else
      var w :| 0 <= w < |log| && KeyOf(log[w]) == k;
      assert KeyOf(log[1..][w - 1]) == k;
      1 + FirstIndex(log[1..], k)
  }

  lemma {:induction false} FirstAt(log: seq<Request>, k: Key, i: nat)
    requires i < |log| && KeyOf(log[i]) == k && forall j :: 0 <= j < i ==> KeyOf(log[j]) != k
    ensures HasKey(log, k) && FirstIndex(log, k) == i
  {
    assert HasKey(log, k);
  }

  /** The history holds, for each key in the log, the record of its first occurrence. */
  lemma {:induction false} HistoryIsFirsts(log: seq<Request>, k: Key)
    ensures k in Run(log).history <==> HasKey(log, k)
    ensures HasKey(log, k) ==>
              var e := EntryAt(log, FirstIndex(log, k));
              Run(log).history[k] == e && e.check == NewReq
  {
    if log != [] {
      var p, r := log[..|log| - 1], log[|log| - 1];
      assert log == p + [r];
      HistoryIsFirsts(p, k);
      HistoryIsFirsts(p, KeyOf(r));
      HasKeySnoc(p, r, k);
      RunSnoc(p, r);
      if HasKey(p, k) {
        var i := FirstIndex(p, k);
        assert KeyOf(log[i]) == k && FirstIndex(log, k) == i;
        EntryAtPrefix(p, log, i);
      } else if KeyOf(r) == k {
        assert KeyOf(log[|p|]) == k;
        assert forall j :: 0 <= j < |p| ==> KeyOf(log[j]) == KeyOf(p[j]);
        assert FirstIndex(log, k) == |p|;
      }
    }
  }

  lemma {:induction false} JudgedAgainst(log: seq<Request>, i: nat)
    requires i < |log|
    ensures var k := KeyOf(log[i]); var e := EntryAt(log, i);
            if !HasKey(log[..i], k) then e.check == NewReq
            else
              var f := FirstIndex(log[..i], k);
              f == FirstIndex(log, k) &&
              if Consistent(log[i], log[f]) then e.check == Resend && e.reply == EntryAt(log, f).reply
              else e.check == Conflict && e.reply.outcome == InconsistentWithHistory &&
                   e.reply.balance == Balance(Run(log[..i]).balances, log[i].account)
  {
    var k, p := KeyOf(log[i]), log[..i];
    HistoryIsFirsts(p, k);
    if HasKey(p, k) {
      var f := FirstIndex(p, k);
      assert log[f] == p[f];
      assert forall j :: 0 <= j < f ==> KeyOf(log[j]) == KeyOf(p[j]);
      EntryAtPrefix(p, log, f);
    }
  }

  predicate SameIdAndAccount(r: Request, q: Request) { r.id == q.id && r.account == q.account }

  /** An entry is new exactly when no earlier one has its id and account. Otherwise it is judged against the first
      that has: the same request, in every field, gets that one's reply; any other is turned away with the balance
      of the moment. */
  lemma {:induction false} JudgedByFirst(log: seq<Request>, i: nat)
    requires i < |log|
    ensures var e := EntryAt(log, i);
            e.req == log[i] && e.seqNo == i + 1 && e.reply.id == log[i].id && e.reply.account == log[i].account &&
            (e.check == NewReq <==> forall j :: 0 <= j < i ==> !SameIdAndAccount(log[j], log[i]))
    ensures forall f :: 0 <= f < i && SameIdAndAccount(log[f], log[i]) &&
                        (forall j :: 0 <= j < f ==> !SameIdAndAccount(log[j], log[i])) ==>
              var e := EntryAt(log, i);
              (e.check == Resend <==> log[i] == log[f]) && (e.check == Conflict <==> log[i] != log[f]) &&
              (e.check == Resend ==> e.reply == EntryAt(log, f).reply) &&
              (e.check == Conflict ==> e.reply.outcome == InconsistentWithHistory &&
                                       e.reply.balance == Balance(Run(log[..i]).balances, log[i].account))
  {
    JudgedNew(log, i);
    EntryFields(log, i);
    ReplyNames(log, i);
    hide Run, EntryAt;
    forall f | 0 <= f < i && SameIdAndAccount(log[f], log[i]) && forall j :: 0 <= j < f ==>
      !SameIdAndAccount(log[j], log[i])
      ensures var e := EntryAt(log, i);
        (e.check == Resend <==> log[i] == log[f]) && (e.check == Conflict <==> log[i] != log[f]) &&
        (e.check == Resend ==> e.reply == EntryAt(log, f).reply) &&
        (e.check == Conflict ==> e.reply.outcome == InconsistentWithHistory &&
                                 e.reply.balance == Balance(Run(log[..i]).balances, log[i].account))
    {
      JudgedAs(log, i, f);
    }
  }

  lemma {:induction false} JudgedNew(log: seq<Request>, i: nat)
    requires i < |log|
    ensures EntryAt(log, i).check == NewReq <==> forall j :: 0 <= j < i ==> KeyOf(log[j]) != KeyOf(log[i])
  {
    var k := KeyOf(log[i]);
    JudgedAgainst(log, i);
    hide Run, EntryAt;
    if j :| 0 <= j < i && KeyOf(log[j]) == k { assert KeyOf(log[..i][j]) == k; }
    if HasKey(log[..i], k) {
      var j :| 0 <= j < |log[..i]| && KeyOf(log[..i][j]) == k;
      assert KeyOf(log[j]) == k;
    }
  }

  lemma {:induction false} JudgedAs(log: seq<Request>, i: nat, f: nat)
    requires f < i < |log| && KeyOf(log[f]) == KeyOf(log[i])
    requires forall j :: 0 <= j < f ==> KeyOf(log[j]) != KeyOf(log[i])
    ensures var e := EntryAt(log, i);
            (e.check == Resend <==> log[i] == log[f]) && (e.check == Conflict <==> log[i] != log[f]) &&
            (e.check == Resend ==> e.reply == EntryAt(log, f).reply) &&
            (e.check == Conflict ==> e.reply.outcome == InconsistentWithHistory &&
                                     e.reply.balance == Balance(Run(log[..i]).balances, log[i].account))
  {
    JudgedAgainst(log, i);
    hide Run, EntryAt;
    var p := log[..i];
    assert forall j :: 0 <= j < f ==> p[j] == log[j];
    assert p[f] == log[f];
    FirstAt(p, KeyOf(log[i]), f);
  }

  lemma {:induction false} ReplyNames(log: seq<Request>, i: nat)
    requires i < |log|
    ensures EntryAt(log, i).reply.id == log[i].id && EntryAt(log, i).reply.account == log[i].account
  {
    JudgedAgainst(log, i);
    if HasKey(log[..i], KeyOf(log[i])) {
      var f := FirstIndex(log[..i], KeyOf(log[i]));
      HistoryIsFirsts(log, KeyOf(log[i]));
      assert EntryAt(log, f).check == NewReq;
    }
  }

  /** A new request sent once more gets the same reply. */
  lemma {:induction false} ResendRecord(log: seq<Request>, f: nat)
    requires f < |log| && EntryAt(log, f).check == NewReq
    ensures EntryAt(log + [log[f]], |log|) == Entry(log[f], |log| + 1, Resend, EntryAt(log, f).reply)
  {
    JudgedNew(log, f);
    hide Run, EntryAt;
    var log' := log + [log[f]];
    assert forall j :: 0 <= j < |log| ==> log'[j] == log[j];
    JudgedAs(log', |log|, f);
    EntryFields(log', |log|);
    EntryAtPrefix(log, log', f);
  }

  // ----------------------------------------------------------- exactly once

  /** The log reduced to the first occurrence of each key. */
  function Firsts(log: seq<Request>): seq<Request> {
    if log == [] then []
    else
      var p, r := log[..|log| - 1], log[|log| - 1];
      if HasKey(p, KeyOf(r)) then Firsts(p) else Firsts(p) + [r]
  }

  lemma {:induction false} FirstsKeys(log: seq<Request>, k: Key)
    ensures HasKey(Firsts(log), k) <==> HasKey(log, k)
  {
    if log != [] {
      var p, r := log[..|log| - 1], log[|log| - 1];
      FirstsKeys(p, k);
      assert log == p + [r];
      assert HasKey(log, k) <==> HasKey(p, k) || KeyOf(r) == k by { HasKeySnoc(p, r, k); }
      HasKeySnoc(Firsts(p), r, k);
    }
  }

  lemma {:induction false} HasKeySnoc(p: seq<Request>, r: Request, k: Key)
    ensures HasKey(p + [r], k) <==> HasKey(p, k) || KeyOf(r) == k
  {
    if HasKey(p, k) {
      var i :| 0 <= i < |p| && KeyOf(p[i]) == k;
      assert KeyOf((p + [r])[i]) == k;
    }
    if KeyOf(r) == k { assert KeyOf((p + [r])[|p|]) == k; }
    if HasKey(p + [r], k) {
      var i :| 0 <= i < |p + [r]| && KeyOf((p + [r])[i]) == k;
      if i < |p| { assert KeyOf(p[i]) == k; }
    }
  }

  /** Same keys, and under each key the same request with the same reply. */
  predicate SameHistory(h: map<Key, Entry>, g: map<Key, Entry>) {
    h.Keys == g.Keys && forall k :: k in h ==> h[k].req == g[k].req && h[k].reply == g[k].reply
  }

  lemma {:induction false} ServeSame(b: Ledger, c: Ledger, r: Request, n: nat, m: nat)
    requires b.balances == c.balances && SameHistory(b.history, c.history)
    ensures Serve(b, r, n).0.balances == Serve(c, r, m).0.balances
    ensures SameHistory(Serve(b, r, n).0.history, Serve(c, r, m).0.history)
    ensures KeyOf(r) in c.history ==> Serve(c, r, m).0 == c
  {
  }

  /** The reduced log has every key of the log once. */
  lemma {:induction false} FirstsOnce(log: seq<Request>)
    ensures forall i, j :: 0 <= i < j < |Firsts(log)| ==> KeyOf(Firsts(log)[i]) != KeyOf(Firsts(log)[j])
    ensures forall k :: HasKey(Firsts(log), k) <==> HasKey(log, k)
  {
    forall k ensures HasKey(Firsts(log), k) <==> HasKey(log, k) { FirstsKeys(log, k); }
    if log != [] {
      var p, r := log[..|log| - 1], log[|log| - 1];
      FirstsOnce(p);
      assert !HasKey(p, KeyOf(r)) ==> forall i :: 0 <= i < |Firsts(p)| ==> KeyOf(Firsts(p)[i]) != KeyOf(r);
    }
  }

  /** Exactly once: resends and conflicting resends leave no trace. */
  lemma {:induction false} ExactlyOnce(log: seq<Request>)
    ensures Run(Firsts(log)).balances == Run(log).balances
    ensures SameHistory(Run(Firsts(log)).history, Run(log).history)
  {
    if log != [] {
      hide Run, Serve, EntryAt, HasKey;
      var p, r := log[..|log| - 1], log[|log| - 1];
      ExactlyOnce(p);
      assert log == p + [r];
      RunSnoc(p, r);
      HistoryIsFirsts(p, KeyOf(r));
      RunSnoc(Firsts(p), r);
      ServeSame(Run(Firsts(p)), Run(p), r, |Firsts(p)| + 1, |p| + 1);
    }
  }

  // ---------------------------------------------------------------- amounts

  /** No balance is ever negative when amounts are not. */
  lemma {:induction false} NeverNegative(log: seq<Request>, a: AccountId)
    requires forall r :: r in log ==> r.amount >= 0
    ensures Balance(Run(log).balances, a) >= 0
  {
    if log != [] {
      var p, r := log[..|log| - 1], log[|log| - 1];
      assert log == p + [r];
      RunSnoc(p, r);
      NeverNegative(p, a);
      NeverNegative(p, r.account);
    }
  }

  ghost function Sum(m: map<AccountId, int>): int
    decreases |m|
  {
    if m == map[] then 0
    else
      var a :| a in m;
      m[a] + Sum(m - {a})
  }

  lemma {:induction false} SumRemove(m: map<AccountId, int>, a: AccountId)
    requires a in m
    ensures Sum(m) == m[a] + Sum(m - {a})
    decreases |m|
  {
    var c :| c in m && Sum(m) == m[c] + Sum(m - {c});
    if c != a {
      SumRemove(m - {c}, a);
      SumRemove(m - {a}, c);
      assert m - {c} - {a} == m - {a} - {c};
    }
  }

  lemma {:induction false} SumUpdate(m: map<AccountId, int>, a: AccountId, v: int)
    ensures Sum(m[a := v]) == Sum(m) - Balance(m, a) + v
  {
    SumRemove(m[a := v], a);
    assert m[a := v] - {a} == m - {a};
    if a in m { SumRemove(m, a); } else { assert m - {a} == m; }
  }

  /** A first occurrence that moved money. */
  predicate Effective(e: Entry) { e.check == NewReq && e.reply.outcome == Processed }

  /** Total amount of the effective entries of one kind. */
  function Moved(log: seq<Request>, k: Kind): int {
    if log == [] then 0
    else
      var p, e := log[..|log| - 1], EntryAt(log, |log| - 1);
      Moved(p, k) + if Effective(e) && e.req.kind == k then e.req.amount else 0
  }

  lemma {:induction false} MovedSnoc(log: seq<Request>, r: Request, k: Kind)
    ensures Moved(log + [r], k) == Moved(log, k) +
            (var e := EntryAt(log + [r], |log|); if Effective(e) && r.kind == k then r.amount else 0)
  {
    assert (log + [r])[..|log|] == log;
  }

  /** The sum of the balances is what came in minus what went out, each
      effective request counted once. */
  lemma {:induction false} SumOfBalances(log: seq<Request>)
    ensures Sum(Run(log).balances) ==
            Moved(log, Deposit) + Moved(log, TransferTo) - Moved(log, Withdraw) - Moved(log, Transfer)
  {
    if log != [] {
      var p, r := log[..|log| - 1], log[|log| - 1];
      assert log == p + [r];
      RunSnoc(p, r);
      SumOfBalances(p);
      SumUpdate(Run(p).balances, r.account, Balance(Run(log).balances, r.account));
    }
  }

  /** What an entry adds to the balance of account `a`. */
  function Change(e: Entry, a: AccountId): int {
    if !Effective(e) || e.req.account != a then 0 else if TakesMoney(e.req) then -e.req.amount else e.req.amount
  }

  function Changes(log: seq<Request>, a: AccountId): int {
    if log == [] then 0 else Changes(log[..|log| - 1], a) + Change(EntryAt(log, |log| - 1), a)
  }

  /** Account by account too: a balance is the account's own effective requests, added up. */
  lemma {:induction false} BalanceIsChanges(log: seq<Request>, a: AccountId)
    ensures Balance(Run(log).balances, a) == Changes(log, a)
  {
    if log != [] {
      var p, r := log[..|log| - 1], log[|log| - 1];
      assert log == p + [r];
      RunSnoc(p, r);
      BalanceIsChanges(p, a);
    }
  }

  /** A new request is refused exactly when it takes more than the account holds, and its reply
      shows the balance after it. */
  lemma {:induction false} RefusedExactly(log: seq<Request>, i: nat)
    requires i < |log| && EntryAt(log, i).check == NewReq
    ensures var e, held := EntryAt(log, i), Balance(Run(log[..i]).balances, log[i].account);
            (e.reply.outcome == InsufficientFunds <==> TakesMoney(log[i]) && log[i].amount > held) &&
            (e.reply.outcome == Processed || e.reply.outcome == InsufficientFunds) &&
            e.reply.balance == Balance(Run(log[..i + 1]).balances, log[i].account)
  {
    RunStep(log, i);
  }
}
