/** What becomes of the old tail once it has stepped down, and of either tail when the
    joining server fails. src-cpp's old tail keeps its sent list, so its processed map is ahead
    of it until the new tail's first ack arrives. */
module StepDowns {
  import opened Bank
  import opened Replicas
  import opened Extension
  import opened HandOver

  /** How many entries at the front of the sent list are processed already, when the first `a` updates are. */
  function Surplus(s: Replica, log: seq<Request>, a: nat): int { a - (|log| - |s.sent|) }

  /** The server without those. */
  function Trimmed(s: Replica, log: seq<Request>, a: nat): Replica
    requires 0 <= Surplus(s, log, a) <= |s.sent|
  {
    s.(sent := s.sent[Surplus(s, log, a)..])
  }

  /** An internal server of `log` whose processed map is the history of the first `a` updates, although
      the sent list may hold some of these too. */
  ghost predicate Ahead(s: Replica, log: seq<Request>, a: nat) {
    !s.isTail && EndsWith(log, s.sent) && 0 <= Surplus(s, log, a) <= |s.sent| && Refines(Trimmed(s, log, a), log)
  }

  ghost predicate IsAhead(s: Replica, log: seq<Request>) { exists a :: Ahead(s, log, a) }

  lemma {:induction false} RefinesIsAhead(s: Replica, log: seq<Request>)
    requires Refines(s, log) && !s.isTail
    ensures Ahead(s, log, Acked(s)) && IsAhead(s, log)
  {
    hide Run, EntryAt;
    EndsWithFits(log, s.sent);
    assert Surplus(s, log, Acked(s)) == 0 && s.sent[0..] == s.sent;
  }

  lemma {:induction false} NotAheadRefines(s: Replica, log: seq<Request>, a: nat)
    requires Ahead(s, log, a) && Surplus(s, log, a) == 0
    ensures Refines(s, log)
  {
    hide Refines, EndsWith;
    assert s.sent[0..] == s.sent;
  }

  lemma {:induction false} EmptiedRefines(s: Replica, log: seq<Request>)
    requires Refines(s, log) && s.isTail
    ensures Refines(s.(isTail := false, extending := false, sent := []), log)
  {
    hide Run, EntryAt, IsEntry, PendingTransfer;
    assert log[..|log|] == log;
  }

  /** A src-cpp tail that steps down is ahead by its whole sent list; a src-da tail is an internal server at once. */
  lemma {:induction false} StepDownAhead(s: Replica, log: seq<Request>)
    requires Refines(s, log) && s.isTail && EndsWith(log, s.sent)
    ensures Ahead(StepDown(Cpp, s), log, |log|) && Refines(StepDown(Da, s), log)
  {
    hide Refines, EntryAt;
    EmptiedRefines(s, log);
    EndsWithFits(log, s.sent);
    assert s.sent[|s.sent|..] == [];
  }

  /** Being ahead is more than `Refines` allows as soon as an update was taken during the transfer. */
  lemma {:induction false} StepDownIsNotRefined(s: Replica, log: seq<Request>, i: nat)
    requires Refines(s, log) && s.isTail && EndsWith(log, s.sent)
    requires |log| - |s.sent| <= i < |log| && EntryAt(log, i).check == NewReq
    ensures !Refines(StepDown(Cpp, s), log)
  {
    hide Run, EntryAt;
    NewIsFirst(log, i);
    TailHistory(s, log);
  }

  // --------------------------------------------------------------- its answers

  /** What the sent list holds beyond the processed map decides a lookup; the surplus only repeats. */
  lemma {:induction false} SurplusUnseen(s: Replica, log: seq<Request>, a: nat, id: ReqId)
    requires Ahead(s, log, a)
    requires forall r :: r in log[..a] ==> r.id != id
    ensures FindSent(s.sent, id) == FindSent(Trimmed(s, log, a).sent, id)
  {
    hide Run, EntryAt, Refines;
    SentFields(log, s.sent);
    EndsWithFits(log, s.sent);
    var d := Surplus(s, log, a);
    forall i | 0 <= i < d ensures s.sent[i].req.id != id {
      assert s.sent[i].req == log[..a][|log| - |s.sent| + i];
    }
    FindSentSkips(s.sent, id, d);
  }

  lemma {:induction false} FindSentSkips(es: seq<Entry>, id: ReqId, d: nat)
    requires d <= |es| && forall i :: 0 <= i < d ==> es[i].req.id != id
    ensures FindSent(es, id) == FindSent(es[d..], id)
    decreases d
  {
    if d > 0 {
      FindSentSkips(es[1..], id, d - 1);
      assert es[1..][d - 1..] == es[d..];
    } else {
      assert es[0..] == es;
    }
  }

  lemma {:induction false} LookupTrimmed(s: Replica, log: seq<Request>, a: nat, r: Request)
    requires Ahead(s, log, a) && NamesAccount(log, r)
    ensures Lookup(s, r) == Lookup(Trimmed(s, log, a), r)
  {
    hide Run, EntryAt, FindSent, Refines, EndsWith;
    if KeyOf(r) !in s.processed {
      AheadHistory(s, log, a);
      HistoryIsFirsts(log[..a], KeyOf(r));
      forall q | q in log[..a] ensures q.id != r.id {
        var i :| 0 <= i < |log[..a]| && log[..a][i] == q;
        assert log[i] == q;
      }
      SurplusUnseen(s, log, a, r.id);
    }
  }

  lemma {:induction false} AheadHistory(s: Replica, log: seq<Request>, a: nat)
    requires Ahead(s, log, a)
    ensures a <= |log| && s.processed == Run(log[..a]).history && s.seqNo == |log|
  {
    hide Run, EntryAt;
    EndsWithFits(log, s.sent);
  }

  /** The old tail's lookups are right, however many updates it has relayed since. */
  lemma {:induction false} AheadAnswers(s: Replica, log: seq<Request>, r: Request)
    requires IsAhead(s, log) && NamesAccount(log, r)
    ensures Lookup(s, r) == FirstRecord(log, r)
  {
    hide Refines, FirstRecord, FindSent, Run, EntryAt, EndsWith;
    var a :| Ahead(s, log, a);
    LookupTrimmed(s, log, a, r);
    TwoLevelLookup(Trimmed(s, log, a), log, r);
  }

  // ------------------------------------------------------------- relays and acks

  lemma {:induction false} ReplyTrimmed(s: Replica, t: Replica, r: Request, n: nat)
    requires t == s.(sent := t.sent) && Lookup(s, r) == Lookup(t, r)
    ensures UpdateReply(t, r, n).1 == UpdateReply(s, r, n).1
    ensures UpdateReply(t, r, n).0 == UpdateReply(s, r, n).0.(sent := t.sent)
    ensures UpdateReply(s, r, n).0.sent == s.sent && UpdateReply(s, r, n).0.isTail == s.isTail
  {
    hide Lookup, Move;
  }

  /** A relayed update extends the log; what is ahead stays ahead. */
  lemma {:induction false} RelayAhead(s: Replica, log: seq<Request>, a: nat, r: Request)
    requires Ahead(s, log, a) && NamesAccount(log, r)
    ensures var t := Relay(s, r, |log| + 1); var e := EntryAt(log + [r], |log|);
            t.Done? && t.out == SILENT.(forwards := [e]) && Ahead(t.rep, log + [r], a)
  {
    hide Run, EntryAt, Refines, UpdateReply, EndsWith, Lookup;
    var u, d := Trimmed(s, log, a), Surplus(s, log, a);
    LookupTrimmed(s, log, a, r);
    ReplyTrimmed(s, u, r, |log| + 1);
    RelayRefines(u, log, r);
    RelayForwards(u, log, r);
    EndsWithFits(log, s.sent);
    EndsWithSnoc(log, s.sent, r);
    var e := EntryAt(log + [r], |log|);
    var t := Relay(s, r, |log| + 1).rep;
    assert t.sent == s.sent + [e] && (s.sent + [e])[d..] == s.sent[d..] + [e];
    assert Trimmed(t, log + [r], a) == Relay(u, r, |log| + 1).rep;
  }

  lemma {:induction false} RelayForwards(s: Replica, log: seq<Request>, r: Request)
    requires Refines(s, log) && NamesAccount(log, r) && !s.isTail
    ensures UpdateReply(s, r, |log| + 1).1 == EntryAt(log + [r], |log|)
  {
    hide Run, EntryAt, Refines, UpdateReply;
    UpdateReplyRefines(s, log, r);
  }

  /** An ack of all that is processed makes it an ordinary internal server; a lesser one leaves it ahead. */
  lemma {:induction false} AckAhead(s: Replica, log: seq<Request>, a: nat, k: nat)
    requires Ahead(s, log, a)
    ensures var t := Acknowledge(s, k);
            if k >= a then Refines(t, log) && !t.isTail && Acked(t) == (if k <= |log| then k else |log|)
            else Ahead(t, log, a)
    decreases |s.sent|
  {
    hide Run, EntryAt, Refines, Acked;
    AheadHistory(s, log, a);
    if Surplus(s, log, a) == 0 {
      AckRefined(s, log, a, k);
    } else {
      EndsWithTail(log, s.sent);
      EndsWithFits(log, s.sent);
      var c := |log| - |s.sent|;
      EntryFields(log, c);
      assert log[..a][c] == log[c];
      InHistory(log[..a], log[c]);
      hide EndsWith;
      if s.sent[0].seqNo <= k {
        var s1 := s.(sent := s.sent[1..]);
        assert InsertProcessed(s.processed, s.sent[0]) == s.processed;
        assert s1.sent[Surplus(s1, log, a)..] == s.sent[Surplus(s, log, a)..];
        AckAhead(s1, log, a, k);
      }
    }
  }

  lemma {:induction false} AckRefined(s: Replica, log: seq<Request>, a: nat, k: nat)
    requires Ahead(s, log, a) && Surplus(s, log, a) == 0
    ensures var t := Acknowledge(s, k);
            Refines(t, log) && !t.isTail && (k >= a ==> Acked(t) == (if k <= |log| then k else |log|)) &&
            (k < a ==> Ahead(t, log, a))
  {
    hide Run, EntryAt, Acknowledge;
    NotAheadRefines(s, log, a);
    AcknowledgeRefines(s, log, k);
    EndsWithFits(log, s.sent);
    var t := Acknowledge(s, k);
    RefinesIsAhead(t, log);
    EndsWithFits(log, t.sent);
  }

  /** What reaches the old tail after it has stepped down: updates to relay, acks, and the master's orders when
      servers before or after it crash. */
  datatype Event =
    | Relayed(r: Request)
    | AckedTo(k: nat)
    | MadeHead
    | Preceded(pre: Addr)
    | Succeeded(succ: Addr, n: nat)

  function Since(s: Replica, evs: seq<Event>): Replica
    decreases |evs|
  {
    if evs == [] then s
    else
      match evs[0]
      case Relayed(r) => Since(RelayedRep(s, r), evs[1..])
      case AckedTo(k) => Since(Acknowledge(s, k), evs[1..])
      case MadeHead => Since(ToBeHead(s).rep, evs[1..])
      case Preceded(p) => Since(NewPreServer(s, p).rep, evs[1..])
      case Succeeded(x, n) => Since(NewSuccServer(s, x, n).rep, evs[1..])
  }

  function RelayedRep(s: Replica, r: Request): Replica {
    var t := Relay(s, r, s.seqNo + 1);
    if t.Done? then t.rep else s
  }

  function LogSince(log: seq<Request>, evs: seq<Event>): seq<Request>
    decreases |evs|
  {
    if evs == [] then log else LogSince(if evs[0].Relayed? then log + [evs[0].r] else log, evs[1..])
  }

  ghost predicate MaySince(log: seq<Request>, evs: seq<Event>)
    decreases |evs|
  {
    evs != [] ==>
      (evs[0].Relayed? ==> NamesAccount(log, evs[0].r)) &&
      MaySince(if evs[0].Relayed? then log + [evs[0].r] else log, evs[1..])
  }

  predicate Reached(evs: seq<Event>, a: nat) {
    exists i :: 0 <= i < |evs| && evs[i].AckedTo? && evs[i].k >= a
  }

  /** An order that changes the server's neighbours or makes it head changes none of its books. */
  lemma {:induction false} OrderedRefines(
      s: Replica, log: seq<Request>, isHead: bool, pre: Option<Addr>, succ: Option<Addr>)
    requires Refines(s, log)
    ensures Refines(s.(isHead := isHead, pre := pre, succ := succ), log)
  {
    hide Run, EntryAt;
  }

  lemma {:induction false} OrderedAhead(
      s: Replica, log: seq<Request>, a: nat, isHead: bool, pre: Option<Addr>, succ: Option<Addr>)
    requires Ahead(s, log, a)
    ensures Ahead(s.(isHead := isHead, pre := pre, succ := succ), log, a)
  {
    hide Refines, EndsWith;
    var t := s.(isHead := isHead, pre := pre, succ := succ);
    OrderedRefines(Trimmed(s, log, a), log, isHead, pre, succ);
    assert Trimmed(t, log, a) == Trimmed(s, log, a).(isHead := isHead, pre := pre, succ := succ);
  }

  /** To a new successor it sends again exactly what that one lacks. */
  lemma {:induction false} AheadSendsAgain(s: Replica, log: seq<Request>, x: Addr, n: nat)
    requires IsAhead(s, log) && |log| - |s.sent| <= n <= |log|
    ensures var t := NewSuccServer(s, x, n);
            t.Done? && IsAhead(t.rep, log) && EndsWith(log, t.out.forwards) && |t.out.forwards| == |log| - n
  {
    hide Refines, EndsWith, Above;
    var a :| Ahead(s, log, a);
    OrderedAhead(s, log, a, s.isHead, s.pre, Some(x));
    AboveIsRun(log, s.sent, n);
  }

  /** Made tail again when the new tail has crashed, it has everything processed and nothing pending. */
  lemma {:induction false} AheadToBeTail(s: Replica, log: seq<Request>)
    requires IsAhead(s, log) && forall r :: r in log ==> r.kind != Transfer
    ensures var t := ToBeTail(s);
            t.Done? && Refines(t.rep, log) && t.rep.isTail && t.rep.sent == [] &&
            t.out == if s.isHead then SILENT else SILENT.(acks := [|log|])
  {
    hide Run, EntryAt, Refines, EndsWith, Promote, TransfersOf;
    var a :| Ahead(s, log, a);
    var u, d := Trimmed(s, log, a), Surplus(s, log, a);
    AheadHistory(s, log, a);
    ToBeTailRefines(u, log);
    SurplusEntries(s, log, a);
    forall i | 0 <= i < |s.sent| ensures !IsTransfer(s.sent[i]) { SentKinds(s, log, i); }
    PromoteSkips(s.processed, s.sent, d);
    TransfersOfNone(s.sent);
    TransfersOfNone(u.sent);
    assert ToBeTail(s).rep == ToBeTail(u).rep;
  }

  lemma {:induction false} SentKinds(s: Replica, log: seq<Request>, i: nat)
    requires EndsWith(log, s.sent) && i < |s.sent| && forall r :: r in log ==> r.kind != Transfer
    ensures !IsTransfer(s.sent[i])
  {
    hide Run, EntryAt;
    SentFields(log, s.sent);
    EndsWithFits(log, s.sent);
    assert log[|log| - |s.sent| + i] in log;
  }

  lemma {:induction false} SurplusEntries(s: Replica, log: seq<Request>, a: nat)
    requires Ahead(s, log, a)
    ensures forall i :: 0 <= i < Surplus(s, log, a) ==> KeyOf(s.sent[i].req) in s.processed
  {
    hide Run, EntryAt, Refines;
    AheadHistory(s, log, a);
    SentFields(log, s.sent);
    EndsWithFits(log, s.sent);
    forall i | 0 <= i < Surplus(s, log, a) ensures KeyOf(s.sent[i].req) in s.processed {
      assert log[..a][|log| - |s.sent| + i] == s.sent[i].req;
      InHistory(log[..a], s.sent[i].req);
    }
  }

  lemma {:induction false} PromoteSkips(p: map<Key, Entry>, es: seq<Entry>, d: nat)
    requires d <= |es| && forall i :: 0 <= i < d ==> KeyOf(es[i].req) in p
    ensures Promote(p, es) == Promote(p, es[d..])
    decreases d
  {
    if d > 0 {
      PromoteSkips(p, es[1..], d - 1);
      assert es[1..][d - 1..] == es[d..];
    } else {
      assert es[0..] == es;
    }
  }

  /** An internal server stays one. */
  lemma {:induction false} SinceRefines(s: Replica, log: seq<Request>, evs: seq<Event>)
    requires Refines(s, log) && !s.isTail && MaySince(log, evs)
    ensures Refines(Since(s, evs), LogSince(log, evs)) && !Since(s, evs).isTail
    decreases |evs|
  {
    hide Run, EntryAt, Refines, Relay, Acknowledge, NamesAccount;
    if evs != [] {
      SeqIs(s, log);
      match evs[0] {
        case Relayed(r) =>
          RelayRefines(s, log, r);
          SinceRefines(RelayedRep(s, r), log + [r], evs[1..]);
        case AckedTo(k) =>
          AcknowledgeRefines(s, log, k);
          SinceRefines(Acknowledge(s, k), log, evs[1..]);
        case MadeHead =>
          OrderedRefines(s, log, true, s.pre, s.succ);
          SinceRefines(ToBeHead(s).rep, log, evs[1..]);
        case Preceded(p) =>
          OrderedRefines(s, log, s.isHead, Some(p), s.succ);
          SinceRefines(NewPreServer(s, p).rep, log, evs[1..]);
        case Succeeded(x, n) =>
          OrderedRefines(s, log, s.isHead, s.pre, Some(x));
          SinceRefines(NewSuccServer(s, x, n).rep, log, evs[1..]);
      }
    }
  }

  lemma {:induction false} SinceAhead(s: Replica, log: seq<Request>, a: nat, evs: seq<Event>)
    requires Ahead(s, log, a) && MaySince(log, evs)
    ensures var t := Since(s, evs);
            !t.isTail && if Reached(evs, a) then Refines(t, LogSince(log, evs)) else Ahead(t, LogSince(log, evs), a)
    decreases |evs|
  {
    hide Run, EntryAt, Refines, Relay, Acknowledge, Ahead, NamesAccount;
    AheadHistory(s, log, a);
    AheadRole(s, log, a);
    if evs != [] {
      assert forall i :: 0 <= i < |evs[1..]| ==> evs[1..][i] == evs[i + 1];
      assert forall i :: 0 < i < |evs| ==> evs[i] == evs[1..][i - 1];
      match evs[0] {
        case Relayed(r) =>
          RelayAhead(s, log, a, r);
          SinceAhead(RelayedRep(s, r), log + [r], a, evs[1..]);
          assert Reached(evs, a) <==> Reached(evs[1..], a);
        case AckedTo(k) =>
          AckAhead(s, log, a, k);
          if k >= a {
            SinceRefines(Acknowledge(s, k), log, evs[1..]);
            assert Reached(evs, a);
          } else {
            SinceAhead(Acknowledge(s, k), log, a, evs[1..]);
            assert Reached(evs, a) <==> Reached(evs[1..], a);
          }
        case MadeHead =>
          OrderedAhead(s, log, a, true, s.pre, s.succ);
          SinceAhead(ToBeHead(s).rep, log, a, evs[1..]);
          assert Reached(evs, a) <==> Reached(evs[1..], a);
        case Preceded(p) =>
          OrderedAhead(s, log, a, s.isHead, Some(p), s.succ);
          SinceAhead(NewPreServer(s, p).rep, log, a, evs[1..]);
          assert Reached(evs, a) <==> Reached(evs[1..], a);
        case Succeeded(x, n) =>
          OrderedAhead(s, log, a, s.isHead, s.pre, Some(x));
          SinceAhead(NewSuccServer(s, x, n).rep, log, a, evs[1..]);
          assert Reached(evs, a) <==> Reached(evs[1..], a);
      }
    }
  }

  lemma {:induction false} AheadRole(s: Replica, log: seq<Request>, a: nat)
    requires Ahead(s, log, a)
    ensures !s.isTail
  {
  }

  /** After any updates relayed, any acks and any repairs around it, src-cpp's old tail answers as the bank on its
      log does. Once an ack has covered what it had processed when it stepped down it is an ordinary internal
      server; src-da's is one throughout. */
  lemma {:induction false} StepDownSettles(s: Replica, log: seq<Request>, evs: seq<Event>)
    requires Refines(s, log) && s.isTail && EndsWith(log, s.sent) && MaySince(log, evs)
    ensures var t, log' := Since(StepDown(Cpp, s), evs), LogSince(log, evs);
            IsAhead(t, log') && (Reached(evs, |log|) ==> Refines(t, log')) && !t.extending &&
            forall r :: NamesAccount(log', r) ==> Lookup(t, r) == FirstRecord(log', r)
    ensures var t := Since(StepDown(Da, s), evs); Refines(t, LogSince(log, evs)) && !t.isTail && !t.extending
  {
    hide Run, EntryAt, Refines, EndsWith, Ahead, Since, LogSince, MaySince, NamesAccount, Lookup, FirstRecord, StepDown;
    SinceExtends(StepDown(Cpp, s), evs);
    SinceExtends(StepDown(Da, s), evs);
    StepDownAhead(s, log);
    StepDownRole(s);
    SinceAhead(StepDown(Cpp, s), log, |log|, evs);
    SinceRefines(StepDown(Da, s), log, evs);
    var t, log' := Since(StepDown(Cpp, s), evs), LogSince(log, evs);
    if Reached(evs, |log|) { RefinesIsAhead(t, log'); }
    forall r | NamesAccount(log', r) ensures Lookup(t, r) == FirstRecord(log', r) { AheadAnswers(t, log', r); }
  }

  lemma {:induction false} StepDownRole(s: Replica)
    ensures forall v :: !StepDown(v, s).isTail && !StepDown(v, s).extending
  {
  }

  lemma {:induction false} SinceExtends(s: Replica, evs: seq<Event>)
    ensures Since(s, evs).extending == s.extending
    decreases |evs|
  {
    hide Relay, Acknowledge;
    if evs != [] {
      match evs[0] {
        case Relayed(r) =>
          RelayExtends(s, r, s.seqNo + 1);
          SinceExtends(RelayedRep(s, r), evs[1..]);
        case AckedTo(k) =>
          AckExtends(s, k);
          SinceExtends(Acknowledge(s, k), evs[1..]);
        case MadeHead => SinceExtends(ToBeHead(s).rep, evs[1..]);
        case Preceded(p) => SinceExtends(NewPreServer(s, p).rep, evs[1..]);
        case Succeeded(x, n) => SinceExtends(NewSuccServer(s, x, n).rep, evs[1..]);
      }
    }
  }

  lemma {:induction false} RelayExtends(s: Replica, r: Request, n: nat)
    ensures Relay(s, r, n).Done? && Relay(s, r, n).rep.extending == s.extending
  {
    ReplyFor(s, r, n);
    hide UpdateReply;
  }

  lemma {:induction false} AckExtends(s: Replica, k: nat)
    ensures Acknowledge(s, k).extending == s.extending
    decreases |s.sent|
  {
    if s.sent != [] && s.sent[0].seqNo <= k {
      AckExtends(s.(processed := InsertProcessed(s.processed, s.sent[0]), sent := s.sent[1..]), k);
    }
  }

  /** A tail with nothing pending that does not extend answers an update that is no transfer at once and acks it. */
  lemma {:induction false} AnswersAtOnce(s: Replica, log: seq<Request>, r: Request)
    requires Refines(s, log) && s.isTail && s.sent == [] && !s.extending
    requires NamesAccount(log, r) && r.kind != Transfer
    ensures var t := Conclude(s, r, |log| + 1);
            t.Done? && Refines(t.rep, log + [r]) && t.rep.sent == [] && !t.rep.extending &&
            t.out == SILENT.(replies := [EntryAt(log + [r], |log|)], acks := if s.isHead then [] else [|log| + 1])
  {
    hide Run, EntryAt, Refines, UpdateReply;
    ConcludeRefines(s, log, r);
    UpdateReplyRefines(s, log, r);
    EntryFields(log + [r], |log|);
  }

  /** A server that stepped down and is made tail again, by src-cpp's order to be tail or by src-da's abort, is a tail
      as before: it answers and acks the next update, and keeps nothing. */
  lemma {:induction false} TailAgain(s: Replica, log: seq<Request>, evs: seq<Event>, r: Request)
    requires Refines(s, log) && s.isTail && EndsWith(log, s.sent) && MaySince(log, evs)
    requires forall q :: q in LogSince(log, evs) + [r] ==> q.kind != Transfer
    requires NamesAccount(LogSince(log, evs), r)
    ensures var log' := LogSince(log, evs); var t := ToBeTail(Since(StepDown(Cpp, s), evs)).rep;
            var u := Conclude(t, r, |log'| + 1);
            u.Done? && Refines(u.rep, log' + [r]) && u.rep.sent == [] &&
            u.out == SILENT.(replies := [EntryAt(log' + [r], |log'|)], acks := if t.isHead then [] else [|log'| + 1])
    ensures var log' := LogSince(log, evs); var t := AbortExtending(Since(StepDown(Da, s), evs)).0;
            var u := Conclude(t, r, |log'| + 1);
            u.Done? && Refines(u.rep, log' + [r]) && u.rep.sent == [] &&
            u.out == SILENT.(replies := [EntryAt(log' + [r], |log'|)], acks := if t.isHead then [] else [|log'| + 1])
  {
    hide Run, EntryAt, Refines, EndsWith, Since, LogSince, MaySince, NamesAccount, StepDown, Conclude, IsAhead;
    var log' := LogSince(log, evs);
    StepDownSettles(s, log, evs);
    assert (log' + [r])[|log'|] == r;
    assert forall q :: q in log' ==> q in log' + [r];
    var t, u := Since(StepDown(Cpp, s), evs), Since(StepDown(Da, s), evs);
    AheadToBeTail(t, log');
    AnswersAtOnce(ToBeTail(t).rep, log', r);
    AbortKeeps(u, log');
    AnswersAtOnce(AbortExtending(u).0, log', r);
  }

  // ------------------------------------------------- the joining server fails

  /** When the joining server fails, src-cpp drops the sent list. That loses nothing exactly when every dropped
      request is in the processed map already: always while the server is the tail, and also after it has stepped
      down, whatever it took during the transfer or relayed since. */
  lemma {:induction false} FailKeepsExactly(s: Replica, log: seq<Request>)
    requires (Refines(s, log) && s.isTail) || IsAhead(s, log)
    ensures Refines(ExtendingServerFail(s), log) <==> forall e :: e in s.sent ==> KeyOf(e.req) in s.processed
  {
    hide Run, EntryAt, IsEntry, EndsWith, Refines;
    if Refines(s, log) && s.isTail {
      TailFails(s, log);
      TailHistory(s, log);
      forall i | 0 <= i < |s.sent| ensures KeyOf(s.sent[i].req) in s.processed {
        SentInLog(s, log, i);
        InHistory(log, s.sent[i].req);
      }
    } else {
      var a :| Ahead(s, log, a);
      var u := Trimmed(s, log, a);
      SurplusProcessed(s, log, a);
      TrimmedFail(u, log);
      assert ExtendingServerFail(u) == ExtendingServerFail(s);
      DroppedExactly(u, log);
    }
  }

  lemma {:induction false} TrimmedFail(u: Replica, log: seq<Request>)
    requires Refines(u, log) && !u.isTail
    ensures Refines(ExtendingServerFail(u), log) <==> u.processed == Run(log).history
  {
    hide Run, EntryAt;
    assert log[..|log|] == log;
  }

  lemma {:induction false} SurplusProcessed(s: Replica, log: seq<Request>, a: nat)
    requires Ahead(s, log, a)
    ensures (forall e :: e in s.sent ==> KeyOf(e.req) in s.processed) <==>
            (forall e :: e in Trimmed(s, log, a).sent ==> KeyOf(e.req) in s.processed)
  {
    hide Refines, EndsWith;
    SurplusEntries(s, log, a);
    SplitProcessed(s.processed, s.sent, Surplus(s, log, a));
  }

  lemma {:induction false} SplitProcessed(p: map<Key, Entry>, es: seq<Entry>, d: nat)
    requires d <= |es| && forall i :: 0 <= i < d ==> KeyOf(es[i].req) in p
    ensures (forall e :: e in es ==> KeyOf(e.req) in p) <==> (forall e :: e in es[d..] ==> KeyOf(e.req) in p)
  {
    if forall e :: e in es[d..] ==> KeyOf(e.req) in p {
      forall i | 0 <= i < |es| ensures KeyOf(es[i].req) in p {
        if i >= d { assert es[d..][i - d] == es[i]; }
      }
    }
  }

  /** A deposit relayed after stepping down, the failure of the joining server, and a resend: paid twice. */
  lemma {:induction false} DroppedIsPaidTwice(s: Replica)
    requires s == Fresh(false, true, Option.Some(0), None)
    ensures var r := Request(1, Deposit, 1, 1, 10, 0, 0);
            var relayed := ReceiveUpdate(StepDown(Cpp, ReceiveExtendServer(s, 2).rep), r, 1).rep;
            var again := ReceiveUpdate(ExtendingServerFail(relayed), r, 2).rep;
            Balance(relayed.balances, 1) == 10 && relayed.sent != [] && relayed.processed == map[] &&
            Balance(again.balances, 1) == 20
  {
    var r := Request(1, Deposit, 1, 1, 10, 0, 0);
    var down := StepDown(Cpp, ReceiveExtendServer(s, 2).rep);
    var relayed := ReceiveUpdate(down, r, 1).rep;
    assert relayed == Relay(down, r, 1).rep;
    var failed := ExtendingServerFail(relayed);
    assert failed.sent == [] && failed.processed == map[] && failed.isTail && failed.seqNo == 1;
    var again := ReceiveUpdate(failed, r, 2).rep;
    assert again == Conclude(failed, r, 2).rep;
  }

  lemma {:induction false} DroppedExactly(s: Replica, log: seq<Request>)
    requires Refines(s, log) && !s.isTail
    ensures s.processed == Run(log).history <==> forall e :: e in s.sent ==> KeyOf(e.req) in s.processed
  {
    hide Run, EntryAt;
    SentFields(log, s.sent);
    EndsWithFits(log, s.sent);
    if forall e :: e in s.sent ==> KeyOf(e.req) in s.processed {
      InsertAllIsRun(log, s.sent);
      InsertAllNoop(s.processed, s.sent);
    } else {
      var e :| e in s.sent && KeyOf(e.req) !in s.processed;
      var i :| 0 <= i < |s.sent| && s.sent[i] == e;
      InHistory(log, e.req);
    }
  }

  lemma {:induction false} InsertAllNoop(p: map<Key, Entry>, es: seq<Entry>)
    requires forall e :: e in es ==> KeyOf(e.req) in p
    ensures InsertAll(p, es) == p
    decreases |es|
  {
    if es != [] {
      assert es[0] in es;
      InsertAllNoop(p, es[1..]);
    }
  }

  lemma {:induction false} InsertAllIsRun(log: seq<Request>, es: seq<Entry>)
    requires EndsWith(log, es)
    ensures InsertAll(Run(log[..|log| - |es|]).history, es) == Run(log).history
    decreases |es|
  {
    hide Run, Serve, EntryAt;
    if es != [] {
      EndsWithTail(log, es);
      EndsWithFits(log, es);
      InsertIsServe(log, |log| - |es|);
      hide InsertProcessed, EndsWith;
      InsertAllIsRun(log, es[1..]);
    } else {
      assert log[..|log|] == log;
    }
  }

  /** src-da takes the sent list as processed first, and never loses any of it. */
  lemma {:induction false} AbortKeeps(s: Replica, log: seq<Request>)
    requires Refines(s, log)
    ensures var (t, out) := AbortExtending(s);
            Refines(t, log) && t.isTail && !t.extending && t.sent == [] &&
            out == if s.isTail || s.isHead || s.sent == [] then SILENT else SILENT.(acks := [|log|])
  {
    hide Run, EntryAt, InsertAll;
    assert log[..|log|] == log;
    if !s.isTail {
      InsertAllIsRun(log, s.sent);
      SentFields(log, s.sent);
      EndsWithFits(log, s.sent);
    }
  }
}
