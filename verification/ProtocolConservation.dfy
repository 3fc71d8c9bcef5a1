/** Money is neither made nor lost: per currency, the positions always add up to their sum at creation plus what is
  * reserved and not yet committed. */
module ProtocolConservation {
  import opened Common
  import opened Decimals
  import opened Participants
  import opened Transfers
  import opened Protocol
  import opened ProtocolSafety
  import opened ProtocolOrder
  import opened ProtocolFunds

  // ---------- sums ----------

  function Val(n: Num): real {
    if n.Fin? then n.value else 0.0
  }

  /** The positions of all accounts in a currency. */
  function Total(accounts: seq<Account>, c: string): real {
    if accounts == [] then 0.0
    else
      var a := accounts[|accounts| - 1];
      Total(accounts[..|accounts| - 1], c) + (if a.currency == c then Val(a.position) else 0.0)
  }

  /** The total of one participant; nothing for one that does not exist. */
  function TotalOf(ps: map<string, Participant>, id: string, c: string): real {
    if id in ps then Total(ps[id].accounts, c) else 0.0
  }

  function SumOf(roster: seq<string>, ps: map<string, Participant>, c: string): real {
    if roster == [] then 0.0
    else SumOf(roster[..|roster| - 1], ps, c) + TotalOf(ps, roster[|roster| - 1], c)
  }

  /** The amounts of the terms in a currency. */
  function Ledger(ts: seq<Terms>, c: string): real {
    if ts == [] then 0.0
    else
      var t := ts[|ts| - 1];
      Ledger(ts[..|ts| - 1], c) + (if t.currency == c then Val(t.amount) else 0.0)
  }

  lemma {:induction false} TotalUpdate(accounts: seq<Account>, i: nat, x: Num, c: string)
    requires i < |accounts|
    ensures Total(accounts[i := accounts[i].(position := x)], c)
            == Total(accounts, c) + (if accounts[i].currency == c then Val(x) - Val(accounts[i].position) else 0.0)
  {
    var n := |accounts| - 1;
    var updated := accounts[i := accounts[i].(position := x)];
    if i < n {
      TotalUpdate(accounts[..n], i, x, c);
      assert updated[..n] == accounts[..n][i := accounts[i].(position := x)];
    } else {
      assert updated[..n] == accounts[..n];
    }
  }

  lemma LedgerAppend(ts: seq<Terms>, t: Terms, c: string)
    ensures Ledger(ts + [t], c) == Ledger(ts, c) + (if t.currency == c then Val(t.amount) else 0.0)
  {
  }

  // ---------- double entry, under any redelivery ----------

  datatype Side = Payer | Payee

  function Party(t: Terms, side: Side): string {
    match side
    case Payer => t.payer
    case Payee => t.payee
  }

  /** The terms whose party on this side is one of these. */
  function Among(ts: seq<Terms>, side: Side, ids: set<string>): seq<Terms> {
    if ts == [] then []
    else
      var init, t := Among(ts[..|ts| - 1], side, ids), ts[|ts| - 1];
      if Party(t, side) in ids then init + [t] else init
  }

  /** The position that commands move is a finite number, if there is one. */
  predicate Numeric(p: Participant, c: string) {
    HasPosition(p, c) ==> CurrentPosition(p, c).Fin?
  }

  /** What the books say was moved by participants: reserves that they paid less commits that they were paid. */
  function Moved(s: State, ids: set<string>, c: string): real {
    Ledger(Among(s.reserved, Payer, ids), c) - Ledger(Among(s.committed, Payee, ids), c)
  }

  /** The participant's positions are those at creation and what its books say.  A position that is no finite number
    * is never moved. */
  ghost predicate Booked(s: State, id: string, c: string) {
    id in s.birth ==>
      && id in s.participants.store
      && (Numeric(s.participants.store[id], c) <==> Numeric(s.birth[id], c))
      && Total(s.participants.store[id].accounts, c)
         == Total(s.birth[id].accounts, c) + (if Numeric(s.birth[id], c) then Moved(s, {id}, c) else 0.0)
  }

  lemma AmongAppend(ts: seq<Terms>, t: Terms, side: Side, ids: set<string>, c: string)
    ensures Ledger(Among(ts + [t], side, ids), c) ==
            Ledger(Among(ts, side, ids), c) + (if Party(t, side) in ids && t.currency == c then Val(t.amount) else 0.0)
  {
    LedgerAppend(Among(ts, side, ids), t, c);
  }

  lemma {:induction false} AmongNone(ts: seq<Terms>, side: Side, ids: set<string>, c: string)
    requires forall t :: t in ts && t.currency == c ==> Party(t, side) !in ids
    ensures Ledger(Among(ts, side, ids), c) == 0.0
  {
    if ts == [] {
    } else {
      AmongNone(ts[..|ts| - 1], side, ids, c);
      LedgerAppend(Among(ts[..|ts| - 1], side, ids), ts[|ts| - 1], c);
    }
  }

  lemma {:induction false} AmongAll(ts: seq<Terms>, side: Side, ids: set<string>)
    requires forall t :: t in ts ==> Party(t, side) in ids
    ensures Among(ts, side, ids) == ts
  {
    if ts == [] {
    } else {
      AmongAll(ts[..|ts| - 1], side, ids);
    }
  }

  lemma {:induction false} AmongSplit(ts: seq<Terms>, side: Side, a: set<string>, b: set<string>, c: string)
    requires a !! b
    ensures Ledger(Among(ts, side, a + b), c) == Ledger(Among(ts, side, a), c) + Ledger(Among(ts, side, b), c)
  {
    if ts == [] {
    } else {
      var init, t := ts[..|ts| - 1], ts[|ts| - 1];
      AmongSplit(init, side, a, b, c);
      LedgerAppend(Among(init, side, a), t, c);
      LedgerAppend(Among(init, side, b), t, c);
      LedgerAppend(Among(init, side, a + b), t, c);
    }
  }

  lemma PositionMoves(p: Participant, cur: string, x: Num, c: string)
    requires HasPosition(p, cur)
    ensures var q := WithPosition(p, FindPosition(p.accounts, cur), x);
      && (Numeric(q, c) <==> if cur == c then x.Fin? else Numeric(p, c))
      && Total(q.accounts, c) ==
         Total(p.accounts, c) + (if cur == c then Val(x) - Val(CurrentPosition(p, cur)) else 0.0)
  {
    var i := FindPosition(p.accounts, cur);
    TotalUpdate(p.accounts, i, x, c);
    WithPositionFrame(p, cur, x);
    SameStaticsFind(p, WithPosition(p, i, x), c);
  }

  lemma ReserveMoves(p: Participant, cur: string, amount: Num, c: string)
    requires TryReserve(p, cur, amount).Success?
    ensures var q := TryReserve(p, cur, amount).value;
      && (Numeric(q, c) <==> Numeric(p, c))
      && Total(q.accounts, c) == Total(p.accounts, c) + (if cur == c && Numeric(p, c) then Val(amount) else 0.0)
  {
    hide Total, FindPosition, WithPosition;
    PositionMoves(p, cur, Plus(CurrentPosition(p, cur), amount), c);
  }

  lemma CommitMoves(p: Participant, cur: string, amount: Num, c: string)
    requires TryCommit(p, cur, amount).Success? && amount.Fin?
    ensures var q := TryCommit(p, cur, amount).value;
      && (Numeric(q, c) <==> Numeric(p, c))
      && Total(q.accounts, c) == Total(p.accounts, c) - (if cur == c && Numeric(p, c) then Val(amount) else 0.0)
  {
    hide Total, FindPosition, WithPosition;
    PositionMoves(p, cur, Minus(CurrentPosition(p, cur), amount), c);
  }

  /** What the books record for a command moves the total of its addressee by the same sum. */
  function Delta(cmd: Cmd, c: string): real {
    match cmd
    case ReservePayerFunds(t) => if t.currency == c then Val(t.amount) else 0.0
    case CommitPayeeFunds(t) => if t.currency == c then -Val(t.amount) else 0.0
    case _ => 0.0
  }

  lemma RootMoves(x: Crypto, s: State, i: nat, copy: Option<Participant>, c: string)
    requires Backed(x, s) && i < |s.participantCmds| && Decision(s, i, copy).Accepted?
    requires Key(s.participantCmds[i]) in s.participants.store
    ensures var cmd := s.participantCmds[i];
      var p, root := s.participants.store[Key(cmd)], Decision(s, i, copy).root;
      && (Numeric(root, c) <==> Numeric(p, c))
      && Total(root.accounts, c) == Total(p.accounts, c) + (if Numeric(p, c) then Delta(cmd, c) else 0.0)
  {
    hide Total, Numeric, FindPosition;
    var cmd := s.participantCmds[i];
    var p := s.participants.store[Key(cmd)];
    match cmd
    case ReservePayerFunds(t) => ReserveMoves(p, t.currency, t.amount, c);
    case CommitPayeeFunds(t) =>
      assert ParticipantCmdOk(s, cmd) && ReservedOk(s, t);
      CommitMoves(p, t.currency, t.amount, c);
    case _ =>
  }

  /** A command adds what it moves to the books of its addressee, and to no other. */
  lemma MovedByRoot(s: State, i: nat, o: Outcome, id: string, c: string)
    requires i < |s.participantCmds| && o.Accepted?
    ensures var cmd := s.participantCmds[i];
      Moved(ExecParticipant(s, i, o), {id}, c) == Moved(s, {id}, c) + (if Key(cmd) == id then Delta(cmd, c) else 0.0)
  {
    hide Among, Ledger, Settle;
    match s.participantCmds[i]
    case ReservePayerFunds(t) => AmongAppend(s.reserved, t, Payer, {id}, c);
    case CommitPayeeFunds(t) => AmongAppend(s.committed, t, Payee, {id}, c);
    case _ =>
  }

  /** Whoever is not yet created is in no books. */
  lemma NothingMoved(x: Crypto, s: State, id: string, c: string)
    requires Backed(x, s) && Anchored(s) && id !in s.birth
    ensures Moved(s, {id}, c) == 0.0
  {
    forall t | t in s.reserved ensures t.payer != id && t.payee != id {
      assert PartyOk(s, t.payer, t.currency) && PartyOk(s, t.payee, t.currency);
    }
    forall t | t in s.committed ensures t.payee != id {
      assert CommittedOk(s, t);
    }
    AmongNone(s.reserved, Payer, {id}, c);
    AmongNone(s.committed, Payee, {id}, c);
  }

  lemma {:induction false} BookedByParticipantCmd(x: Crypto, s: State, i: nat, copy: Option<Participant>, id: string,
                                                  c: string)
    requires Backed(x, s) && Anchored(s) && Enabled(s, HandleParticipantCmd(i, copy))
    requires Booked(s, id, c)
    ensures Booked(ExecParticipant(s, i, Decision(s, i, copy)), id, c)
  {
    hide Among, Ledger, Total, Numeric, Backed, Decision, Delta, SameStatics, Capped, Lists, PartyOk;
    var o := Decision(s, i, copy);
    if o.Accepted? {
      RootDecided(x, s, i, copy);
      MovedByRoot(s, i, o, id, c);
      if o.root.id == id && id in s.birth {
        assert ParticipantOk(s, id);
        RootMoves(x, s, i, copy, c);
      } else if o.root.id == id {
        NothingMoved(x, s, id, c);
        assert Delta(s.participantCmds[i], c) == 0.0;
      }
    }
  }

  lemma {:induction false} BookedStep(x: Crypto, byReference: bool, s: State, a: Action, id: string, c: string)
    requires Backed(x, s) && Anchored(s) && Booked(s, id, c)
    ensures Booked(Exec(x, byReference, s, a), id, c)
  {
    hide Exec, ExecParticipant, Decision, Total, Numeric;
    if Enabled(s, a) && a.HandleParticipantCmd? {
      DeliveryExecutes(x, byReference, s, a);
      BookedByParticipantCmd(x, s, a.i, a.copy, id, c);
    } else {
      FundsUntouched(x, byReference, s, a);
    }
  }

  /** Under any redelivery and for each participant: its positions are those at creation plus its executed reserves as
    * payer less its executed commits as payee, and unmoved if the one to move was no finite number. */
  lemma {:induction false} DoubleEntry(x: Crypto, byReference: bool, actions: seq<Action>, id: string, c: string)
    ensures Booked(Run(x, byReference, actions), id, c)
  {
    hide Exec;
    if actions == [] {
    } else {
      var init := actions[..|actions| - 1];
      DoubleEntry(x, byReference, init, id, c);
      AlwaysBacked(x, byReference, init);
      AlwaysAnchored(x, byReference, init);
      BookedStep(x, byReference, Run(x, byReference, init), actions[|actions| - 1], id, c);
    }
  }

  /** Those of a group whose position to move was a finite number at creation. */
  function NumericOf(s: State, group: seq<string>, c: string): set<string> {
    set id | id in group && id in s.birth && Numeric(s.birth[id], c)
  }

  lemma {:induction false} SumBooked(s: State, group: seq<string>, c: string)
    requires Distinct(group) && forall id :: id in group ==> id in s.birth && Booked(s, id, c)
    ensures SumOf(group, s.participants.store, c) ==
            SumOf(group, s.birth, c) + Moved(s, NumericOf(s, group, c), c)
  {
    if group == [] {
      var none := NumericOf(s, group, c);
      assert none == {} && none + none == none;
      AmongSplit(s.reserved, Payer, none, none, c);
      AmongSplit(s.committed, Payee, none, none, c);
    } else {
      var init, id := group[..|group| - 1], group[|group| - 1];
      assert group == init + [id];
      SumBooked(s, init, c);
      assert Booked(s, id, c);
      var rest := NumericOf(s, init, c);
      if Numeric(s.birth[id], c) {
        AmongSplit(s.reserved, Payer, rest, {id}, c);
        AmongSplit(s.committed, Payee, rest, {id}, c);
        assert NumericOf(s, group, c) == rest + {id};
      } else {
        assert NumericOf(s, group, c) == rest;
      }
    }
  }

  /** The same for any group of participants together. */
  lemma DoubleEntryOfGroup(x: Crypto, byReference: bool, actions: seq<Action>, group: seq<string>, c: string)
    requires Distinct(group) && forall id :: id in group ==> id in Run(x, byReference, actions).birth
    ensures var s := Run(x, byReference, actions);
      SumOf(group, s.participants.store, c) == SumOf(group, s.birth, c) + Moved(s, NumericOf(s, group, c), c)
  {
    var s := Run(x, byReference, actions);
    forall id | id in group ensures Booked(s, id, c) {
      DoubleEntry(x, byReference, actions, id, c);
    }
    SumBooked(s, group, c);
  }

  /** A reserve command that is handled again moves the position again, although it is the same transfer: this is
    * why conservation by transfer needs that no command is accepted twice. */
  lemma RedeliveryReservesTwice(payer: Participant, payee: Participant, t: Terms, q: Participant, r: Participant)
    requires Numeric(payer, t.currency)
    requires DecideReserve(Some(payer), Some(payee), t).Accepted?
             && q == DecideReserve(Some(payer), Some(payee), t).root
    requires DecideReserve(Some(q), Some(payee), t).Accepted? && r == DecideReserve(Some(q), Some(payee), t).root
    ensures Total(r.accounts, t.currency) == Total(payer.accounts, t.currency) + 2.0 * Val(t.amount)
    ensures Total(r.accounts, t.currency) > Total(q.accounts, t.currency)
  {
    ReserveMoves(payer, t.currency, t.amount, t.currency);
    ReserveMoves(q, t.currency, t.amount, t.currency);
  }

  // ---------- each command executed once ----------

  predicate MovesFunds(cmd: Cmd) {
    cmd.ReservePayerFunds? || cmd.CommitPayeeFunds?
  }

  /** The action makes a participant accept this command, which moves funds. */
  ghost predicate Executes(x: Crypto, byReference: bool, actions: seq<Action>, n: nat, cmd: Cmd)
    requires n < |actions|
  {
    var s, a := Run(x, byReference, actions[..n]), actions[n];
    && a.HandleParticipantCmd? && Enabled(s, a) && s.participantCmds[a.i] == cmd && MovesFunds(cmd)
    && Decision(s, a.i, a.copy).Accepted?
  }

  /** No command that moves funds is accepted twice.  Whatever else may be delivered again, and so may these commands
    * as long as they are refused. */
  ghost predicate ExecutedOnce(x: Crypto, byReference: bool, actions: seq<Action>) {
    forall n, m, cmd :: 0 <= n < m < |actions| && Executes(x, byReference, actions, n, cmd) ==>
      !Executes(x, byReference, actions, m, cmd)
  }

  lemma ExecutesBefore(x: Crypto, byReference: bool, actions: seq<Action>, k: nat, n: nat, cmd: Cmd)
    requires n < k <= |actions|
    ensures Executes(x, byReference, actions[..k], n, cmd) <==> Executes(x, byReference, actions, n, cmd)
  {
    assert actions[..k][..n] == actions[..n] && actions[..k][n] == actions[n];
  }

  /** What is in the books was put there by an action that executed its command. */
  ghost predicate BooksExecuted(x: Crypto, byReference: bool, actions: seq<Action>, s: State) {
    && (forall t :: t in s.reserved ==>
          exists n :: 0 <= n < |actions| && Executes(x, byReference, actions, n, ReservePayerFunds(t)))
    && (forall t :: t in s.committed ==>
          exists n :: 0 <= n < |actions| && Executes(x, byReference, actions, n, CommitPayeeFunds(t)))
  }

  lemma {:induction false} BooksExecutedBefore(x: Crypto, byReference: bool, actions: seq<Action>, s: State)
    requires actions != [] && BooksExecuted(x, byReference, actions[..|actions| - 1], s)
    ensures BooksExecuted(x, byReference, actions, s)
  {
    hide Executes;
    var k := |actions| - 1;
    forall n: nat, cmd | n < k && Executes(x, byReference, actions[..k], n, cmd)
      ensures Executes(x, byReference, actions, n, cmd)
    {
      ExecutesBefore(x, byReference, actions, k, n, cmd);
    }
  }

  lemma {:induction false} ExecutedOnceBefore(x: Crypto, byReference: bool, actions: seq<Action>)
    requires actions != [] && ExecutedOnce(x, byReference, actions)
    ensures ExecutedOnce(x, byReference, actions[..|actions| - 1])
  {
    hide Executes;
    var k := |actions| - 1;
    forall n, m, cmd | 0 <= n < m < k && Executes(x, byReference, actions[..k], n, cmd)
      ensures !Executes(x, byReference, actions[..k], m, cmd)
    {
      ExecutesBefore(x, byReference, actions, k, n, cmd);
      ExecutesBefore(x, byReference, actions, k, m, cmd);
    }
  }

  lemma BookedLast(x: Crypto, byReference: bool, actions: seq<Action>)
    requires actions != []
    ensures var init, a := actions[..|actions| - 1], actions[|actions| - 1];
      var s, t := Run(x, byReference, init), Run(x, byReference, actions);
      || (t.reserved == s.reserved && t.committed == s.committed)
      || (exists cmd :: Executes(x, byReference, actions, |init|, cmd)
           && t.reserved == (if cmd.ReservePayerFunds? then s.reserved + [cmd.terms] else s.reserved)
           && t.committed == (if cmd.CommitPayeeFunds? then s.committed + [cmd.terms] else s.committed))
  {
    hide Decide, Settle, Exec;
    var init, a := actions[..|actions| - 1], actions[|actions| - 1];
    var s := Run(x, byReference, init);
    if Enabled(s, a) && a.HandleParticipantCmd? {
      DeliveryExecutes(x, byReference, s, a);
      var cmd := s.participantCmds[a.i];
      assert MovesFunds(cmd) && Decision(s, a.i, a.copy).Accepted? ==> Executes(x, byReference, actions, |init|, cmd);
    } else {
      FundsUntouched(x, byReference, s, a);
    }
  }

  /** So nothing is in the books twice when no command is executed twice. */
  lemma {:induction false} BooksDistinct(x: Crypto, byReference: bool, actions: seq<Action>)
    requires ExecutedOnce(x, byReference, actions)
    ensures var s := Run(x, byReference, actions);
      Distinct(s.reserved) && Distinct(s.committed) && BooksExecuted(x, byReference, actions, s)
  {
    hide Executes, Exec;
    if actions == [] {
    } else {
      var k := |actions| - 1;
      var init := actions[..k];
      ExecutedOnceBefore(x, byReference, actions);
      BooksDistinct(x, byReference, init);
      BooksExecutedBefore(x, byReference, actions, Run(x, byReference, init));
      BookedLast(x, byReference, actions);
      forall n: nat, cmd | n < k && Executes(x, byReference, init, n, cmd)
        ensures !Executes(x, byReference, actions, k, cmd)
      {
        ExecutesBefore(x, byReference, actions, k, n, cmd);
      }
    }
  }

  // ---------- one delivery of each message ----------

  /** Two actions that deliver the same transfer event to the participants side, or the same participant command. */
  predicate SameDelivery(a: Action, b: Action) {
    || (a.RouteTransferEvt? && b.RouteTransferEvt? && a.i == b.i)
    || (a.HandleParticipantCmd? && b.HandleParticipantCmd? && a.i == b.i)
  }

  ghost predicate AtMostOnce(actions: seq<Action>) {
    forall n, m :: 0 <= n < m < |actions| ==> !SameDelivery(actions[n], actions[m])
  }

  ghost predicate Routed(actions: seq<Action>, i: nat) {
    exists a :: a in actions && a.RouteTransferEvt? && a.i == i
  }

  lemma RoutingRecorded(x: Crypto, byReference: bool, s: State, a: Action)
    ensures Exec(x, byReference, s, a).routed <= s.routed + (if a.RouteTransferEvt? then {a.i} else {})
  {
  }

  lemma {:induction false} RoutedByRun(x: Crypto, byReference: bool, actions: seq<Action>)
    ensures forall i :: i in Run(x, byReference, actions).routed ==> Routed(actions, i)
  {
    hide Exec;
    if actions == [] {
    } else {
      var init, a := actions[..|actions| - 1], actions[|actions| - 1];
      RoutedByRun(x, byReference, init);
      assert actions == init + [a];
      RoutingRecorded(x, byReference, Run(x, byReference, init), a);
      forall i ensures Routed(init, i) ==> Routed(actions, i) {}
    }
  }

  /** No transfer event that turns into a command is published twice. */
  ghost predicate NoRepeat(evts: seq<TransferEvt>) {
    forall i, j :: 0 <= i < j < |evts| && ToParticipantCmd(evts[i]).Some? ==> evts[i] != evts[j]
  }

  /** No command that moves funds is published twice, nor will it be by an event that was not yet delivered. */
  ghost predicate Once(s: State) {
    && (forall i :: i in s.routed ==> i < |s.transfers.evts|)
    && (forall i :: 0 <= i < |s.transfers.evts| && i !in s.routed && ToParticipantCmd(s.transfers.evts[i]).Some? ==>
          ToParticipantCmd(s.transfers.evts[i]).value !in s.participantCmds)
    && (forall j, k :: 0 <= j < k < |s.participantCmds| && MovesFunds(s.participantCmds[j]) ==>
          s.participantCmds[j] != s.participantCmds[k])
  }

  lemma EventsNeverRepeat(x: Crypto, byReference: bool, actions: seq<Action>)
    ensures NoRepeat(Run(x, byReference, actions).transfers.evts)
  {
    var evts := Run(x, byReference, actions).transfers.evts;
    forall i, j | 0 <= i < j < |evts| && ToParticipantCmd(evts[i]).Some? ensures evts[i] != evts[j] {
      if evts[i] == evts[j] {
        AcceptedOnceAndInOrder(x, byReference, actions, i, j, evts[i].terms.id);
      }
    }
  }

  lemma OnceByRouting(s: State, i: nat, copy: Option<Participant>)
    requires Once(s) && NoRepeat(s.transfers.evts) && i < |s.transfers.evts| && i !in s.routed
    ensures Once(RouteTransfer(s, i, copy))
  {
    var e := s.transfers.evts[i];
    var cmd := ToParticipantCmd(e);
    var t := RouteTransfer(s, i, copy);
    if copy.Some? && cmd.Some? {
      assert cmd.value !in s.participantCmds;
      forall k | 0 <= k < |t.transfers.evts| && k !in t.routed && ToParticipantCmd(t.transfers.evts[k]).Some?
        ensures ToParticipantCmd(t.transfers.evts[k]).value !in t.participantCmds
      {
        assert t.transfers.evts[k] != e;
      }
      assert forall j :: 0 <= j < |s.participantCmds| ==>
        t.participantCmds[j] == s.participantCmds[j] && s.participantCmds[j] != cmd.value;
    }
  }

  lemma OnceByTransferCmd(x: Crypto, byReference: bool, s: State, cmd: TransferCmd, o: TransferOutcome)
    requires Backed(x, s) && Once(s) && NoRepeat(s.transfers.evts + [o.evt])
    ensures Once(ExecTransfer(byReference, s, cmd, o))
  {
    var t := ExecTransfer(byReference, s, cmd, o);
    var c := ToParticipantCmd(o.evt);
    assert t.transfers.evts == s.transfers.evts + [o.evt];
    if c.Some? {
      forall i | 0 <= i < |s.transfers.evts| ensures s.transfers.evts[i] != o.evt {
        assert t.transfers.evts[i] == s.transfers.evts[i] && t.transfers.evts[|s.transfers.evts|] == o.evt;
      }
      assert c.value in s.participantCmds ==> ParticipantCmdOk(s, c.value);
    }
  }

  /** Steps that publish no event or command that moves funds. */
  lemma OnceSame(s: State, t: State, cmds: seq<Cmd>)
    requires Once(s) && t.participantCmds == s.participantCmds + cmds
    requires forall c :: c in cmds ==> !MovesFunds(c)
    requires t.transfers.evts == s.transfers.evts && t.routed == s.routed
    ensures Once(t)
  {
    var n := |s.participantCmds|;
    forall j | 0 <= j < |t.participantCmds|
      ensures if j < n then t.participantCmds[j] == s.participantCmds[j] else !MovesFunds(t.participantCmds[j])
    {
      assert j >= n ==> t.participantCmds[j] == cmds[j - n];
    }
    assert forall c :: c in t.participantCmds && MovesFunds(c) ==> c in s.participantCmds;
  }

  lemma {:induction false} OnceStep(x: Crypto, byReference: bool, s: State, a: Action)
    requires Backed(x, s) && Once(s) && NoRepeat(s.transfers.evts)
    requires NoRepeat(Exec(x, byReference, s, a).transfers.evts) && (a.RouteTransferEvt? ==> a.i !in s.routed)
    ensures Once(Exec(x, byReference, s, a))
  {
    var t := Exec(x, byReference, s, a);
    if !Enabled(s, a) {
      assert t == s;
    } else if a.RouteTransferEvt? {
      OnceByRouting(s, a.i, a.copy);
    } else if a.HandleTransferCmd? {
      OnceByTransferCmd(x, byReference, s, s.transferCmds[a.i], DecideOn(x, s.transfers, s.transferCmds[a.i]));
    } else {
      OnceSame(s, t, if a.InjectParticipantCmd? then [a.cmd] else []);
    }
  }

  lemma {:induction false} PublishedOnce(x: Crypto, byReference: bool, actions: seq<Action>)
    requires AtMostOnce(actions)
    ensures Once(Run(x, byReference, actions))
  {
    hide Exec;
    if actions == [] {
    } else {
      var init, a := actions[..|actions| - 1], actions[|actions| - 1];
      PublishedOnce(x, byReference, init);
      AlwaysBacked(x, byReference, init);
      EventsNeverRepeat(x, byReference, init);
      EventsNeverRepeat(x, byReference, actions);
      RoutedByRun(x, byReference, init);
      assert forall b :: b in init ==> !SameDelivery(b, a);
      OnceStep(x, byReference, Run(x, byReference, init), a);
    }
  }

  lemma CommandsAppended(x: Crypto, byReference: bool, s: State, a: Action)
    ensures s.participantCmds <= Exec(x, byReference, s, a).participantCmds
  {
    hide Decide, Settle, DecideOn, SettleTransfer;
  }

  lemma {:induction false} CommandsStay(x: Crypto, byReference: bool, actions: seq<Action>, n: nat)
    requires n <= |actions|
    ensures Run(x, byReference, actions[..n]).participantCmds <= Run(x, byReference, actions).participantCmds
  {
    hide Exec;
    if n == |actions| {
      assert actions[..n] == actions;
    } else {
      var init := actions[..|actions| - 1];
      CommandsStay(x, byReference, init, n);
      assert init[..n] == actions[..n];
      CommandsAppended(x, byReference, Run(x, byReference, init), actions[|actions| - 1]);
    }
  }

  /** When each transfer event and each participant command is delivered at most once, no command that moves funds is
    * published, executed or booked twice. */
  lemma {:induction false} AlwaysOnce(x: Crypto, byReference: bool, actions: seq<Action>)
    requires AtMostOnce(actions)
    ensures var s := Run(x, byReference, actions);
      Once(s) && ExecutedOnce(x, byReference, actions) && Distinct(s.reserved) && Distinct(s.committed)
  {
    hide Run, Decide;
    var s := Run(x, byReference, actions);
    PublishedOnce(x, byReference, actions);
    forall n, m, cmd | 0 <= n < m < |actions| && Executes(x, byReference, actions, n, cmd)
      ensures !Executes(x, byReference, actions, m, cmd)
    {
      CommandsStay(x, byReference, actions, n);
      CommandsStay(x, byReference, actions, m);
      assert !SameDelivery(actions[n], actions[m]);
    }
    BooksDistinct(x, byReference, actions);
  }

  // ---------- conservation ----------

  /** What is reserved and not yet committed. */
  function Pending(reserved: seq<Terms>, committed: seq<Terms>): seq<Terms> {
    if reserved == [] then []
    else
      var init, t := reserved[..|reserved| - 1], reserved[|reserved| - 1];
      if t in committed then Pending(init, committed) else Pending(init, committed) + [t]
  }

  lemma {:induction false} PendingSame(reserved: seq<Terms>, a: seq<Terms>, b: seq<Terms>)
    requires forall t :: t in reserved ==> (t in a <==> t in b)
    ensures Pending(reserved, a) == Pending(reserved, b)
  {
    if reserved == [] {
    } else {
      PendingSame(reserved[..|reserved| - 1], a, b);
    }
  }

  /** One more commit takes its amount off what is pending. */
  lemma {:induction false} PendingDrop(reserved: seq<Terms>, committed: seq<Terms>, t: Terms, c: string)
    requires Distinct(reserved) && t in reserved && t !in committed
    ensures Ledger(Pending(reserved, committed), c)
            == Ledger(Pending(reserved, committed + [t]), c) + (if t.currency == c then Val(t.amount) else 0.0)
  {
    var init, last := reserved[..|reserved| - 1], reserved[|reserved| - 1];
    assert reserved == init + [last];
    if last == t {
      PendingSame(init, committed, committed + [t]);
      LedgerAppend(Pending(init, committed), t, c);
    } else {
      PendingDrop(init, committed, t, c);
      if last !in committed {
        LedgerAppend(Pending(init, committed), last, c);
        LedgerAppend(Pending(init, committed + [t]), last, c);
      }
    }
  }

  lemma {:induction false} PendingAll(reserved: seq<Terms>)
    ensures Pending(reserved, []) == reserved
  {
    if reserved == [] {
    } else {
      PendingAll(reserved[..|reserved| - 1]);
    }
  }

  lemma {:induction false} PendingLedger(reserved: seq<Terms>, committed: seq<Terms>, c: string)
    requires Distinct(reserved) && Distinct(committed) && forall t :: t in committed ==> t in reserved
    ensures Ledger(Pending(reserved, committed), c) == Ledger(reserved, c) - Ledger(committed, c)
  {
    if committed == [] {
      PendingAll(reserved);
    } else {
      var init, t := committed[..|committed| - 1], committed[|committed| - 1];
      assert committed == init + [t];
      PendingLedger(reserved, init, c);
      PendingDrop(reserved, init, t, c);
    }
  }

  /** The positions add up to their sum at creation and what is reserved and not yet committed. */
  ghost predicate Conserved(s: State, c: string) {
    && Lists(s.roster, s.participants.store.Keys)
    && SumOf(s.roster, s.participants.store, c) ==
       SumOf(s.roster, s.birth, c) + Ledger(Pending(s.reserved, s.committed), c)
  }

  /** Participants whose position to move was no finite number at creation. */
  function FrozenOf(s: State, group: seq<string>, c: string): set<string> {
    set id | id in group && id in s.birth && !Numeric(s.birth[id], c)
  }

  /** Whoever pays or is paid in the currency had a finite position to move at creation. */
  ghost predicate PartiesNumeric(s: State, c: string) {
    forall t, side :: t in s.reserved && t.currency == c && Party(t, side) in s.birth ==>
      Numeric(s.birth[Party(t, side)], c)
  }

  lemma MovedByAll(x: Crypto, s: State, c: string)
    requires Backed(x, s) && Anchored(s)
    ensures Ledger(s.reserved, c) - Ledger(s.committed, c) ==
            Moved(s, NumericOf(s, s.roster, c), c) + Moved(s, FrozenOf(s, s.roster, c), c)
    ensures PartiesNumeric(s, c) ==> Moved(s, FrozenOf(s, s.roster, c), c) == 0.0
  {
    hide Numeric, HasPosition, ParticipantOk, Known;
    var numeric, frozen := NumericOf(s, s.roster, c), FrozenOf(s, s.roster, c);
    forall t | t in s.reserved ensures forall side :: Party(t, side) in numeric + frozen {
      assert PartyOk(s, t.payer, t.currency) && PartyOk(s, t.payee, t.currency);
    }
    assert forall t :: t in s.committed ==> CommittedOk(s, t);
    AmongSplit(s.reserved, Payer, numeric, frozen, c);
    AmongSplit(s.committed, Payee, numeric, frozen, c);
    AmongAll(s.reserved, Payer, numeric + frozen);
    AmongAll(s.committed, Payee, numeric + frozen);
    if PartiesNumeric(s, c) {
      AmongNone(s.reserved, Payer, frozen, c);
      AmongNone(s.committed, Payee, frozen, c);
    }
  }

  /** In every run in which no command that moves funds is accepted twice, whatever else is delivered again: per
    * currency, the positions add up to their sum at creation plus the amounts reserved and not yet committed, exactly
    * when as much was reserved from participants that have no finite position to move as was committed to such. */
  lemma {:induction false} ConservedExactly(x: Crypto, byReference: bool, actions: seq<Action>, c: string)
    requires ExecutedOnce(x, byReference, actions)
    ensures var s := Run(x, byReference, actions);
      Conserved(s, c) <==> Moved(s, FrozenOf(s, s.roster, c), c) == 0.0
  {
    hide Run, Moved;
    var s := Run(x, byReference, actions);
    AlwaysBacked(x, byReference, actions);
    AlwaysAnchored(x, byReference, actions);
    BooksDistinct(x, byReference, actions);
    DoubleEntryOfGroup(x, byReference, actions, s.roster, c);
    assert forall t :: t in s.committed ==> CommittedOk(s, t);
    PendingLedger(s.reserved, s.committed, c);
    MovedByAll(x, s, c);
  }

  /** So they do when everyone who pays or is paid in the currency has a finite position to move; and they are back at
    * their start when nothing is pending, whoever paid whom. */
  lemma {:induction false} Conservation(x: Crypto, byReference: bool, actions: seq<Action>, c: string)
    requires ExecutedOnce(x, byReference, actions) && PartiesNumeric(Run(x, byReference, actions), c)
    ensures Conserved(Run(x, byReference, actions), c)
    ensures var s := Run(x, byReference, actions);
      Pending(s.reserved, s.committed) == [] ==>
        SumOf(s.roster, s.participants.store, c) == SumOf(s.roster, s.birth, c)
  {
    var s := Run(x, byReference, actions);
    ConservedExactly(x, byReference, actions, c);
    AlwaysBacked(x, byReference, actions);
    AlwaysAnchored(x, byReference, actions);
    MovedByAll(x, s, c);
  }

  /** In particular when each transfer event and each participant command is delivered at most once. */
  lemma {:induction false} SingleDeliveryConserves(x: Crypto, byReference: bool, actions: seq<Action>, c: string)
    requires AtMostOnce(actions) && PartiesNumeric(Run(x, byReference, actions), c)
    ensures Conserved(Run(x, byReference, actions), c)
  {
    AlwaysOnce(x, byReference, actions);
    Conservation(x, byReference, actions, c);
  }
}
