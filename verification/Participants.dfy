/** Participants with their accounts and limits, the operations of the participant entity on values, and what
  * the participants aggregate decides for each command. */
module Participants {
  import opened Common
  import opened Decimals

  datatype AccountType =
    | POSITION
    | SETTLEMENT
    | HUB_RECONCILIATION
    | HUB_MULTILATERAL_SETTLEMENT
    | HUB_FEE
    | INTERCHANGE_FEE

  datatype LimitType = NET_DEBIT_CAP | UNLISTED(name: string)

  datatype Limit = Limit(kind: LimitType, value: Option<Num>)

  datatype Account = Account(
    kind: AccountType, currency: string, position: Num, initialPosition: Num, limits: seq<Limit>)

  datatype Endpoint = Endpoint(kind: string, value: string)

  datatype Participant = Participant(
    id: string, name: string, accounts: seq<Account>, endpoints: seq<Endpoint>, partition: Option<int>)

  /** What a transfer moves: the payload shared by the accepted events and the participant commands. */
  datatype Terms = Terms(id: string, payer: string, payee: string, currency: string, amount: Num)

  // ---------- the entity ----------

  predicate IsPosition(a: Account, c: string) {
    a.kind == POSITION && a.currency == c
  }

  /** The first POSITION account of the currency, or the number of accounts when there is none. */
  function FindPosition(accounts: seq<Account>, c: string): (i: nat)
    ensures i <= |accounts|
    ensures i < |accounts| ==> IsPosition(accounts[i], c)
    ensures forall j :: 0 <= j < i ==> !IsPosition(accounts[j], c)
  {
    if accounts == [] then 0
    else if IsPosition(accounts[0], c) then 0
    else 1 + FindPosition(accounts[1..], c)
  }

  predicate HasPosition(p: Participant, c: string) {
    FindPosition(p.accounts, c) < |p.accounts|
  }

  /** The value of the first net debit cap limit; None when there is no such limit or it carries no value. */
  function NetDebitCap(limits: seq<Limit>): Option<Num> {
    if limits == [] then None
    else if limits[0].kind == NET_DEBIT_CAP then limits[0].value
    else NetDebitCap(limits[1..])
  }

  function WithPosition(p: Participant, i: nat, x: Num): Participant
    requires i < |p.accounts|
  {
    p.(accounts := p.accounts[i := p.accounts[i].(position := x)])
  }

  datatype FundsError = InvalidAccount | InvalidLimit | NetDebitCapLimitExceeded

  function TryReserve(p: Participant, c: string, amount: Num): Result<Participant, FundsError> {
    var i := FindPosition(p.accounts, c);
    if amount == NaN || AtMost(amount, ZERO) then Failure(NetDebitCapLimitExceeded)
    else if i == |p.accounts| then Failure(InvalidAccount)
    else
      var a := p.accounts[i];
      var cap := NetDebitCap(a.limits);
      if cap.None? then Failure(InvalidLimit)
      else if a.position == NaN || !Less(Plus(a.position, amount), cap.value) then Failure(NetDebitCapLimitExceeded)
      else Success(WithPosition(p, i, Plus(a.position, amount)))
  }

  /** A result that is not a number leaves the position alone, and still counts as a commit. */
  function TryCommit(p: Participant, c: string, amount: Num): Result<Participant, FundsError> {
    var i := FindPosition(p.accounts, c);
    if i == |p.accounts| then Failure(InvalidAccount)
    else
      var result := Minus(p.accounts[i].position, amount);
      Success(if result == NaN then p else WithPosition(p, i, result))
  }

  /** The position of the first POSITION account of the currency. */
  function CurrentPosition(p: Participant, c: string): Num
    requires HasPosition(p, c)
  {
    p.accounts[FindPosition(p.accounts, c)].position
  }

  // ---------- the aggregate ----------

  datatype Cmd =
    | CreateParticipant(participant: Participant)
    | ReservePayerFunds(terms: Terms)
    | CommitPayeeFunds(terms: Terms)
    | SnapshotParticipant(id: string)

  datatype Evt =
    | DuplicateParticipant(id: string)
    | ParticipantCreated(id: string, name: string)
    | InvalidParticipant(id: string, transferId: string)
    | NetCapLimitExceeded(transferId: string, payer: string)
    | PayerFundsReserved(transferId: string, payer: string, currency: string, position: Num,
                         payerEndpoints: seq<Endpoint>, payeeEndpoints: seq<Endpoint>)
    | PayeeFundsCommitted(transferId: string, payer: string, payee: string, currency: string, position: Num,
                          payerEndpoints: seq<Endpoint>, payeeEndpoints: seq<Endpoint>)

  datatype StateEvt =
    | CreatedState(participant: Participant)
    | PositionChanged(id: string, currency: string, position: Num, partition: Option<int>)
    | SnapshotState(participant: Participant)

  /** Accepted: the events go out and the root is stored.  Refused: only a domain event goes out.
    * Thrown: nothing goes out and the error reaches the command handler. */
  datatype Outcome =
    | Accepted(root: Participant, evts: seq<Evt>, stateEvt: StateEvt)
    | Refused(evt: Evt)
    | Thrown

  /** The participant a command is addressed to. */
  function Key(cmd: Cmd): string {
    match cmd
    case CreateParticipant(p) => p.id
    case ReservePayerFunds(t) => t.payer
    case CommitPayeeFunds(t) => t.payee
    case SnapshotParticipant(id) => id
  }

  /** The participant whose cached copy the command also reads; the addressee when it reads none. */
  function Counterparty(cmd: Cmd): string {
    match cmd
    case ReservePayerFunds(t) => t.payee
    case CommitPayeeFunds(t) => t.payer
    case _ => Key(cmd)
  }

  function DecideReserve(payer: Option<Participant>, payee: Option<Participant>, t: Terms): Outcome {
    if payer.None? then Refused(InvalidParticipant(t.payer, t.id))
    else if payee.None? then Refused(InvalidParticipant(t.payee, t.id))
    else if !HasPosition(payee.value, t.currency) then Refused(InvalidParticipant(t.payee, t.id))
    else
      match TryReserve(payer.value, t.currency, t.amount)
      case Failure(NetDebitCapLimitExceeded) => Refused(NetCapLimitExceeded(t.id, t.payer))
      case Failure(_) => Refused(InvalidParticipant(t.payer, t.id))
      case Success(root) =>
        var position := root.accounts[FindPosition(payer.value.accounts, t.currency)].position;
        Accepted(
          root,
          [PayerFundsReserved(t.id, t.payer, t.currency, position, root.endpoints, payee.value.endpoints)],
          PositionChanged(root.id, t.currency, position, root.partition))
  }

  function DecideCommit(payee: Option<Participant>, payer: Option<Participant>, t: Terms): Outcome {
    if payee.None? then Refused(InvalidParticipant(t.payee, t.id))
    else if !HasPosition(payee.value, t.currency) then Refused(InvalidParticipant(t.payee, t.id))
    else if payer.None? then Refused(InvalidParticipant(t.payer, t.id))
    else if !HasPosition(payer.value, t.currency) then Refused(InvalidParticipant(t.payee, t.id))
    else
      match TryCommit(payee.value, t.currency, t.amount)
      case Failure(_) => Refused(InvalidParticipant(t.payer, t.id))
      case Success(root) =>
        var position := root.accounts[FindPosition(payee.value.accounts, t.currency)].position;
        Accepted(
          root,
          [PayeeFundsCommitted(t.id, t.payer, t.payee, t.currency, position,
                               payer.value.endpoints, root.endpoints)],
          PositionChanged(root.id, t.currency, position, root.partition))
  }

  /** `root` is the participant the command is addressed to, `other` the cached copy of its counterparty. */
  function Decide(root: Option<Participant>, other: Option<Participant>, cmd: Cmd): Outcome {
    match cmd
    case CreateParticipant(p) =>
      if root.Some? then Refused(DuplicateParticipant(p.id))
      else Accepted(p, [ParticipantCreated(p.id, p.name)], CreatedState(p))
    case ReservePayerFunds(t) => DecideReserve(root, other, t)
    case CommitPayeeFunds(t) => DecideCommit(root, other, t)
    case SnapshotParticipant(_) =>
      if root.None? then Thrown else Accepted(root.value, [], SnapshotState(root.value))
  }

  /** The stored participants and everything published, under one participants service. */
  datatype ParticipantService = ParticipantService(
    store: map<string, Participant>, evts: seq<Evt>, log: seq<StateEvt>, snapshots: seq<StateEvt>)

  const NO_PARTICIPANTS := ParticipantService(map[], [], [], [])

  /** What happens to an outcome: state events and snapshots go to two topics, and the root is stored. */
  function Settle(s: ParticipantService, o: Outcome): ParticipantService {
    match o
    case Accepted(root, evts, stateEvt) =>
      var snap := stateEvt.SnapshotState?;
      ParticipantService(
        s.store[root.id := root], s.evts + evts,
        if snap then s.log else s.log + [stateEvt],
        if snap then s.snapshots + [stateEvt] else s.snapshots)
    case Refused(evt) => s.(evts := s.evts + [evt])
    case Thrown => s
  }

  /** One command, with the cached copy of its counterparty. */
  function HandleParticipant(s: ParticipantService, cmd: Cmd, other: Option<Participant>): ParticipantService {
    Settle(s, Decide(Get(s.store, Key(cmd)), other, cmd))
  }

  // ---------- what the entity operations mean ----------

  /** Everything about a participant except its positions. */
  ghost predicate SameStatics(p: Participant, q: Participant) {
    && p.id == q.id && p.name == q.name && p.endpoints == q.endpoints && p.partition == q.partition
    && |p.accounts| == |q.accounts|
    && forall k {:trigger p.accounts[k]} {:trigger q.accounts[k]} :: 0 <= k < |p.accounts| ==>
         p.accounts[k] == q.accounts[k].(position := p.accounts[k].position)
  }

  lemma SameStaticsFind(p: Participant, q: Participant, c: string)
    requires SameStatics(p, q)
    ensures FindPosition(p.accounts, c) == FindPosition(q.accounts, c)
    ensures HasPosition(p, c) == HasPosition(q, c)
  {
  }

  /** The first limit of the kind, at this index, carries this value. */
  ghost predicate CapAt(limits: seq<Limit>, l: nat, cap: Num) {
    && l < |limits| && limits[l].kind == NET_DEBIT_CAP && limits[l].value == Some(cap)
    && forall j :: 0 <= j < l ==> limits[j].kind != NET_DEBIT_CAP
  }

  ghost predicate CapIs(limits: seq<Limit>, cap: Num) {
    exists l: nat :: CapAt(limits, l, cap)
  }

  /** The cap is the value of the first limit of its kind; there is none without such a limit or without its value. */
  lemma {:induction false} CapIsFirst(limits: seq<Limit>)
    ensures forall i :: 0 <= i < |limits| && limits[i].kind == NET_DEBIT_CAP
                        && (forall j :: 0 <= j < i ==> limits[j].kind != NET_DEBIT_CAP) ==>
                          NetDebitCap(limits) == limits[i].value
    ensures (forall i :: 0 <= i < |limits| ==> limits[i].kind != NET_DEBIT_CAP) ==> NetDebitCap(limits).None?
  {
    if limits != [] {
      CapIsFirst(limits[1..]);
      assert forall i :: 0 < i < |limits| ==> limits[i] == limits[1..][i - 1];
    }
  }

  lemma {:induction false} CapFound(limits: seq<Limit>)
    ensures forall cap :: CapIs(limits, cap) ==> NetDebitCap(limits) == Some(cap)
    ensures NetDebitCap(limits).Some? ==> CapIs(limits, NetDebitCap(limits).value)
  {
    if limits == [] {
    } else if limits[0].kind == NET_DEBIT_CAP {
      assert limits[0].value.Some? ==> CapAt(limits, 0, limits[0].value.value);
    } else {
      CapFound(limits[1..]);
      forall l: nat, cap ensures CapAt(limits[1..], l, cap) ==> CapAt(limits, l + 1, cap) {
      }
      forall l: nat, cap ensures CapAt(limits, l, cap) ==> l > 0 && CapAt(limits[1..], l - 1, cap) {
      }
    }
  }

  /** The POSITION account of the currency at this index comes first. */
  ghost predicate AccountAt(p: Participant, c: string, i: nat) {
    && i < |p.accounts| && p.accounts[i].kind == POSITION && p.accounts[i].currency == c
    && forall j :: 0 <= j < i ==> !(p.accounts[j].kind == POSITION && p.accounts[j].currency == c)
  }

  /** With the amount on it the position stays below the cap. */
  ghost predicate Fits(position: Num, amount: real, cap: Num) {
    if position.Fin? then Below(Fin(position.value + amount), cap) else position == NegInf && Below(NegInf, cap)
  }

  /** Exactly when a reservation succeeds: a positive finite amount, a POSITION account of the currency that
    * has a cap and a position that is a number, and a sum below the cap. */
  ghost predicate Reservable(p: Participant, c: string, amount: Num) {
    && amount.Fin? && amount.value > 0.0
    && exists i: nat, cap :: AccountAt(p, c, i) && CapIs(p.accounts[i].limits, cap)
                             && Fits(p.accounts[i].position, amount.value, cap)
  }

  lemma FoundAccount(p: Participant, c: string)
    ensures forall i: nat :: AccountAt(p, c, i) <==> i == FindPosition(p.accounts, c) && HasPosition(p, c)
  {
  }

  lemma FitsIsLess(position: Num, amount: Num, cap: Num)
    requires amount.Fin?
    ensures Fits(position, amount.value, cap) <==> position != NaN && Less(Plus(position, amount), cap)
  {
  }

  lemma ReserveExactly(p: Participant, c: string, amount: Num)
    ensures TryReserve(p, c, amount).Success? <==> Reservable(p, c, amount)
  {
    hide FindPosition, NetDebitCap, CapIs, Fits;
    FoundAccount(p, c);
    if HasPosition(p, c) {
      var a := p.accounts[FindPosition(p.accounts, c)];
      CapFound(a.limits);
      if amount.Fin? && NetDebitCap(a.limits).Some? {
        FitsIsLess(a.position, amount, NetDebitCap(a.limits).value);
        assert Fits(a.position, amount.value, NetDebitCap(a.limits).value) && amount.value > 0.0 ==>
          Reservable(p, c, amount);
      }
    }
  }

  /** Which error a reservation or a commit fails with: an amount that is no positive number counts as over the cap,
    * then a missing account comes before a missing cap. */
  lemma FundsErrors(p: Participant, c: string, amount: Num)
    ensures var found := exists i: nat :: AccountAt(p, c, i);
      var capped := exists i: nat, cap :: AccountAt(p, c, i) && CapIs(p.accounts[i].limits, cap);
      && (if Reservable(p, c, amount) then TryReserve(p, c, amount).Success?
          else TryReserve(p, c, amount) == Failure(
            if !Below(Fin(0.0), amount) || capped then NetDebitCapLimitExceeded
            else if !found then InvalidAccount
            else InvalidLimit))
      && (if found then TryCommit(p, c, amount).Success? else TryCommit(p, c, amount) == Failure(InvalidAccount))
  {
    hide NetDebitCap, FindPosition, CapIs;
    ReserveExactly(p, c, amount);
    FoundAccount(p, c);
    ComparisonsAreOrder(amount, ZERO);
    if HasPosition(p, c) {
      var i := FindPosition(p.accounts, c);
      CapFound(p.accounts[i].limits);
      assert AccountAt(p, c, i);
    }
  }

  // ---------- what the handlers decide ----------

  /** Only the position of the account at this index differs, and it is this. */
  ghost predicate Repositioned(p: Participant, q: Participant, i: nat, x: Num) {
    && i < |p.accounts| == |q.accounts|
    && q == p.(accounts := q.accounts)
    && q.accounts[i] == p.accounts[i].(position := x)
    && forall k :: 0 <= k < |p.accounts| && k != i ==> q.accounts[k] == p.accounts[k]
  }

  /** The amount is off the position; one that is no finite number stays as it is, and so does any if the difference
    * is no number. */
  ghost predicate TakenOff(was: Num, amount: Num, x: Num) {
    && (was.Fin? && amount.Fin? ==> x == Fin(was.value - amount.value))
    && (!was.Fin? || amount == NaN ==> x == was)
    && (was.Fin? && amount == PosInf ==> x == NegInf)
    && (was.Fin? && amount == NegInf ==> x == PosInf)
  }

  /** What an accepted commit leaves, logs and announces, with the endpoints of both. */
  ghost predicate CommitLeaves(payee: Participant, payer: Participant, t: Terms, o: Outcome, i: nat) {
    && o.Accepted? && AccountAt(payee, t.currency, i) && i < |o.root.accounts|
    && var x := o.root.accounts[i].position;
    && Repositioned(payee, o.root, i, x) && TakenOff(payee.accounts[i].position, t.amount, x)
    && o.evts == [PayeeFundsCommitted(t.id, t.payer, t.payee, t.currency, x, payer.endpoints, payee.endpoints)]
    && o.stateEvt == PositionChanged(payee.id, t.currency, x, payee.partition)
  }

  /** What an accepted reserve leaves, logs and announces, with the endpoints of both. */
  ghost predicate ReserveLeaves(payer: Participant, payee: Participant, t: Terms, o: Outcome, i: nat) {
    && o.Accepted? && AccountAt(payer, t.currency, i) && t.amount.Fin?
    && var was := payer.accounts[i].position;
    && var x := if was.Fin? then Fin(was.value + t.amount.value) else was;
    && Repositioned(payer, o.root, i, x)
    && o.evts == [PayerFundsReserved(t.id, t.payer, t.currency, x, payer.endpoints, payee.endpoints)]
    && o.stateEvt == PositionChanged(payer.id, t.currency, x, payer.partition)
  }

  /** A reserve is accepted exactly when both parties are known, the payee has an account and the payer can reserve;
    * it then puts the amount on the payer's position, and this is what it logs and announces, with the endpoints of
    * both. */
  lemma ReserveOutcome(payer: Option<Participant>, payee: Option<Participant>, t: Terms)
    ensures var o := DecideReserve(payer, payee, t);
      && (o.Accepted? <==>
            && payer.Some? && payee.Some? && Reservable(payer.value, t.currency, t.amount)
            && exists i: nat :: AccountAt(payee.value, t.currency, i))
      && (o.Accepted? ==> exists i: nat :: ReserveLeaves(payer.value, payee.value, t, o, i))
  {
    hide NetDebitCap, FindPosition;
    if payer.Some? {
      ReserveExactly(payer.value, t.currency, t.amount);
      FoundAccount(payer.value, t.currency);
      var i := FindPosition(payer.value.accounts, t.currency);
      assert HasPosition(payer.value, t.currency) ==> AccountAt(payer.value, t.currency, i);
      assert payee.Some? && DecideReserve(payer, payee, t).Accepted? ==>
        ReserveLeaves(payer.value, payee.value, t, DecideReserve(payer, payee, t), i);
    }
    if payee.Some? {
      FoundAccount(payee.value, t.currency);
      assert HasPosition(payee.value, t.currency) ==>
        AccountAt(payee.value, t.currency, FindPosition(payee.value.accounts, t.currency));
    }
  }

  /** The amount is no positive number, or the account has a net debit cap to hold it against. */
  ghost predicate ChecksCap(p: Participant, t: Terms) {
    || !Below(Fin(0.0), t.amount)
    || exists i: nat, cap :: AccountAt(p, t.currency, i) && CapIs(p.accounts[i].limits, cap)
  }

  lemma ChecksCapExactly(p: Participant, t: Terms)
    ensures var i := FindPosition(p.accounts, t.currency);
      ChecksCap(p, t) <==>
      || t.amount == NaN || AtMost(t.amount, ZERO)
      || (HasPosition(p, t.currency) && NetDebitCap(p.accounts[i].limits).Some?)
  {
    hide NetDebitCap, FindPosition, CapIs;
    FoundAccount(p, t.currency);
    ComparisonsAreOrder(t.amount, ZERO);
    if HasPosition(p, t.currency) {
      var i := FindPosition(p.accounts, t.currency);
      CapFound(p.accounts[i].limits);
      assert AccountAt(p, t.currency, i);
    }
  }

  /** Who or what a refused reserve is said to be for: the payer if unknown, then the payee if unknown or without an
    * account, then the cap if the amount is no positive number or does not fit, then the payer. */
  lemma ReserveRefusals(payer: Option<Participant>, payee: Option<Participant>, t: Terms)
    requires !DecideReserve(payer, payee, t).Accepted?
    ensures var payeeOk := payee.Some? && exists i: nat :: AccountAt(payee.value, t.currency, i);
      DecideReserve(payer, payee, t) == Refused(
        if payer.None? then InvalidParticipant(t.payer, t.id)
        else if !payeeOk then InvalidParticipant(t.payee, t.id)
        else if ChecksCap(payer.value, t) then NetCapLimitExceeded(t.id, t.payer)
        else InvalidParticipant(t.payer, t.id))
  {
    hide NetDebitCap, FindPosition, CapIs;
    if payee.Some? {
      FoundAccount(payee.value, t.currency);
      assert HasPosition(payee.value, t.currency) ==>
        AccountAt(payee.value, t.currency, FindPosition(payee.value.accounts, t.currency));
    }
    if payer.Some? {
      ChecksCapExactly(payer.value, t);
    }
  }

  /** A commit is accepted exactly when both parties are known and have an account; it then takes the amount off the
    * payee's position, unless the result is no number, and this is what it logs and announces. */
  lemma CommitOutcome(payee: Option<Participant>, payer: Option<Participant>, t: Terms)
    ensures var o := DecideCommit(payee, payer, t);
      var payeeOk := payee.Some? && exists i: nat :: AccountAt(payee.value, t.currency, i);
      var payerOk := payer.Some? && exists i: nat :: AccountAt(payer.value, t.currency, i);
      if payeeOk && payerOk then exists i: nat :: CommitLeaves(payee.value, payer.value, t, o, i)
      else o == Refused(InvalidParticipant(if payeeOk && payer.None? then t.payer else t.payee, t.id))
  {
    hide FindPosition;
    if payer.Some? {
      FoundAccount(payer.value, t.currency);
      assert HasPosition(payer.value, t.currency) ==>
        AccountAt(payer.value, t.currency, FindPosition(payer.value.accounts, t.currency));
    }
    if payee.Some? {
      FoundAccount(payee.value, t.currency);
      var i := FindPosition(payee.value.accounts, t.currency);
      assert HasPosition(payee.value, t.currency) ==> AccountAt(payee.value, t.currency, i);
      if payer.Some? && DecideCommit(payee, payer, t).Accepted? {
        var was := payee.value.accounts[i].position;
        assert payee.value.accounts[i := payee.value.accounts[i].(position := was)] == payee.value.accounts;
        assert CommitLeaves(payee.value, payer.value, t, DecideCommit(payee, payer, t), i);
      }
    }
  }

  /** A participant is created once, as the command says; a snapshot is the participant as it is. */
  lemma OtherOutcomes(root: Option<Participant>, other: Option<Participant>, p: Participant, id: string)
    ensures root.None? ==>
              && Decide(root, other, CreateParticipant(p)) ==
                 Accepted(p, [ParticipantCreated(p.id, p.name)], CreatedState(p))
              && Decide(root, other, SnapshotParticipant(id)) == Thrown
    ensures root.Some? ==>
              && Decide(root, other, CreateParticipant(p)) == Refused(DuplicateParticipant(p.id))
              && Decide(root, other, SnapshotParticipant(id)) ==
                 Accepted(root.value, [], SnapshotState(root.value))
  {
  }

  /** Writing one position changes that position and nothing else. */
  lemma WithPositionFrame(p: Participant, c: string, x: Num)
    requires HasPosition(p, c)
    ensures var q := WithPosition(p, FindPosition(p.accounts, c), x);
      SameStatics(p, q) && HasPosition(q, c) && CurrentPosition(q, c) == x
      && forall k :: 0 <= k < |p.accounts| && k != FindPosition(p.accounts, c) ==> q.accounts[k] == p.accounts[k]
  {
  }

  /** A commit of what was reserved from the same participant brings every position back. */
  lemma CommitUndoesReserve(p: Participant, c: string, amount: Num)
    requires TryReserve(p, c, amount).Success?
    ensures TryCommit(TryReserve(p, c, amount).value, c, amount) == Success(p)
  {
    var i := FindPosition(p.accounts, c);
    var q := TryReserve(p, c, amount).value;
    WithPositionFrame(p, c, Plus(p.accounts[i].position, amount));
    var r := TryCommit(q, c, amount).value;
    assert Minus(Plus(p.accounts[i].position, amount), amount) == p.accounts[i].position;
    assert r.accounts == p.accounts;
  }

  /** Two copies that differ in positions only lead to the same decision, event payloads included. */
  lemma StaleCounterparty(root: Option<Participant>, a: Participant, b: Participant, cmd: Cmd)
    requires SameStatics(a, b)
    ensures Decide(root, Some(a), cmd) == Decide(root, Some(b), cmd)
  {
  }

  /** Every command is answered by one event, after all earlier ones, but for snapshots, which are published apart and
    * announced by none; and only the addressed participant is stored. */
  lemma AnsweredByOneEvent(s: ParticipantService, cmd: Cmd, other: Option<Participant>)
    requires forall id :: id in s.store ==> s.store[id].id == id
    ensures var t := HandleParticipant(s, cmd, other);
      && s.evts <= t.evts && |t.evts| == |s.evts| + (if cmd.SnapshotParticipant? then 0 else 1)
      && s.log <= t.log && |t.log| <= |s.log| + 1
      && (cmd.SnapshotParticipant? ==> t.log == s.log && t.store == s.store)
      && t.snapshots == (if cmd.SnapshotParticipant? && Key(cmd) in s.store
                         then s.snapshots + [SnapshotState(s.store[Key(cmd)])] else s.snapshots)
      && (forall id :: id != Key(cmd) ==> Get(t.store, id) == Get(s.store, id))
  {
    hide TryReserve, TryCommit;
    match cmd
    case ReservePayerFunds(t) => ReserveKeepsId(s, t, other);
    case CommitPayeeFunds(t) => CommitKeepsId(s, t, other);
    case _ =>
  }

  lemma ReserveKeepsId(s: ParticipantService, t: Terms, other: Option<Participant>)
    requires forall id :: id in s.store ==> s.store[id].id == id
    ensures var o := DecideReserve(Get(s.store, t.payer), other, t);
      o.Accepted? ==> o.root.id == t.payer
  {
  }

  lemma CommitKeepsId(s: ParticipantService, t: Terms, other: Option<Participant>)
    requires forall id :: id in s.store ==> s.store[id].id == id
    ensures var o := DecideCommit(Get(s.store, t.payee), other, t);
      o.Accepted? ==> o.root.id == t.payee
  {
  }
}
