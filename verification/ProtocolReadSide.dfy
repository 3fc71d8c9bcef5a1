/** When replay and read side follow the store in the runs of the protocol. */
module ProtocolReadSide {
  import opened Common
  import opened Decimals
  import opened Participants
  import opened Transfers
  import opened Protocol
  import opened EventSourcing
  import opened Recovery
  import opened ParticipantReadSide
  import opened ProtocolProgress
  import opened ProtocolRecovery

  /** In every run of the protocol that creates the participant like this, replay and read side give what is stored. */
  ghost predicate AgreeInProtocol(p: Participant) {
    forall x, byReference, actions :: CreatedAs(Run(x, byReference, actions).participants, p) ==>
      Agree(Run(x, byReference, actions).participants, p.id)
  }

  /** Someone who can pay 1 or 2 in the currency. */
  function SomePayer(p: Participant, c: string): Participant {
    Participant(p.id + "'", "", [Account(POSITION, c, Fin(0.0), Fin(0.0), [Limit(NET_DEBIT_CAP, Some(Fin(3.0)))])], [],
                None)
  }

  lemma TwoCreated(x: Crypto, byReference: bool, p: Participant, q: Participant) returns (actions: seq<Action>)
    requires p.id != q.id
    ensures var s := Run(x, byReference, actions);
      && s.transfers == NO_TRANSFERS && s.participants.store == map[p.id := p, q.id := q]
      && s.participants.log == [CreatedState(p), CreatedState(q)]
  {
    hide Leads;
    var s1 := CreationHandled(x, byReference, START, p);
    var s2 := CreationHandled(x, byReference, s1, q);
    assert s1.participants.log == [CreatedState(p)] && s1.participants.store == map[p.id := p];
    Joined(x, byReference, START, s1, s2);
    actions := Schedule(x, byReference, START, s2);
    RunAppend(x, byReference, [], actions);
    assert [] + actions == actions;
  }

  lemma PayerReserves(s: ParticipantService, q: Participant, p: Participant, t: Terms)
    requires t.payer == q.id && t.payee == p.id != q.id && HasPosition(p, t.currency)
    requires q == SomePayer(p, t.currency) && (t.amount == Fin(1.0) || t.amount == Fin(2.0))
    requires s.store == map[p.id := p, q.id := q]
    ensures CanTakePart(s, t)
    ensures var u := HandleParticipant(s, ReservePayerFunds(t), Some(p));
      && Get(u.store, p.id) == Some(p)
      && u.log == s.log + [PositionChanged(q.id, t.currency, t.amount, None)]
  {
    assert IsPosition(q.accounts[0], t.currency) && FindPosition(q.accounts, t.currency) == 0;
    CapFound(q.accounts[0].limits);
    ReserveExactly(q, t.currency, t.amount);
  }

  /** The payee's part of what is stored and logged. */
  lemma PayeeCommits(s: ParticipantService, q: Participant, p: Participant, t: Terms)
    requires t.payer == q.id && t.payee == p.id != q.id && HasPosition(p, t.currency)
    requires q == SomePayer(p, t.currency) && (t.amount == Fin(1.0) || t.amount == Fin(2.0))
    requires s.store == map[p.id := p, q.id := q] && s.log == [CreatedState(p), CreatedState(q)]
    ensures var s1 := HandleParticipant(s, ReservePayerFunds(t), Some(p));
      var u := HandleParticipant(s1, CommitPayeeFunds(t), Some(q));
      var y := Reduced(CurrentPosition(p, t.currency), t.amount.value);
      && Get(u.store, p.id) == Some(WithPosition(p, FindPosition(p.accounts, t.currency), y))
      && LogOf(u.log, p.id) == [CreatedState(p), PositionChanged(p.id, t.currency, y, p.partition)]
  {
    hide LogOf, DecideCommit;
    PayerReserves(s, q, p, t);
    var s1 := HandleParticipant(s, ReservePayerFunds(t), Some(p));
    assert IsPosition(q.accounts[0], t.currency);
    CommitReduces(p, q, t);
    var y := Reduced(CurrentPosition(p, t.currency), t.amount.value);
    LogOfTransfer(s.log, p, q, PositionChanged(q.id, t.currency, t.amount, None),
                  PositionChanged(p.id, t.currency, y, p.partition));
  }

  lemma LogOfTransfer(log: seq<StateEvt>, p: Participant, q: Participant, reserve: StateEvt, commit: StateEvt)
    requires log == [CreatedState(p), CreatedState(q)] && p.id != q.id
    requires StateKey(reserve) == q.id && StateKey(commit) == p.id
    ensures LogOf(log + [reserve] + [commit], p.id) == [CreatedState(p), commit]
  {
    assert [CreatedState(p)] == [] + [CreatedState(p)] && log == [CreatedState(p)] + [CreatedState(q)];
    LogOfAppend([], CreatedState(p), p.id);
    LogOfAppend([CreatedState(p)], CreatedState(q), p.id);
    LogOfAppend(log, reserve, p.id);
    LogOfAppend(log + [reserve], commit, p.id);
  }

  /** One transfer of 1 or 2 that goes through tells the interpreters apart. */
  lemma OneTransferTellsApart(x: Crypto, byReference: bool, p: Participant, c: string, w: nat, f: FulfilRequest,
                              condition: string)
    returns (actions: seq<Action>)
    requires HasPosition(p, c) && Written(p, c, w) && w != FindPosition(p.accounts, c)
    requires CurrentPosition(p, c).Fin? || p.accounts[w].position != CurrentPosition(p, c)
    requires Fulfils(x, f.fulfilment, condition)
    ensures var s := Run(x, byReference, actions);
      && s.transfers.store.Keys == {f.id} && s.transfers.store[f.id].state == COMMITTED
      && CreatedAs(s.participants, p) && !Agree(s.participants, p.id)
  {
    hide Run, HandleParticipant, Agree, CreatedAs, Fulfils, LogOf;
    var q := SomePayer(p, c);
    var amount := TellingAmount(CurrentPosition(p, c), p.accounts[w].position);
    var t := Terms(f.id, q.id, p.id, c, Fin(amount));
    var r := PrepareRequest(t, "", condition, Raw("", ""));
    var created := TwoCreated(x, byReference, p, q);
    var s := Run(x, byReference, created);
    PayerReserves(s.participants, q, p, t);
    var more := TransferCanGoThrough(x, byReference, created, r, f);
    actions := created + more;
    PayeeCommits(s.participants, q, p, t);
    TellsApart(Run(x, byReference, actions).participants, p, c, w, Reduced(CurrentPosition(p, c), amount));
  }

  lemma UnclearTellsApart(p: Participant)
    requires !Clear(p)
    ensures !AgreeInProtocol(p)
  {
    hide Run, Agree, CreatedAs, ClearIn;
    var c :| !ClearIn(p, c);
    var w := UnclearAccount(p, c);
    var x := Crypto((_: string) => seq(32, _ => 0 as bv8), (_: seq<bv8>) => "");
    var f := FulfilRequest("t", "", "", "", "", "", Raw("", ""));
    var _ := OneTransferTellsApart(x, false, p, c, w, f, "");
  }

  /** Over all runs of the protocol, replay of the log and read side give the stored participant exactly when its
    * accounts were clear at creation; between finite positions, exactly when they were unambiguous. */
  lemma {:induction false} ProtocolAgreementIsUnambiguity(p: Participant)
    ensures AgreeInProtocol(p) <==> Clear(p)
    ensures FinitePositions(p) ==> (AgreeInProtocol(p) <==> Unambiguous(p))
  {
    hide Run, Agree, CreatedAs, ClearIn;
    ClearIsUnambiguous(p);
    if Clear(p) {
      forall x, byReference, actions | CreatedAs(Run(x, byReference, actions).participants, p)
        ensures Agree(Run(x, byReference, actions).participants, p.id)
      {
        var requests := ServiceRunOf(x, byReference, actions);
        ReadSideEqualsStore(requests, p.id);
      }
    } else {
      UnclearTellsApart(p);
    }
  }
}
