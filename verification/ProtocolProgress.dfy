/** A transfer can complete: from every state of every run, a new transfer between participants that can take part has
  * a schedule that takes it from its prepare request to COMMITTED. */
module ProtocolProgress {
  import opened Common
  import opened Participants
  import opened Transfers
  import opened Protocol
  import opened ProtocolFunds

  // ---------- schedules ----------

  function After(x: Crypto, byReference: bool, s: State, actions: seq<Action>): State {
    if actions == [] then s
    else Exec(x, byReference, After(x, byReference, s, actions[..|actions| - 1]), actions[|actions| - 1])
  }

  lemma {:induction false} AfterAppend(x: Crypto, byReference: bool, s: State, a: seq<Action>, b: seq<Action>)
    ensures After(x, byReference, s, a + b) == After(x, byReference, After(x, byReference, s, a), b)
  {
    hide Exec;
    if b == [] {
      assert a + b == a;
    } else {
      AfterAppend(x, byReference, s, a, b[..|b| - 1]);
      assert (a + b)[..|a + b| - 1] == a + b[..|b| - 1];
    }
  }

  lemma {:induction false} RunAppend(x: Crypto, byReference: bool, actions: seq<Action>, more: seq<Action>)
    ensures Run(x, byReference, actions + more) == After(x, byReference, Run(x, byReference, actions), more)
  {
    hide Exec;
    if more == [] {
      assert actions + more == actions;
    } else {
      RunAppend(x, byReference, actions, more[..|more| - 1]);
      assert (actions + more)[..|actions + more| - 1] == actions + more[..|more| - 1];
    }
  }

  /** Some schedule leads from one state to the other, and a copy that could be shown before can be shown after. */
  ghost predicate Leads(x: Crypto, byReference: bool, s: State, t: State) {
    && (exists actions :: After(x, byReference, s, actions) == t)
    && (forall id, p :: Version(s, id, p) ==> Version(t, id, p))
  }

  lemma OneStep(x: Crypto, byReference: bool, s: State, a: Action)
    ensures Leads(x, byReference, s, Exec(x, byReference, s, a))
  {
    VersionsStay(x, byReference, s, a);
    hide Exec, Version;
    var t := Exec(x, byReference, s, a);
    assert [a][..0] == [];
    assert After(x, byReference, s, []) == s;
    assert After(x, byReference, s, [a]) == t;
  }

  lemma VersionsStay(x: Crypto, byReference: bool, s: State, a: Action)
    ensures forall id, p :: Version(s, id, p) ==> Version(Exec(x, byReference, s, a), id, p)
  {
    hide Decide, Settle, DecideOn, SettleTransfer;
  }

  lemma Joined(x: Crypto, byReference: bool, s: State, t: State, u: State)
    requires Leads(x, byReference, s, t) && Leads(x, byReference, t, u)
    ensures Leads(x, byReference, s, u)
  {
    hide After, Version;
    var a :| After(x, byReference, s, a) == t;
    var b :| After(x, byReference, t, b) == u;
    AfterAppend(x, byReference, s, a, b);
  }

  // ---------- from a message to what comes of it ----------

  /** The transfers service has handled a command, and the participants nothing. */
  ghost predicate TransferHandled(x: Crypto, byReference: bool, s: State, cmd: TransferCmd, t: State) {
    && Leads(x, byReference, s, t)
    && t.transfers == HandleTransfer(x, byReference, s.transfers, cmd)
    && t.participants == s.participants && t.reserved == s.reserved && t.committed == s.committed
  }

  /** The participants service has handled a command, and the transfers nothing. */
  ghost predicate ParticipantHandled(x: Crypto, byReference: bool, s: State, cmd: Cmd, copy: Option<Participant>,
                                     t: State)
  {
    && Leads(x, byReference, s, t)
    && t.transfers == s.transfers && t.participants == HandleParticipant(s.participants, cmd, copy)
    && (Decide(Get(s.participants.store, Key(cmd)), copy, cmd).Accepted? ==>
          && t.reserved == (if cmd.ReservePayerFunds? then s.reserved + [cmd.terms] else s.reserved)
          && t.committed == (if cmd.CommitPayeeFunds? then s.committed + [cmd.terms] else s.committed))
  }

  lemma TransferCmdHandled(x: Crypto, byReference: bool, s: State, cmd: TransferCmd) returns (t: State)
    requires cmd in s.transferCmds
    ensures TransferHandled(x, byReference, s, cmd, t)
  {
    hide DecideOn, SettleTransfer, Leads;
    var i :| 0 <= i < |s.transferCmds| && s.transferCmds[i] == cmd;
    OneStep(x, byReference, s, HandleTransferCmd(i));
    t := Exec(x, byReference, s, HandleTransferCmd(i));
  }

  lemma ParticipantCmdHandled(x: Crypto, byReference: bool, s: State, cmd: Cmd, copy: Option<Participant>)
    returns (t: State)
    requires cmd in s.participantCmds && Shown(s, Counterparty(cmd), copy)
    ensures ParticipantHandled(x, byReference, s, cmd, copy, t)
  {
    hide Decide, Settle, Leads, Shown;
    var i :| 0 <= i < |s.participantCmds| && s.participantCmds[i] == cmd;
    OneStep(x, byReference, s, HandleParticipantCmd(i, copy));
    t := Exec(x, byReference, s, HandleParticipantCmd(i, copy));
  }

  lemma IngressHandled(x: Crypto, byReference: bool, s: State, r: Ingress) returns (t: State)
    ensures TransferHandled(x, byReference, s, FromIngress(r), t)
  {
    hide Leads, HandleTransfer;
    var inject, route := InjectIngress(r), RouteIngress(|s.ingress|);
    var s1 := Exec(x, byReference, s, inject);
    var s2 := Exec(x, byReference, s1, route);
    OneStep(x, byReference, s, inject);
    OneStep(x, byReference, s1, route);
    t := TransferCmdHandled(x, byReference, s2, FromIngress(r));
    Joined(x, byReference, s, s1, s2);
    Joined(x, byReference, s, s2, t);
  }

  lemma ParticipantEvtHandled(x: Crypto, byReference: bool, s: State, e: Evt) returns (t: State)
    requires e in s.participants.evts && ToTransferCmd(e).Some?
    ensures TransferHandled(x, byReference, s, ToTransferCmd(e).value, t)
  {
    hide Leads, HandleTransfer, ToTransferCmd;
    var i :| 0 <= i < |s.participants.evts| && s.participants.evts[i] == e;
    var s1 := Exec(x, byReference, s, RouteParticipantEvt(i));
    OneStep(x, byReference, s, RouteParticipantEvt(i));
    t := TransferCmdHandled(x, byReference, s1, ToTransferCmd(e).value);
    Joined(x, byReference, s, s1, t);
  }

  lemma TransferEvtHandled(x: Crypto, byReference: bool, s: State, e: TransferEvt, root: Participant,
                           other: Participant)
    returns (t: State)
    requires e in s.transfers.evts && ToParticipantCmd(e).Some?
    requires Version(s, Key(ToParticipantCmd(e).value), root)
    requires Version(s, Counterparty(ToParticipantCmd(e).value), other)
    ensures ParticipantHandled(x, byReference, s, ToParticipantCmd(e).value, Some(other), t)
  {
    hide Leads, HandleParticipant, ToParticipantCmd, Decide;
    var i :| 0 <= i < |s.transfers.evts| && s.transfers.evts[i] == e;
    var route := RouteTransferEvt(i, Some(root));
    var s1 := Exec(x, byReference, s, route);
    OneStep(x, byReference, s, route);
    t := ParticipantCmdHandled(x, byReference, s1, ToParticipantCmd(e).value, Some(other));
    Joined(x, byReference, s, s1, t);
  }

  lemma CreationHandled(x: Crypto, byReference: bool, s: State, p: Participant) returns (t: State)
    ensures ParticipantHandled(x, byReference, s, CreateParticipant(p), None, t)
  {
    hide Leads, HandleParticipant, Decide;
    var inject := InjectParticipantCmd(CreateParticipant(p));
    var s1 := Exec(x, byReference, s, inject);
    OneStep(x, byReference, s, inject);
    t := ParticipantCmdHandled(x, byReference, s1, CreateParticipant(p), None);
    Joined(x, byReference, s, s1, t);
  }

  // ---------- from the prepare request to COMMITTED ----------

  /** The payer can reserve the amount and the payee has an account for it. */
  ghost predicate CanTakePart(s: ParticipantService, t: Terms) {
    && t.payer in s.store && Reservable(s.store[t.payer], t.currency, t.amount)
    && t.payee in s.store && HasPosition(s.store[t.payee], t.currency)
  }

  lemma ReserveAccepted(s: ParticipantService, t: Terms) returns (evt: Evt)
    requires CanTakePart(s, t)
    ensures HasPosition(s.store[t.payer], t.currency)
    ensures var payee := s.store[t.payee];
      && Decide(Get(s.store, t.payer), Some(payee), ReservePayerFunds(t)).Accepted?
      && evt in HandleParticipant(s, ReservePayerFunds(t), Some(payee)).evts
      && evt.PayerFundsReserved? && evt.transferId == t.id
    ensures var u := HandleParticipant(s, ReservePayerFunds(t), Some(s.store[t.payee]));
      t.payee in u.store && HasPosition(u.store[t.payee], t.currency)
  {
    var payer, payee := s.store[t.payer], s.store[t.payee];
    ReserveExactly(payer, t.currency, t.amount);
    var o := DecideReserve(Some(payer), Some(payee), t);
    assert o.Accepted?;
    evt := o.evts[0];
    WithPositionFrame(payer, t.currency, CurrentPosition(o.root, t.currency));
  }

  /** The four handlers in turn, each on the state that the one before it left. */
  lemma StoredInTurn(x: Crypto, byReference: bool, s: TransferService, r: PrepareRequest, f: FulfilRequest,
                     payer: seq<Endpoint>, payee: seq<Endpoint>)
    requires f.id == r.terms.id && Fulfils(x, f.fulfilment, r.condition)
    ensures r.terms.id !in s.duplicates ==>
              var t := HandleTransfer(x, byReference, s, PrepareTransfer(r));
              t.store == s.store[f.id := Prepared(r)] && TransferPrepareAccepted(r.terms) in t.evts
    ensures Get(s.store, f.id) == Some(Prepared(r)) ==>
              HandleTransfer(x, byReference, s, AckPayerFundsReserved(f.id, payer, payee)).store
              == s.store[f.id := Prepared(r).(state := RESERVED)]
    ensures Get(s.store, f.id) == Some(Prepared(r).(state := RESERVED)) ==>
              var t := HandleTransfer(x, byReference, s, FulfilTransfer(f));
              t.store == s.store[f.id := Fulfilled(Prepared(r), f)] && TransferFulfilAccepted(r.terms) in t.evts
    ensures Get(s.store, f.id) == Some(Fulfilled(Prepared(r), f)) ==>
              HandleTransfer(x, byReference, s, AckPayeeFundsCommitted(f.id, payer, payee)).store
              == s.store[f.id := Fulfilled(Prepared(r), f).(state := COMMITTED)]
  {
  }

  /** Prepared, reserved at the payer, acknowledged. */
  lemma ReserveReached(x: Crypto, byReference: bool, s: State, r: PrepareRequest, f: FulfilRequest)
    returns (u: State)
    requires f.id == r.terms.id && Fulfils(x, f.fulfilment, r.condition)
    requires r.terms.id !in s.transfers.duplicates && CanTakePart(s.participants, r.terms)
    requires forall id :: id in s.participants.store ==> Version(s, id, s.participants.store[id])
    ensures Leads(x, byReference, s, u)
    ensures u.transfers.store == s.transfers.store[r.terms.id := Prepared(r).(state := RESERVED)]
    ensures u.participants == HandleParticipant(s.participants, ReservePayerFunds(r.terms),
                                                Some(s.participants.store[r.terms.payee]))
    ensures u.reserved == s.reserved + [r.terms] && u.committed == s.committed
  {
    hide Leads, HandleParticipant, Decide, HandleTransfer, Fulfils, Version, Reservable;
    var t := r.terms;
    var payer, payee := s.participants.store[t.payer], s.participants.store[t.payee];
    var s1 := IngressHandled(x, byReference, s, TransferPrepareRequested(r));
    StoredInTurn(x, byReference, s.transfers, r, f, [], []);
    VersionsLead(x, byReference, s, s1);
    var s2 := TransferEvtHandled(x, byReference, s1, TransferPrepareAccepted(t), payer, payee);
    var evt := ReserveAccepted(s.participants, t);
    StoredInTurn(x, byReference, s2.transfers, r, f, evt.payerEndpoints, evt.payeeEndpoints);
    u := ParticipantEvtHandled(x, byReference, s2, evt);
    Joined(x, byReference, s, s1, s2);
    Joined(x, byReference, s, s2, u);
  }

  lemma VersionsLead(x: Crypto, byReference: bool, s: State, t: State)
    requires Leads(x, byReference, s, t)
    ensures forall id, p :: Version(s, id, p) ==> Version(t, id, p)
  {
  }

  lemma CommitIsAccepted(s: ParticipantService, t: Terms, payer: Participant) returns (evt: Evt)
    requires t.payee in s.store && HasPosition(s.store[t.payee], t.currency) && HasPosition(payer, t.currency)
    ensures Decide(Get(s.store, t.payee), Some(payer), CommitPayeeFunds(t)).Accepted?
    ensures evt in HandleParticipant(s, CommitPayeeFunds(t), Some(payer)).evts
    ensures evt.PayeeFundsCommitted? && evt.transferId == t.id
  {
    var o := DecideCommit(Some(s.store[t.payee]), Some(payer), t);
    assert o.Accepted?;
    evt := o.evts[0];
  }

  /** Fulfilled, committed at the payee, acknowledged. */
  lemma CommitReached(x: Crypto, byReference: bool, s: State, r: PrepareRequest, f: FulfilRequest,
                      payer: Participant, payee: Participant)
    returns (u: State)
    requires Get(s.transfers.store, r.terms.id) == Some(Prepared(r).(state := RESERVED))
    requires f.id == r.terms.id && Fulfils(x, f.fulfilment, r.condition)
    requires Version(s, r.terms.payer, payer) && HasPosition(payer, r.terms.currency)
    requires Version(s, r.terms.payee, payee)
    requires r.terms.payee in s.participants.store
    requires HasPosition(s.participants.store[r.terms.payee], r.terms.currency)
    ensures Leads(x, byReference, s, u)
    ensures u.transfers.store == s.transfers.store[r.terms.id := Fulfilled(Prepared(r), f).(state := COMMITTED)]
    ensures u.participants == HandleParticipant(s.participants, CommitPayeeFunds(r.terms), Some(payer))
    ensures u.reserved == s.reserved && u.committed == s.committed + [r.terms]
  {
    hide Leads, HandleParticipant, Decide, HandleTransfer, Fulfils, Version;
    var t := r.terms;
    StoredInTurn(x, byReference, s.transfers, r, f, [], []);
    var s1 := IngressHandled(x, byReference, s, TransferFulfilRequested(f));
    VersionsLead(x, byReference, s, s1);
    var s2 := TransferEvtHandled(x, byReference, s1, TransferFulfilAccepted(t), payee, payer);
    var evt := CommitIsAccepted(s.participants, t, payer);
    StoredInTurn(x, byReference, s2.transfers, r, f, evt.payerEndpoints, evt.payeeEndpoints);
    u := ParticipantEvtHandled(x, byReference, s2, evt);
    Joined(x, byReference, s, s1, s2);
    Joined(x, byReference, s, s2, u);
  }

  /** What the run comes to when the transfer goes through: it is COMMITTED with its fulfilment, other transfers are as
    * they were, one reserve and one commit were executed, and the participants changed by these alone. */
  ghost predicate WentThrough(s: State, r: PrepareRequest, f: FulfilRequest, u: State) {
    var t := r.terms;
    && t.payer in s.participants.store && t.payee in s.participants.store
    && u.transfers.store == s.transfers.store[t.id := Fulfilled(Prepared(r), f).(state := COMMITTED)]
    && u.reserved == s.reserved + [t] && u.committed == s.committed + [t]
    && u.participants ==
       HandleParticipant(
         HandleParticipant(s.participants, ReservePayerFunds(t), Some(s.participants.store[t.payee])),
         CommitPayeeFunds(t), Some(s.participants.store[t.payer]))
  }

  lemma CurrentIsVersion(x: Crypto, byReference: bool, actions: seq<Action>)
    ensures var s := Run(x, byReference, actions);
      forall id :: id in s.participants.store ==> Version(s, id, s.participants.store[id])
  {
    hide Run;
    var s := Run(x, byReference, actions);
    AlwaysAnchored(x, byReference, actions);
    assert forall id :: id in s.participants.store ==> ParticipantOk(s, id);
  }

  /** From every state of every run: a transfer with a new id between participants that can take part, with a
    * fulfilment for its condition, can go through. */
  lemma {:induction false} TransferCanGoThrough(x: Crypto, byReference: bool, actions: seq<Action>, r: PrepareRequest,
                                                f: FulfilRequest)
    returns (more: seq<Action>)
    requires var s := Run(x, byReference, actions);
      r.terms.id !in s.transfers.duplicates && CanTakePart(s.participants, r.terms)
    requires f.id == r.terms.id && Fulfils(x, f.fulfilment, r.condition)
    ensures WentThrough(Run(x, byReference, actions), r, f, Run(x, byReference, actions + more))
  {
    hide Run, HandleParticipant, Leads, After, Fulfils, Version, Decide;
    var s, t := Run(x, byReference, actions), r.terms;
    CurrentIsVersion(x, byReference, actions);
    var payer, payee := s.participants.store[t.payer], s.participants.store[t.payee];
    var evt := ReserveAccepted(s.participants, t);
    var s1 := ReserveReached(x, byReference, s, r, f);
    VersionsLead(x, byReference, s, s1);
    var u := CommitReached(x, byReference, s1, r, f, payer, payee);
    Joined(x, byReference, s, s1, u);
    more := Schedule(x, byReference, s, u);
    RunAppend(x, byReference, actions, more);
  }

  lemma Schedule(x: Crypto, byReference: bool, s: State, t: State) returns (actions: seq<Action>)
    requires Leads(x, byReference, s, t)
    ensures After(x, byReference, s, actions) == t
  {
    hide After;
    actions :| After(x, byReference, s, actions) == t;
  }
}
