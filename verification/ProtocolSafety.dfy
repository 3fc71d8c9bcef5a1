/** What no run of the protocol breaks: every message and every stored state is backed by what was executed. */
module ProtocolSafety {
  import opened Common
  import opened Decimals
  import opened Participants
  import opened Transfers
  import opened Protocol

  // ---------- the invariant, one message or stored value at a time ----------

  /** The terms are those of the accepted prepare of that id. */
  ghost predicate Known(s: State, t: Terms) {
    t.id in s.accepted && s.accepted[t.id].terms == t
  }

  ghost predicate ReserveDone(s: State, id: string) {
    id in s.accepted && s.accepted[id].terms in s.reserved
  }

  ghost predicate CommitDone(s: State, id: string) {
    ReserveDone(s, id) && s.accepted[id].terms in s.committed
  }

  ghost predicate TransferEvtOk(s: State, e: TransferEvt) {
    match e
    case TransferPrepareAccepted(t) => Known(s, t)
    case TransferPrepared(t, _, _, _) => Known(s, t) && ReserveDone(s, t.id)
    case TransferFulfilAccepted(t) => Known(s, t) && ReserveDone(s, t.id)
    case TransferFulfilled(t, _, _, _) => Known(s, t) && CommitDone(s, t.id)
    case _ => true
  }

  ghost predicate TransferCmdOk(s: State, c: TransferCmd) {
    match c
    case AckPayerFundsReserved(id, _, _) => ReserveDone(s, id)
    case AckPayeeFundsCommitted(id, _, _) => CommitDone(s, id)
    case _ => true
  }

  ghost predicate ParticipantCmdOk(s: State, c: Cmd) {
    match c
    case ReservePayerFunds(t) => Known(s, t) && TransferPrepareAccepted(t) in s.transfers.evts
    case CommitPayeeFunds(t) => Known(s, t) && t in s.reserved && TransferFulfilAccepted(t) in s.transfers.evts
    case _ => true
  }

  ghost predicate ParticipantEvtOk(s: State, e: Evt) {
    match e
    case PayerFundsReserved(id, _, _, _, _, _) => ReserveDone(s, id)
    case PayeeFundsCommitted(id, _, _, _, _, _, _) => CommitDone(s, id)
    case _ => true
  }

  ghost predicate ReservedOk(s: State, t: Terms) {
    Known(s, t) && Positive(t.amount) && ReservePayerFunds(t) in s.participantCmds
  }

  ghost predicate CommittedOk(s: State, t: Terms) {
    Known(s, t) && t in s.reserved && CommitPayeeFunds(t) in s.participantCmds
  }

  /** A stored transfer is its accepted prepare plus what its state says was done since. */
  ghost predicate TransferOk(x: Crypto, s: State, id: string, u: Transfer) {
    && id in s.accepted
    && Prepared(s.accepted[id]) == u.(state := RECEIVED_PREPARE, fulfilment := None, completedTimestamp := None,
                                      fulfil := None)
    && u.state in {RECEIVED_PREPARE, RESERVED, RECEIVED_ERROR, RECEIVED_FULFIL, COMMITTED}
    && (u.state in {RECEIVED_PREPARE, RESERVED} ==>
          u.fulfilment == None && u.completedTimestamp == None && u.fulfil == None)
    && (u.state != RECEIVED_PREPARE ==> ReserveDone(s, id))
    && (u.state in {RECEIVED_FULFIL, COMMITTED} ==>
          u.fulfilment.Some? && Fulfils(x, u.fulfilment.value, u.condition))
    && (u.state == COMMITTED ==> CommitDone(s, id))
  }

  ghost predicate Backed(x: Crypto, s: State) {
    && s.accepted.Keys == s.transfers.duplicates
    && (forall id :: id in s.accepted ==> s.accepted[id].terms.id == id)
    && (forall e :: e in s.transfers.evts ==> TransferEvtOk(s, e))
    && (forall c :: c in s.transferCmds ==> TransferCmdOk(s, c))
    && (forall c :: c in s.participantCmds ==> ParticipantCmdOk(s, c))
    && (forall e :: e in s.participants.evts ==> ParticipantEvtOk(s, e))
    && (forall t :: t in s.reserved ==> ReservedOk(s, t))
    && (forall t :: t in s.committed ==> CommittedOk(s, t))
    && (forall id :: id in s.transfers.store ==> TransferOk(x, s, id, s.transfers.store[id]))
  }

  // ---------- preservation ----------

  /** Nothing that backs a message is ever taken back. */
  ghost predicate Grows(s: State, t: State) {
    && (forall id :: id in s.accepted ==> id in t.accepted && t.accepted[id] == s.accepted[id])
    && (forall r :: r in s.reserved ==> r in t.reserved)
    && (forall r :: r in s.committed ==> r in t.committed)
    && (forall e :: e in s.transfers.evts ==> e in t.transfers.evts)
    && (forall c :: c in s.participantCmds ==> c in t.participantCmds)
  }

  /** A later state is backed if it only grew and each new message and value is backed. */
  lemma BackedLater(x: Crypto, s: State, t: State)
    requires Backed(x, s) && Grows(s, t)
    requires t.accepted.Keys == t.transfers.duplicates
    requires forall id :: id in t.accepted ==> t.accepted[id].terms.id == id
    requires forall e :: e in t.transfers.evts ==> e in s.transfers.evts || TransferEvtOk(t, e)
    requires forall c :: c in t.transferCmds ==> c in s.transferCmds || TransferCmdOk(t, c)
    requires forall c :: c in t.participantCmds ==> c in s.participantCmds || ParticipantCmdOk(t, c)
    requires forall e :: e in t.participants.evts ==> e in s.participants.evts || ParticipantEvtOk(t, e)
    requires forall r :: r in t.reserved ==> r in s.reserved || ReservedOk(t, r)
    requires forall r :: r in t.committed ==> r in s.committed || CommittedOk(t, r)
    requires forall id :: id in t.transfers.store ==>
               (id in s.transfers.store && t.transfers.store[id] == s.transfers.store[id])
               || TransferOk(x, t, id, t.transfers.store[id])
    ensures Backed(x, t)
  {
    forall e | e in t.transfers.evts ensures TransferEvtOk(t, e) {
      assert e in s.transfers.evts ==> TransferEvtOk(s, e);
    }
    forall c | c in t.transferCmds ensures TransferCmdOk(t, c) {
      assert c in s.transferCmds ==> TransferCmdOk(s, c);
    }
    forall c | c in t.participantCmds ensures ParticipantCmdOk(t, c) {
      assert c in s.participantCmds ==> ParticipantCmdOk(s, c);
    }
    forall e | e in t.participants.evts ensures ParticipantEvtOk(t, e) {
      assert e in s.participants.evts ==> ParticipantEvtOk(s, e);
    }
    forall r | r in t.reserved ensures ReservedOk(t, r) {
      assert r in s.reserved ==> ReservedOk(s, r);
    }
    forall r | r in t.committed ensures CommittedOk(t, r) {
      assert r in s.committed ==> CommittedOk(s, r);
    }
    forall id | id in t.transfers.store ensures TransferOk(x, t, id, t.transfers.store[id]) {
      assert id in s.transfers.store ==> TransferOk(x, s, id, s.transfers.store[id]);
    }
  }

  lemma {:induction false} BackedByRouting(x: Crypto, byReference: bool, s: State, a: Action)
    requires Backed(x, s) && !a.HandleTransferCmd? && !a.HandleParticipantCmd?
    ensures Backed(x, Exec(x, byReference, s, a))
  {
    hide Decide, Settle, DecideOn, SettleTransfer;
    var t := Exec(x, byReference, s, a);
    if Enabled(s, a) {
      if a.RouteParticipantEvt? {
        assert ParticipantEvtOk(s, s.participants.evts[a.i]);
      } else if a.RouteTransferEvt? {
        assert TransferEvtOk(s, s.transfers.evts[a.i]);
      }
      BackedLater(x, s, t);
    }
  }

  ghost predicate TransferOutcomeOk(x: Crypto, t: State, id: string, o: TransferOutcome) {
    && TransferEvtOk(t, o.evt)
    && (o.TransferAccepted? ==> o.root.terms.id == id && TransferOk(x, t, id, o.root))
    && (o.TransferRefused? && o.touched.Some? ==> TransferOk(x, t, id, o.touched.value))
  }

  /** What the transfers aggregate decides on a backed transfer for a backed command is backed. */
  lemma TransferDecisionBacked(x: Crypto, t: State, root: Option<Transfer>, isNew: bool, cmd: TransferCmd)
    requires TransferCmdOk(t, cmd)
    requires root.Some? ==> TransferOk(x, t, TransferKey(cmd), root.value) && Known(t, root.value.terms)
                            && root.value.terms.id == TransferKey(cmd)
    requires isNew && cmd.PrepareTransfer? ==>
               Known(t, cmd.request.terms) && t.accepted[TransferKey(cmd)] == cmd.request
    ensures TransferOutcomeOk(x, t, TransferKey(cmd), DecideTransfer(x, root, isNew, cmd))
  {
  }

  lemma {:induction false} BackedByTransferCmd(x: Crypto, byReference: bool, s: State, cmd: TransferCmd,
                                               o: TransferOutcome)
    requires Backed(x, s) && TransferOutcomeOk(x, ExecTransfer(byReference, s, cmd, o), TransferKey(cmd), o)
    ensures Backed(x, ExecTransfer(byReference, s, cmd, o))
  {
    BackedLater(x, s, ExecTransfer(byReference, s, cmd, o));
  }

  lemma {:induction false} TransferCmdDecided(x: Crypto, byReference: bool, s: State, cmd: TransferCmd,
                                              o: TransferOutcome)
    requires Backed(x, s) && cmd in s.transferCmds && o == DecideOn(x, s.transfers, cmd)
    ensures TransferOutcomeOk(x, ExecTransfer(byReference, s, cmd, o), TransferKey(cmd), o)
  {
    var t := ExecTransfer(byReference, s, cmd, o);
    var id := TransferKey(cmd);
    assert TransferCmdOk(s, cmd);
    if id in s.transfers.store {
      assert TransferOk(x, s, id, s.transfers.store[id]);
    }
    TransferDecisionBacked(x, t, Get(s.transfers.store, id), IsNew(s.transfers, cmd), cmd);
  }

  /** What the participants aggregate decides is backed, once the history has recorded it. */
  ghost predicate OutcomeOk(t: State, cmd: Cmd, o: Outcome) {
    match o
    case Accepted(_, evts, _) =>
      && (forall e :: e in evts ==> ParticipantEvtOk(t, e))
      && (cmd.ReservePayerFunds? ==> ReservedOk(t, cmd.terms))
      && (cmd.CommitPayeeFunds? ==> CommittedOk(t, cmd.terms))
    case Refused(evt) => ParticipantEvtOk(t, evt)
    case Thrown => true
  }

  lemma ReserveDecisionBacked(s: State, cmd: Cmd, copy: Option<Participant>)
    requires cmd.ReservePayerFunds? && ParticipantCmdOk(s, cmd) && cmd in s.participantCmds
    ensures match Decide(Get(s.participants.store, Key(cmd)), copy, cmd)
            case Accepted(_, evts, stateEvt) =>
              ReservedOk(s, cmd.terms) && |evts| == 1 && evts[0].PayerFundsReserved?
              && evts[0].transferId == cmd.terms.id
            case Refused(evt) => !evt.PayerFundsReserved? && !evt.PayeeFundsCommitted?
            case Thrown => false
  {
  }

  lemma ParticipantDecisionBacked(x: Crypto, s: State, t: State, i: nat, copy: Option<Participant>)
    requires Backed(x, s) && i < |s.participantCmds|
    requires t == ExecParticipant(s, i, Decision(s, i, copy))
    ensures OutcomeOk(t, s.participantCmds[i], Decision(s, i, copy))
  {
    var cmd := s.participantCmds[i];
    assert ParticipantCmdOk(s, cmd);
    if cmd.ReservePayerFunds? {
      ReserveDecisionBacked(s, cmd, copy);
    }
  }

  lemma {:induction false} BackedByParticipantCmd(x: Crypto, s: State, i: nat, o: Outcome)
    requires Backed(x, s) && i < |s.participantCmds|
    requires OutcomeOk(ExecParticipant(s, i, o), s.participantCmds[i], o)
    ensures Backed(x, ExecParticipant(s, i, o))
  {
    BackedLater(x, s, ExecParticipant(s, i, o));
  }

  lemma {:induction false} BackedStep(x: Crypto, byReference: bool, s: State, a: Action)
    requires Backed(x, s)
    ensures Backed(x, Exec(x, byReference, s, a))
  {
    if Enabled(s, a) && a.HandleTransferCmd? {
      var cmd := s.transferCmds[a.i];
      TransferCmdDecided(x, byReference, s, cmd, DecideOn(x, s.transfers, cmd));
      BackedByTransferCmd(x, byReference, s, cmd, DecideOn(x, s.transfers, cmd));
    } else if Enabled(s, a) && a.HandleParticipantCmd? {
      ParticipantDecisionBacked(x, s, Exec(x, byReference, s, a), a.i, a.copy);
      BackedByParticipantCmd(x, s, a.i, Decision(s, a.i, a.copy));
    } else if Enabled(s, a) {
      BackedByRouting(x, byReference, s, a);
    }
  }

  lemma {:induction false} AlwaysBacked(x: Crypto, byReference: bool, actions: seq<Action>)
    ensures Backed(x, Run(x, byReference, actions))
  {
    if actions == [] {
    } else {
      var init := actions[..|actions| - 1];
      AlwaysBacked(x, byReference, init);
      BackedStep(x, byReference, Run(x, byReference, init), actions[|actions| - 1]);
    }
  }

  // ---------- what follows for every run ----------

  /** A commit that was ever asked for or carried out had its reserve carried out before, with the same id, payer,
    * payee, currency and amount, whatever parties the fulfil request named. */
  lemma {:induction false} CommitsMatchReserves(x: Crypto, byReference: bool, actions: seq<Action>, t: Terms)
    ensures var s := Run(x, byReference, actions);
      CommitPayeeFunds(t) in s.participantCmds || t in s.committed ==>
        t in s.reserved && t.id in s.accepted && s.accepted[t.id].terms == t && Positive(t.amount)
  {
    var s := Run(x, byReference, actions);
    AlwaysBacked(x, byReference, actions);
    assert t in s.committed ==> CommittedOk(s, t);
    assert CommitPayeeFunds(t) in s.participantCmds ==> ParticipantCmdOk(s, CommitPayeeFunds(t));
    assert t in s.reserved ==> ReservedOk(s, t);
  }

  /** A RESERVED transfer had its reserve executed.  A COMMITTED one also had its commit executed, and holds a
    * fulfilment of 32 bytes that hashes to the condition of its prepare. */
  lemma StoredStatesAreSound(x: Crypto, byReference: bool, actions: seq<Action>, id: string)
    requires id in Run(x, byReference, actions).transfers.store
    ensures var s := Run(x, byReference, actions);
      var u := s.transfers.store[id];
      && id in s.accepted && u.terms == s.accepted[id].terms
      && (u.state == RESERVED ==> u.terms in s.reserved)
      && (u.state == COMMITTED ==>
            && u.terms in s.reserved && u.terms in s.committed
            && u.fulfilment.Some? && Fulfils(x, u.fulfilment.value, s.accepted[id].condition))
  {
    var s := Run(x, byReference, actions);
    AlwaysBacked(x, byReference, actions);
    assert TransferOk(x, s, id, s.transfers.store[id]);
  }

  /** The same for what was announced, after the stored transfer may have expired. */
  lemma AnnouncedStatesAreSound(x: Crypto, byReference: bool, actions: seq<Action>, e: TransferEvt)
    requires e in Run(x, byReference, actions).transfers.evts
    ensures var s := Run(x, byReference, actions);
      && (e.TransferPrepared? ==> e.terms in s.reserved)
      && (e.TransferFulfilled? ==> e.terms in s.reserved && e.terms in s.committed)
  {
    AlwaysBacked(x, byReference, actions);
    assert TransferEvtOk(Run(x, byReference, actions), e);
  }
}
