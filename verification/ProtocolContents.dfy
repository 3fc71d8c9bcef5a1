/** What messages and stored transfers contain in every run of the protocol: what some injected request or the created
  * participants have there. */
module ProtocolContents {
  import opened Common
  import opened Participants
  import opened Transfers
  import opened Protocol
  import opened ProtocolSafety
  import opened ProtocolFunds

  // ---------- the invariant, one message or stored value at a time ----------

  /** These are the endpoints that the parties of the transfer were created with. */
  ghost predicate EndpointsOf(s: State, id: string, payerEndpoints: seq<Endpoint>, payeeEndpoints: seq<Endpoint>) {
    && id in s.accepted
    && var t := s.accepted[id].terms;
    && t.payer in s.birth && payerEndpoints == s.birth[t.payer].endpoints
    && t.payee in s.birth && payeeEndpoints == s.birth[t.payee].endpoints
  }

  ghost predicate TransferCmdFrom(s: State, c: TransferCmd) {
    match c
    case PrepareTransfer(r) => TransferPrepareRequested(r) in s.ingress
    case FulfilTransfer(f) => TransferFulfilRequested(f) in s.ingress
    case AckPayerFundsReserved(id, payer, payee) => EndpointsOf(s, id, payer, payee)
    case AckPayeeFundsCommitted(id, payer, payee) => EndpointsOf(s, id, payer, payee)
  }

  ghost predicate ParticipantEvtFrom(s: State, e: Evt) {
    match e
    case PayerFundsReserved(id, _, _, _, payer, payee) => EndpointsOf(s, id, payer, payee)
    case PayeeFundsCommitted(id, _, _, _, _, payer, payee) => EndpointsOf(s, id, payer, payee)
    case _ => true
  }

  /** Some injected fulfil request for the transfer has this body. */
  ghost predicate FulfilFrom(s: State, id: string, fulfil: Option<Raw>) {
    fulfil.Some? && exists f :: TransferFulfilRequested(f) in s.ingress && f.id == id && f.fulfil == fulfil.value
  }

  ghost predicate TransferEvtFrom(s: State, e: TransferEvt) {
    match e
    case TransferPrepared(t, payer, payee, prepare) =>
      EndpointsOf(s, t.id, payer, payee) && prepare == s.accepted[t.id].prepare
    case TransferFulfilled(t, payer, payee, fulfil) =>
      EndpointsOf(s, t.id, payer, payee) && FulfilFrom(s, t.id, fulfil)
    case _ => true
  }

  ghost predicate IsFulfilled(u: Transfer) {
    u.state == RECEIVED_FULFIL || u.state == COMMITTED
  }

  /** Fulfilment, time and body are those of one injected fulfil request for the transfer. */
  ghost predicate FulfilledFrom(s: State, u: Transfer) {
    exists f :: TransferFulfilRequested(f) in s.ingress && f.id == u.terms.id
      && u.fulfilment == Some(f.fulfilment) && u.completedTimestamp == Some(f.completedTimestamp)
      && u.fulfil == Some(f.fulfil)
  }

  /** The rest is that of its accepted prepare. */
  ghost predicate PreparedFrom(r: PrepareRequest, u: Transfer) {
    u.terms == r.terms && u.expiration == r.expiration && u.condition == r.condition && u.prepare == r.prepare
  }

  ghost predicate TransferFrom(s: State, id: string, u: Transfer) {
    && id in s.accepted && u.terms.id == id && PreparedFrom(s.accepted[id], u)
    && (IsFulfilled(u) ==> FulfilledFrom(s, u))
  }

  ghost predicate Contents(s: State) {
    && (forall id :: id in s.accepted ==>
          s.accepted[id].terms.id == id && TransferPrepareRequested(s.accepted[id]) in s.ingress)
    && (forall c :: c in s.transferCmds ==> TransferCmdFrom(s, c))
    && (forall e :: e in s.participants.evts ==> ParticipantEvtFrom(s, e))
    && (forall e :: e in s.transfers.evts ==> TransferEvtFrom(s, e))
    && (forall id :: id in s.transfers.store ==> TransferFrom(s, id, s.transfers.store[id]))
  }

  // ---------- preservation ----------

  ghost predicate Keeps(s: State, t: State) {
    && (forall r :: r in s.ingress ==> r in t.ingress)
    && (forall id :: id in s.accepted ==> id in t.accepted && t.accepted[id] == s.accepted[id])
    && (forall id :: id in s.birth ==> id in t.birth && t.birth[id] == s.birth[id])
  }

  lemma ContentsLater(s: State, t: State)
    requires Contents(s) && Keeps(s, t)
    requires forall id :: id in t.accepted && id !in s.accepted ==>
               t.accepted[id].terms.id == id && TransferPrepareRequested(t.accepted[id]) in t.ingress
    requires forall c :: c in t.transferCmds ==> c in s.transferCmds || TransferCmdFrom(t, c)
    requires forall e :: e in t.participants.evts ==> e in s.participants.evts || ParticipantEvtFrom(t, e)
    requires forall e :: e in t.transfers.evts ==> e in s.transfers.evts || TransferEvtFrom(t, e)
    requires forall id :: id in t.transfers.store ==>
               (id in s.transfers.store && t.transfers.store[id] == s.transfers.store[id])
               || TransferFrom(t, id, t.transfers.store[id])
    ensures Contents(t)
  {
    forall c | c in t.transferCmds ensures TransferCmdFrom(t, c) {
      assert c in s.transferCmds ==> TransferCmdFrom(s, c);
    }
    forall e | e in t.participants.evts ensures ParticipantEvtFrom(t, e) {
      assert e in s.participants.evts ==> ParticipantEvtFrom(s, e);
    }
    forall e | e in t.transfers.evts ensures TransferEvtFrom(t, e) {
      assert e in s.transfers.evts ==> TransferEvtFrom(s, e);
    }
    forall id | id in t.transfers.store ensures TransferFrom(t, id, t.transfers.store[id]) {
      assert id in s.transfers.store ==> TransferFrom(s, id, s.transfers.store[id]);
    }
  }

  lemma {:induction false} ContentsByRouting(x: Crypto, byReference: bool, s: State, a: Action)
    requires Contents(s) && !a.HandleTransferCmd? && !a.HandleParticipantCmd?
    ensures Contents(Exec(x, byReference, s, a))
  {
    hide Decide, Settle, DecideOn, SettleTransfer;
    if Enabled(s, a) {
      if a.RouteParticipantEvt? {
        assert ParticipantEvtFrom(s, s.participants.evts[a.i]);
      }
      ContentsLater(s, Exec(x, byReference, s, a));
    }
  }

  ghost predicate OutcomeFrom(t: State, id: string, o: TransferOutcome) {
    && TransferEvtFrom(t, o.evt)
    && (o.TransferAccepted? ==> o.root.terms.id == id && TransferFrom(t, id, o.root))
    && (o.TransferRefused? && o.touched.Some? ==> TransferFrom(t, id, o.touched.value))
  }

  /** What the transfers aggregate makes of a command. */
  lemma DecisionFrom(x: Crypto, t: State, root: Option<Transfer>, isNew: bool, cmd: TransferCmd)
    requires TransferCmdFrom(t, cmd) && (root.Some? ==> TransferFrom(t, TransferKey(cmd), root.value))
    requires cmd.PrepareTransfer? && isNew ==>
               TransferKey(cmd) in t.accepted && t.accepted[TransferKey(cmd)] == cmd.request
    ensures OutcomeFrom(t, TransferKey(cmd), DecideTransfer(x, root, isNew, cmd))
  {
    hide DecideTransfer, EndpointsOf;
    match cmd
    case PrepareTransfer(r) => PrepareOutcome(x, root, isNew, r);
    case AckPayerFundsReserved(id, payer, payee) => AckReserveOutcome(x, root, isNew, id, payer, payee);
    case FulfilTransfer(f) => FulfilOutcome(x, root, isNew, f);
    case AckPayeeFundsCommitted(id, payer, payee) => AckCommitOutcome(x, root, isNew, id, payer, payee);
  }

  lemma {:induction false} TransferCmdOutcome(x: Crypto, byReference: bool, s: State, cmd: TransferCmd,
                                              o: TransferOutcome)
    requires s.accepted.Keys == s.transfers.duplicates && Contents(s) && cmd in s.transferCmds
    requires o == DecideOn(x, s.transfers, cmd)
    ensures OutcomeFrom(ExecTransfer(byReference, s, cmd, o), TransferKey(cmd), o)
  {
    hide DecideTransfer, SettleTransfer, OutcomeFrom;
    var t := ExecTransfer(byReference, s, cmd, o);
    var id := TransferKey(cmd);
    assert TransferCmdFrom(s, cmd);
    if id in s.transfers.store {
      assert TransferFrom(s, id, s.transfers.store[id]);
    }
    DecisionFrom(x, t, Get(s.transfers.store, id), IsNew(s.transfers, cmd), cmd);
  }

  lemma {:induction false} ContentsByTransferCmd(byReference: bool, s: State, cmd: TransferCmd, o: TransferOutcome)
    requires s.accepted.Keys == s.transfers.duplicates && Contents(s) && cmd in s.transferCmds
    requires OutcomeFrom(ExecTransfer(byReference, s, cmd, o), TransferKey(cmd), o)
    ensures Contents(ExecTransfer(byReference, s, cmd, o))
  {
    hide TransferEvtFrom, TransferFrom, ParticipantEvtFrom;
    assert TransferCmdFrom(s, cmd);
    ContentsLater(s, ExecTransfer(byReference, s, cmd, o));
  }

  /** What the participants announce carries the endpoints of both parties. */
  lemma AnnouncedEndpoints(x: Crypto, s: State, i: nat, copy: Option<Participant>)
    requires Backed(x, s) && Anchored(s) && Enabled(s, HandleParticipantCmd(i, copy))
    requires Decision(s, i, copy).Accepted?
    ensures forall e :: e in Decision(s, i, copy).evts ==> ParticipantEvtFrom(s, e)
  {
    hide DecideReserve, DecideCommit, Settle, Capped;
    var cmd := s.participantCmds[i];
    var root := Get(s.participants.store, Key(cmd));
    assert ParticipantCmdOk(s, cmd);
    if root.Some? {
      assert ParticipantOk(s, Key(cmd));
    }
    if copy.Some? {
      assert ParticipantOk(s, Counterparty(cmd));
    }
    match cmd
    case ReservePayerFunds(t) => ReserveOutcome(root, copy, t);
    case CommitPayeeFunds(t) => CommitOutcome(root, copy, t);
    case _ =>
  }

  lemma RefusalsAnnounceLittle(s: State, i: nat, copy: Option<Participant>)
    requires i < |s.participantCmds| && Decision(s, i, copy).Refused?
    ensures ParticipantEvtFrom(s, Decision(s, i, copy).evt)
  {
    hide DecideReserve, DecideCommit;
    var root := Get(s.participants.store, Key(s.participantCmds[i]));
    match s.participantCmds[i]
    case ReservePayerFunds(t) => ReserveRefusals(root, copy, t);
    case CommitPayeeFunds(t) => CommitOutcome(root, copy, t);
    case _ =>
  }

  /** Whether accepted or refused, and creations only add. */
  lemma {:induction false} ContentsByParticipantCmd(x: Crypto, s: State, i: nat, copy: Option<Participant>)
    requires Backed(x, s) && Anchored(s) && Contents(s) && Enabled(s, HandleParticipantCmd(i, copy))
    ensures Contents(ExecParticipant(s, i, Decision(s, i, copy)))
  {
    hide Decision, Backed, Anchored, SameStatics, Capped, PartyOk;
    var o := Decision(s, i, copy);
    if o.Accepted? {
      RootDecided(x, s, i, copy);
      AnnouncedEndpoints(x, s, i, copy);
    } else if o.Refused? {
      RefusalsAnnounceLittle(s, i, copy);
    }
    ContentsLater(s, ExecParticipant(s, i, o));
  }

  lemma {:induction false} ContentsStep(x: Crypto, byReference: bool, s: State, a: Action)
    requires Backed(x, s) && Anchored(s) && Contents(s)
    ensures Contents(Exec(x, byReference, s, a))
  {
    hide Anchored, Contents, OutcomeFrom, ExecTransfer, ExecParticipant, Decision, DecideOn;
    hide ParticipantCmdOk, TransferOk;
    if Enabled(s, a) && a.HandleTransferCmd? {
      var cmd := s.transferCmds[a.i];
      TransferCmdOutcome(x, byReference, s, cmd, DecideOn(x, s.transfers, cmd));
      ContentsByTransferCmd(byReference, s, cmd, DecideOn(x, s.transfers, cmd));
    } else if Enabled(s, a) && a.HandleParticipantCmd? {
      ContentsByParticipantCmd(x, s, a.i, a.copy);
    } else if Enabled(s, a) {
      ContentsByRouting(x, byReference, s, a);
    }
  }

  lemma StartContents()
    ensures Contents(START)
  {
  }

  /** In every run each command, event and stored transfer has the endpoints, bodies, times and conditions of the
    * created participants and injected requests that it stems from. */
  lemma {:induction false} AlwaysContents(x: Crypto, byReference: bool, actions: seq<Action>)
    ensures Contents(Run(x, byReference, actions))
  {
    hide Exec, Contents, Backed, Anchored;
    if actions == [] {
      StartContents();
    } else {
      var init := actions[..|actions| - 1];
      AlwaysContents(x, byReference, init);
      AlwaysBacked(x, byReference, init);
      AlwaysAnchored(x, byReference, init);
      ContentsStep(x, byReference, Run(x, byReference, init), actions[|actions| - 1]);
    }
  }

  // ---------- what follows for every run ----------

  lemma {:induction false} IngressInjected(x: Crypto, byReference: bool, actions: seq<Action>)
    ensures forall r :: r in Run(x, byReference, actions).ingress ==> InjectIngress(r) in actions
  {
    hide Decide, Settle, DecideOn, SettleTransfer;
    if actions == [] {
    } else {
      IngressInjected(x, byReference, actions[..|actions| - 1]);
    }
  }

  /** A stored transfer has the terms, expiration, condition and body of an injected prepare request; once fulfilled,
    * also the fulfilment, completion time and body of an injected fulfil request for it. */
  lemma {:induction false} StoredContents(x: Crypto, byReference: bool, actions: seq<Action>, id: string)
    requires id in Run(x, byReference, actions).transfers.store
    ensures var s := Run(x, byReference, actions);
      var u := s.transfers.store[id];
      && (exists r :: InjectIngress(TransferPrepareRequested(r)) in actions && r.terms == u.terms && r.terms.id == id
                      && u.expiration == r.expiration && u.condition == r.condition && u.prepare == r.prepare)
      && (u.state == RECEIVED_FULFIL || u.state == COMMITTED ==>
            exists f :: InjectIngress(TransferFulfilRequested(f)) in actions && f.id == id
                        && u.fulfilment == Some(f.fulfilment)
                        && u.completedTimestamp == Some(f.completedTimestamp) && u.fulfil == Some(f.fulfil))
  {
    var s := Run(x, byReference, actions);
    AlwaysContents(x, byReference, actions);
    IngressInjected(x, byReference, actions);
    assert TransferFrom(s, id, s.transfers.store[id]);
    assert InjectIngress(TransferPrepareRequested(s.accepted[id])) in actions;
  }

  /** What goes out to the payee on a prepared transfer, and to the payer on a fulfilled one, is the body that was
    * requested, and the endpoints are those that payer and payee were created with. */
  lemma {:induction false} AnnouncedContents(x: Crypto, byReference: bool, actions: seq<Action>, e: TransferEvt)
    requires e in Run(x, byReference, actions).transfers.evts && (e.TransferPrepared? || e.TransferFulfilled?)
    ensures var s := Run(x, byReference, actions);
      && e.terms.payer in s.birth && e.payerEndpoints == s.birth[e.terms.payer].endpoints
      && e.terms.payee in s.birth && e.payeeEndpoints == s.birth[e.terms.payee].endpoints
      && (e.TransferPrepared? ==>
            exists r :: InjectIngress(TransferPrepareRequested(r)) in actions
                        && r.terms == e.terms && r.prepare == e.prepare)
      && (e.TransferFulfilled? ==>
            exists f :: InjectIngress(TransferFulfilRequested(f)) in actions
                        && f.id == e.terms.id && e.fulfil == Some(f.fulfil))
  {
    hide Run;
    var s := Run(x, byReference, actions);
    AlwaysContents(x, byReference, actions);
    AlwaysBacked(x, byReference, actions);
    assert TransferEvtFrom(s, e) && TransferEvtOk(s, e);
    IngressInjected(x, byReference, actions);
    assert InjectIngress(TransferPrepareRequested(s.accepted[e.terms.id])) in actions;
  }
}
