/** The two event handlers that link the services, as the code runs them. */
module EventHandlers {
  import opened Common
  import opened Participants
  import opened Transfers
  import opened Protocol
  import opened ParticipantEntities
  import opened ParticipantRepos

  /** A message of one of the two topics that the transfers side listens to. */
  datatype Heard = FromGateway(request: Ingress) | FromParticipants(evt: Evt)

  /** What a message is to be published as: requests as they are, and an acknowledgement of what participants did with
    * the transfer id and the endpoints of payer and payee that came with the event. */
  ghost predicate Passed(message: Heard, cmds: seq<TransferCmd>) {
    match message
    case FromGateway(TransferPrepareRequested(request)) => cmds == [PrepareTransfer(request)]
    case FromGateway(TransferFulfilRequested(fulfil)) => cmds == [FulfilTransfer(fulfil)]
    case FromParticipants(evt) =>
      if evt.PayerFundsReserved? then
        && |cmds| == 1 && cmds[0].AckPayerFundsReserved? && cmds[0].id == evt.transferId
        && cmds[0].payerEndpoints == evt.payerEndpoints && cmds[0].payeeEndpoints == evt.payeeEndpoints
      else if evt.PayeeFundsCommitted? then
        && |cmds| == 1 && cmds[0].AckPayeeFundsCommitted? && cmds[0].id == evt.transferId
        && cmds[0].payerEndpoints == evt.payerEndpoints && cmds[0].payeeEndpoints == evt.payeeEndpoints
      else cmds == []
  }

  class TransferEvtHandler {
    var published: seq<TransferCmd>

    constructor ()
      ensures published == []
    {
      published := [];
    }

    method Handle(message: Heard)
      modifies this
      ensures published == old(published) + match message
        case FromGateway(request) => [FromIngress(request)]
        case FromParticipants(evt) => Opt(ToTransferCmd(evt))
      ensures Passed(message, published[|old(published)|..])
    {
      var transferCmd: Option<TransferCmd> := None;
      match message {
        case FromParticipants(PayerFundsReserved(id, _, _, _, payer, payee)) =>
          transferCmd := Some(AckPayerFundsReserved(id, payer, payee));
        case FromParticipants(PayeeFundsCommitted(id, _, _, _, _, payer, payee)) =>
          transferCmd := Some(AckPayeeFundsCommitted(id, payer, payee));
        case FromGateway(TransferPrepareRequested(request)) => transferCmd := Some(PrepareTransfer(request));
        case FromGateway(TransferFulfilRequested(fulfil)) => transferCmd := Some(FulfilTransfer(fulfil));
        case _ =>
      }
      if transferCmd.Some? {
        published := published + [transferCmd.value];
      }
    }
  }

  /** A command with the partition that it is published to. */
  datatype Routed = Routed(cmd: Cmd, msgPartition: Option<int>)

  /** An accepted prepare asks the payer to reserve, an accepted fulfil the payee to commit, on the terms of the event
    * and in the partition of that participant, if it is known. */
  ghost predicate Addressed(evt: TransferEvt, known: map<string, Participant>, out: seq<Routed>) {
    match evt
    case TransferPrepareAccepted(t) =>
      out == if t.payer in known then [Routed(ReservePayerFunds(t), known[t.payer].partition)] else []
    case TransferFulfilAccepted(t) =>
      out == if t.payee in known then [Routed(CommitPayeeFunds(t), known[t.payee].partition)] else []
    case _ => out == []
  }

  class ParticipantEvtHandler {
    const repo: ParticipantStateRepo
    var published: seq<Routed>

    constructor (repo: ParticipantStateRepo)
      ensures this.repo == repo && published == []
    {
      this.repo, published := repo, [];
    }

    /** Publishes the command to the partition of the participant it addresses; an event whose participant is not
      * known is dropped. */
    method Handle(evt: TransferEvt)
      requires repo.Valid()
      modifies this
      ensures var cmd := ToParticipantCmd(evt);
        published == old(published) +
                     if cmd.Some? && Key(cmd.value) in repo.contents
                     then [Routed(cmd.value, repo.contents[Key(cmd.value)].partition)] else []
      ensures Addressed(evt, repo.contents, published[|old(published)|..])
    {
      var participantCmd: Option<Cmd> := None;
      var partition: Option<int> := None;
      match evt {
        case TransferPrepareAccepted(t) =>
          var participant := repo.Load(t.payer);
          if participant == null { return; }
          participantCmd, partition := Some(ReservePayerFunds(t)), participant.partition;
        case TransferFulfilAccepted(t) =>
          var participant := repo.Load(t.payee);
          if participant == null { return; }
          participantCmd, partition := Some(CommitPayeeFunds(t)), participant.partition;
        case _ => return;
      }
      published := published + [Routed(participantCmd.value, partition)];
    }
  }
}
