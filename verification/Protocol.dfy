/** The two services joined by their event handlers, as a machine that an adversary drives.
  *
  * A topic holds every message ever published to it, in order.  An action delivers any message of a topic, at any
  * time and as often as it likes: this covers loss, delay, reordering and redelivery.  The adversary also injects
  * any ingress request and any CreateParticipant or snapshot command, lets stored transfers expire, and chooses
  * which stored version of a participant a cached copy shows, or that the cache has lost it. */
module Protocol {
  import opened Common
  import opened Participants
  import opened Transfers

  datatype Ingress =
    | TransferPrepareRequested(request: PrepareRequest)
    | TransferFulfilRequested(fulfil: FulfilRequest)

  datatype State = State(
    ingress: seq<Ingress>,
    transferCmds: seq<TransferCmd>,
    participantCmds: seq<Cmd>,
    transfers: TransferService,
    participants: ParticipantService,
    // History: what the run did, never read by the handlers.
    accepted: map<string, PrepareRequest>,      // the accepted prepare of each transfer
    roster: seq<string>,                        // participants in order of creation
    birth: map<string, Participant>,            // participants as created
    versions: map<string, set<Participant>>,    // every state a participant was stored in
    reserved: seq<Terms>,                       // successful reserves
    committed: seq<Terms>,                      // successful commits
    routed: set<nat>)                           // transfer events the participants side has handled

  const START := State([], [], [], NO_TRANSFERS, NO_PARTICIPANTS, map[], [], map[], map[], [], [], {})

  datatype Action =
    | InjectIngress(request: Ingress)
    | InjectParticipantCmd(cmd: Cmd)
    | RouteIngress(i: nat)
    | RouteParticipantEvt(i: nat)
    | RouteTransferEvt(i: nat, copy: Option<Participant>)
    | HandleTransferCmd(i: nat)
    | HandleParticipantCmd(i: nat, copy: Option<Participant>)
    | Expire(id: string)

  // ---------- event handlers ----------

  /** The transfers side's event handler on ingress requests. */
  function FromIngress(r: Ingress): TransferCmd {
    match r
    case TransferPrepareRequested(request) => PrepareTransfer(request)
    case TransferFulfilRequested(fulfil) => FulfilTransfer(fulfil)
  }

  /** The transfers side's event handler on participant events. */
  function ToTransferCmd(e: Evt): Option<TransferCmd> {
    match e
    case PayerFundsReserved(id, _, _, _, payer, payee) => Some(AckPayerFundsReserved(id, payer, payee))
    case PayeeFundsCommitted(id, _, _, _, _, payer, payee) => Some(AckPayeeFundsCommitted(id, payer, payee))
    case _ => None
  }

  /** The participants side's event handler: the command that a transfer event turns into. */
  function ToParticipantCmd(e: TransferEvt): Option<Cmd> {
    match e
    case TransferPrepareAccepted(t) => Some(ReservePayerFunds(t))
    case TransferFulfilAccepted(t) => Some(CommitPayeeFunds(t))
    case _ => None
  }

  /** A copy of the participant as it is or once was. */
  predicate Version(s: State, id: string, p: Participant) {
    id in s.versions && p in s.versions[id]
  }

  /** What a cache shows of a participant: some version of it, or nothing - whether or not there is one. */
  predicate Shown(s: State, id: string, copy: Option<Participant>) {
    copy.Some? ==> Version(s, id, copy.value)
  }

  predicate Enabled(s: State, a: Action) {
    match a
    case InjectIngress(_) => true
    case InjectParticipantCmd(cmd) => cmd.CreateParticipant? || cmd.SnapshotParticipant?
    case RouteIngress(i) => i < |s.ingress|
    case RouteParticipantEvt(i) => i < |s.participants.evts|
    case RouteTransferEvt(i, copy) =>
      && i < |s.transfers.evts|
      && var cmd := ToParticipantCmd(s.transfers.evts[i]);
      (cmd.Some? ==> Shown(s, Key(cmd.value), copy))
    case HandleTransferCmd(i) => i < |s.transferCmds|
    case HandleParticipantCmd(i, copy) =>
      && i < |s.participantCmds|
      && Shown(s, Counterparty(s.participantCmds[i]), copy)
    case Expire(_) => true
  }

  // ---------- steps ----------

  function Opt<T>(x: Option<T>): seq<T> {
    if x.Some? then [x.value] else []
  }

  /** The handler drops the event when it knows no participant to address. */
  function RouteTransfer(s: State, i: nat, copy: Option<Participant>): State
    requires i < |s.transfers.evts|
  {
    var cmd := if copy.Some? then ToParticipantCmd(s.transfers.evts[i]) else None;
    s.(participantCmds := s.participantCmds + Opt(cmd),
       routed := s.routed + {i})
  }

  function ExecTransfer(byReference: bool, s: State, cmd: TransferCmd, o: TransferOutcome): State {
    s.(transfers := SettleTransfer(byReference, s.transfers, cmd, o),
       accepted := if IsNew(s.transfers, cmd) then s.accepted[TransferKey(cmd) := cmd.request] else s.accepted)
  }

  function Decision(s: State, i: nat, copy: Option<Participant>): Outcome
    requires i < |s.participantCmds|
  {
    var cmd := s.participantCmds[i];
    Decide(Get(s.participants.store, Key(cmd)), copy, cmd)
  }

  function ExecParticipant(s: State, i: nat, o: Outcome): State
    requires i < |s.participantCmds|
  {
    var cmd := s.participantCmds[i];
    var t := s.(participants := Settle(s.participants, o));
    if !o.Accepted? then t
    else
      var root := o.root;
      var seen := if root.id in s.versions then s.versions[root.id] else {};
      t.(versions := s.versions[root.id := seen + {root}],
         roster := if cmd.CreateParticipant? then s.roster + [root.id] else s.roster,
         birth := if cmd.CreateParticipant? then s.birth[root.id := root] else s.birth,
         reserved := if cmd.ReservePayerFunds? then s.reserved + [cmd.terms] else s.reserved,
         committed := if cmd.CommitPayeeFunds? then s.committed + [cmd.terms] else s.committed)
  }

  /** An action that is not enabled changes nothing. */
  function Exec(x: Crypto, byReference: bool, s: State, a: Action): State {
    if !Enabled(s, a) then s
    else
      match a
      case InjectIngress(r) => s.(ingress := s.ingress + [r])
      case InjectParticipantCmd(cmd) => s.(participantCmds := s.participantCmds + [cmd])
      case RouteIngress(i) => s.(transferCmds := s.transferCmds + [FromIngress(s.ingress[i])])
      case RouteParticipantEvt(i) =>
        s.(transferCmds := s.transferCmds + Opt(ToTransferCmd(s.participants.evts[i])))
      case RouteTransferEvt(i, copy) => RouteTransfer(s, i, copy)
      case HandleTransferCmd(i) =>
        ExecTransfer(byReference, s, s.transferCmds[i], DecideOn(x, s.transfers, s.transferCmds[i]))
      case HandleParticipantCmd(i, copy) => ExecParticipant(s, i, Decision(s, i, copy))
      case Expire(id) => s.(transfers := s.transfers.(store := s.transfers.store - {id}))
  }

  function Run(x: Crypto, byReference: bool, actions: seq<Action>): State {
    if actions == [] then START
    else Exec(x, byReference, Run(x, byReference, actions[..|actions| - 1]), actions[|actions| - 1])
  }
}
