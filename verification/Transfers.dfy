/** Transfers, the state changes of the transfer entity on values, and what the transfers aggregate decides for
  * each command. */
module Transfers {
  import opened Common
  import opened Participants

  datatype InternalState =
    | ABORTED_ERROR
    | ABORTED_REJECTED
    | COMMITTED
    | EXPIRED_PREPARED
    | EXPIRED_RESERVED
    | FAILED
    | INVALID
    | RECEIVED_ERROR
    | RECEIVED_FULFIL
    | RECEIVED_PREPARE
    | RECEIVED_REJECT
    | RESERVED
    | RESERVED_TIMEOUT

  /** The headers and body of the request that a participant sent. */
  datatype Raw = Raw(headers: string, payload: string)

  datatype PrepareRequest = PrepareRequest(terms: Terms, expiration: string, condition: string, prepare: Raw)

  datatype FulfilRequest = FulfilRequest(
    id: string, payer: string, payee: string, fulfilment: string, completedTimestamp: string,
    transferState: string, fulfil: Raw)

  datatype Transfer = Transfer(
    terms: Terms, expiration: string, condition: string, prepare: Raw, state: InternalState,
    fulfilment: Option<string>, completedTimestamp: Option<string>, fulfil: Option<Raw>)

  /** The two library functions of the fulfilment check: base64url decoding (section 5 of RFC 4648) and the
    * SHA-256 digest in base64url.  Nothing else is known about them. */
  datatype Crypto = Crypto(decode: string -> seq<bv8>, digest: seq<bv8> -> string)

  datatype ConditionError = ValidateFulfilConditionFailed | ValidateFulfilConditionNoMatch

  function FulfilmentToCondition(x: Crypto, fulfilment: string): Result<string, ConditionError> {
    var preimage := x.decode(fulfilment);
    if |preimage| != 32 then Failure(ValidateFulfilConditionFailed) else Success(x.digest(preimage))
  }

  /** The fulfilment decodes to 32 bytes whose digest is the condition. */
  ghost predicate Fulfils(x: Crypto, fulfilment: string, condition: string) {
    |x.decode(fulfilment)| == 32 && x.digest(x.decode(fulfilment)) == condition
  }

  // ---------- messages ----------

  datatype TransferCmd =
    | PrepareTransfer(request: PrepareRequest)
    | AckPayerFundsReserved(id: string, payerEndpoints: seq<Endpoint>, payeeEndpoints: seq<Endpoint>)
    | FulfilTransfer(fulfil: FulfilRequest)
    | AckPayeeFundsCommitted(id: string, payerEndpoints: seq<Endpoint>, payeeEndpoints: seq<Endpoint>)

  datatype TransferEvt =
    | DuplicateTransferDetected(id: string)
    | TransferPrepareAccepted(terms: Terms)
    | TransferPrepared(terms: Terms, payerEndpoints: seq<Endpoint>, payeeEndpoints: seq<Endpoint>, prepare: Raw)
    | TransferFulfilAccepted(terms: Terms)
    | TransferFulfilled(terms: Terms, payerEndpoints: seq<Endpoint>, payeeEndpoints: seq<Endpoint>,
                        fulfil: Option<Raw>)
    | TransferNotFound(id: string)
    | InvalidTransfer(id: string)

  datatype TransferStateEvt =
    | TransferPreparedState(transfer: Transfer)
    | TransferStateChanged(id: string, state: InternalState)
    | TransferFulfiledState(id: string, state: InternalState, fulfilment: Option<string>,
                            completedTimestamp: Option<string>, fulfil: Option<Raw>)

  /** A refusal can leave the loaded entity changed: `touched` is then its new state, which only a repository
    * that hands out references keeps. */
  datatype TransferOutcome =
    | TransferAccepted(root: Transfer, evt: TransferEvt, stateEvt: TransferStateEvt)
    | TransferRefused(evt: TransferEvt, touched: Option<Transfer>)

  function TransferKey(cmd: TransferCmd): string {
    match cmd
    case PrepareTransfer(r) => r.terms.id
    case AckPayerFundsReserved(id, _, _) => id
    case FulfilTransfer(f) => f.id
    case AckPayeeFundsCommitted(id, _, _) => id
  }

  // ---------- the aggregate ----------

  function Prepared(r: PrepareRequest): Transfer {
    Transfer(r.terms, r.expiration, r.condition, r.prepare, RECEIVED_PREPARE, None, None, None)
  }

  function Fulfilled(t: Transfer, f: FulfilRequest): Transfer {
    t.(fulfilment := Some(f.fulfilment), completedTimestamp := Some(f.completedTimestamp),
       fulfil := Some(f.fulfil), state := RECEIVED_FULFIL)
  }

  function DecideFulfil(x: Crypto, t: Transfer, f: FulfilRequest): TransferOutcome {
    match FulfilmentToCondition(x, f.fulfilment)
    case Failure(_) => TransferRefused(InvalidTransfer(f.id), None)
    case Success(condition) =>
      if condition != t.condition then TransferRefused(InvalidTransfer(f.id), Some(t.(state := RECEIVED_ERROR)))
      else
        var u := Fulfilled(t, f);
        TransferAccepted(
          u, TransferFulfilAccepted(u.terms),
          TransferFulfiledState(u.terms.id, u.state, u.fulfilment, u.completedTimestamp, u.fulfil))
  }

  /** `isNew` is what adding the id to the duplicate set answered, `root` the stored transfer. */
  function DecideTransfer(x: Crypto, root: Option<Transfer>, isNew: bool, cmd: TransferCmd): TransferOutcome {
    match cmd
    case PrepareTransfer(r) =>
      if !isNew then TransferRefused(DuplicateTransferDetected(r.terms.id), None)
      else TransferAccepted(Prepared(r), TransferPrepareAccepted(r.terms), TransferPreparedState(Prepared(r)))
    case AckPayerFundsReserved(id, payer, payee) =>
      if root.None? then TransferRefused(TransferNotFound(id), None)
      else if root.value.state != RECEIVED_PREPARE then TransferRefused(InvalidTransfer(id), None)
      else
        var t := root.value.(state := RESERVED);
        TransferAccepted(t, TransferPrepared(t.terms, payer, payee, t.prepare),
                         TransferStateChanged(t.terms.id, t.state))
    case FulfilTransfer(f) =>
      if root.None? then TransferRefused(TransferNotFound(f.id), None)
      else if root.value.state != RESERVED then TransferRefused(InvalidTransfer(f.id), None)
      else DecideFulfil(x, root.value, f)
    case AckPayeeFundsCommitted(id, payer, payee) =>
      if root.None? then TransferRefused(TransferNotFound(id), None)
      else if root.value.state != RECEIVED_FULFIL then TransferRefused(InvalidTransfer(id), None)
      else
        var t := root.value.(state := COMMITTED);
        TransferAccepted(t, TransferFulfilled(t.terms, payer, payee, t.fulfil),
                         TransferStateChanged(t.terms.id, t.state))
  }

  /** The stored transfers, the duplicate set, and everything published, under one transfers service. */
  datatype TransferService = TransferService(
    duplicates: set<string>, store: map<string, Transfer>, evts: seq<TransferEvt>, log: seq<TransferStateEvt>)

  const NO_TRANSFERS := TransferService({}, map[], [], [])

  /** Adding the id to the duplicate set answers whether it was new. */
  predicate IsNew(s: TransferService, cmd: TransferCmd) {
    cmd.PrepareTransfer? && TransferKey(cmd) !in s.duplicates
  }

  function DecideOn(x: Crypto, s: TransferService, cmd: TransferCmd): TransferOutcome {
    DecideTransfer(x, Get(s.store, TransferKey(cmd)), IsNew(s, cmd), cmd)
  }

  /** What happens to an outcome; `byReference` says whether the repository hands out references to what it
    * stores. */
  function SettleTransfer(byReference: bool, s: TransferService, cmd: TransferCmd, o: TransferOutcome)
    : TransferService
  {
    var dups := if cmd.PrepareTransfer? then s.duplicates + {TransferKey(cmd)} else s.duplicates;
    match o
    case TransferAccepted(root, evt, stateEvt) =>
      TransferService(dups, s.store[root.terms.id := root], s.evts + [evt], s.log + [stateEvt])
    case TransferRefused(evt, touched) =>
      var store := if byReference && touched.Some? then s.store[TransferKey(cmd) := touched.value] else s.store;
      TransferService(dups, store, s.evts + [evt], s.log)
  }

  /** One command. */
  function HandleTransfer(x: Crypto, byReference: bool, s: TransferService, cmd: TransferCmd): TransferService {
    SettleTransfer(byReference, s, cmd, DecideOn(x, s, cmd))
  }

  // ---------- what the handlers decide, field by field ----------

  /** A prepare is accepted exactly when its id is new: the transfer has what the request has, and nothing of a
    * fulfilment. */
  lemma PrepareOutcome(x: Crypto, root: Option<Transfer>, isNew: bool, r: PrepareRequest)
    ensures var o := DecideTransfer(x, root, isNew, PrepareTransfer(r));
      if isNew then
        && o.TransferAccepted?
        && o.root.terms == r.terms && o.root.expiration == r.expiration && o.root.condition == r.condition
        && o.root.prepare == r.prepare && o.root.state == RECEIVED_PREPARE
        && o.root.fulfilment == None && o.root.completedTimestamp == None && o.root.fulfil == None
        && o.evt == TransferPrepareAccepted(r.terms) && o.stateEvt == TransferPreparedState(o.root)
      else o == TransferRefused(DuplicateTransferDetected(r.terms.id), None)
  {
  }

  /** An acknowledged reserve is accepted exactly in RECEIVED_PREPARE: the state becomes RESERVED, and the payee is
    * sent the prepare request at its endpoints. */
  lemma AckReserveOutcome(x: Crypto, root: Option<Transfer>, isNew: bool, id: string, payerEndpoints: seq<Endpoint>,
                          payeeEndpoints: seq<Endpoint>)
    ensures var o := DecideTransfer(x, root, isNew, AckPayerFundsReserved(id, payerEndpoints, payeeEndpoints));
      match root
      case None => o == TransferRefused(TransferNotFound(id), None)
      case Some(t) =>
        if t.state == RECEIVED_PREPARE then
          && o.TransferAccepted? && o.root.state == RESERVED && o.root.(state := RECEIVED_PREPARE) == t
          && o.evt.TransferPrepared? && o.evt.terms == t.terms && o.evt.prepare == t.prepare
          && o.evt.payerEndpoints == payerEndpoints && o.evt.payeeEndpoints == payeeEndpoints
          && o.stateEvt == TransferStateChanged(t.terms.id, RESERVED)
        else o == TransferRefused(InvalidTransfer(id), None)
  {
  }

  /** A fulfilled transfer has the request's fulfilment, time and body, and is otherwise the transfer it was. */
  ghost predicate FulfilledBy(t: Transfer, f: FulfilRequest, u: Transfer) {
    && u.fulfilment == Some(f.fulfilment) && u.completedTimestamp == Some(f.completedTimestamp)
    && u.fulfil == Some(f.fulfil) && u.state == RECEIVED_FULFIL
    && u.terms == t.terms && u.expiration == t.expiration && u.condition == t.condition && u.prepare == t.prepare
  }

  /** A fulfil is accepted exactly in RESERVED and when the fulfilment is 32 bytes that hash to the condition; of those
    * refused, only 32 bytes that do not leave RECEIVED_ERROR behind. */
  lemma FulfilOutcome(x: Crypto, root: Option<Transfer>, isNew: bool, f: FulfilRequest)
    ensures var o := DecideTransfer(x, root, isNew, FulfilTransfer(f));
      match root
      case None => o == TransferRefused(TransferNotFound(f.id), None)
      case Some(t) =>
        if t.state == RESERVED && Fulfils(x, f.fulfilment, t.condition) then
          && o.TransferAccepted? && FulfilledBy(t, f, o.root) && o.evt == TransferFulfilAccepted(t.terms)
          && o.stateEvt == TransferFulfiledState(t.terms.id, RECEIVED_FULFIL, Some(f.fulfilment),
                                                 Some(f.completedTimestamp), Some(f.fulfil))
        else
          && o.TransferRefused? && o.evt == InvalidTransfer(f.id)
          && o.touched == (if t.state == RESERVED && |x.decode(f.fulfilment)| == 32
                           then Some(t.(state := RECEIVED_ERROR)) else None)
  {
  }

  /** An acknowledged commit is accepted exactly in RECEIVED_FULFIL: the state becomes COMMITTED, and the payer is sent
    * the fulfil request at its endpoints. */
  lemma AckCommitOutcome(x: Crypto, root: Option<Transfer>, isNew: bool, id: string, payerEndpoints: seq<Endpoint>,
                         payeeEndpoints: seq<Endpoint>)
    ensures var o := DecideTransfer(x, root, isNew, AckPayeeFundsCommitted(id, payerEndpoints, payeeEndpoints));
      match root
      case None => o == TransferRefused(TransferNotFound(id), None)
      case Some(t) =>
        if t.state == RECEIVED_FULFIL then
          && o.TransferAccepted? && o.root.state == COMMITTED && o.root.(state := RECEIVED_FULFIL) == t
          && o.evt.TransferFulfilled? && o.evt.terms == t.terms && o.evt.fulfil == t.fulfil
          && o.evt.payerEndpoints == payerEndpoints && o.evt.payeeEndpoints == payeeEndpoints
          && o.stateEvt == TransferStateChanged(t.terms.id, COMMITTED)
        else o == TransferRefused(InvalidTransfer(id), None)
  {
  }

  function TransferOf(e: TransferEvt): string {
    match e
    case DuplicateTransferDetected(id) => id
    case TransferPrepareAccepted(t) => t.id
    case TransferPrepared(t, _, _, _) => t.id
    case TransferFulfilAccepted(t) => t.id
    case TransferFulfilled(t, _, _, _) => t.id
    case TransferNotFound(id) => id
    case InvalidTransfer(id) => id
  }

  /** Every command is answered by one event about its transfer, after all earlier ones; what it stores is under that
    * id too, and only a prepare adds an id to the duplicate set - its own, also when it is refused. */
  lemma AnsweredOnce(x: Crypto, byReference: bool, s: TransferService, cmd: TransferCmd)
    requires forall id :: id in s.store ==> s.store[id].terms.id == id
    ensures var t, id := HandleTransfer(x, byReference, s, cmd), TransferKey(cmd);
      && |t.evts| == |s.evts| + 1 && t.evts[..|s.evts|] == s.evts && TransferOf(t.evts[|s.evts|]) == id
      && s.log <= t.log && |t.log| <= |s.log| + 1
      && (forall other :: other != id ==> Get(t.store, other) == Get(s.store, other))
      && t.duplicates == (if cmd.PrepareTransfer? then s.duplicates + {id} else s.duplicates)
  {
    hide FulfilmentToCondition;
  }
}
