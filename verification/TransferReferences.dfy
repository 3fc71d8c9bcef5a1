/** A transfer repository that hands out references to what it stores, against one that hands out copies. */
module TransferReferences {
  import opened Common
  import opened Transfers

  function RunTransfers(x: Crypto, byReference: bool, cmds: seq<TransferCmd>): TransferService {
    if cmds == [] then NO_TRANSFERS
    else HandleTransfer(x, byReference, RunTransfers(x, byReference, cmds[..|cmds| - 1]), cmds[|cmds| - 1])
  }

  /** A fulfilment of 32 bytes that does not hash to the condition, for a RESERVED transfer: the entity is set to
    * RECEIVED_ERROR before the command is refused. */
  predicate Leaks(x: Crypto, s: TransferService, cmd: TransferCmd) {
    && cmd.FulfilTransfer? && cmd.fulfil.id in s.store && s.store[cmd.fulfil.id].state == RESERVED
    && |x.decode(cmd.fulfil.fulfilment)| == 32
    && x.digest(x.decode(cmd.fulfil.fulfilment)) != s.store[cmd.fulfil.id].condition
  }

  /** No command of the run leaked into the transfer. */
  ghost predicate Clean(x: Crypto, cmds: seq<TransferCmd>, id: string) {
    forall n :: 0 <= n < |cmds| && TransferKey(cmds[n]) == id ==> !Leaks(x, RunTransfers(x, true, cmds[..n]), cmds[n])
  }

  function EvtId(e: TransferEvt): string {
    match e
    case DuplicateTransferDetected(id) => id
    case TransferNotFound(id) => id
    case InvalidTransfer(id) => id
    case _ => e.terms.id
  }

  function StateEvtId(e: TransferStateEvt): string {
    match e
    case TransferPreparedState(t) => t.terms.id
    case _ => e.id
  }

  function EvtsOf(evts: seq<TransferEvt>, id: string): seq<TransferEvt> {
    if evts == [] then []
    else
      var init, e := EvtsOf(evts[..|evts| - 1], id), evts[|evts| - 1];
      if EvtId(e) == id then init + [e] else init
  }

  function StateEvtsOf(log: seq<TransferStateEvt>, id: string): seq<TransferStateEvt> {
    if log == [] then []
    else
      var init, e := StateEvtsOf(log[..|log| - 1], id), log[|log| - 1];
      if StateEvtId(e) == id then init + [e] else init
  }

  /** Nothing that concerns the transfer tells the two services apart. */
  ghost predicate SameFor(r: TransferService, c: TransferService, id: string) {
    && Get(r.store, id) == Get(c.store, id) && (id in r.duplicates <==> id in c.duplicates)
    && EvtsOf(r.evts, id) == EvtsOf(c.evts, id) && StateEvtsOf(r.log, id) == StateEvtsOf(c.log, id)
  }

  ghost predicate KeysOk(s: TransferService) {
    forall id :: id in s.store ==> s.store[id].terms.id == id
  }

  /** An outcome concerns the addressed transfer only, and touches it without accepting exactly on a leak. */
  lemma OutcomeConcernsKey(x: Crypto, s: TransferService, cmd: TransferCmd)
    requires KeysOk(s)
    ensures var o := DecideOn(x, s, cmd);
      && EvtId(o.evt) == TransferKey(cmd)
      && (o.TransferAccepted? ==> o.root.terms.id == StateEvtId(o.stateEvt) == TransferKey(cmd))
      && (o.TransferAccepted? ==> o.root.state != RECEIVED_ERROR)
      && (o.TransferRefused? ==> (o.touched.Some? <==> Leaks(x, s, cmd)))
      && (Leaks(x, s, cmd) ==>
            && o.TransferRefused? && TransferKey(cmd) in s.store
            && o.touched == Some(s.store[TransferKey(cmd)].(state := RECEIVED_ERROR)))
  {
  }

  lemma SettleFrame(byReference: bool, s: TransferService, cmd: TransferCmd, o: TransferOutcome, id: string)
    requires KeysOk(s) && EvtId(o.evt) == TransferKey(cmd)
    requires o.TransferAccepted? ==> o.root.terms.id == StateEvtId(o.stateEvt) == TransferKey(cmd)
    requires o.TransferRefused? && o.touched.Some? ==> o.touched.value.terms.id == TransferKey(cmd)
    ensures var t := SettleTransfer(byReference, s, cmd, o);
      && KeysOk(t)
      && EvtsOf(t.evts, id) == EvtsOf(s.evts, id) + (if TransferKey(cmd) == id then [o.evt] else [])
      && StateEvtsOf(t.log, id)
         == StateEvtsOf(s.log, id) + (if TransferKey(cmd) == id && o.TransferAccepted? then [o.stateEvt] else [])
      && (TransferKey(cmd) != id ==>
            Get(t.store, id) == Get(s.store, id) && (id in t.duplicates <==> id in s.duplicates))
  {
  }

  lemma {:induction false} SameStep(x: Crypto, r: TransferService, c: TransferService, cmd: TransferCmd, id: string)
    requires KeysOk(r) && KeysOk(c) && SameFor(r, c, id)
    requires TransferKey(cmd) == id ==> !Leaks(x, r, cmd)
    ensures SameFor(HandleTransfer(x, true, r, cmd), HandleTransfer(x, false, c, cmd), id)
  {
    OutcomeConcernsKey(x, r, cmd);
    OutcomeConcernsKey(x, c, cmd);
    SettleFrame(true, r, cmd, DecideOn(x, r, cmd), id);
    SettleFrame(false, c, cmd, DecideOn(x, c, cmd), id);
    if TransferKey(cmd) == id {
      assert DecideOn(x, r, cmd) == DecideOn(x, c, cmd);
    }
  }

  lemma {:induction false} KeysAlwaysOk(x: Crypto, byReference: bool, cmds: seq<TransferCmd>)
    ensures KeysOk(RunTransfers(x, byReference, cmds))
  {
    if cmds == [] {
    } else {
      var init, cmd := cmds[..|cmds| - 1], cmds[|cmds| - 1];
      var s := RunTransfers(x, byReference, init);
      KeysAlwaysOk(x, byReference, init);
      OutcomeConcernsKey(x, s, cmd);
      SettleFrame(byReference, s, cmd, DecideOn(x, s, cmd), "");
    }
  }

  lemma CleanBefore(x: Crypto, cmds: seq<TransferCmd>, id: string)
    requires cmds != []
    ensures var init := cmds[..|cmds| - 1];
      Clean(x, cmds, id) <==>
        Clean(x, init, id)
        && (TransferKey(cmds[|cmds| - 1]) == id ==> !Leaks(x, RunTransfers(x, true, init), cmds[|cmds| - 1]))
  {
    var init := cmds[..|cmds| - 1];
    assert forall n :: 0 <= n < |init| ==> init[..n] == cmds[..n] && init[n] == cmds[n];
  }

  /** With copies, a transfer is never stored in RECEIVED_ERROR. */
  lemma {:induction false} CopiesNeverInError(x: Crypto, cmds: seq<TransferCmd>, id: string)
    ensures var s := RunTransfers(x, false, cmds);
      id in s.store ==> s.store[id].state != RECEIVED_ERROR
  {
    if cmds == [] {
    } else {
      var init := cmds[..|cmds| - 1];
      CopiesNeverInError(x, init, id);
      KeysAlwaysOk(x, false, init);
      OutcomeConcernsKey(x, RunTransfers(x, false, init), cmds[|cmds| - 1]);
    }
  }

  /** A transfer that leaked is refused everything from then on. */
  lemma ErrorSticks(x: Crypto, s: TransferService, cmd: TransferCmd, id: string)
    requires KeysOk(s) && id in s.store && s.store[id].state == RECEIVED_ERROR && id in s.duplicates
    ensures var t := HandleTransfer(x, true, s, cmd);
      id in t.store && t.store[id].state == RECEIVED_ERROR && id in t.duplicates
  {
  }

  lemma {:induction false} LeakedStaysInError(x: Crypto, cmds: seq<TransferCmd>, id: string)
    ensures var s := RunTransfers(x, true, cmds);
      && (id in s.store ==> id in s.duplicates)
      && (!Clean(x, cmds, id) ==> id in s.store && s.store[id].state == RECEIVED_ERROR)
  {
    if cmds == [] {
    } else {
      var init, cmd := cmds[..|cmds| - 1], cmds[|cmds| - 1];
      var s := RunTransfers(x, true, init);
      LeakedStaysInError(x, init, id);
      LeakedStaysInError(x, init, TransferKey(cmd));
      KeysAlwaysOk(x, true, init);
      CleanBefore(x, cmds, id);
      OutcomeConcernsKey(x, s, cmd);
      if !Clean(x, init, id) {
        ErrorSticks(x, s, cmd, id);
      }
    }
  }

  lemma {:induction false} CleanMeansSame(x: Crypto, cmds: seq<TransferCmd>, id: string)
    requires Clean(x, cmds, id)
    ensures SameFor(RunTransfers(x, true, cmds), RunTransfers(x, false, cmds), id)
  {
    if cmds == [] {
    } else {
      var init := cmds[..|cmds| - 1];
      CleanBefore(x, cmds, id);
      CleanMeansSame(x, init, id);
      KeysAlwaysOk(x, true, init);
      KeysAlwaysOk(x, false, init);
      SameStep(x, RunTransfers(x, true, init), RunTransfers(x, false, init), cmds[|cmds| - 1], id);
    }
  }

  /** Over every sequence of commands, the two repositories agree on a transfer - what is stored and everything that
    * was published about it - exactly when no fulfilment leaked into it. */
  lemma {:induction false} ReferencesAgreeExactly(x: Crypto, cmds: seq<TransferCmd>, id: string)
    ensures SameFor(RunTransfers(x, true, cmds), RunTransfers(x, false, cmds), id) <==> Clean(x, cmds, id)
  {
    if Clean(x, cmds, id) {
      CleanMeansSame(x, cmds, id);
    } else {
      LeakedStaysInError(x, cmds, id);
      CopiesNeverInError(x, cmds, id);
    }
  }
}
