/** Each transfer goes through prepare, reserved, fulfil and committed at most once and in that order. */
module ProtocolOrder {
  import opened Common
  import opened Transfers
  import opened Protocol
  import opened ProtocolSafety

  /** The rank of an accept event of the given transfer; 0 for any other event. */
  function Stage(e: TransferEvt, id: string): nat {
    match e
    case TransferPrepareAccepted(t) => if t.id == id then 1 else 0
    case TransferPrepared(t, _, _, _) => if t.id == id then 2 else 0
    case TransferFulfilAccepted(t) => if t.id == id then 3 else 0
    case TransferFulfilled(t, _, _, _) => if t.id == id then 4 else 0
    case _ => 0
  }

  /** The accept events of one transfer, in the order they were published. */
  function Stages(evts: seq<TransferEvt>, id: string): seq<nat> {
    if evts == [] then []
    else
      var last := Stage(evts[|evts| - 1], id);
      Stages(evts[..|evts| - 1], id) + (if last == 0 then [] else [last])
  }

  function Rank(state: InternalState): nat {
    match state
    case RECEIVED_PREPARE => 1
    case RESERVED => 2
    case RECEIVED_ERROR => 2
    case RECEIVED_FULFIL => 3
    case COMMITTED => 4
    case _ => 0
  }

  const ALL_STAGES: seq<nat> := [1, 2, 3, 4]

  ghost predicate Ordered(s: State, id: string) {
    var seen := Stages(s.transfers.evts, id);
    && seen <= ALL_STAGES
    && (id !in s.transfers.duplicates ==> seen == [])
    && (id in s.transfers.store ==> |seen| == Rank(s.transfers.store[id].state))
  }

  lemma StagesAppend(evts: seq<TransferEvt>, e: TransferEvt, id: string)
    ensures Stages(evts + [e], id) == Stages(evts, id) + (if Stage(e, id) == 0 then [] else [Stage(e, id)])
  {
  }

  /** Every success raises the rank by one and announces the new rank; a refusal announces none and keeps it. */
  lemma SuccessRaisesRank(x: Crypto, root: Option<Transfer>, isNew: bool, cmd: TransferCmd, id: string)
    requires root.Some? ==> root.value.terms.id == TransferKey(cmd)
    ensures var o := DecideTransfer(x, root, isNew, cmd);
      match o
      case TransferAccepted(next, evt, _) =>
        && next.terms.id == TransferKey(cmd)
        && Stage(evt, id) == (if id == TransferKey(cmd) then Rank(next.state) else 0)
        && Rank(next.state) == (if cmd.PrepareTransfer? then 1 else 1 + Rank(root.value.state)) <= 4
        && (cmd.PrepareTransfer? || root.Some?)
      case TransferRefused(evt, touched) =>
        && Stage(evt, id) == 0
        && (touched.Some? ==> root.Some? && Rank(touched.value.state) == Rank(root.value.state))
  {
  }

  lemma {:induction false} OrderedByTransferCmd(x: Crypto, byReference: bool, s: State, cmd: TransferCmd,
                                                o: TransferOutcome, id: string)
    requires Backed(x, s) && Ordered(s, id) && o == DecideOn(x, s.transfers, cmd)
    ensures Ordered(ExecTransfer(byReference, s, cmd, o), id)
  {
    var key := TransferKey(cmd);
    if key in s.transfers.store {
      assert TransferOk(x, s, key, s.transfers.store[key]);
    }
    SuccessRaisesRank(x, Get(s.transfers.store, key), IsNew(s.transfers, cmd), cmd, id);
    OrderedByOutcome(byReference, s, cmd, o, id);
  }

  lemma OrderedByOutcome(byReference: bool, s: State, cmd: TransferCmd, o: TransferOutcome, id: string)
    requires Ordered(s, id)
    requires o.TransferAccepted? ==>
               && o.root.terms.id == TransferKey(cmd)
               && Stage(o.evt, id) == (if id == TransferKey(cmd) then Rank(o.root.state) else 0)
               && (id == TransferKey(cmd) ==> 1 <= Rank(o.root.state) == |Stages(s.transfers.evts, id)| + 1 <= 4)
               && (cmd.PrepareTransfer? || TransferKey(cmd) in s.transfers.duplicates)
    requires o.TransferRefused? ==>
               && Stage(o.evt, id) == 0
               && (o.touched.Some? && id == TransferKey(cmd) ==>
                     Rank(o.touched.value.state) == |Stages(s.transfers.evts, id)|)
    ensures Ordered(ExecTransfer(byReference, s, cmd, o), id)
  {
  }

  lemma {:induction false} OrderedStep(x: Crypto, byReference: bool, s: State, a: Action, id: string)
    requires Backed(x, s) && Ordered(s, id)
    ensures Ordered(Exec(x, byReference, s, a), id)
  {
    if Enabled(s, a) && a.HandleTransferCmd? {
      OrderedByTransferCmd(x, byReference, s, s.transferCmds[a.i], DecideOn(x, s.transfers, s.transferCmds[a.i]), id);
    } else {
      assert Exec(x, byReference, s, a).transfers.evts == s.transfers.evts;
    }
  }

  lemma {:induction false} AlwaysOrdered(x: Crypto, byReference: bool, actions: seq<Action>, id: string)
    ensures Ordered(Run(x, byReference, actions), id)
  {
    if actions == [] {
    } else {
      var init := actions[..|actions| - 1];
      AlwaysOrdered(x, byReference, init, id);
      AlwaysBacked(x, byReference, init);
      OrderedStep(x, byReference, Run(x, byReference, init), actions[|actions| - 1], id);
    }
  }

  /** In a log whose accept events run through the ranks without repeat, a later one has a higher rank. */
  lemma {:induction false} StagesIncrease(evts: seq<TransferEvt>, i: nat, j: nat, id: string)
    requires i < j < |evts| && Stages(evts, id) <= ALL_STAGES
    requires Stage(evts[i], id) > 0 && Stage(evts[j], id) > 0
    ensures Stage(evts[i], id) < Stage(evts[j], id)
  {
    var last := |evts| - 1;
    StagesAppend(evts[..last], evts[last], id);
    assert evts == evts[..last] + [evts[last]];
    if j < last {
      StagesIncrease(evts[..last], i, j, id);
    } else {
      StagesHold(evts[..last], i, id);
      var k :| 0 <= k < |Stages(evts[..last], id)| && Stages(evts[..last], id)[k] == Stage(evts[i], id);
      assert Stages(evts, id)[k] == ALL_STAGES[k] && Stages(evts, id)[|Stages(evts[..last], id)|] == Stage(evts[j], id);
    }
  }

  lemma {:induction false} StagesHold(evts: seq<TransferEvt>, i: nat, id: string)
    requires i < |evts| && Stage(evts[i], id) > 0
    ensures Stage(evts[i], id) in Stages(evts, id)
  {
    if i < |evts| - 1 {
      StagesHold(evts[..|evts| - 1], i, id);
    }
  }

  /** Under any duplication, reordering and expiry, two accept events of one transfer differ in kind, and the later
    * one is of a later kind. */
  lemma AcceptedOnceAndInOrder(x: Crypto, byReference: bool, actions: seq<Action>, i: nat, j: nat, id: string)
    requires i < j < |Run(x, byReference, actions).transfers.evts|
    requires Stage(Run(x, byReference, actions).transfers.evts[i], id) > 0
    requires Stage(Run(x, byReference, actions).transfers.evts[j], id) > 0
    ensures Stage(Run(x, byReference, actions).transfers.evts[i], id)
            < Stage(Run(x, byReference, actions).transfers.evts[j], id)
  {
    AlwaysOrdered(x, byReference, actions, id);
    StagesIncrease(Run(x, byReference, actions).transfers.evts, i, j, id);
  }
}
