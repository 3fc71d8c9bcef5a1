/** The participants of a protocol run are a run of the participants service, so what holds of its log, its
  * snapshots and its read side holds in every run of the protocol. */
module ProtocolRecovery {
  import opened Common
  import opened Participants
  import opened Protocol
  import opened Transfers
  import opened EventSourcing
  import opened Recovery
  import opened ParticipantReadSide

  /** Only a handled participant command changes the participants, as the service handles it. */
  lemma ExecParticipants(x: Crypto, byReference: bool, s: State, a: Action)
    ensures Exec(x, byReference, s, a).participants ==
            if Enabled(s, a) && a.HandleParticipantCmd?
            then HandleParticipant(s.participants, s.participantCmds[a.i], a.copy) else s.participants
  {
    hide Decide, Settle, DecideOn, SettleTransfer;
  }

  lemma AppendRequest(requests: seq<Request>, r: Request)
    ensures RunService(requests + [r]) == HandleParticipant(RunService(requests), r.cmd, r.other)
  {
    hide HandleParticipant;
    assert (requests + [r])[..|requests|] == requests;
  }

  lemma {:induction false} ServiceRunOf(x: Crypto, byReference: bool, actions: seq<Action>)
    returns (requests: seq<Request>)
    ensures RunService(requests) == Run(x, byReference, actions).participants
  {
    hide Exec, HandleParticipant;
    requests := [];
    if actions == [] {
    } else {
      var init, a := actions[..|actions| - 1], actions[|actions| - 1];
      var s := Run(x, byReference, init);
      requests := ServiceRunOf(x, byReference, init);
      ExecParticipants(x, byReference, s, a);
      if Enabled(s, a) && a.HandleParticipantCmd? {
        var last := Request(s.participantCmds[a.i], a.copy);
        AppendRequest(requests, last);
        requests := requests + [last];
      }
    }
  }

  /** In every run of the protocol: replaying a participant's state events gives the stored participant, and so does
    * the read side. */
  lemma {:induction false} ProtocolStoreEqualsLog(x: Crypto, byReference: bool, actions: seq<Action>, id: string)
    requires id in Run(x, byReference, actions).participants.store
    ensures var s := Run(x, byReference, actions).participants;
      && (UniquePositions(s.store[id]) ==> Replay(None, LogOf(s.log, id)) == Success(Some(s.store[id])))
      && (Unambiguous(s.store[id]) ==> FindDoc(ProjectAll(s.log), id) == Some(s.store[id]))
      && (forall p: Participant :: p.id == id && CreatedAs(s, p) && Clear(p) ==> Agree(s, id))
  {
    hide Run, RunService, Replay, ProjectAll;
    var requests := ServiceRunOf(x, byReference, actions);
    var s := RunService(requests);
    ReadSideEqualsStore(requests, id);
    AlwaysLogged(requests, id);
    var birth := LogOf(s.log, id)[0].participant;
    assert CreatedAs(s, birth) && SameStatics(birth, s.store[id]);
    assert Unambiguous(s.store[id]) ==> Unambiguous(birth);
    ClearIsUnambiguous(birth);
    if UniquePositions(s.store[id]) {
      StoreEqualsLog(requests, id);
    }
  }
}
