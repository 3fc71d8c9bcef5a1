/** Event sourcing over whole runs: the store is the log, and any snapshot recovers it. */
module Recovery {
  import opened Common
  import opened Participants
  import opened EventSourcing

  /** A command with the copy of its counterparty that it sees. */
  datatype Request = Request(cmd: Cmd, other: Option<Participant>)

  function RunService(requests: seq<Request>): ParticipantService {
    if requests == [] then NO_PARTICIPANTS
    else
      var r := requests[|requests| - 1];
      HandleParticipant(RunService(requests[..|requests| - 1]), r.cmd, r.other)
  }

  lemma {:induction false} AlwaysLogged(requests: seq<Request>, id: string)
    ensures Logged(RunService(requests), id)
  {
    if requests == [] {
    } else {
      var init, r := requests[..|requests| - 1], requests[|requests| - 1];
      AlwaysLogged(init, id);
      AlwaysLogged(init, Key(r.cmd));
      LoggedStep(RunService(init), r.cmd, r.other, id);
    }
  }

  /** After every command, accepted or refused, the stored participant is what replaying its state events from
    * nothing gives, when it has one POSITION account per currency. */
  lemma {:induction false} StoreEqualsLog(requests: seq<Request>, id: string)
    requires id in RunService(requests).store && UniquePositions(RunService(requests).store[id])
    ensures var s := RunService(requests);
      Replay(None, LogOf(s.log, id)) == Success(Some(s.store[id]))
  {
    var s := RunService(requests);
    AlwaysLogged(requests, id);
    WholeLog(LogOf(s.log, id), id, s.store[id]);
  }

  /** Replaying the whole log does not depend on what it starts from. */
  lemma WholeLogFrom(es: seq<StateEvt>, id: string, p: Participant, start: Option<Participant>)
    requires LogShape(es, id) && Reaches(es, |es|, p) && UniquePositions(p)
    ensures Replay(start, es) == Success(Some(p))
  {
    var b := es[0].participant;
    assert es == [es[0]] + es[1..] && es[1..|es|] == es[1..];
    assert [es[0]][..0] == [];
    assert Replay(start, []) == Success(start);
    assert Replay(start, [es[0]]) == Success(Some(b));
    ReplaySplit(start, [es[0]], es[1..]);
    ReplayChanges(b, es[1..]);
  }

  lemma {:induction false} WholeLog(es: seq<StateEvt>, id: string, p: Participant)
    requires LogShape(es, id) && Reaches(es, |es|, p) && UniquePositions(p)
    ensures Replay(None, es) == Success(Some(p))
  {
    WholeLogFrom(es, id, p, None);
  }

  /** From a state that the first k events reach, the events from any j <= k on lead to the state the whole log
    * reaches. */
  lemma {:induction false} FromPrefix(es: seq<StateEvt>, id: string, k: nat, j: nat, snap: Participant, p: Participant)
    requires LogShape(es, id) && Reaches(es, k, snap) && Reaches(es, |es|, p)
    requires UniquePositions(snap) && UniquePositions(p) && j <= k
    ensures Replay(Some(snap), es[j..]) == Success(Some(p))
  {
    hide Replay, SetAll;
    if j == 0 {
      WholeLogFrom(es, id, p, Some(snap));
      assert es[0..] == es;
    } else {
      var b, tail := es[0].participant, es[1..];
      assert es[1..k] == tail[..k - 1] && es[j..] == tail[j - 1..] && es[1..|es|] == tail;
      SnapshotOverlap(b, tail, k - 1, j - 1);
    }
  }

  /** The log of a participant is only ever appended to. */
  lemma {:induction false} LogIsPrefix(requests: seq<Request>, m: nat, id: string)
    requires m <= |requests|
    ensures LogOf(RunService(requests[..m]).log, id) <= LogOf(RunService(requests).log, id)
    ensures id in RunService(requests[..m]).store ==> id in RunService(requests).store
  {
    if m == |requests| {
      assert requests[..m] == requests;
    } else {
      var init, r := requests[..|requests| - 1], requests[|requests| - 1];
      LogIsPrefix(init, m, id);
      assert init[..m] == requests[..m];
      var o := Decide(Get(RunService(init).store, Key(r.cmd)), r.other, r.cmd);
      if o.Accepted? && !o.stateEvt.SnapshotState? {
        LogOfAppend(RunService(init).log, o.stateEvt, id);
      }
    }
  }

  /** The participant as it was, replayed over with its events from index j on, is the participant as it is. */
  ghost predicate Recovers(was: ParticipantService, now: ParticipantService, id: string, j: nat) {
    var es := LogOf(now.log, id);
    && id in was.store && id in now.store && j <= |es|
    && Replay(Some(was.store[id]), es[j..]) == Success(Some(now.store[id]))
  }

  lemma RecoveryBetween(was: ParticipantService, now: ParticipantService, id: string, j: nat)
    requires Logged(was, id) && Logged(now, id) && LogOf(was.log, id) <= LogOf(now.log, id)
    requires id in was.store && id in now.store && UniquePositions(was.store[id]) && j <= |LogOf(was.log, id)|
    ensures Recovers(was, now, id, j)
  {
    var es, k := LogOf(now.log, id), |LogOf(was.log, id)|;
    assert LogOf(was.log, id) == es[..k] && es[..k][1..k] == es[1..k];
    assert Reaches(es, k, was.store[id]);
    assert UniquePositions(now.store[id]);
    FromPrefix(es, id, k, j, was.store[id], now.store[id]);
  }

  /** Recovery: take a snapshot at any moment of any run, when the participant's log held k events.  At any later
    * moment, that snapshot and the events from any j <= k on give the participant as stored then.  This covers a
    * replay that starts at the last event the snapshot includes, and one that starts at the very first. */
  lemma {:induction false} RecoveryFromAnySnapshot(requests: seq<Request>, m: nat, id: string, j: nat)
    requires m <= |requests| && id in RunService(requests[..m]).store
    requires UniquePositions(RunService(requests[..m]).store[id])
    requires j <= |LogOf(RunService(requests[..m]).log, id)|
    ensures Recovers(RunService(requests[..m]), RunService(requests), id, j)
  {
    hide RunService, LogOf;
    AlwaysLogged(requests[..m], id);
    AlwaysLogged(requests, id);
    LogIsPrefix(requests, m, id);
    RecoveryBetween(RunService(requests[..m]), RunService(requests), id, j);
  }
}
