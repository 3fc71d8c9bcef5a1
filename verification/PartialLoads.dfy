/** What the event store gives when its fetches miss messages: an error or an empty batch of the broker ends a fetch
  * before the topic does. */
module PartialLoads {
  import opened Common
  import opened Decimals
  import opened Participants
  import opened EventSourcing
  import opened Recovery
  import opened EventStore

  /** The last position that the events write in the currency, or else this one. */
  function LastPosition(es: seq<StateEvt>, c: string, x: Num): Num {
    if es == [] then x
    else
      var e := es[|es| - 1];
      if e.PositionChanged? && e.currency == c then e.position else LastPosition(es[..|es| - 1], c, x)
  }

  /** What was read leaves each POSITION account where the whole log leaves it. */
  ghost predicate UpToDate(p: Participant, read: seq<StateEvt>, log: seq<StateEvt>) {
    forall k :: 0 <= k < |p.accounts| && p.accounts[k].kind == POSITION ==>
      var a := p.accounts[k];
      LastPosition(read, a.currency, a.position) == LastPosition(log, a.currency, a.position)
  }

  /** What the replay of the other events starts from: the creation if it was read, or else the snapshot. */
  function ReplayStart(l: Loaded): Option<Participant> {
    if l.events != [] && l.events[0].CreatedState? then Some(l.events[0].participant)
    else if l.snapshot.Some? then Some(l.snapshot.value.participant)
    else None
  }

  lemma {:induction false} SetAllAt(p: Participant, es: seq<StateEvt>, k: nat)
    requires k < |p.accounts|
    ensures |SetAll(p, es).accounts| == |p.accounts|
    ensures var a := p.accounts[k];
      SetAll(p, es).accounts[k] ==
      if a.kind == POSITION then a.(position := LastPosition(es, a.currency, a.position)) else a
  {
    if es == [] {
    } else {
      SetAllAt(p, es[..|es| - 1], k);
    }
  }

  lemma {:induction false} LastPositionOf(es: seq<StateEvt>, c: string, x: Num, y: Num)
    requires c in Currencies(es)
    ensures LastPosition(es, c, x) == LastPosition(es, c, y)
  {
    var init, e := es[..|es| - 1], es[|es| - 1];
    assert es == init + [e];
    if !(e.PositionChanged? && e.currency == c) {
      LastPositionOf(init, c, x, y);
    }
  }

  lemma {:induction false} UpToDateExactly(b: Participant, p: Participant, read: seq<StateEvt>, log: seq<StateEvt>)
    requires AgreeBut(b, p, Currencies(log))
    ensures SetAll(p, read) == SetAll(b, log) <==> UpToDate(p, read, log)
  {
    SetAllStatics(p, read);
    SetAllStatics(b, log);
    forall k | 0 <= k < |p.accounts|
      ensures SetAll(p, read).accounts[k] == SetAll(b, log).accounts[k] <==>
              (p.accounts[k].kind == POSITION ==>
                 LastPosition(read, p.accounts[k].currency, p.accounts[k].position) ==
                 LastPosition(log, p.accounts[k].currency, p.accounts[k].position))
    {
      SetAllAt(p, read, k);
      SetAllAt(b, log, k);
      if p.accounts[k].currency in Currencies(log) {
        LastPositionOf(log, p.accounts[k].currency, b.accounts[k].position, p.accounts[k].position);
      }
    }
    assert UpToDate(p, read, log) ==> SetAll(p, read).accounts == SetAll(b, log).accounts;
  }

  /** Over any root, a log up to its j-th event gives what these make of the creation. */
  lemma ReplayFromCreation(es: seq<StateEvt>, id: string, j: nat, root: Option<Participant>)
    requires LogShape(es, id) && 0 < j <= |es|
    ensures Replay(root, es[..j]) == Success(Some(SetAll(es[0].participant, es[..j])))
  {
    var b, first, rest := es[0].participant, [es[0]], es[1..j];
    assert es[..j] == first + rest && first[..0] == [];
    assert Replay(root, []) == Success(root);
    assert Replay(root, first) == Success(Some(b));
    assert SetAll(b, []) == b;
    ReplaySplit(root, first, rest);
    SetAllSplit(b, first, rest);
    assert forall k :: 0 <= k < |rest| ==> rest[k] == es[1..][k];
    ReplayChanges(b, rest);
  }

  lemma ReplayFromSnapshot(b: Participant, m: Participant, es: seq<StateEvt>)
    requires Changes(b, es) && SameStatics(b, m)
    ensures Replay(Some(m), es) == Success(Some(SetAll(m, es)))
  {
    forall k | 0 <= k < |es| ensures HasPosition(m, es[k].currency) {
      SameStaticsFind(b, m, es[k].currency);
    }
    ReplayChanges(m, es);
  }

  /** A snapshot is the creation but for what the log has written. */
  lemma SnapshotAgrees(es: seq<StateEvt>, k: nat, m: Participant)
    requires es != [] && es[0].CreatedState? && Reaches(es, k, m) && UniquePositions(m)
    ensures AgreeBut(es[0].participant, m, Currencies(es))
  {
    SetAllTouches(es[0].participant, es[1..k]);
    assert Currencies(es[1..k]) <= Currencies(es);
  }

  lemma WholeIsStored(es: seq<StateEvt>, id: string, stored: Participant)
    requires LogShape(es, id) && Reaches(es, |es|, stored) && UniquePositions(stored)
    ensures SetAll(es[0].participant, es) == stored
  {
    WholeLog(es, id, stored);
    ReplayFromCreation(es, id, |es|, None);
    assert es[..|es|] == es;
  }

  /** Of any stretch of a log, replayed over any snapshot or none. */
  lemma {:induction false} StretchRecovers(es: seq<StateEvt>, id: string, stored: Participant, l: Loaded, i: nat,
                                           j: nat)
    requires LogShape(es, id) && Reaches(es, |es|, stored) && UniquePositions(stored)
    requires l.snapshot.Some? ==> SnapshotOk(es, id, SnapshotState(l.snapshot.value.participant))
    requires i <= j <= |es| && l.events == es[i..j]
    ensures Rebuild(id, l) == Success(Some(stored)) <==>
            ReplayStart(l).Some? && UpToDate(ReplayStart(l).value, l.events, es)
  {
    hide Replay, SetAll, UpToDate;
    var b := es[0].participant;
    var blank := Participant(id, "", [], [], None);
    WholeIsStored(es, id, stored);
    if i == 0 && j > 0 {
      assert l.events == es[..j];
      ReplayFromCreation(es, id, j, Some(if l.snapshot.Some? then l.snapshot.value.participant else blank));
      UpToDateExactly(b, b, l.events, es);
    } else {
      assert forall k :: 0 <= k < |l.events| ==> l.events[k] == es[1..][i + k - 1];
      if l.snapshot.Some? {
        var m := l.snapshot.value.participant;
        var k: nat :| Reaches(es, k, m);
        SnapshotAgrees(es, k, m);
        ReplayFromSnapshot(b, m, l.events);
        UpToDateExactly(b, m, l.events, es);
      } else if l.events != [] {
        NoAccountToChange(blank, l.events);
      }
    }
  }

  lemma EventsAreStretch(t: Topics, id: string, cached: Option<Position>, snapshot: Option<Snapshot>, read: nat)
    returns (i: nat, j: nat)
    requires t.eventsHome < |t.events|
    ensures var es := Matching(t.events[t.eventsHome], id);
      i <= j <= |es| && Take(EventsFrom(t, id, cached, snapshot), read) == es[i..j]
  {
    var start := EventsStart(cached, snapshot);
    if Assigned(start.partition, t.eventsHome) {
      FetchedSuffix(t, id, start);
      i := EventsBefore(t, id, start.offset);
      j := i + |Take(EventsFrom(t, id, cached, snapshot), read)|;
    } else {
      i, j := 0, 0;
    }
  }

  lemma {:induction false} PartlyRecovers(t: Topics, s: ParticipantService, id: string, cached: Option<Position>,
                                          snapshotLost: bool, read: nat)
    requires Holds(t, s, id) && Logged(s, id) && id in s.store && UniquePositions(s.store[id])
    ensures var l := LoadPartly(t, id, cached, snapshotLost, read);
      Rebuild(id, l) == Success(Some(s.store[id])) <==>
      ReplayStart(l).Some? && UpToDate(ReplayStart(l).value, l.events, LogOf(s.log, id))
  {
    hide Rebuild, UpToDate, ReplayStart;
    var l := LoadPartly(t, id, cached, snapshotLost, read);
    var i, j := EventsAreStretch(t, id, cached, l.snapshot, read);
    if l.snapshot.Some? {
      var m := l.snapshot.value;
      MatchingHas(t.snapshots[t.snapshotHome], SnapshotStart(cached).offset, id, m);
      assert StateKey(SnapshotState(m.participant)) == id;
    }
    StretchRecovers(LogOf(s.log, id), id, s.store[id], l, i, j);
  }

  /** After any run of the service, and whatever the fetches missed: what is loaded is the stored participant exactly
    * when there is a start - the creation among the events that were read, or else a snapshot - and for each of its
    * POSITION accounts the last position that was read, or else that of the start, is the last one of the log. */
  lemma {:induction false} PartlyRecoversExactly(requests: seq<Request>, t: Topics, id: string,
                                                 cached: Option<Position>, snapshotLost: bool, read: nat)
    requires Holds(t, RunService(requests), id)
    requires id in RunService(requests).store && UniquePositions(RunService(requests).store[id])
    ensures var s, l := RunService(requests), LoadPartly(t, id, cached, snapshotLost, read);
      Rebuild(id, l) == Success(Some(s.store[id])) <==>
      ReplayStart(l).Some? && UpToDate(ReplayStart(l).value, l.events, LogOf(s.log, id))
  {
    AlwaysLogged(requests, id);
    PartlyRecovers(t, RunService(requests), id, cached, snapshotLost, read);
  }

  /** When the snapshot alone is missed: exactly when the search for it began where the events begin. */
  lemma {:induction false} SnapshotMissedExactly(requests: seq<Request>, t: Topics, id: string,
                                                 cached: Option<Position>, read: nat)
    requires Holds(t, RunService(requests), id)
    requires id in RunService(requests).store && UniquePositions(RunService(requests).store[id])
    requires read >= |EventsFrom(t, id, cached, None)|
    ensures var start := SnapshotStart(cached);
      Rebuild(id, LoadPartly(t, id, cached, true, read)) == Success(Some(RunService(requests).store[id])) <==>
      Assigned(start.partition, t.eventsHome) && EventsBefore(t, id, start.offset) == 0
  {
    hide RunService, Rebuild;
    var es := EventsFrom(t, id, cached, None);
    assert Take(es, read) == es;
    AlwaysLogged(requests, id);
    EventsRecover(t, RunService(requests), id, cached);
  }

  /** When the events are missed, the snapshot is taken for the participant as it is - which is right exactly when the
    * log ends with the snapshot's positions - and without a snapshot the participant counts as unknown. */
  lemma {:induction false} EventsMissedExactly(requests: seq<Request>, t: Topics, id: string, cached: Option<Position>,
                                               snapshotLost: bool)
    requires Holds(t, RunService(requests), id)
    requires id in RunService(requests).store && UniquePositions(RunService(requests).store[id])
    ensures var s, l := RunService(requests), LoadPartly(t, id, cached, snapshotLost, 0);
      && Rebuild(id, l) == Success(if l.snapshot.Some? then Some(l.snapshot.value.participant) else None)
      && (Rebuild(id, l) == Success(Some(s.store[id])) <==>
          l.snapshot.Some? && forall a :: a in l.snapshot.value.participant.accounts && a.kind == POSITION ==>
            LastPosition(LogOf(s.log, id), a.currency, a.position) == a.position)
  {
    hide RunService, LogOf;
    PartlyRecoversExactly(requests, t, id, cached, snapshotLost, 0);
  }
}
