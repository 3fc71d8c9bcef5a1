/** The operator that schedules participant snapshots: a counter and a time for each participant it has seen, saved
  * after every message. */
module SnapshotOperator {
  import opened Common

  const MAX_STATE_EVENTS_UNTIL_SNAPSHOTS_ISSUED := 10000
  const MAX_SECS_BETWEEN_SNAPSHOTS_ISSUED := 60 * 60

  datatype SnapshotState = SnapshotState(participantId: string, toNextSnapshot: int, lastSnapshotTs: int)

  datatype Topic = StateEvents | SnapshotEvents | SnapshotOperatorCommands

  /** What happens to the operator: a message, with the clock in milliseconds, or a restart between messages. */
  datatype Occurrence =
    | Message(aggregateId: Option<string>, topic: Topic, now: int)
    | Restart

  // ---------- a map that keeps the order of insertion ----------

  type States = seq<SnapshotState>

  function Find(m: States, id: string): (i: nat)
    ensures i <= |m|
    ensures i < |m| ==> m[i].participantId == id
    ensures forall j :: 0 <= j < i ==> m[j].participantId != id
  {
    if m == [] then 0 else if m[0].participantId == id then 0 else 1 + Find(m[1..], id)
  }

  function Lookup(m: States, id: string): Option<SnapshotState> {
    var i := Find(m, id);
    if i < |m| then Some(m[i]) else None
  }

  function Put(m: States, s: SnapshotState): States {
    var i := Find(m, s.participantId);
    if i < |m| then m[i := s] else m + [s]
  }

  ghost predicate UniqueIds(m: States) {
    forall i, j :: 0 <= i < j < |m| ==> m[i].participantId != m[j].participantId
  }

  function PutAll(m: States, saved: States): States {
    if saved == [] then m else Put(PutAll(m, saved[..|saved| - 1]), saved[|saved| - 1])
  }

  // ---------- the operator, step by step ----------

  datatype Operator = Operator(memory: States, saved: Option<States>, scheduled: seq<string>)

  const NEW_OPERATOR := Operator([], None, [])

  predicate Due(s: SnapshotState, now: int) {
    s.toNextSnapshot <= 0 || now - s.lastSnapshotTs >= MAX_SECS_BETWEEN_SNAPSHOTS_ISSUED * 1000
  }

  function DueIds(m: States, now: int): seq<string> {
    if m == [] then []
    else
      var rest, s := DueIds(m[..|m| - 1], now), m[|m| - 1];
      if Due(s, now) then rest + [s.participantId] else rest
  }

  function Load(o: Operator): States {
    if o.saved.Some? then PutAll(o.memory, o.saved.value) else o.memory
  }

  function Noted(m: States, id: string, topic: Topic, now: int): States {
    match Lookup(m, id)
    case None => Put(m, SnapshotState(id, MAX_STATE_EVENTS_UNTIL_SNAPSHOTS_ISSUED, 0))
    case Some(s) =>
      Put(m, if topic == SnapshotEvents
             then s.(toNextSnapshot := MAX_STATE_EVENTS_UNTIL_SNAPSHOTS_ISSUED, lastSnapshotTs := now)
             else s.(toNextSnapshot := s.toNextSnapshot - 1))
  }

  function Step(o: Operator, h: Occurrence): Operator {
    match h
    case Restart => o.(memory := Load(o.(memory := [])))
    case Message(None, _, _) => o
    case Message(Some(id), SnapshotOperatorCommands, now) =>
      var m := Load(o);
      Operator(m, Some(m), o.scheduled + DueIds(m, now))
    case Message(Some(id), topic, now) =>
      var m := Noted(o.memory, id, topic, now);
      Operator(m, Some(m), o.scheduled)
  }

  function After(h: seq<Occurrence>): Operator {
    if h == [] then NEW_OPERATOR else Step(After(h[..|h| - 1]), h[|h| - 1])
  }

  /** The operator as the code runs it. */
  class ParticipantSnapshotOperator {
    var snapshotStates: States
    var saved: Option<States>
    var scheduled: seq<string>

    ghost function State(): Operator
      reads this
    {
      Operator(snapshotStates, saved, scheduled)
    }

    /** A first start, or a restart over what an earlier operator saved. */
    constructor (before: Operator)
      ensures State() == Step(before, Restart)
    {
      snapshotStates, saved, scheduled := [], before.saved, before.scheduled;
      new;
      LoadState();
    }

    method LoadState()
      modifies this
      ensures State() == old(State()).(memory := Load(old(State())))
      ensures forall id :: saved.Some? && UniqueIds(saved.value) ==>
                Lookup(snapshotStates, id) ==
                if Lookup(saved.value, id).Some? then Lookup(saved.value, id) else Lookup(old(snapshotStates), id)
    {
      if saved.Some? && UniqueIds(saved.value) {
        forall id ensures Lookup(PutAll(snapshotStates, saved.value), id) ==
          if Lookup(saved.value, id).Some? then Lookup(saved.value, id) else Lookup(snapshotStates, id)
        {
          PutAllLookup(snapshotStates, saved.value, id);
        }
      }
      if saved.Some? {
        ghost var m := snapshotStates;
        for i := 0 to |saved.value|
          invariant saved == old(saved) && scheduled == old(scheduled)
          invariant snapshotStates == PutAll(m, saved.value[..i])
        {
          assert saved.value[..i + 1][..i] == saved.value[..i];
          snapshotStates := Put(snapshotStates, saved.value[i]);
        }
        assert saved.value[..|saved.value|] == saved.value;
      }
    }

    method UpdateState()
      modifies this
      ensures State() == old(State()).(saved := Some(old(snapshotStates)))
    {
      saved := Some(snapshotStates);
    }

    method Execute(now: int)
      modifies this
      ensures var m := Load(old(State()));
        State() == old(State()).(memory := m, scheduled := old(scheduled) + DueIds(m, now))
    {
      LoadState();
      if |snapshotStates| == 0 { return; }
      var snapshotCmds: seq<string> := [];
      for i := 0 to |snapshotStates|
        invariant snapshotCmds == DueIds(snapshotStates[..i], now)
      {
        assert snapshotStates[..i + 1][..i] == snapshotStates[..i];
        var state := snapshotStates[i];
        if state.toNextSnapshot <= 0 || now - state.lastSnapshotTs >= MAX_SECS_BETWEEN_SNAPSHOTS_ISSUED * 1000 {
          snapshotCmds := snapshotCmds + [state.participantId];
        }
      }
      assert snapshotStates[..|snapshotStates|] == snapshotStates;
      if |snapshotCmds| == 0 { return; }
      scheduled := scheduled + snapshotCmds;
    }

    method MessageHandler(aggregateId: Option<string>, topic: Topic, now: int)
      modifies this
      ensures State() == Step(old(State()), Message(aggregateId, topic, now))
    {
      if aggregateId.None? { return; }
      var participantId := aggregateId.value;
      var state := Lookup(snapshotStates, participantId);
      if topic == SnapshotOperatorCommands {
        Execute(now);
      } else if state.None? {
        snapshotStates :=
          Put(snapshotStates, SnapshotState(participantId, MAX_STATE_EVENTS_UNTIL_SNAPSHOTS_ISSUED, 0));
      } else if topic == SnapshotEvents {
        snapshotStates := Put(snapshotStates, state.value.(
          toNextSnapshot := MAX_STATE_EVENTS_UNTIL_SNAPSHOTS_ISSUED, lastSnapshotTs := now));
      } else {
        snapshotStates := Put(snapshotStates, state.value.(toNextSnapshot := state.value.toNextSnapshot - 1));
      }
      UpdateState();
    }
  }

  // ---------- what the history says ----------

  /** A state event or a snapshot of the participant. */
  predicate Mentions(h: Occurrence, id: string) {
    h.Message? && h.aggregateId == Some(id) && h.topic != SnapshotOperatorCommands
  }

  predicate SeenBefore(h: seq<Occurrence>, n: nat, id: string)
    requires n <= |h|
  {
    exists i :: 0 <= i < n && Mentions(h[i], id)
  }

  predicate IsSnapshot(h: Occurrence, id: string) {
    Mentions(h, id) && h.topic == SnapshotEvents
  }

  /** Where the count starts: the later of the first sighting and the last snapshot after it. */
  ghost predicate CountsFrom(h: seq<Occurrence>, id: string, k: nat) {
    && k < |h| && Mentions(h[k], id)
    && (SeenBefore(h, k, id) ==> IsSnapshot(h[k], id))
    && forall j :: k < j < |h| ==> !IsSnapshot(h[j], id)
  }

  function StateEventsIn(h: seq<Occurrence>, id: string): nat {
    if h == [] then 0
    else
      var last := h[|h| - 1];
      StateEventsIn(h[..|h| - 1], id) + if Mentions(last, id) && last.topic == StateEvents then 1 else 0
  }

  /** What the history says about a participant, given where its count starts. */
  function Reckoned(h: seq<Occurrence>, id: string, k: nat): SnapshotState
    requires k < |h| && Mentions(h[k], id)
  {
    SnapshotState(id, 10_000 - StateEventsIn(h[k + 1..], id),
                  if SeenBefore(h, k, id) then h[k].now else 0)
  }

  // ---------- maps ----------

  lemma PutLookup(m: States, s: SnapshotState, id: string)
    ensures Lookup(Put(m, s), id) == if id == s.participantId then Some(s) else Lookup(m, id)
  {
    FindUnique(m, s.participantId, Find(m, s.participantId));
    var t, i := Put(m, s), Find(m, id);
    if id == s.participantId {
      FindUnique(t, id, i);
    } else if i < |m| {
      FindUnique(t, id, i);
    } else {
      assert forall j :: 0 <= j < |t| ==> t[j].participantId != id;
    }
  }

  /** What is loaded over a memory: saved entries override those in memory. */
  lemma {:induction false} PutAllLookup(m: States, saved: States, id: string)
    requires UniqueIds(saved)
    ensures Lookup(PutAll(m, saved), id) == if Lookup(saved, id).Some? then Lookup(saved, id) else Lookup(m, id)
  {
    if saved == [] {
    } else {
      var init, last := saved[..|saved| - 1], saved[|saved| - 1];
      PutAllLookup(m, init, id);
      PutLookup(PutAll(m, init), last, id);
      if last.participantId == id {
        FindUnique(saved, id, |saved| - 1);
      } else if Lookup(init, id).Some? {
        FindUnique(saved, id, Find(init, id));
      } else {
        NothingIn(init, id);
        NothingIn(saved, id);
      }
    }
  }

  lemma FindUnique(m: States, id: string, i: nat)
    requires i <= |m| && (i < |m| ==> m[i].participantId == id)
    requires forall j :: 0 <= j < i ==> m[j].participantId != id
    ensures Find(m, id) == i
  {
  }

  lemma NothingIn(m: States, id: string)
    ensures Lookup(m, id).None? <==> forall j :: 0 <= j < |m| ==> m[j].participantId != id
  {
  }

  /** Loading what is already there changes nothing. */
  lemma {:induction false} LoadAgain(saved: States, k: nat)
    requires UniqueIds(saved) && k <= |saved|
    ensures PutAll(saved, saved[..k]) == saved
  {
    if k == 0 {
    } else {
      LoadAgain(saved, k - 1);
      assert saved[..k][..k - 1] == saved[..k - 1];
      FindUnique(saved, saved[k - 1].participantId, k - 1);
    }
  }

  /** Loading into nothing gives what was saved. */
  lemma {:induction false} LoadAfresh(saved: States, k: nat)
    requires UniqueIds(saved) && k <= |saved|
    ensures PutAll([], saved[..k]) == saved[..k]
  {
    if k == 0 {
    } else {
      LoadAfresh(saved, k - 1);
      assert saved[..k][..k - 1] == saved[..k - 1];
      FindUnique(saved[..k - 1], saved[k - 1].participantId, k - 1);
    }
  }

  // ---------- over every history ----------

  /** What is saved is what is in memory, so that loading it, into that memory or afresh, gives the same again. */
  ghost predicate InStep(o: Operator) {
    && UniqueIds(o.memory) && (o.saved == Some(o.memory) || (o.saved.None? && o.memory == []))
    && Load(o) == o.memory && Load(o.(memory := [])) == o.memory
  }

  lemma NotedUnique(m: States, id: string, topic: Topic, now: int)
    requires UniqueIds(m)
    ensures UniqueIds(Noted(m, id, topic, now))
  {
  }

  lemma SavedInStep(m: States, scheduled: seq<string>)
    requires UniqueIds(m)
    ensures InStep(Operator(m, Some(m), scheduled))
  {
    assert m[..|m|] == m;
    LoadAgain(m, |m|);
    LoadAfresh(m, |m|);
  }

  lemma StepInStep(o: Operator, h: Occurrence)
    requires InStep(o)
    ensures InStep(Step(o, h))
  {
    hide Noted, DueIds, PutAll;
    if h.Message? && h.aggregateId.Some? {
      if h.topic == SnapshotOperatorCommands {
        SavedInStep(o.memory, o.scheduled + DueIds(o.memory, h.now));
      } else {
        NotedUnique(o.memory, h.aggregateId.value, h.topic, h.now);
        SavedInStep(Noted(o.memory, h.aggregateId.value, h.topic, h.now), o.scheduled);
      }
    }
  }

  /** After every message the saved state is the memory; before the first one there is neither. */
  lemma {:induction false} SavedIsMemory(h: seq<Occurrence>)
    ensures InStep(After(h))
  {
    hide Step;
    if h == [] {
    } else {
      SavedIsMemory(h[..|h| - 1]);
      StepInStep(After(h[..|h| - 1]), h[|h| - 1]);
    }
  }

  /** A restart between any two messages changes nothing. */
  lemma RestartChangesNothing(h: seq<Occurrence>)
    ensures Step(After(h), Restart) == After(h)
  {
    SavedIsMemory(h);
  }

  /** One step, as one participant sees it. */
  function Followed(s: Option<SnapshotState>, h: Occurrence, id: string): Option<SnapshotState> {
    if !Mentions(h, id) then s
    else if s.None? then Some(SnapshotState(id, MAX_STATE_EVENTS_UNTIL_SNAPSHOTS_ISSUED, 0))
    else if h.topic == SnapshotEvents then Some(SnapshotState(id, MAX_STATE_EVENTS_UNTIL_SNAPSHOTS_ISSUED, h.now))
    else Some(s.value.(toNextSnapshot := s.value.toNextSnapshot - 1))
  }

  lemma NotedLookup(o: Operator, h: Occurrence, id: string)
    requires InStep(o)
    ensures Lookup(Step(o, h).memory, id) == Followed(Lookup(o.memory, id), h, id)
  {
    if h.Message? && h.aggregateId.Some? && h.topic != SnapshotOperatorCommands {
      var other := h.aggregateId.value;
      var s := Lookup(o.memory, other);
      if s.None? {
        PutLookup(o.memory, SnapshotState(other, MAX_STATE_EVENTS_UNTIL_SNAPSHOTS_ISSUED, 0), id);
      } else if h.topic == SnapshotEvents {
        PutLookup(o.memory, SnapshotState(other, MAX_STATE_EVENTS_UNTIL_SNAPSHOTS_ISSUED, h.now), id);
      } else {
        PutLookup(o.memory, s.value.(toNextSnapshot := s.value.toNextSnapshot - 1), id);
      }
    }
  }

  /** What the operator holds for a participant is what the history says: nothing before the first sighting. */
  ghost predicate Told(h: seq<Occurrence>, id: string, s: Option<SnapshotState>) {
    if SeenBefore(h, |h|, id) then exists k: nat :: CountsFrom(h, id, k) && s == Some(Reckoned(h, id, k)) else s.None?
  }

  lemma ToldStep(h: seq<Occurrence>, id: string, s: Option<SnapshotState>)
    requires h != [] && Told(h[..|h| - 1], id, s)
    ensures Told(h, id, Followed(s, h[|h| - 1], id))
  {
    var n := |h| - 1;
    var init := h[..n];
    assert forall i :: 0 <= i < n ==> init[i] == h[i];
    assert SeenBefore(h, |h|, id) <==> SeenBefore(init, n, id) || Mentions(h[n], id);
    if SeenBefore(init, n, id) && !IsSnapshot(h[n], id) {
      var k: nat :| CountsFrom(init, id, k) && s == Some(Reckoned(init, id, k));
      KeepsCounting(h, id, k);
    } else if Mentions(h[n], id) {
      assert h[n + 1..] == [];
      assert CountsFrom(h, id, n);
    }
  }

  /** For every history: the operator knows exactly the participants it has seen, each with the maximum less the
    * state events since the later of first sighting and last snapshot, and with the time of that snapshot. */
  lemma {:induction false} CounterIsHistory(h: seq<Occurrence>, id: string)
    ensures Told(h, id, Lookup(After(h).memory, id))
  {
    if h == [] {
      NothingIn([], id);
    } else {
      hide Step, Lookup, Told, Followed;
      var init := h[..|h| - 1];
      CounterIsHistory(init, id);
      SavedIsMemory(init);
      NotedLookup(After(init), h[|h| - 1], id);
      ToldStep(h, id, Lookup(After(init).memory, id));
    }
  }

  /** Unless the last message is a snapshot, the count goes on from where it started. */
  lemma KeepsCounting(h: seq<Occurrence>, id: string, k: nat)
    requires h != [] && CountsFrom(h[..|h| - 1], id, k) && !IsSnapshot(h[|h| - 1], id)
    ensures CountsFrom(h, id, k)
    ensures var before := Reckoned(h[..|h| - 1], id, k);
      Reckoned(h, id, k) == if Mentions(h[|h| - 1], id)
                            then before.(toNextSnapshot := before.toNextSnapshot - 1) else before
  {
    assert h[..|h| - 1][..k] == h[..k];
    assert h[k + 1..][..|h| - 2 - k] == h[..|h| - 1][k + 1..];
  }

  /** The due participants keep the order of the map. */
  lemma {:induction false} DueInOrder(m: States, now: int)
    requires UniqueIds(m)
    ensures forall a, b :: 0 <= a < b < |DueIds(m, now)| ==> Find(m, DueIds(m, now)[a]) < Find(m, DueIds(m, now)[b])
  {
    if m == [] {
    } else {
      var init, last := m[..|m| - 1], m[|m| - 1];
      DueInOrder(init, now);
      DueExactly(init, now);
      FindUnique(m, last.participantId, |m| - 1);
      forall id | id in DueIds(init, now) ensures Find(m, id) == Find(init, id) < |init| {
        var i :| 0 <= i < |init| && init[i].participantId == id;
        FindUnique(m, id, Find(init, id));
      }
    }
  }

  /** An execute step publishes each due participant once, and no other. */
  lemma {:induction false} DueExactly(m: States, now: int)
    requires UniqueIds(m)
    ensures Distinct(DueIds(m, now))
    ensures forall id :: id in DueIds(m, now) <==>
                         exists i :: 0 <= i < |m| && m[i].participantId == id && Due(m[i], now)
  {
    if m == [] {
    } else {
      DueExactly(m[..|m| - 1], now);
      assert m[|m| - 1].participantId !in DueIds(m[..|m| - 1], now);
    }
  }

  /** Ten thousand state events have passed since the count started, or the last snapshot is an hour old. */
  predicate CountedOut(h: seq<Occurrence>, id: string, k: nat, now: int)
    requires k < |h| && Mentions(h[k], id)
  {
    || StateEventsIn(h[k + 1..], id) >= 10_000
    || now - (if SeenBefore(h, k, id) then h[k].now else 0) >= 3_600_000
  }

  /** For every history, executing schedules a participant, once, exactly when it has been seen and has counted
    * out. */
  lemma ScheduledExactly(h: seq<Occurrence>, now: int, id: string, key: string)
    ensures var t := Step(After(h), Message(Some(key), SnapshotOperatorCommands, now));
      exists ids :: t.scheduled == After(h).scheduled + ids && Distinct(ids)
        && (id in ids <==> exists k: nat :: CountsFrom(h, id, k) && CountedOut(h, id, k, now))
  {
    hide DueIds, CountsFrom, CountedOut;
    var m := After(h).memory;
    SavedIsMemory(h);
    CounterIsHistory(h, id);
    DueExactly(m, now);
    DueIsCountedOut(m, h, now, id);
    assert Step(After(h), Message(Some(key), SnapshotOperatorCommands, now)).scheduled
           == After(h).scheduled + DueIds(m, now);
  }

  lemma DueIsCountedOut(m: States, h: seq<Occurrence>, now: int, id: string)
    requires UniqueIds(m)
    requires Told(h, id, Lookup(m, id))
    ensures id in DueIds(m, now) <==> exists k: nat :: CountsFrom(h, id, k) && CountedOut(h, id, k, now)
  {
    hide DueIds;
    DueExactly(m, now);
    DueAt(m, now, id);
    forall k: nat, l: nat | CountsFrom(h, id, k) && CountsFrom(h, id, l) ensures k == l {
      StartIsUnique(h, id, k, l);
    }
  }

  lemma DueAt(m: States, now: int, id: string)
    requires UniqueIds(m)
    ensures id in DueIds(m, now) <==> Lookup(m, id).Some? && Due(Lookup(m, id).value, now)
  {
  }

  lemma StartIsUnique(h: seq<Occurrence>, id: string, k: nat, l: nat)
    requires CountsFrom(h, id, k) && CountsFrom(h, id, l)
    ensures k == l
  {
  }

  /** Once the clock is past one hour, a participant that never had a snapshot is scheduled by every execute step. */
  lemma NeverSnapshottedIsDue(h: seq<Occurrence>, now: int, id: string)
    requires SeenBefore(h, |h|, id) && now >= MAX_SECS_BETWEEN_SNAPSHOTS_ISSUED * 1000
    requires forall i :: 0 <= i < |h| && SeenBefore(h, i, id) ==> !IsSnapshot(h[i], id)
    ensures id in DueIds(After(h).memory, now)
  {
    CounterIsHistory(h, id);
    var k: nat :| CountsFrom(h, id, k) && Lookup(After(h).memory, id) == Some(Reckoned(h, id, k));
    SavedIsMemory(h);
    DueAt(After(h).memory, now, id);
  }
}
