/** The event-sourcing repository: fetching the messages of one aggregate out of a partitioned topic, and loading a
  * snapshot with the state events to replay over it. */
module EventStore {
  import opened Common
  import opened Participants
  import opened EventSourcing
  import opened Recovery

  // ---------- topics ----------

  datatype Value<M> = Absent | Garbled | Parsed(message: M)

  datatype Record<M> = Record(key: Option<string>, value: Value<M>)

  type Log<M> = seq<Record<M>>

  /** The log of each partition; a record's offset is its index. */
  type Topic<M> = seq<Log<M>>

  /** The consumer sees records of several partitions in any order that keeps the order within each. */
  type Stream<M> = seq<(nat, Record<M>)>

  function OfPartition<M>(stream: Stream<M>, p: nat): Log<M> {
    if stream == [] then []
    else
      var init, last := OfPartition(stream[..|stream| - 1], p), stream[|stream| - 1];
      if last.0 == p then init + [last.1] else init
  }

  function Drop<T>(s: seq<T>, n: nat): seq<T> {
    if n <= |s| then s[n..] else []
  }

  function Take<T>(s: seq<T>, n: nat): seq<T> {
    if n <= |s| then s[..n] else s
  }

  /** Any partition, or this one. */
  predicate Assigned(partition: int, p: nat) {
    partition == -1 || partition == p
  }

  ghost predicate Delivers<M>(topic: Topic<M>, partition: int, offset: nat, stream: Stream<M>) {
    && (forall i :: 0 <= i < |stream| ==> stream[i].0 < |topic| && Assigned(partition, stream[i].0))
    && forall p :: 0 <= p < |topic| && Assigned(partition, p) ==> OfPartition(stream, p) == Drop(topic[p], offset)
  }

  /** The messages under the key: a record without key or value is skipped, and so is one that does not parse. */
  predicate Wanted<M>(r: Record<M>, key: string) {
    r.key == Some(key) && r.value.Parsed?
  }

  function Matching<M>(log: Log<M>, key: string): seq<M> {
    if log == [] then []
    else
      var init, last := Matching(log[..|log| - 1], key), log[|log| - 1];
      if Wanted(last, key) then init + [last.value.message] else init
  }

  /** All messages under the key are in one partition, where the producer's partitioner puts them. */
  ghost predicate Home<M>(topic: Topic<M>, key: string, home: nat) {
    home < |topic| && forall p, i :: 0 <= p < |topic| && 0 <= i < |topic[p]| && Wanted(topic[p][i], key) ==> p == home
  }

  // ---------- the fetcher ----------

  /** What a fetch returns. */
  function Fetched<M>(topic: Topic<M>, home: nat, key: string, partition: int, offset: nat, justOne: bool): seq<M>
    requires home < |topic|
  {
    var all := if Assigned(partition, home) then Matching(Drop(topic[home], offset), key) else [];
    if justOne then Take(all, 1) else all
  }

  function Records<M>(stream: Stream<M>): Log<M> {
    seq(|stream|, i requires 0 <= i < |stream| => stream[i].1)
  }

  lemma {:induction false} FromHome<M>(stream: Stream<M>, key: string, home: nat)
    requires forall i :: 0 <= i < |stream| && Wanted(stream[i].1, key) ==> stream[i].0 == home
    ensures Matching(Records(stream), key) == Matching(OfPartition(stream, home), key)
  {
    if stream == [] {
    } else {
      var init := stream[..|stream| - 1];
      FromHome(init, key, home);
      assert Records(stream)[..|stream| - 1] == Records(init);
      var of := OfPartition(init, home);
      assert (of + [stream[|stream| - 1].1])[..|of|] == of;
    }
  }

  lemma {:induction false} OfPartitionHas<M>(stream: Stream<M>, i: nat)
    requires i < |stream|
    ensures stream[i].1 in OfPartition(stream, stream[i].0)
  {
    if i < |stream| - 1 {
      OfPartitionHas(stream[..|stream| - 1], i);
    }
  }

  lemma WantedAtHome<M>(topic: Topic<M>, key: string, home: nat, partition: int, offset: nat, stream: Stream<M>)
    requires Home(topic, key, home) && Delivers(topic, partition, offset, stream)
    ensures forall i :: 0 <= i < |stream| && Wanted(stream[i].1, key) ==> stream[i].0 == home
  {
    forall i | 0 <= i < |stream| && Wanted(stream[i].1, key) ensures stream[i].0 == home {
      OfPartitionHas(stream, i);
      var log := topic[stream[i].0];
      var j :| 0 <= j < |Drop(log, offset)| && Drop(log, offset)[j] == stream[i].1;
      assert log[offset + j] == stream[i].1;
    }
  }

  /** However the partitions interleave, filtering by key gives the home partition's messages in order, or nothing
    * when another partition was asked for. */
  lemma AnyInterleaving<M>(topic: Topic<M>, key: string, home: nat, partition: int, offset: nat, stream: Stream<M>)
    requires Home(topic, key, home) && Delivers(topic, partition, offset, stream)
    ensures Matching(Records(stream), key) == Fetched(topic, home, key, partition, offset, false)
  {
    WantedAtHome(topic, key, home, partition, offset, stream);
    FromHome(stream, key, home);
    if !Assigned(partition, home) {
      NoneOf(stream, home);
    }
  }

  lemma {:induction false} NoneOf<M>(stream: Stream<M>, p: nat)
    requires forall i :: 0 <= i < |stream| ==> stream[i].0 != p
    ensures OfPartition(stream, p) == []
  {
    if stream == [] {
    } else {
      NoneOf(stream[..|stream| - 1], p);
    }
  }

  function At<M>(p: nat, log: Log<M>): Stream<M> {
    seq(|log|, i requires 0 <= i < |log| => (p, log[i]))
  }

  lemma {:induction false} OfPartitionAppend<M>(stream: Stream<M>, p: nat, log: Log<M>, q: nat)
    ensures OfPartition(stream + At(p, log), q) ==
            if q == p then OfPartition(stream, q) + log else OfPartition(stream, q)
  {
    if log == [] {
      assert stream + At(p, log) == stream;
    } else {
      var init := log[..|log| - 1];
      OfPartitionAppend(stream, p, init, q);
      assert (stream + At(p, log))[..|stream| + |init|] == stream + At(p, init);
    }
  }

  /** One of the orders in which the broker may deliver. */
  method Deliver<M>(topic: Topic<M>, partition: int, offset: nat) returns (stream: Stream<M>)
    ensures Delivers(topic, partition, offset, stream)
  {
    stream := [];
    for p := 0 to |topic|
      invariant forall i :: 0 <= i < |stream| ==> stream[i].0 < p && Assigned(partition, stream[i].0)
      invariant forall q :: 0 <= q < p && Assigned(partition, q) ==> OfPartition(stream, q) == Drop(topic[q], offset)
    {
      if partition == -1 || partition == p {
        var log := Drop(topic[p], offset);
        NoneOf(stream, p);
        forall q | 0 <= q <= p ensures OfPartition(stream + At(p, log), q) ==
          if q == p then OfPartition(stream, q) + log else OfPartition(stream, q)
        {
          OfPartitionAppend(stream, p, log, q);
        }
        stream := stream + At(p, log);
      }
    }
  }

  /** After so many records, the broker answers with an error or with an empty batch. */
  datatype Faults = Faults(error: Option<nat>, emptyBatch: Option<nat>)

  const NO_FAULTS := Faults(None, None)

  /** What arrives before the first empty batch. */
  function Arrived<M>(stream: Stream<M>, faults: Faults): Stream<M> {
    if faults.emptyBatch.Some? then Take(stream, faults.emptyBatch.value) else stream
  }

  /** None of the first n records is under the key. */
  ghost predicate NoneWanted<M>(stream: Stream<M>, n: nat, key: string) {
    forall i :: 0 <= i < n && i < |stream| ==> !Wanted(stream[i].1, key)
  }

  /** The error ends the fetch: no empty batch came before it, nor a match if one is wanted. */
  ghost predicate ErrorEnds<M>(stream: Stream<M>, key: string, justOne: bool, faults: Faults) {
    faults.error.Some? &&
      var e := faults.error.value;
      && e <= |stream| && (faults.emptyBatch.Some? ==> e <= faults.emptyBatch.value)
      && (justOne ==> NoneWanted(stream, e, key))
  }

  lemma {:induction false} MatchingNone<M>(stream: Stream<M>, n: nat, key: string)
    requires n <= |stream|
    ensures Matching(Records(stream[..n]), key) == [] <==> NoneWanted(stream, n, key)
  {
    if n == 0 {
    } else {
      MatchingNone(stream, n - 1, key);
      assert Records(stream[..n])[..n - 1] == Records(stream[..n - 1]);
    }
  }

  /** The consume loop: keep what matches, each with the partition it came from; stop at the first match if only one
    * is wanted, or when nothing more comes.  An empty batch is taken for the end, an error gives up what was kept. */
  method Consume<M>(stream: Stream<M>, key: string, justOne: bool, faults: Faults, ghost home: nat)
    returns (retMsgs: seq<M>, partitions: seq<nat>)
    requires forall i :: 0 <= i < |stream| && Wanted(stream[i].1, key) ==> stream[i].0 == home
    ensures ErrorEnds(stream, key, justOne, faults) ==> retMsgs == []
    ensures !ErrorEnds(stream, key, justOne, faults) ==>
              var all := Matching(Records(Arrived(stream, faults)), key);
              retMsgs == if justOne then Take(all, 1) else all
    ensures |partitions| == |retMsgs| && forall k :: 0 <= k < |partitions| ==> partitions[k] == home
  {
    ghost var records := Records(Arrived(stream, faults));
    retMsgs, partitions := [], [];
    var i := 0;
    while i < |stream| && faults.emptyBatch != Some(i)
      invariant i <= |records|
      invariant retMsgs == Matching(records[..i], key)
      invariant |partitions| == |retMsgs| && forall k :: 0 <= k < |partitions| ==> partitions[k] == home
      invariant justOne ==> retMsgs == []
      invariant faults.error.Some? ==> i <= faults.error.value
    {
      assert Records(stream[..i]) == records[..i];
      MatchingNone(stream, i, key);
      if faults.error == Some(i) {
        return [], [];
      }
      var message := stream[i].1;
      MatchingStep(records, i, key);
      if message.key == Some(key) && message.value.Parsed? {
        retMsgs, partitions := retMsgs + [message.value.message], partitions + [stream[i].0];
        if justOne && |retMsgs| == 1 {
          MatchingPrefix(records, i + 1, key);
          assert Wanted(stream[i].1, key);
          return;
        }
      }
      i := i + 1;
    }
    assert Records(stream[..i]) == records[..i] == records;
    MatchingNone(stream, i, key);
    if faults.error == Some(i) {
      return [], [];
    }
  }

  /** Whatever order the broker delivers in, a fetch returns what it is specified to; or only the first few of it, those
    * that came before an empty batch; or nothing, on an error before its end. */
  method Fetcher<M>(topic: Topic<M>, key: string, partition: int, firstOffset: nat, justOne: bool, faults: Faults,
                    ghost home: nat)
    returns (retMsgs: seq<M>, partitions: seq<nat>, ghost stream: Stream<M>)
    requires Home(topic, key, home)
    ensures Delivers(topic, partition, firstOffset, stream)
    ensures retMsgs == [] <==>
            ErrorEnds(stream, key, justOne, faults) || NoneWanted(stream, |Arrived(stream, faults)|, key)
    ensures !ErrorEnds(stream, key, justOne, faults) ==>
              var all := Matching(Records(Arrived(stream, faults)), key);
              retMsgs == if justOne then Take(all, 1) else all
    ensures var fetched := Fetched(topic, home, key, partition, firstOffset, justOne);
      retMsgs == Take(fetched, |retMsgs|) && (faults == NO_FAULTS ==> retMsgs == fetched)
    ensures |partitions| == |retMsgs| && forall k :: 0 <= k < |partitions| ==> partitions[k] == home
  {
    hide Matching, Records;
    var delivered := Deliver(topic, partition, firstOffset);
    stream := delivered;
    AnyInterleaving(topic, key, home, partition, firstOffset, stream);
    WantedAtHome(topic, key, home, partition, firstOffset, stream);
    ArrivedFirst(stream, faults, key);
    MatchingNone(stream, |Arrived(stream, faults)|, key);
    assert Arrived(stream, faults) == stream[..|Arrived(stream, faults)|];
    retMsgs, partitions := Consume(delivered, key, justOne, faults, home);
  }

  lemma ArrivedFirst<M>(stream: Stream<M>, faults: Faults, key: string)
    ensures Matching(Records(Arrived(stream, faults)), key) <= Matching(Records(stream), key)
  {
    var n := |Arrived(stream, faults)|;
    assert Records(Arrived(stream, faults)) == Records(stream)[..n];
    MatchingPrefix(Records(stream), n, key);
  }

  lemma MatchingStep<M>(log: Log<M>, i: nat, key: string)
    requires i < |log|
    ensures Matching(log[..i + 1], key) ==
            Matching(log[..i], key) + if Wanted(log[i], key) then [log[i].value.message] else []
  {
    assert log[..i + 1][..i] == log[..i];
  }

  lemma {:induction false} MatchingSplit<M>(a: Log<M>, b: Log<M>, key: string)
    ensures Matching(a + b, key) == Matching(a, key) + Matching(b, key)
  {
    if b == [] {
      assert a + b == a;
    } else {
      MatchingSplit(a, b[..|b| - 1], key);
      assert (a + b)[..|a + b| - 1] == a + b[..|b| - 1];
    }
  }

  lemma MatchingPrefix<M>(log: Log<M>, i: nat, key: string)
    requires i <= |log|
    ensures Matching(log[..i], key) <= Matching(log, key)
  {
    assert log == log[..i] + log[i..];
    MatchingSplit(log[..i], log[i..], key);
  }

  // ---------- the repository ----------

  /** A participant snapshot message.  Its class never sets the last two fields. */
  datatype Snapshot = Snapshot(participant: Participant, eventsPartition: Option<int>, lastEventOffset: Option<nat>)

  datatype Position = Position(partition: int, offset: nat)

  const ANYWHERE := Position(-1, 0)

  datatype Loaded = Loaded(snapshot: Option<Snapshot>, events: seq<StateEvt>)

  /** Where the search for a snapshot starts. */
  function SnapshotStart(cached: Option<Position>): Position {
    if cached.Some? then cached.value else ANYWHERE
  }

  /** Where the events start: where the snapshot says, with the fetcher's defaults for what it does not say; without
    * a snapshot, wherever the search for one started. */
  function EventsStart(cached: Option<Position>, snapshot: Option<Snapshot>): Position {
    if snapshot.None? then SnapshotStart(cached)
    else
      Position(if snapshot.value.eventsPartition.Some? then snapshot.value.eventsPartition.value else -1,
               if snapshot.value.lastEventOffset.Some? then snapshot.value.lastEventOffset.value else 0)
  }

  function Head<T>(s: seq<T>): Option<T> {
    if s == [] then None else Some(s[0])
  }

  /** The two topics with the home partitions of one aggregate. */
  datatype Topics = Topics(snapshots: Topic<Snapshot>, events: Topic<StateEvt>, snapshotHome: nat, eventsHome: nat)

  ghost predicate Homes(t: Topics, id: string) {
    Home(t.snapshots, id, t.snapshotHome) && Home(t.events, id, t.eventsHome)
  }

  function FoundSnapshot(t: Topics, id: string, cached: Option<Position>): Option<Snapshot>
    requires t.snapshotHome < |t.snapshots|
  {
    var start := SnapshotStart(cached);
    Head(Fetched(t.snapshots, t.snapshotHome, id, start.partition, start.offset, true))
  }

  function EventsFrom(t: Topics, id: string, cached: Option<Position>, snapshot: Option<Snapshot>): seq<StateEvt>
    requires t.eventsHome < |t.events|
  {
    var start := EventsStart(cached, snapshot);
    Fetched(t.events, t.eventsHome, id, start.partition, start.offset, false)
  }

  function LoadState(t: Topics, id: string, cached: Option<Position>): Loaded
    requires t.snapshotHome < |t.snapshots| && t.eventsHome < |t.events|
  {
    var snapshot := FoundSnapshot(t, id, cached);
    Loaded(snapshot, EventsFrom(t, id, cached, snapshot))
  }

  /** The same when the fetch of the snapshot may find nothing, and the fetch of the events reads so many of them. */
  function LoadPartly(t: Topics, id: string, cached: Option<Position>, snapshotLost: bool, read: nat): Loaded
    requires t.snapshotHome < |t.snapshots| && t.eventsHome < |t.events|
  {
    var snapshot := if snapshotLost then None else FoundSnapshot(t, id, cached);
    Loaded(snapshot, Take(EventsFrom(t, id, cached, snapshot), read))
  }

  /** The first snapshot from the cached position on, or of all of them. */
  lemma SnapshotIsFrom(t: Topics, id: string, cached: Option<Position>)
    requires t.snapshotHome < |t.snapshots|
    ensures var log := t.snapshots[t.snapshotHome];
      var seen := match cached
        case None => log
        case Some(at) =>
          if at.partition != -1 && at.partition != t.snapshotHome then []
          else if at.offset <= |log| then log[at.offset..] else [];
      var all := Matching(seen, id);
      FoundSnapshot(t, id, cached) == if all == [] then None else Some(all[0])
  {
    assert t.snapshots[t.snapshotHome][0..] == t.snapshots[t.snapshotHome];
  }

  /** The events from where the snapshot says, or from the first one in any partition for what it does not say; without
    * a snapshot those from the position that was cached for its search. */
  lemma EventsAreFrom(t: Topics, id: string, cached: Option<Position>, snapshot: Option<Snapshot>)
    requires t.eventsHome < |t.events|
    ensures var log := t.events[t.eventsHome];
      var from := match (snapshot, cached)
        case (Some(m), _) => (m.eventsPartition, m.lastEventOffset)
        case (None, Some(at)) => (Some(at.partition), Some(at.offset))
        case (None, None) => (None, None);
      var seen :=
        if from.0.Some? && from.0.value != -1 && from.0.value != t.eventsHome then []
        else if from.1.None? then log
        else if from.1.value <= |log| then log[from.1.value..] else [];
      EventsFrom(t, id, cached, snapshot) == Matching(seen, id)
  {
    assert t.events[t.eventsHome][0..] == t.events[t.eventsHome];
  }

  /** What a load notes in the offset cache for a snapshot that it found. */
  function Noted(t: Topics): Position {
    Position(t.snapshotHome, 0)
  }

  class EventSourcingStateRepo {
    var offsets: map<string, Position>
    var pending: seq<(string, Position)>    // writes of offsets, for later turns of the event loop
    var snapshots: Topic<Snapshot>
    var events: Topic<StateEvt>

    constructor (offsets: map<string, Position>, snapshots: Topic<Snapshot>, events: Topic<StateEvt>)
      ensures this.offsets == offsets && pending == [] && this.snapshots == snapshots && this.events == events
    {
      this.offsets, this.pending, this.snapshots, this.events := offsets, [], snapshots, events;
    }

    /** What the topics hold, but for what the broker's faults keep from it.  A snapshot that was found without a cached
      * offset is to be noted with its partition, and with no offset, which the fetcher never sets. */
    method Load(id: string, snapshotFaults: Faults, eventFaults: Faults, ghost t: Topics)
      returns (state: Loaded, ghost snapshotLost: bool, ghost read: nat,
               ghost snapshotStream: Stream<Snapshot>, ghost eventStream: Stream<StateEvt>)
      requires t.snapshots == snapshots && t.events == events && Homes(t, id)
      modifies this`pending
      ensures var cached := Get(offsets, id);
        && state == LoadPartly(t, id, cached, snapshotLost, read)
        && Delivers(snapshots, SnapshotStart(cached).partition, SnapshotStart(cached).offset, snapshotStream)
        && (snapshotLost <==> ErrorEnds(snapshotStream, id, true, snapshotFaults)
                              || NoneWanted(snapshotStream, |Arrived(snapshotStream, snapshotFaults)|, id))
        && Delivers(events, EventsStart(cached, state.snapshot).partition, EventsStart(cached, state.snapshot).offset,
                    eventStream)
        && (!ErrorEnds(eventStream, id, false, eventFaults) ==>
              state.events == Matching(Records(Arrived(eventStream, eventFaults)), id))
        && (read == 0 <==> ErrorEnds(eventStream, id, false, eventFaults)
                           || NoneWanted(eventStream, |Arrived(eventStream, eventFaults)|, id))
        && (snapshotFaults == NO_FAULTS == eventFaults ==> state == LoadState(t, id, cached))
        && pending == old(pending) + if cached.None? && state.snapshot.Some? then [(id, Noted(t))] else []
    {
      var snapshotOffsets := Get(offsets, id);
      var partition, offset := -1, 0;
      if snapshotOffsets.Some? {
        partition, offset := snapshotOffsets.value.partition, snapshotOffsets.value.offset;
      }
      var found, foundIn, delivered := Fetcher(snapshots, id, partition, offset, true, snapshotFaults, t.snapshotHome);
      snapshotLost, snapshotStream := |found| == 0, delivered;
      var snapshot := None;
      if |found| > 0 {
        snapshot := Some(found[0]);
        partition := if found[0].eventsPartition.Some? then found[0].eventsPartition.value else -1;
        offset := if found[0].lastEventOffset.Some? then found[0].lastEventOffset.value else 0;
      }
      var fetched, _, deliveredEvents := Fetcher(events, id, partition, offset, false, eventFaults, t.eventsHome);
      read, eventStream := |fetched|, deliveredEvents;
      if snapshotOffsets.None? && snapshot.Some? {
        pending := pending + [(id, Position(foundIn[0], 0))];
      }
      state := Loaded(snapshot, fetched);
    }

    /** A later turn: one of the writes is done. */
    method NextTick(i: nat)
      requires i < |pending|
      modifies this`pending, this`offsets
      ensures offsets == old(offsets)[old(pending)[i].0 := old(pending)[i].1]
      ensures pending == old(pending)[..i] + old(pending)[i + 1..]
    {
      offsets := offsets[pending[i].0 := pending[i].1];
      pending := pending[..i] + pending[i + 1..];
    }
  }

  /** The aggregate's load when the cache has nothing: an empty entity, the snapshot, then the events. */
  function Rebuild(id: string, l: Loaded): Result<Option<Participant>, ReplayError> {
    if l.snapshot.None? && l.events == [] then Success(None)
    else
      var blank := Some(Participant(id, "", [], [], None));
      Replay(if l.snapshot.Some? then Some(l.snapshot.value.participant) else blank, l.events)
  }

  // ---------- what is loaded ----------

  /** The topics hold what a participants service published for the participant. */
  ghost predicate Holds(t: Topics, s: ParticipantService, id: string) {
    && Homes(t, id)
    && Matching(t.events[t.eventsHome], id) == LogOf(s.log, id)
    && forall m :: m in Matching(t.snapshots[t.snapshotHome], id) ==>
                     SnapshotState(m.participant) in s.snapshots && m.participant.id == id
  }

  /** The number of this participant's events before the offset. */
  function EventsBefore(t: Topics, id: string, offset: nat): nat
    requires t.eventsHome < |t.events|
  {
    |Matching(Take(t.events[t.eventsHome], offset), id)|
  }

  /** Where a found snapshot says the events start, none is missing that it does not include. */
  ghost predicate StartsInTime(t: Topics, id: string, m: Snapshot)
    requires t.eventsHome < |t.events|
  {
    var start := EventsStart(None, Some(m));
    && Assigned(start.partition, t.eventsHome)
    && forall k: nat :: LogShape(Matching(t.events[t.eventsHome], id), id)
                        && Reaches(Matching(t.events[t.eventsHome], id), k, m.participant) ==>
                          EventsBefore(t, id, start.offset) <= k
  }

  lemma FetchedSuffix(t: Topics, id: string, start: Position)
    requires t.eventsHome < |t.events| && Assigned(start.partition, t.eventsHome)
    ensures var es := Matching(t.events[t.eventsHome], id);
      EventsBefore(t, id, start.offset) <= |es|
      && Fetched(t.events, t.eventsHome, id, start.partition, start.offset, false)
         == es[EventsBefore(t, id, start.offset)..]
  {
    var log := t.events[t.eventsHome];
    assert log == Take(log, start.offset) + Drop(log, start.offset);
    MatchingSplit(Take(log, start.offset), Drop(log, start.offset), id);
  }

  lemma {:induction false} MatchingHas<M>(log: Log<M>, n: nat, key: string, m: M)
    requires m in Matching(Drop(log, n), key)
    ensures m in Matching(log, key)
  {
    assert log == Take(log, n) + Drop(log, n);
    MatchingSplit(Take(log, n), Drop(log, n), key);
  }

  /** A found snapshot and the events that follow give the stored participant, whichever snapshot it is. */
  lemma SnapshotRecovers(t: Topics, s: ParticipantService, id: string, cached: Option<Position>)
    requires Holds(t, s, id) && Logged(s, id) && id in s.store && UniquePositions(s.store[id])
    requires FoundSnapshot(t, id, cached).Some? && StartsInTime(t, id, FoundSnapshot(t, id, cached).value)
    ensures Rebuild(id, LoadState(t, id, cached)) == Success(Some(s.store[id]))
  {
    var m := FoundSnapshot(t, id, cached).value;
    MatchingHas(t.snapshots[t.snapshotHome], SnapshotStart(cached).offset, id, m);
    assert StateKey(SnapshotState(m.participant)) == id;
    var es := LogOf(s.log, id);
    assert SnapshotOk(es, id, SnapshotState(m.participant));
    var k: nat :| Reaches(es, k, m.participant);
    var start := EventsStart(cached, Some(m));
    FetchedSuffix(t, id, start);
    FromPrefix(es, id, k, EventsBefore(t, id, start.offset), m.participant, s.store[id]);
  }

  /** Without a snapshot the events alone are right exactly when none of them was skipped. */
  lemma EventsRecover(t: Topics, s: ParticipantService, id: string, cached: Option<Position>)
    requires Holds(t, s, id) && Logged(s, id) && id in s.store && UniquePositions(s.store[id])
    ensures var start := SnapshotStart(cached);
      Rebuild(id, Loaded(None, EventsFrom(t, id, cached, None))) == Success(Some(s.store[id])) <==>
      Assigned(start.partition, t.eventsHome) && EventsBefore(t, id, start.offset) == 0
  {
    var start, es := SnapshotStart(cached), LogOf(s.log, id);
    if Assigned(start.partition, t.eventsHome) {
      FetchedSuffix(t, id, start);
      var j := EventsBefore(t, id, start.offset);
      if j == 0 {
        assert es[0..] == es;
        WholeLogFrom(es, id, s.store[id], Some(Participant(id, "", [], [], None)));
      } else if es[j..] != [] {
        assert es[j] == es[1..][j - 1];
        NoAccountToChange(Participant(id, "", [], [], None), es[j..]);
      }
    }
  }

  lemma {:induction false} NoAccountToChange(blank: Participant, es: seq<StateEvt>)
    requires es != [] && es[0].PositionChanged? && blank.accounts == []
    ensures Replay(Some(blank), es).Failure?
  {
    if |es| == 1 {
      assert es[..0] == [];
      assert Replay(Some(blank), es[..0]) == Success(Some(blank));
    } else {
      NoAccountToChange(blank, es[..|es| - 1]);
    }
  }

  /** After any run of the service, loading from the event store gives the stored participant exactly when a snapshot
    * was found or no event was skipped.  Events are skipped when the offset cache still points into the snapshot
    * topic and no snapshot is found there any more: that position is then used on the events topic. */
  lemma LoadRecoversExactly(requests: seq<Request>, t: Topics, id: string, cached: Option<Position>)
    requires Holds(t, RunService(requests), id)
    requires id in RunService(requests).store && UniquePositions(RunService(requests).store[id])
    requires FoundSnapshot(t, id, cached).Some? ==> StartsInTime(t, id, FoundSnapshot(t, id, cached).value)
    ensures var start := SnapshotStart(cached);
      Rebuild(id, LoadState(t, id, cached)) == Success(Some(RunService(requests).store[id])) <==>
      || FoundSnapshot(t, id, cached).Some?
      || (Assigned(start.partition, t.eventsHome) && EventsBefore(t, id, start.offset) == 0)
  {
    AlwaysLogged(requests, id);
    if FoundSnapshot(t, id, cached).Some? {
      SnapshotRecovers(t, RunService(requests), id, cached);
    } else {
      EventsRecover(t, RunService(requests), id, cached);
    }
  }

  /** With the offsets that loads themselves note: right exactly when a snapshot was found, or nothing was noted, or
    * the aggregate has the same partition in both topics. */
  lemma NotedOffsetsRecoverExactly(requests: seq<Request>, t: Topics, id: string, cached: Option<Position>)
    requires Holds(t, RunService(requests), id)
    requires id in RunService(requests).store && UniquePositions(RunService(requests).store[id])
    requires FoundSnapshot(t, id, cached).Some? ==> StartsInTime(t, id, FoundSnapshot(t, id, cached).value)
    requires cached.None? || cached == Some(Noted(t))
    ensures Rebuild(id, LoadState(t, id, cached)) == Success(Some(RunService(requests).store[id])) <==>
            FoundSnapshot(t, id, cached).Some? || cached.None? || t.snapshotHome == t.eventsHome
  {
    hide RunService, FoundSnapshot, Rebuild, LoadState;
    LoadRecoversExactly(requests, t, id, cached);
  }

  /** A participant whose one event is skipped: its snapshot, noted before, is gone, and its events are in another
    * partition. */
  lemma CachedOffsetSkipsCreation(p: Participant)
    ensures var t := Topics([[], []], [[], [Record(Some(p.id), Parsed(CreatedState(p)))]], 0, 1);
      && Home(t.snapshots, p.id, 0) && Home(t.events, p.id, 1)
      && LoadState(t, p.id, None) == Loaded(None, [CreatedState(p)])
      && LoadState(t, p.id, Some(Noted(t))) == Loaded(None, [])
  {
    var log := [Record(Some(p.id), Parsed(CreatedState(p)))];
    assert log[..0] == [] && Drop(log, 0) == log;
    assert Matching(log, p.id) == [CreatedState(p)];
  }

  /** A snapshot whose class leaves both fields unset is in time, and so is every start without a cached offset. */
  lemma UnsetFieldsStartInTime(t: Topics, id: string, m: Snapshot)
    requires t.eventsHome < |t.events| && m.eventsPartition.None? && m.lastEventOffset.None?
    ensures StartsInTime(t, id, m)
    ensures Assigned(ANYWHERE.partition, t.eventsHome) && EventsBefore(t, id, ANYWHERE.offset) == 0
  {
  }
}
