/** The participants service over its own event store: every load that the cache cannot serve reads the topics to which
  * the service published before, from the offsets that earlier loads noted. */
module EventSourcedRuns {
  import opened Common
  import opened Participants
  import opened EventSourcing
  import opened Recovery
  import opened EventStore
  import opened LossyCache

  // ---------- the machine ----------

  type Positive = n: nat | n > 0 witness 1

  /** The producer's partitioner: all messages of one key go into one of so many partitions. */
  datatype Partitioner = Partitioner(count: Positive, hash: string -> nat)

  function HomeOf(p: Partitioner, key: string): (home: nat)
    ensures home < p.count
  {
    p.hash(key) % p.count
  }

  datatype Setup = Setup(snapshots: Partitioner, events: Partitioner)

  /** The cache and what was published, the offset cache with the writes to it that are still to come, and the
    * topics. */
  datatype Node = Node(
    service: ParticipantService, offsets: map<string, Position>, pending: seq<(string, Position)>,
    snapshots: Topic<Snapshot>, events: Topic<StateEvt>)

  /** A command; the cache loses an entry; a write to the offset cache is done; the offset cache loses an entry. */
  datatype Step =
    | Handle(cmd: Cmd)
    | Lose(id: string)
    | NextTick(i: nat)
    | LoseOffset(id: string)

  function Start(u: Setup): Node {
    Node(NO_PARTICIPANTS, map[], [],
         seq(u.snapshots.count, _ => []), seq(u.events.count, _ => []))
  }

  ghost predicate Shaped(u: Setup, n: Node) {
    |n.snapshots| == u.snapshots.count && |n.events| == u.events.count
  }

  function TopicsFor(u: Setup, n: Node, id: string): Topics {
    Topics(n.snapshots, n.events, HomeOf(u.snapshots, id), HomeOf(u.events, id))
  }

  /** What the event store answers. */
  function Answer(u: Setup, n: Node, id: string): Loaded
    requires Shaped(u, n)
  {
    LoadState(TopicsFor(u, n, id), id, Get(n.offsets, id))
  }

  function Append<M>(topic: Topic<M>, home: nat, key: string, m: M): Topic<M>
    requires home < |topic|
  {
    topic[home := topic[home] + [Record(Some(key), Parsed(m))]]
  }

  /** A state event that the command brought goes to its topic. */
  function WithEvents(u: Setup, topic: Topic<StateEvt>, before: seq<StateEvt>, log: seq<StateEvt>): Topic<StateEvt>
    requires |topic| == u.events.count
  {
    if |log| <= |before| then topic
    else
      var e := log[|log| - 1];
      Append(topic, HomeOf(u.events, StateKey(e)), StateKey(e), e)
  }

  /** A snapshot goes to its own, and leaves its offset fields unset. */
  function WithSnapshots(u: Setup, topic: Topic<Snapshot>, before: seq<StateEvt>, snapshots: seq<StateEvt>)
    : Topic<Snapshot>
    requires |topic| == u.snapshots.count
  {
    if |snapshots| <= |before| || !snapshots[|snapshots| - 1].SnapshotState? then topic
    else
      var m := snapshots[|snapshots| - 1];
      Append(topic, HomeOf(u.snapshots, StateKey(m)), StateKey(m), Snapshot(m.participant, None, None))
  }

  function Publish(u: Setup, n: Node, c: ParticipantService): Node
    requires Shaped(u, n)
  {
    n.(service := c,
       events := WithEvents(u, n.events, n.service.log, c.log),
       snapshots := WithSnapshots(u, n.snapshots, n.service.snapshots, c.snapshots))
  }

  /** A load of a participant that is not cached notes the partition of a snapshot that it found by no noted offset. */
  function Note(u: Setup, n: Node, id: string): Node
    requires Shaped(u, n)
  {
    if id !in n.service.store && id !in n.offsets && Answer(u, n, id).snapshot.Some?
    then n.(pending := n.pending + [(id, Noted(TopicsFor(u, n, id)))])
    else n
  }

  function Exec(u: Setup, n: Node, step: Step): (r: Node)
    requires Shaped(u, n)
    ensures Shaped(u, r)
  {
    match step
    case Handle(cmd) =>
      Publish(u, Note(u, n, Key(cmd)), CachedStep(n.service, Command(cmd, Answer(u, n, Key(cmd)))))
    case Lose(id) => n.(service := CachedStep(n.service, Evict(id)))
    case NextTick(i) =>
      if i < |n.pending|
      then n.(offsets := n.offsets[n.pending[i].0 := n.pending[i].1], pending := n.pending[..i] + n.pending[i + 1..])
      else n
    case LoseOffset(id) => n.(offsets := n.offsets - {id})
  }

  function Run(u: Setup, steps: seq<Step>): (n: Node)
    ensures Shaped(u, n)
  {
    if steps == [] then Start(u) else Exec(u, Run(u, steps[..|steps| - 1]), steps[|steps| - 1])
  }

  /** The run as the cache sees it, with the answers that the event store gave. */
  function OpsOf(u: Setup, steps: seq<Step>): seq<CacheOp> {
    if steps == [] then []
    else
      var init, step := steps[..|steps| - 1], steps[|steps| - 1];
      OpsOf(u, init) +
      match step
      case Handle(cmd) => [Command(cmd, Answer(u, Run(u, init), Key(cmd)))]
      case Lose(id) => [Evict(id)]
      case _ => []
  }

  // ---------- the invariant ----------

  /** The events topic holds the participant's state events. */
  ghost predicate EventsStored(u: Setup, n: Node, id: string)
    requires Shaped(u, n)
  {
    var home := HomeOf(u.events, id);
    Home(n.events, id, home) && Matching(n.events[home], id) == LogOf(n.service.log, id)
  }

  /** The snapshots topic holds snapshots that went out, which leave their offset fields unset; and what is or will be
    * noted of the participant is the partition of a snapshot that is there. */
  ghost predicate SnapshotsStored(u: Setup, n: Node, id: string)
    requires Shaped(u, n)
  {
    var home := HomeOf(u.snapshots, id);
    var found := Matching(n.snapshots[home], id);
    && Home(n.snapshots, id, home)
    && (forall m :: m in found ==>
          && SnapshotState(m.participant) in n.service.snapshots && m.participant.id == id
          && m.eventsPartition.None? && m.lastEventOffset.None?)
    && (id in n.offsets ==> n.offsets[id] == Position(home, 0) && found != [])
    && (forall i :: 0 <= i < |n.pending| && n.pending[i].0 == id ==>
          n.pending[i].1 == Position(home, 0) && found != [])
  }

  ghost predicate Stored(u: Setup, n: Node, id: string)
    requires Shaped(u, n)
  {
    EventsStored(u, n, id) && SnapshotsStored(u, n, id)
  }

  lemma {:induction false} AppendMatches<M>(topic: Topic<M>, home: nat, key: string, m: M, p: nat, id: string)
    requires home < |topic| && p < |topic|
    ensures Matching(Append(topic, home, key, m)[p], id) ==
            Matching(topic[p], id) + (if p == home && key == id then [m] else [])
  {
    if p == home {
      var r := Record(Some(key), Parsed(m));
      assert (topic[p] + [r])[..|topic[p]|] == topic[p];
    }
  }

  lemma AppendKeepsHome<M>(topic: Topic<M>, home: nat, key: string, m: M, id: string, p: nat)
    requires home < |topic| && Home(topic, id, p) && (key == id ==> p == home)
    ensures Home(Append(topic, home, key, m), id, p)
  {
  }

  /** What a command adds to what was published: a state event or a snapshot at most. */
  lemma StepAppends(c: ParticipantService, cmd: Cmd, es: Loaded)
    ensures var d := CachedStep(c, Command(cmd, es));
      && (d.log == c.log || exists e :: d.log == c.log + [e])
      && (d.snapshots == c.snapshots || exists m :: d.snapshots == c.snapshots + [m] && m.SnapshotState?)
  {
    hide Rebuild, TryReserve, TryCommit;
  }

  lemma PublishesEvent(u: Setup, n: Node, c: ParticipantService, id: string)
    requires Shaped(u, n) && EventsStored(u, n, id)
    requires c.log == n.service.log || exists e :: c.log == n.service.log + [e]
    ensures EventsStored(u, Publish(u, n, c), id)
  {
    if |c.log| > |n.service.log| {
      var e := c.log[|c.log| - 1];
      var home := HomeOf(u.events, StateKey(e));
      AppendMatches(n.events, home, StateKey(e), e, HomeOf(u.events, id), id);
      AppendKeepsHome(n.events, home, StateKey(e), e, id, HomeOf(u.events, id));
      assert c.log == n.service.log + [e];
      LogOfAppend(n.service.log, e, id);
    }
  }

  lemma PublishesSnapshot(u: Setup, n: Node, c: ParticipantService, id: string)
    requires Shaped(u, n) && SnapshotsStored(u, n, id)
    requires || c.snapshots == n.service.snapshots
             || exists m :: c.snapshots == n.service.snapshots + [m] && m.SnapshotState?
    ensures SnapshotsStored(u, Publish(u, n, c), id)
  {
    if |c.snapshots| > |n.service.snapshots| {
      var m := c.snapshots[|c.snapshots| - 1];
      var home, message := HomeOf(u.snapshots, StateKey(m)), Snapshot(m.participant, None, None);
      AppendMatches(n.snapshots, home, StateKey(m), message, HomeOf(u.snapshots, id), id);
      AppendKeepsHome(n.snapshots, home, StateKey(m), message, id, HomeOf(u.snapshots, id));
    }
  }

  lemma NoteKeeps(u: Setup, n: Node, key: string, id: string)
    requires Shaped(u, n) && Stored(u, n, id)
    ensures Stored(u, Note(u, n, key), id)
  {
    var t := TopicsFor(u, n, id);
    if key == id && Answer(u, n, id).snapshot.Some? && id !in n.offsets {
      MatchingHas(t.snapshots[t.snapshotHome], 0, id, FoundSnapshot(t, id, None).value);
    }
  }

  /** So the repository always loads everything that counts. */
  lemma StoredCanServe(u: Setup, n: Node, id: string)
    requires Shaped(u, n) && Stored(u, n, id)
    ensures CanServe(TopicsFor(u, n, id), Get(n.offsets, id), n.service, id)
  {
    var t, cached := TopicsFor(u, n, id), Get(n.offsets, id);
    var m := FoundSnapshot(t, id, cached);
    if m.Some? {
      MatchingHas(t.snapshots[t.snapshotHome], SnapshotStart(cached).offset, id, m.value);
      UnsetFieldsStartInTime(t, id, m.value);
    }
    if cached.Some? {
      var log := t.snapshots[t.snapshotHome];
      assert Drop(log, 0) == log;
    }
  }

  lemma StartStored(u: Setup, id: string)
    ensures Stored(u, Start(u), id)
  {
  }

  lemma {:induction false} StoredStep(u: Setup, n: Node, step: Step, id: string)
    requires Shaped(u, n) && Stored(u, n, id)
    ensures Stored(u, Exec(u, n, step), id)
  {
    match step
    case Handle(cmd) =>
      var es := Answer(u, n, Key(cmd));
      StepAppends(n.service, cmd, es);
      NoteKeeps(u, n, Key(cmd), id);
      PublishesEvent(u, Note(u, n, Key(cmd)), CachedStep(n.service, Command(cmd, es)), id);
      PublishesSnapshot(u, Note(u, n, Key(cmd)), CachedStep(n.service, Command(cmd, es)), id);
    case _ =>
  }

  // ---------- every run ----------

  /** The topics, and the offset cache at whatever moment its writes are done, serve every participant in every run. */
  lemma {:induction false} AlwaysStored(u: Setup, steps: seq<Step>, id: string)
    ensures Stored(u, Run(u, steps), id)
  {
    hide Stored, Exec;
    if steps == [] {
      StartStored(u, id);
    } else {
      AlwaysStored(u, steps[..|steps| - 1], id);
      StoredStep(u, Run(u, steps[..|steps| - 1]), steps[|steps| - 1], id);
    }
  }

  /** Participants that have to be loaded again were created with one POSITION account per currency. */
  ghost predicate ReloadsUnique(u: Setup, steps: seq<Step>) {
    forall k :: 0 <= k < |steps| && steps[k].Handle? ==>
      var c := Run(u, steps[..k]).service;
      Key(steps[k].cmd) !in c.store ==> CreatedUnique(c, Key(steps[k].cmd))
  }

  /** Every participant that is created has one POSITION account per currency. */
  ghost predicate CreatesUnique(steps: seq<Step>) {
    forall step :: step in steps && step.Handle? && step.cmd.CreateParticipant? ==>
      UniquePositions(step.cmd.participant)
  }

  lemma {:induction false} LogOfIn(log: seq<StateEvt>, id: string)
    ensures forall e :: e in LogOf(log, id) ==> e in log
  {
    if log == [] {
    } else {
      LogOfIn(log[..|log| - 1], id);
    }
  }

  lemma CreationLogged(c: ParticipantService, cmd: Cmd, es: Loaded, e: StateEvt)
    requires e in CachedStep(c, Command(cmd, es)).log && e !in c.log && e.CreatedState?
    ensures cmd == CreateParticipant(e.participant)
  {
    hide Rebuild, TryReserve, TryCommit;
  }

  lemma {:induction false} LoggedUnique(u: Setup, steps: seq<Step>, e: StateEvt)
    requires CreatesUnique(steps) && e in Run(u, steps).service.log && e.CreatedState?
    ensures UniquePositions(e.participant)
  {
    hide Exec, CachedStep, UniquePositions;
    if steps == [] {
    } else {
      var init, step := steps[..|steps| - 1], steps[|steps| - 1];
      var n := Run(u, init);
      ExecService(u, n, step);
      if e in n.service.log {
        LoggedUnique(u, init, e);
      } else if step.Lose? {
        EvictionKeepsLog(n.service, step.id);
      } else {
        CreationLogged(n.service, step.cmd, Answer(u, n, Key(step.cmd)), e);
      }
    }
  }

  lemma EvictionKeepsLog(c: ParticipantService, id: string)
    ensures CachedStep(c, Evict(id)).log == c.log
  {
  }

  lemma {:induction false} UniqueCreationsSuffice(u: Setup, steps: seq<Step>)
    requires CreatesUnique(steps)
    ensures ReloadsUnique(u, steps)
  {
    hide Run, UniquePositions, LogOf;
    forall k | 0 <= k < |steps| && steps[k].Handle?
      ensures CreatedUnique(Run(u, steps[..k]).service, Key(steps[k].cmd))
    {
      var c := Run(u, steps[..k]).service;
      var es := LogOf(c.log, Key(steps[k].cmd));
      LogOfIn(c.log, Key(steps[k].cmd));
      if es != [] && es[0].CreatedState? {
        LoggedUnique(u, steps[..k], es[0]);
      }
    }
  }

  lemma AllFetchedAppend(ops: seq<CacheOp>, op: CacheOp)
    requires AllFetched(ops) && FetchedWhole(CachedRun(ops), op)
    ensures AllFetched(ops + [op])
    ensures CachedRun(ops + [op]) == CachedStep(CachedRun(ops), op)
  {
    hide FetchedWhole, CachedStep;
    var more := ops + [op];
    assert more[..|ops|] == ops;
    assert forall n :: 0 <= n < |ops| ==> more[..n] == ops[..n] && more[n] == ops[n];
  }

  lemma AnswerIsWhole(u: Setup, steps: seq<Step>, cmd: Cmd)
    requires var c := Run(u, steps).service; Key(cmd) !in c.store ==> CreatedUnique(c, Key(cmd))
    ensures FetchedWhole(Run(u, steps).service, Command(cmd, Answer(u, Run(u, steps), Key(cmd))))
  {
    hide Run, Stored, CreatedUnique, LoadState;
    var n := Run(u, steps);
    AlwaysStored(u, steps, Key(cmd));
    StoredCanServe(u, n, Key(cmd));
  }

  /** In every run each load is fetched whole. */
  lemma {:induction false} RunFetches(u: Setup, steps: seq<Step>)
    requires ReloadsUnique(u, steps)
    ensures AllFetched(OpsOf(u, steps)) && Run(u, steps).service == CachedRun(OpsOf(u, steps))
  {
    hide AllFetched, FetchedWhole, CachedStep, CachedRun, CreatedUnique, Answer, Exec;
    if steps == [] {
      NothingFetched();
    } else {
      var init, step := steps[..|steps| - 1], steps[|steps| - 1];
      assert forall k :: 0 <= k < |init| ==> init[..k] == steps[..k] && init[k] == steps[k];
      RunFetches(u, init);
      ExecService(u, Run(u, init), step);
      match step
      case Handle(cmd) =>
        AnswerIsWhole(u, init, cmd);
        AllFetchedAppend(OpsOf(u, init), Command(cmd, Answer(u, Run(u, init), Key(cmd))));
      case Lose(id) =>
        EvictionFetches(CachedRun(OpsOf(u, init)), id);
        AllFetchedAppend(OpsOf(u, init), Evict(id));
      case _ => assert OpsOf(u, steps) == OpsOf(u, init);
    }
  }

  lemma ExecService(u: Setup, n: Node, step: Step)
    requires Shaped(u, n)
    ensures Exec(u, n, step).service ==
            match step
            case Handle(cmd) => CachedStep(n.service, Command(cmd, Answer(u, n, Key(cmd))))
            case Lose(id) => CachedStep(n.service, Evict(id))
            case _ => n.service
  {
    hide CachedStep, Answer;
  }

  lemma NothingFetched()
    ensures AllFetched([]) && CachedRun([]) == NO_PARTICIPANTS
  {
  }

  lemma EvictionFetches(c: ParticipantService, id: string)
    ensures FetchedWhole(c, Evict(id))
  {
  }

  /** In every run, whatever the cache and the offset cache lose, and whenever offsets are written: what the service
    * publishes and caches is what the service that forgets nothing publishes and stores, given the same commands with
    * some counterparties not shown; and each participant loads as that service stores it. */
  lemma {:induction false} RunIsService(u: Setup, steps: seq<Step>) returns (requests: seq<Request>)
    requires ReloadsUnique(u, steps)
    ensures Refines(Run(u, steps).service, RunService(requests)) && Serves(requests, CommandsOf(OpsOf(u, steps)))
    ensures forall id :: CreatedUnique(Run(u, steps).service, id) ==>
              LoadedAs(Run(u, steps).service.store, id, Answer(u, Run(u, steps), id))
              == Success(Get(RunService(requests).store, id))
  {
    hide Run, RunService, Answer, LoadedAs, AllFetched, AllOk, CachedRun, CreatedUnique, Refines, Serves, ReloadsUnique;
    RunFetches(u, steps);
    AllFetchedIsOk(OpsOf(u, steps));
    requests := CachedRunIsService(OpsOf(u, steps));
    var n, s := Run(u, steps), RunService(requests);
    forall id | CreatedUnique(n.service, id)
      ensures LoadedAs(n.service.store, id, Answer(u, n, id)) == Success(Get(s.store, id))
    {
      LoadsRight(u, steps, s, id);
    }
  }

  lemma LoadsRight(u: Setup, steps: seq<Step>, s: ParticipantService, id: string)
    requires ReloadsUnique(u, steps) && CreatedUnique(Run(u, steps).service, id)
    requires Refines(Run(u, steps).service, s)
    ensures LoadedAs(Run(u, steps).service.store, id, Answer(u, Run(u, steps), id)) == Success(Get(s.store, id))
  {
    hide Run, LoadedAs, Answer, CreatedUnique, Refines, LoadOk, ReloadsUnique;
    var cmd := SnapshotParticipant(id);
    var op := Command(cmd, Answer(u, Run(u, steps), id));
    RunFetches(u, steps);
    AllFetchedIsOk(OpsOf(u, steps));
    AnswerIsWhole(u, steps, cmd);
    FetchedIsOk(OpsOf(u, steps), op);
    LoadsTheStored(Run(u, steps).service, s, id, op.es);
  }

  /** And losing entries shows exactly when some command met a lost counterparty that it needed. */
  lemma {:induction false} LossesShow(u: Setup, steps: seq<Step>)
    requires ReloadsUnique(u, steps)
    ensures Shadows(Run(u, steps).service, PlainRun(OpsOf(u, steps))) <==> NoneMissed(OpsOf(u, steps))
  {
    hide Run, AllFetched, AllOk, NoneMissed, CachedRun, PlainRun;
    RunFetches(u, steps);
    AllFetchedIsOk(OpsOf(u, steps));
    EvictionsShowExactly(OpsOf(u, steps));
  }
}
