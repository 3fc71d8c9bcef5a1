/** The aggregate and the event-sourcing repository as objects, together with the topics that both use. */
module ParticipantsDeployment {
  import opened Common
  import opened Participants
  import opened Recovery
  import opened EventStore
  import opened LossyCache
  import opened EventSourcedRuns
  import opened ParticipantRepos
  import opened ParticipantsAggregate

  /** Objects and machine are in the same state. */
  ghost predicate In(agg: ParticpantsAgg, esRepo: EventSourcingStateRepo, n: Node)
    reads agg, agg.repo, esRepo
  {
    && agg.View() == n.service && esRepo.offsets == n.offsets && esRepo.pending == n.pending
    && esRepo.snapshots == n.snapshots && esRepo.events == n.events
  }

  lemma CacheHitIgnores(c: ParticipantService, cmd: Cmd, a: Loaded, b: Loaded)
    requires Key(cmd) in c.store
    ensures CachedStep(c, Command(cmd, a)) == CachedStep(c, Command(cmd, b))
  {
    hide Continue;
  }

  /** The load of the event store, which only happens when the cache has nothing. */
  method LoadIfNeeded(agg: ParticpantsAgg, esRepo: EventSourcingStateRepo, u: Setup, ghost n: Node, cmd: Cmd)
    returns (es: Loaded)
    requires agg.repo.Valid() && In(agg, esRepo, n) && Shaped(u, n) && Stored(u, n, Key(cmd))
    modifies esRepo`pending
    ensures In(agg, esRepo, Note(u, n, Key(cmd)))
    ensures CachedStep(n.service, Command(cmd, es)) == CachedStep(n.service, Command(cmd, Answer(u, n, Key(cmd))))
  {
    hide CachedStep, LoadState;
    es := Loaded(None, []);
    var cached := agg.repo.Load(Key(cmd));
    if cached == null {
      var loaded, _, _, _, _ := esRepo.Load(Key(cmd), NO_FAULTS, NO_FAULTS, TopicsFor(u, n, Key(cmd)));
      es := loaded;
    } else {
      CacheHitIgnores(n.service, cmd, es, Answer(u, n, Key(cmd)));
    }
  }

  /** The event store is asked if need be, the aggregate handles the command, and what it publishes goes to the
    * topics. */
  method HandleCommand(agg: ParticpantsAgg, esRepo: EventSourcingStateRepo, u: Setup, ghost n: Node, cmd: Cmd)
    requires agg.repo.Valid() && In(agg, esRepo, n) && Shaped(u, n) && Stored(u, n, Key(cmd))
    modifies agg, agg.repo, agg.repo.Footprint(), esRepo
    ensures agg.repo.Valid() && fresh(agg.repo.Footprint() - old(agg.repo.Footprint()))
    ensures In(agg, esRepo, Exec(u, n, Handle(cmd)))
  {
    hide CachedStep, Answer, Stored, Note, Publish;
    var es := LoadIfNeeded(agg, esRepo, u, n, cmd);
    NoteKeepsTopics(u, n, Key(cmd));
    RunAndPublish(agg, esRepo, u, Note(u, n, Key(cmd)), Command(cmd, es));
  }

  method RunAndPublish(agg: ParticpantsAgg, esRepo: EventSourcingStateRepo, u: Setup, ghost n: Node, op: CacheOp)
    requires agg.repo.Valid() && In(agg, esRepo, n) && Shaped(u, n)
    modifies agg, agg.repo, agg.repo.Footprint(), esRepo
    ensures agg.repo.Valid() && fresh(agg.repo.Footprint() - old(agg.repo.Footprint()))
    ensures In(agg, esRepo, Publish(u, n, CachedStep(n.service, op)))
  {
    hide CachedStep, WithEvents, WithSnapshots;
    var log, snapshots := agg.log, agg.snapshots;
    agg.Run(op);
    esRepo.events := WithEvents(u, esRepo.events, log, agg.log);
    esRepo.snapshots := WithSnapshots(u, esRepo.snapshots, snapshots, agg.snapshots);
  }

  lemma NoteKeepsTopics(u: Setup, n: Node, id: string)
    requires Shaped(u, n)
    ensures var r := Note(u, n, id);
      r.service == n.service && r.events == n.events && r.snapshots == n.snapshots
  {
    hide Answer;
  }

  method Perform(agg: ParticpantsAgg, esRepo: EventSourcingStateRepo, u: Setup, ghost steps: seq<Step>, step: Step)
    requires agg.repo.Valid() && In(agg, esRepo, EventSourcedRuns.Run(u, steps))
    modifies agg, agg.repo, agg.repo.Footprint(), esRepo
    ensures agg.repo.Valid() && fresh(agg.repo.Footprint() - old(agg.repo.Footprint()))
    ensures In(agg, esRepo, Exec(u, EventSourcedRuns.Run(u, steps), step))
  {
    hide EventSourcedRuns.Run, Stored, CachedStep, Publish, Note;
    match step
    case Handle(cmd) =>
      AlwaysStored(u, steps, Key(cmd));
      HandleCommand(agg, esRepo, u, EventSourcedRuns.Run(u, steps), cmd);
    case Lose(id) => agg.Run(Evict(id));
    case NextTick(i) => if i < |esRepo.pending| { esRepo.NextTick(i); }
    case LoseOffset(id) => esRepo.offsets := esRepo.offsets - {id};
  }

  /** The aggregate over its own event store, whatever the caches lose: it publishes what a service that forgets nothing
    * does, and caches what that stores, given the same commands with some counterparties not shown; and given them with
    * all counterparties shown, exactly when no command met a lost one that it needed. */
  method Serve(byReference: bool, u: Setup, steps: seq<Step>)
    returns (agg: ParticpantsAgg, esRepo: EventSourcingStateRepo, ghost served: seq<Request>,
             ghost requests: seq<Request>)
    requires ReloadsUnique(u, steps)
    ensures agg.repo.byReference == byReference && In(agg, esRepo, EventSourcedRuns.Run(u, steps))
    ensures Refines(agg.View(), RunService(served)) && Serves(served, CommandsOf(OpsOf(u, steps)))
    ensures var ops := OpsOf(u, steps);
      && RunService(requests) == PlainRun(ops) && Serves(requests, CommandsOf(ops)) && AllShown(requests)
      && (Shadows(agg.View(), RunService(requests)) <==> NoneMissed(ops))
  {
    hide Refines, Shadows, Serves, AllShown, NoneMissed, Exec, ReloadsUnique;
    var repo := new ParticipantStateRepo(byReference);
    agg := new ParticpantsAgg(repo);
    var start := Start(u);
    esRepo := new EventSourcingStateRepo(start.offsets, start.snapshots, start.events);
    for i := 0 to |steps|
      invariant fresh(agg) && fresh(repo) && agg.repo == repo && fresh(repo.Footprint()) && repo.Valid()
      invariant fresh(esRepo) && In(agg, esRepo, EventSourcedRuns.Run(u, steps[..i]))
    {
      assert steps[..i + 1][..i] == steps[..i];
      Perform(agg, esRepo, u, steps[..i], steps[i]);
    }
    assert steps[..|steps|] == steps;
    served := RunIsService(u, steps);
    LossesShow(u, steps);
    requests := PlainRunIsService(OpsOf(u, steps));
  }
}
