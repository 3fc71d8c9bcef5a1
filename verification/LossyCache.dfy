/** The participants service when its store is only a cache, which may lose entries, over the event store. */
module LossyCache {
  import opened Common
  import opened Participants
  import opened EventSourcing
  import opened Recovery
  import opened EventStore
  import opened PartialLoads

  // ---------- the service over a cache ----------

  /** What the root of a command loads as: from the cache, or else from what the event store answers. */
  function LoadedAs(contents: map<string, Participant>, id: string, es: Loaded)
    : Result<Option<Participant>, ReplayError>
  {
    if id in contents then Success(Some(contents[id])) else Rebuild(id, es)
  }

  /** A command once its root is loaded: what was rebuilt goes into the cache, and a load that throws ends it.  The
    * counterparty is read from the cache alone. */
  function Continue(c: ParticipantService, cmd: Cmd, loaded: Result<Option<Participant>, ReplayError>)
    : ParticipantService
  {
    match loaded
    case Failure(_) => c
    case Success(root) =>
      var d := if root.Some? then c.(store := c.store[root.value.id := root.value]) else c;
      Settle(d, Decide(root, Get(d.store, Counterparty(cmd)), cmd))
  }

  /** A command, with what the event store answers should the cache not have its root; or the cache loses an entry. */
  datatype CacheOp =
    | Command(cmd: Cmd, es: Loaded)
    | Evict(id: string)

  function CachedStep(c: ParticipantService, op: CacheOp): ParticipantService {
    match op
    case Evict(id) => c.(store := c.store - {id})
    case Command(cmd, es) => Continue(c, cmd, LoadedAs(c.store, Key(cmd), es))
  }

  /** The same for a store that forgets nothing. */
  function PlainStep(s: ParticipantService, op: CacheOp): ParticipantService {
    match op
    case Evict(_) => s
    case Command(cmd, _) => HandleParticipant(s, cmd, Get(s.store, Counterparty(cmd)))
  }

  function CachedRun(ops: seq<CacheOp>): ParticipantService {
    if ops == [] then NO_PARTICIPANTS else CachedStep(CachedRun(ops[..|ops| - 1]), ops[|ops| - 1])
  }

  function PlainRun(ops: seq<CacheOp>): ParticipantService {
    if ops == [] then NO_PARTICIPANTS else PlainStep(PlainRun(ops[..|ops| - 1]), ops[|ops| - 1])
  }

  // ---------- what a load needs ----------

  /** The event store's answer, from topics that hold what the service published.  Its fetches may have missed some,
    * but for a participant with a log the answer ends where the log ends. */
  ghost predicate AnsweredFrom(t: Topics, cached: Option<Position>, snapshotLost: bool, read: nat,
                               c: ParticipantService, id: string, es: Loaded)
  {
    var log := LogOf(c.log, id);
    && Holds(t, c, id) && es == LoadPartly(t, id, cached, snapshotLost, read)
    && (log != [] ==> ReplayStart(es).Some? && UpToDate(ReplayStart(es).value, es.events, log))
  }

  /** The participant was created with one POSITION account per currency, if it was created. */
  ghost predicate CreatedUnique(c: ParticipantService, id: string) {
    var es := LogOf(c.log, id);
    es != [] && es[0].CreatedState? ==> UniquePositions(es[0].participant)
  }

  /** A load that the cache cannot serve is answered from topics that hold what the service published, about a
    * participant that was created with one POSITION account per currency. */
  ghost predicate LoadOk(c: ParticipantService, id: string, es: Loaded) {
    id !in c.store ==>
      && CreatedUnique(c, id)
      && exists t, cached, snapshotLost, read :: AnsweredFrom(t, cached, snapshotLost, read, c, id, es)
  }

  ghost predicate OpOk(c: ParticipantService, op: CacheOp) {
    op.Command? ==> LoadOk(c, Key(op.cmd), op.es)
  }

  /** The same events went out, and what is cached is what is stored. */
  ghost predicate Shadows(c: ParticipantService, s: ParticipantService) {
    && c.evts == s.evts && c.log == s.log && c.snapshots == s.snapshots
    && (forall id :: id in c.store ==> id in s.store && c.store[id] == s.store[id])
  }

  ghost predicate Refines(c: ParticipantService, s: ParticipantService) {
    Shadows(c, s) && forall id :: Logged(s, id)
  }

  lemma NothingToLoad(t: Topics, cached: Option<Position>, snapshotLost: bool, read: nat, s: ParticipantService,
                      id: string)
    requires Holds(t, s, id) && Logged(s, id) && id !in s.store
    ensures Rebuild(id, LoadPartly(t, id, cached, snapshotLost, read)) == Success(None)
  {
    var es := Matching(t.events[t.eventsHome], id);
    assert es == [];
    if FoundSnapshot(t, id, cached).Some? {
      MatchingHas(t.snapshots[t.snapshotHome], SnapshotStart(cached).offset, id, FoundSnapshot(t, id, cached).value);
    }
    assert forall m :: m in s.snapshots && StateKey(m) == id ==> SnapshotOk(es, id, m);
    assert FoundSnapshot(t, id, cached).None?;
    var i, j := EventsAreStretch(t, id, cached, None, read);
  }

  /** The root that is loaded is the one that a store which forgets nothing would hold. */
  lemma LoadsTheStored(c: ParticipantService, s: ParticipantService, id: string, es: Loaded)
    requires Refines(c, s) && LoadOk(c, id, es)
    ensures LoadedAs(c.store, id, es) == Success(Get(s.store, id))
  {
    hide Rebuild, LoadPartly, UpToDate, ReplayStart;
    assert Logged(s, id);
    if id !in c.store {
      var t, cached, snapshotLost, read :| AnsweredFrom(t, cached, snapshotLost, read, c, id, es);
      assert Holds(t, s, id);
      if id !in s.store {
        NothingToLoad(t, cached, snapshotLost, read, s, id);
      } else {
        PartlyRecovers(t, s, id, cached, snapshotLost, read);
      }
    }
  }

  // ---------- when a lost counterparty shows ----------

  /** The handler gets as far as needing the counterparty, and something would come of it: for a reserve, the payee
    * has the account; for a commit, the payee has it itself.  A participant that pays itself is named by every refusal
    * but the one over its cap, so it must also get that far: to the cap, or to the payer's account. */
  ghost predicate NeedsCopy(root: Option<Participant>, other: Participant, cmd: Cmd) {
    match cmd
    case ReservePayerFunds(t) =>
      root.Some? && HasPosition(other, t.currency) && (t.payer != t.payee || ChecksCap(root.value, t))
    case CommitPayeeFunds(t) =>
      root.Some? && HasPosition(root.value, t.currency) && (t.payer != t.payee || HasPosition(other, t.currency))
    case _ => false
  }

  /** A command is decided differently with and without the copy of its counterparty exactly when it needs the copy,
    * and then it publishes another event in the same place. */
  lemma MissingCopyShows(root: Option<Participant>, other: Participant, cmd: Cmd)
    ensures Decide(root, None, cmd) != Decide(root, Some(other), cmd) <==> NeedsCopy(root, other, cmd)
    ensures NeedsCopy(root, other, cmd) ==>
              && Decide(root, None, cmd) == Refused(InvalidParticipant(Counterparty(cmd), cmd.terms.id))
              && match Decide(root, Some(other), cmd)
                 case Accepted(_, evts, _) => |evts| == 1 && evts[0] != Decide(root, None, cmd).evt
                 case Refused(evt) => evt != Decide(root, None, cmd).evt
                 case Thrown => false
  {
    hide FindPosition, NetDebitCap, ChecksCap;
    if root.Some? && cmd.ReservePayerFunds? {
      ChecksCapExactly(root.value, cmd.terms);
    }
  }

  /** The counterparty was stored, the cache has lost it, and the command needs it. */
  ghost predicate Missed(c: ParticipantService, s: ParticipantService, op: CacheOp) {
    op.Command? &&
      var key, cp := Key(op.cmd), Counterparty(op.cmd);
      key != cp && cp in s.store && cp !in c.store && NeedsCopy(Get(s.store, key), s.store[cp], op.cmd)
  }

  /** Some event that went out differs. */
  ghost predicate Diverged(c: ParticipantService, s: ParticipantService) {
    exists k :: 0 <= k < |c.evts| && k < |s.evts| && c.evts[k] != s.evts[k]
  }

  lemma EventsGrow(c: ParticipantService, s: ParticipantService, op: CacheOp)
    ensures c.evts <= CachedStep(c, op).evts && s.evts <= PlainStep(s, op).evts
  {
    hide Decide;
  }

  lemma DivergedStays(c: ParticipantService, s: ParticipantService, op: CacheOp)
    requires Diverged(c, s)
    ensures Diverged(CachedStep(c, op), PlainStep(s, op))
  {
    hide CachedStep, PlainStep;
    EventsGrow(c, s, op);
    var k :| 0 <= k < |c.evts| && k < |s.evts| && c.evts[k] != s.evts[k];
    assert CachedStep(c, op).evts[k] == c.evts[k] && PlainStep(s, op).evts[k] == s.evts[k];
  }

  lemma SettleShadows(c: ParticipantService, s: ParticipantService, o: Outcome)
    requires Shadows(c, s)
    ensures Shadows(Settle(c, o), Settle(s, o))
  {
  }

  /** Both steps settle, on the same root, what is decided with and without what the cache lost. */
  lemma CommandSettles(c: ParticipantService, s: ParticipantService, op: CacheOp) returns (d: ParticipantService)
    requires Refines(c, s) && OpOk(c, op) && op.Command?
    ensures Shadows(d, s)
    ensures var root, cp := Get(s.store, Key(op.cmd)), Counterparty(op.cmd);
      && CachedStep(c, op) == Settle(d, Decide(root, Get(d.store, cp), op.cmd))
      && PlainStep(s, op) == Settle(s, Decide(root, Get(s.store, cp), op.cmd))
      && (Get(d.store, cp) == Get(s.store, cp) || (cp != Key(op.cmd) && cp in s.store && cp !in c.store
                                                   && Get(d.store, cp) == None))
      && (cp != Key(op.cmd) ==> Get(d.store, cp) == Get(c.store, cp))
  {
    hide Decide, Settle;
    var key, cp := Key(op.cmd), Counterparty(op.cmd);
    LoadsTheStored(c, s, key, op.es);
    assert Logged(s, key);
    d := if key in s.store then c.(store := c.store[key := s.store[key]]) else c;
  }

  lemma MissDiverges(c: ParticipantService, s: ParticipantService, op: CacheOp)
    requires Refines(c, s) && OpOk(c, op) && Missed(c, s, op)
    ensures Diverged(CachedStep(c, op), PlainStep(s, op))
  {
    hide CachedStep, PlainStep, Decide, OpOk;
    var root, cp := Get(s.store, Key(op.cmd)), Counterparty(op.cmd);
    var d := CommandSettles(c, s, op);
    MissingCopyShows(root, s.store[cp], op.cmd);
    assert CachedStep(c, op).evts[|s.evts|] != PlainStep(s, op).evts[|s.evts|];
  }

  lemma EvictionRefines(c: ParticipantService, s: ParticipantService, op: CacheOp)
    requires Refines(c, s) && op.Evict?
    ensures PlainStep(s, op) == s && Refines(CachedStep(c, op), s)
  {
  }

  /** A service that forgets nothing takes a command along with the same copy of its counterparty, or none. */
  lemma RefinesCommand(c: ParticipantService, s: ParticipantService, op: CacheOp)
    returns (other: Option<Participant>)
    requires Refines(c, s) && OpOk(c, op) && op.Command?
    ensures other == None || other == Get(s.store, Counterparty(op.cmd))
    ensures !Missed(c, s, op) ==> HandleParticipant(s, op.cmd, other) == PlainStep(s, op)
    ensures Refines(CachedStep(c, op), HandleParticipant(s, op.cmd, other))
  {
    hide CachedStep, PlainStep, Decide, Settle, OpOk;
    var root, cp := Get(s.store, Key(op.cmd)), Counterparty(op.cmd);
    var d := CommandSettles(c, s, op);
    other := Get(d.store, cp);
    if other != Get(s.store, cp) {
      MissingCopyShows(root, s.store[cp], op.cmd);
    }
    SettleShadows(d, s, Decide(root, other, op.cmd));
    forall id ensures Logged(HandleParticipant(s, op.cmd, other), id) {
      assert Logged(s, id) && Logged(s, Key(op.cmd));
      LoggedStep(s, op.cmd, other, id);
    }
  }

  // ---------- when the cache is refreshed ----------

  /** The same with the refresh of the cache coming last, on a later turn of the event loop: it then stores the root as
    * the command left it. */
  function ContinueLate(c: ParticipantService, cmd: Cmd, loaded: Result<Option<Participant>, ReplayError>)
    : ParticipantService
  {
    match loaded
    case Failure(_) => c
    case Success(root) =>
      var o := Decide(root, Get(c.store, Counterparty(cmd)), cmd);
      var d := Settle(c, o);
      var left := if o.Accepted? then Some(o.root) else root;
      if root.Some? then d.(store := d.store[left.value.id := left.value]) else d
  }

  lemma OtherDecisionShows(c: ParticipantService, d: ParticipantService, root: Option<Participant>, cmd: Cmd)
    requires c.evts == d.evts && root.Some? && NeedsCopy(root, root.value, cmd)
    ensures Settle(c, Decide(root, None, cmd)).evts != Settle(d, Decide(root, root, cmd)).evts
  {
    hide Decide;
    var a, b := Decide(root, None, cmd), Decide(root, root, cmd);
    MissingCopyShows(root, root.value, cmd);
    assert Settle(c, a).evts[|c.evts|] == a.evt;
    assert Settle(d, b).evts[|c.evts|] != a.evt;
  }

  /** When the refresh comes makes a difference exactly for a participant that pays itself, is not cached, and whose
    * command needs its own copy. */
  lemma RefreshTimingShowsExactly(c: ParticipantService, cmd: Cmd, root: Option<Participant>)
    requires root.Some? ==> root.value.id == Key(cmd)
    requires Key(cmd) in c.store ==> root == Some(c.store[Key(cmd)])
    ensures ContinueLate(c, cmd, Success(root)) == Continue(c, cmd, Success(root)) <==>
            !(Key(cmd) == Counterparty(cmd) && Key(cmd) !in c.store
              && root.Some? && NeedsCopy(root, root.value, cmd))
  {
    var key, cp := Key(cmd), Counterparty(cmd);
    hide Decide, Settle;
    var d := if root.Some? then c.(store := c.store[key := root.value]) else c;
    assert key in c.store ==> d == c;
    AcceptedUnderKey(root, Get(c.store, cp), cmd);
    SettleOver(c, key, root, Decide(root, Get(c.store, cp), cmd));
    if key == cp && key !in c.store {
      if root.Some? {
        MissingCopyShows(root, root.value, cmd);
        if NeedsCopy(root, root.value, cmd) {
          OtherDecisionShows(c, d, root, cmd);
        }
      }
    } else {
      assert Get(d.store, cp) == Get(c.store, cp);
    }
  }

  lemma AcceptedUnderKey(root: Option<Participant>, other: Option<Participant>, cmd: Cmd)
    requires root.Some? ==> root.value.id == Key(cmd)
    ensures Decide(root, other, cmd).Accepted? ==> Decide(root, other, cmd).root.id == Key(cmd)
  {
  }

  lemma SettleOver(c: ParticipantService, key: string, root: Option<Participant>, o: Outcome)
    requires (root.Some? ==> root.value.id == key) && (o.Accepted? ==> o.root.id == key)
    ensures var d := if root.Some? then c.(store := c.store[key := root.value]) else c;
      var left := if o.Accepted? then Some(o.root) else root;
      Settle(d, o) == if root.Some?
                      then Settle(c, o).(store := Settle(c, o).store[key := left.value]) else Settle(c, o)
  {
  }

  // ---------- over every run ----------

  /** No command up to this one met a lost counterparty that it needed. */
  ghost predicate NoneMissed(ops: seq<CacheOp>) {
    forall n :: 0 <= n < |ops| ==> !Missed(CachedRun(ops[..n]), PlainRun(ops[..n]), ops[n])
  }

  ghost predicate AllOk(ops: seq<CacheOp>) {
    forall n :: 0 <= n < |ops| ==> OpOk(CachedRun(ops[..n]), ops[n])
  }

  lemma BeforeLast(ops: seq<CacheOp>)
    requires ops != []
    ensures var init, op := ops[..|ops| - 1], ops[|ops| - 1];
      && (AllOk(ops) <==> AllOk(init) && OpOk(CachedRun(init), op))
      && (NoneMissed(ops) <==> NoneMissed(init) && !Missed(CachedRun(init), PlainRun(init), op))
  {
    hide OpOk, Missed, CachedRun, PlainRun;
    var init := ops[..|ops| - 1];
    assert forall n :: 0 <= n < |init| ==> init[..n] == ops[..n] && init[n] == ops[n];
    assert ops[..|init|] == init;
  }

  lemma {:induction false} RefinesOrDiverged(ops: seq<CacheOp>)
    requires AllOk(ops)
    ensures if NoneMissed(ops) then Refines(CachedRun(ops), PlainRun(ops)) else Diverged(CachedRun(ops), PlainRun(ops))
  {
    hide OpOk, Missed, CachedStep, PlainStep, AllOk, NoneMissed;
    if ops == [] {
      StartRefines();
    } else {
      var init, op := ops[..|ops| - 1], ops[|ops| - 1];
      var c, s := CachedRun(init), PlainRun(init);
      BeforeLast(ops);
      RefinesOrDiverged(init);
      if !NoneMissed(init) {
        DivergedStays(c, s, op);
      } else if Missed(c, s, op) {
        MissDiverges(c, s, op);
      } else if op.Command? {
        var _ := RefinesCommand(c, s, op);
      } else {
        EvictionRefines(c, s, op);
      }
    }
  }

  lemma StartRefines()
    ensures Refines(NO_PARTICIPANTS, NO_PARTICIPANTS) && NoneMissed([])
  {
  }

  /** Losing cache entries shows nowhere - the same events, logs and snapshots go out, and every cached entry is the
    * one that would have been stored - exactly when no command met a lost counterparty that it needed. */
  lemma {:induction false} EvictionsShowExactly(ops: seq<CacheOp>)
    requires AllOk(ops)
    ensures Shadows(CachedRun(ops), PlainRun(ops)) <==> NoneMissed(ops)
  {
    hide AllOk, NoneMissed, CachedRun, PlainRun;
    RefinesOrDiverged(ops);
  }

  /** The commands that are handled. */
  function CommandsOf(ops: seq<CacheOp>): seq<Cmd> {
    if ops == [] then []
    else CommandsOf(ops[..|ops| - 1]) + (if ops[|ops| - 1].Command? then [ops[|ops| - 1].cmd] else [])
  }

  /** Requests for these commands, each shown its counterparty as stored at that moment, or not at all. */
  ghost predicate Serves(requests: seq<Request>, cmds: seq<Cmd>) {
    |requests| == |cmds| && forall k :: 0 <= k < |requests| ==>
      && requests[k].cmd == cmds[k]
      && (requests[k].other == None
          || requests[k].other == Get(RunService(requests[..k]).store, Counterparty(cmds[k])))
  }

  /** Each is shown its counterparty as stored. */
  ghost predicate AllShown(requests: seq<Request>) {
    forall k :: 0 <= k < |requests| ==>
      requests[k].other == Get(RunService(requests[..k]).store, Counterparty(requests[k].cmd))
  }

  lemma ServesOneMore(requests: seq<Request>, cmds: seq<Cmd>, cmd: Cmd, other: Option<Participant>)
    requires Serves(requests, cmds)
    requires other == None || other == Get(RunService(requests).store, Counterparty(cmd))
    ensures Serves(requests + [Request(cmd, other)], cmds + [cmd])
    ensures AllShown(requests) && other == Get(RunService(requests).store, Counterparty(cmd)) ==>
              AllShown(requests + [Request(cmd, other)])
    ensures RunService(requests + [Request(cmd, other)]) == HandleParticipant(RunService(requests), cmd, other)
  {
    hide HandleParticipant;
    var more := requests + [Request(cmd, other)];
    assert more[..|requests|] == requests;
    forall k | 0 <= k < |requests| ensures more[..k] == requests[..k] && more[k] == requests[k] {}
  }

  /** The store that forgets nothing is the participants service. */
  lemma {:induction false} PlainRunIsService(ops: seq<CacheOp>) returns (requests: seq<Request>)
    ensures RunService(requests) == PlainRun(ops) && Serves(requests, CommandsOf(ops)) && AllShown(requests)
  {
    hide HandleParticipant;
    if ops == [] {
      requests := [];
    } else {
      var init, op := ops[..|ops| - 1], ops[|ops| - 1];
      requests := PlainRunIsService(init);
      if op.Command? {
        var other := Get(PlainRun(init).store, Counterparty(op.cmd));
        ServesOneMore(requests, CommandsOf(init), op.cmd, other);
        requests := requests + [Request(op.cmd, other)];
      }
    }
  }

  /** Whatever the cache loses, and whether or not that shows: the service over the cache publishes what a service that
    * forgets nothing does, and caches what that stores, when it is given the same commands and not shown some of the
    * counterparties.  So whatever holds of every run of the service holds of this one. */
  lemma {:induction false} CachedRunIsService(ops: seq<CacheOp>) returns (requests: seq<Request>)
    requires AllOk(ops)
    ensures Refines(CachedRun(ops), RunService(requests)) && Serves(requests, CommandsOf(ops))
  {
    hide HandleParticipant, CachedStep, AllOk, OpOk, Missed;
    if ops == [] {
      requests := [];
      StartRefines();
    } else {
      var init, op := ops[..|ops| - 1], ops[|ops| - 1];
      BeforeLast(ops);
      requests := CachedRunIsService(init);
      if op.Command? {
        var other := RefinesCommand(CachedRun(init), RunService(requests), op);
        ServesOneMore(requests, CommandsOf(init), op.cmd, other);
        requests := requests + [Request(op.cmd, other)];
      } else {
        EvictionRefines(CachedRun(init), RunService(requests), op);
      }
    }
  }

  /** So an entry in the cache is what replaying its state events from nothing gives. */
  lemma {:induction false} CacheEqualsLog(ops: seq<CacheOp>, id: string)
    requires AllOk(ops) && id in CachedRun(ops).store && UniquePositions(CachedRun(ops).store[id])
    ensures Replay(None, LogOf(CachedRun(ops).log, id)) == Success(Some(CachedRun(ops).store[id]))
  {
    hide RunService, CachedRun;
    var requests := CachedRunIsService(ops);
    StoreEqualsLog(requests, id);
  }

  // ---------- fetches that miss nothing ----------

  /** A snapshot is found, and says rightly where its events start, or no event is skipped. */
  ghost predicate Complete(t: Topics, id: string, cached: Option<Position>)
    requires t.snapshotHome < |t.snapshots| && t.eventsHome < |t.events|
  {
    var m, start := FoundSnapshot(t, id, cached), SnapshotStart(cached);
    if m.Some? then StartsInTime(t, id, m.value)
    else Assigned(start.partition, t.eventsHome) && EventsBefore(t, id, start.offset) == 0
  }

  /** The topics hold what went out, and the offset cache skips nothing of it. */
  ghost predicate CanServe(t: Topics, cached: Option<Position>, c: ParticipantService, id: string) {
    Holds(t, c, id) && Complete(t, id, cached)
  }

  /** What a command is answered when its root is not cached is what the repository loads from such topics, about a
    * participant that was created with one POSITION account per currency. */
  ghost predicate FetchedWhole(c: ParticipantService, op: CacheOp) {
    op.Command? && Key(op.cmd) !in c.store ==>
      && CreatedUnique(c, Key(op.cmd))
      && exists t, cached :: CanServe(t, cached, c, Key(op.cmd)) && op.es == LoadState(t, Key(op.cmd), cached)
  }

  /** After any losses: such an answer ends where the log ends, so it is the participant as the service that forgets
    * nothing stores it. */
  lemma {:induction false} FetchedIsOk(ops: seq<CacheOp>, op: CacheOp)
    requires AllOk(ops) && FetchedWhole(CachedRun(ops), op)
    ensures OpOk(CachedRun(ops), op)
  {
    hide RunService, CachedRun, Rebuild, UpToDate, ReplayStart, Complete, LoadState;
    var c := CachedRun(ops);
    var requests := CachedRunIsService(ops);
    if op.Command? && Key(op.cmd) !in c.store {
      var id := Key(op.cmd);
      var t, cached :| CanServe(t, cached, c, id) && op.es == LoadState(t, id, cached);
      FetchedEndsWithLog(requests, t, id, cached);
      assert AnsweredFrom(t, cached, false, |op.es.events|, c, id, op.es);
    }
  }

  lemma {:induction false} FetchedEndsWithLog(requests: seq<Request>, t: Topics, id: string, cached: Option<Position>)
    requires CanServe(t, cached, RunService(requests), id) && CreatedUnique(RunService(requests), id)
    ensures var s, es := RunService(requests), LoadState(t, id, cached);
      && es == LoadPartly(t, id, cached, false, |es.events|)
      && (LogOf(s.log, id) != [] ==>
            ReplayStart(es).Some? && UpToDate(ReplayStart(es).value, es.events, LogOf(s.log, id)))
  {
    hide RunService, Rebuild, UpToDate, ReplayStart, StartsInTime, FoundSnapshot;
    var s, es := RunService(requests), LoadState(t, id, cached);
    AlwaysLogged(requests, id);
    if id in s.store {
      LoadRecoversExactly(requests, t, id, cached);
      PartlyRecovers(t, s, id, cached, false, |es.events|);
    }
  }

  ghost predicate AllFetched(ops: seq<CacheOp>) {
    forall n :: 0 <= n < |ops| ==> FetchedWhole(CachedRun(ops[..n]), ops[n])
  }

  /** So when every load is fetched like this, every load is right, in every run with losses. */
  lemma {:induction false} AllFetchedIsOk(ops: seq<CacheOp>)
    requires AllFetched(ops)
    ensures AllOk(ops)
  {
    hide OpOk, FetchedWhole, CachedRun;
    if ops == [] {
    } else {
      var init := ops[..|ops| - 1];
      assert forall n :: 0 <= n < |init| ==> init[..n] == ops[..n] && init[n] == ops[n];
      AllFetchedIsOk(init);
      FetchedIsOk(init, ops[|ops| - 1]);
      BeforeLast(ops);
    }
  }
}
