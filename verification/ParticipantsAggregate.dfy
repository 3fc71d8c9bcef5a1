/** The participants aggregate as the code runs it: the event-sourcing base class - load, replay, commit - and the
  * four command handlers, changing entities in place. */
module ParticipantsAggregate {
  import opened Common
  import opened Decimals
  import opened Participants
  import opened EventSourcing
  import opened Recovery
  import opened LossyCache
  import opened EventStore
  import opened ParticipantEntities
  import opened ParticipantRepos

  datatype CommandResult = CommandResult(success: bool, stateEvent: Option<StateEvt>)

  datatype Error = CommandFailed

  // ---------- replay, in place ----------

  /** The creation and snapshot appliers take over the state that came with the message. */
  method TakeOver(p: Participant) returns (root: ParticipantEntity)
    ensures fresh(root.state.accounts)
    ensures root.state.Valid() && root.state.Value() == p
  {
    var state := FreshState(p);
    root := new ParticipantEntity(state);
  }

  /** The position applier overwrites every POSITION account of the currency, in the list that the cloned state
    * shares with the root. */
  method ApplyPositionChanged(root: ParticipantEntity, c: string, x: Num)
    returns (r: Result<ParticipantEntity, ReplayError>)
    requires root.state.Valid()
    modifies root.state.accounts
    ensures r.Success? <==> HasPosition(old(root.state.Value()), c)
    ensures r.Success? ==>
              && r.value.state.accounts == root.state.accounts && r.value.state.Valid()
              && r.value.state.Value() == SetPositions(old(root.state.Value()), c, x)
  {
    var positionChangedOk := false;
    var state := root.ExportState();
    ghost var before := state.accounts.items;
    for i := 0 to |state.accounts.items|
      invariant |state.accounts.items| == |before|
      invariant positionChangedOk <==> FindPosition(before, c) < i
      invariant forall k :: 0 <= k < i ==>
                  state.accounts.items[k] == if IsPosition(before[k], c) then before[k].(position := x) else before[k]
      invariant forall k :: i <= k < |before| ==> state.accounts.items[k] == before[k]
    {
      var account := state.accounts.items[i];
      if account.kind == POSITION && account.currency == c {
        state.accounts.SetPosition(i, x);
        positionChangedOk := true;
      }
    }
    if !positionChangedOk {
      return Failure(NoAccount);
    }
    assert state.accounts.items == SetPositions(old(root.state.Value()), c, x).accounts;
    var replaced := new ParticipantEntity(state);
    r := Success(replaced);
  }

  method ApplyStateEvent(root: ParticipantEntity, e: StateEvt) returns (r: Result<ParticipantEntity, ReplayError>)
    requires root.state.Valid()
    modifies root.state.accounts
    ensures r.Success? == ApplyState(Some(old(root.state.Value())), e).Success?
    ensures r.Success? ==>
              && ApplyState(Some(old(root.state.Value())), e) == Success(Some(r.value.state.Value()))
              && r.value.state.Valid()
              && (fresh(r.value.state.accounts) || r.value.state.accounts == root.state.accounts)
  {
    match e
    case CreatedState(p) =>
      var applied := TakeOver(p);
      r := Success(applied);
    case SnapshotState(p) =>
      var applied := TakeOver(p);
      r := Success(applied);
    case PositionChanged(_, c, x, _) =>
      r := ApplyPositionChanged(root, c, x);
  }

  /** An empty entity, the snapshot, then the events one after the other. */
  method ReplayFrom(id: string, es: Loaded) returns (r: Result<ParticipantEntity?, ReplayError>)
    ensures r.Success? == Rebuild(id, es).Success?
    ensures r.Success? ==>
              if r.value == null then Rebuild(id, es) == Success(None)
              else
                && Rebuild(id, es) == Success(Some(r.value.state.Value())) && r.value.state.Valid()
                && fresh(r.value.state.accounts)
  {
    if es.snapshot.None? && |es.events| == 0 {
      return Success(null);
    }
    var root := TakeOver(Participant(id, "", [], [], None));
    if es.snapshot.Some? {
      root := TakeOver(es.snapshot.value.participant);
    }
    ghost var start := root.state.Value();
    for i := 0 to |es.events|
      invariant fresh(root.state.accounts)
      invariant root.state.Valid()
      invariant Replay(Some(start), es.events[..i]) == Success(Some(root.state.Value()))
    {
      ReplayStep(Some(start), es.events, i);
      var applied := ApplyStateEvent(root, es.events[i]);
      if applied.Failure? { return Failure(applied.error); }
      root := applied.value;
    }
    assert es.events[..|es.events|] == es.events;
    r := Success(root);
  }

  lemma ReplayStep(root: Option<Participant>, es: seq<StateEvt>, i: nat)
    requires i < |es| && Replay(root, es[..i]).Success?
    ensures Replay(root, es[..i + 1]) == ApplyState(Replay(root, es[..i]).value, es[i])
    ensures ApplyState(Replay(root, es[..i]).value, es[i]).Failure? ==> Replay(root, es).Failure?
  {
    assert es[..i + 1][..i] == es[..i];
    ReplayFailure(root, es, i + 1);
  }

  /** A replay that fails early fails. */
  lemma {:induction false} ReplayFailure(root: Option<Participant>, es: seq<StateEvt>, i: nat)
    requires i <= |es|
    ensures Replay(root, es[..i]).Failure? ==> Replay(root, es).Failure?
    decreases |es| - i
  {
    if i == |es| {
      assert es[..i] == es;
    } else {
      ReplayFailure(root, es, i + 1);
      assert es[..i + 1][..i] == es[..i];
    }
  }

  /** What a reservation or a commit decides, in terms of what happened to the root. */
  function Moved(root: Participant, c: string, evt: Evt): Outcome
    requires HasPosition(root, c)
  {
    Accepted(root, [evt], PositionChanged(root.id, c, CurrentPosition(root, c), root.partition))
  }

  lemma ReserveDecided(p: Participant, payee: Participant, t: Terms)
    requires HasPosition(payee, t.currency)
    ensures var r := TryReserve(p, t.currency, t.amount);
      if r.Success?
      then
        && HasPosition(r.value, t.currency)
        && DecideReserve(Some(p), Some(payee), t) == Moved(r.value, t.currency, PayerFundsReserved(
             t.id, t.payer, t.currency, CurrentPosition(r.value, t.currency), r.value.endpoints, payee.endpoints))
      else
        DecideReserve(Some(p), Some(payee), t)
        == Refused(if r.error == NetDebitCapLimitExceeded then NetCapLimitExceeded(t.id, t.payer)
                   else InvalidParticipant(t.payer, t.id))
  {
  }

  lemma CommitDecided(p: Participant, payer: Participant, t: Terms)
    requires HasPosition(payer, t.currency) && HasPosition(p, t.currency)
    ensures var r := TryCommit(p, t.currency, t.amount);
      && r.Success? && HasPosition(r.value, t.currency)
      && DecideCommit(Some(p), Some(payer), t) == Moved(r.value, t.currency, PayeeFundsCommitted(
           t.id, t.payer, t.payee, t.currency, CurrentPosition(r.value, t.currency), payer.endpoints,
           r.value.endpoints))
  {
    var x := Minus(CurrentPosition(p, t.currency), t.amount);
    if x != NaN {
      WithPositionFrame(p, t.currency, x);
    }
  }

  // ---------- the aggregate ----------

  /** The cache after the load. */
  function Cached(contents: map<string, Participant>, id: string, es: Loaded): map<string, Participant> {
    match LoadedAs(contents, id, es)
    case Success(Some(p)) => contents[p.id := p]
    case _ => contents
  }

  function EventsOf(o: Outcome): seq<Evt> {
    match o
    case Accepted(_, evts, _) => evts
    case Refused(evt) => [evt]
    case Thrown => []
  }

  function ResultOf(o: Outcome): Result<CommandResult, Error> {
    match o
    case Accepted(_, _, stateEvt) => Success(CommandResult(true, Some(stateEvt)))
    case Refused(_) => Success(CommandResult(false, None))
    case Thrown => Failure(CommandFailed)
  }

  function OutcomeOf(contents: map<string, Participant>, cmd: Cmd, es: Loaded): Outcome {
    match LoadedAs(contents, Key(cmd), es)
    case Failure(_) => Thrown
    case Success(root) => Decide(root, Get(Cached(contents, Key(cmd), es), Counterparty(cmd)), cmd)
  }

  lemma ContinueIsSettle(c: ParticipantService, cmd: Cmd, es: Loaded)
    ensures Continue(c, cmd, LoadedAs(c.store, Key(cmd), es)) ==
            Settle(c.(store := Cached(c.store, Key(cmd), es)), OutcomeOf(c.store, cmd, es))
  {
  }

  class ParticpantsAgg {
    const repo: ParticipantStateRepo
    var rootEntity: ParticipantEntity?
    var uncommittedDomainEvents: seq<Evt>
    var evts: seq<Evt>               // published
    var log: seq<StateEvt>
    var snapshots: seq<StateEvt>

    constructor (repo: ParticipantStateRepo)
      ensures this.repo == repo && evts == [] && log == [] && snapshots == []
    {
      this.repo, rootEntity, uncommittedDomainEvents, evts, log, snapshots := repo, null, [], [], [], [];
    }

    ghost function View(): ParticipantService
      reads this, repo
    {
      ParticipantService(repo.contents, evts, log, snapshots)
    }

    ghost function Root(): Option<Participant>
      reads this, if rootEntity != null then {rootEntity.state.accounts} else {}
    {
      if rootEntity == null then None else Some(rootEntity.state.Value())
    }

    ghost predicate RootOk()
      reads this
    {
      rootEntity != null ==> rootEntity.state.Valid()
    }

    method LoadCached(id: string) returns (found: bool)
      requires repo.Valid()
      modifies this`rootEntity
      ensures found == (id in repo.contents) && found == (rootEntity != null)
      ensures RootOk() && Root() == Get(repo.contents, id)
      ensures found ==> if repo.byReference then id in repo.list && rootEntity.state == repo.list[id]
                        else fresh(rootEntity.state.accounts)
    {
      rootEntity := null;
      var entityState := repo.Load(id);
      if entityState != null {
        rootEntity := new ParticipantEntity(entityState);
      }
      found := entityState != null;
    }

    method LoadFromEvents(id: string, es: Loaded) returns (r: Result<(), Error>)
      requires repo.Valid() && rootEntity == null
      modifies this`rootEntity, repo
      ensures repo.Valid() && RootOk()
      ensures r.Success? == Rebuild(id, es).Success?
      ensures if r.Success? && Rebuild(id, es).value.Some?
              then
                var p := Rebuild(id, es).value.value;
                Root() == Some(p) && fresh(rootEntity.state.accounts) && repo.contents == old(repo.contents)[p.id := p]
              else rootEntity == null && repo.contents == old(repo.contents)
      ensures fresh(repo.Footprint() - old(repo.Footprint()))
    {
      hide Rebuild;
      var replayed := ReplayFrom(id, es);
      if replayed.Failure? { return Failure(CommandFailed); }
      if replayed.value != null {
        rootEntity := replayed.value;
        var exported := rootEntity.ExportState();
        repo.Store(exported);
      }
      r := Success(());
    }

    /** Reserving changes no other participant, and nothing when it is refused. */
    method ReserveInRoot(c: string, amount: Num) returns (r: Result<(), FundsError>)
      requires repo.Valid() && RootOk() && rootEntity != null
      modifies if TryReserve(rootEntity.state.Value(), c, amount).Success? then {rootEntity.state.accounts} else {}
      ensures var o := TryReserve(old(Root()).value, c, amount);
        if o.Failure? then r == Failure(o.error) else r.Success? && Root() == Some(o.value)
      ensures repo.ValidBut(rootEntity.state.id) && (r.Failure? ==> repo.Valid())
    {
      hide TryReserve;
      r := rootEntity.ReserveFunds(c, amount);
    }

    /** Committing changes no other participant, and nothing when it is refused. */
    method CommitInRoot(c: string, amount: Num) returns (r: Result<(), FundsError>)
      requires repo.Valid() && RootOk() && rootEntity != null
      modifies if TryCommit(rootEntity.state.Value(), c, amount).Success? then {rootEntity.state.accounts} else {}
      ensures var o := TryCommit(old(Root()).value, c, amount);
        if o.Failure? then r == Failure(o.error) else r.Success? && Root() == Some(o.value)
      ensures repo.ValidBut(rootEntity.state.id) && (r.Failure? ==> repo.Valid())
    {
      hide TryCommit;
      r := rootEntity.CommitFunds(c, amount);
    }

    method Positioned(c: string) returns (stateEvt: StateEvt)
      requires rootEntity != null && HasPosition(rootEntity.state.Value(), c)
      ensures Moved(Root().value, c, DuplicateParticipant("")).stateEvt == stateEvt
    {
      var currentPosition := rootEntity.GetCurrentPosition(c);
      stateEvt := PositionChanged(rootEntity.state.id, c, currentPosition.value, rootEntity.state.partition);
    }

    method RecordDomainEvent(evt: Evt)
      modifies `uncommittedDomainEvents
      ensures uncommittedDomainEvents == old(uncommittedDomainEvents) + [evt]
    {
      uncommittedDomainEvents := uncommittedDomainEvents + [evt];
    }

    /** The payer and the payee were found with their accounts. */
    method ReserveFromRoot(t: Terms, payeeEndpoints: seq<Endpoint>, ghost payee: Participant)
      returns (evt: Evt, stateEvt: Option<StateEvt>)
      requires repo.Valid() && RootOk() && rootEntity != null
      requires payee.endpoints == payeeEndpoints && HasPosition(payee, t.currency)
      modifies rootEntity.state.accounts
      ensures Reports(DecideReserve(old(Root()), Some(payee), t), evt, stateEvt)
      ensures stateEvt.Some? ==> Root() == Some(DecideReserve(old(Root()), Some(payee), t).root)
      ensures if stateEvt.None? then repo.Valid() else rootEntity != null && repo.ValidBut(rootEntity.state.id)
    {
      hide TryReserve, DecideReserve, FindPosition;
      ReserveDecided(Root().value, payee, t);
      var reserved := ReserveInRoot(t.currency, t.amount);
      if reserved.Failure? {
        evt := if reserved.error == NetDebitCapLimitExceeded then NetCapLimitExceeded(t.id, t.payer)
               else InvalidParticipant(t.payer, t.id);
        stateEvt := None;
      } else {
        var changed := Positioned(t.currency);
        evt := PayerFundsReserved(t.id, t.payer, t.currency, changed.position, rootEntity.state.endpoints,
                                  payeeEndpoints);
        stateEvt := Some(changed);
      }
    }

    /** The payee and the payer were found with their accounts. */
    method CommitInto(t: Terms, payerEndpoints: seq<Endpoint>, ghost payer: Participant)
      returns (evt: Evt, stateEvt: Option<StateEvt>)
      requires repo.Valid() && RootOk() && rootEntity != null && HasPosition(Root().value, t.currency)
      requires payer.endpoints == payerEndpoints && HasPosition(payer, t.currency)
      modifies rootEntity.state.accounts
      ensures Reports(DecideCommit(old(Root()), Some(payer), t), evt, stateEvt)
      ensures stateEvt.Some? ==> Root() == Some(DecideCommit(old(Root()), Some(payer), t).root)
      ensures if stateEvt.None? then repo.Valid() else rootEntity != null && repo.ValidBut(rootEntity.state.id)
    {
      hide TryCommit, DecideCommit, FindPosition;
      CommitDecided(Root().value, payer, t);
      var committed := CommitInRoot(t.currency, t.amount);
      if committed.Failure? {
        evt, stateEvt := InvalidParticipant(t.payer, t.id), None;
      } else {
        var changed := Positioned(t.currency);
        evt := PayeeFundsCommitted(t.id, t.payer, t.payee, t.currency, changed.position, payerEndpoints,
                                   rootEntity.state.endpoints);
        stateEvt := Some(changed);
      }
    }

    /** After the root is loaded: the rest of the reserve handler. */
    method ReserveLoaded(t: Terms) returns (evt: Evt, stateEvt: Option<StateEvt>)
      requires repo.Valid() && RootOk()
      modifies if rootEntity != null then {rootEntity.state.accounts} else {}
      ensures var o := DecideReserve(old(Root()), Get(repo.contents, t.payee), t);
        Reports(o, evt, stateEvt) && (stateEvt.Some? ==> Root() == Some(o.root))
      ensures if stateEvt.None? then repo.Valid() else rootEntity != null && repo.ValidBut(rootEntity.state.id)
    {
      hide TryReserve, FindPosition;
      stateEvt := None;
      if rootEntity == null { return InvalidParticipant(t.payer, t.id), None; }
      var payeeFspState := repo.Load(t.payee);
      if payeeFspState == null { return InvalidParticipant(t.payee, t.id), None; }
      var payeeFspEntity := new ParticipantEntity(payeeFspState);
      var payeeHasAccount := payeeFspEntity.HasAccount(t.currency);
      if !payeeHasAccount { return InvalidParticipant(t.payee, t.id), None; }
      evt, stateEvt := ReserveFromRoot(t, payeeFspState.endpoints, payeeFspState.Value());
    }

    /** After the root is loaded: the rest of the commit handler. */
    method CommitLoaded(t: Terms) returns (evt: Evt, stateEvt: Option<StateEvt>)
      requires repo.Valid() && RootOk()
      modifies if rootEntity != null then {rootEntity.state.accounts} else {}
      ensures var o := DecideCommit(old(Root()), Get(repo.contents, t.payer), t);
        Reports(o, evt, stateEvt) && (stateEvt.Some? ==> Root() == Some(o.root))
      ensures if stateEvt.None? then repo.Valid() else rootEntity != null && repo.ValidBut(rootEntity.state.id)
    {
      hide TryCommit, FindPosition;
      stateEvt := None;
      if rootEntity == null { return InvalidParticipant(t.payee, t.id), None; }
      var payeeHasAccount := rootEntity.HasAccount(t.currency);
      if !payeeHasAccount { return InvalidParticipant(t.payee, t.id), None; }
      var payerFspState := repo.Load(t.payer);
      if payerFspState == null { return InvalidParticipant(t.payer, t.id), None; }
      var payerFspEntity := new ParticipantEntity(payerFspState);
      var payerHasAccount := payerFspEntity.HasAccount(t.currency);
      if !payerHasAccount { return InvalidParticipant(t.payee, t.id), None; }
      evt, stateEvt := CommitInto(t, payerFspState.endpoints, payerFspState.Value());
    }

    /** What a handler leaves behind for an outcome: the events to publish, the result, the root to store, and a
      * repository in which at most the root's own entry may have been written over. */
    ghost predicate Did(o: Outcome, r: Result<CommandResult, Error>)
      reads this, repo, repo.Footprint(), if rootEntity != null then {rootEntity.state.accounts} else {}
    {
      && r == ResultOf(o) && uncommittedDomainEvents == EventsOf(o)
      && if o.Accepted? then RootOk() && Root() == Some(o.root) && repo.ValidBut(o.root.id) else repo.Valid()
    }

    method Load(id: string, es: Loaded) returns (r: Result<(), Error>)
      requires repo.Valid()
      modifies this`rootEntity, this`uncommittedDomainEvents, repo
      ensures repo.Valid() && RootOk() && uncommittedDomainEvents == []
      ensures repo.contents == Cached(old(repo.contents), id, es)
      ensures var l := LoadedAs(old(repo.contents), id, es);
        r.Success? == l.Success? && (r.Success? ==> Root() == l.value)
      ensures rootEntity != null ==>
                fresh(rootEntity.state.accounts) || rootEntity.state.accounts in old(repo.Footprint())
      ensures fresh(repo.Footprint() - old(repo.Footprint()))
    {
      hide Rebuild;
      uncommittedDomainEvents := [];
      var found := LoadCached(id);
      if found {
        r := Success(());
      } else {
        r := LoadFromEvents(id, es);
      }
    }

    /** The handlers, from where their root is loaded. */
    method ProcessCreateParticipantCommand(p: Participant) returns (r: Result<CommandResult, Error>)
      requires repo.Valid() && RootOk() && uncommittedDomainEvents == []
      modifies this`rootEntity, this`uncommittedDomainEvents
      ensures Did(Decide(old(Root()), None, CreateParticipant(p)), r)
      ensures rootEntity == old(rootEntity) || (rootEntity != null && fresh(rootEntity.state.accounts))
    {
      if rootEntity != null {
        RecordDomainEvent(DuplicateParticipant(p.id));
        return Success(CommandResult(false, None));
      }
      var participantState := FreshState(p);
      rootEntity := new ParticipantEntity(participantState);
      RecordDomainEvent(ParticipantCreated(participantState.id, participantState.name));
      r := Success(CommandResult(true, Some(CreatedState(rootEntity.state.Value()))));
    }

    method ProcessReserveFundsCommand(t: Terms) returns (r: Result<CommandResult, Error>)
      requires repo.Valid() && RootOk() && uncommittedDomainEvents == []
      modifies this`uncommittedDomainEvents, if rootEntity != null then {rootEntity.state.accounts} else {}
      ensures Did(DecideReserve(old(Root()), Get(repo.contents, t.payee), t), r)
    {
      hide DecideReserve;
      var evt, stateEvt := ReserveLoaded(t);
      RecordDomainEvent(evt);
      r := Success(CommandResult(stateEvt.Some?, stateEvt));
    }

    method ProcessCommitFundsCommand(t: Terms) returns (r: Result<CommandResult, Error>)
      requires repo.Valid() && RootOk() && uncommittedDomainEvents == []
      modifies this`uncommittedDomainEvents, if rootEntity != null then {rootEntity.state.accounts} else {}
      ensures Did(DecideCommit(old(Root()), Get(repo.contents, t.payer), t), r)
    {
      hide DecideCommit;
      var evt, stateEvt := CommitLoaded(t);
      RecordDomainEvent(evt);
      r := Success(CommandResult(stateEvt.Some?, stateEvt));
    }

    method ProcessParticipantStateSnapshotCommand(id: string) returns (r: Result<CommandResult, Error>)
      requires repo.Valid() && RootOk() && uncommittedDomainEvents == []
      ensures Did(Decide(Root(), None, SnapshotParticipant(id)), r)
    {
      if rootEntity == null { return Failure(CommandFailed); }
      var exported := rootEntity.ExportState();
      r := Success(CommandResult(true, Some(SnapshotState(exported.Value()))));
    }

    /** Every handler begins by loading its root, and a load that throws ends it. */
    method Handle(cmd: Cmd, es: Loaded) returns (r: Result<CommandResult, Error>)
      requires repo.Valid()
      modifies this`rootEntity, this`uncommittedDomainEvents, repo, repo.Footprint()
      ensures repo.contents == Cached(old(repo.contents), Key(cmd), es)
      ensures Did(OutcomeOf(old(repo.contents), cmd, es), r)
      ensures fresh(repo.Footprint() - old(repo.Footprint()))
      ensures rootEntity != null ==>
                fresh(rootEntity.state.accounts) || rootEntity.state.accounts in old(repo.Footprint())
    {
      hide Rebuild, Decide;
      var loaded := Load(Key(cmd), es);
      if loaded.Failure? { return Failure(CommandFailed); }
      r := AfterLoad(cmd);
    }

    method AfterLoad(cmd: Cmd) returns (r: Result<CommandResult, Error>)
      requires repo.Valid() && RootOk() && uncommittedDomainEvents == []
      modifies this`rootEntity, this`uncommittedDomainEvents,
               if rootEntity != null then {rootEntity.state.accounts} else {}
      ensures Did(Decide(old(Root()), Get(repo.contents, Counterparty(cmd)), cmd), r)
      ensures rootEntity == old(rootEntity) || (rootEntity != null && fresh(rootEntity.state.accounts))
    {
      hide DecideReserve, DecideCommit;
      match cmd
      case CreateParticipant(p) => r := ProcessCreateParticipantCommand(p);
      case ReservePayerFunds(t) => r := ProcessReserveFundsCommand(t);
      case CommitPayeeFunds(t) => r := ProcessCommitFundsCommand(t);
      case SnapshotParticipant(id) => r := ProcessParticipantStateSnapshotCommand(id);
    }

    /** The domain events, and then the state event to the topic of its kind. */
    method CommitEvents(stateEvent: Option<StateEvt>)
      modifies this`uncommittedDomainEvents, this`evts, this`log, this`snapshots
      ensures evts == old(evts) + old(uncommittedDomainEvents)
      ensures var snap := stateEvent.Some? && stateEvent.value.SnapshotState?;
        && log == (if stateEvent.Some? && !snap then old(log) + [stateEvent.value] else old(log))
        && snapshots == (if snap then old(snapshots) + [stateEvent.value] else old(snapshots))
    {
      if |uncommittedDomainEvents| <= 0 && stateEvent.None? { return; }
      evts := evts + uncommittedDomainEvents;
      if stateEvent.Some? {
        if stateEvent.value.SnapshotState? {
          snapshots := snapshots + [stateEvent.value];
        } else {
          log := log + [stateEvent.value];
        }
      }
      uncommittedDomainEvents := [];
    }

    /** After the handler: events go out, and the root of an accepted command is stored. */
    method Finish(result: Result<CommandResult, Error>, ghost o: Outcome) returns (r: Result<bool, Error>)
      requires Did(o, result)
      modifies this, repo
      ensures repo.Valid() && View() == Settle(old(View()), o)
      ensures r == if o.Thrown? then Failure(CommandFailed) else Success(o.Accepted?)
      ensures forall a :: a in repo.Footprint() ==>
                a in old(repo.Footprint()) || (old(rootEntity) != null && a == old(rootEntity).state.accounts)
    {
      if result.Failure? {
        CommitEvents(None);
        return Failure(result.error);
      }
      if !result.value.success {
        CommitEvents(None);
        return Success(false);
      }
      CommitEvents(result.value.stateEvent);
      var exported := rootEntity.ExportState();
      repo.Store(exported);
      r := Success(true);
    }

    /** One command: what is stored and what is published afterwards is what the specification says, whether the
      * repository hands out references or copies. */
    method ProcessCommand(cmd: Cmd, es: Loaded) returns (r: Result<bool, Error>)
      requires repo.Valid()
      modifies this, repo, repo.Footprint()
      ensures repo.Valid() && fresh(repo.Footprint() - old(repo.Footprint()))
      ensures View() == Continue(old(View()), cmd, LoadedAs(old(repo.contents), Key(cmd), es))
      ensures var o := OutcomeOf(old(repo.contents), cmd, es);
        r == if o.Thrown? then Failure(CommandFailed) else Success(o.Accepted?)
    {
      hide Rebuild, Decide, OutcomeOf, Cached, Settle, Continue;
      ContinueIsSettle(View(), cmd, es);
      var result := Handle(cmd, es);
      r := Finish(result, OutcomeOf(old(repo.contents), cmd, es));
    }

    /** A command, or the cache loses an entry. */
    method Run(op: CacheOp)
      requires repo.Valid()
      modifies this, repo, repo.Footprint()
      ensures repo.Valid() && fresh(repo.Footprint() - old(repo.Footprint()))
      ensures View() == CachedStep(old(View()), op)
    {
      match op
      case Command(cmd, es) => var _ := ProcessCommand(cmd, es);
      case Evict(id) => repo.Remove(id);
    }
  }

  // ---------- whole runs ----------

  /** Commands in turn, while the cache loses entries in between. */
  method Process(byReference: bool, ops: seq<CacheOp>) returns (agg: ParticpantsAgg)
    ensures agg.repo.byReference == byReference && agg.View() == CachedRun(ops)
  {
    var repo := new ParticipantStateRepo(byReference);
    agg := new ParticpantsAgg(repo);
    for i := 0 to |ops|
      invariant fresh(agg) && fresh(agg.repo) && fresh(agg.repo.Footprint()) && agg.repo.Valid()
      invariant agg.repo == repo && agg.View() == CachedRun(ops[..i])
    {
      assert ops[..i + 1][..i] == ops[..i];
      agg.Run(ops[i]);
    }
    assert ops[..|ops|] == ops;
  }

  /** For every sequence of commands and losses, both kinds of repository end with the same cached participants, and
    * the same events, state events and snapshots have gone out: those of the specification. */
  method ReferencesAgreeWithCopies(ops: seq<CacheOp>) returns (references: ParticpantsAgg, copies: ParticpantsAgg)
    ensures references.repo.byReference && !copies.repo.byReference
    ensures references.View() == copies.View() == CachedRun(ops)
  {
    references := Process(true, ops);
    copies := Process(false, ops);
  }

  /** The aggregate over a cache that loses entries and an event store that answers for them.  It publishes what a
    * service that forgets nothing does, and caches what that stores, given the same commands with some counterparties
    * not shown; and given them with all counterparties shown, exactly when no command met a lost one that it needed. */
  method LossesShowExactly(byReference: bool, ops: seq<CacheOp>)
    returns (agg: ParticpantsAgg, ghost served: seq<Request>, ghost requests: seq<Request>)
    requires AllOk(ops)
    ensures agg.repo.byReference == byReference && agg.View() == CachedRun(ops)
    ensures Refines(agg.View(), RunService(served)) && Serves(served, CommandsOf(ops))
    ensures RunService(requests) == PlainRun(ops) && Serves(requests, CommandsOf(ops)) && AllShown(requests)
    ensures Shadows(agg.View(), RunService(requests)) <==> NoneMissed(ops)
  {
    hide Refines, Shadows, Serves, AllShown, AllOk, NoneMissed;
    agg := Process(byReference, ops);
    EvictionsShowExactly(ops);
    served := CachedRunIsService(ops);
    requests := PlainRunIsService(ops);
  }

  lemma ContinueStored(c: ParticipantService, cmd: Cmd, es: Loaded)
    requires LoadedAs(c.store, Key(cmd), es) == Success(Get(c.store, Key(cmd)))
    requires Key(cmd) in c.store ==> c.store[Key(cmd)].id == Key(cmd)
    ensures Continue(c, cmd, LoadedAs(c.store, Key(cmd), es)) ==
            HandleParticipant(c, cmd, Get(c.store, Counterparty(cmd)))
  {
    hide Decide, Settle, LoadedAs;
    assert Key(cmd) in c.store ==> c.(store := c.store[Key(cmd) := c.store[Key(cmd)]]) == c;
  }

  /** As long as the cache keeps everything - the event store is then asked for new ids only, and has nothing or answers
    * from the topics - the aggregate is the service whose runs are specified elsewhere, for participants with any
    * accounts. */
  lemma {:induction false} AggregateIsService(ops: seq<CacheOp>) returns (requests: seq<Request>)
    requires forall i :: 0 <= i < |ops| ==>
               ops[i].Command? && (ops[i].es == Loaded(None, []) || OpOk(CachedRun(ops[..i]), ops[i]))
    ensures RunService(requests) == CachedRun(ops) && Serves(requests, CommandsOf(ops)) && AllShown(requests)
  {
    hide HandleParticipant, Continue, LoadOk;
    if ops == [] {
      requests := [];
    } else {
      var init, op := ops[..|ops| - 1], ops[|ops| - 1];
      assert forall i :: 0 <= i < |init| ==> init[..i] == ops[..i] && init[i] == ops[i];
      assert ops[..|init|] == init;
      requests := AggregateIsService(init);
      var s, key, cp := RunService(requests), Key(op.cmd), Counterparty(op.cmd);
      forall id ensures Logged(s, id) {
        AlwaysLogged(requests, id);
      }
      assert Logged(s, key);
      if op.es != Loaded(None, []) {
        LoadsTheStored(s, s, key, op.es);
      }
      ContinueStored(s, op.cmd, op.es);
      ServesOneMore(requests, CommandsOf(init), op.cmd, Get(s.store, cp));
      requests := requests + [Request(op.cmd, Get(s.store, cp))];
    }
  }

  /** The outcome carries this event, and this state event if it is accepted. */
  predicate Reports(o: Outcome, evt: Evt, stateEvt: Option<StateEvt>) {
    match o
    case Accepted(_, evts, se) => evts == [evt] && stateEvt == Some(se)
    case Refused(e) => evt == e && stateEvt.None?
    case Thrown => false
  }
}
