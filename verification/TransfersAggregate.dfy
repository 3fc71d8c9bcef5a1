/** The transfer entity, its repositories and the transfers aggregate as the code runs them, changing transfer states
  * in place. */
module TransfersAggregate {
  import opened Common
  import opened Participants
  import opened Transfers
  import opened DuplicateSets
  import opened TransferReferences

  // ---------- the entity ----------

  class TransferState {
    var terms: Terms
    var expiration: string
    var condition: string
    var prepare: Raw
    var state: InternalState
    var fulfilment: Option<string>
    var completedTimestamp: Option<string>
    var fulfil: Option<Raw>

    function Value(): Transfer
      reads this
    {
      Transfer(terms, expiration, condition, prepare, state, fulfilment, completedTimestamp, fulfil)
    }

    constructor (t: Transfer)
      ensures Value() == t
    {
      terms, expiration, condition, prepare := t.terms, t.expiration, t.condition, t.prepare;
      state, fulfilment, completedTimestamp, fulfil := t.state, t.fulfilment, t.completedTimestamp, t.fulfil;
    }
  }

  class TransferEntity {
    const state: TransferState

    constructor (initialState: TransferState)
      ensures state == initialState
    {
      state := initialState;
    }

    method PrepareTransfer(r: PrepareRequest)
      modifies state
      ensures state.Value() == old(state.Value()).(terms := r.terms, expiration := r.expiration,
                condition := r.condition, prepare := r.prepare, state := RECEIVED_PREPARE)
    {
      state.terms := r.terms;
      state.state := RECEIVED_PREPARE;
      state.expiration := r.expiration;
      state.condition := r.condition;
      state.prepare := r.prepare;
    }

    method AcknowledgeTransferReserved()
      modifies state
      ensures state.Value() == old(state.Value()).(state := RESERVED)
    {
      state.state := RESERVED;
    }

    method ValidateFulfilCondition(x: Crypto, fulfilment: string) returns (valid: Result<bool, ConditionError>)
      ensures valid.Success? <==> |x.decode(fulfilment)| == 32
      ensures valid == Success(true) <==> Fulfils(x, fulfilment, state.condition)
    {
      match FulfilmentToCondition(x, fulfilment)
      case Failure(e) => valid := Failure(e);
      case Success(calculatedCondition) => valid := Success(calculatedCondition == state.condition);
    }

    /** Throws unless the fulfilment fulfils the condition; one of 32 bytes that does not leaves RECEIVED_ERROR. */
    method FulfilTransfer(x: Crypto, f: FulfilRequest) returns (r: Result<(), ConditionError>)
      modifies state
      ensures r.Success? <==> Fulfils(x, f.fulfilment, old(state.condition))
      ensures r.Success? ==> FulfilledBy(old(state.Value()), f, state.Value())
      ensures state.Value() ==
              if r.Success? then Fulfilled(old(state.Value()), f)
              else if |x.decode(f.fulfilment)| == 32 then old(state.Value()).(state := RECEIVED_ERROR)
              else old(state.Value())
    {
      var valid := ValidateFulfilCondition(x, f.fulfilment);
      if valid.Failure? { return Failure(valid.error); }
      if !valid.value {
        state.state := RECEIVED_ERROR;
        return Failure(ValidateFulfilConditionNoMatch);
      }
      state.fulfilment := Some(f.fulfilment);
      state.completedTimestamp := Some(f.completedTimestamp);
      state.fulfil := Some(f.fulfil);
      state.state := RECEIVED_FULFIL;
      r := Success(());
    }

    method CommitTransfer()
      modifies state
      ensures state.Value() == old(state.Value()).(state := COMMITTED)
    {
      state.state := COMMITTED;
    }

    /** A shallow clone: no field of it is shared with this state. */
    method ExportState() returns (clone: TransferState)
      ensures fresh(clone) && clone.Value() == state.Value()
    {
      clone := new TransferState(state.Value());
    }
  }

  // ---------- the repositories ----------

  /** In memory, where it hands out the objects it stores, or Redis, where it hands out what it parses from the text
    * it stored and where entries expire. */
  class TransferStateRepo {
    const byReference: bool
    var list: map<string, TransferState>
    var docs: map<string, Transfer>
    ghost var contents: map<string, Transfer>   // what a reader sees

    constructor (byReference: bool)
      ensures Valid() && contents == map[] && this.byReference == byReference && list == map[]
    {
      this.byReference, list, docs, contents := byReference, map[], map[], map[];
    }

    ghost function Footprint(): set<TransferState>
      reads this`list
    {
      list.Values
    }

    /** What a reader sees is right, and under its own id, except perhaps under this id. */
    ghost predicate ValidBut(id: string)
      reads this, Footprint()
    {
      && (forall k :: k in contents ==> contents[k].terms.id == k)
      && (if byReference then list.Keys == contents.Keys else docs == contents && list == map[])
      && forall k :: k in list && k != id ==> list[k].Value() == contents[k]
    }

    ghost predicate Valid()
      reads this, Footprint()
    {
      && (forall k :: k in contents ==> contents[k].terms.id == k)
      && (if byReference then list.Keys == contents.Keys else docs == contents && list == map[])
      && forall k :: k in list ==> list[k].Value() == contents[k]
    }

    method Load(id: string) returns (state: TransferState?)
      requires Valid()
      ensures state == null <==> id !in contents
      ensures state != null ==> state.Value() == contents[id]
      ensures state != null ==> if byReference then id in list && state == list[id] else fresh(state)
    {
      state := null;
      if byReference {
        if id in list { state := list[id]; }
      } else if id in docs {
        state := new TransferState(docs[id]);
      }
    }

    method Store(state: TransferState)
      requires ValidBut(state.terms.id)
      modifies this
      ensures Valid() && contents == old(contents)[state.terms.id := state.Value()]
      ensures Footprint() <= old(Footprint()) + {state}
    {
      if byReference {
        list := list[state.terms.id := state];
      } else {
        docs := docs[state.terms.id := state.Value()];
      }
      contents := contents[state.terms.id := state.Value()];
    }

    /** A state that this repository handed out was changed: its readers see the change. */
    ghost method Leaked(id: string)
      requires byReference && id in list && ValidBut(id) && list[id].terms.id == id
      modifies `contents
      ensures Valid() && contents == old(contents)[id := list[id].Value()]
    {
      contents := contents[id := list[id].Value()];
    }

    /** Redis drops an entry when its time has come. */
    method Expire(id: string)
      requires Valid() && !byReference
      modifies this
      ensures Valid() && contents == old(contents) - {id}
    {
      docs := docs - {id};
      contents := contents - {id};
    }
  }

  // ---------- the aggregate ----------

  datatype Message = Domain(evt: TransferEvt) | State(stateEvt: TransferStateEvt)

  function DomainOf(ms: seq<Message>): seq<TransferEvt> {
    if ms == [] then []
    else
      var init, last := DomainOf(ms[..|ms| - 1]), ms[|ms| - 1];
      if last.Domain? then init + [last.evt] else init
  }

  function StatesOf(ms: seq<Message>): seq<TransferStateEvt> {
    if ms == [] then []
    else
      var init, last := StatesOf(ms[..|ms| - 1]), ms[|ms| - 1];
      if last.State? then init + [last.stateEvt] else init
  }

  /** The messages that an outcome publishes, in order. */
  function MessagesOf(o: TransferOutcome): seq<Message> {
    match o
    case TransferAccepted(_, evt, stateEvt) => [Domain(evt), State(stateEvt)]
    case TransferRefused(evt, _) => [Domain(evt)]
  }

  lemma MessagesSplit(o: TransferOutcome)
    ensures DomainOf(MessagesOf(o)) == [o.evt]
    ensures StatesOf(MessagesOf(o)) == if o.TransferAccepted? then [o.stateEvt] else []
  {
    assert MessagesOf(o)[..1] == [Domain(o.evt)];
    assert [Domain(o.evt)][..0] == [];
    assert DomainOf([Domain(o.evt)]) == [o.evt] && StatesOf([Domain(o.evt)]) == [];
  }

  class TransfersAgg {
    const crypto: Crypto
    const repo: TransferStateRepo
    const entityDuplicateRepo: RedisDuplicateRepo
    var rootEntity: TransferEntity?
    var uncommittedEvents: seq<Message>
    var evts: seq<TransferEvt>          // published
    var log: seq<TransferStateEvt>

    constructor (crypto: Crypto, repo: TransferStateRepo, entityDuplicateRepo: RedisDuplicateRepo)
      ensures this.crypto == crypto && this.repo == repo && this.entityDuplicateRepo == entityDuplicateRepo
      ensures evts == [] && log == []
    {
      this.crypto, this.repo, this.entityDuplicateRepo := crypto, repo, entityDuplicateRepo;
      rootEntity, uncommittedEvents, evts, log := null, [], [], [];
    }

    ghost function View(): TransferService
      reads this, repo, entityDuplicateRepo
    {
      TransferService(entityDuplicateRepo.members, repo.contents, evts, log)
    }

    ghost function Root(): Option<Transfer>
      reads this, if rootEntity != null then {rootEntity.state} else {}
    {
      if rootEntity == null then None else Some(rootEntity.state.Value())
    }

    /** The root is what the repository shows under the id, and the very object if it hands out references. */
    ghost predicate Loaded(id: string)
      reads this, repo, if rootEntity != null then {rootEntity.state} else {}
    {
      && Root() == Get(repo.contents, id)
      && (repo.byReference && rootEntity != null ==> id in repo.list && rootEntity.state == repo.list[id])
    }

    method Load(id: string)
      requires repo.Valid()
      modifies this`rootEntity, this`uncommittedEvents
      ensures Loaded(id) && uncommittedEvents == []
      ensures rootEntity != null && !repo.byReference ==> fresh(rootEntity.state)
    {
      uncommittedEvents, rootEntity := [], null;
      var entityState := repo.Load(id);
      if entityState != null {
        rootEntity := new TransferEntity(entityState);
      }
    }

    method RecordDomainEvent(evt: TransferEvt)
      modifies `uncommittedEvents
      ensures uncommittedEvents == old(uncommittedEvents) + [Domain(evt)]
    {
      uncommittedEvents := uncommittedEvents + [Domain(evt)];
    }

    method RecordStateEvent(stateEvt: TransferStateEvt)
      modifies `uncommittedEvents
      ensures uncommittedEvents == old(uncommittedEvents) + [State(stateEvt)]
    {
      uncommittedEvents := uncommittedEvents + [State(stateEvt)];
    }

    /** What a handler leaves behind for an outcome: the messages, and the root to store - or, refused, a repository
      * that shows a root it handed out as the handler left it. */
    ghost predicate Did(o: TransferOutcome, id: string, before: map<string, Transfer>, success: bool)
      reads this, repo, repo.Footprint(), if rootEntity != null then {rootEntity.state} else {}
    {
      && success == o.TransferAccepted? && uncommittedEvents == MessagesOf(o)
      && match o
         case TransferAccepted(root, _, _) =>
           Root() == Some(root) && repo.ValidBut(root.terms.id) && repo.contents == before
         case TransferRefused(_, touched) =>
           repo.Valid() && repo.contents == if repo.byReference && touched.Some? then before[id := touched.value]
                                            else before
    }

    method ProcessPrepareTransferCommand(r: PrepareRequest, isNotDuplicate: bool) returns (success: bool)
      requires repo.Valid()
      modifies this`rootEntity, this`uncommittedEvents
      ensures Did(DecideTransfer(crypto, Get(repo.contents, r.terms.id), isNotDuplicate, PrepareTransfer(r)),
                  r.terms.id, repo.contents, success)
      ensures success ==> fresh(rootEntity.state)
    {
      uncommittedEvents, rootEntity := [], null;
      if !isNotDuplicate {
        RecordDomainEvent(DuplicateTransferDetected(r.terms.id));
        return false;
      }
      var blank := new TransferState(Transfer(Terms(r.terms.id, "", "", "", r.terms.amount), "", "", Raw("", ""),
                                              INVALID, None, None, None));
      rootEntity := new TransferEntity(blank);
      rootEntity.PrepareTransfer(r);
      RecordDomainEvent(TransferPrepareAccepted(r.terms));
      RecordStateEvent(TransferPreparedState(rootEntity.state.Value()));
      success := true;
    }

    method ProcessAckPayerFundsReservedCommand(id: string, payer: seq<Endpoint>, payee: seq<Endpoint>)
      returns (success: bool)
      requires repo.Valid() && Loaded(id) && uncommittedEvents == []
      modifies this`uncommittedEvents, if rootEntity != null then {rootEntity.state} else {}
      ensures Did(DecideTransfer(crypto, old(Root()), false, AckPayerFundsReserved(id, payer, payee)), id,
                  repo.contents, success)
    {
      if rootEntity == null {
        RecordDomainEvent(TransferNotFound(id));
        return false;
      }
      if rootEntity.state.state != RECEIVED_PREPARE {
        RecordDomainEvent(InvalidTransfer(id));
        return false;
      }
      rootEntity.AcknowledgeTransferReserved();
      var state := rootEntity.state;
      RecordDomainEvent(TransferPrepared(state.terms, payer, payee, state.prepare));
      RecordStateEvent(TransferStateChanged(state.terms.id, state.state));
      success := true;
    }

    method ProcessAckPayeeFundsReservedCommand(id: string, payer: seq<Endpoint>, payee: seq<Endpoint>)
      returns (success: bool)
      requires repo.Valid() && Loaded(id) && uncommittedEvents == []
      modifies this`uncommittedEvents, if rootEntity != null then {rootEntity.state} else {}
      ensures Did(DecideTransfer(crypto, old(Root()), false, AckPayeeFundsCommitted(id, payer, payee)), id,
                  repo.contents, success)
    {
      if rootEntity == null {
        RecordDomainEvent(TransferNotFound(id));
        return false;
      }
      if rootEntity.state.state != RECEIVED_FULFIL {
        RecordDomainEvent(InvalidTransfer(id));
        return false;
      }
      rootEntity.CommitTransfer();
      var state := rootEntity.state;
      RecordDomainEvent(TransferFulfilled(state.terms, payer, payee, state.fulfil));
      RecordStateEvent(TransferStateChanged(state.terms.id, state.state));
      success := true;
    }

    /** A mismatch shows to readers of a repository that handed out its own object. */
    method TryFulfil(f: FulfilRequest) returns (r: Result<(), ConditionError>)
      requires repo.Valid() && Loaded(f.id) && rootEntity != null
      modifies repo`contents, rootEntity.state
      ensures r.Success? <==> Fulfils(crypto, f.fulfilment, old(rootEntity.state.condition))
      ensures r.Success? ==> Root() == Some(Fulfilled(old(Root()).value, f)) && repo.ValidBut(f.id)
                             && repo.contents == old(repo.contents)
      ensures r.Failure? ==> repo.Valid()
      ensures r.Failure? ==>
                var leaks := repo.byReference && |crypto.decode(f.fulfilment)| == 32;
                repo.contents == if leaks then old(repo.contents)[f.id := old(Root()).value.(state := RECEIVED_ERROR)]
                                 else old(repo.contents)
    {
      r := rootEntity.FulfilTransfer(crypto, f);
      if r.Failure? && repo.byReference {
        repo.Leaked(f.id);
      }
    }

    method ProcessFulfilTransferCommand(f: FulfilRequest) returns (success: bool)
      requires repo.Valid() && Loaded(f.id) && uncommittedEvents == []
      modifies this`uncommittedEvents, repo`contents, if rootEntity != null then {rootEntity.state} else {}
      ensures Did(DecideTransfer(crypto, old(Root()), false, FulfilTransfer(f)), f.id, old(repo.contents), success)
    {
      if rootEntity == null {
        RecordDomainEvent(TransferNotFound(f.id));
        return false;
      }
      if rootEntity.state.state != RESERVED {
        RecordDomainEvent(InvalidTransfer(f.id));
        return false;
      }
      var fulfilled := TryFulfil(f);
      if fulfilled.Failure? {
        RecordDomainEvent(InvalidTransfer(f.id));
        return false;
      }
      var state := rootEntity.state;
      RecordDomainEvent(TransferFulfilAccepted(state.terms));
      RecordStateEvent(TransferFulfiledState(state.terms.id, state.state, state.fulfilment, state.completedTimestamp,
                                             state.fulfil));
      success := true;
    }

    /** Everything recorded goes out, each message to the topic of its kind. */
    method Commit()
      modifies this`uncommittedEvents, this`evts, this`log
      ensures evts == old(evts) + DomainOf(old(uncommittedEvents))
      ensures log == old(log) + StatesOf(old(uncommittedEvents))
    {
      if |uncommittedEvents| <= 0 { return; }
      for i := 0 to |uncommittedEvents|
        invariant uncommittedEvents == old(uncommittedEvents)
        invariant evts == old(evts) + DomainOf(uncommittedEvents[..i])
        invariant log == old(log) + StatesOf(uncommittedEvents[..i])
      {
        assert uncommittedEvents[..i + 1][..i] == uncommittedEvents[..i];
        match uncommittedEvents[i]
        case Domain(evt) => evts := evts + [evt];
        case State(stateEvt) => log := log + [stateEvt];
      }
      assert uncommittedEvents[..|uncommittedEvents|] == uncommittedEvents;
      uncommittedEvents := [];
    }

    method HandlePrepare(cmd: TransferCmd, ghost s: TransferService) returns (success: bool)
      requires repo.Valid() && s == View() && cmd.PrepareTransfer?
      modifies this`rootEntity, this`uncommittedEvents, entityDuplicateRepo
      ensures Did(DecideOn(crypto, s, cmd), TransferKey(cmd), s.store, success)
      ensures entityDuplicateRepo.members == s.duplicates + {TransferKey(cmd)}
    {
      hide DecideTransfer;
      var isNotDuplicate := entityDuplicateRepo.AddId(cmd.request.terms.id);
      success := ProcessPrepareTransferCommand(cmd.request, isNotDuplicate);
    }

    /** The other handlers begin by loading the root. */
    method HandleOther(cmd: TransferCmd, ghost s: TransferService) returns (success: bool)
      requires repo.Valid() && s == View() && !cmd.PrepareTransfer?
      modifies this`rootEntity, this`uncommittedEvents, repo`contents, repo.Footprint()
      ensures Did(DecideOn(crypto, s, cmd), TransferKey(cmd), s.store, success)
    {
      hide DecideTransfer;
      Load(TransferKey(cmd));
      success := AfterLoad(cmd);
    }

    method Handle(cmd: TransferCmd, ghost s: TransferService) returns (success: bool)
      requires repo.Valid() && s == View()
      modifies this`rootEntity, this`uncommittedEvents, entityDuplicateRepo, repo`contents, repo.Footprint()
      ensures Did(DecideOn(crypto, s, cmd), TransferKey(cmd), s.store, success)
      ensures entityDuplicateRepo.members == if cmd.PrepareTransfer? then s.duplicates + {TransferKey(cmd)}
                                             else s.duplicates
    {
      hide DecideOn, TransferKey, MessagesOf;
      if cmd.PrepareTransfer? {
        success := HandlePrepare(cmd, s);
      } else {
        success := HandleOther(cmd, s);
      }
    }

    method AfterLoad(cmd: TransferCmd) returns (success: bool)
      requires repo.Valid() && !cmd.PrepareTransfer? && Loaded(TransferKey(cmd)) && uncommittedEvents == []
      modifies this`uncommittedEvents, repo`contents, if rootEntity != null then {rootEntity.state} else {}
      ensures Did(DecideTransfer(crypto, old(Root()), false, cmd), TransferKey(cmd), old(repo.contents), success)
    {
      hide DecideTransfer;
      match cmd
      case AckPayerFundsReserved(id, payer, payee) =>
        success := ProcessAckPayerFundsReservedCommand(id, payer, payee);
      case FulfilTransfer(f) => success := ProcessFulfilTransferCommand(f);
      case AckPayeeFundsCommitted(id, payer, payee) =>
        success := ProcessAckPayeeFundsReservedCommand(id, payer, payee);
    }

    /** After the handler: everything recorded goes out, and the root of an accepted command is stored. */
    method Finish(success: bool, ghost s: TransferService, ghost cmd: TransferCmd, ghost o: TransferOutcome)
      requires Did(o, TransferKey(cmd), s.store, success) && evts == s.evts && log == s.log
      requires entityDuplicateRepo.members == if cmd.PrepareTransfer? then s.duplicates + {TransferKey(cmd)}
                                              else s.duplicates
      modifies this, repo
      ensures repo.Valid() && View() == SettleTransfer(repo.byReference, s, cmd, o)
      ensures forall t :: t in repo.Footprint() ==> t in old(repo.Footprint()) || fresh(t)
    {
      hide DomainOf, StatesOf, MessagesOf;
      MessagesSplit(o);
      Commit();
      if success {
        var exported := rootEntity.ExportState();
        repo.Store(exported);
      }
    }

    /** One command: what is stored and what is published afterwards is what the specification says, for a repository
      * of either kind. */
    method ProcessCommand(cmd: TransferCmd) returns (success: bool)
      requires repo.Valid()
      modifies this, repo, entityDuplicateRepo, repo.Footprint()
      ensures repo.Valid()
      ensures forall t :: t in repo.Footprint() ==> t in old(repo.Footprint()) || fresh(t)
      ensures View() == HandleTransfer(crypto, repo.byReference, old(View()), cmd)
      ensures success == DecideOn(crypto, old(View()), cmd).TransferAccepted?
    {
      hide SettleTransfer, DecideOn, TransferKey, TransferStateRepo.Footprint;
      ghost var s := View();
      success := Handle(cmd, s);
      Finish(success, s, cmd, DecideOn(crypto, s, cmd));
    }
  }

  // ---------- whole runs ----------

  method Process(crypto: Crypto, byReference: bool, cmds: seq<TransferCmd>) returns (agg: TransfersAgg)
    ensures agg.repo.byReference == byReference && agg.View() == RunTransfers(crypto, byReference, cmds)
  {
    hide HandleTransfer;
    var repo := new TransferStateRepo(byReference);
    var duplicates := new RedisDuplicateRepo();
    agg := new TransfersAgg(crypto, repo, duplicates);
    for i := 0 to |cmds|
      invariant fresh(agg) && fresh(repo) && fresh(duplicates) && fresh(repo.Footprint()) && repo.Valid()
      invariant agg.repo == repo && agg.entityDuplicateRepo == duplicates && agg.crypto == crypto
      invariant agg.View() == RunTransfers(crypto, byReference, cmds[..i])
    {
      assert cmds[..i + 1][..i] == cmds[..i];
      var _ := agg.ProcessCommand(cmds[i]);
    }
    assert cmds[..|cmds|] == cmds;
  }

  /** Run on the same commands, the aggregate over references and the one over copies end alike for a transfer - what
    * is stored and everything that was published about it - exactly when no fulfilment leaked into it. */
  method ReferencesDifferExactly(crypto: Crypto, cmds: seq<TransferCmd>)
    returns (references: TransfersAgg, copies: TransfersAgg)
    ensures references.repo.byReference && references.View() == RunTransfers(crypto, true, cmds)
    ensures !copies.repo.byReference && copies.View() == RunTransfers(crypto, false, cmds)
    ensures forall id :: SameFor(references.View(), copies.View(), id) <==> Clean(crypto, cmds, id)
  {
    references := Process(crypto, true, cmds);
    copies := Process(crypto, false, cmds);
    forall id ensures SameFor(references.View(), copies.View(), id) <==> Clean(crypto, cmds, id) {
      ReferencesAgreeExactly(crypto, cmds, id);
    }
  }
}
