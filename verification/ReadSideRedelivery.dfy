/** The read sides when their consumers are delivered state events more than once. */
module ReadSideRedelivery {
  import opened Common
  import opened Decimals
  import opened Participants
  import opened EventSourcing
  import opened Recovery
  import opened Redelivery
  import opened ParticipantReadSide
  import opened Transfers
  import opened Protocol
  import opened TransferReadSide

  // ---------- participants ----------

  /** The position that a state event writes in a currency of a participant. */
  function WritesTo(id: string): (StateEvt, string) -> Option<Num> {
    (e: StateEvt, c: string) =>
      if e.PositionChanged? && e.id == id && e.currency == c then Some(e.position) else None
  }

  function DocumentAccount(p: Participant, es: seq<StateEvt>, k: nat): Account
    requires k < |p.accounts|
  {
    var a := p.accounts[k];
    var x := LastWrite(WritesTo(p.id), es, a.currency);
    if k == FindCurrency(p.accounts, a.currency) && x.Some? then a.(position := x.value) else a
  }

  /** The document of a participant created like this after these events: in each currency, the first account has the
    * position that was written last. */
  function Document(p: Participant, es: seq<StateEvt>): Participant {
    p.(accounts := seq(|p.accounts|, k requires 0 <= k < |p.accounts| => DocumentAccount(p, es, k)))
  }

  lemma {:induction false} OfIsLogOf(log: seq<StateEvt>, id: string)
    ensures Of(StateKey, log, id) == LogOf(log, id)
  {
    if log == [] {
    } else {
      OfIsLogOf(log[..|log| - 1], id);
    }
  }

  lemma AccountStep(p: Participant, es: seq<StateEvt>, e: StateEvt, k: nat)
    requires k < |p.accounts|
    ensures DocumentAccount(p, es, k).currency == p.accounts[k].currency
    ensures DocumentAccount(p, es + [e], k) ==
            if e.PositionChanged? && e.id == p.id && k == FindCurrency(p.accounts, e.currency)
            then DocumentAccount(p, es, k).(position := e.position) else DocumentAccount(p, es, k)
  {
    assert (es + [e])[..|es|] == es;
  }

  lemma SameCurrencies(p: Participant, q: Participant, c: string)
    requires |p.accounts| == |q.accounts|
    requires forall k :: 0 <= k < |p.accounts| ==> p.accounts[k].currency == q.accounts[k].currency
    ensures FindCurrency(q.accounts, c) == FindCurrency(p.accounts, c)
  {
  }

  lemma DocumentStep(p: Participant, es: seq<StateEvt>, e: StateEvt)
    ensures Document(p, es + [e]) ==
            if e.PositionChanged? && e.id == p.id then SetFirst(Document(p, es), e.currency, e.position)
            else Document(p, es)
  {
    hide DocumentAccount;
    var q, r := Document(p, es), Document(p, es + [e]);
    forall k: nat | k < |p.accounts|
      ensures q.accounts[k].currency == p.accounts[k].currency
      ensures r.accounts[k] == if e.PositionChanged? && e.id == p.id && k == FindCurrency(p.accounts, e.currency)
                               then q.accounts[k].(position := e.position) else q.accounts[k]
    {
      AccountStep(p, es, e, k);
    }
    if e.PositionChanged? && e.id == p.id {
      SameCurrencies(p, q, e.currency);
      assert r.accounts == SetFirst(q, e.currency, e.position).accounts;
    } else {
      assert r.accounts == q.accounts;
    }
  }

  /** What is shown after any events in which the creation of the participant comes first among its own. */
  lemma {:induction false} ShownIsDocument(es: seq<StateEvt>, p: Participant)
    requires LogOf(es, p.id) != [] ==> LogOf(es, p.id)[0] == CreatedState(p)
    ensures FindDoc(ProjectAll(es), p.id) == if LogOf(es, p.id) == [] then None else Some(Document(p, es))
    ensures LogOf(es, p.id) == [] ==> Document(p, es) == p
  {
    if es == [] {
      assert Document(p, es).accounts == p.accounts;
    } else {
      var init, e := es[..|es| - 1], es[|es| - 1];
      ShownIsDocument(init, p);
      DocumentStep(p, init, e);
      assert es == init + [e];
      match e
      case CreatedState(q) => FindDocAppend(ProjectAll(init), q, p.id);
      case PositionChanged(id, c, x, _) => FindDocUpdate(ProjectAll(init), id, c, x, p.id);
      case SnapshotState(_) =>
    }
  }

  /** In every run, a read side whose consumer began again at any earlier events, any number of times, shows once it has
    * caught up what it would show had it been delivered each event once. */
  lemma {:induction false} ReadSideCatchesUp(requests: seq<Request>, readings: seq<Reading>, id: string)
    requires Consumes(RunService(requests).log, readings) && Cursor(readings) == Reached(readings)
    ensures Cursor(readings) <= |RunService(requests).log|
    ensures var log := RunService(requests).log;
      FindDoc(ProjectAll(Delivered(log, readings)), id) == FindDoc(ProjectAll(log[..Cursor(readings)]), id)
  {
    hide RunService, ProjectAll, FindDoc, Document;
    var log, c := RunService(requests).log, Cursor(readings);
    var d := Delivered(log, readings);
    AlwaysLogged(requests, id);
    DeliveredFirst(StateKey, log, readings, id);
    OfRange(StateKey, log, 0, c, id);
    OfIsLogOf(d, id);
    OfIsLogOf(log, id);
    OfIsLogOf(log[..c], id);
    var p := if LogOf(log, id) == [] then Participant(id, "", [], [], None) else LogOf(log, id)[0].participant;
    ShownIsDocument(d, p);
    ShownIsDocument(log[..c], p);
    SameWrites(log, readings, p);
  }

  lemma SameWrites(log: seq<StateEvt>, readings: seq<Reading>, p: Participant)
    requires Consumes(log, readings) && Cursor(readings) == Reached(readings) <= |log|
    ensures Document(p, Delivered(log, readings)) == Document(p, log[..Cursor(readings)])
  {
    var d, es := Delivered(log, readings), log[..Cursor(readings)];
    forall c ensures LastWrite(WritesTo(p.id), d, c) == LastWrite(WritesTo(p.id), es, c) {
      CaughtUp(WritesTo(p.id), log, readings, c);
    }
    hide LastWrite;
    assert Document(p, d).accounts == Document(p, es).accounts;
  }

  /** So once it has read the whole log it shows exactly the stored participants, each as stored if its accounts were
    * clear at creation. */
  lemma {:induction false} RedeliveredEqualsStore(requests: seq<Request>, readings: seq<Reading>, id: string)
    requires Consumes(RunService(requests).log, readings) && Cursor(readings) == |RunService(requests).log|
    ensures var s := RunService(requests);
      var doc := FindDoc(ProjectAll(Delivered(s.log, readings)), id);
      && (id in s.store <==> doc.Some?)
      && forall p: Participant :: p.id == id && CreatedAs(s, p) && Clear(p) ==> doc == Get(s.store, id)
  {
    hide RunService, ProjectAll, FindDoc, Clear, CreatedAs;
    var log := RunService(requests).log;
    CursorReached(log, readings);
    ReadSideCatchesUp(requests, readings, id);
    assert log[..|log|] == log;
    ReadSideEqualsStore(requests, id);
  }

  /** Until then it may show a position that was already written over: here the last of two, and then the first. */
  lemma OlderPositionShows(p: Participant, c: string, x: Num, y: Num)
    requires HasPosition(p, c) && x != y
    ensures var log := [CreatedState(p), PositionChanged(p.id, c, x, None), PositionChanged(p.id, c, y, None)];
      var once, again := [Reading(0, 3)], [Reading(0, 3), Reading(1, 2)];
      && Consumes(log, again)
      && FindDoc(ProjectAll(Delivered(log, once)), p.id) == Some(SetFirst(p, c, y))
      && FindDoc(ProjectAll(Delivered(log, again)), p.id) == Some(SetFirst(p, c, x))
      && SetFirst(p, c, x) != SetFirst(p, c, y)
  {
    hide SetFirst, ProjectAll, FindDoc, UpdateDocs, Delivered, Consumes;
    var e, f, g := CreatedState(p), PositionChanged(p.id, c, x, None), PositionChanged(p.id, c, y, None);
    var log := [e, f, g];
    DeliveredAgain(log, 1, 2);
    assert log[1..2] == [f] && [e, f, g] == [e, f] + [g] && [e, f] == [e] + [f];
    CreatedShows(p);
    ProjectAppend([e], f);
    ProjectAppend([e, f], g);
    ProjectAppend(log, f);
    FindDocUpdate(ProjectAll([e]), p.id, c, x, p.id);
    FindDocUpdate(ProjectAll([e, f]), p.id, c, y, p.id);
    FindDocUpdate(ProjectAll(log), p.id, c, x, p.id);
    SetTwice(p, c, x, y);
    SetTwice(SetFirst(p, c, x), c, y, x);
    SetTwice(p, c, x, x);
  }

  lemma DeliveredAgain<E>(log: seq<E>, from: nat, to: nat)
    requires from <= to <= |log|
    ensures var once, again := [Reading(0, |log|)], [Reading(0, |log|), Reading(from, to)];
      && Consumes(log, once) && Delivered(log, once) == log
      && Consumes(log, again) && Delivered(log, again) == log + log[from..to]
  {
    var once, again := [Reading(0, |log|)], [Reading(0, |log|), Reading(from, to)];
    assert again[..1] == once && once[..0] == [] && log[0..|log|] == log;
    assert Consumes(log, []);
    assert Consumes(log, once);
    assert Delivered(log, []) == [];
  }

  lemma CreatedShows(p: Participant)
    ensures FindDoc(ProjectAll([CreatedState(p)]), p.id) == Some(p)
  {
    assert [CreatedState(p)][..0] == [];
    assert ProjectAll([]) == [];
  }

  lemma ProjectAppend(es: seq<StateEvt>, e: StateEvt)
    ensures ProjectAll(es + [e]) == Project(ProjectAll(es), e)
  {
    assert (es + [e])[..|es|] == es;
  }

  lemma SetTwice(p: Participant, c: string, x: Num, y: Num)
    requires HasPosition(p, c)
    ensures HasPosition(SetFirst(p, c, x), c) && SetFirst(SetFirst(p, c, x), c, y) == SetFirst(p, c, y)
    ensures x != y ==> SetFirst(p, c, x) != SetFirst(p, c, y)
  {
    var i := FindCurrency(p.accounts, c);
    assert i <= FindPosition(p.accounts, c);
    var q := SetFirst(p, c, x);
    SameCurrencies(p, q, c);
    assert SetFirst(q, c, y).accounts == SetFirst(p, c, y).accounts;
    assert SameStatics(p, q);
    SameStaticsFind(p, q, c);
    assert q.accounts[i].position == x && SetFirst(p, c, y).accounts[i].position == y;
  }

  // ---------- transfers ----------

  function TransferStateKey(e: TransferStateEvt): string {
    match e
    case TransferPreparedState(t) => t.terms.id
    case TransferStateChanged(id, _) => id
    case TransferFulfiledState(id, _, _, _, _) => id
  }

  /** The two parts of a document that updates write: the state, and what a fulfilment sets besides. */
  datatype Part = StatePart | FulfilPart

  datatype PartValue =
    | StateIs(state: InternalState)
    | FulfilIs(fulfilment: Option<string>, completedTimestamp: Option<string>, fulfil: Option<Raw>)

  function PartsOf(id: string): (TransferStateEvt, Part) -> Option<PartValue> {
    (e: TransferStateEvt, part: Part) =>
      if TransferStateKey(e) != id then None
      else
        match e
        case TransferPreparedState(_) => None
        case TransferStateChanged(_, state) => if part.StatePart? then Some(StateIs(state)) else None
        case TransferFulfiledState(_, _, fulfilment, completed, fulfil) =>
          Some(if part.StatePart? then StateIs(RECEIVED_FULFIL) else FulfilIs(fulfilment, completed, fulfil))
  }

  function WithPart(doc: Transfer, x: Option<PartValue>): Transfer {
    match x
    case None => doc
    case Some(StateIs(state)) => doc.(state := state)
    case Some(FulfilIs(fulfilment, completed, fulfil)) =>
      doc.(fulfilment := fulfilment, completedTimestamp := completed, fulfil := fulfil)
  }

  /** The document of a transfer prepared like this after these events. */
  function TransferDocument(t: Transfer, es: seq<TransferStateEvt>): Transfer {
    var w := PartsOf(t.terms.id);
    WithPart(WithPart(Inserted(t), LastWrite(w, es, FulfilPart)), LastWrite(w, es, StatePart))
  }

  /** Each part only ever gets values of its kind. */
  lemma {:induction false} KindsMatch(id: string, es: seq<TransferStateEvt>)
    ensures var s, f := LastWrite(PartsOf(id), es, StatePart), LastWrite(PartsOf(id), es, FulfilPart);
      (s.Some? ==> s.value.StateIs?) && (f.Some? ==> f.value.FulfilIs?)
  {
    if es == [] {
    } else {
      KindsMatch(id, es[..|es| - 1]);
    }
  }

  lemma TransferDocumentStep(t: Transfer, es: seq<TransferStateEvt>, e: TransferStateEvt)
    ensures TransferDocument(t, es + [e]) ==
            if TransferStateKey(e) == t.terms.id then Amend(TransferDocument(t, es), e) else TransferDocument(t, es)
  {
    assert (es + [e])[..|es|] == es;
    KindsMatch(t.terms.id, es);
  }

  /** What is shown after any events in which the preparation of the transfer comes first among its own. */
  lemma {:induction false} ShownIsTransfer(es: seq<TransferStateEvt>, t: Transfer)
    requires var own := Of(TransferStateKey, es, t.terms.id); own != [] ==> own[0] == TransferPreparedState(t)
    ensures var own := Of(TransferStateKey, es, t.terms.id);
      && FindTransfer(ProjectTransfers(es), t.terms.id) == (if own == [] then None else Some(TransferDocument(t, es)))
      && (own == [] ==> TransferDocument(t, es) == Inserted(t))
  {
    if es == [] {
    } else {
      var init, e := es[..|es| - 1], es[|es| - 1];
      ShownIsTransfer(init, t);
      TransferDocumentStep(t, init, e);
      assert es == init + [e];
      match e
      case TransferPreparedState(u) => FindInserted(ProjectTransfers(init), Inserted(u), t.terms.id);
      case TransferStateChanged(id, _) => FindAmended(ProjectTransfers(init), id, e, t.terms.id);
      case TransferFulfiledState(id, _, _, _, _) => FindAmended(ProjectTransfers(init), id, e, t.terms.id);
    }
  }

  /** The first state event of a transfer is its preparation, and a stored transfer has one. */
  ghost predicate PreparedFirst(s: TransferService, id: string) {
    var own := Of(TransferStateKey, s.log, id);
    && (own != [] ==> own[0].TransferPreparedState?)
    && (id in s.store ==> own != [] && s.store[id].terms.id == id)
  }

  lemma PreparedFirstStep(x: Crypto, byReference: bool, s: TransferService, cmd: TransferCmd, id: string)
    requires PreparedFirst(s, id) && PreparedFirst(s, TransferKey(cmd))
    ensures PreparedFirst(HandleTransfer(x, byReference, s, cmd), id)
  {
    hide Fulfils, FulfilmentToCondition;
    var o := DecideOn(x, s, cmd);
    if o.TransferAccepted? {
      assert (s.log + [o.stateEvt])[..|s.log|] == s.log;
    }
  }

  lemma {:induction false} AlwaysPreparedFirst(x: Crypto, byReference: bool, actions: seq<Action>, id: string)
    ensures PreparedFirst(Run(x, byReference, actions).transfers, id)
  {
    hide Decide, Settle, HandleTransfer, PreparedFirst;
    if actions == [] {
      NothingPrepared(id);
    } else {
      var init, a := actions[..|actions| - 1], actions[|actions| - 1];
      var s := Run(x, byReference, init);
      AlwaysPreparedFirst(x, byReference, init, id);
      ExecTransfers(x, byReference, s, a);
      if Enabled(s, a) && a.HandleTransferCmd? {
        AlwaysPreparedFirst(x, byReference, init, TransferKey(s.transferCmds[a.i]));
        PreparedFirstStep(x, byReference, s.transfers, s.transferCmds[a.i], id);
      } else {
        PreparedFirstKept(s.transfers, Exec(x, byReference, s, a).transfers, id);
      }
    }
  }

  lemma NothingPrepared(id: string)
    ensures PreparedFirst(NO_TRANSFERS, id)
  {
  }

  lemma ExecTransfers(x: Crypto, byReference: bool, s: State, a: Action)
    ensures var t := Exec(x, byReference, s, a).transfers;
      if Enabled(s, a) && a.HandleTransferCmd?
      then t == HandleTransfer(x, byReference, s.transfers, s.transferCmds[a.i])
      else
        && t.log == s.transfers.log
        && (forall id :: id in t.store ==> id in s.transfers.store && t.store[id] == s.transfers.store[id])
  {
    hide Decide, Settle, DecideOn, SettleTransfer;
  }

  lemma PreparedFirstKept(s: TransferService, t: TransferService, id: string)
    requires PreparedFirst(s, id) && t.log == s.log
    requires id in t.store ==> id in s.store && t.store[id] == s.store[id]
    ensures PreparedFirst(t, id)
  {
  }

  /** In every run of the protocol, a read side whose consumer began again at any earlier events, any number of times,
    * shows once it has caught up what it would show had it been delivered each event once. */
  lemma {:induction false} TransferReadSideCatchesUp(x: Crypto, byReference: bool, actions: seq<Action>,
                                                     readings: seq<Reading>, id: string)
    requires Consumes(Run(x, byReference, actions).transfers.log, readings) && Cursor(readings) == Reached(readings)
    ensures Cursor(readings) <= |Run(x, byReference, actions).transfers.log|
    ensures var log := Run(x, byReference, actions).transfers.log;
      FindTransfer(ProjectTransfers(Delivered(log, readings)), id) ==
      FindTransfer(ProjectTransfers(log[..Cursor(readings)]), id)
  {
    hide Run, ProjectTransfers, FindTransfer, TransferDocument;
    var log, c := Run(x, byReference, actions).transfers.log, Cursor(readings);
    var d := Delivered(log, readings);
    AlwaysPreparedFirst(x, byReference, actions, id);
    DeliveredFirst(TransferStateKey, log, readings, id);
    OfRange(TransferStateKey, log, 0, c, id);
    var own := Of(TransferStateKey, log, id);
    if own == [] {
      var t := Prepared(PrepareRequest(Terms(id, "", "", "", ZERO), "", "", Raw("", "")));
      ShownIsTransfer(d, t);
      ShownIsTransfer(log[..c], t);
    } else {
      var t := own[0].transfer;
      FirstHasKey(TransferStateKey, log, id);
      ShownIsTransfer(d, t);
      ShownIsTransfer(log[..c], t);
      SameParts(log, readings, t);
    }
  }

  /** So once it has read the whole log it shows each stored transfer as it is. */
  lemma {:induction false} RedeliveredEqualsTransfers(x: Crypto, byReference: bool, actions: seq<Action>,
                                                      readings: seq<Reading>, id: string)
    requires var log := Run(x, byReference, actions).transfers.log;
      Consumes(log, readings) && Cursor(readings) == |log|
    requires id in Run(x, byReference, actions).transfers.store
    ensures var s := Run(x, byReference, actions).transfers;
      var doc := FindTransfer(ProjectTransfers(Delivered(s.log, readings)), id);
      doc.Some? && Shows(doc.value, s.store[id])
  {
    hide Run, ProjectTransfers, FindTransfer;
    var log := Run(x, byReference, actions).transfers.log;
    CursorReached(log, readings);
    TransferReadSideCatchesUp(x, byReference, actions, readings, id);
    assert log[..|log|] == log;
    TransferReadSideEqualsStore(x, byReference, actions, id);
  }

  lemma {:induction false} FirstHasKey<E>(key: E -> string, log: seq<E>, id: string)
    requires Of(key, log, id) != []
    ensures key(Of(key, log, id)[0]) == id
  {
    if Of(key, log[..|log| - 1], id) != [] {
      FirstHasKey(key, log[..|log| - 1], id);
    }
  }

  lemma SameParts(log: seq<TransferStateEvt>, readings: seq<Reading>, t: Transfer)
    requires Consumes(log, readings) && Cursor(readings) == Reached(readings) <= |log|
    ensures TransferDocument(t, Delivered(log, readings)) == TransferDocument(t, log[..Cursor(readings)])
  {
    CaughtUp(PartsOf(t.terms.id), log, readings, StatePart);
    CaughtUp(PartsOf(t.terms.id), log, readings, FulfilPart);
  }
}
