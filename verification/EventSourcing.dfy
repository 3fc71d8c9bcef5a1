/** A participant rebuilt from its state events: replay, replay over a snapshot, and a cache that may lose entries. */
module EventSourcing {
  import opened Common
  import opened Decimals
  import opened Participants

  // ---------- the appliers ----------

  datatype ReplayError = NullRoot | NoAccount

  /** The replay applier writes every POSITION account of the currency. */
  function SetPositions(p: Participant, c: string, x: Num): Participant {
    p.(accounts := seq(|p.accounts|, i requires 0 <= i < |p.accounts| =>
      if IsPosition(p.accounts[i], c) then p.accounts[i].(position := x) else p.accounts[i]))
  }

  function ApplyState(root: Option<Participant>, e: StateEvt): Result<Option<Participant>, ReplayError> {
    match e
    case CreatedState(p) => Success(Some(p))
    case SnapshotState(p) => Success(Some(p))
    case PositionChanged(_, c, x, _) =>
      if root.None? then Failure(NullRoot)
      else if !HasPosition(root.value, c) then Failure(NoAccount)
      else Success(Some(SetPositions(root.value, c, x)))
  }

  /** The appliers run one after the other, in the order of the events, because none of them ever waits. */
  function Replay(root: Option<Participant>, es: seq<StateEvt>): Result<Option<Participant>, ReplayError> {
    if es == [] then Success(root)
    else
      match Replay(root, es[..|es| - 1])
      case Failure(e) => Failure(e)
      case Success(p) => ApplyState(p, es[|es| - 1])
  }

  function StateKey(e: StateEvt): string {
    match e
    case CreatedState(p) => p.id
    case SnapshotState(p) => p.id
    case PositionChanged(id, _, _, _) => id
  }

  /** The state events of one participant. */
  function LogOf(log: seq<StateEvt>, id: string): seq<StateEvt> {
    if log == [] then []
    else
      var init, e := LogOf(log[..|log| - 1], id), log[|log| - 1];
      if StateKey(e) == id then init + [e] else init
  }

  /** The position changes of a log applied to a participant that has the accounts. */
  function SetAll(p: Participant, es: seq<StateEvt>): Participant {
    if es == [] then p
    else
      var init, e := SetAll(p, es[..|es| - 1]), es[|es| - 1];
      if e.PositionChanged? then SetPositions(init, e.currency, e.position) else init
  }

  /** Only position changes, each on a POSITION account that the participant has. */
  ghost predicate Changes(p: Participant, es: seq<StateEvt>) {
    forall k :: 0 <= k < |es| ==> es[k].PositionChanged? && HasPosition(p, es[k].currency)
  }

  lemma {:induction false} SetAllStatics(p: Participant, es: seq<StateEvt>)
    ensures SameStatics(p, SetAll(p, es))
  {
    if es == [] {
    } else {
      SetAllStatics(p, es[..|es| - 1]);
    }
  }

  lemma {:induction false} ReplayChanges(p: Participant, es: seq<StateEvt>)
    requires Changes(p, es)
    ensures Replay(Some(p), es) == Success(Some(SetAll(p, es)))
  {
    if es == [] {
    } else {
      var init := es[..|es| - 1];
      ReplayChanges(p, init);
      SetAllStatics(p, init);
      SameStaticsFind(p, SetAll(p, init), es[|es| - 1].currency);
    }
  }

  lemma {:induction false} ReplaySplit(root: Option<Participant>, a: seq<StateEvt>, b: seq<StateEvt>)
    requires Replay(root, a).Success?
    ensures Replay(root, a + b) == Replay(Replay(root, a).value, b)
  {
    if b == [] {
      assert a + b == a;
    } else {
      ReplaySplit(root, a, b[..|b| - 1]);
      assert (a + b)[..|a + b| - 1] == a + b[..|b| - 1];
    }
  }

  lemma {:induction false} SetAllSplit(p: Participant, a: seq<StateEvt>, b: seq<StateEvt>)
    ensures SetAll(p, a + b) == SetAll(SetAll(p, a), b)
  {
    if b == [] {
      assert a + b == a;
    } else {
      SetAllSplit(p, a, b[..|b| - 1]);
      assert (a + b)[..|a + b| - 1] == a + b[..|b| - 1];
    }
  }

  lemma LogOfAppend(log: seq<StateEvt>, e: StateEvt, id: string)
    ensures LogOf(log + [e], id) == LogOf(log, id) + (if StateKey(e) == id then [e] else [])
  {
  }

  // ---------- snapshots that overlap the log ----------

  function Currencies(es: seq<StateEvt>): set<string> {
    set e | e in es && e.PositionChanged? :: e.currency
  }

  /** Two states of a participant that differ in positions of the given currencies only. */
  ghost predicate AgreeBut(p: Participant, q: Participant, cs: set<string>) {
    && SameStatics(p, q)
    && forall k {:trigger p.accounts[k]} :: 0 <= k < |p.accounts| ==>
         p.accounts[k] == q.accounts[k] || (p.accounts[k].kind == POSITION && p.accounts[k].currency in cs)
  }

  lemma {:induction false} SetAllTouches(p: Participant, es: seq<StateEvt>)
    ensures AgreeBut(p, SetAll(p, es), Currencies(es))
  {
    if es == [] {
    } else {
      var init, e := es[..|es| - 1], es[|es| - 1];
      SetAllTouches(p, init);
      assert es == init + [e];
      SetAllStatics(p, es);
      assert Currencies(init) <= Currencies(es);
      assert e.PositionChanged? ==> e.currency in Currencies(es);
    }
  }

  /** Positions in events are absolute, so what an event writes no longer depends on what was there. */
  lemma {:induction false} SetAllOverwrites(p: Participant, q: Participant, cs: set<string>, es: seq<StateEvt>)
    requires AgreeBut(p, q, cs)
    ensures AgreeBut(SetAll(p, es), SetAll(q, es), cs - Currencies(es))
  {
    if es == [] {
    } else {
      var init, e := es[..|es| - 1], es[|es| - 1];
      assert es == init + [e];
      SetAllOverwrites(p, q, cs, init);
      OverwriteOne(SetAll(p, init), SetAll(q, init), cs - Currencies(init), e);
      assert cs - Currencies(es) == (cs - Currencies(init)) - Currencies([e]);
    }
  }

  lemma OverwriteOne(p: Participant, q: Participant, cs: set<string>, e: StateEvt)
    requires AgreeBut(p, q, cs)
    ensures AgreeBut(SetAll(p, [e]), SetAll(q, [e]), cs - Currencies([e]))
    ensures e.PositionChanged? ==> SetAll(p, [e]) == SetPositions(p, e.currency, e.position)
                                   && SetAll(q, [e]) == SetPositions(q, e.currency, e.position)
    ensures !e.PositionChanged? ==> SetAll(p, [e]) == p && SetAll(q, [e]) == q
  {
  }

  /** A snapshot taken after the first k changes, replayed over with the changes from any j <= k on, ends where the
    * whole log ends. */
  lemma SnapshotOverlap(p: Participant, es: seq<StateEvt>, k: nat, j: nat)
    requires Changes(p, es) && j <= k <= |es|
    ensures Replay(Some(SetAll(p, es[..k])), es[j..]) == Success(Some(SetAll(p, es)))
  {
    var before, snap := SetAll(p, es[..j]), SetAll(p, es[..k]);
    assert es[..k] == es[..j] + es[j..k] && es == es[..j] + es[j..] && es[j..] == es[j..k] + es[k..];
    SetAllSplit(p, es[..j], es[j..k]);
    SetAllTouches(before, es[j..k]);
    SetAllOverwrites(before, snap, Currencies(es[j..k]), es[j..]);
    assert Currencies(es[j..k]) <= Currencies(es[j..]);
    assert SetAll(before, es[j..]).accounts == SetAll(snap, es[j..]).accounts;
    SetAllSplit(p, es[..j], es[j..]);
    SetAllStatics(p, es[..k]);
    forall c ensures HasPosition(snap, c) == HasPosition(p, c) {
      SameStaticsFind(p, snap, c);
    }
    ReplayChanges(snap, es[j..]);
  }

  // ---------- the store equals the log ----------

  /** At most one POSITION account per currency. */
  ghost predicate UniquePositions(p: Participant) {
    forall i, j :: 0 <= i < j < |p.accounts| && p.accounts[i].kind == POSITION && p.accounts[j].kind == POSITION ==>
      p.accounts[i].currency != p.accounts[j].currency
  }

  lemma FirstIsAll(p: Participant, c: string, x: Num)
    requires UniquePositions(p) && HasPosition(p, c)
    ensures SetPositions(p, c, x) == WithPosition(p, FindPosition(p.accounts, c), x)
  {
  }

  /** The log of a participant is its creation and then changes to accounts it has. */
  ghost predicate LogShape(es: seq<StateEvt>, id: string) {
    es != [] && es[0].CreatedState? && es[0].participant.id == id && Changes(es[0].participant, es[1..])
  }

  /** What is stored is what the first k events of the log make of the creation. */
  ghost predicate Reaches(es: seq<StateEvt>, k: nat, p: Participant)
    requires es != [] && es[0].CreatedState?
  {
    && 1 <= k <= |es| && SameStatics(es[0].participant, p)
    && (UniquePositions(p) ==> p == SetAll(es[0].participant, es[1..k]))
  }

  ghost predicate SnapshotOk(es: seq<StateEvt>, id: string, snap: StateEvt) {
    snap.SnapshotState? && LogShape(es, id) && exists k: nat :: Reaches(es, k, snap.participant)
  }

  /** The stored participant is its whole log, and each snapshot a prefix of it. */
  ghost predicate Logged(s: ParticipantService, id: string) {
    var es := LogOf(s.log, id);
    && (if id in s.store
        then s.store[id].id == id && LogShape(es, id) && Reaches(es, |es|, s.store[id])
        else es == [])
    && forall snap :: snap in s.snapshots && StateKey(snap) == id ==> SnapshotOk(es, id, snap)
  }

  lemma LogGrows(es: seq<StateEvt>, e: StateEvt, id: string, snap: StateEvt)
    requires SnapshotOk(es, id, snap) && LogShape(es + [e], id)
    ensures SnapshotOk(es + [e], id, snap)
  {
    var k: nat :| Reaches(es, k, snap.participant);
    assert (es + [e])[1..k] == es[1..k];
    assert Reaches(es + [e], k, snap.participant);
  }

  /** What an accepted command logs is exactly the change it makes. */
  ghost predicate Logs(root: Option<Participant>, o: Outcome, id: string) {
    o.Accepted? ==>
      && o.root.id == id == StateKey(o.stateEvt)
      && match o.stateEvt
         case CreatedState(p) => root.None? && p == o.root
         case SnapshotState(p) => root.Some? && p == o.root == root.value
         case PositionChanged(_, c, x, _) =>
           && root.Some? && HasPosition(root.value, c) && SameStatics(root.value, o.root)
           && (UniquePositions(root.value) ==> o.root == SetPositions(root.value, c, x))
  }

  lemma ReserveLogs(p: Participant, other: Option<Participant>, t: Terms)
    requires p.id == t.payer
    ensures Logs(Some(p), DecideReserve(Some(p), other, t), t.payer)
  {
  }

  lemma CommitLogs(p: Participant, other: Option<Participant>, t: Terms)
    requires p.id == t.payee
    ensures Logs(Some(p), DecideCommit(Some(p), other, t), t.payee)
  {
  }

  lemma DecisionLogs(root: Option<Participant>, other: Option<Participant>, cmd: Cmd)
    requires root.Some? ==> root.value.id == Key(cmd)
    ensures Logs(root, Decide(root, other, cmd), Key(cmd))
  {
    if root.Some? {
      match cmd
      case ReservePayerFunds(t) => ReserveLogs(root.value, other, t);
      case CommitPayeeFunds(t) => CommitLogs(root.value, other, t);
      case _ =>
    }
  }

  lemma ChangeReaches(es: seq<StateEvt>, id: string, p: Participant, e: StateEvt, q: Participant)
    requires LogShape(es, id) && Reaches(es, |es|, p)
    requires e.PositionChanged? && HasPosition(p, e.currency) && SameStatics(p, q)
    requires UniquePositions(p) ==> q == SetPositions(p, e.currency, e.position)
    ensures LogShape(es + [e], id) && Reaches(es + [e], |es| + 1, q)
  {
    SameStaticsFind(es[0].participant, p, e.currency);
    assert (es + [e])[1..] == es[1..] + [e];
    assert (es[1..] + [e])[..|es| - 1] == es[1..];
    assert UniquePositions(q) ==> UniquePositions(p);
    assert (es + [e])[1..|es| + 1] == es[1..] + [e] && es[1..|es|] == es[1..];
  }

  lemma LoggedChange(s: ParticipantService, o: Outcome, id: string)
    requires Logged(s, id) && o.Accepted? && o.stateEvt.PositionChanged? && Logs(Get(s.store, id), o, id)
    ensures Logged(Settle(s, o), id)
  {
    var es, e := LogOf(s.log, id), o.stateEvt;
    LogOfAppend(s.log, e, id);
    ChangeReaches(es, id, s.store[id], e, o.root);
    forall snap | snap in s.snapshots && StateKey(snap) == id ensures SnapshotOk(es + [e], id, snap) {
      LogGrows(es, e, id, snap);
    }
  }

  lemma LoggedCreation(s: ParticipantService, o: Outcome, id: string)
    requires Logged(s, id) && o.Accepted? && o.stateEvt.CreatedState? && Logs(Get(s.store, id), o, id)
    ensures Logged(Settle(s, o), id)
  {
  }

  lemma {:induction false} LoggedByOutcome(s: ParticipantService, o: Outcome, key: string, id: string)
    requires Logged(s, id) && Logs(Get(s.store, key), o, key)
    ensures Logged(Settle(s, o), id)
  {
    if o.Accepted? && key == id {
      match o.stateEvt
      case CreatedState(_) => LoggedCreation(s, o, id);
      case PositionChanged(_, _, _, _) => LoggedChange(s, o, id);
      case SnapshotState(_) => assert Reaches(LogOf(s.log, id), |LogOf(s.log, id)|, o.root);
    } else if o.Accepted? {
      LogOfAppend(s.log, o.stateEvt, id);
    }
  }

  lemma {:induction false} LoggedStep(s: ParticipantService, cmd: Cmd, other: Option<Participant>, id: string)
    requires Logged(s, id) && Logged(s, Key(cmd))
    ensures Logged(HandleParticipant(s, cmd, other), id)
  {
    DecisionLogs(Get(s.store, Key(cmd)), other, cmd);
    LoggedByOutcome(s, Decide(Get(s.store, Key(cmd)), other, cmd), Key(cmd), id);
  }
}
