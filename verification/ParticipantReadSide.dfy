/** The Mongo read side of participants, and when it, replay and the live code make the same of a log. */
module ParticipantReadSide {
  import opened Common
  import opened Decimals
  import opened Participants
  import opened EventSourcing
  import opened Recovery

  // ---------- the collection ----------

  /** The first account in the currency, of whatever type, or the number of accounts when there is none. */
  function FindCurrency(accounts: seq<Account>, c: string): (i: nat)
    ensures i <= |accounts|
    ensures i < |accounts| ==> accounts[i].currency == c
    ensures forall j :: 0 <= j < i ==> accounts[j].currency != c
  {
    if accounts == [] then 0
    else if accounts[0].currency == c then 0
    else 1 + FindCurrency(accounts[1..], c)
  }

  /** The positional update writes the array element that the query matched by currency. */
  function SetFirst(p: Participant, c: string, x: Num): Participant {
    var i := FindCurrency(p.accounts, c);
    if i < |p.accounts| then WithPosition(p, i, x) else p
  }

  predicate Matches(doc: Participant, id: string, c: string) {
    doc.id == id && FindCurrency(doc.accounts, c) < |doc.accounts|
  }

  /** The update goes to the first document that has the id and an account in the currency. */
  function UpdateDocs(docs: seq<Participant>, id: string, c: string, x: Num): seq<Participant> {
    if docs == [] then []
    else if Matches(docs[0], id, c) then [SetFirst(docs[0], c, x)] + docs[1..]
    else [docs[0]] + UpdateDocs(docs[1..], id, c, x)
  }

  function FindDoc(docs: seq<Participant>, id: string): Option<Participant> {
    if docs == [] then None
    else if docs[0].id == id then Some(docs[0])
    else FindDoc(docs[1..], id)
  }

  /** What the read side's event handler makes of a state event. */
  function Project(docs: seq<Participant>, e: StateEvt): seq<Participant> {
    match e
    case CreatedState(p) => docs + [p]
    case PositionChanged(id, c, x, _) => UpdateDocs(docs, id, c, x)
    case SnapshotState(_) => docs
  }

  function ProjectAll(log: seq<StateEvt>): seq<Participant> {
    if log == [] then [] else Project(ProjectAll(log[..|log| - 1]), log[|log| - 1])
  }

  /** The document at index i, the first with the id and an account in the currency, gets this position on its first
    * account in it, and nothing else changes; without such a document nothing does. */
  ghost predicate Updated(docs: seq<Participant>, id: string, c: string, x: Num, after: seq<Participant>) {
    if exists i, k :: 0 <= i < |docs| && docs[i].id == id && 0 <= k < |docs[i].accounts|
                      && docs[i].accounts[k].currency == c
    then
      |after| == |docs| && exists i: nat, k: nat :: UpdatedAt(docs, id, c, x, after, i, k)
    else after == docs
  }

  ghost predicate UpdatedAt(docs: seq<Participant>, id: string, c: string, x: Num, after: seq<Participant>, i: nat,
                            k: nat)
    requires |after| == |docs|
  {
    && i < |docs| && docs[i].id == id && k < |docs[i].accounts| && docs[i].accounts[k].currency == c
    && (forall j :: 0 <= j < k ==> docs[i].accounts[j].currency != c)
    && (forall h, j :: 0 <= h < i && docs[h].id == id && 0 <= j < |docs[h].accounts| ==>
          docs[h].accounts[j].currency != c)
    && after[i] == docs[i].(accounts := docs[i].accounts[k := docs[i].accounts[k].(position := x)])
    && (forall h :: 0 <= h < |docs| && h != i ==> after[h] == docs[h])
  }

  lemma UpdateTouches(docs: seq<Participant>, i: nat, id: string, c: string, x: Num)
    requires i <= |docs| && forall h :: 0 <= h < i ==> !Matches(docs[h], id, c)
    requires i < |docs| ==> Matches(docs[i], id, c)
    ensures Updated(docs, id, c, x, if i < |docs| then docs[i := SetFirst(docs[i], c, x)] else docs)
  {
    hide FindCurrency;
    if i < |docs| {
      var k := FindCurrency(docs[i].accounts, c);
      assert UpdatedAt(docs, id, c, x, docs[i := SetFirst(docs[i], c, x)], i, k);
    }
  }

  class MongoDbReadsideParticipantRepo {
    var docs: seq<Participant>

    constructor ()
      ensures docs == []
    {
      docs := [];
    }

    method Load(id: string) returns (p: Option<Participant>)
      ensures p == FindDoc(docs, id)
    {
      p := FindDoc(docs, id);
    }

    method Insert(p: Participant) returns (ok: bool)
      modifies this
      ensures docs == old(docs) + [p] && ok
    {
      docs := docs + [p];
      ok := true;
    }

    /** Reports success only when some document was really changed. */
    method UpdatePosition(id: string, c: string, x: Num) returns (ok: bool)
      modifies this
      ensures docs == UpdateDocs(old(docs), id, c, x)
      ensures Updated(old(docs), id, c, x, docs)
      ensures ok <==> docs != old(docs)
    {
      var i := 0;
      while i < |docs| && !Matches(docs[i], id, c)
        invariant i <= |docs| && docs == old(docs)
        invariant forall k :: 0 <= k < i ==> !Matches(docs[k], id, c)
      {
        i := i + 1;
      }
      UpdateDocsAt(docs, i, id, c, x);
      UpdateTouches(docs, i, id, c, x);
      ok := false;
      if i < |docs| {
        var updated := SetFirst(docs[i], c, x);
        ok := updated != docs[i];
        docs := docs[i := updated];
      }
    }
  }

  /** An update changes the first match in place, and nothing when there is none. */
  lemma {:induction false} UpdateDocsAt(docs: seq<Participant>, i: nat, id: string, c: string, x: Num)
    requires i <= |docs| && forall k :: 0 <= k < i ==> !Matches(docs[k], id, c)
    requires i < |docs| ==> Matches(docs[i], id, c)
    ensures UpdateDocs(docs, id, c, x) == if i < |docs| then docs[i := SetFirst(docs[i], c, x)] else docs
  {
    if docs == [] || i == 0 {
    } else {
      UpdateDocsAt(docs[1..], i - 1, id, c, x);
      assert docs == [docs[0]] + docs[1..];
    }
  }

  /** Failures to persist are logged and go no further. */
  class ParticipantStateEvtHandler {
    const repo: MongoDbReadsideParticipantRepo

    constructor (repo: MongoDbReadsideParticipantRepo)
      ensures this.repo == repo
    {
      this.repo := repo;
    }

    method MessageHandler(e: StateEvt)
      modifies repo
      ensures repo.docs == Project(old(repo.docs), e)
    {
      match e
      case CreatedState(p) => var _ := repo.Insert(p);
      case PositionChanged(id, c, x, _) => var _ := repo.UpdatePosition(id, c, x);
      case SnapshotState(_) =>
    }
  }

  lemma {:induction false} FindDocAppend(docs: seq<Participant>, p: Participant, id: string)
    ensures FindDoc(docs + [p], id)
            == if FindDoc(docs, id).Some? then FindDoc(docs, id) else if p.id == id then Some(p) else None
  {
    if docs == [] {
    } else {
      FindDocAppend(docs[1..], p, id);
      assert (docs + [p])[1..] == docs[1..] + [p];
    }
  }

  lemma {:induction false} FindDocUpdate(docs: seq<Participant>, key: string, c: string, x: Num, id: string)
    ensures FindDoc(UpdateDocs(docs, key, c, x), id)
            == match FindDoc(docs, id)
               case None => None
               case Some(p) => Some(if key == id then SetFirst(p, c, x) else p)
  {
    if docs == [] {
    } else {
      FindDocUpdate(docs[1..], key, c, x, id);
    }
  }

  /** What the read side shows of a participant comes from that participant's events alone. */
  lemma {:induction false} FindDocOfLog(log: seq<StateEvt>, id: string)
    ensures FindDoc(ProjectAll(log), id) == FindDoc(ProjectAll(LogOf(log, id)), id)
  {
    if log == [] {
    } else {
      var init, e := log[..|log| - 1], log[|log| - 1];
      FindDocOfLog(init, id);
      var es := LogOf(init, id);
      assert (es + [e])[..|es|] == es;
      match e
      case CreatedState(p) =>
        FindDocAppend(ProjectAll(init), p, id);
        FindDocAppend(ProjectAll(es), p, id);
      case PositionChanged(key, c, x, _) =>
        FindDocUpdate(ProjectAll(init), key, c, x, id);
        FindDocUpdate(ProjectAll(es), key, c, x, id);
      case SnapshotState(_) =>
    }
  }

  // ---------- three interpreters ----------

  /** Replay writes the POSITION accounts of the currency, the read side the first account in it. */
  ghost predicate Written(p: Participant, c: string, k: nat) {
    && k < |p.accounts| && p.accounts[k].currency == c
    && (p.accounts[k].kind == POSITION || k == FindCurrency(p.accounts, c))
  }

  /** Only the account that the live code writes is written; or its position is no finite number, which no command
    * changes, and the others already hold the same. */
  ghost predicate ClearIn(p: Participant, c: string) {
    HasPosition(p, c) ==>
      var f := FindPosition(p.accounts, c);
      forall k: nat :: Written(p, c, k) && k != f ==>
        !p.accounts[f].position.Fin? && p.accounts[k].position == p.accounts[f].position
  }

  ghost predicate Clear(p: Participant) {
    forall c :: ClearIn(p, c)
  }

  /** Each POSITION account is the only one of its currency, and no account of another type precedes it there. */
  ghost predicate Unambiguous(p: Participant) {
    forall i, j {:trigger p.accounts[i], p.accounts[j]} ::
      0 <= i < j < |p.accounts| && p.accounts[i].currency == p.accounts[j].currency ==> p.accounts[j].kind != POSITION
  }

  ghost predicate FinitePositions(p: Participant) {
    forall k :: 0 <= k < |p.accounts| && p.accounts[k].kind == POSITION ==> p.accounts[k].position.Fin?
  }

  /** Between finite positions only the accounts matter, not what they hold. */
  lemma ClearIsUnambiguous(p: Participant)
    ensures Unambiguous(p) ==> Clear(p)
    ensures FinitePositions(p) ==> (Clear(p) <==> Unambiguous(p))
  {
    if !Unambiguous(p) && FinitePositions(p) {
      var i, j :| 0 <= i < j < |p.accounts| && p.accounts[i].currency == p.accounts[j].currency
        && p.accounts[j].kind == POSITION;
      var c := p.accounts[j].currency;
      assert IsPosition(p.accounts[j], c);
      var f, g := FindPosition(p.accounts, c), FindCurrency(p.accounts, c);
      assert Written(p, c, j) && Written(p, c, g);
      assert !ClearIn(p, c);
    }
  }

  /** Where accounts are clear, all three make the same of a change that the live code can log. */
  lemma ClearChange(p: Participant, c: string, x: Num)
    requires Clear(p) && HasPosition(p, c)
    requires CurrentPosition(p, c).Fin? || x == CurrentPosition(p, c)
    ensures var q := WithPosition(p, FindPosition(p.accounts, c), x);
      q == SetPositions(p, c, x) == SetFirst(p, c, x) && Clear(q)
  {
    var f, g := FindPosition(p.accounts, c), FindCurrency(p.accounts, c);
    var q := WithPosition(p, f, x);
    assert ClearIn(p, c);
    assert forall k: nat :: k < |p.accounts| && IsPosition(p.accounts[k], c) ==> Written(p, c, k);
    assert Written(p, c, g);
    assert SetPositions(p, c, x).accounts == q.accounts;
    assert SetFirst(p, c, x).accounts == q.accounts;
    forall d ensures ClearIn(q, d) {
      WithPositionFrame(p, c, x);
      ClearInStays(p, q, c, d);
    }
  }

  lemma ClearInStays(p: Participant, q: Participant, c: string, d: string)
    requires SameStatics(p, q) && ClearIn(p, d) && HasPosition(p, c)
    requires forall k: nat :: k < |p.accounts| && k != FindPosition(p.accounts, c) ==> q.accounts[k] == p.accounts[k]
    requires var f := FindPosition(p.accounts, c);
      CurrentPosition(p, c).Fin? || q.accounts[f] == p.accounts[f]
    ensures ClearIn(q, d)
  {
    SameStaticsFind(p, q, d);
    SameCurrency(p, q, d);
    assert forall k: nat :: Written(q, d, k) ==> Written(p, d, k);
  }

  lemma SameCurrency(p: Participant, q: Participant, c: string)
    requires SameStatics(p, q)
    ensures FindCurrency(p.accounts, c) == FindCurrency(q.accounts, c)
  {
    assert forall k :: 0 <= k < |p.accounts| ==> p.accounts[k].currency == q.accounts[k].currency;
  }

  /** What a command logs is the position it leaves in the first POSITION account, and no command changes one that is
    * no finite number. */
  lemma LoggedPosition(p: Participant, other: Option<Participant>, cmd: Cmd)
    requires Decide(Some(p), other, cmd).Accepted? && Decide(Some(p), other, cmd).stateEvt.PositionChanged?
    ensures var o := Decide(Some(p), other, cmd);
      var c, x := o.stateEvt.currency, o.stateEvt.position;
      && HasPosition(p, c) && o.root == WithPosition(p, FindPosition(p.accounts, c), x)
      && (CurrentPosition(p, c).Fin? || x == CurrentPosition(p, c))
  {
    var c := cmd.terms.currency;
    var i := FindPosition(p.accounts, c);
    assert i < |p.accounts| ==> WithPosition(p, i, p.accounts[i].position).accounts == p.accounts;
  }

  // ---------- the read side of a run ----------

  /** Replay of the log and the read side both give the stored participant. */
  ghost predicate Agree(s: ParticipantService, id: string) {
    && id in s.store && Replay(None, LogOf(s.log, id)) == Success(Some(s.store[id]))
    && FindDoc(ProjectAll(s.log), id) == Some(s.store[id])
  }

  ghost predicate CreatedAs(s: ParticipantService, p: Participant) {
    var es := LogOf(s.log, p.id);
    es != [] && es[0] == CreatedState(p)
  }

  /** The read side has a document for exactly the stored participants, and all three agree on one whose accounts were
    * clear at creation. */
  ghost predicate MirrorOk(s: ParticipantService, id: string) {
    && (id in s.store <==> FindDoc(ProjectAll(s.log), id).Some?)
    && forall p: Participant :: p.id == id && CreatedAs(s, p) && Clear(p) ==> Agree(s, id) && Clear(s.store[id])
  }

  lemma MirrorChange(s: ParticipantService, o: Outcome, key: string, id: string)
    requires Logged(s, id) && MirrorOk(s, id) && o.Accepted? && o.stateEvt.PositionChanged?
    requires key in s.store && o.root.id == key == StateKey(o.stateEvt)
    requires var c, x := o.stateEvt.currency, o.stateEvt.position;
      && HasPosition(s.store[key], c)
      && o.root == WithPosition(s.store[key], FindPosition(s.store[key].accounts, c), x)
      && (CurrentPosition(s.store[key], c).Fin? || x == CurrentPosition(s.store[key], c))
    ensures MirrorOk(Settle(s, o), id)
  {
    var e, es := o.stateEvt, LogOf(s.log, id);
    assert (s.log + [e])[..|s.log|] == s.log;
    LogOfAppend(s.log, e, id);
    FindDocUpdate(ProjectAll(s.log), key, e.currency, e.position, id);
    forall p: Participant | p.id == id && CreatedAs(Settle(s, o), p) && Clear(p)
      ensures Agree(Settle(s, o), id) && Clear(Settle(s, o).store[id])
    {
      assert CreatedAs(s, p);
      if key == id {
        ClearChange(s.store[id], e.currency, e.position);
        assert (es + [e])[..|es|] == es;
      }
    }
  }

  lemma MirrorCreation(s: ParticipantService, o: Outcome, key: string, id: string)
    requires Logged(s, id) && MirrorOk(s, id) && o.Accepted? && o.stateEvt == CreatedState(o.root)
    requires key !in s.store && o.root.id == key
    ensures MirrorOk(Settle(s, o), id)
  {
    var e, es := o.stateEvt, LogOf(s.log, id);
    assert (s.log + [e])[..|s.log|] == s.log;
    LogOfAppend(s.log, e, id);
    FindDocAppend(ProjectAll(s.log), o.root, id);
    if key == id {
      assert [e][..0] == [];
      assert LogOf(s.log + [e], id) == [e];
      assert Replay(None, []) == Success(None);
    } else {
      assert forall p: Participant :: CreatedAs(Settle(s, o), p) && p.id == id ==> CreatedAs(s, p);
    }
  }

  lemma MirrorStep(s: ParticipantService, cmd: Cmd, other: Option<Participant>, id: string)
    requires MirrorOk(s, id) && Logged(s, id) && Logged(s, Key(cmd))
    ensures MirrorOk(HandleParticipant(s, cmd, other), id)
  {
    var root := Get(s.store, Key(cmd));
    var o := Decide(root, other, cmd);
    DecisionLogs(root, other, cmd);
    if o.Accepted? {
      match o.stateEvt
      case CreatedState(_) => MirrorCreation(s, o, Key(cmd), id);
      case PositionChanged(_, _, _, _) =>
        LoggedPosition(root.value, other, cmd);
        MirrorChange(s, o, Key(cmd), id);
      case SnapshotState(_) =>
        assert Settle(s, o).log == s.log && Settle(s, o).store == s.store[o.root.id := o.root];
        assert forall p: Participant :: CreatedAs(Settle(s, o), p) <==> CreatedAs(s, p);
    }
  }

  /** In every run the read side has a document for exactly the stored participants, and live code, replay and read
    * side agree on each that was created with clear accounts. */
  lemma {:induction false} ReadSideEqualsStore(requests: seq<Request>, id: string)
    ensures MirrorOk(RunService(requests), id)
  {
    if requests == [] {
    } else {
      var init, r := requests[..|requests| - 1], requests[|requests| - 1];
      ReadSideEqualsStore(init, id);
      AlwaysLogged(init, id);
      AlwaysLogged(init, Key(r.cmd));
      MirrorStep(RunService(init), r.cmd, r.other, id);
    }
  }

  // ---------- exactly when they agree ----------

  /** In every run that creates the participant like this, replay and read side give what is stored. */
  ghost predicate InterpretersAgree(p: Participant) {
    forall requests :: CreatedAs(RunService(requests), p) ==> Agree(RunService(requests), p.id)
  }

  /** The participant is created, and a commit to itself takes the amount off its position. */
  function CreateAndCommit(p: Participant, c: string, amount: real): seq<Request> {
    [Request(CreateParticipant(p), None),
     Request(CommitPayeeFunds(Terms("", p.id, p.id, c, Fin(amount))), Some(p))]
  }

  /** The position after the commit: a position that is no finite number stays. */
  function Reduced(x: Num, amount: real): Num {
    if x.Fin? then Fin(x.value - amount) else x
  }

  lemma CommitReduces(p: Participant, payer: Participant, t: Terms)
    requires HasPosition(p, t.currency) && HasPosition(payer, t.currency) && t.amount.Fin?
    ensures var o := Decide(Some(p), Some(payer), CommitPayeeFunds(t));
      var x := Reduced(CurrentPosition(p, t.currency), t.amount.value);
      && o.Accepted? && o.root == WithPosition(p, FindPosition(p.accounts, t.currency), x)
      && o.stateEvt == PositionChanged(p.id, t.currency, x, p.partition)
  {
    var i := FindPosition(p.accounts, t.currency);
    assert WithPosition(p, i, CurrentPosition(p, t.currency)).accounts == p.accounts;
  }

  lemma LogOfCommit(p: Participant, c: string, x: Num)
    requires HasPosition(p, c)
    ensures var log := [CreatedState(p), PositionChanged(p.id, c, x, p.partition)];
      && LogOf(log, p.id) == log
      && Replay(None, log) == Success(Some(SetPositions(p, c, x)))
      && FindDoc(ProjectAll(log), p.id) == Some(SetFirst(p, c, x))
  {
    var e1, e2 := CreatedState(p), PositionChanged(p.id, c, x, p.partition);
    assert [e1, e2][..1] == [e1] && [e1][..0] == [];
    assert LogOf([e1], p.id) == [e1] && ProjectAll([e1]) == [p];
    assert Replay(None, [e1]) == Success(Some(p));
    FindDocUpdate([p], p.id, c, x, p.id);
  }

  lemma AfterCommit(p: Participant, c: string, amount: real)
    requires HasPosition(p, c)
    ensures var s := RunService(CreateAndCommit(p, c, amount));
      var x := Reduced(CurrentPosition(p, c), amount);
      && s.store == map[p.id := WithPosition(p, FindPosition(p.accounts, c), x)]
      && CreatedAs(s, p) && LogOf(s.log, p.id) == [CreatedState(p), PositionChanged(p.id, c, x, p.partition)]
      && Replay(None, LogOf(s.log, p.id)) == Success(Some(SetPositions(p, c, x)))
      && FindDoc(ProjectAll(s.log), p.id) == Some(SetFirst(p, c, x))
  {
    hide Replay, LogOf, ProjectAll, DecideCommit, TryCommit;
    var requests := CreateAndCommit(p, c, amount);
    assert requests[..1] == [requests[0]] && [requests[0]][..0] == [];
    assert RunService([requests[0]]) == HandleParticipant(NO_PARTICIPANTS, requests[0].cmd, None);
    CommitReduces(p, p, Terms("", p.id, p.id, c, Fin(amount)));
    var x := Reduced(CurrentPosition(p, c), amount);
    LogOfCommit(p, c, x);
    var first := RunService([requests[0]]);
    assert first.store == map[p.id := p] && first.log == [CreatedState(p)];
    assert RunService(requests) == HandleParticipant(first, requests[1].cmd, Some(p));
    assert RunService(requests).log == [CreatedState(p), PositionChanged(p.id, c, x, p.partition)];
  }

  /** After a commit, an account that is written besides the live one and does not hold the same tells the
    * interpreters apart. */
  lemma TellsApart(s: ParticipantService, p: Participant, c: string, w: nat, y: Num)
    requires HasPosition(p, c) && Written(p, c, w) && w != FindPosition(p.accounts, c) && p.accounts[w].position != y
    requires Get(s.store, p.id) == Some(WithPosition(p, FindPosition(p.accounts, c), y))
    requires LogOf(s.log, p.id) == [CreatedState(p), PositionChanged(p.id, c, y, p.partition)]
    ensures CreatedAs(s, p) && !Agree(s, p.id)
  {
    hide Replay, LogOf, ProjectAll;
    LogOfCommit(p, c, y);
    FindDocOfLog(s.log, p.id);
    assert WithPosition(p, FindPosition(p.accounts, c), y).accounts[w] == p.accounts[w];
    if p.accounts[w].kind == POSITION {
      assert SetPositions(p, c, y).accounts[w].position == y;
    } else {
      assert SetFirst(p, c, y).accounts[w].position == y;
    }
  }

  lemma UnclearAccount(p: Participant, c: string) returns (w: nat)
    requires !ClearIn(p, c)
    ensures HasPosition(p, c) && Written(p, c, w) && w != FindPosition(p.accounts, c)
    ensures CurrentPosition(p, c).Fin? || p.accounts[w].position != CurrentPosition(p, c)
  {
    w :| Written(p, c, w) && w != FindPosition(p.accounts, c)
      && (CurrentPosition(p, c).Fin? || p.accounts[w].position != CurrentPosition(p, c));
  }

  /** An amount whose commit does not leave the live position at this one. */
  function TellingAmount(live: Num, other: Num): real {
    if live.Fin? && other == Fin(live.value - 1.0) then 2.0 else 1.0
  }

  /** An account that is written besides the live one, and does not already hold what it would get, tells the
    * interpreters apart after one commit of 1 or 2. */
  lemma OneCommitTellsApart(p: Participant, c: string, w: nat)
    requires HasPosition(p, c) && Written(p, c, w) && w != FindPosition(p.accounts, c)
    requires CurrentPosition(p, c).Fin? || p.accounts[w].position != CurrentPosition(p, c)
    ensures exists amount :: (amount == 1.0 || amount == 2.0)
              && CreatedAs(RunService(CreateAndCommit(p, c, amount)), p)
              && !Agree(RunService(CreateAndCommit(p, c, amount)), p.id)
  {
    hide RunService, Agree, CreatedAs;
    var x := CurrentPosition(p, c);
    var amount := TellingAmount(x, p.accounts[w].position);
    AfterCommit(p, c, amount);
    TellsApart(RunService(CreateAndCommit(p, c, amount)), p, c, w, Reduced(x, amount));
  }

  /** Over all runs, replay of the log and read side give the stored participant exactly when its accounts were clear
    * at creation; between finite positions, exactly when they were unambiguous. */
  lemma {:induction false} AgreementIsUnambiguity(p: Participant)
    ensures InterpretersAgree(p) <==> Clear(p)
    ensures FinitePositions(p) ==> (InterpretersAgree(p) <==> Unambiguous(p))
  {
    ClearIsUnambiguous(p);
    if Clear(p) {
      forall requests | CreatedAs(RunService(requests), p) ensures Agree(RunService(requests), p.id) {
        ReadSideEqualsStore(requests, p.id);
      }
    } else {
      var c :| !ClearIn(p, c);
      var w := UnclearAccount(p, c);
      OneCommitTellsApart(p, c, w);
    }
  }

  /** One POSITION account per currency is not enough: a settlement account listed first takes the read side's
    * updates, and only those. */
  lemma SettlementFirst()
    ensures var settlement, position := Account(SETTLEMENT, "EUR", Fin(5.0), ZERO, []),
                                        Account(POSITION, "EUR", Fin(0.0), ZERO, []);
      var p := Participant("a", "a", [settlement, position], [], None);
      var s := RunService(CreateAndCommit(p, "EUR", 1.0));
      && UniquePositions(p) && !InterpretersAgree(p)
      && s.store == map["a" := p.(accounts := [settlement, position.(position := Fin(-1.0))])]
      && Replay(None, LogOf(s.log, "a")) == Success(Some(s.store["a"]))
      && FindDoc(ProjectAll(s.log), "a") == Some(p.(accounts := [settlement.(position := Fin(-1.0)), position]))
  {
    hide RunService, Replay, LogOf, ProjectAll, CreateAndCommit;
    var settlement, position := Account(SETTLEMENT, "EUR", Fin(5.0), ZERO, []),
                                Account(POSITION, "EUR", Fin(0.0), ZERO, []);
    var p := Participant("a", "a", [settlement, position], [], None);
    assert IsPosition(p.accounts[1], "EUR") && p.accounts[0].currency == "EUR";
    assert FindPosition(p.accounts, "EUR") == 1 && FindCurrency(p.accounts, "EUR") == 0;
    var x := Fin(-1.0);
    assert CurrentPosition(p, "EUR") == Fin(0.0) && Reduced(Fin(0.0), 1.0) == x;
    assert WithPosition(p, 1, x).accounts == [settlement, position.(position := x)];
    assert SetPositions(p, "EUR", x).accounts == [settlement, position.(position := x)];
    assert SetFirst(p, "EUR", x).accounts == [settlement.(position := x), position];
    AfterCommit(p, "EUR", 1.0);
    assert !Agree(RunService(CreateAndCommit(p, "EUR", 1.0)), "a");
  }

  /** Nor is it enough that POSITION accounts come first: a second one follows in replay only. */
  lemma TwoPositions()
    ensures var first, second := Account(POSITION, "EUR", Fin(0.0), ZERO, []),
                                 Account(POSITION, "EUR", Fin(5.0), ZERO, []);
      var p := Participant("a", "a", [first, second], [], None);
      var s := RunService(CreateAndCommit(p, "EUR", 1.0));
      && !InterpretersAgree(p)
      && s.store == map["a" := p.(accounts := [first.(position := Fin(-1.0)), second])]
      && Replay(None, LogOf(s.log, "a")) == Success(Some(p.(accounts := [first.(position := Fin(-1.0)),
                                                                         second.(position := Fin(-1.0))])))
      && FindDoc(ProjectAll(s.log), "a") == Some(s.store["a"])
  {
    hide RunService, Replay, LogOf, ProjectAll, CreateAndCommit;
    var first, second := Account(POSITION, "EUR", Fin(0.0), ZERO, []), Account(POSITION, "EUR", Fin(5.0), ZERO, []);
    var p := Participant("a", "a", [first, second], [], None);
    assert IsPosition(p.accounts[0], "EUR") && p.accounts[0].currency == "EUR";
    assert FindPosition(p.accounts, "EUR") == 0 && FindCurrency(p.accounts, "EUR") == 0;
    var x := Fin(-1.0);
    assert CurrentPosition(p, "EUR") == Fin(0.0) && Reduced(Fin(0.0), 1.0) == x;
    assert WithPosition(p, 0, x).accounts == [first.(position := x), second];
    assert SetPositions(p, "EUR", x).accounts == [first.(position := x), second.(position := x)];
    AfterCommit(p, "EUR", 1.0);
    assert !Agree(RunService(CreateAndCommit(p, "EUR", 1.0)), "a");
  }

  /** Ambiguous accounts whose positions are no numbers stay together, since no command ever changes them. */
  lemma TwoFrozenPositions()
    ensures var frozen := Account(POSITION, "EUR", NaN, NaN, []);
      var p := Participant("a", "a", [frozen, frozen], [], None);
      !Unambiguous(p) && InterpretersAgree(p)
  {
    var frozen := Account(POSITION, "EUR", NaN, NaN, []);
    var p := Participant("a", "a", [frozen, frozen], [], None);
    assert p.accounts[0].currency == p.accounts[1].currency;
    forall c ensures ClearIn(p, c) {
      if c == "EUR" {
        assert IsPosition(p.accounts[0], "EUR");
      }
    }
    AgreementIsUnambiguity(p);
  }
}
