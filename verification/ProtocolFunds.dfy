/** What no run of the protocol does to participants: they stay, they change in their positions only, and no
  * position passes its cap. */
module ProtocolFunds {
  import opened Common
  import opened Decimals
  import opened Participants
  import opened Transfers
  import opened Protocol
  import opened ProtocolSafety

  // ---------- the invariant ----------

  /** An account since its creation: below its net debit cap, or no higher than it was created. */
  ghost predicate AccountCapped(b: Account, a: Account) {
    && (a.position == NaN <==> b.position == NaN)
    && (a.position == NaN || !Below(b.position, a.position)
        || exists cap :: CapIs(b.limits, cap) && Below(a.position, cap))
  }

  ghost predicate Capped(b: Participant, p: Participant) {
    && |b.accounts| == |p.accounts|
    && forall k :: 0 <= k < |b.accounts| ==> AccountCapped(b.accounts[k], p.accounts[k])
  }

  ghost predicate ParticipantOk(s: State, id: string) {
    && id in s.birth && id in s.versions && id in s.participants.store
    && var p := s.participants.store[id];
    && s.birth[id].id == p.id == id
    && p in s.versions[id]
    && (forall v :: v in s.versions[id] ==> SameStatics(s.birth[id], v))
    && Capped(s.birth[id], p)
  }

  ghost predicate PartyOk(s: State, id: string, c: string) {
    id in s.birth && HasPosition(s.birth[id], c)
  }

  /** The sequence holds each of the ids once and no others. */
  ghost predicate Lists(roster: seq<string>, ids: set<string>) {
    Distinct(roster) && forall id :: id in roster <==> id in ids
  }

  ghost predicate Anchored(s: State) {
    && s.birth.Keys == s.versions.Keys == s.participants.store.Keys
    && Lists(s.roster, s.birth.Keys)
    && (forall id :: id in s.birth ==> ParticipantOk(s, id))
    && (forall t :: t in s.reserved ==> PartyOk(s, t.payer, t.currency) && PartyOk(s, t.payee, t.currency))
  }

  // ---------- preservation ----------

  /** Only the account at this index is written, and stays capped. */
  lemma CappedElsewhere(b: Participant, p: Participant, i: nat, x: Num)
    requires SameStatics(b, p) && Capped(b, p) && i < |p.accounts|
    requires AccountCapped(b.accounts[i], p.accounts[i].(position := x))
    ensures SameStatics(b, WithPosition(p, i, x)) && Capped(b, WithPosition(p, i, x))
  {
    hide AccountCapped;
  }

  lemma CappedByReserve(b: Participant, p: Participant, c: string, amount: Num)
    requires SameStatics(b, p) && Capped(b, p) && TryReserve(p, c, amount).Success?
    ensures SameStatics(b, TryReserve(p, c, amount).value) && Capped(b, TryReserve(p, c, amount).value)
  {
    hide NetDebitCap, CapIs, FindPosition;
    var i := FindPosition(p.accounts, c);
    assert AccountCapped(b.accounts[i], p.accounts[i]);
    CapFound(p.accounts[i].limits);
    CappedElsewhere(b, p, i, Plus(p.accounts[i].position, amount));
  }

  lemma CappedByCommit(b: Participant, p: Participant, c: string, amount: Num)
    requires SameStatics(b, p) && Capped(b, p) && TryCommit(p, c, amount).Success? && Positive(amount)
    ensures SameStatics(b, TryCommit(p, c, amount).value) && Capped(b, TryCommit(p, c, amount).value)
  {
  }

  lemma NewbornCapped(p: Participant)
    ensures SameStatics(p, p) && Capped(p, p)
  {
  }

  /** What is stored for a participant follows from how it was created. */
  ghost predicate RootOk(s: State, cmd: Cmd, root: Participant) {
    && root.id == Key(cmd)
    && (cmd.CreateParticipant? <==> root.id !in s.birth)
    && (root.id in s.birth ==> SameStatics(s.birth[root.id], root) && Capped(s.birth[root.id], root))
    && (cmd.ReservePayerFunds? ==>
          PartyOk(s, cmd.terms.payer, cmd.terms.currency) && PartyOk(s, cmd.terms.payee, cmd.terms.currency))
  }

  lemma ReserveParties(s: State, t: Terms, copy: Participant)
    requires Anchored(s) && t.payer in s.birth && Version(s, t.payee, copy) && HasPosition(copy, t.currency)
    requires TryReserve(s.participants.store[t.payer], t.currency, t.amount).Success?
    ensures PartyOk(s, t.payer, t.currency) && PartyOk(s, t.payee, t.currency)
    ensures var root := TryReserve(s.participants.store[t.payer], t.currency, t.amount).value;
      root.id == t.payer && SameStatics(s.birth[t.payer], root) && Capped(s.birth[t.payer], root)
  {
    assert ParticipantOk(s, t.payer) && ParticipantOk(s, t.payee);
    SameStaticsFind(s.birth[t.payee], copy, t.currency);
    SameStaticsFind(s.birth[t.payer], s.participants.store[t.payer], t.currency);
    CappedByReserve(s.birth[t.payer], s.participants.store[t.payer], t.currency, t.amount);
  }

  lemma {:induction false} RootDecided(x: Crypto, s: State, i: nat, copy: Option<Participant>)
    requires Backed(x, s) && Anchored(s) && i < |s.participantCmds|
    requires Enabled(s, HandleParticipantCmd(i, copy)) && Decision(s, i, copy).Accepted?
    ensures RootOk(s, s.participantCmds[i], Decision(s, i, copy).root)
  {
    hide TryReserve, NetDebitCap;
    var cmd := s.participantCmds[i];
    var id := Key(cmd);
    if id in s.birth {
      assert ParticipantOk(s, id);
      match cmd
      case ReservePayerFunds(t) => ReserveParties(s, t, copy.value);
      case CommitPayeeFunds(t) =>
        assert ParticipantCmdOk(s, cmd) && ReservedOk(s, t);
        CappedByCommit(s.birth[id], s.participants.store[id], t.currency, t.amount);
      case _ =>
    }
  }

  lemma ListsAppend(roster: seq<string>, ids: set<string>, id: string)
    requires Lists(roster, ids)
    ensures id !in ids ==> Lists(roster + [id], ids + {id})
  {
  }

  /** One more state of a participant, old or new, is stored. */
  ghost predicate StoresRoot(s: State, t: State, root: Participant) {
    && t.versions == s.versions[root.id := (if root.id in s.versions then s.versions[root.id] else {}) + {root}]
    && t.participants.store == s.participants.store[root.id := root]
    && if root.id in s.birth
       then t.birth == s.birth && t.roster == s.roster
            && SameStatics(s.birth[root.id], root) && Capped(s.birth[root.id], root)
       else t.birth == s.birth[root.id := root] && t.roster == s.roster + [root.id]
  }

  lemma ParticipantOkByRoot(s: State, t: State, root: Participant, id: string)
    requires Anchored(s) && StoresRoot(s, t, root) && id in t.birth
    ensures ParticipantOk(t, id)
  {
    assert id in s.birth ==> ParticipantOk(s, id);
    if id == root.id {
      NewbornCapped(root);
    } else {
      assert t.versions[id] == s.versions[id];
    }
  }

  lemma PartyStays(s: State, t: State, root: Participant, id: string, c: string)
    requires StoresRoot(s, t, root)
    ensures PartyOk(s, id, c) ==> PartyOk(t, id, c)
  {
  }

  lemma RosterByRoot(s: State, t: State, root: Participant)
    requires Lists(s.roster, s.birth.Keys) && StoresRoot(s, t, root)
    ensures Lists(t.roster, t.birth.Keys)
  {
    ListsAppend(s.roster, s.birth.Keys, root.id);
    assert root.id !in s.birth ==> t.birth.Keys == s.birth.Keys + {root.id};
  }

  lemma {:induction false} AnchoredByRoot(s: State, t: State, root: Participant)
    requires Anchored(s) && StoresRoot(s, t, root)
    requires forall u :: u in t.reserved ==>
               u in s.reserved || (PartyOk(s, u.payer, u.currency) && PartyOk(s, u.payee, u.currency))
    ensures Anchored(t)
  {
    hide ParticipantOk, PartyOk, SameStatics, Capped, Lists;
    RosterByRoot(s, t, root);
    forall id | id in t.birth ensures ParticipantOk(t, id) {
      ParticipantOkByRoot(s, t, root, id);
    }
    forall u | u in t.reserved ensures PartyOk(t, u.payer, u.currency) && PartyOk(t, u.payee, u.currency) {
      PartyStays(s, t, root, u.payer, u.currency);
      PartyStays(s, t, root, u.payee, u.currency);
    }
  }

  lemma {:induction false} AnchoredByParticipantCmd(s: State, i: nat, o: Outcome)
    requires Anchored(s) && i < |s.participantCmds|
    requires o.Accepted? ==> RootOk(s, s.participantCmds[i], o.root)
    ensures Anchored(ExecParticipant(s, i, o))
  {
    if o.Accepted? {
      AnchoredByRoot(s, ExecParticipant(s, i, o), o.root);
    } else {
      AnchoredSame(s, ExecParticipant(s, i, o));
    }
  }

  lemma AnchoredSame(s: State, t: State)
    requires Anchored(s)
    requires t.birth == s.birth && t.versions == s.versions && t.participants.store == s.participants.store
    requires t.roster == s.roster && t.reserved == s.reserved
    ensures Anchored(t)
  {
  }

  lemma {:induction false} AnchoredByDelivery(x: Crypto, s: State, i: nat, copy: Option<Participant>)
    requires Backed(x, s) && Anchored(s) && Enabled(s, HandleParticipantCmd(i, copy))
    ensures Anchored(ExecParticipant(s, i, Decision(s, i, copy)))
  {
    hide Decision, ExecParticipant, RootOk;
    if Decision(s, i, copy).Accepted? {
      RootDecided(x, s, i, copy);
    }
    AnchoredByParticipantCmd(s, i, Decision(s, i, copy));
  }

  lemma FundsUntouched(x: Crypto, byReference: bool, s: State, a: Action)
    requires !Enabled(s, a) || !a.HandleParticipantCmd?
    ensures var t := Exec(x, byReference, s, a);
      t.participants == s.participants && t.birth == s.birth && t.roster == s.roster && t.versions == s.versions
      && t.reserved == s.reserved && t.committed == s.committed
  {
    hide Decide, Settle, DecideOn, SettleTransfer;
  }

  lemma {:induction false} DeliveryExecutes(x: Crypto, byReference: bool, s: State, a: Action)
    requires Enabled(s, a) && a.HandleParticipantCmd?
    ensures Exec(x, byReference, s, a) == ExecParticipant(s, a.i, Decision(s, a.i, a.copy))
  {
    hide Decision, ExecParticipant, ExecTransfer, RouteTransfer, DecideOn;
  }

  lemma {:induction false} AnchoredStep(x: Crypto, byReference: bool, s: State, a: Action)
    requires Backed(x, s) && Anchored(s)
    ensures Anchored(Exec(x, byReference, s, a))
  {
    hide Exec, Decision, ExecParticipant;
    if Enabled(s, a) && a.HandleParticipantCmd? {
      DeliveryExecutes(x, byReference, s, a);
      AnchoredByDelivery(x, s, a.i, a.copy);
    } else {
      FundsUntouched(x, byReference, s, a);
      AnchoredSame(s, Exec(x, byReference, s, a));
    }
  }

  lemma {:induction false} AlwaysAnchored(x: Crypto, byReference: bool, actions: seq<Action>)
    ensures Anchored(Run(x, byReference, actions))
  {
    hide Exec;
    if actions == [] {
    } else {
      var init := actions[..|actions| - 1];
      AlwaysAnchored(x, byReference, init);
      AlwaysBacked(x, byReference, init);
      AnchoredStep(x, byReference, Run(x, byReference, init), actions[|actions| - 1]);
    }
  }

  // ---------- what follows for every run ----------

  /** Under any redelivery, every position is below the net debit cap of its account or no higher than at creation;
    * a position that was never a number stays that way. */
  lemma {:induction false} PositionsStayCapped(x: Crypto, byReference: bool, actions: seq<Action>, id: string, k: nat)
    requires id in Run(x, byReference, actions).participants.store
    requires k < |Run(x, byReference, actions).participants.store[id].accounts|
    ensures var s := Run(x, byReference, actions);
      var a := s.participants.store[id].accounts[k];
      && id in s.birth && k < |s.birth[id].accounts|
      && var b := s.birth[id].accounts[k];
      && a == b.(position := a.position)
      && (if b.position == NaN then a.position == NaN
          else !Below(b.position, a.position) || exists cap :: CapIs(a.limits, cap) && Below(a.position, cap))
  {
    var s := Run(x, byReference, actions);
    AlwaysAnchored(x, byReference, actions);
    assert ParticipantOk(s, id);
    var b, p := s.birth[id], s.participants.store[id];
    assert p.accounts[k] == b.accounts[k].(position := p.accounts[k].position);
    assert AccountCapped(b.accounts[k], p.accounts[k]);
  }

  /** A cached copy, however old, leads every command and every routing decision to the same result. */
  lemma {:induction false} StaleCopiesAreHarmless(x: Crypto, byReference: bool, actions: seq<Action>, id: string,
                                               stale: Participant, cmd: Cmd)
    requires Version(Run(x, byReference, actions), id, stale)
    ensures var s := Run(x, byReference, actions);
      && id in s.participants.store
      && var now := s.participants.store[id];
      && SameStatics(stale, now)
      && forall root :: Decide(root, Some(stale), cmd) == Decide(root, Some(now), cmd)
  {
    var s := Run(x, byReference, actions);
    AlwaysAnchored(x, byReference, actions);
    assert ParticipantOk(s, id);
    var now := s.participants.store[id];
    forall root ensures Decide(root, Some(stale), cmd) == Decide(root, Some(now), cmd) {
      StaleCounterparty(root, stale, now, cmd);
    }
  }

  lemma CommitAccepted(payee: Participant, payer: Participant, t: Terms)
    requires HasPosition(payee, t.currency) && HasPosition(payer, t.currency) && Positive(t.amount)
    ensures var o := DecideCommit(Some(payee), Some(payer), t);
      var position := CurrentPosition(payee, t.currency);
      && o.Accepted?
      && (if position == NaN then o.root == payee
          else
            && Minus(position, t.amount) != NaN
            && o.root == WithPosition(payee, FindPosition(payee.accounts, t.currency), Minus(position, t.amount)))
  {
  }

  /** Once a reserve has succeeded, its commit is accepted in every later state exactly when the cache shows the
    * payer, in whatever version, and a lost payer is the only refusal.  Accepted, it takes exactly the amount off the
    * payee's position, unless that position was never a number. */
  lemma {:induction false} CommitAcceptedExactly(x: Crypto, byReference: bool, actions: seq<Action>, t: Terms,
                                              copy: Option<Participant>)
    requires t in Run(x, byReference, actions).reserved
    requires Shown(Run(x, byReference, actions), t.payer, copy)
    ensures var s := Run(x, byReference, actions);
      && t.payee in s.participants.store && t.payee in s.birth
      && var payee := s.participants.store[t.payee];
      && var o := Decide(Some(payee), copy, CommitPayeeFunds(t));
      && HasPosition(payee, t.currency) && HasPosition(s.birth[t.payee], t.currency)
      && (o.Accepted? <==> copy.Some?)
      && (if copy.None? then o == Refused(InvalidParticipant(t.payer, t.id))
          else if CurrentPosition(s.birth[t.payee], t.currency) == NaN then o.root == payee
          else
            && Minus(CurrentPosition(payee, t.currency), t.amount) != NaN
            && o.root == WithPosition(payee, FindPosition(payee.accounts, t.currency),
                                      Minus(CurrentPosition(payee, t.currency), t.amount)))
  {
    var s := Run(x, byReference, actions);
    AlwaysBacked(x, byReference, actions);
    AlwaysAnchored(x, byReference, actions);
    assert ReservedOk(s, t);
    assert PartyOk(s, t.payer, t.currency) && PartyOk(s, t.payee, t.currency);
    assert ParticipantOk(s, t.payer) && ParticipantOk(s, t.payee);
    var b, p := s.birth[t.payee], s.participants.store[t.payee];
    SameStaticsFind(b, p, t.currency);
    var i := FindPosition(p.accounts, t.currency);
    assert AccountCapped(b.accounts[i], p.accounts[i]);
    if copy.Some? {
      SameStaticsFind(s.birth[t.payer], copy.value, t.currency);
      CommitAccepted(p, copy.value, t);
    }
  }

  /** Without a numeric position at creation the commit is announced but moves nothing: this payee can take part in
    * a transfer, and its commit leaves it as it was. */
  lemma CommitCanMoveNothing()
    ensures var cap := [Limit(NET_DEBIT_CAP, Some(Fin(9.0)))];
      var payer := Participant("a", "a", [Account(POSITION, "EUR", Fin(0.0), Fin(0.0), cap)], [], None);
      var payee := Participant("b", "b", [Account(POSITION, "EUR", NaN, NaN, [])], [], None);
      var t := Terms("t", "a", "b", "EUR", Fin(1.0));
      && DecideReserve(Some(payer), Some(payee), t).Accepted?
      && DecideCommit(Some(payee), Some(payer), t).Accepted?
      && DecideCommit(Some(payee), Some(payer), t).root == payee
  {
  }
}
