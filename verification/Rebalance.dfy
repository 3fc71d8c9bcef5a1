/** The Kafka stream consumer: one message at a time, a commit after each, and rebalances that must wait for both.
  * Message deliveries, handler completions, commit callbacks, rebalances and the 200 ms turns of the waiting loops
  * interleave in any order. */
module Rebalance {
  /** What the consumer is doing for the current message. */
  datatype Stage = Idle | Handling | Committing

  /** What an onlooker sees: a message starts and finishes, commit included; a rebalance has to wait, a waiting one
    * gets its callback, or one gets its callback at once. */
  datatype Observation = Started | Finished | Waits | Released | CalledAtOnce(isAlreadyMember: bool)

  datatype Consumer = Consumer(
    autoCommit: bool, stage: Stage, processing: bool, pauseForRebalanceRequested: bool, paused: bool, waiting: nat,
    trace: seq<Observation>)

  datatype Action =
    | Deliver(parses: bool)
    | HandlerSettles
    | CommitReturns
    | OnRebalance(isAlreadyMember: bool)
    | WaitingTurn

  function NewConsumer(autoCommit: bool): Consumer {
    Consumer(autoCommit, Idle, false, false, false, 0, [])
  }

  predicate Enabled(c: Consumer, a: Action) {
    match a
    case Deliver(_) => !c.paused
    case HandlerSettles => c.stage == Handling
    case CommitReturns => c.stage == Committing
    case OnRebalance(_) => true
    case WaitingTurn => c.waiting > 0
  }

  /** The message is done with: the stream resumes unless a rebalance asked it not to. */
  function Done(c: Consumer): Consumer {
    c.(stage := Idle, processing := false, paused := c.paused && c.pauseForRebalanceRequested,
       trace := c.trace + [Finished])
  }

  function Step(c: Consumer, a: Action): Consumer {
    if !Enabled(c, a) then c
    else
      match a
      case Deliver(parses) =>
        var d := c.(stage := Handling, processing := true, paused := true, trace := c.trace + [Started]);
        if parses then d else Done(d)
      case HandlerSettles => if c.autoCommit then Done(c) else c.(stage := Committing)
      case CommitReturns => Done(c)
      case OnRebalance(isAlreadyMember) =>
        if !isAlreadyMember || c.autoCommit || !c.processing
        then c.(trace := c.trace + [CalledAtOnce(isAlreadyMember)])
        else c.(pauseForRebalanceRequested := true, waiting := c.waiting + 1, trace := c.trace + [Waits])
      case WaitingTurn =>
        if c.processing then c
        else c.(pauseForRebalanceRequested := false, paused := false, waiting := c.waiting - 1,
                trace := c.trace + [Released])
  }

  function Run(autoCommit: bool, actions: seq<Action>): Consumer {
    if actions == [] then NewConsumer(autoCommit)
    else Step(Run(autoCommit, actions[..|actions| - 1]), actions[|actions| - 1])
  }

  /** The consumer as the code runs it; `paused` belongs to the stream it reads. */
  class KafkaStreamConsumer {
    const autoCommit: bool
    var processing: bool
    var pauseForRebalanceRequested: bool
    var paused: bool
    var stage: Stage
    var waiting: nat
    var trace: seq<Observation>

    ghost function State(): Consumer
      reads this
    {
      Consumer(autoCommit, stage, processing, pauseForRebalanceRequested, paused, waiting, trace)
    }

    constructor (autoCommit: bool)
      ensures State() == NewConsumer(autoCommit)
    {
      this.autoCommit := autoCommit;
      stage, processing, pauseForRebalanceRequested, paused, waiting, trace := Idle, false, false, false, 0, [];
    }

    method OnMessage(parses: bool)
      requires !paused
      modifies this
      ensures State() == Step(old(State()), Deliver(parses))
    {
      trace := trace + [Started];
      processing := true;
      paused := true;
      if !parses {
        processing := false;
        if !pauseForRebalanceRequested {
          paused := false;
        }
        trace := trace + [Finished];
        stage := Idle;
        return;
      }
      stage := Handling;
    }

    /** The handler has resolved or rejected: commit, or be done. */
    method Finally()
      requires stage == Handling
      modifies this
      ensures State() == Step(old(State()), HandlerSettles)
    {
      if !autoCommit {
        stage := Committing;
      } else {
        if !pauseForRebalanceRequested {
          paused := false;
        }
        processing := false;
        stage, trace := Idle, trace + [Finished];
      }
    }

    method CommitCallback()
      requires stage == Committing
      modifies this
      ensures State() == Step(old(State()), CommitReturns)
    {
      if !pauseForRebalanceRequested {
        paused := false;
      }
      processing := false;
      stage, trace := Idle, trace + [Finished];
    }

    method Rebalancing(isAlreadyMember: bool)
      modifies this
      ensures State() == Step(old(State()), OnRebalance(isAlreadyMember))
    {
      if !isAlreadyMember || autoCommit {
        trace := trace + [CalledAtOnce(isAlreadyMember)];
        return;
      }
      if !processing {
        trace := trace + [CalledAtOnce(isAlreadyMember)];
        return;
      }
      pauseForRebalanceRequested := true;
      waiting, trace := waiting + 1, trace + [Waits];
    }

    /** One turn of a waiting loop. */
    method Turn()
      requires waiting > 0
      modifies this
      ensures State() == Step(old(State()), WaitingTurn)
    {
      if !processing {
        pauseForRebalanceRequested := false;
        paused := false;
        waiting, trace := waiting - 1, trace + [Released];
      }
    }
  }

  // ---------- what an onlooker concludes ----------

  /** A message has started and not finished. */
  predicate Open(trace: seq<Observation>) {
    if trace == [] then false
    else
      match trace[|trace| - 1]
      case Started => true
      case Finished => false
      case _ => Open(trace[..|trace| - 1])
  }

  /** No waiting rebalance has had its callback since the last one that had to wait. */
  predicate Requested(trace: seq<Observation>) {
    if trace == [] then false
    else
      match trace[|trace| - 1]
      case Waits => true
      case Released => false
      case _ => Requested(trace[..|trace| - 1])
  }

  /** Rebalances that wait for their callback. */
  function Waiting(trace: seq<Observation>): int {
    if trace == [] then 0
    else
      Waiting(trace[..|trace| - 1])
      + match trace[|trace| - 1]
        case Waits => 1
        case Released => -1
        case _ => 0
  }

  ghost predicate Sound(c: Consumer) {
    && (c.processing <==> c.stage != Idle)
    && (c.processing <==> Open(c.trace))
    && (c.pauseForRebalanceRequested <==> Requested(c.trace))
    && (c.paused <==> c.processing || c.pauseForRebalanceRequested)
    && (c.pauseForRebalanceRequested ==> c.waiting > 0)
    && c.waiting == Waiting(c.trace)
  }

  lemma Appended(trace: seq<Observation>, o: Observation)
    ensures (trace + [o])[..|trace|] == trace
    ensures Open(trace + [o]) == if o.Started? then true else if o.Finished? then false else Open(trace)
    ensures Requested(trace + [o]) == if o.Waits? then true else if o.Released? then false else Requested(trace)
    ensures Waiting(trace + [o]) == Waiting(trace) + if o.Waits? then 1 else if o.Released? then -1 else 0
  {
  }

  lemma {:induction false} SoundStep(c: Consumer, a: Action)
    requires Sound(c)
    ensures Sound(Step(c, a))
  {
    if Enabled(c, a) {
      match a
      case Deliver(_) =>
        Appended(c.trace, Started);
        Appended(c.trace + [Started], Finished);
      case HandlerSettles => Appended(c.trace, Finished);
      case CommitReturns => Appended(c.trace, Finished);
      case OnRebalance(isAlreadyMember) =>
        Appended(c.trace, CalledAtOnce(isAlreadyMember));
        Appended(c.trace, Waits);
      case WaitingTurn => Appended(c.trace, Released);
    }
  }

  lemma {:induction false} AlwaysSound(autoCommit: bool, actions: seq<Action>)
    ensures Sound(Run(autoCommit, actions)) && Run(autoCommit, actions).autoCommit == autoCommit
  {
    if actions == [] {
    } else {
      AlwaysSound(autoCommit, actions[..|actions| - 1]);
      SoundStep(Run(autoCommit, actions[..|actions| - 1]), actions[|actions| - 1]);
    }
  }

  /** What may be seen after what: messages one at a time, none between a rebalance that has to wait and the next
    * callback of a waiting one, callbacks between messages only - except where the code ignores the rebalance. */
  ghost predicate Orderly(autoCommit: bool, before: seq<Observation>, o: Observation) {
    match o
    case Started => !Open(before) && !Requested(before)
    case Finished => Open(before)
    case Waits => Open(before)
    case Released => !Open(before) && Waiting(before) > 0
    case CalledAtOnce(isAlreadyMember) => Open(before) ==> !isAlreadyMember || autoCommit
  }

  lemma StepIsOrderly(c: Consumer, a: Action)
    requires Sound(c)
    ensures c.trace <= Step(c, a).trace
    ensures forall i :: |c.trace| <= i < |Step(c, a).trace| ==>
                          Orderly(c.autoCommit, Step(c, a).trace[..i], Step(c, a).trace[i])
  {
    var t := Step(c, a).trace;
    assert |t| > |c.trace| ==> t[..|c.trace|] == c.trace;
    if Enabled(c, a) && a.Deliver? {
      Appended(c.trace, Started);
      assert !a.parses ==> t[..|c.trace| + 1] == c.trace + [Started];
    }
  }

  /** Over every interleaving, parse errors and overlapping rebalances included. */
  lemma {:induction false} RunsAreOrderly(autoCommit: bool, actions: seq<Action>, i: nat)
    requires i < |Run(autoCommit, actions).trace|
    ensures var trace := Run(autoCommit, actions).trace; Orderly(autoCommit, trace[..i], trace[i])
  {
    var init := actions[..|actions| - 1];
    var before := Run(autoCommit, init);
    AlwaysSound(autoCommit, init);
    StepIsOrderly(before, actions[|actions| - 1]);
    if i < |before.trace| {
      RunsAreOrderly(autoCommit, init, i);
      assert Run(autoCommit, actions).trace[..i] == before.trace[..i];
    }
  }

  /** With manual commit and an existing member, no callback runs while a message is handled or its commit is
    * pending; in general it does exactly when the rebalance arrives then and is not a member's or commits are
    * automatic. */
  lemma CallbacksBetweenMessages(autoCommit: bool, actions: seq<Action>, i: nat, member: bool)
    requires i < |Run(autoCommit, actions).trace|
    ensures var trace := Run(autoCommit, actions).trace;
      (trace[i].Released? || (trace[i].CalledAtOnce? && trace[i].isAlreadyMember && !autoCommit)) ==> !Open(trace[..i])
    ensures var c := Run(autoCommit, actions);
      Open(c.trace) ==>
        (Step(c, OnRebalance(member)).trace == c.trace + [CalledAtOnce(member)] <==> !member || autoCommit)
  {
    RunsAreOrderly(autoCommit, actions, i);
    AlwaysSound(autoCommit, actions);
    var trace := Run(autoCommit, actions).trace;
    assert (trace + [Waits])[|trace|] != (trace + [CalledAtOnce(member)])[|trace|];
  }

  // ---------- what the actions say of one message ----------

  /** The action at this moment delivers a message that parses, and the stream is flowing. */
  ghost predicate Delivers(autoCommit: bool, actions: seq<Action>, d: nat) {
    d < |actions| && actions[d] == Deliver(true) && !Run(autoCommit, actions[..d]).paused
  }

  /** Neither a callback to a member, nor a message starting or finishing, from one trace to the other. */
  ghost predicate Quiet(before: seq<Observation>, after: seq<Observation>) {
    before <= after && forall i :: |before| <= i < |after| ==> after[i] == Waits || after[i] == CalledAtOnce(false)
  }

  lemma RunStep(autoCommit: bool, actions: seq<Action>, n: nat)
    requires n < |actions|
    ensures Run(autoCommit, actions[..n + 1]) == Step(Run(autoCommit, actions[..n]), actions[n])
  {
    hide Step;
    assert actions[..n + 1][..n] == actions[..n];
  }

  /** A step during a message that does not take it on. */
  lemma QuietStep(c: Consumer, a: Action)
    requires Sound(c) && !c.autoCommit && c.stage != Idle
    requires c.stage == Handling ==> a != HandlerSettles
    requires c.stage == Committing ==> a != CommitReturns
    ensures Step(c, a).stage == c.stage && Quiet(c.trace, Step(c, a).trace)
  {
  }

  lemma QuietJoined(a: seq<Observation>, b: seq<Observation>, c: seq<Observation>)
    requires Quiet(a, b) && Quiet(b, c)
    ensures Quiet(a, c)
  {
  }

  lemma MessageStarts(c: Consumer)
    requires !c.paused
    ensures Step(c, Deliver(true)).stage == Handling && Quiet(c.trace + [Started], Step(c, Deliver(true)).trace)
  {
  }

  /** With manual commit: the message that is delivered at d is being handled as long as its handler has not settled. */
  lemma {:induction false} HandledUntilSettled(actions: seq<Action>, d: nat, n: nat)
    requires Delivers(false, actions, d) && d < n <= |actions|
    requires forall k :: d < k < n ==> actions[k] != HandlerSettles
    ensures var before, c := Run(false, actions[..d]), Run(false, actions[..n]);
      c.stage == Handling && Quiet(before.trace + [Started], c.trace)
  {
    hide Run, Step, Quiet, Sound;
    var before, last := Run(false, actions[..d]), Run(false, actions[..n - 1]);
    AlwaysSound(false, actions[..n - 1]);
    RunStep(false, actions, n - 1);
    if n > d + 1 {
      HandledUntilSettled(actions, d, n - 1);
      QuietStep(last, actions[n - 1]);
      QuietJoined(before.trace + [Started], last.trace, Run(false, actions[..n]).trace);
    } else {
      MessageStarts(before);
    }
  }

  /** And then its commit is pending as long as that has not returned. */
  lemma {:induction false} PendingUntilReturned(actions: seq<Action>, d: nat, h: nat, n: nat)
    requires Delivers(false, actions, d) && d < h < n <= |actions| && actions[h] == HandlerSettles
    requires forall k :: d < k < h ==> actions[k] != HandlerSettles
    requires forall k :: h < k < n ==> actions[k] != CommitReturns
    ensures var before, c := Run(false, actions[..d]), Run(false, actions[..n]);
      c.stage == Committing && Quiet(before.trace + [Started], c.trace)
  {
    hide Run, Quiet, Sound;
    var before, last := Run(false, actions[..d]), Run(false, actions[..n - 1]);
    AlwaysSound(false, actions[..n - 1]);
    RunStep(false, actions, n - 1);
    if n > h + 1 {
      PendingUntilReturned(actions, d, h, n - 1);
      QuietStep(last, actions[n - 1]);
      QuietJoined(before.trace + [Started], last.trace, Run(false, actions[..n]).trace);
    } else {
      HandledUntilSettled(actions, d, h);
    }
  }

  /** With manual commit a message is finished exactly by the first commit to return after its handler first settled:
    * until then nothing starts or finishes, and no rebalance gets a callback but one that is no member's. */
  lemma FinishedByCommit(actions: seq<Action>, d: nat, h: nat, r: nat)
    requires Delivers(false, actions, d) && d < h < r < |actions|
    requires actions[h] == HandlerSettles && forall k :: d < k < h ==> actions[k] != HandlerSettles
    requires actions[r] == CommitReturns && forall k :: h < k < r ==> actions[k] != CommitReturns
    ensures Quiet(Run(false, actions[..d]).trace + [Started], Run(false, actions[..r]).trace)
    ensures Run(false, actions[..r + 1]).trace == Run(false, actions[..r]).trace + [Finished]
  {
    PendingUntilReturned(actions, d, h, r);
    RunStep(false, actions, r);
  }

  /** With automatic commit it is when its handler settles, whatever rebalances come in between. */
  lemma {:induction false} FinishedByHandler(actions: seq<Action>, d: nat, h: nat)
    requires Delivers(true, actions, d) && d < h < |actions|
    requires actions[h] == HandlerSettles && forall k :: d < k < h ==> actions[k] != HandlerSettles
    ensures Run(true, actions[..h + 1]).trace == Run(true, actions[..h]).trace + [Finished]
    ensures forall i :: |Run(true, actions[..d]).trace| < i < |Run(true, actions[..h]).trace| ==>
              Run(true, actions[..h]).trace[i].CalledAtOnce?
  {
    OpenUntilSettled(actions, d, h);
    AlwaysSound(true, actions[..h]);
    RunStep(true, actions, h);
  }

  lemma {:induction false} OpenUntilSettled(actions: seq<Action>, d: nat, n: nat)
    requires Delivers(true, actions, d) && d < n <= |actions|
    requires forall k :: d < k < n ==> actions[k] != HandlerSettles
    ensures var before, c := Run(true, actions[..d]), Run(true, actions[..n]);
      && c.stage == Handling && before.trace + [Started] <= c.trace
      && forall i :: |before.trace| < i < |c.trace| ==> c.trace[i].CalledAtOnce?
  {
    hide Run;
    AlwaysSound(true, actions[..n - 1]);
    RunStep(true, actions, n - 1);
    if n > d + 1 {
      OpenUntilSettled(actions, d, n - 1);
    }
  }

  /** Every rebalance is answered: by waiting when a member's arrives during a message with manual commit, and else by
    * its callback at once.  A waiting one gets its callback at the first turn between messages. */
  lemma RebalancesAnswered(autoCommit: bool, actions: seq<Action>, member: bool)
    ensures var c := Run(autoCommit, actions);
      && Step(c, OnRebalance(member)).trace ==
         c.trace + [if member && !autoCommit && Open(c.trace) then Waits else CalledAtOnce(member)]
      && (Waiting(c.trace) > 0 ==>
            Step(c, WaitingTurn).trace == if Open(c.trace) then c.trace else c.trace + [Released])
  {
    AlwaysSound(autoCommit, actions);
  }

  /** A message that does not parse starts and finishes at once. */
  lemma UnparsedFinishesAtOnce(autoCommit: bool, actions: seq<Action>)
    requires !Run(autoCommit, actions).paused
    ensures Run(autoCommit, actions + [Deliver(false)]).trace == Run(autoCommit, actions).trace + [Started, Finished]
  {
    assert (actions + [Deliver(false)])[..|actions|] == actions;
  }

  /** A rebalance starts or stops waiting. */
  predicate Turns(o: Observation) {
    o.Waits? || o.Released?
  }

  lemma {:induction false} WaitingSteady(trace: seq<Observation>, j: nat, i: nat)
    requires j <= i <= |trace| && forall k :: j <= k < i ==> !Turns(trace[k])
    ensures Waiting(trace[..i]) == Waiting(trace[..j])
  {
    if i == j {
    } else {
      WaitingSteady(trace, j, i - 1);
      assert trace[..i] == trace[..i - 1] + [trace[i - 1]];
      Appended(trace[..i - 1], trace[i - 1]);
    }
  }

  /** The last turn before `i`, if there was any: a release, unless a pause is requested. */
  lemma {:induction false} LastTurn(trace: seq<Observation>, i: nat) returns (j: int)
    requires i <= |trace|
    ensures -1 <= j < i && forall k :: j < k < i ==> !Turns(trace[k])
    ensures j >= 0 ==> Turns(trace[j]) && (Requested(trace[..i]) <==> trace[j].Waits?)
  {
    if i == 0 {
      j := -1;
    } else {
      assert trace[..i] == trace[..i - 1] + [trace[i - 1]];
      Appended(trace[..i - 1], trace[i - 1]);
      if Turns(trace[i - 1]) {
        j := i - 1;
      } else {
        j := LastTurn(trace, i - 1);
      }
    }
  }

  /** The last turn before `i` was the callback of one rebalance while another one went on waiting. */
  ghost predicate ReleasedOneOfMany(trace: seq<Observation>, j: nat, i: nat)
    requires i <= |trace|
  {
    j < i && trace[j].Released? && Waiting(trace[..j + 1]) > 0 && forall k :: j < k < i ==> !Turns(trace[k])
  }

  /** Over every interleaving a message starts while a rebalance waits exactly when the last turn before it was the
    * callback of one of several that were waiting. */
  lemma {:induction false} StartsWhileWaitingExactly(autoCommit: bool, actions: seq<Action>, i: nat)
    requires i < |Run(autoCommit, actions).trace| && Run(autoCommit, actions).trace[i] == Started
    ensures var trace := Run(autoCommit, actions).trace;
      Waiting(trace[..i]) > 0 <==> exists j: nat :: ReleasedOneOfMany(trace, j, i)
  {
    RunsAreOrderly(autoCommit, actions, i);
    var trace := Run(autoCommit, actions).trace;
    var last := LastTurn(trace, i);
    WaitingSteady(trace, last + 1, i);
    if last < 0 {
      assert trace[..0] == [];
    } else {
      assert trace[last].Released?;
      assert Waiting(trace[..i]) > 0 ==> ReleasedOneOfMany(trace, last, i);
    }
    forall j: nat | ReleasedOneOfMany(trace, j, i) ensures Waiting(trace[..i]) > 0 {
      WaitingSteady(trace, j + 1, i);
    }
  }

  lemma {:induction false} WaitingNeverNegative(autoCommit: bool, actions: seq<Action>, i: nat)
    requires i <= |Run(autoCommit, actions).trace|
    ensures Waiting(Run(autoCommit, actions).trace[..i]) >= 0
  {
    hide Run;
    if i == 0 {
    } else {
      var trace := Run(autoCommit, actions).trace;
      WaitingNeverNegative(autoCommit, actions, i - 1);
      RunsAreOrderly(autoCommit, actions, i - 1);
      assert trace[..i] == trace[..i - 1] + [trace[i - 1]];
      Appended(trace[..i - 1], trace[i - 1]);
    }
  }

  lemma LastRelease(trace: seq<Observation>, n: nat, j: nat, i: nat)
    requires n <= i <= |trace| && j < i && trace[j].Released? && forall k :: j < k < i ==> !Turns(trace[k])
    requires Waiting(trace[..n]) == 0 && (n <= j ==> Waiting(trace[..j]) <= 1)
    ensures Waiting(trace[..j + 1]) <= 0
  {
    if j < n {
      WaitingSteady(trace, n, i);
      WaitingSteady(trace, j + 1, i);
    } else {
      assert trace[..j + 1] == trace[..j] + [trace[j]];
      Appended(trace[..j], trace[j]);
    }
  }

  /** From any moment when none waits, no message starts while a rebalance waits until two wait at once - also when
    * rebalances overlapped before that moment. */
  lemma {:induction false} NoStartWhileOneWaits(autoCommit: bool, actions: seq<Action>, n: nat, i: nat)
    requires n <= i < |Run(autoCommit, actions).trace| && Run(autoCommit, actions).trace[i] == Started
    requires Waiting(Run(autoCommit, actions).trace[..n]) == 0
    requires forall k :: n <= k <= i ==> Waiting(Run(autoCommit, actions).trace[..k]) <= 1
    ensures Waiting(Run(autoCommit, actions).trace[..i]) == 0
  {
    hide Run, Waiting;
    var trace := Run(autoCommit, actions).trace;
    WaitingNeverNegative(autoCommit, actions, i);
    StartsWhileWaitingExactly(autoCommit, actions, i);
    forall j: nat | j < i && trace[j].Released? && forall k :: j < k < i ==> !Turns(trace[k])
      ensures Waiting(trace[..j + 1]) <= 0
    {
      LastRelease(trace, n, j, i);
    }
  }

  /** Two overlapping rebalances: after the first callback a message starts although the second still waits. */
  lemma OverlappingRebalances()
    ensures var c := Run(false, [Deliver(true), OnRebalance(true), OnRebalance(true), HandlerSettles, CommitReturns,
                                 WaitingTurn, Deliver(true)]);
      c.trace == [Started, Waits, Waits, Finished, Released, Started] && c.waiting == 1
      && c.processing && !c.pauseForRebalanceRequested
  {
    var a := [Deliver(true), OnRebalance(true), OnRebalance(true), HandlerSettles, CommitReturns, WaitingTurn,
              Deliver(true)];
    var c := NewConsumer(false);
    for k := 0 to |a|
      invariant c == Run(false, a[..k])
      invariant k == 1 ==> c == Consumer(false, Handling, true, false, true, 0, [Started])
      invariant k == 2 ==> c == Consumer(false, Handling, true, true, true, 1, [Started, Waits])
      invariant k == 3 ==> c == Consumer(false, Handling, true, true, true, 2, [Started, Waits, Waits])
      invariant k == 4 ==> c == Consumer(false, Committing, true, true, true, 2, [Started, Waits, Waits])
      invariant k == 5 ==> c == Consumer(false, Idle, false, true, true, 2, [Started, Waits, Waits, Finished])
      invariant k == 6 ==>
                  c == Consumer(false, Idle, false, false, false, 1, [Started, Waits, Waits, Finished, Released])
      invariant k == 7 ==>
                  c.trace == [Started, Waits, Waits, Finished, Released, Started] && c.waiting == 1
                  && c.processing && !c.pauseForRebalanceRequested
    {
      assert a[..k + 1][..k] == a[..k];
      c := Step(c, a[k]);
    }
    assert a[..|a|] == a;
  }

  /** The stream is never left paused: when nothing is being processed it flows, or a rebalance waits whose next
    * turn makes it flow. */
  lemma NeverLeftPaused(autoCommit: bool, actions: seq<Action>)
    ensures var c := Run(autoCommit, actions);
      c.stage == Idle && c.paused ==> Enabled(c, WaitingTurn) && !Step(c, WaitingTurn).paused
  {
    AlwaysSound(autoCommit, actions);
  }
}
