/** The two participant repositories that keep a memory in front of Redis, against a plain map. */
module ParticipantCaches {
  import opened Common
  import opened Participants

  const KEY_PREFIX := "participant_"

  function KeyWithPrefix(id: string): string {
    KEY_PREFIX + id
  }

  lemma KeysDiffer(a: string, b: string)
    ensures KeyWithPrefix(a) == KeyWithPrefix(b) ==> a == b
  {
    assert KeyWithPrefix(a)[|KEY_PREFIX|..] == a && KeyWithPrefix(b)[|KEY_PREFIX|..] == b;
  }

  // ---------- specification ----------

  datatype Cache = Cache(mem: map<string, Participant>, redis: map<string, Participant>)

  /** Restart loses the memory and keeps Redis. */
  datatype Op = Load(id: string) | Store(state: Participant) | Remove(id: string) | Restart

  /** What the repository holds: memory overrides Redis. */
  function Contents(c: Cache): map<string, Participant> {
    c.redis + c.mem
  }

  /** `writeThrough`: Redis is written on each store, not only when the participant is first seen. */
  function Step(writeThrough: bool, c: Cache, op: Op): Cache {
    match op
    case Load(id) =>
      var key := KeyWithPrefix(id);
      if key !in c.mem && key in c.redis then c.(mem := c.mem[key := c.redis[key]]) else c
    case Store(state) =>
      var key := KeyWithPrefix(state.id);
      Cache(c.mem[key := state], if writeThrough || key !in c.mem then c.redis[key := state] else c.redis)
    case Remove(id) => Cache(c.mem - {KeyWithPrefix(id)}, c.redis - {KeyWithPrefix(id)})
    case Restart => c.(mem := map[])
  }

  /** A load answers from memory, or else from Redis; the other operations answer nothing. */
  function Answer(c: Cache, op: Op): Option<Participant> {
    if !op.Load? then None
    else
      var key := KeyWithPrefix(op.id);
      if key in c.mem then Some(c.mem[key]) else Get(c.redis, key)
  }

  function MapStep(m: map<string, Participant>, op: Op): map<string, Participant> {
    match op
    case Store(state) => m[state.id := state]
    case Remove(id) => m - {id}
    case _ => m
  }

  function MapAnswer(m: map<string, Participant>, op: Op): Option<Participant> {
    if op.Load? then Get(m, op.id) else None
  }

  // ---------- the repositories ----------

  class CachedRedisParticipantStateRepo {
    var inMemoryList: map<string, Participant>
    var redis: map<string, Participant>

    constructor (redis: map<string, Participant>)
      ensures View() == Cache(map[], redis)
    {
      this.inMemoryList, this.redis := map[], redis;
    }

    function View(): Cache
      reads this
    {
      Cache(inMemoryList, redis)
    }

    method LoadById(id: string) returns (state: Option<Participant>)
      modifies this
      ensures View() == Step(false, old(View()), Load(id)) && state == Answer(old(View()), Load(id))
    {
      var key := KeyWithPrefix(id);
      if key in inMemoryList {
        return Some(inMemoryList[key]);
      }
      state := Get(redis, key);
      if state.Some? {
        inMemoryList := inMemoryList[key := state.value];
      }
    }

    method RemoveById(id: string)
      modifies this
      ensures View() == Step(false, old(View()), Remove(id))
    {
      var key := KeyWithPrefix(id);
      if key in inMemoryList {
        inMemoryList := inMemoryList - {key};
      }
      redis := redis - {key};
    }

    method StoreState(state: Participant)
      modifies this
      ensures View() == Step(false, old(View()), Store(state))
    {
      var key := KeyWithPrefix(state.id);
      if key !in inMemoryList {
        inMemoryList := inMemoryList[key := state];
        redis := redis[key := state];
      } else {
        inMemoryList := inMemoryList[key := state];
      }
    }
  }

  class CachedPersistedRedisParticipantStateRepo {
    var inMemoryList: map<string, Participant>
    var redis: map<string, Participant>

    constructor (redis: map<string, Participant>)
      ensures View() == Cache(map[], redis)
    {
      this.inMemoryList, this.redis := map[], redis;
    }

    function View(): Cache
      reads this
    {
      Cache(inMemoryList, redis)
    }

    method LoadById(id: string) returns (state: Option<Participant>)
      modifies this
      ensures View() == Step(true, old(View()), Load(id)) && state == Answer(old(View()), Load(id))
    {
      var key := KeyWithPrefix(id);
      if key in inMemoryList {
        return Some(inMemoryList[key]);
      }
      state := Get(redis, key);
      if state.Some? {
        inMemoryList := inMemoryList[key := state.value];
      }
    }

    method RemoveById(id: string)
      modifies this
      ensures View() == Step(true, old(View()), Remove(id))
    {
      var key := KeyWithPrefix(id);
      if key in inMemoryList {
        inMemoryList := inMemoryList - {key};
      }
      redis := redis - {key};
    }

    method StoreState(state: Participant)
      modifies this
      ensures View() == Step(true, old(View()), Store(state))
    {
      var key := KeyWithPrefix(state.id);
      inMemoryList := inMemoryList[key := state];
      redis := redis[key := state];
    }
  }

  // ---------- over every sequence of operations ----------

  function Cached(writeThrough: bool, redis: map<string, Participant>, ops: seq<Op>): Cache {
    if ops == [] then Cache(map[], redis)
    else Step(writeThrough, Cached(writeThrough, redis, ops[..|ops| - 1]), ops[|ops| - 1])
  }

  function Plain(m: map<string, Participant>, ops: seq<Op>): map<string, Participant> {
    if ops == [] then m else MapStep(Plain(m, ops[..|ops| - 1]), ops[|ops| - 1])
  }

  /** Under each prefixed key the repository holds what the map holds under the id, or neither holds anything. */
  ghost predicate Holds(c: Cache, m: map<string, Participant>) {
    forall id :: Get(Contents(c), KeyWithPrefix(id)) == Get(m, id)
  }

  /** What is in memory is in Redis. */
  ghost predicate Persisted(c: Cache) {
    forall key :: key in c.mem ==> key in c.redis && c.redis[key] == c.mem[key]
  }

  /** One operation, as the entry of one participant sees it. */
  lemma StepAt(writeThrough: bool, c: Cache, op: Op, id: string)
    ensures var t, key := Step(writeThrough, c, op), KeyWithPrefix(id);
      match op
      case Load(other) => Get(Contents(t), key) == Get(Contents(c), key)
      case Store(state) => Get(Contents(t), key) == if state.id == id then Some(state) else Get(Contents(c), key)
      case Remove(other) => Get(Contents(t), key) == if other == id then None else Get(Contents(c), key)
      case Restart => Get(Contents(t), key) == Get(c.redis, key)
  {
    match op
    case Store(state) => KeysDiffer(id, state.id);
    case Remove(other) => KeysDiffer(id, other);
    case _ =>
  }

  lemma StepHolds(writeThrough: bool, c: Cache, m: map<string, Participant>, op: Op)
    requires Holds(c, m) && (op.Restart? ==> Persisted(c))
    ensures Holds(Step(writeThrough, c, op), MapStep(m, op))
  {
    forall id ensures Get(Contents(Step(writeThrough, c, op)), KeyWithPrefix(id)) == Get(MapStep(m, op), id) {
      assert Get(Contents(c), KeyWithPrefix(id)) == Get(m, id);
      StepAt(writeThrough, c, op, id);
      assert op.Restart? ==> Get(c.redis, KeyWithPrefix(id)) == Get(Contents(c), KeyWithPrefix(id));
    }
  }

  lemma StepPersists(c: Cache, op: Op)
    requires Persisted(c)
    ensures Persisted(Step(true, c, op))
  {
  }

  /** From any content of Redis: between restarts both repositories answer every operation like the map; the
    * write-through one also does across restarts, because memory never holds anything that Redis does not. */
  lemma {:induction false} CachesAnswerLikeAMap(writeThrough: bool, redis: map<string, Participant>,
                                                m: map<string, Participant>, ops: seq<Op>, next: Op)
    requires Holds(Cache(map[], redis), m) && (writeThrough || Restart !in ops)
    ensures Answer(Cached(writeThrough, redis, ops), next) == MapAnswer(Plain(m, ops), next)
    ensures Holds(Cached(writeThrough, redis, ops), Plain(m, ops))
    ensures writeThrough ==> Persisted(Cached(writeThrough, redis, ops))
  {
    hide Contents, Step, MapStep, Answer, MapAnswer;
    if ops == [] {
    } else {
      var init, last := ops[..|ops| - 1], ops[|ops| - 1];
      CachesAnswerLikeAMap(writeThrough, redis, m, init, next);
      if writeThrough {
        StepPersists(Cached(writeThrough, redis, init), last);
      }
      StepHolds(writeThrough, Cached(writeThrough, redis, init), Plain(m, init), last);
    }
    AnswersContents(Cached(writeThrough, redis, ops), Plain(m, ops), next);
  }

  lemma AnswersContents(c: Cache, m: map<string, Participant>, next: Op)
    requires Holds(c, m)
    ensures Answer(c, next) == MapAnswer(m, next)
  {
    assert next.Load? ==> Get(Contents(c), KeyWithPrefix(next.id)) == Get(m, next.id);
  }

  // ---------- what a restart loses without write-through ----------

  /** The loads and stores of the participant since it was last removed. */
  function Since(ops: seq<Op>, id: string): seq<Op> {
    if ops == [] then []
    else
      var init, op := Since(ops[..|ops| - 1], id), ops[|ops| - 1];
      match op
      case Load(other) => if other == id then init + [op] else init
      case Store(state) => if state.id == id then init + [op] else init
      case Remove(other) => if other == id then [] else init
      case Restart => init
  }

  /** What Redis held of the participant at the start of those. */
  function Base(redis: map<string, Participant>, ops: seq<Op>, id: string): Option<Participant> {
    if Remove(id) in ops then None else Get(redis, KeyWithPrefix(id))
  }

  /** The participant has come into memory: it was stored, or loaded when there was something to load. */
  predicate Sighted(base: Option<Participant>, since: seq<Op>) {
    since != [] && (base.Some? || since[|since| - 1].Store? || Sighted(base, since[..|since| - 1]))
  }

  /** Its state at first sight. */
  function FirstSeen(base: Option<Participant>, since: seq<Op>): Option<Participant> {
    if since == [] then base
    else
      var init, op := since[..|since| - 1], since[|since| - 1];
      if op.Store? && !Sighted(base, init) then Some(op.state) else FirstSeen(base, init)
  }

  /** The state last stored. */
  function LastStored(base: Option<Participant>, since: seq<Op>): Option<Participant> {
    if since == [] then base
    else
      var op := since[|since| - 1];
      if op.Store? then Some(op.state) else LastStored(base, since[..|since| - 1])
  }

  lemma {:induction false} SightedIsFirst(base: Option<Participant>, since: seq<Op>)
    requires forall k :: 0 <= k < |since| ==> since[k].Load? || since[k].Store?
    ensures !Sighted(base, since) ==> FirstSeen(base, since) == LastStored(base, since) == base
    ensures !Sighted(base, since) && since != [] ==> base.None?
  {
    if since == [] {
    } else {
      SightedIsFirst(base, since[..|since| - 1]);
    }
  }

  lemma {:induction false} SinceTouches(ops: seq<Op>, id: string)
    ensures forall k :: 0 <= k < |Since(ops, id)| ==> Since(ops, id)[k].Load? || Since(ops, id)[k].Store?
  {
    if ops == [] {
    } else {
      SinceTouches(ops[..|ops| - 1], id);
    }
  }

  /** What memory and Redis hold of the participant. */
  ghost predicate Entry(c: Cache, id: string, base: Option<Participant>, since: seq<Op>) {
    var key := KeyWithPrefix(id);
    && Get(c.redis, key) == FirstSeen(base, since)
    && (key in c.mem <==> Sighted(base, since))
    && (key in c.mem ==> Some(c.mem[key]) == LastStored(base, since))
  }

  lemma TouchedEntry(c: Cache, id: string, base: Option<Participant>, since: seq<Op>, op: Op)
    requires Entry(c, id, base, since) && (op == Load(id) || (op.Store? && op.state.id == id))
    requires forall k :: 0 <= k < |since| ==> since[k].Load? || since[k].Store?
    ensures Entry(Step(false, c, op), id, base, since + [op])
  {
    assert (since + [op])[..|since|] == since;
    SightedIsFirst(base, since);
  }

  lemma OtherEntry(c: Cache, id: string, base: Option<Participant>, since: seq<Op>, op: Op)
    requires Entry(c, id, base, since)
    requires match op
      case Load(other) => other != id
      case Store(state) => state.id != id
      case Remove(other) => other != id
      case Restart => false
    ensures Entry(Step(false, c, op), id, base, since)
  {
    match op
    case Load(other) => KeysDiffer(id, other);
    case Store(state) => KeysDiffer(id, state.id);
    case Remove(other) => KeysDiffer(id, other);
  }

  lemma {:induction false} EntryOf(redis: map<string, Participant>, ops: seq<Op>, id: string)
    requires Restart !in ops
    ensures Entry(Cached(false, redis, ops), id, Base(redis, ops, id), Since(ops, id))
  {
    hide Entry, Step;
    if ops == [] {
      assert Entry(Cache(map[], redis), id, Get(redis, KeyWithPrefix(id)), []) by {
        NothingSeen(redis, id);
      }
    } else {
      var init, op := ops[..|ops| - 1], ops[|ops| - 1];
      assert ops == init + [op];
      EntryOf(redis, init, id);
      SinceTouches(init, id);
      var c := Cached(false, redis, init);
      if op == Load(id) || (op.Store? && op.state.id == id) {
        TouchedEntry(c, id, Base(redis, init, id), Since(init, id), op);
      } else if op == Remove(id) {
        RemovedEntry(c, id);
      } else {
        OtherEntry(c, id, Base(redis, init, id), Since(init, id), op);
      }
    }
  }

  lemma NothingSeen(redis: map<string, Participant>, id: string)
    ensures Entry(Cache(map[], redis), id, Get(redis, KeyWithPrefix(id)), [])
  {
  }

  lemma RemovedEntry(c: Cache, id: string)
    ensures Entry(Step(false, c, Remove(id)), id, None, [])
  {
  }

  /** Without write-through, from any content of Redis: a restart keeps the answer for a participant exactly when the
    * state last stored, since the participant was last removed, is its state at first sight - the one first stored,
    * or the one that Redis held when it was loaded before that. */
  lemma {:induction false} RestartKeepsExactly(redis: map<string, Participant>, ops: seq<Op>, id: string)
    requires Restart !in ops
    ensures var c, base, since := Cached(false, redis, ops), Base(redis, ops, id), Since(ops, id);
      && Answer(c, Load(id)) == LastStored(base, since)
      && Answer(Step(false, c, Restart), Load(id)) == FirstSeen(base, since)
      && (Answer(Step(false, c, Restart), Load(id)) == Answer(c, Load(id))
          <==> FirstSeen(base, since) == LastStored(base, since))
  {
    EntryOf(redis, ops, id);
    SinceTouches(ops, id);
    SightedIsFirst(Base(redis, ops, id), Since(ops, id));
  }

  /** A second store stays in memory, and a restart brings the first one back. */
  lemma FirstSightComesBack(p: Participant, q: Participant)
    requires p.id == q.id && p != q
    ensures Answer(Cached(false, map[], [Store(p), Store(q), Restart]), Load(p.id)) == Some(p)
    ensures MapAnswer(Plain(map[], [Store(p), Store(q), Restart]), Load(p.id)) == Some(q)
  {
    var a, b, c := [Store(p)], [Store(p), Store(q)], [Store(p), Store(q), Restart];
    assert c[..2] == b && b[..1] == a && a[..0] == [];
    assert Cached(false, map[], a) == Step(false, Cache(map[], map[]), Store(p));
    assert Plain(map[], a) == map[p.id := p];
  }
}
