/** The duplicate set kept in one Redis set, and the one sharded over Redis sets by the first character of the id. */
module DuplicateSets {
  import opened Common

  // ---------- specification ----------

  datatype Op = Add(id: string) | Exists(id: string) | Remove(id: string)

  function FlatStep(s: set<string>, op: Op): set<string> {
    match op
    case Add(id) => s + {id}
    case Exists(_) => s
    case Remove(id) => s - {id}
  }

  /** Adding answers whether the id was new, the other two whether it was there. */
  function FlatAnswer(s: set<string>, op: Op): bool {
    if op.Add? then op.id !in s else op.id in s
  }

  /** The sets of a Redis key space; Redis keeps no empty set. */
  type Keys = map<string, set<string>>

  datatype Sharding = Sharding(setKey: string, partitionEnabled: bool)

  function FirstChar(id: string): string {
    if id == "" then "" else [id[0]]
  }

  function GetKey(h: Sharding, id: string): string {
    if h.partitionEnabled then h.setKey + "_" + FirstChar(id) else h.setKey
  }

  function Members(m: Keys, key: string): set<string> {
    if key in m then m[key] else {}
  }

  function ShardStep(h: Sharding, m: Keys, op: Op): Keys {
    var key := GetKey(h, op.id);
    match op
    case Add(id) => m[key := Members(m, key) + {id}]
    case Exists(_) => m
    case Remove(id) =>
      var rest := Members(m, key) - {id};
      if rest == {} then m - {key} else m[key := rest]
  }

  function ShardAnswer(h: Sharding, m: Keys, op: Op): bool {
    FlatAnswer(Members(m, GetKey(h, op.id)), op)
  }

  /** The key matches the pattern of the set's key followed by anything. */
  predicate Ours(h: Sharding, key: string) {
    h.setKey <= key
  }

  ghost predicate IsPrefix(prefix: string, key: string) {
    |prefix| <= |key| && forall i :: 0 <= i < |prefix| ==> key[i] == prefix[i]
  }

  function Union(h: Sharding, m: Keys): set<string> {
    set key, id | key in m && Ours(h, key) && id in m[key] :: id
  }

  /** The ids that are in the shard they belong to. */
  function Own(h: Sharding, m: Keys): set<string> {
    set key, id | key in m && id in m[key] && GetKey(h, id) == key :: id
  }

  /** What listing the set gives: with sharding every id under a matching key, and else one set. */
  function Listed(h: Sharding, m: Keys): set<string> {
    if h.partitionEnabled then Union(h, m) else Members(m, h.setKey)
  }

  /** The ids that are under a matching key in which they do not belong. */
  function Strays(h: Sharding, m: Keys): set<string> {
    set key, id | key in m && Ours(h, key) && id in m[key] && GetKey(h, id) != key :: id
  }

  /** Redis keeps no empty set. */
  ghost predicate NoneEmpty(m: Keys) {
    forall key :: key in m ==> m[key] != {}
  }

  /** The key of the id's shard, written out: with sharding the set's key, an underscore and the first character. */
  function ShardOf(h: Sharding, id: string): string {
    if !h.partitionEnabled then h.setKey
    else if id == "" then h.setKey + "_"
    else h.setKey + "_" + id[..1]
  }

  /** No other key changes, and no other id in this one. */
  ghost predicate OnlyShard(h: Sharding, m: Keys, t: Keys, id: string) {
    && (forall key :: key != ShardOf(h, id) ==> Members(t, key) == Members(m, key))
    && (forall other :: other != id ==>
          (other in Members(t, ShardOf(h, id)) <==> other in Members(m, ShardOf(h, id))))
  }

  predicate InShard(h: Sharding, m: Keys, id: string) {
    id in Members(m, ShardOf(h, id))
  }

  /** An operation reads and writes that one shard: an added id is then there, a removed one is not, and the answer is
    * whether it was new or there. */
  lemma StepInShard(h: Sharding, m: Keys, op: Op)
    ensures OnlyShard(h, m, ShardStep(h, m, op), op.id)
    ensures InShard(h, ShardStep(h, m, op), op.id) <==> op.Add? || (op.Exists? && InShard(h, m, op.id))
    ensures ShardAnswer(h, m, op) <==> if op.Add? then !InShard(h, m, op.id) else InShard(h, m, op.id)
  {
    assert op.id != "" ==> [op.id[0]] == op.id[..1];
    assert GetKey(h, op.id) == ShardOf(h, op.id);
  }

  // ---------- the repositories ----------

  /** The members of a Redis set, or matching keys, in an order Redis chooses. */
  method Listing(s: set<string>) returns (r: seq<string>)
    ensures Distinct(r) && forall x :: x in r <==> x in s
  {
    r := [];
    var rest := s;
    while rest != {}
      invariant rest <= s && Distinct(r) && forall x :: x in r <==> x in s - rest
      decreases rest
    {
      var x :| x in rest;
      assert x !in r;
      r := r + [x];
      rest := rest - {x};
    }
  }

  class RedisDuplicateRepo {
    var members: set<string>

    constructor ()
      ensures members == {}
    {
      members := {};
    }

    method AddId(id: string) returns (isNew: bool)
      modifies this
      ensures members == FlatStep(old(members), Add(id)) && isNew == FlatAnswer(old(members), Add(id))
    {
      isNew := id !in members;
      members := members + {id};
    }

    method ExistsId(id: string) returns (there: bool)
      ensures there == FlatAnswer(members, Exists(id))
    {
      there := id in members;
    }

    method RemoveId(id: string) returns (there: bool)
      modifies this
      ensures members == FlatStep(old(members), Remove(id)) && there == FlatAnswer(old(members), Remove(id))
    {
      there := id in members;
      members := members - {id};
    }

    method GetAll() returns (all: seq<string>)
      ensures Distinct(all) && forall x :: x in all <==> x in members
    {
      all := Listing(members);
    }
  }

  class RedisDuplicateShardedRepo {
    const sharding: Sharding
    var redis: Keys

    constructor (sharding: Sharding, redis: Keys)
      ensures this.sharding == sharding && this.redis == redis
    {
      this.sharding, this.redis := sharding, redis;
    }

    method AddId(id: string) returns (isNew: bool)
      modifies this
      ensures redis == ShardStep(sharding, old(redis), Add(id))
      ensures OnlyShard(sharding, old(redis), redis, id)
      ensures id in Members(redis, ShardOf(sharding, id))
      ensures isNew <==> id !in Members(old(redis), ShardOf(sharding, id))
      ensures isNew == ShardAnswer(sharding, old(redis), Add(id))
    {
      StepInShard(sharding, redis, Add(id));
      var key := GetKey(sharding, id);
      isNew := id !in Members(redis, key);
      redis := redis[key := Members(redis, key) + {id}];
    }

    method ExistsId(id: string) returns (there: bool)
      ensures there == ShardAnswer(sharding, redis, Exists(id))
      ensures there <==> id in Members(redis, ShardOf(sharding, id))
    {
      StepInShard(sharding, redis, Exists(id));
      there := id in Members(redis, GetKey(sharding, id));
    }

    method RemoveId(id: string) returns (there: bool)
      modifies this
      ensures redis == ShardStep(sharding, old(redis), Remove(id))
      ensures OnlyShard(sharding, old(redis), redis, id)
      ensures id !in Members(redis, ShardOf(sharding, id))
      ensures there <==> id in Members(old(redis), ShardOf(sharding, id))
      ensures there == ShardAnswer(sharding, old(redis), Remove(id))
    {
      StepInShard(sharding, redis, Remove(id));
      var key := GetKey(sharding, id);
      there := id in Members(redis, key);
      var rest := Members(redis, key) - {id};
      redis := if rest == {} then redis - {key} else redis[key := rest];
    }

    /** Without repeats, exactly the ids that are listed. */
    method GetAll() returns (all: seq<string>)
      ensures Distinct(all) && forall x :: x in all <==> x in Listed(sharding, redis)
      ensures forall x :: x in all <==>
                if sharding.partitionEnabled
                then exists key :: key in redis && IsPrefix(sharding.setKey, key) && x in redis[key]
                else sharding.setKey in redis && x in redis[sharding.setKey]
    {
      var matching := set key | key in redis && Ours(sharding, key);
      var partitionSets := Listing(matching);
      if sharding.partitionEnabled && |partitionSets| > 0 {
        all := [];
        for i := 0 to |partitionSets|
          invariant Distinct(all)
          invariant forall x :: x in all <==> Gathered(redis, partitionSets[..i], x)
        {
          var partitionMembers := Listing(Members(redis, partitionSets[i]));
          all := AddEach(all, partitionMembers);
          assert partitionSets[..i + 1] == partitionSets[..i] + [partitionSets[i]];
        }
        assert partitionSets[..|partitionSets|] == partitionSets;
        GatheredAll(sharding, redis, partitionSets);
      } else {
        all := Listing(Members(redis, sharding.setKey));
        forall key | key in redis && sharding.partitionEnabled ensures !Ours(sharding, key) {
          assert key in partitionSets <==> key in matching;
        }
        assert Ours(sharding, sharding.setKey);
      }
    }
  }

  /** The id is in one of the sets with these keys. */
  predicate Gathered(m: Keys, keys: seq<string>, id: string) {
    exists key :: key in keys && id in Members(m, key)
  }

  lemma GatheredAll(h: Sharding, m: Keys, keys: seq<string>)
    requires forall key :: key in keys <==> key in m && Ours(h, key)
    ensures forall x :: Gathered(m, keys, x) <==> x in Union(h, m)
  {
  }

  /** The inner loop of listing all shards: values go into a set that keeps the order of insertion. */
  method AddEach(resultSet: seq<string>, values: seq<string>) returns (all: seq<string>)
    requires Distinct(resultSet)
    ensures Distinct(all) && forall x :: x in all <==> x in resultSet || x in values
  {
    all := resultSet;
    for j := 0 to |values|
      invariant Distinct(all)
      invariant forall x :: x in all <==> x in resultSet || x in values[..j]
    {
      if values[j] !in all {
        all := all + [values[j]];
      }
    }
  }

  // ---------- over every sequence of operations ----------

  function Shards(h: Sharding, m: Keys, ops: seq<Op>): Keys {
    if ops == [] then m else ShardStep(h, Shards(h, m, ops[..|ops| - 1]), ops[|ops| - 1])
  }

  function Flat(s: set<string>, ops: seq<Op>): set<string> {
    if ops == [] then s else FlatStep(Flat(s, ops[..|ops| - 1]), ops[|ops| - 1])
  }

  lemma ShardStepRefines(h: Sharding, m: Keys, op: Op)
    ensures Own(h, ShardStep(h, m, op)) == FlatStep(Own(h, m), op)
    ensures ShardAnswer(h, m, op) == FlatAnswer(Own(h, m), op)
    ensures Strays(h, ShardStep(h, m, op)) == Strays(h, m)
    ensures NoneEmpty(m) ==> NoneEmpty(ShardStep(h, m, op))
  {
    var t, k := ShardStep(h, m, op), GetKey(h, op.id);
    forall id ensures id in Own(h, t) <==> id in FlatStep(Own(h, m), op) {
      assert id in Own(h, t) <==> id in Members(t, GetKey(h, id));
      assert id in Own(h, m) <==> id in Members(m, GetKey(h, id));
    }
    forall id ensures id in Strays(h, t) <==> id in Strays(h, m) {
      assert forall key :: key != k || id != op.id ==> (id in Members(t, key) <==> id in Members(m, key));
      StraysAre(h, m, id);
      StraysAre(h, t, id);
    }
  }

  lemma StraysAre(h: Sharding, m: Keys, id: string)
    ensures id in Strays(h, m) <==> exists key :: Ours(h, key) && GetKey(h, id) != key && id in Members(m, key)
  {
  }

  lemma ListedAre(h: Sharding, m: Keys)
    ensures Listed(h, m) == if h.partitionEnabled then Own(h, m) + Strays(h, m) else Own(h, m)
  {
    forall id ensures id in Own(h, m) <==> id in Members(m, GetKey(h, id)) {
    }
    assert forall id :: Ours(h, GetKey(h, id));
    if h.partitionEnabled {
      forall id ensures id in Listed(h, m) <==> id in Own(h, m) || id in Strays(h, m) {
        StraysAre(h, m, id);
      }
    }
  }

  /** From any key space and over every sequence of operations, the sharded set answers like the flat one, the ids in
    * their shards are the flat set, and what lies astray stays there, whatever is added, removed or emptied. */
  lemma {:induction false} ShardedRefinesFlat(h: Sharding, m: Keys, ops: seq<Op>, next: Op)
    ensures Own(h, Shards(h, m, ops)) == Flat(Own(h, m), ops)
    ensures ShardAnswer(h, Shards(h, m, ops), next) == FlatAnswer(Flat(Own(h, m), ops), next)
    ensures Strays(h, Shards(h, m, ops)) == Strays(h, m)
    ensures NoneEmpty(m) ==> NoneEmpty(Shards(h, m, ops))
  {
    if ops == [] {
    } else {
      var init := ops[..|ops| - 1];
      ShardedRefinesFlat(h, m, init, next);
      ShardStepRefines(h, Shards(h, m, init), ops[|ops| - 1]);
    }
    ShardStepRefines(h, Shards(h, m, ops), next);
  }

  /** Over every sequence of operations, listing gives the flat set exactly when every id that lay astray at the start
    * is in it - so always without sharding, or if no other key begins with the set's key. */
  lemma {:induction false} ListedExactly(h: Sharding, m: Keys, ops: seq<Op>)
    ensures Listed(h, Shards(h, m, ops)) == Flat(Own(h, m), ops) <==>
            !h.partitionEnabled || Strays(h, m) <= Flat(Own(h, m), ops)
  {
    hide Listed, Own, Strays, Shards, Flat;
    ShardedRefinesFlat(h, m, ops, Exists(""));
    ListedAre(h, Shards(h, m, ops));
  }

  /** The last operation that added or removed the id was an addition; if there was none, it was there at the start. */
  ghost predicate LastAdded(s: set<string>, ops: seq<Op>, id: string) {
    if exists k :: 0 <= k < |ops| && ops[k].id == id && !ops[k].Exists?
    then exists k :: 0 <= k < |ops| && ops[k] == Add(id)
                     && forall j :: k < j < |ops| && ops[j].id == id ==> !ops[j].Remove?
    else id in s
  }

  /** After any operations the ids are those that were last added, and from then on the answers say so. */
  lemma {:induction false} FlatIsLastAdded(s: set<string>, ops: seq<Op>, id: string)
    ensures id in Flat(s, ops) <==> LastAdded(s, ops, id)
    ensures FlatAnswer(Flat(s, ops), Exists(id)) <==> LastAdded(s, ops, id)
    ensures FlatAnswer(Flat(s, ops), Add(id)) <==> !LastAdded(s, ops, id)
    ensures FlatAnswer(Flat(s, ops), Remove(id)) <==> LastAdded(s, ops, id)
  {
    if ops == [] {
    } else {
      var init, op := ops[..|ops| - 1], ops[|ops| - 1];
      FlatIsLastAdded(s, init, id);
      assert forall k :: 0 <= k < |init| ==> init[k] == ops[k];
      if op.id == id && op.Add? {
        assert ops[|ops| - 1] == Add(id);
      } else if op.id != id || op.Exists? {
        LastAddedKept(s, ops, id);
      }
    }
  }

  lemma LastAddedKept(s: set<string>, ops: seq<Op>, id: string)
    requires ops != [] && (ops[|ops| - 1].id != id || ops[|ops| - 1].Exists?)
    ensures LastAdded(s, ops, id) <==> LastAdded(s, ops[..|ops| - 1], id)
  {
    var init := ops[..|ops| - 1];
    assert forall k :: 0 <= k < |init| ==> init[k] == ops[k];
    forall k | 0 <= k < |init| && init[k] == Add(id)
               && forall j :: k < j < |init| && init[j].id == id ==> !init[j].Remove?
      ensures ops[k] == Add(id) && forall j :: k < j < |ops| && ops[j].id == id ==> !ops[j].Remove?
    {
    }
  }
}
