/** A participant state repository: in memory, where it hands out the objects it stores, or Redis, where it hands out
  * what it parses from the text it stored. */
module ParticipantRepos {
  import opened Participants
  import opened ParticipantEntities

  class ParticipantStateRepo {
    const byReference: bool
    var list: map<string, ParticipantState>       // in memory
    var docs: map<string, Participant>            // in Redis
    ghost var contents: map<string, Participant>  // what a reader sees

    constructor (byReference: bool)
      ensures Valid() && contents == map[] && this.byReference == byReference && Footprint() == {}
    {
      this.byReference, list, docs, contents := byReference, map[], map[], map[];
    }

    ghost function Footprint(): set<AccountList>
      reads this
    {
      set id | id in list :: list[id].accounts
    }

    /** Stored states are under their own ids. */
    ghost predicate Keyed()
      reads this
    {
      && (forall id :: id in contents ==> contents[id].id == id)
      && (if byReference then list.Keys == contents.Keys else docs == contents && list == map[])
      && (forall id :: id in list ==> list[id].id == id && list[id].Valid())
    }

    /** What a reader sees is right, except perhaps under this id. */
    ghost predicate ValidBut(id: string)
      reads this, Footprint()
    {
      && Keyed()
      && forall k :: k in list && k != id ==> list[k].Value() == contents[k]
    }

    ghost predicate Valid()
      reads this, Footprint()
    {
      && Keyed()
      && forall k :: k in list ==> list[k].Value() == contents[k]
    }

    method Load(id: string) returns (state: ParticipantState?)
      requires Valid()
      ensures state == null <==> id !in contents
      ensures state != null ==> state.Valid() && state.id == id && state.Value() == contents[id]
      ensures state != null ==> if byReference then id in list && state == list[id] else fresh(state.accounts)
    {
      state := null;
      if byReference {
        if id in list { state := list[id]; }
      } else if id in docs {
        state := FreshState(docs[id]);
      }
    }

    /** The entry goes, by removal or because Redis dropped it. */
    method Remove(id: string)
      requires Valid()
      modifies this
      ensures Valid() && contents == old(contents) - {id}
      ensures Footprint() <= old(Footprint())
    {
      if byReference {
        list := list - {id};
      } else {
        docs := docs - {id};
      }
      contents := contents - {id};
    }

    method Store(state: ParticipantState)
      requires ValidBut(state.id) && state.Valid()
      modifies this
      ensures Valid() && contents == old(contents)[state.id := state.Value()]
      ensures Footprint() <= old(Footprint()) + {state.accounts}
    {
      if byReference {
        list := list[state.id := state];
      } else {
        docs := docs[state.id := state.Value()];
      }
      contents := contents[state.id := state.Value()];
    }
  }
}
