/** The participant entity as the code has it: account lists whose positions are overwritten in place, and states
  * that share them. */
module ParticipantEntities {
  import opened Common
  import opened Decimals
  import opened Participants

  /** The list of accounts that a state refers to.  Its accounts change in place. */
  class AccountList {
    var items: seq<Account>
    ghost const owner: string   // the participant whose accounts these are

    constructor (items: seq<Account>, ghost owner: string)
      ensures this.items == items && this.owner == owner
    {
      this.items, this.owner := items, owner;
    }

    method SetPosition(i: nat, x: Num)
      requires i < |items|
      modifies this
      ensures items == old(items)[i := old(items)[i].(position := x)]
    {
      items := items[i := items[i].(position := x)];
    }
  }

  /** The fields are set once; only the positions of the accounts change. */
  class ParticipantState {
    const id: string
    const name: string
    const accounts: AccountList
    const endpoints: seq<Endpoint>
    const partition: Option<int>

    ghost predicate Valid() {
      accounts.owner == id
    }

    function Value(): Participant
      reads accounts
    {
      Participant(id, name, accounts.items, endpoints, partition)
    }

    constructor (id: string, name: string, accounts: AccountList, endpoints: seq<Endpoint>, partition: Option<int>)
      ensures this.id == id && this.name == name && this.accounts == accounts && this.endpoints == endpoints
      ensures this.partition == partition
    {
      this.id, this.name, this.accounts, this.endpoints, this.partition := id, name, accounts, endpoints, partition;
    }
  }

  /** A state with an account list of its own. */
  method FreshState(p: Participant) returns (state: ParticipantState)
    ensures fresh(state) && fresh(state.accounts) && state.Valid() && state.Value() == p
  {
    var accounts := new AccountList(p.accounts, p.id);
    state := new ParticipantState(p.id, p.name, accounts, p.endpoints, p.partition);
  }

  class ParticipantEntity {
    const state: ParticipantState

    constructor (initialState: ParticipantState)
      ensures state == initialState
    {
      state := initialState;
    }

    /** The first POSITION account of the currency. */
    method GetAccount(c: string) returns (i: nat)
      ensures i == FindPosition(state.Value().accounts, c)
    {
      var accounts := state.accounts.items;
      i := 0;
      while i < |accounts| && !(accounts[i].kind == POSITION && accounts[i].currency == c)
        invariant i <= |accounts|
        invariant forall j :: 0 <= j < i ==> !IsPosition(accounts[j], c)
      {
        i := i + 1;
      }
    }

    method GetLimitFromAccount(a: Account) returns (value: Option<Num>)
      ensures forall cap :: value == Some(cap) <==> CapIs(a.limits, cap)
      ensures value == NetDebitCap(a.limits)
    {
      CapFound(a.limits);
      for i := 0 to |a.limits|
        invariant NetDebitCap(a.limits) == NetDebitCap(a.limits[i..])
      {
        if a.limits[i].kind == NET_DEBIT_CAP {
          return a.limits[i].value;
        }
        assert a.limits[i..][1..] == a.limits[i + 1..];
      }
      value := None;
    }

    method HasAccount(c: string) returns (there: bool)
      ensures there == HasPosition(state.Value(), c)
    {
      var i := GetAccount(c);
      there := i < |state.accounts.items|;
    }

    method CanReserveFunds(c: string, amount: Num) returns (can: Result<bool, FundsError>)
      ensures var o := TryReserve(state.Value(), c, amount);
        can == if o.Success? then Success(true)
               else if o.error == NetDebitCapLimitExceeded then Success(false) else Failure(o.error)
    {
      if amount == NaN || AtMost(amount, ZERO) { return Success(false); }
      var i := GetAccount(c);
      if i == |state.accounts.items| { return Failure(InvalidAccount); }
      var limitValue := GetLimitFromAccount(state.accounts.items[i]);
      if limitValue.None? { return Failure(InvalidLimit); }
      var currentPosition := state.accounts.items[i].position;
      if currentPosition == NaN { return Success(false); }
      var result := Plus(currentPosition, amount);
      can := Success(Less(result, limitValue.value));
    }

    /** A refused reservation leaves every account as it was. */
    method ReserveFunds(c: string, amount: Num) returns (r: Result<(), FundsError>)
      modifies if TryReserve(state.Value(), c, amount).Success? then {state.accounts} else {}
      ensures var o := TryReserve(old(state.Value()), c, amount);
        if o.Success? then r == Success(()) && state.Value() == o.value else r == Failure(o.error)
    {
      var can := CanReserveFunds(c, amount);
      match can
      case Failure(e) => r := Failure(e);
      case Success(false) => r := Failure(NetDebitCapLimitExceeded);
      case Success(true) =>
        var i := GetAccount(c);
        var result := Plus(state.accounts.items[i].position, amount);
        if result != NaN {
          state.accounts.SetPosition(i, result);
        }
        r := Success(());
    }

    method CommitFunds(c: string, amount: Num) returns (r: Result<(), FundsError>)
      modifies if TryCommit(state.Value(), c, amount).Success? then {state.accounts} else {}
      ensures var o := TryCommit(old(state.Value()), c, amount);
        if o.Success? then r == Success(()) && state.Value() == o.value else r == Failure(o.error)
    {
      var i := GetAccount(c);
      if i == |state.accounts.items| { return Failure(InvalidAccount); }
      var result := Minus(state.accounts.items[i].position, amount);
      if result != NaN {
        state.accounts.SetPosition(i, result);
      }
      r := Success(());
    }

    method GetCurrentPosition(c: string) returns (r: Result<Num, FundsError>)
      ensures r == if HasPosition(state.Value(), c) then Success(CurrentPosition(state.Value(), c))
                   else Failure(InvalidAccount)
    {
      var i := GetAccount(c);
      if i == |state.accounts.items| { return Failure(InvalidAccount); }
      r := Success(state.accounts.items[i].position);
    }

    /** A shallow clone: another state object that shares the account list. */
    method ExportState() returns (clone: ParticipantState)
      ensures fresh(clone) && clone.accounts == state.accounts && clone.id == state.id
      ensures clone.Value() == state.Value()
    {
      clone := new ParticipantState(state.id, state.name, state.accounts, state.endpoints, state.partition);
    }
  }
}
