/**
 * The gas-credit routes of backend/src/routes/gas.ts: eligibility, allocate,
 * revert, pool balance and allocation history.
 *
 * Allocation asks the chain for the eligible amount, refuses a zero amount
 * before any chain write, submits the allocation, and only after it succeeded
 * records the allocation and an activity. Reverting is local only: it marks
 * the allocation reverted (nothing happens for an unknown one) and always logs
 * an activity and succeeds.
 */
module GasRoutes {
  import opened Wrappers
  import opened Api
  import Ledger
  import Store

  const AddressRequired := "User address is required"
  const NotEligible := "User not eligible for gas allocation"
  const AllocateFailed := "Failed to allocate gas"
  const RevertFieldsRequired := "Allocation ID and user address are required"
  const EligibilityFailed := "Failed to check eligibility"
  const PoolFailed := "Failed to fetch pool balance"

  datatype EligibilityBody = EligibilityBody(address: string, eligibleAmount: string, isEligible: bool)
  datatype AllocationBody = AllocationBody(success: bool, allocationId: string, amount: string, message: string)
  datatype RevertBody = RevertBody(success: bool, message: string)
  datatype PoolBody = PoolBody(poolBalance: string, unit: string)

  /** GET /eligibility/:address: the amount, and whether it is above zero. */
  function Eligibility(address: string, eligible: Outcome<Ether>): (h: Handled<EligibilityBody>)
    ensures h.calls == [GetUserEligibility(address)]
    ensures eligible.Failure? ==> h.response == ServerError(EligibilityFailed)
    ensures eligible.Success? ==>
      && h.response.Ok?
      && h.response.body.address == address
      && h.response.body.eligibleAmount == eligible.value.text
      && (h.response.body.isEligible <==> eligible.value.wei != 0)
  {
    match eligible
    case Failure => Handled(ServerError(EligibilityFailed), [GetUserEligibility(address)])
    case Success(amount) =>
      Handled(Ok(EligibilityBody(address, amount.text, amount.wei > 0)), [GetUserEligibility(address)])
  }

  /** The allocation record stored after a successful on-chain allocation. */
  function Allocated(allocationId: string, amount: string, now: string): Ledger.GasAllocation
  {
    Ledger.GasAllocation(allocationId, amount, now, Ledger.Active, None)
  }

  function AllocatedActivity(activityId: string, user: string, allocationId: string, amount: string, now: string): Ledger.Activity
  {
    Ledger.Activity(activityId, user, Ledger.GasAllocated, "Allocated " + amount + " MON gas", now,
                    Ledger.AllocationMetadata(allocationId, amount))
  }

  /** The two writes of a successful allocation, in the order the handler makes them. */
  function AllocateEffect(s: Ledger.State, user: string, allocationId: string, amount: string, activityId: string, now: string): Ledger.State
  {
    Ledger.AddActivity(Ledger.AddAllocation(s, user, Allocated(allocationId, amount, now), now),
                       AllocatedActivity(activityId, user, allocationId, amount, now))
  }

  /**
   * A successful allocation appends exactly one active allocation carrying the
   * chain's id and the eligible amount, and puts exactly one matching
   * gas_allocated activity at the head of the feed.
   */
  lemma AllocationRecorded(s: Ledger.State, user: string, allocationId: string, amount: string, activityId: string, now: string)
    ensures var after := AllocateEffect(s, user, allocationId, amount, activityId, now);
      var key := Ledger.Lower(user);
      var before := Ledger.Current(s, key, now).allocations;
      && key in after.users
      && after.users[key].allocations == before + [Ledger.GasAllocation(allocationId, amount, now, Ledger.Active, None)]
      && (forall k :: k in s.users && k != key ==> k in after.users && after.users[k] == s.users[k])
      && after.feed[0].kind == Ledger.GasAllocated
      && after.feed[0].metadata == Ledger.AllocationMetadata(allocationId, amount)
      && after.feed[1..] == s.feed[..|after.feed| - 1]
  {
  }

  /** POST /allocate. */
  method Allocate(store: Store.Storage, userAddress: Option<string>, eligible: Outcome<Ether>,
                  allocation: Outcome<string>, activityId: string, now: string)
      returns (r: Response<AllocationBody>, calls: seq<Call>)
    requires store.Valid()
    modifies store
    ensures store.Valid()
    ensures !Given(userAddress) ==>
      r == BadRequest(AddressRequired) && calls == [] && unchanged(store)
    ensures Given(userAddress) && eligible.Failure? ==>
      r == ServerError(AllocateFailed) && calls == [GetUserEligibility(userAddress.value)] && unchanged(store)
    ensures Given(userAddress) && eligible.Success? && eligible.value.wei == 0 ==>
      r == BadRequest(NotEligible) && calls == [GetUserEligibility(userAddress.value)] && unchanged(store)
    ensures Given(userAddress) && eligible.Success? && eligible.value.wei != 0 ==>
      calls == [GetUserEligibility(userAddress.value), AllocateGasToUser(userAddress.value)]
    ensures Given(userAddress) && eligible.Success? && eligible.value.wei != 0 && allocation.Failure? ==>
      r == ServerError(AllocateFailed) && unchanged(store)
    ensures Given(userAddress) && eligible.Success? && eligible.value.wei != 0 && allocation.Success? ==>
      && r == Ok(AllocationBody(true, allocation.value, eligible.value.text, "Gas allocated successfully"))
      && store.State() == AllocateEffect(old(store.State()), userAddress.value, allocation.value,
                                         eligible.value.text, activityId, now)
  {
    calls := [];
    if !Given(userAddress) {
      return BadRequest(AddressRequired), calls;
    }
    var user := userAddress.value;
    calls := calls + [GetUserEligibility(user)];
    if eligible.Failure? {
      return ServerError(AllocateFailed), calls;
    }
    var eligibleAmount := eligible.value;
    if eligibleAmount.wei == 0 {
      return BadRequest(NotEligible), calls;
    }
    calls := calls + [AllocateGasToUser(user)];
    if allocation.Failure? {
      return ServerError(AllocateFailed), calls;
    }
    var allocationId := allocation.value;
    store.AddAllocation(user, Allocated(allocationId, eligibleAmount.text, now), now);
    store.AddActivity(AllocatedActivity(activityId, user, allocationId, eligibleAmount.text, now));
    r := Ok(AllocationBody(true, allocationId, eligibleAmount.text, "Gas allocated successfully"));
  }

  const RevertPatch: Ledger.AllocationPatch := Ledger.AllocationPatch(None, None, None, Some(Ledger.Reverted), None)

  function RevertActivity(activityId: string, user: string, allocationId: string, now: string): Ledger.Activity
  {
    Ledger.Activity(activityId, user, Ledger.GasReverted, "Gas returned to pool", now, Ledger.RevertMetadata(allocationId))
  }

  /** The two writes of a revert: the local status change, then the activity. */
  function RevertEffect(s: Ledger.State, user: string, allocationId: string, activityId: string, now: string): Ledger.State
  {
    Ledger.AddActivity(Ledger.UpdateAllocation(s, user, allocationId, RevertPatch, now),
                       RevertActivity(activityId, user, allocationId, now))
  }

  /**
   * Reverting marks the first allocation with that id reverted and touches no
   * other allocation; reverting it again leaves the allocations as they are.
   */
  lemma RevertMarksReverted(s: Ledger.State, user: string, allocationId: string, activityId: string, now: string,
                            againId: string, later: string)
    requires var key := Ledger.Lower(user);
      key in s.users && Ledger.FindIndex(s.users[key].allocations, Ledger.AllocationIdIs(allocationId)).Some?
    ensures var key := Ledger.Lower(user);
      var allocs := s.users[key].allocations;
      var i := Ledger.FindIndex(allocs, Ledger.AllocationIdIs(allocationId)).value;
      var once := RevertEffect(s, user, allocationId, activityId, now);
      var twice := RevertEffect(once, user, allocationId, againId, later);
      && once.users[key].allocations[i] == allocs[i].(status := Ledger.Reverted)
      && |once.users[key].allocations| == |allocs|
      && (forall j :: 0 <= j < |allocs| && j != i ==> once.users[key].allocations[j] == allocs[j])
      && twice.users[key].allocations == once.users[key].allocations
  {
    var key := Ledger.Lower(user);
    var allocs := s.users[key].allocations;
    var i := Ledger.FindIndex(allocs, Ledger.AllocationIdIs(allocationId)).value;
    var mid := Ledger.UpdateAllocation(s, user, allocationId, RevertPatch, now);
    var once := RevertEffect(s, user, allocationId, activityId, now);
    assert once.users == mid.users;
    var allocs1 := once.users[key].allocations;
    assert allocs1[i].allocationId == allocationId;
    assert forall j :: 0 <= j < i ==> allocs1[j].allocationId != allocationId;
    assert Ledger.FindIndex(allocs1, Ledger.AllocationIdIs(allocationId)) == Some(i);
    assert allocs1[i := Ledger.MergeAllocation(allocs1[i], RevertPatch)] == allocs1;
  }

  /**
   * Reverting an allocation the user does not have, or for a user the store
   * does not know, changes no user record and still logs the activity.
   */
  lemma RevertUnknownStillLogged(s: Ledger.State, user: string, allocationId: string, activityId: string, now: string)
    requires var key := Ledger.Lower(user);
      key !in s.users || forall a :: a in s.users[key].allocations ==> a.allocationId != allocationId
    ensures var after := RevertEffect(s, user, allocationId, activityId, now);
      && after.users == s.users && after.order == s.order
      && after.feed[0] == RevertActivity(activityId, user, allocationId, now)
  {
  }

  /** POST /revert: local only; succeeds whenever both fields are present. */
  method Revert(store: Store.Storage, allocationId: Option<string>, userAddress: Option<string>,
                activityId: string, now: string)
      returns (r: Response<RevertBody>, calls: seq<Call>)
    requires store.Valid()
    modifies store
    ensures store.Valid()
    ensures calls == []
    ensures !(Given(allocationId) && Given(userAddress)) ==>
      r == BadRequest(RevertFieldsRequired) && unchanged(store)
    ensures Given(allocationId) && Given(userAddress) ==>
      && r == Ok(RevertBody(true, "Gas reverted successfully"))
      && store.State() == RevertEffect(old(store.State()), userAddress.value, allocationId.value, activityId, now)
  {
    calls := [];
    if !Given(allocationId) || !Given(userAddress) {
      return BadRequest(RevertFieldsRequired), calls;
    }
    var user := userAddress.value;
    store.UpdateAllocation(user, allocationId.value, RevertPatch, now);
    store.AddActivity(RevertActivity(activityId, user, allocationId.value, now));
    r := Ok(RevertBody(true, "Gas reverted successfully"));
  }

  /** GET /pool. */
  function PoolBalance(pool: Outcome<string>): (h: Handled<PoolBody>)
    ensures h.calls == [Api.GetPoolBalance]
    ensures pool.Failure? ==> h.response == ServerError(PoolFailed)
    ensures pool.Success? ==> h.response == Ok(PoolBody(pool.value, "MON"))
  {
    match pool
    case Failure => Handled(ServerError(PoolFailed), [Api.GetPoolBalance])
    case Success(balance) => Handled(Ok(PoolBody(balance, "MON")), [Api.GetPoolBalance])
  }

  /** GET /allocations/:address: the user's allocations in order, or none for an unknown address. */
  function Allocations(store: Store.Storage, address: string): (r: Response<seq<Ledger.GasAllocation>>)
    reads store
    ensures r.Ok?
    ensures Ledger.Lower(address) !in store.users ==> r.body == []
    ensures Ledger.Lower(address) in store.users ==> r.body == store.users[Ledger.Lower(address)].allocations
  {
    match Ledger.GetUser(store.State(), address)
    case Some(user) => Ok(user.allocations)
    case None => Ok([])
  }
}
