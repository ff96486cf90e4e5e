/**
 * The `Storage` object of backend/src/utils/storage.ts. Its two JSON files
 * become two fields that each method reads and reassigns in place: `users`
 * (with `order`, the order in which the dictionary's keys were first added)
 * and `activities`. Each mutating method follows the source's steps and is
 * proved to leave exactly the state that the matching `Ledger` function
 * describes; the reads are the `Ledger` functions applied to `State()`.
 */
module Store {
  import Ledger

  class Storage {
    var users: map<string, Ledger.UserData>
    var order: seq<string>
    var activities: seq<Ledger.Activity>

    function State(): Ledger.State
      reads this
    {
      Ledger.State(users, order, activities)
    }

    ghost predicate Valid()
      reads this
    {
      Ledger.Valid(State())
    }

    /** `initializeFiles`: an empty dictionary and an empty feed. */
    constructor ()
      ensures Valid() && State() == Ledger.Empty
    {
      users, order, activities := map[], [], [];
      Ledger.EmptyIsValid();
    }

    /** `saveUsers` of a dictionary in which only `key` was (re)assigned. */
    method Save(key: string, u: Ledger.UserData)
      requires Valid() && Ledger.IsLower(key)
      modifies this
      ensures Valid()
      ensures State() == Ledger.Put(old(State()), key, u)
    {
      if key !in users {
        order := order + [key];
      }
      users := users[key := u];
    }

    method CreateUser(address: string, now: string) returns (u: Ledger.UserData)
      requires Valid()
      modifies this
      ensures Valid()
      ensures (State(), u) == Ledger.CreateUser(old(State()), address, now)
    {
      var key := Ledger.Lower(address);
      Ledger.LowerIsLower(address);
      if key in users {
        return users[key];
      }
      u := Ledger.NewUser(key, now);
      Save(key, u);
    }

    method UpdateUser(address: string, updates: Ledger.UserPatch, now: string) returns (u: Ledger.UserData)
      requires Valid()
      modifies this
      ensures Valid()
      ensures (State(), u) == Ledger.UpdateUser(old(State()), address, updates, now)
    {
      var key := Ledger.Lower(address);
      Ledger.LowerIsLower(address);
      ghost var before := State();
      if key !in users {
        var created := CreateUser(address, now);
      }
      u := Ledger.MergeUser(users[key], updates, now);
      Save(key, u);
      Ledger.PutTwice(before, key, Ledger.NewUser(key, now), u);
    }

    method MarkQuestCompleted(address: string, questId: int, now: string)
      requires Valid()
      modifies this
      ensures Valid()
      ensures State() == Ledger.MarkQuestCompleted(old(State()), address, questId, now)
    {
      ghost var before := State();
      var user := Ledger.GetUser(State(), address);
      var u: Ledger.UserData;
      if user.Some? {
        u := user.value;
      } else {
        u := CreateUser(address, now);
      }
      ghost var created := State();
      u := u.(questProgress := u.questProgress[questId := true]);
      var updated := UpdateUser(address, Ledger.Whole(u), now);
      Ledger.UpdateWithWhole(created, address, u, now);
      Ledger.PutTwice(before, Ledger.Lower(address), Ledger.NewUser(Ledger.Lower(address), now), u.(lastActive := now));
    }

    method AddTransaction(address: string, tx: Ledger.Transaction, now: string)
      requires Valid()
      modifies this
      ensures Valid()
      ensures State() == Ledger.AddTransaction(old(State()), address, tx, now)
    {
      ghost var before := State();
      var user := Ledger.GetUser(State(), address);
      var u: Ledger.UserData;
      if user.Some? {
        u := user.value;
      } else {
        u := CreateUser(address, now);
      }
      ghost var created := State();
      u := u.(transactions := u.transactions + [tx]);
      var updated := UpdateUser(address, Ledger.Whole(u), now);
      Ledger.UpdateWithWhole(created, address, u, now);
      Ledger.PutTwice(before, Ledger.Lower(address), Ledger.NewUser(Ledger.Lower(address), now), u.(lastActive := now));
    }

    method UpdateTransaction(address: string, transactionId: string, updates: Ledger.TxPatch, now: string)
      requires Valid()
      modifies this
      ensures Valid()
      ensures State() == Ledger.UpdateTransaction(old(State()), address, transactionId, updates, now)
    {
      var user := Ledger.GetUser(State(), address);
      if user.None? {
        return;
      }
      var u := user.value;
      var txIndex := Ledger.FindIndex(u.transactions, Ledger.TxIdIs(transactionId));
      if txIndex.Some? {
        var i := txIndex.value;
        u := u.(transactions := u.transactions[i := Ledger.MergeTx(u.transactions[i], updates)]);
        Ledger.UpdateWithWhole(State(), address, u, now);
        var updated := UpdateUser(address, Ledger.Whole(u), now);
      }
    }

    method AddAllocation(address: string, allocation: Ledger.GasAllocation, now: string)
      requires Valid()
      modifies this
      ensures Valid()
      ensures State() == Ledger.AddAllocation(old(State()), address, allocation, now)
    {
      ghost var before := State();
      var user := Ledger.GetUser(State(), address);
      var u: Ledger.UserData;
      if user.Some? {
        u := user.value;
      } else {
        u := CreateUser(address, now);
      }
      ghost var created := State();
      u := u.(allocations := u.allocations + [allocation]);
      var updated := UpdateUser(address, Ledger.Whole(u), now);
      Ledger.UpdateWithWhole(created, address, u, now);
      Ledger.PutTwice(before, Ledger.Lower(address), Ledger.NewUser(Ledger.Lower(address), now), u.(lastActive := now));
    }

    method UpdateAllocation(address: string, allocationId: string, updates: Ledger.AllocationPatch, now: string)
      requires Valid()
      modifies this
      ensures Valid()
      ensures State() == Ledger.UpdateAllocation(old(State()), address, allocationId, updates, now)
    {
      var user := Ledger.GetUser(State(), address);
      if user.None? {
        return;
      }
      var u := user.value;
      var allocationIndex := Ledger.FindIndex(u.allocations, Ledger.AllocationIdIs(allocationId));
      if allocationIndex.Some? {
        var i := allocationIndex.value;
        u := u.(allocations := u.allocations[i := Ledger.MergeAllocation(u.allocations[i], updates)]);
        Ledger.UpdateWithWhole(State(), address, u, now);
        var updated := UpdateUser(address, Ledger.Whole(u), now);
      }
    }

    /** `unshift`, then `splice(100)` when the feed has grown past the cap. */
    method AddActivity(activity: Ledger.Activity)
      requires Valid()
      modifies this
      ensures Valid()
      ensures State() == Ledger.AddActivity(old(State()), activity)
    {
      activities := [activity] + activities;
      if |activities| > Ledger.FeedCap {
        activities := activities[..Ledger.FeedCap];
      }
    }
  }
}
