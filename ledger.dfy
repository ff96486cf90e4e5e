/**
 * The off-chain reward ledger of backend/src/utils/storage.ts, as values.
 *
 * The store keeps two documents: a dictionary from lower-cased wallet address
 * to a user record, and a global activity feed, newest first, capped at 100
 * entries. `State` is one snapshot of both. Every read of the store is a
 * function of a `State`, and every write is a function from the old `State` to
 * the new one; the class `Store.Storage` performs the writes in place and is
 * proved to produce exactly these states.
 *
 * A JavaScript object remembers the order in which its keys were first added,
 * and the bridge lookup scans users in that order, so `State` keeps the key
 * order beside the map.
 */
module Ledger {
  import opened Wrappers

  /** The feed keeps only the newest 100 activities. */
  const FeedCap: nat := 100

  function Min(a: int, b: int): int { if a <= b then a else b }
  function Max(a: int, b: int): int { if a <= b then b else a }

  // ---------------------------------------------------------------------------
  // Addresses are compared after ASCII lower-casing (`toLowerCase`).

  function LowerChar(c: char): char
  {
    if 'A' <= c <= 'Z' then (c as int + 32) as char else c
  }

  function Lower(s: string): (r: string)
    ensures |r| == |s|
    ensures forall i :: 0 <= i < |s| ==> r[i] == LowerChar(s[i])
  {
    if s == [] then [] else [LowerChar(s[0])] + Lower(s[1..])
  }

  /** A string that lower-casing leaves alone: the shape of every key of the store. */
  predicate IsLower(s: string)
  {
    forall i :: 0 <= i < |s| ==> LowerChar(s[i]) == s[i]
  }

  lemma LowerIsLower(s: string)
    ensures IsLower(Lower(s))
    ensures Lower(Lower(s)) == Lower(s)
  {
  }

  // ---------------------------------------------------------------------------
  // Records

  datatype TxKind = Tip | Donation | Transfer | Bridge
  datatype TxStatus = Pending | Completed | Failed

  datatype Transaction = Transaction(
    id: string,
    kind: TxKind,
    amount: string,
    to: Option<string>,
    from: Option<string>,
    timestamp: string,
    status: TxStatus,
    txHash: Option<string>)

  /** `Partial<Transaction>`: the fields an update supplies. */
  datatype TxPatch = TxPatch(
    id: Option<string>,
    kind: Option<TxKind>,
    amount: Option<string>,
    to: Option<string>,
    from: Option<string>,
    timestamp: Option<string>,
    status: Option<TxStatus>,
    txHash: Option<string>)

  datatype AllocationStatus = Active | Reverted

  datatype GasAllocation = GasAllocation(
    allocationId: string,
    amount: string,
    timestamp: string,
    status: AllocationStatus,
    transactionId: Option<string>)

  /** `Partial<GasAllocation>`. */
  datatype AllocationPatch = AllocationPatch(
    allocationId: Option<string>,
    amount: Option<string>,
    timestamp: Option<string>,
    status: Option<AllocationStatus>,
    transactionId: Option<string>)

  datatype ActivityKind = QuestCompleted | GasAllocated | GasReverted | TransactionMade | LevelUp

  /** The `metadata` objects the route handlers attach to their activities. */
  datatype Metadata =
    | NoMetadata
    | QuestMetadata(questId: int, xpEarned: string)
    | AllocationMetadata(allocationId: string, amount: string)
    | RevertMetadata(allocationId: string)
    | BridgeMetadata(requestId: string, targetChain: string, targetToken: string)

  datatype Activity = Activity(
    id: string,
    userAddress: string,
    kind: ActivityKind,
    description: string,
    timestamp: string,
    metadata: Metadata)

  datatype UserData = UserData(
    address: string,
    questProgress: map<int, bool>,
    transactions: seq<Transaction>,
    allocations: seq<GasAllocation>,
    createdAt: string,
    lastActive: string)

  /**
   * `Partial<UserData>`. A supplied `lastActive` is always overwritten by
   * `updateUser`, so the patch does not carry one.
   */
  datatype UserPatch = UserPatch(
    address: Option<string>,
    questProgress: Option<map<int, bool>>,
    transactions: Option<seq<Transaction>>,
    allocations: Option<seq<GasAllocation>>,
    createdAt: Option<string>)

  /** The patch that supplies every field of `u`: what `updateUser(address, user)` receives. */
  function Whole(u: UserData): UserPatch
  {
    UserPatch(Some(u.address), Some(u.questProgress), Some(u.transactions), Some(u.allocations), Some(u.createdAt))
  }

  /** Object spread `{...record, ...patch}` on one field. */
  function Pick<T>(field: Option<T>, current: T): T
  {
    field.GetOr(current)
  }

  /** `{...user, ...updates, lastActive: now}`. */
  function MergeUser(u: UserData, p: UserPatch, now: string): (r: UserData)
    ensures r.lastActive == now
  {
    UserData(Pick(p.address, u.address), Pick(p.questProgress, u.questProgress),
             Pick(p.transactions, u.transactions), Pick(p.allocations, u.allocations),
             Pick(p.createdAt, u.createdAt), now)
  }

  /** `{...transaction, ...updates}`. */
  function MergeTx(t: Transaction, p: TxPatch): (r: Transaction)
    ensures p.id.Some? ==> r.id == p.id.value
    ensures p.kind.Some? ==> r.kind == p.kind.value
    ensures p.amount.Some? ==> r.amount == p.amount.value
    ensures p.to.Some? ==> r.to == p.to
    ensures p.from.Some? ==> r.from == p.from
    ensures p.timestamp.Some? ==> r.timestamp == p.timestamp.value
    ensures p.status.Some? ==> r.status == p.status.value
    ensures p.txHash.Some? ==> r.txHash == p.txHash
  {
    Transaction(Pick(p.id, t.id), Pick(p.kind, t.kind), Pick(p.amount, t.amount),
                if p.to.Some? then p.to else t.to, if p.from.Some? then p.from else t.from,
                Pick(p.timestamp, t.timestamp), Pick(p.status, t.status),
                if p.txHash.Some? then p.txHash else t.txHash)
  }

  /** `{...allocation, ...updates}`. */
  function MergeAllocation(a: GasAllocation, p: AllocationPatch): (r: GasAllocation)
    ensures p.allocationId.Some? ==> r.allocationId == p.allocationId.value
    ensures p.amount.Some? ==> r.amount == p.amount.value
    ensures p.timestamp.Some? ==> r.timestamp == p.timestamp.value
    ensures p.status.Some? ==> r.status == p.status.value
    ensures p.transactionId.Some? ==> r.transactionId == p.transactionId
  {
    GasAllocation(Pick(p.allocationId, a.allocationId), Pick(p.amount, a.amount),
                  Pick(p.timestamp, a.timestamp), Pick(p.status, a.status),
                  if p.transactionId.Some? then p.transactionId else a.transactionId)
  }

  /** Merging a full record's patch gives that record, freshly touched. */
  lemma MergeWhole(u: UserData, v: UserData, now: string)
    ensures MergeUser(u, Whole(v), now) == v.(lastActive := now)
  {
  }

  /** A merge keeps every field the patch does not supply, and applying the same patch again changes nothing. */
  lemma MergeAllocationKeeps(a: GasAllocation, p: AllocationPatch)
    ensures p.allocationId.None? ==> MergeAllocation(a, p).allocationId == a.allocationId
    ensures p.amount.None? ==> MergeAllocation(a, p).amount == a.amount
    ensures p.timestamp.None? ==> MergeAllocation(a, p).timestamp == a.timestamp
    ensures p.status.None? ==> MergeAllocation(a, p).status == a.status
    ensures p.transactionId.None? ==> MergeAllocation(a, p).transactionId == a.transactionId
    ensures MergeAllocation(MergeAllocation(a, p), p) == MergeAllocation(a, p)
  {
  }

  lemma MergeTxKeeps(t: Transaction, p: TxPatch)
    ensures p.id.None? ==> MergeTx(t, p).id == t.id
    ensures p.kind.None? ==> MergeTx(t, p).kind == t.kind
    ensures p.amount.None? ==> MergeTx(t, p).amount == t.amount
    ensures p.to.None? ==> MergeTx(t, p).to == t.to
    ensures p.from.None? ==> MergeTx(t, p).from == t.from
    ensures p.timestamp.None? ==> MergeTx(t, p).timestamp == t.timestamp
    ensures p.status.None? ==> MergeTx(t, p).status == t.status
    ensures p.txHash.None? ==> MergeTx(t, p).txHash == t.txHash
    ensures MergeTx(MergeTx(t, p), p) == MergeTx(t, p)
  {
  }

  // ---------------------------------------------------------------------------
  // Array helpers with JavaScript's semantics

  /** `Array.prototype.findIndex`, with None for -1. */
  function FindIndex<T>(xs: seq<T>, p: T -> bool): (r: Option<nat>)
    ensures r.Some? ==> r.value < |xs| && p(xs[r.value])
    ensures r.Some? ==> forall j :: 0 <= j < r.value ==> !p(xs[j])
    ensures r.None? ==> forall j :: 0 <= j < |xs| ==> !p(xs[j])
  {
    if xs == [] then None
    else if p(xs[0]) then Some(0)
    else match FindIndex(xs[1..], p)
      case Some(i) => Some(i + 1)
      case None => None
  }

  function TxIdIs(id: string): Transaction -> bool
  {
    (t: Transaction) => t.id == id
  }

  function AllocationIdIs(allocationId: string): GasAllocation -> bool
  {
    (a: GasAllocation) => a.allocationId == allocationId
  }

  /** `Array.prototype.slice(0, end)`: a negative `end` counts back from the length. */
  function SliceTo<T>(xs: seq<T>, end: int): (r: seq<T>)
    ensures |r| <= |xs| && r == xs[..|r|]
    ensures end >= 0 ==> |r| == Min(end, |xs|)
    ensures end < 0 ==> |r| == Max(|xs| + end, 0)
  {
    if end >= 0 then xs[..Min(end, |xs|)] else xs[..Max(|xs| + end, 0)]
  }

  // ---------------------------------------------------------------------------
  // The store

  datatype State = State(users: map<string, UserData>, order: seq<string>, feed: seq<Activity>)

  /** The empty documents `{}` and `[]` that the store starts from. */
  const Empty: State := State(map[], [], [])

  /**
   * The order lists each key of the dictionary exactly once, every key is
   * lower-case, and the feed is within its cap.
   */
  ghost predicate Valid(s: State)
  {
    && (forall k :: k in s.users <==> k in s.order)
    && (forall i, j :: 0 <= i < j < |s.order| ==> s.order[i] != s.order[j])
    && (forall k :: k in s.users ==> IsLower(k))
    && |s.feed| <= FeedCap
  }

  lemma EmptyIsValid()
    ensures Valid(Empty)
  {
  }

  /** Stores `u` under `key`; a key seen for the first time goes to the end of the key order. */
  function Put(s: State, key: string, u: UserData): (r: State)
    ensures r.users == s.users[key := u] && r.feed == s.feed
    ensures key in s.users ==> r.order == s.order
    ensures key !in s.users ==> r.order == s.order + [key]
    ensures Valid(s) && IsLower(key) ==> Valid(r)
  {
    State(s.users[key := u], if key in s.users then s.order else s.order + [key], s.feed)
  }

  /** Writing a key twice leaves the second record, and the key where the first write put it. */
  lemma PutTwice(s: State, key: string, u: UserData, v: UserData)
    ensures Put(Put(s, key, u), key, v) == Put(s, key, v)
  {
    assert s.users[key := u][key := v] == s.users[key := v];
  }

  /** The record `createUser` makes: lower-cased address, no progress, no history. */
  function NewUser(key: string, now: string): UserData
  {
    UserData(key, map[], [], [], now, now)
  }

  /** `getUser(address) || createUser(address)`: the stored record, or the one createUser would store. */
  function Current(s: State, key: string, now: string): UserData
  {
    if key in s.users then s.users[key] else NewUser(key, now)
  }

  /** getUser: the record under the lower-cased address, or none. */
  function GetUser(s: State, address: string): (r: Option<UserData>)
    ensures r.Some? <==> Lower(address) in s.users
    ensures r.Some? ==> r.value == s.users[Lower(address)]
  {
    var key := Lower(address);
    if key in s.users then Some(s.users[key]) else None
  }

  /** Two spellings of an address that differ only in case find the same record. */
  lemma GetUserIgnoresCase(s: State, a: string, b: string)
    requires Lower(a) == Lower(b)
    ensures GetUser(s, a) == GetUser(s, b)
    ensures GetUser(s, Lower(a)) == GetUser(s, a)
  {
    LowerIsLower(a);
  }

  /** createUser: idempotent; a new record is stored under the lower-cased address. */
  function CreateUser(s: State, address: string, now: string): (r: (State, UserData))
    ensures Lower(address) in s.users ==> r == (s, s.users[Lower(address)])
    ensures Lower(address) !in s.users ==>
      && r.1.address == Lower(address)
      && r.1.questProgress == map[] && r.1.transactions == [] && r.1.allocations == []
      && r.1.createdAt == now && r.1.lastActive == now
      && r.0.users == s.users[Lower(address) := r.1]
      && r.0.order == s.order + [Lower(address)]
      && r.0.feed == s.feed
  {
    var key := Lower(address);
    if key in s.users then (s, s.users[key]) else (Put(s, key, NewUser(key, now)), NewUser(key, now))
  }

  /** Creating a user that now exists, under any spelling of its address, returns it and writes nothing. */
  lemma CreateUserIdempotent(s: State, a: string, b: string, now: string, later: string)
    requires Lower(a) == Lower(b)
    ensures CreateUser(CreateUser(s, a, now).0, b, later) == CreateUser(s, a, now)
  {
  }

  /**
   * updateUser: creates the record if absent, overwrites exactly the supplied
   * fields, always refreshes lastActive, and leaves every other record alone.
   */
  function UpdateUser(s: State, address: string, p: UserPatch, now: string): (r: (State, UserData))
    ensures var key := Lower(address);
      && r.0.users == s.users[key := r.1]
      && r.0.order == (if key in s.users then s.order else s.order + [key])
      && r.0.feed == s.feed
    ensures r.1.lastActive == now
    ensures var base := Current(s, Lower(address), now);
      && r.1.address == (if p.address.Some? then p.address.value else base.address)
      && r.1.questProgress == (if p.questProgress.Some? then p.questProgress.value else base.questProgress)
      && r.1.transactions == (if p.transactions.Some? then p.transactions.value else base.transactions)
      && r.1.allocations == (if p.allocations.Some? then p.allocations.value else base.allocations)
      && r.1.createdAt == (if p.createdAt.Some? then p.createdAt.value else base.createdAt)
  {
    var key := Lower(address);
    var u := MergeUser(Current(s, key, now), p, now);
    (Put(s, key, u), u)
  }

  /** `updateUser(address, user)` with a whole record stores that record, freshly touched. */
  lemma UpdateWithWhole(s: State, address: string, u: UserData, now: string)
    ensures UpdateUser(s, address, Whole(u), now).0 == Put(s, Lower(address), u.(lastActive := now))
  {
    MergeWhole(Current(s, Lower(address), now), u, now);
  }

  /** markQuestCompleted: the flag for `questId` becomes true; nothing else but lastActive changes. */
  function MarkQuestCompleted(s: State, address: string, questId: int, now: string): (r: State)
    ensures var key := Lower(address); var before := Current(s, key, now);
      && key in r.users && r.users == s.users[key := r.users[key]]
      && r.order == (if key in s.users then s.order else s.order + [key])
      && r.feed == s.feed
      && r.users[key].questProgress == before.questProgress[questId := true]
      && r.users[key] == before.(questProgress := r.users[key].questProgress, lastActive := now)
  {
    var key := Lower(address);
    var u := Current(s, key, now);
    Put(s, key, u.(questProgress := u.questProgress[questId := true], lastActive := now))
  }

  /** hasCompletedQuest: false for an unknown user and for a quest without a flag. */
  function HasCompletedQuest(s: State, address: string, questId: int): (r: bool)
    ensures r <==> Lower(address) in s.users && questId in s.users[Lower(address)].questProgress
                   && s.users[Lower(address)].questProgress[questId]
  {
    match GetUser(s, address)
    case Some(u) => questId in u.questProgress && u.questProgress[questId]
    case None => false
  }

  /**
   * Marking a quest is seen by hasCompletedQuest under any spelling of the
   * address, and marking it again gives the same flags.
   */
  lemma MarkQuestCompletedIdempotent(s: State, a: string, b: string, questId: int, now: string, later: string)
    requires Lower(a) == Lower(b)
    ensures HasCompletedQuest(MarkQuestCompleted(s, a, questId, now), b, questId)
    ensures var once := MarkQuestCompleted(s, a, questId, now);
            var twice := MarkQuestCompleted(once, b, questId, later);
            && twice.users[Lower(a)].questProgress == once.users[Lower(a)].questProgress
            && twice.order == once.order
  {
    var once := MarkQuestCompleted(s, a, questId, now);
    var flags := once.users[Lower(a)].questProgress;
    assert flags[questId := true] == flags;
  }

  /** getTransactions: the user's list, or empty for an unknown user. */
  function GetTransactions(s: State, address: string): (r: seq<Transaction>)
    ensures Lower(address) !in s.users ==> r == []
    ensures Lower(address) in s.users ==> r == s.users[Lower(address)].transactions
  {
    match GetUser(s, address)
    case Some(u) => u.transactions
    case None => []
  }

  /** addTransaction: the user's list grows by exactly `tx`, at the end. */
  function AddTransaction(s: State, address: string, tx: Transaction, now: string): (r: State)
    ensures var key := Lower(address); var before := GetTransactions(s, address);
      && key in r.users && r.users == s.users[key := r.users[key]]
      && r.order == (if key in s.users then s.order else s.order + [key])
      && r.feed == s.feed
      && r.users[key].transactions == before + [tx]
      && r.users[key] == Current(s, key, now).(transactions := before + [tx], lastActive := now)
  {
    var key := Lower(address);
    var u := Current(s, key, now);
    Put(s, key, u.(transactions := u.transactions + [tx], lastActive := now))
  }

  /**
   * updateTransaction: only the first transaction with id `id` changes, by the
   * merge; an unknown user or id leaves the whole state as it was.
   */
  function UpdateTransaction(s: State, address: string, id: string, p: TxPatch, now: string): (r: State)
    ensures var key := Lower(address);
      key !in s.users || FindIndex(s.users[key].transactions, TxIdIs(id)).None? ==> r == s
    ensures var key := Lower(address);
      key in s.users && FindIndex(s.users[key].transactions, TxIdIs(id)).Some? ==>
        var txs := s.users[key].transactions;
        var i := FindIndex(txs, TxIdIs(id)).value;
        && key in r.users && r.users == s.users[key := r.users[key]] && r.order == s.order && r.feed == s.feed
        && txs[i].id == id && (forall j :: 0 <= j < i ==> txs[j].id != id)
        && |r.users[key].transactions| == |txs|
        && r.users[key].transactions[i] == MergeTx(txs[i], p)
        && (forall j :: 0 <= j < |txs| && j != i ==> r.users[key].transactions[j] == txs[j])
        && r.users[key] == s.users[key].(transactions := r.users[key].transactions, lastActive := now)
  {
    var key := Lower(address);
    if key !in s.users then s
    else
      var u := s.users[key];
      match FindIndex(u.transactions, TxIdIs(id))
      case None => s
      case Some(i) => Put(s, key, u.(transactions := u.transactions[i := MergeTx(u.transactions[i], p)], lastActive := now))
  }

  /** addAllocation: the user's allocations grow by exactly `a`, at the end. */
  function AddAllocation(s: State, address: string, a: GasAllocation, now: string): (r: State)
    ensures var key := Lower(address); var before := Current(s, key, now).allocations;
      && key in r.users && r.users == s.users[key := r.users[key]]
      && r.order == (if key in s.users then s.order else s.order + [key])
      && r.feed == s.feed
      && r.users[key].allocations == before + [a]
      && r.users[key] == Current(s, key, now).(allocations := before + [a], lastActive := now)
  {
    var key := Lower(address);
    var u := Current(s, key, now);
    Put(s, key, u.(allocations := u.allocations + [a], lastActive := now))
  }

  /**
   * updateAllocation: only the first allocation with that id changes, by the
   * merge; an unknown user or id leaves the whole state as it was.
   */
  function UpdateAllocation(s: State, address: string, allocationId: string, p: AllocationPatch, now: string): (r: State)
    ensures var key := Lower(address);
      key !in s.users || FindIndex(s.users[key].allocations, AllocationIdIs(allocationId)).None? ==> r == s
    ensures var key := Lower(address);
      key in s.users && FindIndex(s.users[key].allocations, AllocationIdIs(allocationId)).Some? ==>
        var allocs := s.users[key].allocations;
        var i := FindIndex(allocs, AllocationIdIs(allocationId)).value;
        && key in r.users && r.users == s.users[key := r.users[key]] && r.order == s.order && r.feed == s.feed
        && allocs[i].allocationId == allocationId
        && (forall j :: 0 <= j < i ==> allocs[j].allocationId != allocationId)
        && |r.users[key].allocations| == |allocs|
        && r.users[key].allocations[i] == MergeAllocation(allocs[i], p)
        && (forall j :: 0 <= j < |allocs| && j != i ==> r.users[key].allocations[j] == allocs[j])
        && r.users[key] == s.users[key].(allocations := r.users[key].allocations, lastActive := now)
  {
    var key := Lower(address);
    if key !in s.users then s
    else
      var u := s.users[key];
      match FindIndex(u.allocations, AllocationIdIs(allocationId))
      case None => s
      case Some(i) => Put(s, key, u.(allocations := u.allocations[i := MergeAllocation(u.allocations[i], p)], lastActive := now))
  }

  /**
   * addActivity: the new entry is first, the previous entries follow in their
   * order, and the feed is cut to the newest FeedCap entries.
   */
  function AddActivity(s: State, a: Activity): (r: State)
    ensures r.users == s.users && r.order == s.order
    ensures |r.feed| == Min(|s.feed| + 1, FeedCap)
    ensures r.feed[0] == a
    ensures r.feed[1..] == s.feed[..|r.feed| - 1]
  {
    var feed := [a] + s.feed;
    s.(feed := if |feed| > FeedCap then feed[..FeedCap] else feed)
  }

  function Reverse<T>(xs: seq<T>): (r: seq<T>)
    ensures |r| == |xs|
  {
    if xs == [] then [] else Reverse(xs[1..]) + [xs[0]]
  }

  /** `batch` added one activity at a time, batch[0] first. */
  function AddActivities(s: State, batch: seq<Activity>): State
    decreases |batch|
  {
    if batch == [] then s else AddActivities(AddActivity(s, batch[0]), batch[1..])
  }

  lemma PrefixOfPrefix<T>(x: seq<T>, p: seq<T>, q: seq<T>, n: nat)
    requires |p| <= |q| && p == q[..|p|]
    requires n <= |x| + |p|
    ensures (x + p)[..n] == (x + q)[..n]
  {
    forall i | 0 <= i < n
      ensures (x + p)[i] == (x + q)[i]
    {
      if i >= |x| {
        assert (x + p)[i] == p[i - |x|] == q[i - |x|] == (x + q)[i];
      }
    }
  }

  /**
   * After any batch of insertions the feed holds the newest entries, newest
   * first, and never more than FeedCap.
   */
  lemma {:induction false} AddActivitiesKeepsNewest(s: State, batch: seq<Activity>)
    requires |s.feed| <= FeedCap
    ensures AddActivities(s, batch).feed == (Reverse(batch) + s.feed)[..Min(|batch| + |s.feed|, FeedCap)]
    decreases |batch|
  {
    if batch == [] {
      assert Reverse(batch) + s.feed == s.feed;
    } else {
      AddActivitiesKeepsNewest(AddActivity(s, batch[0]), batch[1..]);
      FirstInsertion(s, batch);
    }
  }

  /** Inserting the first activity of a batch, seen from the feed the whole batch leaves. */
  lemma FirstInsertion(s: State, batch: seq<Activity>)
    requires batch != [] && |s.feed| <= FeedCap
    ensures var s1 := AddActivity(s, batch[0]);
      (Reverse(batch[1..]) + s1.feed)[..Min(|batch| - 1 + |s1.feed|, FeedCap)]
        == (Reverse(batch) + s.feed)[..Min(|batch| + |s.feed|, FeedCap)]
  {
    var s1 := AddActivity(s, batch[0]);
    var whole := [batch[0]] + s.feed;
    var n := Min(|batch| + |s.feed|, FeedCap);
    assert Min(|batch| - 1 + |s1.feed|, FeedCap) == n;
    InsertedIsPrefix(s, batch[0]);
    ReverseFirst(batch, s.feed);
    PrefixOfPrefix(Reverse(batch[1..]), s1.feed, whole, n);
  }

  lemma InsertedIsPrefix(s: State, a: Activity)
    ensures var f := AddActivity(s, a).feed; |f| <= |s.feed| + 1 && f == ([a] + s.feed)[..|f|]
  {
  }

  lemma ReverseFirst<T>(xs: seq<T>, tail: seq<T>)
    requires xs != []
    ensures Reverse(xs) + tail == Reverse(xs[1..]) + ([xs[0]] + tail)
  {
    var r := Reverse(xs[1..]);
    var lhs := Reverse(xs) + tail;
    var rhs := r + ([xs[0]] + tail);
    assert |lhs| == |rhs|;
    forall i | 0 <= i < |lhs|
      ensures lhs[i] == rhs[i]
    {
      if i < |r| {
        assert lhs[i] == Reverse(xs)[i] == r[i];
      } else if i == |r| {
        assert lhs[i] == Reverse(xs)[i] == xs[0];
      }
    }
  }

  /** Inserting FeedCap or more activities leaves exactly the newest FeedCap of them, newest first. */
  lemma FullBatchReplacesFeed(s: State, batch: seq<Activity>)
    requires |s.feed| <= FeedCap && |batch| >= FeedCap
    ensures AddActivities(s, batch).feed == Reverse(batch)[..FeedCap]
  {
    AddActivitiesKeepsNewest(s, batch);
    assert (Reverse(batch) + s.feed)[..FeedCap] == Reverse(batch)[..FeedCap];
  }
  /** An activity belongs to an address when the two agree ignoring case. */
  predicate BelongsTo(a: Activity, address: string)
  {
    Lower(a.userAddress) == Lower(address)
  }

  /** The feed filtered to one address, in feed order. */
  function OwnedBy(feed: seq<Activity>, address: string): (r: seq<Activity>)
    ensures |r| <= |feed|
    ensures forall a :: a in r ==> a in feed && BelongsTo(a, address)
    ensures forall a :: a in feed && BelongsTo(a, address) ==> a in r
  {
    if feed == [] then []
    else (if BelongsTo(feed[0], address) then [feed[0]] else []) + OwnedBy(feed[1..], address)
  }

  /** Filtering distributes over concatenation, so it keeps the feed's order. */
  lemma {:induction false} OwnedByAppend(f: seq<Activity>, g: seq<Activity>, address: string)
    ensures OwnedBy(f + g, address) == OwnedBy(f, address) + OwnedBy(g, address)
  {
    if f != [] {
      assert (f + g)[1..] == f[1..] + g;
      OwnedByAppend(f[1..], g, address);
    } else {
      assert f + g == g;
    }
  }

  /**
   * getUserActivities: the first `limit` entries of the feed that belong to
   * `address` (case ignored), in feed order.
   */
  function UserActivities(s: State, address: string, limit: int := 20): (r: seq<Activity>)
    ensures limit >= 0 ==> |r| <= limit
    ensures forall a :: a in r ==> a in s.feed && BelongsTo(a, address)
    ensures |r| <= |OwnedBy(s.feed, address)| && r == OwnedBy(s.feed, address)[..|r|]
    ensures limit >= 0 ==> |r| == Min(limit, |OwnedBy(s.feed, address)|)
    ensures limit < 0 ==> |r| == Max(|OwnedBy(s.feed, address)| + limit, 0)
  {
    SliceTo(OwnedBy(s.feed, address), limit)
  }

  /** A new activity of a user is the first entry of that user's view, whatever the limit (above zero). */
  lemma NewestActivityFirst(s: State, a: Activity, address: string, limit: int)
    requires BelongsTo(a, address) && limit > 0
    ensures UserActivities(AddActivity(s, a), address, limit)[0] == a
  {
    var f := AddActivity(s, a).feed;
    assert f == [a] + f[1..];
    OwnedByAppend([a], f[1..], address);
    assert OwnedBy([a], address) == [a] by {
      assert [a][1..] == [];
    }
  }
}
