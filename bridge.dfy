/**
 * The bridge routes of backend/src/routes/bridge.ts: quoting, initiating,
 * completing and looking up a cross-chain bridge request, and the fixed list
 * of supported chains and tokens.
 *
 * Initiation is simulated locally: it makes no chain call, records a pending
 * bridge transaction under the generated request id and logs an activity.
 * A lookup asks the bridge registry first and, when that fails, scans the
 * local users in key order for a transaction with that id.
 */
module BridgeRoutes {
  import opened Wrappers
  import opened Api
  import Ledger
  import Store

  const QuoteFieldsRequired := "Input amount and target token are required"
  const QuoteFailed := "Failed to calculate output"
  const InitiateFieldsRequired := "User address, amount, target chain, and target token are required"
  const RequestIdRequired := "Request ID is required"
  const CompleteFailed := "Failed to complete bridge"
  const RequestNotFound := "Bridge request not found"

  datatype QuoteBody = QuoteBody(inputAmount: string, targetToken: string, outputAmount: string, fee: string)
  datatype InitiateBody = InitiateBody(success: bool, requestId: string, message: string, estimatedTime: string)
  datatype CompleteBody = CompleteBody(success: bool, txHash: string, message: string)

  /** A looked-up request: the registry's record, or the local transaction with that id. */
  datatype Found = OnChain(request: BridgeRequest) | Local(transaction: Ledger.Transaction)

  datatype Chain = Chain(name: string, chainId: nat, icon: string)
  datatype Token = Token(symbol: string, name: string, decimals: nat)

  /** POST /calculate: the quote, echoed with the request's two fields. */
  function Calculate(inputAmount: Option<string>, targetToken: Option<string>, quote: Outcome<BridgeQuote>): (h: Handled<QuoteBody>)
    ensures !(Given(inputAmount) && Given(targetToken)) ==> h == Handled(BadRequest(QuoteFieldsRequired), [])
    ensures Given(inputAmount) && Given(targetToken) ==>
      && h.calls == [CalculateBridgeOutput(inputAmount.value, targetToken.value)]
      && (quote.Failure? ==> h.response == ServerError(QuoteFailed))
      && (quote.Success? ==> h.response == Ok(QuoteBody(inputAmount.value, targetToken.value,
                                                        quote.value.outputAmount, quote.value.fee)))
  {
    if !Given(inputAmount) || !Given(targetToken) then Handled(BadRequest(QuoteFieldsRequired), [])
    else
      var calls := [CalculateBridgeOutput(inputAmount.value, targetToken.value)];
      match quote
      case Failure => Handled(ServerError(QuoteFailed), calls)
      case Success(q) => Handled(Ok(QuoteBody(inputAmount.value, targetToken.value, q.outputAmount, q.fee)), calls)
  }

  /** The pending bridge transaction stored under the request id. */
  function BridgeTx(requestId: string, amount: string, now: string): Ledger.Transaction
  {
    Ledger.Transaction(requestId, Ledger.Bridge, amount, None, None, now, Ledger.Pending, None)
  }

  function BridgeActivity(activityId: string, user: string, requestId: string, amount: string,
                          targetChain: string, targetToken: string, now: string): Ledger.Activity
  {
    Ledger.Activity(activityId, user, Ledger.TransactionMade,
                    "Bridge initiated: " + amount + " MON \U{2192} " + targetToken, now,
                    Ledger.BridgeMetadata(requestId, targetChain, targetToken))
  }

  /** The two writes of an initiation: the transaction, then the activity. */
  function InitiateEffect(s: Ledger.State, user: string, requestId: string, amount: string,
                          targetChain: string, targetToken: string, activityId: string, now: string): Ledger.State
  {
    Ledger.AddActivity(Ledger.AddTransaction(s, user, BridgeTx(requestId, amount, now), now),
                       BridgeActivity(activityId, user, requestId, amount, targetChain, targetToken, now))
  }

  /** POST /initiate: local only, never a chain call. */
  method Initiate(store: Store.Storage, userAddress: Option<string>, amount: Option<string>,
                  targetChain: Option<string>, targetToken: Option<string>,
                  requestId: string, activityId: string, now: string)
      returns (r: Response<InitiateBody>, calls: seq<Call>)
    requires store.Valid()
    modifies store
    ensures store.Valid()
    ensures calls == []
    ensures !(Given(userAddress) && Given(amount) && Given(targetChain) && Given(targetToken)) ==>
      r == BadRequest(InitiateFieldsRequired) && unchanged(store)
    ensures Given(userAddress) && Given(amount) && Given(targetChain) && Given(targetToken) ==>
      && r == Ok(InitiateBody(true, requestId, "Bridge request initiated", "2-5 minutes"))
      && store.State() == InitiateEffect(old(store.State()), userAddress.value, requestId, amount.value,
                                         targetChain.value, targetToken.value, activityId, now)
  {
    calls := [];
    if !Given(userAddress) || !Given(amount) || !Given(targetChain) || !Given(targetToken) {
      return BadRequest(InitiateFieldsRequired), calls;
    }
    var user := userAddress.value;
    store.AddTransaction(user, BridgeTx(requestId, amount.value, now), now);
    store.AddActivity(BridgeActivity(activityId, user, requestId, amount.value, targetChain.value, targetToken.value, now));
    r := Ok(InitiateBody(true, requestId, "Bridge request initiated", "2-5 minutes"));
  }

  /** POST /complete: the registry call, with its transaction hash on success. */
  function CompleteBridge(requestId: Option<string>, completion: Outcome<string>): (h: Handled<CompleteBody>)
    ensures !Given(requestId) ==> h == Handled(BadRequest(RequestIdRequired), [])
    ensures Given(requestId) ==>
      && h.calls == [CompleteBridgeRequest(requestId.value)]
      && (completion.Failure? ==> h.response == ServerError(CompleteFailed))
      && (completion.Success? ==> h.response == Ok(CompleteBody(true, completion.value, "Bridge completed successfully")))
  {
    if !Given(requestId) then Handled(BadRequest(RequestIdRequired), [])
    else
      var calls := [CompleteBridgeRequest(requestId.value)];
      match completion
      case Failure => Handled(ServerError(CompleteFailed), calls)
      case Success(txHash) => Handled(Ok(CompleteBody(true, txHash, "Bridge completed successfully")), calls)
  }

  /**
   * The local fallback of the lookup: the users in key order, and in each the
   * first transaction with that id.
   */
  function Scan(users: map<string, Ledger.UserData>, order: seq<string>, id: string): (r: Option<Ledger.Transaction>)
    ensures r.Some? ==> r.value.id == id && exists k :: k in order && k in users && r.value in users[k].transactions
    ensures r.None? <==> forall k :: k in order && k in users ==> forall t :: t in users[k].transactions ==> t.id != id
  {
    if order == [] then None
    else if order[0] in users then
      match Ledger.FindIndex(users[order[0]].transactions, Ledger.TxIdIs(id))
      case Some(i) => Some(users[order[0]].transactions[i])
      case None => Scan(users, order[1..], id)
    else Scan(users, order[1..], id)
  }

  /**
   * When exactly one user holds a transaction with that id, the scan returns
   * that user's first such transaction, wherever the user is in key order.
   */
  lemma {:induction false} ScanOnlyMatch(users: map<string, Ledger.UserData>, order: seq<string>, id: string, key: string)
    requires key in order && key in users
    requires Ledger.FindIndex(users[key].transactions, Ledger.TxIdIs(id)).Some?
    requires forall k :: k in order && k in users && k != key ==> Ledger.FindIndex(users[k].transactions, Ledger.TxIdIs(id)).None?
    ensures Scan(users, order, id) == Some(users[key].transactions[Ledger.FindIndex(users[key].transactions, Ledger.TxIdIs(id)).value])
  {
    if order[0] != key {
      assert order[0] in order;
      assert key in order[1..];
      forall k | k in order[1..] && k in users && k != key
        ensures Ledger.FindIndex(users[k].transactions, Ledger.TxIdIs(id)).None?
      {
        assert k in order;
      }
      ScanOnlyMatch(users, order[1..], id, key);
    }
  }

  /**
   * The scan returns the first user in key order whose list holds the id, and
   * that user's first transaction with it: users before it in the order are
   * passed over only when they hold no such transaction.
   */
  lemma {:induction false} ScanFirst(users: map<string, Ledger.UserData>, order: seq<string>, id: string, i: nat)
    requires i < |order| && order[i] in users
    requires Ledger.FindIndex(users[order[i]].transactions, Ledger.TxIdIs(id)).Some?
    requires forall j :: 0 <= j < i && order[j] in users ==> Ledger.FindIndex(users[order[j]].transactions, Ledger.TxIdIs(id)).None?
    ensures Scan(users, order, id) == Some(users[order[i]].transactions[Ledger.FindIndex(users[order[i]].transactions, Ledger.TxIdIs(id)).value])
    decreases i
  {
    if i > 0 {
      ScanFirst(users, order[1..], id, i - 1);
    }
  }

  /**
   * A request initiated with an id no stored transaction has is found by the
   * local lookup, as the pending bridge transaction that was recorded.
   */
  lemma InitiatedRequestIsFound(s: Ledger.State, user: string, requestId: string, amount: string,
                                targetChain: string, targetToken: string, activityId: string, now: string)
    requires Ledger.Valid(s)
    requires Scan(s.users, s.order, requestId).None?
    ensures var after := InitiateEffect(s, user, requestId, amount, targetChain, targetToken, activityId, now);
      Scan(after.users, after.order, requestId) == Some(BridgeTx(requestId, amount, now))
  {
    var after := InitiateEffect(s, user, requestId, amount, targetChain, targetToken, activityId, now);
    var key := Ledger.Lower(user);
    var before := Ledger.GetTransactions(s, user);
    var txs := before + [BridgeTx(requestId, amount, now)];
    assert after.users[key].transactions == txs;
    var found := Ledger.FindIndex(txs, Ledger.TxIdIs(requestId));
    assert Ledger.TxIdIs(requestId)(txs[|before|]);
    forall k | k in after.order && k in after.users && k != key
      ensures Ledger.FindIndex(after.users[k].transactions, Ledger.TxIdIs(requestId)).None?
    {
    }
    ScanOnlyMatch(after.users, after.order, requestId, key);
  }

  /** GET /request/:requestId: the registry first, then the local scan, else 404. */
  method LookupRequest(store: Store.Storage, requestId: string, registry: Outcome<BridgeRequest>)
      returns (r: Response<Found>, calls: seq<Call>)
    requires store.Valid()
    ensures calls == [GetBridgeRequest(requestId)]
    ensures registry.Success? ==> r == Ok(OnChain(registry.value))
    ensures registry.Failure? && Scan(store.users, store.order, requestId).Some? ==>
      r == Ok(Local(Scan(store.users, store.order, requestId).value))
    ensures registry.Failure? && Scan(store.users, store.order, requestId).None? ==>
      r == NotFound(RequestNotFound)
    ensures r.NotFound? ==>
      registry.Failure? && forall k :: k in store.users ==> forall t :: t in store.users[k].transactions ==> t.id != requestId
  {
    calls := [GetBridgeRequest(requestId)];
    if registry.Success? {
      return Ok(OnChain(registry.value)), calls;
    }
    var allUsers := store.users;
    var order := store.order;
    var i := 0;
    while i < |order|
      invariant 0 <= i <= |order|
      invariant Scan(allUsers, order[i..], requestId) == Scan(allUsers, order, requestId)
    {
      var key := order[i];
      assert order[i..][1..] == order[i + 1..];
      if key in allUsers {
        var found := Ledger.FindIndex(allUsers[key].transactions, Ledger.TxIdIs(requestId));
        if found.Some? {
          return Ok(Local(allUsers[key].transactions[found.value])), calls;
        }
      }
      i := i + 1;
    }
    r := NotFound(RequestNotFound);
  }

  /** GET /supported: five chains and five tokens, each listed once. */
  function Supported(): (r: (seq<Chain>, seq<Token>))
    ensures |r.0| == 5 && |r.1| == 5
    ensures forall i, j :: 0 <= i < j < |r.0| ==> r.0[i].chainId != r.0[j].chainId
    ensures forall i, j :: 0 <= i < j < |r.1| ==> r.1[i].symbol != r.1[j].symbol
    ensures forall t :: t in r.1 ==> t.decimals == 18 || t.decimals == 6
  {
    ([ Chain("Ethereum", 1, "eth"),
       Chain("Polygon", 137, "matic"),
       Chain("BSC", 56, "bnb"),
       Chain("Arbitrum", 42161, "arb"),
       Chain("Optimism", 10, "op") ],
     [ Token("ETH", "Ethereum", 18),
       Token("MATIC", "Polygon", 18),
       Token("BNB", "BNB", 18),
       Token("USDC", "USD Coin", 6),
       Token("USDT", "Tether", 6) ])
  }
}
