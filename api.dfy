/**
 * What the route handlers exchange with their two collaborators: the chain
 * gateway (backend/src/utils/contracts.ts, not part of this model) and the
 * HTTP client.
 *
 * Every gateway call is an oracle: the handler receives its `Outcome` as a
 * parameter, `Success(value)` for the decoded result or `Failure` for a call
 * that threw (a reverted or failed transaction, a network error, a missing
 * event). Each handler also reports, in order, the gateway calls it made, so
 * that "no chain call" and "no chain write" can be stated.
 */
module Api {
  import opened Wrappers

  datatype Outcome<+T> = Success(value: T) | Failure

  /** The HTTP reply: 200 with a body, or 400, 500 or 404 with an error text. */
  datatype Response<+T> =
    | Ok(body: T)
    | BadRequest(error: string)
    | ServerError(error: string)
    | NotFound(error: string)

  /** The gateway calls the route handlers make. */
  datatype Call =
    | GetUserEligibility(user: string)
    | AllocateGasToUser(user: string)
    | GetPoolBalance
    | GetAllQuests
    | GetQuest(questId: int)
    | HasCompletedQuest(user: string, questId: int)
    | VerifyAndCompleteQuest(user: string, questId: int)
    | GetUserProgress(user: string)
    | CalculateBridgeOutput(inputAmount: string, targetToken: string)
    | CompleteBridgeRequest(requestId: string)
    | GetBridgeRequest(requestId: string)

  /** A read-only handler's reply together with the gateway calls it made. */
  datatype Handled<+T> = Handled(response: Response<T>, calls: seq<Call>)

  /** A request field passes `if (!field)`: it is present and not the empty string. */
  predicate Given(field: Option<string>)
  {
    field.Some? && field.value != ""
  }

  /**
   * An 18-decimal on-chain amount: the integer in wei and the decimal text the
   * formatting library renders for it.
   */
  datatype Ether = Ether(wei: nat, text: string)

  datatype Quest = Quest(
    id: int,
    name: string,
    description: string,
    xpReward: string,
    gasReward: string,
    isActive: bool,
    completionCount: string)

  datatype UserProgress = UserProgress(totalXP: string, completedQuests: string, level: string, xpToNextLevel: string)

  datatype BridgeQuote = BridgeQuote(outputAmount: string, fee: string)

  /** A bridge request as the bridge registry returns it. */
  datatype BridgeRequest = BridgeRequest(
    user: string,
    amount: string,
    targetChain: string,
    targetToken: string,
    timestamp: string,
    isCompleted: bool)
}
