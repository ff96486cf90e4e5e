/**
 * The quest routes of backend/src/routes/quests.ts: listing quests (with the
 * caller's completion flags when an address is given), one quest's details,
 * completing a quest, and a user's progress.
 *
 * Completion checks the chain flag first, writes the chain, and then records
 * the local flag before it reads the quest for the activity text; a failure
 * after the chain write therefore leaves the local flag set.
 */
module QuestRoutes {
  import opened Wrappers
  import opened Api
  import Ledger
  import Store

  const AddressRequired := "User address is required"
  const AlreadyCompleted := "Quest already completed"
  const ListFailed := "Failed to fetch quests"
  const DetailFailed := "Failed to fetch quest"
  const CompleteFailed := "Failed to complete quest"
  const ProgressFailed := "Failed to fetch progress"

  /** A quest as returned to the client, with `completed` when an address was given. */
  datatype QuestView = QuestView(quest: Quest, completed: Option<bool>)

  datatype CompletionBody = CompletionBody(success: bool, txHash: string, quest: Quest, userProgress: UserProgress)

  datatype ProgressBody = ProgressBody(progress: UserProgress, questsCompleted: map<int, bool>)

  /** The views without completion flags, in the chain's order. */
  function Plain(quests: seq<Quest>): (r: seq<QuestView>)
    ensures |r| == |quests|
    ensures forall i :: 0 <= i < |quests| ==> r[i] == QuestView(quests[i], None)
  {
    seq(|quests|, i requires 0 <= i < |quests| => QuestView(quests[i], None))
  }

  /**
   * `Promise.all` over the per-quest flag lookups: the views in order when
   * every lookup succeeds, nothing when any of them fails.
   */
  function WithCompletion(quests: seq<Quest>, completed: int -> Outcome<bool>): (r: Option<seq<QuestView>>)
    ensures r.Some? <==> forall i :: 0 <= i < |quests| ==> completed(quests[i].id).Success?
    ensures r.Some? ==>
      && |r.value| == |quests|
      && forall i :: 0 <= i < |quests| ==> r.value[i] == QuestView(quests[i], Some(completed(quests[i].id).value))
  {
    if quests == [] then Some([])
    else
      match completed(quests[0].id)
      case Failure => None
      case Success(flag) =>
        match WithCompletion(quests[1..], completed)
        case None => None
        case Some(rest) => Some([QuestView(quests[0], Some(flag))] + rest)
  }

  /** The flag lookups `Promise.all` starts, one per quest, in order. */
  function CompletionCalls(user: string, quests: seq<Quest>): (r: seq<Call>)
    ensures |r| == |quests|
    ensures forall i :: 0 <= i < |quests| ==> r[i] == HasCompletedQuest(user, quests[i].id)
  {
    seq(|quests|, i requires 0 <= i < |quests| => HasCompletedQuest(user, quests[i].id))
  }

  /** GET /: all quests, each with the caller's flag when an address is given. */
  function ListQuests(address: Option<string>, quests: Outcome<seq<Quest>>, completed: int -> Outcome<bool>): (h: Handled<seq<QuestView>>)
    ensures quests.Failure? ==> h == Handled(ServerError(ListFailed), [GetAllQuests])
    ensures quests.Success? && !Given(address) ==> h == Handled(Ok(Plain(quests.value)), [GetAllQuests])
    ensures quests.Success? && Given(address) ==>
      && h.calls == [GetAllQuests] + CompletionCalls(address.value, quests.value)
      && (h.response.Ok? <==> forall i :: 0 <= i < |quests.value| ==> completed(quests.value[i].id).Success?)
      && (!h.response.Ok? ==> h.response == ServerError(ListFailed))
      && (h.response.Ok? ==>
            && |h.response.body| == |quests.value|
            && forall i :: 0 <= i < |quests.value| ==>
                 h.response.body[i] == QuestView(quests.value[i], Some(completed(quests.value[i].id).value)))
  {
    match quests
    case Failure => Handled(ServerError(ListFailed), [GetAllQuests])
    case Success(all) =>
      if !Given(address) then Handled(Ok(Plain(all)), [GetAllQuests])
      else
        var calls := [GetAllQuests] + CompletionCalls(address.value, all);
        match WithCompletion(all, completed)
        case None => Handled(ServerError(ListFailed), calls)
        case Some(views) => Handled(Ok(views), calls)
  }

  /** GET /:id: one quest, with the caller's flag when an address is given. */
  function QuestDetail(questId: int, address: Option<string>, quest: Outcome<Quest>, completed: Outcome<bool>): (h: Handled<QuestView>)
    ensures quest.Failure? ==> h == Handled(ServerError(DetailFailed), [GetQuest(questId)])
    ensures quest.Success? && !Given(address) ==>
      h == Handled(Ok(QuestView(quest.value, None)), [GetQuest(questId)])
    ensures quest.Success? && Given(address) ==>
      && h.calls == [GetQuest(questId), HasCompletedQuest(address.value, questId)]
      && (completed.Failure? ==> h.response == ServerError(DetailFailed))
      && (completed.Success? ==> h.response == Ok(QuestView(quest.value, Some(completed.value))))
  {
    match quest
    case Failure => Handled(ServerError(DetailFailed), [GetQuest(questId)])
    case Success(q) =>
      if !Given(address) then Handled(Ok(QuestView(q, None)), [GetQuest(questId)])
      else
        var calls := [GetQuest(questId), HasCompletedQuest(address.value, questId)];
        match completed
        case Failure => Handled(ServerError(DetailFailed), calls)
        case Success(flag) => Handled(Ok(QuestView(q, Some(flag))), calls)
  }

  function QuestActivity(activityId: string, user: string, questId: int, quest: Quest, now: string): Ledger.Activity
  {
    Ledger.Activity(activityId, user, Ledger.QuestCompleted, "Completed quest: " + quest.name, now,
                    Ledger.QuestMetadata(questId, quest.xpReward))
  }

  /** The local flag write followed by the activity, as after a complete run. */
  function CompleteEffect(s: Ledger.State, user: string, questId: int, quest: Quest, activityId: string, now: string): Ledger.State
  {
    Ledger.AddActivity(Ledger.MarkQuestCompleted(s, user, questId, now), QuestActivity(activityId, user, questId, quest, now))
  }

  /**
   * Once the chain write succeeded the local flag is set, whether or not the
   * later reads succeed, and no other quest's flag changes.
   */
  lemma {:induction false} CompletionFlagKept(s: Ledger.State, user: string, questId: int, quest: Quest, activityId: string, now: string)
    ensures Ledger.HasCompletedQuest(Ledger.MarkQuestCompleted(s, user, questId, now), user, questId)
    ensures Ledger.HasCompletedQuest(CompleteEffect(s, user, questId, quest, activityId, now), user, questId)
    ensures forall other :: other != questId ==>
      (Ledger.HasCompletedQuest(CompleteEffect(s, user, questId, quest, activityId, now), user, other)
       <==> Ledger.HasCompletedQuest(s, user, other))
  {
    var marked := Ledger.MarkQuestCompleted(s, user, questId, now);
    var after := CompleteEffect(s, user, questId, quest, activityId, now);
    assert after.users == marked.users;
    var key := Ledger.Lower(user);
    forall other | other != questId
      ensures Ledger.HasCompletedQuest(after, user, other) <==> Ledger.HasCompletedQuest(s, user, other)
    {
      if key !in s.users {
        assert Ledger.Current(s, key, now).questProgress == map[];
      }
    }
  }

  /** POST /:id/complete. */
  method Complete(store: Store.Storage, questId: int, userAddress: Option<string>,
                  onChain: Outcome<bool>, verified: Outcome<string>, quest: Outcome<Quest>,
                  progress: Outcome<UserProgress>, activityId: string, now: string)
      returns (r: Response<CompletionBody>, calls: seq<Call>)
    requires store.Valid()
    modifies store
    ensures store.Valid()
    ensures !Given(userAddress) ==> r == BadRequest(AddressRequired) && calls == [] && unchanged(store)
    ensures Given(userAddress) ==> |calls| >= 1 && calls[0] == HasCompletedQuest(userAddress.value, questId)
    ensures Given(userAddress) && onChain.Failure? ==>
      r == ServerError(CompleteFailed) && |calls| == 1 && unchanged(store)
    ensures Given(userAddress) && onChain == Success(true) ==>
      r == BadRequest(AlreadyCompleted) && |calls| == 1 && unchanged(store)
    ensures Given(userAddress) && onChain == Success(false) && verified.Failure? ==>
      && r == ServerError(CompleteFailed) && unchanged(store)
      && calls == [HasCompletedQuest(userAddress.value, questId), VerifyAndCompleteQuest(userAddress.value, questId)]
    ensures Given(userAddress) && onChain == Success(false) && verified.Success? && quest.Failure? ==>
      && r == ServerError(CompleteFailed)
      && store.State() == Ledger.MarkQuestCompleted(old(store.State()), userAddress.value, questId, now)
      && calls == [HasCompletedQuest(userAddress.value, questId), VerifyAndCompleteQuest(userAddress.value, questId),
                   GetQuest(questId)]
    ensures Given(userAddress) && onChain == Success(false) && verified.Success? && quest.Success? ==>
      && store.State() == CompleteEffect(old(store.State()), userAddress.value, questId, quest.value, activityId, now)
      && calls == [HasCompletedQuest(userAddress.value, questId), VerifyAndCompleteQuest(userAddress.value, questId),
                   GetQuest(questId), GetUserProgress(userAddress.value)]
      && (progress.Failure? ==> r == ServerError(CompleteFailed))
      && (progress.Success? ==> r == Ok(CompletionBody(true, verified.value, quest.value, progress.value)))
  {
    calls := [];
    if !Given(userAddress) {
      return BadRequest(AddressRequired), calls;
    }
    var user := userAddress.value;
    calls := calls + [HasCompletedQuest(user, questId)];
    if onChain.Failure? {
      return ServerError(CompleteFailed), calls;
    }
    if onChain.value {
      return BadRequest(AlreadyCompleted), calls;
    }
    calls := calls + [VerifyAndCompleteQuest(user, questId)];
    if verified.Failure? {
      return ServerError(CompleteFailed), calls;
    }
    var txHash := verified.value;
    store.MarkQuestCompleted(user, questId, now);
    calls := calls + [GetQuest(questId)];
    if quest.Failure? {
      return ServerError(CompleteFailed), calls;
    }
    var details := quest.value;
    store.AddActivity(QuestActivity(activityId, user, questId, details, now));
    calls := calls + [GetUserProgress(user)];
    if progress.Failure? {
      return ServerError(CompleteFailed), calls;
    }
    r := Ok(CompletionBody(true, txHash, details, progress.value));
  }

  /** GET /progress/:address: the chain's progress with the local flags, empty for an unknown user. */
  function Progress(store: Store.Storage, address: string, progress: Outcome<UserProgress>): (h: Handled<ProgressBody>)
    reads store
    ensures h.calls == [GetUserProgress(address)]
    ensures progress.Failure? ==> h.response == ServerError(ProgressFailed)
    ensures progress.Success? ==>
      && h.response.Ok?
      && h.response.body.progress == progress.value
      && (Ledger.Lower(address) in store.users ==>
            h.response.body.questsCompleted == store.users[Ledger.Lower(address)].questProgress)
      && (Ledger.Lower(address) !in store.users ==> h.response.body.questsCompleted == map[])
  {
    match progress
    case Failure => Handled(ServerError(ProgressFailed), [GetUserProgress(address)])
    case Success(p) =>
      var flags := match Ledger.GetUser(store.State(), address)
                   case Some(u) => u.questProgress
                   case None => map[];
      Handled(Ok(ProgressBody(p, flags)), [GetUserProgress(address)])
  }
}
