/** The quota and subscription bookkeeping of main.py: the threshold check
    that runs before every debit, the debit itself, the text pipeline that
    charges a message before and after the model call, the purchase round
    trip, the channel-subscription cache, the command table and the referral
    bonus. The model, the Telegram API and the clock are parameters. */
module Ledger {
  import opened Common
  import opened Database

  const FreePlan: string := "free"
  const MinTokensThreshold: int := 5000
  const FreeDailyTokens: int := 30000
  const WarningThreshold: int := 15000
  const CutoffThreshold: int := 3000
  const WarningInterval: int := 86400

  // ---------------------------------------------------------------------------
  // check_and_update_tokens

  /** The low-balance warning is due: fewer than 15000 tokens on a paid plan,
      and no warning in the last 24 hours. */
  predicate WarningDue(row: UserRow, now: Instant) {
    row.dailyTokens < WarningThreshold && row.subscriptionPlan != FreePlan
    && (row.lastWarningTime.None? || now - row.lastWarningTime.value > WarningInterval)
  }

  /** A new calendar day has begun since the last refill. */
  predicate NewDay(row: UserRow, now: Instant)
    requires row.lastTokenUpdate.Some?
  {
    DayOf(now) > row.lastTokenUpdate.value
  }

  /** Two rows agree on every column the check does not write. */
  predicate SameExceptQuota(a: UserRow, b: UserRow) {
    a.(dailyTokens := b.dailyTokens, subscriptionPlan := b.subscriptionPlan,
       lastTokenUpdate := b.lastTokenUpdate, lastWarningTime := b.lastWarningTime) == b
  }

  /** The row as check_and_update_tokens leaves it, field by field; None
      where the check raises (comparing today's date with a NULL
      last_token_update), in which case its uncommitted UPDATEs are dropped.
      `delivered` says whether Telegram accepted the warning message. */
  function TokenCheck(row: UserRow, now: Instant, delivered: bool): (r: Option<UserRow>)
    ensures r.None? <==> row.dailyTokens <= MinTokensThreshold && row.lastTokenUpdate.None?
    ensures r.Some? ==> SameExceptQuota(row, r.value)
    ensures r.Some? && row.dailyTokens > MinTokensThreshold ==>
      r.value.dailyTokens == row.dailyTokens && r.value.subscriptionPlan == row.subscriptionPlan
      && r.value.lastTokenUpdate == row.lastTokenUpdate
    ensures r.Some? && row.dailyTokens <= MinTokensThreshold ==> r.value.subscriptionPlan == FreePlan
    ensures r.Some? && row.dailyTokens <= MinTokensThreshold ==>
      r.value.lastTokenUpdate == if NewDay(row, now) then Some(DayOf(now)) else row.lastTokenUpdate
    ensures r.Some? && row.subscriptionPlan != FreePlan && row.dailyTokens < CutoffThreshold ==>
      r.value.dailyTokens == 0
    ensures (r.Some? && row.dailyTokens <= MinTokensThreshold
             && !(row.subscriptionPlan != FreePlan && row.dailyTokens < CutoffThreshold)) ==>
      r.value.dailyTokens == if NewDay(row, now) then FreeDailyTokens else row.dailyTokens
    ensures r.Some? ==> (r.value.lastWarningTime != row.lastWarningTime <==> WarningDue(row, now) && delivered)
    ensures r.Some? && r.value.lastWarningTime != row.lastWarningTime ==> r.value.lastWarningTime == Some(now)
  {
    var tokens := row.dailyTokens;
    var paid := row.subscriptionPlan != FreePlan;
    if tokens <= MinTokensThreshold && row.lastTokenUpdate.None? then None
    else
      var refill := tokens <= MinTokensThreshold && NewDay(row, now);
      Some(row.(
        subscriptionPlan := if tokens <= MinTokensThreshold then FreePlan else row.subscriptionPlan,
        dailyTokens := if paid && tokens < CutoffThreshold then 0
                       else if refill then FreeDailyTokens
                       else tokens,
        lastTokenUpdate := if refill then Some(DayOf(now)) else row.lastTokenUpdate,
        lastWarningTime := if WarningDue(row, now) && delivered then Some(now) else row.lastWarningTime))
  }

  datatype CheckOutcome = NoRow | CheckRaised | Checked

  /** check_and_update_tokens: the SELECT, then the UPDATEs in source order on
      the open transaction, committed at the end. */
  method CheckAndUpdateTokens(db: Db, userId: int, now: Instant, delivered: bool) returns (r: CheckOutcome)
    modifies db
    ensures db.reachable == old(db.reachable) && db.chatHistory == old(db.chatHistory)
    ensures db.assistantRows == old(db.assistantRows)
    ensures !old(db.reachable) ==> r == CheckRaised && db.users == old(db.users)
    ensures old(db.reachable) && userId !in old(db.users) ==> r == NoRow && db.users == old(db.users)
    ensures old(db.reachable) && userId in old(db.users) ==>
      match TokenCheck(old(db.users)[userId], now, delivered)
      case None => r == CheckRaised && db.users == old(db.users)
      case Some(row) => r == Checked && db.users == old(db.users)[userId := row]
  {
    if !db.reachable {
      return CheckRaised;
    }
    if userId !in db.users {
      return NoRow;
    }
    var row := db.users[userId];
    var tokens, currentPlan, lastUpdate, lastWarning :=
      row.dailyTokens, row.subscriptionPlan, row.lastTokenUpdate, row.lastWarningTime;
    var currentDate := DayOf(now);
    var pending := row;
    if tokens <= MinTokensThreshold {
      if currentPlan != FreePlan {
        pending := pending.(subscriptionPlan := FreePlan);
      }
      if lastUpdate.None? {
        return CheckRaised;
      }
      if currentDate > lastUpdate.value {
        pending := pending.(dailyTokens := FreeDailyTokens, lastTokenUpdate := Some(currentDate));
      }
    }
    if tokens < WarningThreshold && currentPlan != FreePlan {
      if lastWarning.None? || now - lastWarning.value > WarningInterval {
        if delivered {
          pending := pending.(lastWarningTime := Some(now));
        }
      }
    }
    if tokens < CutoffThreshold {
      if currentPlan != FreePlan {
        pending := pending.(subscriptionPlan := FreePlan, dailyTokens := 0);
      }
    }
    db.users := db.users[userId := pending];
    r := Checked;
  }

  /** Once checked, an account that is free or at most 5000 tokens stays as it
      is on a second check later the same day. */
  lemma SecondCheckSameDay(row: UserRow, now: Instant, later: Instant, delivered: bool, delivered': bool)
    requires row.subscriptionPlan == FreePlan || row.dailyTokens <= MinTokensThreshold
    requires TokenCheck(row, now, delivered).Some?
    requires DayOf(later) == DayOf(now)
    ensures TokenCheck(TokenCheck(row, now, delivered).value, later, delivered') == TokenCheck(row, now, delivered)
  {
  }

  /** A paid account below 3000 tokens ends at 0 tokens even on a new day: the
      final UPDATE overrides the refill, which has already stamped today, so
      the account stays at 0 for the rest of the day. */
  lemma CutoffOverridesRefill(row: UserRow, now: Instant, later: Instant, delivered: bool, delivered': bool)
    requires row.subscriptionPlan != FreePlan && row.dailyTokens < CutoffThreshold
    requires row.lastTokenUpdate.Some? && NewDay(row, now)
    requires DayOf(later) == DayOf(now)
    ensures var r := TokenCheck(row, now, delivered);
      r.Some? && r.value.subscriptionPlan == FreePlan && r.value.dailyTokens == 0
      && r.value.lastTokenUpdate == Some(DayOf(now))
      && TokenCheck(r.value, later, delivered') == r
  {
  }

  // ---------------------------------------------------------------------------
  // update_user_tokens

  datatype Debit = Debited | Refused | DebitRaised

  /** The outcome of update_user_tokens and the users table after it. */
  function DebitEffect(reachable: bool, users: map<int, UserRow>, userId: int, input: nat, output: nat,
                       now: Instant, delivered: bool): (r: (Debit, map<int, UserRow>))
    ensures forall u :: u != userId ==> (u in r.1 <==> u in users) && (u in users ==> r.1[u] == users[u])
    ensures r.0 == DebitRaised <==>
      !reachable || userId !in users || TokenCheck(users[userId], now, delivered).None?
    ensures r.0 != DebitRaised ==>
      reachable && userId in users && userId in r.1 && TokenCheck(users[userId], now, delivered).Some?
    ensures r.0 == Refused <==>
      reachable && userId in users && TokenCheck(users[userId], now, delivered).Some?
      && TokenCheck(users[userId], now, delivered).value.dailyTokens < input + output
    ensures r.0 == Refused ==>
      var checked := TokenCheck(users[userId], now, delivered).value;
      checked.dailyTokens < input + output && r.1 == users[userId := checked]
    ensures r.0 == Debited ==>
      var checked := TokenCheck(users[userId], now, delivered).value;
      checked.dailyTokens >= input + output
      && r.1[userId].dailyTokens == checked.dailyTokens - (input + output) >= 0
      && r.1[userId].inputTokens == users[userId].inputTokens + input
      && r.1[userId].outputTokens == users[userId].outputTokens + output
      && r.1[userId].(dailyTokens := checked.dailyTokens, inputTokens := checked.inputTokens,
                      outputTokens := checked.outputTokens) == checked
    ensures r.0 == DebitRaised ==>
      r.1 == users || (reachable && userId !in users && r.1 == users[userId := DefaultRow(DayOf(now))])
  {
    if !reachable then (DebitRaised, users)
    else if userId !in users then (DebitRaised, users[userId := DefaultRow(DayOf(now))])
    else
      match TokenCheck(users[userId], now, delivered)
      case None => (DebitRaised, users)
      case Some(checked) =>
        var left := checked.dailyTokens - (input + output);
        if left < 0 then (Refused, users[userId := checked])
        else (Debited, users[userId := checked.(dailyTokens := left,
                                                inputTokens := checked.inputTokens + input,
                                                outputTokens := checked.outputTokens + output)])
  }

  /** update_user_tokens: the check, a fresh load, and a save of the debited
      record; a debit below zero is refused after the check's own changes. */
  method UpdateUserTokens(db: Db, userId: int, input: nat, output: nat, now: Instant, delivered: bool)
    returns (d: Debit)
    modifies db
    ensures db.reachable == old(db.reachable) && db.chatHistory == old(db.chatHistory)
    ensures db.assistantRows == old(db.assistantRows)
    ensures (d, db.users) == DebitEffect(old(db.reachable), old(db.users), userId, input, output, now, delivered)
  {
    var checked := CheckAndUpdateTokens(db, userId, now, delivered);
    if checked == CheckRaised {
      assert DebitEffect(old(db.reachable), old(db.users), userId, input, output, now, delivered) == (DebitRaised, db.users);
      return DebitRaised;
    }
    var userData := db.LoadUserData(userId, now);
    if userData.None? {
      // user_data['daily_tokens'] on None raises a TypeError
      assert DebitEffect(old(db.reachable), old(db.users), userId, input, output, now, delivered) == (DebitRaised, db.users);
      return DebitRaised;
    }
    var rec := userData.value;
    var totalTokensUsed := input + output;
    var newTokens := rec.dailyTokens - totalTokensUsed;
    if newTokens < 0 {
      assert DebitEffect(old(db.reachable), old(db.users), userId, input, output, now, delivered) == (Refused, db.users);
      return Refused;
    }
    ghost var row := db.users[userId];
    ghost var debited := row.(dailyTokens := newTokens, inputTokens := rec.inputTokens + input,
                              outputTokens := rec.outputTokens + output);
    assert RecordOf(userId, debited) == rec.(dailyTokens := newTokens, inputTokens := rec.inputTokens + input,
                                             outputTokens := rec.outputTokens + output);
    assert WriteRecord(row, RecordOf(userId, debited)) == debited;
    UpsertLoaded(db.users, userId, debited);
    var saved := db.SaveUserData(rec.(dailyTokens := newTokens,
                                      inputTokens := rec.inputTokens + input,
                                      outputTokens := rec.outputTokens + output));
    assert TokenCheck(old(db.users)[userId], now, delivered) == Some(row);
    assert db.users == old(db.users)[userId := debited];
    d := Debited;
  }

  /** An account whose last_token_update is NULL (as create_default_user
      leaves it) and whose balance is at most 5000 can never be debited
      again: every check raises, the table stays as it is, so at any later
      time the next debit raises too. */
  lemma NullStampLocksAccount(users: map<int, UserRow>, userId: int, input: nat, output: nat,
                              now: Instant, delivered: bool)
    requires userId in users && users[userId].lastTokenUpdate.None?
    requires users[userId].dailyTokens <= MinTokensThreshold
    ensures DebitEffect(true, users, userId, input, output, now, delivered) == (DebitRaised, users)
  {
    assert TokenCheck(users[userId], now, delivered).None?;
  }

  /** Successive accepted debits of a free account drain it by exactly their
      sum when no check intervenes (the balance stays above 5000 and 15000
      does not matter on the free plan). */
  lemma {:induction false} DebitsAccumulate(users: map<int, UserRow>, userId: int, amounts: seq<nat>,
                                            now: Instant, delivered: bool)
    requires userId in users && users[userId].subscriptionPlan == FreePlan
    requires users[userId].dailyTokens - Sum(amounts) > MinTokensThreshold
    ensures var r := Debits(users, userId, amounts, now, delivered);
      r.0 && userId in r.1 && r.1[userId].dailyTokens == users[userId].dailyTokens - Sum(amounts)
      && r.1[userId].inputTokens == users[userId].inputTokens + Sum(amounts)
    decreases |amounts|
  {
    if amounts != [] {
      SumNonNegative(amounts[1..]);
      var step := DebitEffect(true, users, userId, amounts[0], 0, now, delivered);
      assert step.0 == Debited;
      DebitsAccumulate(step.1, userId, amounts[1..], now, delivered);
    }
  }

  function Sum(amounts: seq<nat>): int {
    if amounts == [] then 0 else amounts[0] + Sum(amounts[1..])
  }

  lemma {:induction false} SumNonNegative(amounts: seq<nat>)
    ensures Sum(amounts) >= 0
  {
    if amounts != [] {
      SumNonNegative(amounts[1..]);
    }
  }

  /** A run of input-only debits on a reachable store: whether all were
      accepted, and the table afterwards. */
  function Debits(users: map<int, UserRow>, userId: int, amounts: seq<nat>, now: Instant, delivered: bool)
    : (bool, map<int, UserRow>)
  {
    if amounts == [] then (true, users)
    else
      var step := DebitEffect(true, users, userId, amounts[0], 0, now, delivered);
      if step.0 != Debited then (false, step.1)
      else Debits(step.1, userId, amounts[1..], now, delivered)
  }

  // ---------------------------------------------------------------------------
  // process_text_message

  const QuotaExhaustedReply: string := "У вас закончился дневной лимит токенов. Попробуйте завтра или приобретите подписку."
  const AnswerTooLongReply: string := "Ответ слишком длинный для вашего оставшегося лимита токенов."
  const CostPerToken: real := 0.000001

  /** What the handler gets back: a text, the "Произошла ошибка: …" text of
      the caught exception, or an exception that leaves the function. */
  datatype Reply = Text(text: string) | ErrorReply | Raised

  /** The chat-completion call: the answer's content, or an exception. */
  datatype Completion = Completed(content: string) | CompletionFailed

  /** The user turn sent to the model: prompt, message and the cue for the answer. */
  function InputText(prompt: string, text: string): string {
    prompt + "\n\nUser: " + text + "\nAssistant:"
  }

  /** The total_spent increment of a successful answer. */
  function AddSpent(users: map<int, UserRow>, userId: int, units: nat): (r: map<int, UserRow>)
    requires userId in users
    ensures r.Keys == users.Keys && r[userId].totalSpent >= users[userId].totalSpent
    ensures r[userId].(totalSpent := users[userId].totalSpent) == users[userId]
    ensures forall u :: u in users && u != userId ==> r[u] == users[u]
  {
    users[userId := users[userId].(totalSpent := users[userId].totalSpent + units as real * CostPerToken)]
  }

  /** What a text turn leaves behind: the reply, the message list given to
      the model (if it was called), the users table and the chat log. */
  datatype TextOutcome = TextOutcome(reply: Reply, sent: Option<seq<ChatMessage>>,
                                     users: map<int, UserRow>, history: seq<ChatRow>)

  /** The message list process_text_message sends: the recent history of the
      chat, then the user turn built from the assistant's prompt. */
  function Request(history: seq<ChatRow>, rows: seq<AssistantRow>, text: string, chatId: int,
                   assistantKey: Option<string>): (r: seq<ChatMessage>)
    ensures r != [] && r[|r| - 1] == ChatMessage("user", InputText(PromptFor(ConfigOf(rows), assistantKey), text))
    ensures r[..|r| - 1] == Recent(history, chatId, DefaultHistoryLimit)
  {
    Recent(history, chatId, DefaultHistoryLimit) + [ChatMessage("user", InputText(PromptFor(ConfigOf(rows), assistantKey), text))]
  }

  /** process_text_message: charge the text's length, ask the model, charge
      the answer's length, add the spend of both, store the two turns. The
      model is asked only once the text is paid for; the log grows only for an
      answer that is paid for too, and then both counters have risen by the
      two lengths; no other account changes. */
  function TextMessage(reachable: bool, users: map<int, UserRow>, history: seq<ChatRow>, rows: seq<AssistantRow>,
                       text: string, chatId: int, now: Instant, delivered: bool,
                       assistantKey: Option<string>, model: seq<ChatMessage> -> Completion): (t: TextOutcome)
    ensures t.sent.None? ==> t.history == history && (t.reply == Text(QuotaExhaustedReply) || t.reply == Raised)
    ensures var first := DebitEffect(reachable, users, chatId, |text|, 0, now, delivered);
      (t.sent.Some? <==> first.0 == Debited)
      && (first.0 == Refused ==> t == TextOutcome(Text(QuotaExhaustedReply), None, first.1, history))
      && (first.0 == DebitRaised ==> t == TextOutcome(Raised, None, first.1, history))
    ensures t.sent.Some? ==> t.sent.value == Request(history, rows, text, chatId, assistantKey)
    ensures t.sent.Some? ==>
      chatId in users && chatId in t.users
      && t.users[chatId].inputTokens == users[chatId].inputTokens + |text|
    ensures t.sent.Some? && model(t.sent.value).CompletionFailed? ==>
      t.reply == ErrorReply && t.history == history
      && t.users == DebitEffect(reachable, users, chatId, |text|, 0, now, delivered).1
    ensures t.sent.Some? && model(t.sent.value).Completed? ==>
      t == AnswerTurn(DebitEffect(reachable, users, chatId, |text|, 0, now, delivered).1, history, chatId,
                      t.sent.value, |text|, model(t.sent.value).content, now, delivered)
    ensures t.history == history
      || (t.reply.Text? && t.sent.Some?
          && t.history == history + [ChatRow(chatId, "user", t.sent.value[|t.sent.value| - 1].content),
                                     ChatRow(chatId, "assistant", t.reply.text)]
          && model(t.sent.value) == Completed(t.reply.text))
    ensures t.history != history ==>
      chatId in users && chatId in t.users
      && t.users[chatId].inputTokens == users[chatId].inputTokens + |text|
      && t.users[chatId].outputTokens == users[chatId].outputTokens + |t.reply.text|
    ensures forall u :: u != chatId ==> (u in t.users <==> u in users) && (u in users ==> t.users[u] == users[u])
  {
    var first := DebitEffect(reachable, users, chatId, |text|, 0, now, delivered);
    if first.0 != Debited then
      TextOutcome(if first.0 == Refused then Text(QuotaExhaustedReply) else Raised, None, first.1, history)
    else
      var messages := Request(history, rows, text, chatId, assistantKey);
      match model(messages)
      case CompletionFailed => TextOutcome(ErrorReply, Some(messages), first.1, history)
      case Completed(answer) => AnswerTurn(first.1, history, chatId, messages, |text|, answer, now, delivered)
  }

  /** The tail of a text turn once the model has answered: the answer's
      length is charged; a paid answer adds the spend of both texts and logs
      the user turn and the answer; only the sender's row changes. */
  function AnswerTurn(users: map<int, UserRow>, history: seq<ChatRow>, chatId: int, messages: seq<ChatMessage>,
                      inputTokens: nat, answer: string, now: Instant, delivered: bool): (t: TextOutcome)
    requires messages != []
    ensures t.sent == Some(messages)
    ensures t.history == history
      || (t.reply == Text(answer)
          && t.history == history + [ChatRow(chatId, "user", messages[|messages| - 1].content),
                                     ChatRow(chatId, "assistant", answer)])
    ensures t.history != history ==>
      chatId in users && chatId in t.users
      && t.users[chatId].inputTokens == users[chatId].inputTokens
      && t.users[chatId].outputTokens == users[chatId].outputTokens + |answer|
    ensures chatId in users ==>
      chatId in t.users && t.users[chatId].inputTokens == users[chatId].inputTokens
    ensures var second := DebitEffect(true, users, chatId, 0, |answer|, now, delivered);
      (second.0 == Debited ==>
         t.reply == Text(answer) && t.users == AddSpent(second.1, chatId, inputTokens + |answer|)
         && t.history == history + [ChatRow(chatId, "user", messages[|messages| - 1].content),
                                    ChatRow(chatId, "assistant", answer)])
      && (second.0 == Refused ==>
            t.reply == Text(AnswerTooLongReply) && t.history == history && t.users == second.1
            && SameExceptQuota(users[chatId], t.users[chatId]))
      && (second.0 == DebitRaised ==> t.reply == ErrorReply && t.history == history && t.users == second.1)
    ensures forall u :: u != chatId ==> (u in t.users <==> u in users) && (u in users ==> t.users[u] == users[u])
  {
    var second := DebitEffect(true, users, chatId, 0, |answer|, now, delivered);
    if second.0 == DebitRaised then TextOutcome(ErrorReply, Some(messages), second.1, history)
    else if second.0 == Refused then TextOutcome(Text(AnswerTooLongReply), Some(messages), second.1, history)
    else
      TextOutcome(Text(answer), Some(messages), AddSpent(second.1, chatId, inputTokens + |answer|),
                  history + [ChatRow(chatId, "user", messages[|messages| - 1].content),
                             ChatRow(chatId, "assistant", answer)])
  }

  /** process_text_message on the database. */
  method ProcessTextMessage(db: Db, text: string, chatId: int, now: Instant, delivered: bool,
                            assistantKey: Option<string>, model: seq<ChatMessage> -> Completion)
    returns (reply: Reply, sent: Option<seq<ChatMessage>>)
    modifies db
    ensures db.reachable == old(db.reachable) && db.assistantRows == old(db.assistantRows)
    ensures TextOutcome(reply, sent, db.users, db.chatHistory)
      == TextMessage(old(db.reachable), old(db.users), old(db.chatHistory), old(db.assistantRows),
                     text, chatId, now, delivered, assistantKey, model)
  {
    var inputTokens := |text|;
    var first := UpdateUserTokens(db, chatId, inputTokens, 0, now, delivered);
    if first == DebitRaised {
      return Raised, None;
    }
    if first == Refused {
      return Text(QuotaExhaustedReply), None;
    }
    var inputText, messages := BuildMessages(db, text, chatId, assistantKey);
    sent := Some(messages);
    var completion := model(messages);
    if completion.CompletionFailed? {
      return ErrorReply, sent;
    }
    var aiResponse := completion.content;
    reply := RecordAnswer(db, chatId, messages, aiResponse, |text|, now, delivered);
  }

  /** The request of process_text_message, read from the database. */
  method BuildMessages(db: Db, text: string, chatId: int, assistantKey: Option<string>)
    returns (inputText: string, messages: seq<ChatMessage>)
    requires db.reachable
    ensures inputText == InputText(PromptFor(ConfigOf(db.assistantRows), assistantKey), text)
    ensures messages == Request(db.chatHistory, db.assistantRows, text, chatId, assistantKey)
  {
    var config := db.LoadAssistantsConfig();
    var prompt := PromptFor(config, assistantKey);
    inputText := InputText(prompt, text);
    var history := db.GetChatHistory(chatId, DefaultHistoryLimit);
    messages := history.value + [ChatMessage("user", inputText)];
  }

  /** The tail of process_text_message once the model has answered: charge
      the answer's length, add the spend of both texts, store the two turns. */
  method RecordAnswer(db: Db, chatId: int, messages: seq<ChatMessage>, aiResponse: string, inputTokens: nat,
                      now: Instant, delivered: bool)
    returns (reply: Reply)
    requires db.reachable && messages != []
    modifies db
    ensures db.reachable == old(db.reachable) && db.assistantRows == old(db.assistantRows)
    ensures TextOutcome(reply, Some(messages), db.users, db.chatHistory)
      == AnswerTurn(old(db.users), old(db.chatHistory), chatId, messages, inputTokens, aiResponse, now, delivered)
  {
    var inputText := messages[|messages| - 1].content;
    var outputTokens := |aiResponse|;
    var second := UpdateUserTokens(db, chatId, 0, outputTokens, now, delivered);
    if second == DebitRaised {
      return ErrorReply;
    }
    if second == Refused {
      return Text(AnswerTooLongReply);
    }
    SaveSpendAndLog(db, chatId, inputText, aiResponse, inputTokens + outputTokens, now);
    reply := Text(aiResponse);
  }

  /** The total_spent update of a paid answer and the two stored turns. */
  method SaveSpendAndLog(db: Db, chatId: int, inputText: string, aiResponse: string, units: nat, now: Instant)
    requires db.reachable && chatId in db.users
    modifies db
    ensures db.reachable == old(db.reachable) && db.assistantRows == old(db.assistantRows)
    ensures db.users == AddSpent(old(db.users), chatId, units)
    ensures db.chatHistory == old(db.chatHistory) + [ChatRow(chatId, "user", inputText), ChatRow(chatId, "assistant", aiResponse)]
  {
    var userData := db.LoadUserData(chatId, now);
    var rec := userData.value;
    UpsertLoaded(db.users, chatId, db.users[chatId].(totalSpent := rec.totalSpent + units as real * CostPerToken));
    var saved := db.SaveUserData(rec.(totalSpent := rec.totalSpent + units as real * CostPerToken));
    var storedUser := db.StoreMessage(chatId, "user", inputText);
    var storedAnswer := db.StoreMessage(chatId, "assistant", aiResponse);
  }

  /** The document and voice paths (main.py:869-873, 1033-1039): charge the
      content's length, then hand the content to process_text_message, which
      charges it a second time; an answered content has cost twice its
      length on input_tokens. */
  function DocumentMessage(reachable: bool, users: map<int, UserRow>, history: seq<ChatRow>, rows: seq<AssistantRow>,
                           content: string, chatId: int, now: Instant, delivered: bool,
                           assistantKey: Option<string>, model: seq<ChatMessage> -> Completion): (t: TextOutcome)
    ensures t.sent.None? ==> t.history == history && (t.reply == Text(QuotaExhaustedReply) || t.reply == Raised)
    ensures t.history != history ==>
      t.reply.Text? && chatId in users && chatId in t.users
      && t.users[chatId].inputTokens == users[chatId].inputTokens + 2 * |content|
      && t.users[chatId].outputTokens == users[chatId].outputTokens + |t.reply.text|
  {
    var pre := DebitEffect(reachable, users, chatId, |content|, 0, now, delivered);
    if pre.0 != Debited then
      TextOutcome(if pre.0 == Refused then Text(QuotaExhaustedReply) else Raised, None, pre.1, history)
    else
      TextMessage(true, pre.1, history, rows, content, chatId, now, delivered, assistantKey, model)
  }

  method ChargeThenProcess(db: Db, content: string, chatId: int, now: Instant, delivered: bool,
                           assistantKey: Option<string>, model: seq<ChatMessage> -> Completion)
    returns (reply: Reply, sent: Option<seq<ChatMessage>>)
    modifies db
    ensures db.reachable == old(db.reachable) && db.assistantRows == old(db.assistantRows)
    ensures TextOutcome(reply, sent, db.users, db.chatHistory)
      == DocumentMessage(old(db.reachable), old(db.users), old(db.chatHistory), old(db.assistantRows),
                         content, chatId, now, delivered, assistantKey, model)
  {
    var pre := UpdateUserTokens(db, chatId, |content|, 0, now, delivered);
    if pre == DebitRaised {
      return Raised, None;
    }
    if pre == Refused {
      return Text(QuotaExhaustedReply), None;
    }
    reply, sent := ProcessTextMessage(db, content, chatId, now, delivered, assistantKey, model);
  }

  const VoiceTooLongReply: string := "Предупреждение: распознанный текст слишком длинный, попробуйте сократить его."
  const VoiceUnclearReply: string := "Предупреждение: распознанный текст неразборчив. Пожалуйста, попробуйте снова."
  const MaxTranscriptLength: int := 1000000

  /** The voice handler after transcription: the stripped transcript is
      rejected when longer than 1000000 characters or empty, with nothing
      charged or stored, and otherwise charged and processed. */
  function VoiceMessage(reachable: bool, users: map<int, UserRow>, history: seq<ChatRow>, rows: seq<AssistantRow>,
                        transcript: string, chatId: int, now: Instant, delivered: bool,
                        assistantKey: Option<string>, model: seq<ChatMessage> -> Completion): (t: TextOutcome)
    ensures |Strip(transcript)| > MaxTranscriptLength ==> t == TextOutcome(Text(VoiceTooLongReply), None, users, history)
    ensures Strip(transcript) == [] ==> t == TextOutcome(Text(VoiceUnclearReply), None, users, history)
    ensures t.history != history ==>
      var recognized := Strip(transcript);
      0 < |recognized| <= MaxTranscriptLength && t.reply.Text? && chatId in users && chatId in t.users
      && t.users[chatId].inputTokens == users[chatId].inputTokens + 2 * |recognized|
  {
    var recognized := Strip(transcript);
    if |recognized| > MaxTranscriptLength then TextOutcome(Text(VoiceTooLongReply), None, users, history)
    else if recognized == [] then TextOutcome(Text(VoiceUnclearReply), None, users, history)
    else DocumentMessage(reachable, users, history, rows, recognized, chatId, now, delivered, assistantKey, model)
  }

  method ProcessTranscript(db: Db, transcript: string, chatId: int, now: Instant, delivered: bool,
                           assistantKey: Option<string>, model: seq<ChatMessage> -> Completion)
    returns (reply: Reply, sent: Option<seq<ChatMessage>>)
    modifies db
    ensures db.reachable == old(db.reachable) && db.assistantRows == old(db.assistantRows)
    ensures TextOutcome(reply, sent, db.users, db.chatHistory)
      == VoiceMessage(old(db.reachable), old(db.users), old(db.chatHistory), old(db.assistantRows),
                      transcript, chatId, now, delivered, assistantKey, model)
  {
    var recognized := Strip(transcript);
    if |recognized| > MaxTranscriptLength {
      return Text(VoiceTooLongReply), None;
    }
    if recognized == [] {
      return Text(VoiceUnclearReply), None;
    }
    reply, sent := ChargeThenProcess(db, recognized, chatId, now, delivered, assistantKey, model);
  }

  // ---------------------------------------------------------------------------
  // Purchases: create_price_menu, buy_rate, successful_pay

  datatype Plan = Plan(name: string, price: Option<int>, tokens: int)

  const TokenPlans: seq<Plan> := [
    Plan("free", None, 30000),
    Plan("basic", Some(149), 200000),
    Plan("advanced", Some(349), 500000),
    Plan("premium", Some(649), 1200000),
    Plan("unlimited", Some(1499), 3000000)
  ]

  /** The plans the price menu offers, in button order. */
  const MenuPlans: seq<int> := [1, 2, 3, 4]

  /** The callback data of a price-menu button. */
  function CallbackData(price: int): string {
    "buy_rate_" + Decimal(price)
  }

  /** s.split(sep)[-1]: the text after the last separator. */
  function LastField(s: string, sep: char): (r: string)
    ensures |r| <= |s| && r == s[|s| - |r|..]
    ensures forall i :: 0 <= i < |r| ==> r[i] != sep
    ensures |r| < |s| ==> s[|s| - |r| - 1] == sep
  {
    if s == [] then []
    else if s[|s| - 1] == sep then []
    else LastField(s[..|s| - 1], sep) + [s[|s| - 1]]
  }

  lemma {:induction false} LastFieldAfterSeparator(prefix: string, sep: char, field: string)
    requires forall i :: 0 <= i < |field| ==> field[i] != sep
    ensures LastField(prefix + [sep] + field, sep) == field
    decreases |field|
  {
    var s := prefix + [sep] + field;
    if field == [] {
      assert s[|s| - 1] == sep;
    } else {
      assert s[..|s| - 1] == prefix + [sep] + field[..|field| - 1];
      LastFieldAfterSeparator(prefix, sep, field[..|field| - 1]);
      assert field[..|field| - 1] + [field[|field| - 1]] == field;
    }
  }

  /** buy_rate: the invoice amount in kopecks, price * 100; None where int()
      raises on the callback data. */
  function InvoiceAmount(callbackData: string): Option<int> {
    match ParseInt(LastField(callbackData, '_'))
    case None => None
    case Some(price) => Some(price * 100)
  }

  /** plan_info.get('price', 0). */
  function PlanPrice(plan: Plan): int {
    if plan.price.Some? then plan.price.value else 0
  }

  /** The first plan whose price equals total_amount / 100. */
  function SelectPlan(plans: seq<Plan>, totalAmount: int): (r: Option<Plan>)
    ensures r.Some? ==>
      exists i :: (0 <= i < |plans| && plans[i] == r.value
                   && PlanPrice(plans[i]) * 100 == totalAmount
                   && forall j :: 0 <= j < i ==> PlanPrice(plans[j]) * 100 != totalAmount)
    ensures r.None? <==> forall i :: 0 <= i < |plans| ==> PlanPrice(plans[i]) * 100 != totalAmount
  {
    if plans == [] then None
    else if PlanPrice(plans[0]) * 100 == totalAmount then
      assert plans[0] == plans[0];
      Some(plans[0])
    else
      var r := SelectPlan(plans[1..], totalAmount);
      assert forall i :: 1 <= i < |plans| ==> plans[i] == plans[1..][i - 1];
      if r.Some? then
        var i :| 0 <= i < |plans[1..]| && plans[1..][i] == r.value
          && PlanPrice(plans[1..][i]) * 100 == totalAmount
          && forall j :: 0 <= j < i ==> PlanPrice(plans[1..][j]) * 100 != totalAmount;
        assert plans[i + 1] == r.value;
        r
      else r
  }

  /** The callback data of a button carrying any price yields an invoice of
      price * 100 kopecks. */
  lemma CallbackRoundTrip(price: int)
    ensures InvoiceAmount(CallbackData(price)) == Some(price * 100)
  {
    var digits := Decimal(price);
    assert "buy_rate_" + digits == "buy_rate" + ['_'] + digits;
    LastFieldAfterSeparator("buy_rate", '_', digits);
    DecimalRoundTrip(price);
  }

  /** A payment of a menu plan's invoice (price * 100, by CallbackRoundTrip)
      selects that same plan back. */
  lemma PurchaseRoundTrip(k: int)
    requires 0 <= k < |MenuPlans|
    ensures var plan := TokenPlans[MenuPlans[k]];
      plan.price.Some? && SelectPlan(TokenPlans, plan.price.value * 100) == Some(plan)
  {
    if k == 0 {
      SelectFirstMatch(TokenPlans, 1, 14900);
    } else if k == 1 {
      SelectFirstMatch(TokenPlans, 2, 34900);
    } else if k == 2 {
      SelectFirstMatch(TokenPlans, 3, 64900);
    } else {
      SelectFirstMatch(TokenPlans, 4, 149900);
    }
  }

  /** A plan that matches the amount, with no match before it, is the one selected. */
  lemma {:induction false} SelectFirstMatch(plans: seq<Plan>, i: int, totalAmount: int)
    requires 0 <= i < |plans| && PlanPrice(plans[i]) * 100 == totalAmount
    requires forall j :: 0 <= j < i ==> PlanPrice(plans[j]) * 100 != totalAmount
    ensures SelectPlan(plans, totalAmount) == Some(plans[i])
  {
    if i > 0 {
      SelectFirstMatch(plans[1..], i - 1, totalAmount);
    }
  }

  /** Exactly the five amounts 0, 149, 349, 649 and 1499 roubles select a
      plan; an amount of 0 selects "free", whose price is missing. */
  lemma SelectedAmounts(totalAmount: int)
    ensures SelectPlan(TokenPlans, totalAmount).Some? <==> totalAmount in {0, 14900, 34900, 64900, 149900}
    ensures SelectPlan(TokenPlans, 0) == Some(TokenPlans[0])
  {
    assert PlanPrice(TokenPlans[0]) == 0 && PlanPrice(TokenPlans[1]) == 149 && PlanPrice(TokenPlans[2]) == 349;
    assert PlanPrice(TokenPlans[3]) == 649 && PlanPrice(TokenPlans[4]) == 1499;
  }

  /** successful_pay: the first plan whose price matches the amount; the
      user's plan becomes it and its tokens are added to the balance. */
  method SuccessfulPay(db: Db, userId: int, totalAmount: int) returns (selected: Option<Plan>)
    modifies db
    ensures db.reachable == old(db.reachable) && db.chatHistory == old(db.chatHistory)
    ensures db.assistantRows == old(db.assistantRows)
    ensures selected == SelectPlan(TokenPlans, totalAmount)
    ensures db.users == Credited(old(db.reachable), old(db.users), userId, selected)
  {
    selected := FirstMatchingPlan(TokenPlans, totalAmount);
    CreditPlan(db, userId, selected);
  }

  /** The users table after successful_pay's UPDATE: the selected plan's name
      becomes the account's plan and its tokens are added to the balance;
      nothing changes without a plan, a connection or the account. */
  function Credited(reachable: bool, users: map<int, UserRow>, userId: int, selected: Option<Plan>)
    : (r: map<int, UserRow>)
    ensures r.Keys == users.Keys
    ensures forall u :: u in users && u != userId ==> r[u] == users[u]
    ensures selected.None? || !reachable || userId !in users ==> r == users
    ensures selected.Some? && reachable && userId in users ==>
      r[userId].subscriptionPlan == selected.value.name
      && r[userId].dailyTokens == users[userId].dailyTokens + selected.value.tokens
      && r[userId].(subscriptionPlan := users[userId].subscriptionPlan, dailyTokens := users[userId].dailyTokens)
         == users[userId]
  {
    if selected.Some? && reachable && userId in users then
      users[userId := users[userId].(subscriptionPlan := selected.value.name,
                                     dailyTokens := users[userId].dailyTokens + selected.value.tokens)]
    else users
  }

  /** The UPDATE of successful_pay for the selected plan, if any. */
  method CreditPlan(db: Db, userId: int, selected: Option<Plan>)
    modifies db
    ensures db.reachable == old(db.reachable) && db.chatHistory == old(db.chatHistory)
    ensures db.assistantRows == old(db.assistantRows)
    ensures db.users == Credited(old(db.reachable), old(db.users), userId, selected)
  {
    if selected.Some? && db.reachable && userId in db.users {
      var row := db.users[userId];
      db.users := db.users[userId := row.(subscriptionPlan := selected.value.name,
                                          dailyTokens := row.dailyTokens + selected.value.tokens)];
    }
  }

  /** The loop of successful_pay over the plans, stopping at the first match. */
  method FirstMatchingPlan(plans: seq<Plan>, totalAmount: int) returns (selected: Option<Plan>)
    ensures selected == SelectPlan(plans, totalAmount)
  {
    var i := 0;
    while i < |plans|
      invariant 0 <= i <= |plans|
      invariant SelectPlan(plans, totalAmount) == SelectPlan(plans[i..], totalAmount)
    {
      var planInfo := plans[i];
      assert plans[i..][0] == planInfo && plans[i..][1..] == plans[i + 1..];
      if PlanPrice(planInfo) * 100 == totalAmount {
        return Some(planInfo);
      }
      i := i + 1;
    }
    selected := None;
  }

  // ---------------------------------------------------------------------------
  // check_user_subscription and subscription_check_callback

  const CacheTtl: int := 3600

  datatype CacheEntry = CacheEntry(checkedAt: Instant, subscribed: bool)

  /** bot.get_chat_member: the member's status, or an exception. */
  datatype MemberLookup = LookupFailed | MemberStatus(status: string)

  predicate IsSubscribedStatus(status: string) {
    status == "member" || status == "administrator" || status == "creator"
  }

  /** SUBSCRIPTION_CHECK_CACHE and the two functions that use it. */
  class SubscriptionCache {
    var entries: map<int, CacheEntry>

    constructor ()
      ensures entries == map[]
    {
      entries := map[];
    }

    /** check_user_subscription: a cached answer younger than an hour is
        returned without asking Telegram; otherwise Telegram is asked, a
        status is cached, and an error answers True without caching. */
    method Check(userId: int, now: Instant, lookup: MemberLookup) returns (subscribed: bool, queried: bool)
      modifies this
      ensures userId in old(entries) && now - old(entries)[userId].checkedAt < CacheTtl ==>
        !queried && subscribed == old(entries)[userId].subscribed && entries == old(entries)
      ensures !(userId in old(entries) && now - old(entries)[userId].checkedAt < CacheTtl) ==>
        queried
        && (lookup.LookupFailed? ==> subscribed && entries == old(entries))
        && (lookup.MemberStatus? ==>
              subscribed == IsSubscribedStatus(lookup.status)
              && entries == old(entries)[userId := CacheEntry(now, subscribed)])
    {
      if userId in entries {
        var entry := entries[userId];
        if now - entry.checkedAt < CacheTtl {
          return entry.subscribed, false;
        }
      }
      queried := true;
      match lookup
      case LookupFailed =>
        subscribed := true;
      case MemberStatus(status) =>
        subscribed := IsSubscribedStatus(status);
        entries := entries[userId := CacheEntry(now, subscribed)];
    }

    /** subscription_check_callback: the user's entry is dropped, so Telegram
        is always asked again. */
    method Recheck(userId: int, now: Instant, lookup: MemberLookup) returns (subscribed: bool, queried: bool)
      modifies this
      ensures queried
      ensures lookup.LookupFailed? ==> subscribed && entries == old(entries) - {userId}
      ensures lookup.MemberStatus? ==>
        subscribed == IsSubscribedStatus(lookup.status)
        && entries == (old(entries) - {userId})[userId := CacheEntry(now, subscribed)]
    {
      if userId in entries {
        entries := entries - {userId};
      }
      subscribed, queried := Check(userId, now, lookup);
    }
  }

  // ---------------------------------------------------------------------------
  // get_full_assistant_key

  /** The commands the assistant handler is registered for. */
  const AssistantCommands: seq<string> := [
    "cybersecurity", "dig_marketing", "brand_mgmt",
    "biz_create", "comm_skills", "stk_trading",
    "crypto", "real_estate", "startups",
    "passive_inv", "esg", "forex",
    "finance", "fintech", "pensions",
    "insurance", "tax_credit", "personal_fin",
    "income_edu", "prod_mgmt"
  ]

  const CommandToKey: map<string, string> := map[
    "cybersecurity" := "cybersecurity",
    "dig_marketing" := "Digital Marketing Consultant",
    "brand_mgmt" := "Brand Management Consultant",
    "biz_create" := "Business Creation Consultant",
    "comm_skills" := "Communication Skills Consultant",
    "stk_trading" := "Stock Market Trading Consultant",
    "crypto" := "Cryptocurrency Consultant",
    "real_estate" := "Real Estate Investment Consultant",
    "startups" := "Startup Investment Consultant",
    "passive_inv" := "Passive Investment Consultant",
    "esg" := "ESG Investment Consultant",
    "forex" := "Forex Market Consultant",
    "finance" := "Digital Finance Consultant",
    "fintech" := "Fintech Consultant",
    "pensions" := "Pension Consultant",
    "insurance" := "Insurance Consultant",
    "tax_credit" := "Tax and Credit Consultant",
    "personal_fin" := "Personal Finance Consultant",
    "income_edu" := "Income and Finance Education Consultant",
    "prod_mgmt" := "Product_management_con"
  ]

  /** get_full_assistant_key: defined exactly on the registered commands. */
  function FullAssistantKey(command: string): (r: Option<string>)
    ensures r.Some? <==> command in AssistantCommands
  {
    if command in CommandToKey then Some(CommandToKey[command]) else None
  }

  // ---------------------------------------------------------------------------
  // generate_referral_link and the referral branch of send_welcome

  const ReferralLinkPrefix: string := "https://t.me/fiinny_bot?start="
  const ReferralBonusTokens: int := 100000

  /** generate_referral_link: the start parameter of the link is the user id,
      and int() of it gives the id back. */
  function ReferralLink(userId: int): (link: string)
    ensures StartsWith(link, ReferralLinkPrefix)
    ensures ParseInt(link[|ReferralLinkPrefix|..]) == Some(userId)
  {
    DecimalRoundTrip(userId);
    var link := ReferralLinkPrefix + Decimal(userId);
    assert link[|ReferralLinkPrefix|..] == Decimal(userId);
    link
  }

  /** The referral branch for a new user (main.py:690-698): a referrer id that
      int() accepts and that load_user_data finds gets one more invited user
      and 100000 tokens. A referrer that is not found gets a default row, as
      load_user_data creates one. */
  method CreditReferrer(db: Db, referrerText: string, now: Instant) returns (credited: bool)
    modifies db
    ensures db.reachable == old(db.reachable) && db.chatHistory == old(db.chatHistory)
    ensures db.assistantRows == old(db.assistantRows)
    ensures ParseInt(referrerText).None? || !old(db.reachable) ==> !credited && db.users == old(db.users)
    ensures ParseInt(referrerText).Some? && old(db.reachable) ==>
      var rid := ParseInt(referrerText).value;
      if rid in old(db.users) then
        credited && db.users == old(db.users)[rid := old(db.users)[rid].(
          invitedUsers := old(db.users)[rid].invitedUsers + 1,
          dailyTokens := old(db.users)[rid].dailyTokens + ReferralBonusTokens)]
      else !credited && db.users == old(db.users)[rid := DefaultRow(DayOf(now))]
  {
    var parsed := ParseInt(referrerText);
    if parsed.None? {
      // ValueError: "Invalid referrer ID format"
      return false;
    }
    var referrerId := parsed.value;
    var referrerData := db.LoadUserData(referrerId, now);
    if referrerData.None? {
      return false;
    }
    var rec := referrerData.value;
    UpsertLoaded(db.users, referrerId, db.users[referrerId].(
      invitedUsers := rec.invitedUsers + 1, dailyTokens := rec.dailyTokens + ReferralBonusTokens));
    var saved := db.SaveUserData(rec.(invitedUsers := rec.invitedUsers + 1,
                                      dailyTokens := rec.dailyTokens + ReferralBonusTokens));
    credited := true;
  }

  /** send_welcome up to the creation of the newcomer (main.py:680-698):
      load_user_data on the sender, then, for a sender it did not find, the
      referral branch. The load has already inserted the sender's default
      row, so a link carrying the sender's own id credits the sender. */
  method Welcome(db: Db, userId: int, referrerText: Option<string>, now: Instant)
    returns (registered: bool, credited: bool)
    modifies db
    ensures db.reachable == old(db.reachable) && db.chatHistory == old(db.chatHistory)
    ensures db.assistantRows == old(db.assistantRows)
    ensures registered <==> old(db.reachable) && userId in old(db.users)
    ensures registered || !old(db.reachable) || referrerText.None? ==>
      !credited && db.users == if registered || !old(db.reachable) then old(db.users)
                               else old(db.users)[userId := DefaultRow(DayOf(now))]
    ensures old(db.reachable) && userId !in old(db.users) && referrerText.Some? ==>
      var base := old(db.users)[userId := DefaultRow(DayOf(now))];
      match ParseInt(referrerText.value)
      case None => !credited && db.users == base
      case Some(rid) =>
        if rid in base then
          credited && db.users == base[rid := base[rid].(invitedUsers := base[rid].invitedUsers + 1,
                                                         dailyTokens := base[rid].dailyTokens + ReferralBonusTokens)]
        else !credited && db.users == base[rid := DefaultRow(DayOf(now))]
    ensures old(db.reachable) && userId !in old(db.users) && referrerText == Some(Decimal(userId)) ==>
      credited && db.users == old(db.users)[userId := DefaultRow(DayOf(now)).(
        invitedUsers := 1, dailyTokens := DefaultDailyTokens + ReferralBonusTokens)]
  {
    var userData := db.LoadUserData(userId, now);
    if userData.Some? {
      return true, false;
    }
    registered := false;
    credited := false;
    if referrerText.Some? {
      DecimalRoundTrip(userId);
      credited := CreditReferrer(db, referrerText.value, now);
    }
  }
}
