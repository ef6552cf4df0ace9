/** The storage layer of database.py as operations on in-memory tables: the
    `users` table, the `chat_history` log and the `assistants` table.

    The Postgres connection is the field `reachable`: when connect_to_db fails
    every function either returns its failure value (the ones that catch) or
    raises (the ones that do not), and no table changes. */
module Database {
  import opened Common

  /** One row of the `users` table: every column some core file reads or writes. */
  datatype UserRow = UserRow(
    dailyTokens: int,
    lastReset: Day,
    totalSpent: real,
    referralCount: int,
    inputTokens: int,
    outputTokens: int,
    invitedUsers: int,
    referrerId: Option<int>,
    subscriptionPlan: string,
    // columns that database.py neither inserts nor returns
    lastTokenUpdate: Option<Day>,
    lastWarningTime: Option<Instant>,
    subscriptionStartDate: Option<Instant>,
    subscriptionEndDate: Option<Instant>,
    trialUsed: Option<bool>,
    paymentMethodId: Option<string>,
    autoRenewal: Option<bool>)

  /** The `user_data` dictionary that load_user_data returns and save_user_data takes. */
  datatype UserRecord = UserRecord(
    userId: int,
    dailyTokens: int,
    lastReset: Day,
    totalSpent: real,
    referralCount: int,
    inputTokens: int,
    outputTokens: int,
    invitedUsers: int,
    referrerId: Option<int>,
    subscriptionPlan: string)

  datatype ChatRow = ChatRow(chatId: int, role: string, content: string)

  /** One `{"role": ..., "content": ...}` entry of a chat history. */
  datatype ChatMessage = ChatMessage(role: string, content: string)

  datatype AssistantRow = AssistantRow(key: string, name: string, prompt: string)

  /** One `{"name": ..., "prompt": ...}` entry of the assistants configuration. */
  datatype Assistant = Assistant(name: string, prompt: string)

  const DefaultDailyTokens: int := 20000
  const DefaultHistoryLimit: nat := 10

  /** The row create_default_user inserts; columns outside its INSERT are NULL. */
  function DefaultRow(today: Day): UserRow {
    UserRow(DefaultDailyTokens, today, 0.0, 0, 0, 0, 0, None, "free",
            None, None, None, None, None, None, None)
  }

  /** The dictionary load_user_data builds from a row. */
  function RecordOf(userId: int, row: UserRow): UserRecord {
    UserRecord(userId, row.dailyTokens, row.lastReset, row.totalSpent, row.referralCount,
               row.inputTokens, row.outputTokens, row.invitedUsers, row.referrerId,
               row.subscriptionPlan)
  }

  /** The ten columns of a record written into a row; the other columns come from `base`. */
  function WriteRecord(base: UserRow, rec: UserRecord): UserRow {
    base.(dailyTokens := rec.dailyTokens, lastReset := rec.lastReset, totalSpent := rec.totalSpent,
          referralCount := rec.referralCount, inputTokens := rec.inputTokens,
          outputTokens := rec.outputTokens, invitedUsers := rec.invitedUsers,
          referrerId := rec.referrerId, subscriptionPlan := rec.subscriptionPlan)
  }

  /** INSERT ... ON CONFLICT (user_id) DO UPDATE of the ten record columns. */
  function Upsert(users: map<int, UserRow>, rec: UserRecord): (r: map<int, UserRow>)
    ensures r.Keys == users.Keys + {rec.userId}
    ensures RecordOf(rec.userId, r[rec.userId]) == rec
    ensures forall u :: u in users && u != rec.userId ==> r[u] == users[u]
    ensures rec.userId in users ==>
      r[rec.userId].(dailyTokens := users[rec.userId].dailyTokens, lastReset := users[rec.userId].lastReset,
                     totalSpent := users[rec.userId].totalSpent, referralCount := users[rec.userId].referralCount,
                     inputTokens := users[rec.userId].inputTokens, outputTokens := users[rec.userId].outputTokens,
                     invitedUsers := users[rec.userId].invitedUsers, referrerId := users[rec.userId].referrerId,
                     subscriptionPlan := users[rec.userId].subscriptionPlan)
      == users[rec.userId]
  {
    var base := if rec.userId in users then users[rec.userId]
                else UserRow(0, 0, 0.0, 0, 0, 0, 0, None, "", None, None, None, None, None, None, None);
    users[rec.userId := WriteRecord(base, rec)]
  }

  /** Saving a record loaded from a row and changed in some of its ten columns
      changes exactly those columns of the row. */
  lemma UpsertLoaded(users: map<int, UserRow>, userId: int, row: UserRow)
    requires userId in users
    ensures Upsert(users, RecordOf(userId, row)) == users[userId := WriteRecord(users[userId], RecordOf(userId, row))]
  {
  }

  // ---------------------------------------------------------------------------
  // The chat_history log

  /** The messages of one chat, in insertion order. */
  function ChatOf(history: seq<ChatRow>, chatId: int): seq<ChatMessage> {
    if history == [] then []
    else
      var last := history[|history| - 1];
      ChatOf(history[..|history| - 1], chatId)
        + (if last.chatId == chatId then [ChatMessage(last.role, last.content)] else [])
  }

  /** The `limit` most recent entries of a message list, oldest first. */
  function Window(messages: seq<ChatMessage>, limit: nat): (r: seq<ChatMessage>)
    ensures |r| <= limit && |r| <= |messages|
    ensures (|messages| <= limit ==> r == messages) && (limit <= |messages| ==> |r| == limit)
    ensures r == messages[|messages| - |r|..]
  {
    if |messages| <= limit then messages else messages[|messages| - limit..]
  }

  /** What get_chat_history returns for a chat. */
  function Recent(history: seq<ChatRow>, chatId: int, limit: nat): seq<ChatMessage> {
    Window(ChatOf(history, chatId), limit)
  }

  /** One more row in front of the log adds its message in front, for its chat. */
  lemma ChatOfPrepend(row: ChatRow, rest: seq<ChatRow>, chatId: int)
    ensures ChatOf([row] + rest, chatId)
      == (if row.chatId == chatId then [ChatMessage(row.role, row.content)] else []) + ChatOf(rest, chatId)
  {
    ChatOfConcat([row], rest, chatId);
    assert [row][..0] == [];
  }

  /** The walk from the newest row may stop once it has `limit` messages, or
      at the oldest row. */
  lemma RecentFromSuffix(history: seq<ChatRow>, i: nat, chatId: int, limit: nat)
    requires i <= |history|
    requires |ChatOf(history[i..], chatId)| <= limit
    requires i == 0 || |ChatOf(history[i..], chatId)| == limit
    ensures Recent(history, chatId, limit) == ChatOf(history[i..], chatId)
  {
    var front, back := ChatOf(history[..i], chatId), ChatOf(history[i..], chatId);
    ChatOfConcat(history[..i], history[i..], chatId);
    assert history[..i] + history[i..] == history;
    if i == 0 {
      assert history[i..] == history;
    } else {
      assert (front + back)[|front + back| - limit..] == back;
    }
  }

  lemma {:induction false} ChatOfConcat(a: seq<ChatRow>, b: seq<ChatRow>, chatId: int)
    ensures ChatOf(a + b, chatId) == ChatOf(a, chatId) + ChatOf(b, chatId)
    decreases |b|
  {
    if b == [] {
      assert a + b == a;
    } else {
      var b' := b[..|b| - 1];
      assert (a + b)[..|a + b| - 1] == a + b';
      assert (a + b)[|a + b| - 1] == b[|b| - 1];
      ChatOfConcat(a, b', chatId);
    }
  }

  /** The history of one chat is unaffected by rows of other chats. */
  lemma {:induction false} ChatOfOther(history: seq<ChatRow>, row: ChatRow, chatId: int)
    requires row.chatId != chatId
    ensures ChatOf(history + [row], chatId) == ChatOf(history, chatId)
  {
    assert (history + [row])[..|history|] == history;
  }

  /** After a message is stored in a chat, the chat's history (with any positive
      limit) ends with that message, preceded by the newest earlier ones. */
  lemma StoredIsNewest(history: seq<ChatRow>, chatId: int, role: string, content: string, limit: nat)
    requires limit > 0
    ensures var r := Recent(history + [ChatRow(chatId, role, content)], chatId, limit);
      |r| > 0 && r[|r| - 1] == ChatMessage(role, content)
      && r[..|r| - 1] == Recent(history, chatId, limit - 1)
  {
    var h := history + [ChatRow(chatId, role, content)];
    assert h[..|h| - 1] == history;
  }

  /** The rows of a chat_history log that belong to other chats. */
  function WithoutChat(history: seq<ChatRow>, chatId: int): (r: seq<ChatRow>)
    ensures forall i :: 0 <= i < |r| ==> r[i].chatId != chatId
    ensures forall other :: other != chatId ==> ChatOf(r, other) == ChatOf(history, other)
  {
    if history == [] then []
    else
      var rest := history[..|history| - 1];
      var last := history[|history| - 1];
      var r := WithoutChat(rest, chatId) + (if last.chatId == chatId then [] else [last]);
      assert forall other :: other != chatId ==> ChatOf(r, other) == ChatOf(history, other) by {
        forall other | other != chatId
          ensures ChatOf(r, other) == ChatOf(history, other)
        {
          ChatOfConcat(WithoutChat(rest, chatId), if last.chatId == chatId then [] else [last], other);
          assert ChatOf([last], other) == (if last.chatId == other then [ChatMessage(last.role, last.content)] else []) by {
            assert [last][..0] == [];
          }
        }
      }
      r
  }

  lemma {:induction false} NoRowsNoMessages(history: seq<ChatRow>, chatId: int)
    requires forall i :: 0 <= i < |history| ==> history[i].chatId != chatId
    ensures ChatOf(history, chatId) == []
  {
    if history != [] {
      NoRowsNoMessages(history[..|history| - 1], chatId);
    }
  }

  /** Clearing a chat leaves nothing of it and every other chat as it was. */
  lemma ClearedChatIsEmpty(history: seq<ChatRow>, chatId: int, limit: nat)
    ensures Recent(WithoutChat(history, chatId), chatId, limit) == []
    ensures forall other :: other != chatId ==>
      Recent(WithoutChat(history, chatId), other, limit) == Recent(history, other, limit)
  {
    NoRowsNoMessages(WithoutChat(history, chatId), chatId);
  }

  // ---------------------------------------------------------------------------
  // The assistants table

  /** The "assistants" dictionary built from the rows in order: a later row
      with the same key replaces an earlier one. */
  function ConfigOf(rows: seq<AssistantRow>): map<string, Assistant> {
    if rows == [] then map[]
    else
      var last := rows[|rows| - 1];
      ConfigOf(rows[..|rows| - 1])[last.key := Assistant(last.name, last.prompt)]
  }

  const DefaultPrompt: string := "Вы просто бот."

  /** The prompt of the chosen assistant, or the fallback prompt when no
      assistant is chosen or the key is not configured. */
  function PromptFor(config: map<string, Assistant>, key: Option<string>): (p: string)
    ensures key.Some? && key.value in config ==> p == config[key.value].prompt
    ensures key.None? || key.value !in config ==> p == DefaultPrompt
  {
    if key.Some? && key.value in config then config[key.value].prompt else DefaultPrompt
  }

  /** A key is configured exactly when some row carries it, and its entry is
      the name and prompt of the last such row. */
  lemma {:induction false} ConfigOfLastRowWins(rows: seq<AssistantRow>, key: string)
    ensures key in ConfigOf(rows) <==> exists i :: 0 <= i < |rows| && rows[i].key == key
    ensures key in ConfigOf(rows) ==>
      exists i :: 0 <= i < |rows| && rows[i].key == key
        && ConfigOf(rows)[key] == Assistant(rows[i].name, rows[i].prompt)
        && forall j :: i < j < |rows| ==> rows[j].key != key
  {
    if rows != [] {
      var rest := rows[..|rows| - 1];
      ConfigOfLastRowWins(rest, key);
      if rows[|rows| - 1].key != key {
        assert forall i :: 0 <= i < |rest| ==> rest[i] == rows[i];
        if key in ConfigOf(rows) {
          var i :| 0 <= i < |rest| && rest[i].key == key
            && ConfigOf(rest)[key] == Assistant(rest[i].name, rest[i].prompt)
            && forall j :: i < j < |rest| ==> rest[j].key != key;
          assert rows[i].key == key;
        }
      }
    }
  }

  // ---------------------------------------------------------------------------
  // The store

  class Db {
    var reachable: bool
    var users: map<int, UserRow>
    var chatHistory: seq<ChatRow>
    var assistantRows: seq<AssistantRow>

    constructor (reachable: bool, users: map<int, UserRow>, chatHistory: seq<ChatRow>, assistantRows: seq<AssistantRow>)
      ensures this.reachable == reachable && this.users == users
      ensures this.chatHistory == chatHistory && this.assistantRows == assistantRows
    {
      this.reachable := reachable;
      this.users := users;
      this.chatHistory := chatHistory;
      this.assistantRows := assistantRows;
    }

    /** load_assistants_config: the rows folded into a dictionary; an empty
        dictionary when the query fails. */
    method LoadAssistantsConfig() returns (config: map<string, Assistant>)
      ensures reachable ==> config == ConfigOf(assistantRows)
      ensures !reachable ==> config == map[]
    {
      if !reachable {
        return map[];
      }
      config := map[];
      var i := 0;
      while i < |assistantRows|
        invariant 0 <= i <= |assistantRows|
        invariant config == ConfigOf(assistantRows[..i])
      {
        var row := assistantRows[i];
        assert assistantRows[..i + 1][..i] == assistantRows[..i];
        config := config[row.key := Assistant(row.name, row.prompt)];
        i := i + 1;
      }
      assert assistantRows[..i] == assistantRows;
    }

    /** create_default_user: inserts the default row; None when the insert
        fails (the id exists, or there is no connection). */
    method CreateDefaultUser(userId: int, now: Instant) returns (r: Option<UserRecord>)
      modifies this
      ensures reachable == old(reachable) && chatHistory == old(chatHistory) && assistantRows == old(assistantRows)
      ensures old(reachable) && userId !in old(users) ==>
        users == old(users)[userId := DefaultRow(DayOf(now))] && r == Some(RecordOf(userId, DefaultRow(DayOf(now))))
      ensures !(old(reachable) && userId !in old(users)) ==> users == old(users) && r == None
    {
      if !reachable || userId in users {
        return None;
      }
      var row := DefaultRow(DayOf(now));
      users := users[userId := row];
      r := Some(RecordOf(userId, row));
    }

    /** load_user_data: the record of a stored user. On a miss it creates the
        default row and still returns None. */
    method LoadUserData(userId: int, now: Instant) returns (r: Option<UserRecord>)
      modifies this
      ensures reachable == old(reachable) && chatHistory == old(chatHistory) && assistantRows == old(assistantRows)
      ensures old(reachable) && userId in old(users) ==> r == Some(RecordOf(userId, old(users)[userId])) && users == old(users)
      ensures old(reachable) && userId !in old(users) ==> r == None && users == old(users)[userId := DefaultRow(DayOf(now))]
      ensures !old(reachable) ==> r == None && users == old(users)
    {
      if !reachable {
        return None;
      }
      if userId in users {
        return Some(RecordOf(userId, users[userId]));
      }
      var created := CreateDefaultUser(userId, now);
      r := None;
    }

    /** save_user_data: a full upsert of the record's ten columns. */
    method SaveUserData(rec: UserRecord) returns (ok: bool)
      modifies this
      ensures reachable == old(reachable) && chatHistory == old(chatHistory) && assistantRows == old(assistantRows)
      ensures ok == old(reachable)
      ensures users == if ok then Upsert(old(users), rec) else old(users)
    {
      ok := reachable;
      if ok {
        users := Upsert(users, rec);
      }
    }

    /** store_message_in_db: appends one row; false where it raises. */
    method StoreMessage(chatId: int, role: string, content: string) returns (ok: bool)
      modifies this
      ensures reachable == old(reachable) && users == old(users) && assistantRows == old(assistantRows)
      ensures ok == old(reachable)
      ensures chatHistory == if ok then old(chatHistory) + [ChatRow(chatId, role, content)] else old(chatHistory)
    {
      ok := reachable;
      if ok {
        chatHistory := chatHistory + [ChatRow(chatId, role, content)];
      }
    }

    /** get_chat_history: the `limit` newest messages of a chat, oldest first;
        None where it raises. The loop walks the log newest first (ORDER BY
        timestamp DESC LIMIT) and prepends, which is the final reversal. */
    method GetChatHistory(chatId: int, limit: nat) returns (r: Option<seq<ChatMessage>>)
      ensures reachable ==> r == Some(Recent(chatHistory, chatId, limit))
      ensures !reachable ==> r == None
    {
      if !reachable {
        return None;
      }
      var picked: seq<ChatMessage> := [];
      var i := |chatHistory|;
      while i > 0 && |picked| < limit
        invariant 0 <= i <= |chatHistory|
        invariant |picked| <= limit
        invariant picked == ChatOf(chatHistory[i..], chatId)
      {
        var row := chatHistory[i - 1];
        assert chatHistory[i - 1..] == [row] + chatHistory[i..];
        ChatOfPrepend(row, chatHistory[i..], chatId);
        if row.chatId == chatId {
          picked := [ChatMessage(row.role, row.content)] + picked;
        }
        i := i - 1;
      }
      RecentFromSuffix(chatHistory, i, chatId, limit);
      r := Some(picked);
    }

    /** clear_chat_history: deletes every row of the chat; false where it raises. */
    method ClearChatHistory(chatId: int) returns (ok: bool)
      modifies this
      ensures reachable == old(reachable) && users == old(users) && assistantRows == old(assistantRows)
      ensures ok == old(reachable)
      ensures chatHistory == if ok then WithoutChat(old(chatHistory), chatId) else old(chatHistory)
    {
      ok := reachable;
      if ok {
        chatHistory := WithoutChat(chatHistory, chatId);
      }
    }
  }
}
