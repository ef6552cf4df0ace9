# StudyClickBot bookkeeping, in Dafny

StudyClickBot ("Финни") is a Telegram bot. It answers finance questions through an OpenAI chat model and sells token plans. This project models the parts of the bot that keep accounts and make decisions:

- **Token ledger** (`Ledger`, main.py):
  - the threshold check `check_and_update_tokens`, which runs before every debit: downgrade at 5000 tokens, daily refill to 30000, a once-a-day warning below 15000, and a cut-off to 0 below 3000;
  - the debit `update_user_tokens`;
  - the text pipeline `process_text_message`, which charges the question before the model call and the answer after it, together with the document and voice paths that feed it;
  - the purchase round trip: price-menu callback data, `buy_rate`, then `successful_pay`;
  - the one-hour channel-subscription cache;
  - the assistant command table;
  - the referral link and the referral bonus.
- **Storage** (`Database`, database.py): the `users`, `chat_history` and `assistants` tables as in-memory state of a class `Db`. Every operation is a method with `modifies`. When there is no connection, each operation returns its failure value or raises, as the Python code does.
- **Tool calling** (`ToolCalling`, newSDK/OPFC.py):
  - `run_fc`, which makes one request with the `web_search` tool, appends one tool message per search call, and makes a second request without tools;
  - the web search: it strips a greeting from the query, tries the first ten results until three pages load, and renders the pages with their sources;
  - the small helpers of the legacy client wrapper.
- **Trial subscriptions** (`Payments`, payments.py):
  - the end of the three-day `plus_trial`: a downgrade to `free`, a failed automatic charge, or a 30-day `plus_month`;
  - the daily sweep over trial accounts, which turns a failure for one account into a `critical_error` event and moves on;
  - the direct `set_user_subscription`.

`Common` holds the shared string and number vocabulary: lower-casing, `strip()`, `str(int)` and `int(str)`.

The following outside services become function-typed parameters that return what the real service would:

- the chat model, for both the legacy `openai.ChatCompletion` and the function-calling client;
- the search engine;
- the page fetcher;
- the YooKassa gateway;
- Telegram's `get_chat_member`.

Whether Telegram accepted the low-balance warning is the parameter `delivered`. The clock is the parameter `now`, in seconds. Dates are whole days (`DayOf(now)`).

Each state-changing method is proved equal to a function of the old state: `TokenCheck`, `DebitEffect`, `TextMessage`, `TrialExpiration`, `DailyRun`, `Recent`, `ConfigOf`, `WithoutChat` and others. The bot's promises are proved as lemmas and `ensures` clauses about those functions.

## Model

| member | source | states |
|---|---|---|
| Common.Lower | newSDK/OPFC.py:252 | `message.lower()` keeps the length and lower-cases every Latin and Cyrillic capital, position by position |
| Common.Occurs | newSDK/OPFC.py:252 | `kw in s` holds exactly when the keyword occurs at some index of s |
| Common.DecimalRoundTrip | main.py:942-943 | `int()` of `str(n)` gives back n for every integer, negative ones included |
| Database.Upsert | database.py:149-182 | after the upsert the table has the record's id; that row reads back as exactly the saved record; every other user's row is untouched; an existing row keeps every column outside the ten saved ones |
| Database.Window | database.py:207-216 | at most `limit` messages, and exactly `limit` when there are that many; they are the newest ones (a suffix of the chat) in oldest-to-newest order |
| Database.ChatOfConcat | database.py:195-198 | the messages of a chat in a log made of two parts are those of the first part followed by those of the second |
| Database.ChatOfOther | database.py:195-198 | a row stored in another chat leaves a chat's history unchanged |
| Database.StoredIsNewest | database.py:191-216 | after a message is stored, the chat's history (any positive limit) ends with that role and content, preceded by the newest `limit - 1` earlier messages |
| Database.WithoutChat | database.py:222 | the rows left by the DELETE belong to other chats only, and every other chat keeps exactly its messages |
| Database.ClearedChatIsEmpty | database.py:218-225 | after clearing, the chat's history is empty and every other chat's history is as before |
| Database.PromptFor | main.py:951-954 | the configured prompt of the chosen assistant; "Вы просто бот." when no assistant is chosen or the key is not configured |
| Database.ConfigOfLastRowWins | database.py:33-42 | a key is in the assistants dictionary exactly when some row carries it, and its entry is the name and prompt of the last such row |
| Database.Db.LoadAssistantsConfig | database.py:26-51 | the rows folded into the dictionary in query order; an empty dictionary when the query cannot run |
| Database.Db.CreateDefaultUser | database.py:57-100 | a new id gets the row with 20000 tokens, today as last_reset, zero spend and counters, no referrer and plan 'free', and that record is returned; an existing id or no connection returns None and writes nothing |
| Database.Db.LoadUserData | database.py:102-141 | a stored user's record is returned and nothing changes; a missing user gets the default row inserted and still yields None; no connection yields None |
| Database.Db.SaveUserData | database.py:143-186 | with a connection it returns True and the table is the upsert of the record; without one it returns False and nothing changes |
| Database.Db.StoreMessage | database.py:191-201 | exactly one row (chat, role, content) is appended at the end of the log; no connection raises and appends nothing |
| Database.Db.GetChatHistory | database.py:203-216 | the `limit` newest messages of the chat, oldest first, through a walk of the log from the newest row; no connection raises |
| Database.Db.ClearChatHistory | database.py:218-225 | the log becomes the log without the chat's rows; no connection raises and deletes nothing |
| Ledger.TokenCheck | main.py:504-600 | None (raised, all UPDATEs dropped) exactly when a balance of at most 5000 meets a NULL last_token_update; only the four quota columns change; at most 5000 ends on 'free'; on a new day it refills to 30000 and stamps today; a paid plan below 3000 ends at 0 even after a refill; last_warning_time changes exactly when all of these hold: fewer than 15000 tokens, a paid plan read at the start, no warning within 86400 s, and the send succeeded; it then becomes now |
| Ledger.CheckAndUpdateTokens | main.py:504-600 | the UPDATEs applied in source order leave the user's row as TokenCheck says; a raise changes nothing; a missing user returns with nothing changed; no other account or table changes |
| Ledger.SecondCheckSameDay | main.py:528-570 | once checked, a free account or one at most 5000 is unchanged by another check later the same day |
| Ledger.CutoffOverridesRefill | main.py:528-581 | a paid account below 3000 on a new day ends on 'free' with 0 tokens and today's stamp: the last UPDATE overrides the refill; a second check that day leaves it there |
| Ledger.DebitEffect | main.py:925-939 | the check runs first; the debit raises exactly when there is no connection, no row (load_user_data then inserts one) or the check raises; it is refused exactly when the checked balance is below input+output, and then keeps only the check's changes; an accepted debit lowers daily_tokens by exactly input+output to a value that is never negative, raises input_tokens and output_tokens by exactly those amounts, and leaves every other column as the check left it; other accounts never change |
| Ledger.UpdateUserTokens | main.py:925-939 | the check, the reload and the save together have exactly DebitEffect's outcome and table |
| Ledger.DebitsAccumulate | main.py:925-939 | successive accepted debits of a free account that stays above 5000 drain it by exactly their sum and raise input_tokens by the same |
| Ledger.NullStampLocksAccount | main.py:528-537 | an account with a NULL last_token_update and at most 5000 tokens, as a default row becomes once drained, raises on every debit and keeps its row, so it stays locked |
| Ledger.AddSpent | main.py:973-976 | only the sender's total_spent changes, and it does not decrease |
| Ledger.Request | main.py:951-959 | the model gets the chat's 10 newest messages, oldest first, then one user turn built from the assistant's prompt, the text and the "Assistant:" cue |
| Ledger.TextMessage | main.py:945-985 | the model is called exactly when the text's debit is accepted, and then with exactly Request; a refused text debit replies the quota message and a raised one raises, with the table the debit left and nothing logged; once the model is called the sender's input_tokens stays raised by the text's length, whatever follows; a failed completion replies the error text, logs nothing and leaves the table exactly as the text debit left it (no refund); an answer goes on as AnswerTurn says, on the table after the text debit; the log changes only by a user turn then an assistant turn for a paid answer, and then output_tokens rose by the answer's length; no other account changes |
| Ledger.AnswerTurn | main.py:967-982 | the answer's length is charged with no refund of the text: the sender's input_tokens is kept in every case; a paid answer is returned and logged after the user turn, and the table is the answer debit's table with the spend of both texts added; a refused charge replies the too-long message, logs nothing and keeps the sender's row apart from the check's quota columns; a raised charge replies the error text and logs nothing; only the sender's row changes |
| Ledger.ProcessTextMessage | main.py:945-985 | the reply, the request sent, the users table and the log are exactly those of TextMessage |
| Ledger.BuildMessages | main.py:951-959 | the input text and message list built from the database are those of InputText and Request |
| Ledger.RecordAnswer | main.py:967-982 | the tail after the model's answer has exactly AnswerTurn's effect |
| Ledger.SaveSpendAndLog | main.py:973-980 | total_spent rises as AddSpent says, and the log gains the user turn then the answer |
| Ledger.DocumentMessage | main.py:869-873 | with no model call nothing is logged; an answered document has cost twice its length on input_tokens, because the handler charges it and process_text_message charges it again |
| Ledger.ChargeThenProcess | main.py:869-873 | the document path's effect is exactly DocumentMessage |
| Ledger.VoiceMessage | main.py:1022-1040 | a stripped transcript longer than 1000000 characters, or an empty one, gets its warning with nothing charged or stored; an answered transcript has cost twice its stripped length on input_tokens |
| Ledger.ProcessTranscript | main.py:1022-1040 | the voice path after transcription has exactly VoiceMessage's effect |
| Ledger.LastField | main.py:436 | `split("_")[-1]`: the longest suffix with no separator, preceded by a separator when it is not the whole string |
| Ledger.CallbackRoundTrip | main.py:435-446 | the callback data `buy_rate_{price}` of a price button parses back to an invoice of price * 100 kopecks |
| Ledger.SelectPlan | main.py:457-463 | the first plan, in TOKEN_PLANS order, whose price (0 when missing) equals the paid amount / 100; None exactly when no plan matches |
| Ledger.PurchaseRoundTrip | main.py:456-474 | paying the invoice of any priced plan on the menu selects that same plan |
| Ledger.SelectedAmounts | main.py:29-35 | exactly the amounts 0, 14900, 34900, 64900 and 149900 kopecks select a plan; 0 selects "free", whose price is missing |
| Ledger.FirstMatchingPlan | main.py:459-463 | the loop with `break` selects what SelectPlan selects |
| Ledger.Credited | main.py:465-476 | the selected plan's name becomes the user's plan and its tokens are added to the balance; nothing else changes; no plan, no connection or no such user changes nothing |
| Ledger.CreditPlan | main.py:465-476 | the UPDATE leaves the table as Credited says |
| Ledger.SuccessfulPay | main.py:456-483 | the plan selected is SelectPlan's, and the table is credited with it |
| Ledger.SubscriptionCache.Check | main.py:212-239 | an entry younger than 3600 s is answered without asking Telegram and the cache is unchanged; otherwise Telegram is asked; a status is cached with now and answers whether it is member, administrator or creator; an error answers True and caches nothing |
| Ledger.SubscriptionCache.Recheck | main.py:253-262 | the user's entry is dropped first, so Telegram is always asked, with Check's answer and caching |
| Ledger.FullAssistantKey | main.py:122-158 | the lookup is defined exactly on the twenty commands the assistant handler is registered for |
| Ledger.ReferralLink | main.py:942-943 | the link starts with the bot's start URL, and `int()` of the start parameter gives back the user id |
| Ledger.CreditReferrer | main.py:690-701 | a referrer text that `int()` rejects changes nothing; a found referrer gets exactly one more invited user and 100000 more tokens; a referrer that is not found gets a default row, as load_user_data creates one, and no bonus |
| Ledger.Welcome | main.py:680-698 | a sender load_user_data finds is registered and nothing is credited or written; otherwise the sender's default row is inserted first, and then a start parameter that `int()` rejects changes nothing more, the id of a found account gives it one more invited user and 100000 tokens, and an unknown id gets a default row and no bonus; so the sender's own id credits the sender |
| Payments.Downgraded | payments.py:41-49 | plan 'free' and trial_used TRUE; the subscription dates and every other column are kept |
| Payments.Extended | payments.py:86-99 | plan 'plus_month', start at today's midnight, end exactly 30 days later, trial_used TRUE; no other column changes |
| Payments.TrialExpiration | payments.py:12-113 | no connection raises and writes nothing; a missing user yields None and leaves the default row load_user_data inserts; a user that is not on an expired plus_trial yields None and writes nothing; no other account changes; only plan, dates and trial_used can change; a failed charge or a gateway error writes nothing; a downgrade or an extension leaves trial_used TRUE and the plan off plus_trial; an expired trial without a saved method or auto-renewal yields trial_no_autopay with the row's method and flag and is downgraded; with both, a gateway error raises and writes nothing, and a charge whose status is not 'succeeded' yields autopay_failed with that payment's id and status and writes nothing; a charge that succeeds yields subscription_extended with the gateway's payment id, today's midnight and 30 days later, and stores exactly the Extended row |
| Payments.ProcessTrialExpiration | payments.py:12-113 | the outcome and the table are exactly TrialExpiration's |
| Payments.TrialUsedNeverReset | payments.py:41-99 | an account whose trial is used keeps trial_used TRUE whatever the outcome |
| Payments.SettledTrialIsQuiet | payments.py:20-35 | a trial settled by downgrade or extension is not touched again: the next run yields None and writes nothing |
| Payments.FailedChargeIsRetried | payments.py:78-84 | a charge whose status is not 'succeeded' writes nothing, and the account is still an expired trial with autopay, so a later run requests the same charge again; that run's outcome is decided by the new payment's status and carries its id |
| Payments.ExtensionOnlyAfterCharge | payments.py:37-107 | the subscription is extended exactly when the trial has expired, a payment method is saved, auto-renewal is on and the charge succeeded; the extension starts today and lasts 30 days, and the stored row is plus_month with exactly the event's dates |
| Payments.TrialExpirationAsWritten | payments.py:12-28 | as written, no present account ever gets an event, and the table keeps every row it had |
| Payments.AsWrittenTrialNeverSettles | payments.py:20-35 | an expired trial with autopay and a successful charge: the code as written returns None and writes nothing, where the corrected reading extends it to plus_month |
| Payments.TrialIds | payments.py:124-130 | the SELECT returns only plus_trial accounts of the row order, and every plus_trial account in it |
| Payments.TrialIdsConcat | payments.py:124-130 | the SELECT keeps row order: the ids of two stretches of rows are those of the first stretch, then those of the second |
| Payments.TrialIdsSingle | payments.py:124-130 | a single row is selected exactly when its account is on plus_trial |
| Payments.TrialIdsSnoc | payments.py:124-130 | one more row adds its id at the end exactly when its account is on plus_trial |
| Payments.TrialIdsOnce | payments.py:124-130 | over rows without repeats each selected id appears once, and when the rows are the whole table every plus_trial account is selected |
| Payments.EventsOf | payments.py:133-142 | None adds no event; a returned event is passed on as it is; a raise adds critical_error with the account's id |
| Payments.DailyRun | payments.py:132-144 | the sweep emits no more events than there are selected accounts (order, isolation and one event per account are the lemmas below) |
| Payments.Settle | payments.py:133-142 | one account adds at most one event, and it is about that account |
| Payments.DailyRunSnoc | payments.py:132-144 | one more id settles that account on the table the sweep so far left, and its events come after the earlier ones |
| Payments.DailyRunConcat | payments.py:132-144 | the sweep over two stretches of ids is the sweep of the first, then the sweep of the second on the table it left, events in that order |
| Payments.DailyRunRaisedIsCritical | payments.py:133-142 | an account whose settlement raises adds exactly critical_error for its id at its place, and the sweep goes on with the rest of the ids from the same table |
| Payments.DailyRunOnePerAccount | payments.py:132-144 | over distinct ids no account has two events |
| Payments.DailySweepEvents | payments.py:124-144 | over a row order without repeats the events name plus_trial accounts only, each at most once |
| Payments.DailyTrialCheck | payments.py:116-147 | no connection raises with no events and no writes; otherwise the events and the table are the sweep over the selected accounts, in row order, with a failure for one account turned into its critical_error and the loop going on; with the SELECT listing each account once, the events name only plus_trial accounts, each at most once |
| Payments.DailyEventsAreAboutSelected | payments.py:132-144 | every event of a sweep is about one of the selected accounts |
| Payments.DailyKeepsTrialUsed | payments.py:132-144 | a sweep never resets trial_used and never removes an account |
| Payments.Subscribed | payments.py:158-168 | the plan is stored with start at today's midnight and end exactly `days` days later; trial_used and every other column are kept |
| Payments.SetUserSubscription | payments.py:155-172 | an existing account gets Subscribed's row and nothing else changes; an unknown id changes nothing; no connection raises |
| ToolCalling.NeedsWebSearch | newSDK/OPFC.py:250-252 | true exactly when one of the six keywords is a substring of the lower-cased message |
| ToolCalling.AnyKeyword | newSDK/OPFC.py:252 | `any(...)` over the keywords from index i is true exactly when one of them occurs in the text |
| ToolCalling.Block | newSDK/OPFC.py:83-86 | a block starts with "[role]\n" and ends with the content, a missing key read as "" |
| ToolCalling.MessagesToPrompt | newSDK/OPFC.py:78-87 | "" for no messages; otherwise the blocks joined by blank lines, so the prompt opens with the first message's "[role]\n" |
| ToolCalling.PromptConcat | newSDK/OPFC.py:78-87 | the prompt of two conversations put together is their prompts with one blank line between them |
| ToolCalling.NormalizeResponse | newSDK/OPFC.py:38-60 | an object response keeps its choices; a dictionary gives one content per choice, in order: for a choice whose message is a dictionary, the message's content, else the message's text, else ""; for any other choice, the choice's text, else ""; anything else becomes one choice holding str(resp) |
| ToolCalling.Formatted | newSDK/OPFC.py:99-110 | every kept result has a title and a link not ending in "wiktionary.org/wiki/", and there are no more results than hits |
| ToolCalling.FormattedConcat | newSDK/OPFC.py:99-110 | the filter works hit by hit: kept hits stay once each and in order, and dropped ones leave no trace |
| ToolCalling.CallSearchApi | newSDK/OPFC.py:93-114 | the formatted results of the search, in the engine's order; [] when the search raises |
| ToolCalling.FetchPageContent | newSDK/OPFC.py:116-125 | at most 4000 characters; a prefix of the page text, the whole text when it fits; "" on any failure |
| ToolCalling.FirstFiller | newSDK/OPFC.py:129-132 | the first alternative, in pattern order, that matches at the start case-insensitively and is followed by whitespace; none exactly when no alternative matches |
| ToolCalling.SearchQuery | newSDK/OPFC.py:129-133 | the search query always ends with " lang:ru" |
| ToolCalling.FindMeLosesOnlyFind | newSDK/OPFC.py:129-132 | since alternatives are tried in order, "найди мне X" loses only "найди", and "мне" stays in the query |
| ToolCalling.FirstFillerAt | newSDK/OPFC.py:129-132 | an alternative that matches with none matching before it is the one removed |
| ToolCalling.Candidates | newSDK/OPFC.py:142 | the candidates are the first ten results, or all of them when there are fewer |
| ToolCalling.Harvest | newSDK/OPFC.py:142-149 | the loop keeps at most three pages and requests no more links than there are candidates |
| ToolCalling.HarvestIsFirstLoaded | newSDK/OPFC.py:142-149 | the pages kept are exactly the first three candidates whose page loads, in result order |
| ToolCalling.LoadedPagesLoaded | newSDK/OPFC.py:144-146 | every page kept is non-empty and is the fetched content of its own link |
| ToolCalling.StopsAtLastNeededPage | newSDK/OPFC.py:142-149 | the loop depends only on the links it requests, and once three pages are kept the last link requested is one that loaded |
| ToolCalling.FetchPages | newSDK/OPFC.py:138-149 | the loop's page_texts and successful_links are the blocks and sources of the harvested pages, with the number of requests made |
| ToolCalling.WebSearchText | newSDK/OPFC.py:127-159 | the text returned for a query is never empty |
| ToolCalling.PerformWebSearch | newSDK/OPFC.py:127-159 | the method returns WebSearchText, never empty, after at most ten page requests |
| ToolCalling.WebSearchSources | newSDK/OPFC.py:135-159 | the fixed message when the search finds nothing, the other fixed message when no page loads; otherwise the rendering of the first at most three loaded pages, whose sources block lists exactly those links in order |
| ToolCalling.WebCalls | newSDK/OPFC.py:220-221 | exactly the web_search calls: each kept call is one of the calls and named web_search, and every web_search call is kept |
| ToolCalling.WebCallsConcat | newSDK/OPFC.py:220-221 | the loop keeps call order: the web_search calls of two stretches of calls are those of the first, then those of the second |
| ToolCalling.WebCallsSingle | newSDK/OPFC.py:220-221 | a single call is run exactly when it is named web_search |
| ToolCalling.ToolMessages | newSDK/OPFC.py:220-235 | the loop raises exactly when some web_search call has arguments that are not an object or lack "query"; otherwise one message per web_search call |
| ToolCalling.ToolMessagesContents | newSDK/OPFC.py:220-235 | the k-th tool message answers the k-th web_search call: its id, the name web_search, and the search for its query |
| ToolCalling.ToolMessagesPrefix | newSDK/OPFC.py:220-235 | a call that raises stops the loop: the whole list of calls raises |
| ToolCalling.ToolResults | newSDK/OPFC.py:220-235 | the loop raises exactly when ToolMessages does, and otherwise appends exactly ToolMessages' list |
| ToolCalling.NextToolMessage | newSDK/OPFC.py:221-235 | one turn of the loop extends the tool messages of the calls so far by the next call's, or raises exactly where ToolMessages does |
| ToolCalling.AnswerToolCall | newSDK/OPFC.py:223-235 | the tool message carries the call's id, the name web_search and the search text for its query |
| ToolCalling.RunFc | newSDK/OPFC.py:183-247 | one or two requests; the first is [system prompt, user query] with the tools offered; with no tool calls the first content is returned unchanged; with tool calls, the second request carries the first messages, the model's message, then the tool messages, and no tools; its content is the answer; a raise in the loop or in either call ends the run |

## Left out

- Telegram handlers, keyboards, menus, the profile text, broadcasts, the `typing` loop and the Lambda `handler`: these are user interface and I/O. The texts the bot sends are not part of the state.
- Decoding of pdf, docx and voice files and the Whisper transcription: these are foreign libraries. The voice path starts from the transcript.
- The OpenAI clients, their version detection and `_create_completion`: the chat model is a parameter. HTTP fetching and BeautifulSoup extraction are left out too; the fetcher is a parameter that returns the page text or fails.
- The search engine is a parameter. In this snapshot `DDGS` is never imported, so `_call_search_api` always takes its `except` branch and returns []. The model keeps the branch that formats results.
- `Payment.create`, its receipt, the e-mail address and `uuid`: the gateway is a parameter answering a charge request with a payment id and status, or an error.
- `run_scheduler`: it calls modules that are never imported, so nothing about it can be modelled.
- The order of rows from an SQL query without ORDER BY is a parameter (`rowOrder` in Payments.DailyTrialCheck). The chat log's insertion order stands for its `NOW()` timestamp order.
- Several processes using the database at once, and the races of the read-then-write pattern: calls are sequential.
- Ledger.AddSpent: `total_spent` is added as an exact real number. Floating-point rounding of `(input + output) * 0.000001` is not modelled.
- Payments.EventsOf: the critical_error event keeps the account id but not the `"error": str(e)` text of the exception; exception messages are not part of the model.
- Ledger.TextMessage: both debits of a turn, and the check inside each, use one `now` and one `delivered`. The code reads the clock in each check and may send a warning in each, so a turn that crosses midnight, or a second warning after a first one Telegram refused, is not modelled.
- ToolCalling.NormalizeResponse: an absent key and a key present with a JSON null are both None in the model. With `"content": null`, Python's `.get` returns None instead of falling back to "text", and the model gives the text.
- ToolCalling.Block: a missing role or content is rendered as "". A role or content present with a null value is rendered by Python's f-string as "None" ("[None]"), which is not modelled.
- Ledger.SelectPlan: `total_amount / 100` is compared as an exact quotient. A float that rounds to a price is not modelled.
- Common.Lower: lower-casing covers the Latin and Cyrillic alphabets only. `IsSpace` covers ASCII whitespace only.
- Common.ParseInt: this is `int()` on ASCII digits, without the surrounding whitespace, the digit-group underscores and the digits of other scripts (`int("٤٢")` is 42) that Python also accepts.
- Ledger.TokenCheck: a `last_token_update` stored as a string is read as the date `strptime` would give. A string that `strptime` rejects is not modelled.
- Ledger.SuccessfulPay: a missing connection changes nothing in the model, where the Python code raises. The success message is not modelled.
- Database.Db.LoadUserData: `last_reset` and `total_spent` come back as `str(date)` and `float(...)`. The model keeps them as a day and a real number.
- Payments.TrialExpiration: models the function as it was evidently meant, reading the trial columns from the account's row; the code as written is Payments.TrialExpirationAsWritten (see Findings).
- Payments.TrialExpiration: the subscription dates are timestamps and written dates are midnight instants. With DATE columns, the comparison at payments.py:32 would raise.
- The call `create_default_user(user_id, referrer_id)` at main.py:704 passes two arguments to a one-argument function. The referral bonus before it (Ledger.CreditReferrer) is modelled; the registration after it is not.
- `last_token_update` (read by the check) and `last_reset` (written by database.py) are separate columns here, as they are in the code.
- The second `successful_pay` at main.py:666-668 only sends a message and is not modelled.
- `get_user_assistant` and the `load_assistants_config` of run_fc come from assistance.py, which is not part of this model. The chosen assistant key and the assistants dictionary are parameters. main.py:16-17 imports database and then assistance with `*`, so an assistance.py `load_assistants_config` would shadow database's at main.py:951; Ledger.BuildMessages reads database.py's assistants table, assuming the two give the same dictionary.
- ToolCalling.ToolMessages: a "query" argument that is not a string is not modelled. Arguments that are not a JSON object, whether malformed or another JSON value, are one case: the loop raises.

## Findings

| source | as written | input that shows it | evidently intended | confidence | as-written member | corrected member |
|---|---|---|---|---|---|---|
| payments.py:20-28 | the trial columns are read with `.get` from load_user_data's record, which carries none of them, so `start_date` is always None and every call returns None | a plus_trial account whose trial began four days ago, with a saved payment method, auto-renewal on and a charge that succeeds | read subscription_start_date, payment_method_id and auto_renewal from the account's row | high; not executed | Payments.TrialExpirationAsWritten, Payments.AsWrittenTrialNeverSettles | Payments.TrialExpiration |
