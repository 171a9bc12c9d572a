# zapswitch_bot core, modelled in Dafny

zapswitch_bot is a Telegram bot. It warns its subscribers shortly before a
scheduled power-outage interval begins. The intervals come from a public
page that lists them as text such as `1.2 07:00–09:00`. This project
models the engine behind the bot and proves properties of that model:

- **The subgroup canonicaliser** `format_subgroup` (`subgroup.dfy`). It
  turns typed text such as `"  2 . 3 "` into the key `"2.3"`, or rejects it.
- **The interval extractor** (`intervals.dfy`). This is the `finditer`
  scan of `_interval_re` over the page text. It yields
  `(subgroup, start, end)` triples in document order.
- **Clock reading and the key** (`clock.dfy`). This covers
  `strptime("%H:%M")`, `strftime("%H%M")`, and the dedup key
  `date_subgroup_HHMM`.
- **The periodic check** `check_and_notify` (`notifier.dfy`, with its
  properties in `notify_facts.dfy`):
  - it reads the triples as times;
  - for every subgroup with verified subscribers, it warns each
    subscriber about each interval that starts within the next N minutes;
  - it records each key so that the key is announced only once.
- **The `/next` resolver** (`resolver.dfy`). It shows the user the first
  interval of their own subgroup. Failing that, it shows the first
  interval of another subgroup of the same group. Failing that, it shows
  the sorted subgroups the page lists.
- **Registration** (`registration.dfy`). This covers `/register`, the menu
  callbacks, the text router and the re-registration confirmation. It
  works over the user store and each chat's `user_data` session.
- **The store** `database/db.py` (`db.py` → `db.dfy`). It is a class that
  holds:
  - the `users` table, keyed by chat id;
  - the `notified` table, from key to timestamp;
  - the `addr_map` table, with its AUTOINCREMENT counter.

Supporting modules:

- `wrappers.dfy`: `Option`.
- `text.dfy`: the character classes, `.strip()` and `.split(c)[0]`.
- `sorting.dfy`: `sorted(set(...))` on strings, and ascending integer keys.

The imperative parts of the source are methods proved against
specification functions:

- the extraction loops;
- the three nested loops of the periodic check;
- the store's operations;
- the bot's handlers, which change the store and the session.

The lemmas state what the source promises about those functions.

Inputs the program takes from outside are parameters:

- **The page.** Its text is a parameter, or `None` when fetching it failed.
- **The current time.** It is the number of microseconds since midnight on
  an opaque date string.
- **The lead time.** `NOTIFY_MINUTES_BEFORE` is the `lead` parameter, and
  its default of 30 is a named constant.
- **Send failures.** Which Telegram sends fail is a set of
  (chat id, key) pairs.
- **Subgroup order.** Python iterates the set of subgroups in an order the
  program does not control. The periodic check's method picks each next
  subgroup arbitrarily and returns the order it took. The lemmas hold for
  every order.

## Model

| member | source | states |
|---|---|---|
| `Subgroup.FormatAccepts` | bot.py:73 | Every text of the shape blanks, digits, blanks, dot, blanks, digits, blanks is accepted, with result `g + "." + s` made of its two numbers |
| `Subgroup.FormatSound` | bot.py:90-100 | An accepted text has that shape, and the result is built from the two numbers it contains |
| `Subgroup.FormatRejects` | bot.py:90-100 | A rejected text has no decomposition into that shape |
| `Subgroup.FormatIdempotent` | bot.py:90-100 | The canonical form is canonical: canonicalising it again returns it unchanged |
| `Subgroup.GroupIdOfFormat` | bot.py:117 | The group id of a canonical key is its non-empty first number |
| `Subgroup.CanonicalGroupId` | bot.py:117 | A canonical key has a non-empty all-digit group id |
| `Subgroup.ExampleSpaced` | bot.py:90-100 | `"  2 . 3 "` and `"2 . 3"` both become `"2.3"` |
| `Subgroup.ExampleNoDot` | bot.py:90-100 | `"1"`, `"abc"` and `""` are rejected |
| `Subgroup.ExampleTwoDots` | bot.py:90-100 | `"1.2.3"` is rejected |
| `Intervals.TimeEndComplete` | bot.py:68-70 | `\d{1,2}:\d{2}` is recognised wherever it occurs, with its one possible end |
| `Intervals.TailAtSound` | bot.py:68-70 | What follows the subgroup is recognised only when it really has the pattern's shape: optional separator, time, dash and time |
| `Intervals.TailAtComplete` | bot.py:68-70 | Every occurrence of that shape is recognised, with exactly its positions |
| `Intervals.BacktrackGreatest` | bot.py:68-70 | Backtracking on the subgroup's second number stops at the longest prefix that leaves a match |
| `Intervals.MatchAtSound` | bot.py:68-70 | The match reported at a position is a match of the pattern |
| `Intervals.MatchAtGreatest` | bot.py:68-70 | Every match at a position is found; the reported one has the longest subgroup, and it is the only match with that subgroup end |
| `Intervals.Search` | bot.py:411 | The search reports a match that starts at or after the position, and it is the one reported at its start |
| `Intervals.SearchLeftmost` | bot.py:411 | No match starts between the search position and the reported match, or anywhere after it when nothing is reported |
| `Intervals.ScanSearch` | bot.py:411 | The i-th match of the scan is what the search finds from the end of the previous match |
| `Intervals.ScanSound` | bot.py:411 | The scan reports genuine matches in increasing, non-overlapping order |
| `Intervals.ScanLeftmost` | bot.py:411 | The scan skips no match between consecutive reported matches, nor after the last one |
| `Intervals.ScanNothing` | bot.py:411 | A text in which the pattern matches nowhere yields no triples, without error |
| `Intervals.TripleOfMatch` | bot.py:412-415 | The subgroup capture has no blanks around it, so `.strip()` keeps it as captured |
| `Intervals.ExtractCaptures` | bot.py:410-415 | The i-th triple holds the subgroup, start and end captures of the i-th match, verbatim |
| `Intervals.ExtractIntervals` | bot.py:410-415 | The loop appends exactly one triple per match, in document order |
| `Intervals.AppendTriples` | bot.py:411-415 | Appending the triples of the given matches yields them in the matches' order |
| `Intervals.WholeMatch` | bot.py:410-415 | A text that is exactly one match yields exactly that match's triple |
| `Intervals.ExampleDash` | bot.py:67-70 | `1.2 07:00–09:00` yields `("1.2", "07:00", "09:00")` |
| `Intervals.ExampleColon` | bot.py:67-70 | `1.2: 07:00 - 09:00` yields the same triple |
| `Clock.StrptimeMatch` | bot.py:482 | `%H:%M` matches only an hour below 24 and a minute below 60 |
| `Clock.ParseCaptured` | bot.py:480-492 | A captured `h:mm` or `hh:mm` parses iff its hour is at most 23 and its minute at most 59, and then gives 60·h + m |
| `Clock.ParsePadding` | bot.py:482 | `7:00` and `07:00` parse to the same time |
| `Clock.ExampleTimes` | bot.py:480-492 | `07:00` is 420, `7:05` is 425 and `23:59` is 1439; `24:00`, `07:60` and `""` raise |
| `Clock.HhmmRoundTrip` | bot.py:501 | `%H%M` is four digits from which the time can be read back |
| `Clock.HhmmInjective` | bot.py:501 | Different times give different `%H%M` |
| `Clock.KeyInjective` | bot.py:501 | On one date, a key names exactly one subgroup and one start time |
| `Clock.KeyPadding` | bot.py:501 | `7:00` and `07:00` on the page give the same key |
| `Notifier.IntervalOf` | bot.py:480-492 | A triple is dropped iff its start does not parse; otherwise it keeps its subgroup and start, and its end is the parsed end or, when that does not parse, start + 120 minutes |
| `Notifier.ParseIntervals` | bot.py:475-492 | The loop keeps the readable triples in page order |
| `Notifier.SendAll` | bot.py:510-518 | Every chat id gets one attempt, in order, and a failure does not stop the loop |
| `Notifier.NotifyInterval` | bot.py:501-519 | One interval: the store follows the specification step, old keys keep their timestamps, and nothing else in the store changes |
| `Notifier.NotifySubgroup` | bot.py:496-519 | One subgroup: it is skipped without subscribers, and otherwise its intervals are handled in page order |
| `Notifier.NotifyAll` | bot.py:494-519 | Each page subgroup is visited once, in an order the method chooses, and the events and recorded keys follow that order's specification run |
| `Notifier.CheckAndNotify` | bot.py:463-521 | An empty URL or a failed fetch does nothing; otherwise the run follows the specification over the page's readable triples, and only `notified` changes, by adding keys |
| `NotifyFacts.RunIntervalsSeen` | bot.py:500-519 | After a subgroup's intervals, the recorded keys are the earlier ones plus the keys of its due intervals |
| `NotifyFacts.StepSubgroupSeen` | bot.py:496-519 | A subgroup adds the keys of its due intervals when it has subscribers, and nothing otherwise |
| `NotifyFacts.RunSubgroupsSeen` | bot.py:494-519 | The recorded keys after any order are the earlier ones plus the due keys of the visited subgroups that have subscribers |
| `NotifyFacts.RecordedKeys` | bot.py:494-519 | After a run, the recorded keys are exactly the earlier ones plus the keys of due intervals whose subgroup has verified subscribers, in any order |
| `NotifyFacts.LogFanout` | bot.py:510-519 | Announcing a fresh key keeps the log sound: each key marked once, each (chat, key) attempted once, and marks after attempts |
| `NotifyFacts.RunSubgroupsLog` | bot.py:494-519 | Every run keeps the log sound |
| `NotifyFacts.MarkedOnce` | bot.py:500-519 | In one run, each key is marked at most once, never when it was already recorded, and after every attempt for it; no chat is tried twice for one key |
| `NotifyFacts.Attempted` | bot.py:496-518 | The send attempts are exactly the pairs (subscriber, key) for due intervals whose key was not recorded before, whatever order the subgroups are visited in |
| `NotifyFacts.Isolated` | bot.py:510-519 | Failed sends change nothing but their own outcome: the attempts, the marks and the recorded keys are those of the run where every send succeeds |
| `NotifyFacts.RepeatIdle` | bot.py:500-502 | A duplicate of an interval already handled in the run does nothing |
| `NotifyFacts.SecondRunQuiet` | bot.py:500-519 | A second run over the same page and store sends nothing and marks nothing, in whatever order |
| `NotifyFacts.NoSubscribersSkipped` | bot.py:496-498 | An interval of a subgroup without verified subscribers causes no attempt, and its key is recorded afterwards only if it was recorded before |
| `Store.Database.SaveUserHashed` | database/db.py:152-171 | Upsert keyed by chat id: the row holds exactly the passed fields with `address` NULL, and every other row and table is unchanged |
| `Store.Database.GetUserByChat` | database/db.py:174-183 | The row of that chat id, or `None` iff there is none |
| `Store.Database.UsersBySubgroup` | database/db.py:186-193 | Exactly the chat ids whose row has that subgroup and `verified = 1`, ascending |
| `Store.Subscribers` | database/db.py:189-191 | Its elements are exactly the verified subscribers of the subgroup, ascending |
| `Store.FirstChatIds` | database/db.py:200 | At most `limit` chat ids (all of them for a negative limit), ascending, and exactly the smallest ones |
| `Store.Database.ListAllUsers` | database/db.py:196-205 | The selected columns of the rows with the smallest chat ids, ascending, at most `limit` |
| `Store.Database.MarkNotified` | database/db.py:211-218 | The key maps to the given timestamp, or to the clock when none is given; nothing else changes |
| `Store.MarkThenCheck` | database/db.py:211-227 | After marking, `was_notified` is true for the key and unchanged for every other key |
| `Store.Database.InsertAddrMapRecord` | database/db.py:109-117 | The new row gets the next id the counter issues, which no row held before; the other tables are unchanged |
| `Store.Database.ClearAddrMapBySource` | database/db.py:120-125 | Exactly the rows whose `source_url` equals the argument are gone, where a NULL on either side never matches; the others are untouched |
| `Store.Database.LoadAddrMapById` | database/db.py:137-146 | The row with that id, or `None` iff there is none |
| `Store.Database.LoadAllAddrMapRecords` | database/db.py:128-134 | All rows, in ascending id order |
| `Resolver.FirstExact` | bot.py:422-431 | The least index of a triple of the user's subgroup, or none when no triple has it |
| `Resolver.FirstInGroup` | bot.py:425-438 | The least index of a triple that is the group itself or starts with `group + "."`, or none |
| `Resolver.Subgroups` | bot.py:418 | The subgroup column of the triples |
| `Resolver.Resolve` | bot.py:417-451 | An exact match iff some triple has the user's subgroup, and then the first one. Otherwise a group match iff the group id is non-empty and some triple is in the group, and then the first one. Otherwise no match, with the page's distinct subgroups strictly sorted |
| `Resolver.QueryCanonical` | bot.py:391-392 | For a registered user, the search uses the stored subgroup, and its group id whether stored or blank |
| `Resolver.NextCmd` | bot.py:373-457 | No chat: no reply. No row or no subgroup: "not set". Empty URL: "not configured". Failed fetch: an error reply. Otherwise the resolver's answer for the page |
| `Resolver.ExactBeforeGroup` | bot.py:422-435 | An exact entry wins even when an entry of the same group comes first |
| `Resolver.GroupFallback` | bot.py:425-445 | Without an exact entry, the first entry of the group is shown |
| `Resolver.PrefixNeedsDot` | bot.py:427-428 | Group 1 does not take in subgroup 10.1 |
| `Registration.GroupReply` | bot.py:361-370 | "Not registered" iff there is no row; the stored subgroup iff the row has a non-empty one; otherwise "no subgroup" |
| `Registration.RegisterFresh` | bot.py:158-167 | A chat without a subgroup is saved at once, with the key, its group id and `verified = 1`. It becomes a subscriber of that subgroup, and every other row and the session are unchanged |
| `Registration.RegisterAsks` | bot.py:116-125 | A chat with a subgroup is asked first: the store is unchanged, and the key and its group id wait in the pending slots |
| `Registration.AskThenConfirm` | bot.py:244-277 | Asking and then confirming saves the new key with its group id and `verified = 1`, subscribes the chat, and clears both slots |
| `Registration.AskThenCancel` | bot.py:279-287 | Asking and then cancelling leaves the store as it was and both slots empty |
| `Registration.ConfirmWithoutPending` | bot.py:248-256 | A confirmation with a slot missing or empty changes nothing and replies "nothing to save" |
| `Registration.TextClearsAwaiting` | bot.py:295-303 | The text router always leaves the chat not awaiting; without the flag set, it only replies "use the menu" |
| `Registration.BadTextKeepsStore` | bot.py:309-326 | Text that is not a subgroup changes neither the store nor the session |
| `Registration.RegisterOk` | bot.py:103-177 | Registration keeps every stored subgroup canonical and verified with its group id, and keeps the pending slots consistent |
| `Registration.ConfirmOk` | bot.py:244-277 | Confirmation keeps those invariants |
| `Registration.SubgroupTextOk` | bot.py:309-326 | A typed subgroup keeps those invariants |
| `Registration.MenuOk` | bot.py:201-289 | Every menu callback keeps those invariants |
| `Registration.TextOk` | bot.py:295-303 | The text router keeps those invariants |
| `Registration.RegisterCmdOk` | bot.py:332-355 | `/register` keeps those invariants |
| `Registration.RegisterCmdSpaced` | bot.py:332-355 | `/register 2 . 3` joins its arguments and assigns subgroup 2.3 to a new chat |
| `Registration.MenuThenText` | bot.py:207-326 | Pressing "register" and then typing ` 2 . 3 ` makes a new chat a subscriber of 2.3 and clears the awaiting flag |
| `Registration.Bot.RegisterOrAskConfirm` | bot.py:103-177 | The store and the chat's session become what the registration transition gives; the other tables are unchanged |
| `Registration.Bot.ConfirmYes` | bot.py:244-277 | The same, for the confirmation transition |
| `Registration.Bot.ConfirmNo` | bot.py:279-287 | Both slots are cleared and the store is unchanged |
| `Registration.Bot.SubgroupMessage` | bot.py:309-326 | The same, for the typed-subgroup transition |
| `Registration.Bot.TextRouter` | bot.py:295-303 | The same, for the text-router transition |
| `Registration.Bot.RegisterCommand` | bot.py:332-355 | The same, for the `/register` transition |
| `Registration.Bot.MenuCallback` | bot.py:201-289 | The same, for the menu transition, with `menu_next` replying what `/next` replies |
| `Sorting.SortedSet` | bot.py:418 | `sorted(set(xs))`: strictly ascending, with the same elements as `xs` |
| `Sorting.SortedUnique` | bot.py:418 | Two strictly sorted lists with the same elements are equal, so the subgroup list is determined by the page |
| `Text.Strip` | bot.py:391-392 | `.strip()` has no blank at either end, and is empty iff the text is all blanks |
| `Text.StripPadded` | bot.py:312 | Stripping removes exactly the blanks around a word |
| `Text.Before` | bot.py:392 | `.split(c)[0]` is the longest prefix without `c` |

## Left out

- The Telegram front end is left out: message wording, HTML, keyboards,
  `reply_text` and `send_message`. Replies are tagged values. A send is an
  attempt whose outcome comes from the `failures` parameter. Whether
  `update.effective_message` exists is not modelled; a reply is always
  produced.
- The HTTP fetch and HTML stripping are left out (`requests.get`,
  `raise_for_status`, BeautifulSoup). The page's plain text is a parameter.
  A failed fetch is `None`, which ends the check and gives `/next` its
  error reply.
- Exceptions other than a failed fetch and a failed send are left out, for
  example an SQLite error inside the loop. The model assumes the store
  always answers.
- Time zones are left out: `pytz`, Europe/Kyiv localisation and DST.
  `datetime.now()` is the `nowUs` parameter, in microseconds since midnight
  of the opaque `date` string. Start times are minutes on that date. An end
  time may pass midnight.
- `Store.Database.MarkNotified`: the timestamp is an integer, not the float
  `datetime.now().timestamp()`. `Notifier.CheckAndNotify` passes its
  `stamp` parameter.
- The async loop and lifecycle are left out: `notifier_loop`, `start_cmd`,
  `menu_cmd`, `main` and handler registration. They are concurrency and
  start-up plumbing, and they hold no logic.
- Environment loading is left out. `ZOE_LIST_URL` is the `url` parameter.
  `NOTIFY_MINUTES_BEFORE` is the `lead` parameter, with its default as
  `Notifier.NotifyMinutesBefore`.
- SQLite plumbing is left out: `get_conn`, `init_db` and
  `ensure_hashed_column`. The tables are maps in a class. The `raw_address`
  argument of `save_user_hashed` is not stored, as in the source.
- database/create_db.py is not part of this model.
- Only ASCII digits and whitespace are modelled. Python's `\d` and `\s`
  also accept other Unicode digits and spaces, and `$` also matches before
  a final newline; neither is modelled.
- `user_data` is modelled as one session per chat id. This assumes private
  chats, where Telegram's per-user and per-chat data coincide.
- How the username is resolved (`username or full_name or str(chat_id)`) is
  left out. Each handler receives the resulting string.
- `Store.Database.WasNotified` has no contract of its own. It is a
  membership test, and `Store.MarkThenCheck` states its behaviour.
- `Registration.Bot.Valid` requires only the store's invariant. The
  registration invariants (`SessionOk`, `Registered`) are proved
  preserved by each transition function (the `...Ok` lemmas), not carried
  as the class invariant.
- Logging is left out.
