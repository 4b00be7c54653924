# twitchqueuebot queue model

A Dafny model of the chat-queue state machine of `QueueBot` in `app.py`:
a Twitch chat bot that keeps one ordered waiting list of viewers
(`"@nick"` strings), lets viewers join it and operators open, close, pick
from and remove from it, arms a turn timer for each viewer picked, and
runs a self-rescheduling "the queue is open" reminder.

- `Bot.QueueBot` is the bot object. Its fields are the three mutable
  fields of `QueueBot.__init__`: `queue`, `queueOpen` and
  `messagesSinceReminder`. The configuration is an immutable `const`.
  `OnPubMsg` is `on_pubmsg`, `TimeUp` is the turn-timer callback and
  `Remind` is the reminder-tick callback. Each method's postcondition
  gives its new state and outputs as a function of the old state:
  `Steps.Handle` for `OnPubMsg` and `Steps.RemindTick` for `Remind`.
  The class invariant `Valid()` says the queue never holds a name twice.
- Responses are tags named after the response table (`Picked(name)`,
  `RemoveNotFound(name)`, `Show(names)`, `ShowEmpty`, …), not formatted
  template strings. A turn timer that `start_timer` arms is the output
  `TurnTimer(user, seconds)`. A reminder chain started by `open` is a
  boolean output. A reschedule requested by a tick is also a boolean output.
- `Chat.Classify` is the first-match `if/elif` chain on the lower-cased
  message. Its order is info, open, close, closed-queue gate, join, show,
  pick, remove.
- The pick branch keeps the source's three loops, each as a method proved
  against a function: `Arguments.StripDurations` is the duration loop,
  `Arguments.ResolvePickName` is the pick name loop, and
  `Arguments.ResolveRemoveTarget` is the remove name loop. The duration loop
  deletes from the list it iterates, exactly as Python's index-based list
  iterator does. So the token after a removed one is skipped, and
  `list.remove` deletes the first equal token.
- `Fuzzy.Matcher` stands for `process.extractOne`. It is a configured
  function value. Its type guarantees that on a non-empty list of choices
  it returns one of them, and that its score is between 0 and 100.
- `Strings` models the Python `str` operations on ASCII text: `lower`,
  `isdigit`, `isalnum`, `startswith`, `split()` and `int`. `Lists` models
  `list.remove` and `list.index`.

The behaviour kept exactly as the code has it:
- Join does not look at `queue_open`. Only the gate prefix at line 99 turns
  messages away while the queue is closed.
- The default turn timer is `default_time * 60`, that is, the configured
  minutes times 3600 seconds. A typed duration lasts `int(token) * 60` seconds.
- The pick duration is the last digit token the loop removes. A digit token
  right after a removed one is skipped by the iterator and stays among the
  name words.
- Each operator `open` starts another reminder chain, even when the queue is
  already open. A tick reschedules only if the queue is open at tick time.
- Remove compares the sender, which is not lower-cased, with the lower-cased
  target. On an empty queue, remove answers with the target as typed.
- The remove loop sends an invalid-name notice for every alphanumeric word
  whose fuzzy score is below 70. It does so before the authorization check,
  so an unauthorized remove can still produce those notices.

## Model

| member | source | states |
|---|---|---|
| `Chat.Classify` | app.py:76-169 | defines the dispatch: the first matching branch of info, open, close, closed-queue gate, join, show, pick, remove, on the lower-cased message |
| `Steps.Handle` | app.py:68-206 | defines a message's whole effect on the state, as the specification `OnPubMsg` is proved against |
| `Steps.Join` | app.py:104-109 | defines the join branch |
| `Steps.QueueView` | app.py:115-120 | defines the show answer: the queue in order when it has members, the empty notice otherwise (also the second reminder message at app.py:232-237) |
| `Steps.TypedTarget` | app.py:174-178 | defines the target typed before resolution: the sender for the bare command, the first word after it otherwise, '' for a shorter message |
| `Steps.RemoveNotices` | app.py:184-194 | defines the invalid-name notices a remove on a non-empty queue sends |
| `Steps.ResolvedTarget` | app.py:184-196 | defines the remove target after the name loop and lower-casing |
| `Steps.Pick` | app.py:124-165 | defines the pick branch, as the specification `PickCommand` is proved against |
| `Steps.Remove` | app.py:169-206 | defines the remove branch, as the specification `RemoveCommand` is proved against |
| `Steps.RemindTick` | app.py:222-241 | defines a reminder tick, as the specification `Remind` is proved against |
| `Bot.QueueBot.constructor` | app.py:48-51 | the queue starts empty and closed, the message count at 0, and the no-duplicates invariant holds |
| `Bot.QueueBot.OnPubMsg` | app.py:68-206 | handling a message leaves the state, responses, turn timers and reminder-chain start that `Steps.Handle` gives for the old state and the sender `"@" + nick`; the queue keeps no duplicates |
| `Bot.QueueBot.PickCommand` | app.py:124-165 | the pick branch changes the queue and answers as `Steps.Pick` says |
| `Bot.QueueBot.RemoveCommand` | app.py:169-206 | the remove branch changes the queue and answers as `Steps.Remove` says, arming no timer |
| `Bot.QueueBot.TimeUp` | app.py:213-214 | a turn timer only announces time's up for its user and changes nothing |
| `Bot.QueueBot.Remind` | app.py:222-241 | a reminder tick changes the count and answers as `Steps.RemindTick` says, and touches only the message count |
| `Strings.Lower` | app.py:76 | lower-casing keeps the length and maps each character through the ASCII lower-case map |
| `Strings.LowerIsIdempotent` | app.py:196 | a lower-cased string has no upper-case letter, and lower-casing it again changes nothing |
| `Strings.Split` | app.py:133 | every token of `split()` is non-empty and free of whitespace |
| `Strings.SplitJoinSpaced` | app.py:133 | splitting words joined by single spaces gives the same words back |
| `Strings.Word` | app.py:133 | the word taken from the front of a string is a prefix with no whitespace that runs up to the next whitespace or the end |
| `Strings.IsDigits` | app.py:138 | defines `isdigit` on ASCII: non-empty and all decimal digits |
| `Strings.IsAlnum` | app.py:188 | defines `isalnum` on ASCII: non-empty and all letters or digits |
| `Strings.StartsWith` | app.py:186 | defines `startswith` |
| `Strings.DecimalValue` | app.py:210 | defines `int` of a digit token |
| `Lists.IndexOf` | app.py:155 | the position found holds the element, and no earlier position does |
| `Lists.RemoveFirst` | app.py:155 | `list.remove` deletes exactly the first occurrence and keeps the order of the rest |
| `Lists.RemoveFirstMultiset` | app.py:140 | `list.remove` takes away exactly one copy of the element |
| `Lists.RemoveFirstKeepsPrefix` | app.py:140 | elements before the first occurrence stay in place |
| `Lists.RemoveFirstKeepsNoDuplicates` | app.py:202 | removing from a duplicate-free queue leaves it duplicate-free and without that name |
| `Lists.AppendAbsentKeepsNoDuplicates` | app.py:105-106 | appending an absent name keeps the queue duplicate-free |
| `Fuzzy.ExtractOne` | app.py:148 | on a non-empty queue the fuzzy match is a queue member with a score in 0..100 |
| `Chat.DefaultTime` | app.py:29 | defines `default_time`: the configured minutes times 60 |
| `Chat.StartTimer` | app.py:209-210 | the turn timer is for the picked user; the default lasts minutes×3600 seconds, a typed number n lasts n×60 seconds |
| `Chat.UngatedCommands` | app.py:76-95 | info, open and close are dispatched the same whether or not the queue is open |
| `Chat.ClosedGateCatches` | app.py:99-100 | while closed, any other message under the gate prefix goes to the gate |
| `Chat.JoinIgnoresOpenFlag` | app.py:104-109 | a join command outside the gate prefix reaches the join branch even while the queue is closed |
| `Arguments.Stripped` | app.py:136-141 | defines the duration loop from an iterator position, with Python's index-based list iteration |
| `Arguments.StrippedTokens` | app.py:137-140 | defines the words the duration loop removes, in order |
| `Arguments.StripDurations` | app.py:136-141 | the duration loop, with removal during iteration, ends as the index-based iteration `Stripped` says |
| `Arguments.StrippedDuration` | app.py:136-141 | the duration stays the default, and the words are untouched, when no digit token lies at or after the iterator; otherwise the duration is a typed digit token of the message |
| `Arguments.StrippedMovesTokens` | app.py:137-141 | the loop only moves words from the message to the removed list: the words kept plus the words removed are the words of the message |
| `Arguments.StrippedDurationIsLastRemoved` | app.py:137-141 | every removed word is a digit token, and the duration is the last word removed, or the default when none was removed |
| `Arguments.StrippedTakesFirstDigit` | app.py:137-141 | the first digit token the iterator reaches is always the first word removed |
| `Arguments.StrippedRemovesOnlyDigits` | app.py:137-140 | only digit tokens are removed from the words; every other word keeps its count |
| `Arguments.StrippedKeepsWordPrefix` | app.py:137-146 | leading non-digit words (the command words) keep their positions, so the name words stay after them |
| `Arguments.AdjacentDurationsExample` | app.py:137-141 | in "!q pick 5 10" the iterator skips "10", which stays among the words, only "5" is removed, and the duration is "5" |
| `Arguments.PickCandidate` | app.py:148-151 | a pick word resolves to its fuzzy match, a queue member, when that scores at least 70, and to the raw word when it scores below |
| `Arguments.PickName` | app.py:144-151 | defines the name a pick resolves |
| `Arguments.ResolvePickName` | app.py:144-151 | the pick name loop leaves the resolution of the last word after the command, or '' when there is none |
| `Arguments.RemoveCandidate` | app.py:190-193 | an alphanumeric remove word resolves to its fuzzy match, a queue member, when that scores at least 70, and to '' when it scores below |
| `Arguments.RemoveTarget` | app.py:184-193 | defines the target the remove loop ends with |
| `Arguments.InvalidNotices` | app.py:192-194 | defines the invalid-name notices the remove loop sends |
| `Arguments.ResolveRemoveTarget` | app.py:184-194 | the remove loop ends with the target set by the last `@` or alphanumeric word, and sends one invalid-name notice per rejected word, in order |
| `Arguments.RemoveTargetKeepsInitial` | app.py:177-194 | words that are neither `@`-prefixed nor alphanumeric leave the target at its initial value `parts[2]` |
| `Arguments.RemoveTargetOrigin` | app.py:174-194 | the target is the initial value, '', a queue member or an `@` word typed in the message |
| `Arguments.InvalidNoticesSpec` | app.py:188-194 | the loop sends only invalid-name notices, at most one per word, and none when no word is rejected |
| `Properties.HandleCountsMessage` | app.py:73 | every message raises the reminder count by exactly one |
| `Properties.HandleKeepsNoDuplicates` | app.py:104-109 | no message puts a name into the queue twice |
| `Properties.OnlyOperatorsToggleQueue` | app.py:81-95 | the open flag changes only through an operator's open or close |
| `Properties.TimersComeFromOpenAndPick` | app.py:86 | a reminder chain starts exactly on an operator's open, and turn timers come only from an operator's pick |
| `Properties.OpenCloseNeedOperator` | app.py:81-95 | open or close from a non-operator sends nothing and changes nothing but the count |
| `Properties.OperatorOpens` | app.py:81-86 | an operator's open opens the queue, keeps its members, answers "opened" and starts a reminder chain |
| `Properties.OperatorCloses` | app.py:90-95 | an operator's close closes the queue, empties it and answers "closed" |
| `Properties.ClosedQueueGate` | app.py:99-100 | while closed, a message under the gate prefix that is not info, open or close gets only the closed notice, and the queue and flag are unchanged |
| `Properties.JoinAfterCloseIsTurnedAway` | app.py:90-100 | after an operator's close, a join under the gate prefix gets the closed notice and the queue stays empty |
| `Properties.JoinAppendsOnce` | app.py:104-109 | join appends the sender only when absent; a repeated join leaves the queue unchanged and answers already-in-queue |
| `Properties.ShowListsQueue` | app.py:113-120 | show lists the queue in order, or says it is empty; the whole outcome is the counted old state with that one response, no timer and no reminder chain |
| `Properties.PickNeedsOperatorAndMembers` | app.py:126-129 | a non-operator's pick is ignored; an operator's pick on an empty queue only says the queue is empty |
| `Properties.PickTakesAtMostOne` | app.py:153-165 | a pick removes at most one member, keeps the order of the rest, and arms exactly one timer, for the member removed |
| `Properties.PickByNameOrHead` | app.py:153-165 | a name over 2 characters is removed if queued and reported not found, with no timer, otherwise; without one the head is popped |
| `Properties.PickNameIsLastWord` | app.py:145-151 | the resolved pick name is the fuzzy match of the last word when that scores at least 70, and the last word itself when it scores below |
| `Properties.PickDefaultTimer` | app.py:136-141 | with no number among the words, the pick's timer lasts the configured minutes×3600 seconds |
| `Properties.PickTypedTimer` | app.py:137-141 | with a number among the words, the loop removes at least one word, and the pick's timer lasts 60 seconds per unit of the last word it removed |
| `Properties.RemoveOnEmptyQueue` | app.py:174-182 | on an empty queue, remove answers not-found for the target as typed and changes nothing, whoever asks |
| `Properties.RemoveAuthority` | app.py:196-203 | the queue changes only by removing one lower-cased target over 2 characters, for an operator or the target itself, which is then reported removed |
| `Properties.RemoveByOperatorOrSelf` | app.py:196-206 | for an operator or the target itself, a resolved target over 2 characters is removed and reported removed after the invalid-name notices when queued, and reported not found when not; otherwise only the notices are sent |
| `Properties.OperatorRemovesNamed` | app.py:184-203 | an operator's remove of one `@` name, queued in lower case, takes that member out and answers only removed |
| `Properties.NonOperatorRemovesOnlySelf` | app.py:194-206 | a non-operator can remove only themselves, and otherwise hears only invalid-name notices |
| `Properties.OthersRemoveIsSilent` | app.py:185-200 | a non-operator naming someone else with `@` gets no answer, and the queue is unchanged |
| `Properties.SelfRemoval` | app.py:175-203 | the bare remove command removes a queued, lower-case sender and answers removed |
| `Properties.TickReschedulesIffOpen` | app.py:224-241 | a tick reschedules exactly when the queue is open, and on a closed queue it does nothing else |
| `Properties.TickReminds` | app.py:224-237 | on an open queue, at or above the threshold a tick sends the reminder plus the queue view and resets the count; below it, it sends nothing and changes nothing |

## Left out

- Configuration loading from `config.yaml`, including the bundled-executable path logic (app.py:12-32). The values are a `Chat.Config` given to the constructor.
- The IRC transport: the PASS/NICK/USER registration of section 3.1 of RFC 2812 in `on_connect`, the channel join in `on_welcome`, `on_disconnect`, `on_error`, and bot construction and start. These are network plumbing.
- `threading.Timer` scheduling and the concurrency between timer threads and the message handler. Only the callback bodies are modelled. An armed turn timer, a started reminder chain and a requested reschedule are outputs.
- The reminder interval `reminder_time`. It only sets the delay of the scheduled ticks, which belongs to the scheduler.
- fuzzywuzzy's scoring algorithm, a foreign library. `Fuzzy.Matcher` keeps only what the bot relies on.
- Fuzzy.ExtractOne: states only that the match is a member of the choices and that the score lies in 0..100. The library also gives an identical string the score 100; the model does not assume this.
- Rendering: `str.format` templates, the `', '.join` of the queue (a `Show` response carries the names in order), and `logging`.
- Unicode: `lower`, `isdigit`, `isalnum` and `split()` are modelled on ASCII. Python's Unicode digits, for which `isdigit` holds but `int` fails, are not represented.
- `list.remove` on a missing element raises in Python. Every call in the bot is guarded, so `Lists.RemoveFirst` requires the element to be present.
