# Dot: a Dafny model of the assistant's core

Dot is the chat assistant of a creative agency's hub. It is a Python service
(`ask_dot.py`). Each user question goes to a language model, which may call
four tools backed by Airtable: search people, get client details, get a spend
summary, and reserve a job number. Dot then picks a JSON object out of the
model's free-text reply and remembers the exchange in a per-session memory.

This project models that core in Dafny and proves properties of the model.
The network, the clock and `json.loads` become parameters:

- `wrappers.dfy` (`Wrappers`): `Option` and `Result`.
- `json.dfy` (`JsonValue`): decoded JSON values, Python truthiness, and `dict.get` with a default.
- `text.dfy` (`Text`): the `str` operations used.
  - `strip` uses Python's whitespace set.
  - Also `find`, `rfind`, `split`, `join`, `lower`, and `replace` of one character.
- `numeral.dfy` (`Numeral`): Python's base-10 `int()`, `str()` of an integer, and `:03d` formatting.
  - `int()` skips less whitespace than `strip`: the separators U+001C to U+001F are not skipped, so a number next to one of them is rejected.
- `memory.dfy` (`Memory`): the global `conversations` dictionary.
  - A class `ConversationStore` holds a `map<string, Session>`.
  - Its methods are proved against the specification functions `Sweep`, `Access` and `AfterAdd`.
- `reply_parser.dfy` (`ReplyParser`): `parse_response`.
  - It builds four candidate substrings, tried in order.
  - `json.loads` is a parameter `loads: string -> Option<Json>`.
- `spend.dfy` (`Spend`): the arithmetic of `tool_get_spend_summary`.
  - The quarter tables, the `last_quarter` label, the budget with rollover, and the percentage.
  - The loop that finds a client.
- `client_detail.dfy` (`ClientDetail`): the `parse_currency` and rollover credit of `tool_get_client_detail`.
- `job_number.dfy` (`JobNumber`): `tool_reserve_job_number` once the client record has been read.
- `tools.dfy` (`Tools`): the record filter and pagination loop of `tool_search_people`, and `execute_tool`.
- `orchestrator.dfy` (`Orchestrator`): `process_question`.
  - The model call is a parameter `call` and the tool run a parameter `run`.
  - The three readings of the clock are `t0`, `t1` and `t2`.
  - The method `ProcessQuestion` works on a `ConversationStore`.
  - It is proved equal to the function `Respond`, which the lemmas are about.

## Failed turns that still change memory

Two code paths answer with an error after memory has already changed. The model keeps both.

- **A turn can store the question and then fail.** Take a reply that decodes to a true value that is not an object, for example `42`:
  - The user turn is stored first (ask_dot.py:643).
  - Then `parsed.get` raises (ask_dot.py:644).
  - The same happens when `message` is a number, a bool, `null` or an object.
  - So the user turn stays in memory and the answer is an error. `Orchestrator.NonObjectReplyKeepsOnlyQuestion` states this.
- **A failed model call still changes memory.** Memory is swept and the session touched (ask_dot.py:552) before the model is called. So a failed call still drops idle sessions and refreshes `last_active`. `Orchestrator.FailedCallTouchesSession` states this.

## Slow turns

Every `add_to_conversation` call first goes through `get_conversation`, which deletes sessions idle for more than 1800 s (ask_dot.py:36-38, 52). `requests.post` (ask_dot.py:566, 612) has no timeout, so an answered turn does not always add the question and the reply to the history:

- A model call that takes more than 1800 s drops the history the question was sent with. The session ends up holding only the question and the reply (`Orchestrator.SlowCallDropsHistory`).
- More than 1800 s between storing the question and storing the reply loses the question. Only the reply is left (`Orchestrator.SlowReplyLosesQuestion`).

## Model

| member | source | states |
|---|---|---|
| Memory.Sweep | ask_dot.py:35-38 | exactly the sessions idle for at most 1800 s remain, each unchanged |
| Memory.SweepRemovesExpired | ask_dot.py:36-38 | deleting the listed expired ids from the dictionary gives the sweep |
| Memory.Access | ask_dot.py:31-48 | after `get_conversation(sid)` at `now`, `sid` is present with `last_active == now`; it keeps its messages if it was live and has none if it was absent or expired; every other remaining session is live and unchanged, and no live session is lost |
| Memory.Recent | ask_dot.py:55-57 | `s[-n:]` for `n >= 1` (both callers pass 10 or 20): the last `min(n, len s)` entries, as a suffix of `s` |
| Memory.AfterAdd | ask_dot.py:50-57 | after `add_to_conversation`, the session holds 1 to 20 messages; the last is the new message; they are the most recent of the accessed history plus the new message, in order; other sessions are as `get_conversation` left them |
| Memory.RecentAppend | ask_dot.py:53-57 | trimming to 20 and then appending keeps the same messages as appending and then trimming |
| Memory.AddAllKeepsRecent | ask_dot.py:50-57 | however many messages are appended one by one, the session holds the 20 most recent of its history followed by them |
| Memory.TwentyOneTurns | ask_dot.py:55-57 | 21 messages appended to a new session leave exactly the last 20, oldest first |
| Memory.ConversationStore.constructor | ask_dot.py:28 | memory starts empty |
| Memory.ConversationStore.GetConversation | ask_dot.py:31-48 | the deletion loop and the create-or-touch step leave `Access` of the old dictionary and return the session; no session exceeds 20 messages |
| Memory.ConversationStore.AddToConversation | ask_dot.py:50-57 | the new dictionary is `AfterAdd` of the old one; no session exceeds 20 messages |
| Memory.ConversationStore.ClearConversation | ask_dot.py:59-63 | always returns true; `sid` is gone and every other session is unchanged, so clearing an absent id changes nothing |
| Text.Strip | ask_dot.py:492 | `strip()` drops the surrounding whitespace: the result starts and ends with non-space, and text already trimmed is unchanged |
| Text.StripTrims | ask_dot.py:492 | `strip()` is a slice `s[a:b]` with only whitespace before `a` and after `b` |
| Text.FindFrom | ask_dot.py:503-504 | `find(sub, start)` is the lowest index at or after `start` where `sub` occurs, or -1 when there is none |
| Text.RFindChar | ask_dot.py:526 | `rfind(c)` is the highest index holding `c`, or -1 |
| Text.SplitFirst | ask_dot.py:514 | the first part of `split(sep)` ends at the first occurrence of `sep`; there is one part exactly when `sep` does not occur, and it is the whole text |
| Text.JoinSplit | ask_dot.py:514 | joining the parts of `split(sep)` with `sep` gives the text back |
| Text.SplitPartsFree | ask_dot.py:514 | no part of `split(sep)` contains `sep` |
| Text.Lower | ask_dot.py:99-100 | `lower()` keeps the length and lowers each ASCII capital |
| Text.RemoveChar | ask_dot.py:141 | `replace(c, '')` leaves no `c`, changes nothing when there is none, and never lengthens |
| Text.RemoveCharOne | ask_dot.py:141 | on one character, `replace(c, '')` drops it when it is `c` and keeps it otherwise |
| Text.RemoveCharAppend | ask_dot.py:141 | `replace(c, '')` works piece by piece: on `x + y` it is the result on `x` followed by the result on `y` |
| Text.RemoveCharKeeps | ask_dot.py:141 | every character other than `c` is in the result exactly when it is in the text |
| Numeral.IntTrim | ask_dot.py:300 | `int()` trims the whitespace it skips: the result starts and ends with a character it does not skip, and text already trimmed is unchanged |
| Numeral.IntTrimTrims | ask_dot.py:300 | that trim keeps a slice `s[a:b]` and drops only skipped whitespace before `a` and after `b` |
| Numeral.SeparatorNotSkipped | ask_dot.py:300 | `int()` rejects a number with one of U+001C to U+001F directly before or after it, although `str.isspace()` holds for them |
| Numeral.ParseIntDecimal | ask_dot.py:233 | `int(str(n)) == n` for every integer (CPython's 4300-digit limit is not modelled) |
| Numeral.ParseIntPad3 | ask_dot.py:304-305 | `int(f"{n:03d}") == n`; for 0 <= n < 1000 the padded text has three characters |
| Numeral.Pad3Injective | ask_dot.py:304 | different job numbers are written differently |
| ReplyParser.FirstBraced | ask_dot.py:514-518 | finds a part exactly when some stripped part is shaped `{...}`; the one found is the first such part |
| ReplyParser.OuterBraces | ask_dot.py:523-529 | strategy 4's candidate, when there is one, starts with `{` and ends with `}` |
| ReplyParser.FirstSuccess | ask_dot.py:494-534 | reference order: the result comes from the first candidate that loads, and every earlier candidate failed; `None` only when every candidate fails |
| ReplyParser.CandidatesInOrder | ask_dot.py:494-531 | the four tries run in order (whole text, "```json" block, first braced "```" part, outer braces), and the first that loads wins |
| ReplyParser.ParseResponse | ask_dot.py:484-534 | `None` for an empty reply; otherwise the first success among the four candidates of the stripped text |
| ReplyParser.WholeReplyWins | ask_dot.py:494-496 | a reply that loads as a whole is returned as decoded |
| ReplyParser.TaggedBlockOf | ask_dot.py:501-506 | for any text `pre + "```json" + body + "```" + post` where that "```json" is the first one and that "```" the first after it, strategy 2 takes the stripped `body` |
| ReplyParser.TaggedReplyParses | ask_dot.py:500-507 | a reply whose stripped text is shaped so, and which does not load as a whole, parses as the stripped body does |
| ReplyParser.FirstBracedPartOnly | ask_dot.py:511-520 | strategy 3 hands `json.loads` only the first braced part, so its failure ends the strategy |
| ReplyParser.OuterBracesOf | ask_dot.py:523-529 | strategy 4 takes the span from the first `{` to the last `}` |
| ReplyParser.ProseWrappedObjectParses | ask_dot.py:522-531 | a reply whose stripped text is `pre + obj + post`, with no "```", no `{` in `pre`, no `}` in `post` and `obj` shaped `{...}`, and which does not load as a whole, parses as `obj` does |
| ReplyParser.FencePairParts | ask_dot.py:511-514 | for objects `{a}` and `{b}` (each shaped `{...}`) that hold no "```", "```{a}```{b}```" splits on "```" into "", `{a}`, `{b}` and "" |
| ReplyParser.FencePairUntagged | ask_dot.py:501-504 | such a reply holds no "```json", because every "```" in it is followed by `{` or ends the text |
| ReplyParser.LaterFencedObjectIgnored | ask_dot.py:511-531 | in "```{a}```{b}```", with `{a}` and `{b}` shaped `{...}` and holding no "```" (any other characters, a "jobs" key included, are allowed), when the whole text, `{a}` and the span from `{a}` to `{b}` do not load, the reply does not parse even though `{b}` might |
| Spend.QuarterKeyRoundTrip | ask_dot.py:236-238 | each bucket is recognised by its column name, and only by it |
| Spend.CalendarQuarter | ask_dot.py:212-218 | each month 1..12 maps to the bucket that contains it |
| Spend.PreviousQuarter | ask_dot.py:220-226 | the previous bucket starts three months before the given one, wrapping around the year |
| Spend.PreviousQuarterCycle | ask_dot.py:220-226 | `prev_quarters` applied four times is the identity, and never fixes a bucket in one or two steps |
| Spend.PreviousQuarterIsThreeMonthsBack | ask_dot.py:212-226 | the last calendar quarter is the bucket of the month three months back |
| Spend.LastQuarterLabel | ask_dot.py:233-235 | with the `Q`s removed, empty digits give `Q4`; otherwise the label fails exactly when `int()` rejects the digits, with Python's message for them, and is `Q(k-1)`, or `Q4` when k <= 1, for the number k read |
| Spend.LastQuarterOfLabel | ask_dot.py:233-235 | the label for current quarter `Qn` is `Q(n-1)`, and `Q4` when n <= 1 |
| Spend.LastQuarterOfUnset | ask_dot.py:233-235 | an empty current quarter counts as Q1 and gives `Q4` |
| Spend.LastQuarterCycle | ask_dot.py:233-235 | stepping back from any of Q1..Q4 four times returns to it |
| Spend.LastQuarterRejects | ask_dot.py:233 | digits that `int()` rejects make the summary an error carrying Python's message |
| Spend.PercentUsed | ask_dot.py:266 | 0 when the budget is not positive; otherwise the nearest integer to `100*spent/budget`, ties to even |
| Spend.PercentWithinBudget | ask_dot.py:266 | a spend within a positive budget is 0 to 100 percent |
| Spend.PercentExample | ask_dot.py:247 | 6,200 spent of 10,000 is 62 percent |
| Spend.QuarterReport | ask_dot.py:253-269 | the rollover is applied exactly when `rolloverUse` names the bucket and the rollover is positive; budget is three months plus the applied rollover; remaining is budget minus spent; percent is guarded; the rollover amount is reported whenever the bucket is named |
| Spend.SpendSummary | ask_dot.py:228-269 | fails exactly for `last_quarter` with an unreadable current quarter; `this_month` reports the client, the month's name, budget, spend, remaining and percent; `this_quarter` and unknown periods report the current calendar bucket under the client's current-quarter label; a named bucket reports itself under its own name; `last_quarter` reports the previous calendar bucket under the label one quarter back |
| Spend.SummaryBucket | ask_dot.py:228-269 | every quarterly summary reports the selected bucket's spend; its budget is three months plus the rollover exactly when `rolloverUse` names that bucket and the rollover is positive; remaining is budget minus spent |
| Spend.LastQuarterSummary | ask_dot.py:228-235 | for a client in `Qn`, `last_quarter` is the report of the previous calendar bucket labelled `Q(n-1)`, or `Q4` from Q1 |
| Spend.MonthSummaryRules | ask_dot.py:239-248 | the monthly summary is named after the month, has remaining = budget - spent, and reports 0 percent for a budget that is not positive |
| Spend.RolloverReportedButNotApplied | ask_dot.py:256-268 | a rollover that is not positive is reported for its bucket but not added to the budget |
| Spend.FindClient | ask_dot.py:174-204 | the first record whose "Client code" equals the code, or -1 when none does |
| ClientDetail.Cleaned | ask_dot.py:141 | the text `int()` is given holds no `$` and no `,` |
| ClientDetail.ParseCurrency | ask_dot.py:137-142 | numbers pass through; a bool is read as its integer value, 1 or 0; null, lists and objects are 0; text with nothing left after removing `$` and `,` is 0; other text parses exactly when `int()` reads what is left, to that number, and otherwise fails with Python's message for it |
| ClientDetail.RolloverCredit | ask_dot.py:144-147 | an empty lookup list is 0, a non-empty one is its first item parsed, and a value that is not a list is parsed directly |
| ClientDetail.GroupedUngroups | ask_dot.py:141 | removing the commas from digits grouped in threes gives the digits back |
| ClientDetail.ParseCurrencyDollars | ask_dot.py:137-142 | any amount written as Airtable shows it (`-$1,234`) parses back to itself |
| JobNumber.JobNumberOf | ask_dot.py:299-302 | a number is used as is and a bool as 1 or 0; text is accepted exactly when `int()` reads it, as the number it reads, and otherwise reported with its text; null, lists and objects fail |
| JobNumber.ReserveJobNumber | ask_dot.py:286-320 | a missing client and an empty sequence give their errors; with a set sequence the call succeeds exactly when its value reads as a number n, and otherwise fails with that error; on success the reserved number is `code + " " + pad3(n)` and the value written back is `pad3(n + 1)`, which reads as `n + 1` |
| JobNumber.ReserveAdvances | ask_dot.py:304-310 | reserving again after the write-back reserves the number written, and writes back `n + 2` |
| JobNumber.ThreeDigits | ask_dot.py:304-305 | numbers below 999 are reserved and written back as three digits |
| JobNumber.ReservePadded | ask_dot.py:295-305 | a sequence stored as `pad3(n)` reserves `code + " " + pad3(n)` and writes back `pad3(n + 1)` |
| JobNumber.PadSevenAndEight | ask_dot.py:304-305 | `pad3(7)` is "007" and `pad3(8)` is "008", so with `ReservePadded` "007" reserves "<code> 007" and leaves "008" |
| JobNumber.ReserveRejectsText | ask_dot.py:299-302 | a sequence `int()` cannot read is reported with its text |
| JobNumber.ReserveRejectsSeparator | ask_dot.py:299-302 | a sequence `"\x1f41"` (a unit separator before `41`) is reported as an invalid format, and nothing is reserved |
| Tools.SelectSound | ask_dot.py:92-108 | every listed person comes from a record with a name that matches the search term |
| Tools.SelectComplete | ask_dot.py:92-108 | every record with a name that matches the search term is listed |
| Tools.CaseInsensitive | ask_dot.py:98-101 | lowering the search term does not change which records match |
| Tools.SelectAppend | ask_dot.py:84-112 | filtering two runs of records one after the other lists the people of the first and then those of the second |
| Tools.ScanPage | ask_dot.py:92-108 | the loop over one page lists that page's matching people, in order |
| Tools.SearchPeople | ask_dot.py:84-112 | pages are read up to and including the first one without an offset; the people listed are the matches of all records read, in order |
| Tools.ToolNameRoundTrip | ask_dot.py:397-411 | each tool is reached by its own name and by no other |
| Tools.Dispatch | ask_dot.py:395-412 | unknown names give "Unknown tool: name"; each known tool gets `client_code` (None when missing), `search_term` for the search, and a `period` that defaults to "this_month" |
| Tools.DispatchByName | ask_dot.py:397-410 | each tool name reaches its own tool's call |
| Orchestrator.BuildMessages | ask_dot.py:559-563 | the first request carries at most the 10 most recent stored messages, then the question |
| Orchestrator.OlderHistoryIgnored | ask_dot.py:561 | two histories with the same last 10 messages send the same request |
| Orchestrator.FirstText | ask_dot.py:632-636 | the reply text is that of the first text block, or "" when there is none |
| Orchestrator.ExtractText | ask_dot.py:632-636 | the loop picks the first text block's text |
| Orchestrator.ConverseToolRound | ask_dot.py:585-629 | after a `tool_use` reply, the second request keeps the client list, has no tools, and carries the first request's messages, then the assistant's blocks, then the tool results; its reply's content is the answer whatever its stop reason |
| Orchestrator.ConverseNoTools | ask_dot.py:585-586 | a failed first call is the answer's failure, and a reply that does not ask for tools is the answer |
| Orchestrator.ConverseCallsOnlyTwice | ask_dot.py:568-629 | the answer depends only on the reply to the first request and on replies to requests without tools |
| Orchestrator.ToolResultsSound | ask_dot.py:592-606 | every tool result answers a `tool_use` block of the reply |
| Orchestrator.ToolResultsComplete | ask_dot.py:592-606 | every `tool_use` block of the reply is answered |
| Orchestrator.CollectToolResults | ask_dot.py:590-606 | the loop collects one result per `tool_use` block, in order |
| Orchestrator.Summary | ask_dot.py:644 | `parsed.get('message', '')[:100]` succeeds exactly for an object whose message is text or a list, and gives a prefix of at most 100 |
| Orchestrator.Fallback | ask_dot.py:651 | the degraded answer is a true object whose `message` is the raw text and whose `jobs` and `nextPrompt` are None |
| Orchestrator.RespondRemembers | ask_dot.py:632-651 | once the model has answered, the outcome is decided by the reply text and how it decodes |
| Orchestrator.ProcessQuestion | ask_dot.py:539-655 | the answer and the memory left are those of `Respond`; no session exceeds 20 messages |
| Orchestrator.EmptyQuestionLeavesMemory | ask_dot.py:544-545 | an empty question is an error and leaves memory as it was |
| Orchestrator.FailedCallTouchesSession | ask_dot.py:552-582 | when the model cannot be reached, the answer is an error, yet memory has been swept and the session touched |
| Orchestrator.RememberAddsTwo | ask_dot.py:641-651 | for a session still live when the question is stored and again when the reply is stored (each store within 1800 s of the previous access), an answered turn adds exactly the question and one assistant message of at most 100 characters or items, keeping the 20 most recent |
| Orchestrator.AnsweredTurnAddsTwo | ask_dot.py:551-651 | the same for the whole turn, when the model call and the gap between the two stores each take at most 1800 s: the question and the reply follow the history the question was sent with |
| Orchestrator.RememberStores | ask_dot.py:641-651 | an answered turn stores the question at `t1` and then the reply summary (or the first 100 characters of the raw text) at `t2` |
| Orchestrator.RememberAfterIdleReply | ask_dot.py:31-57 | when more than 1800 s pass between the two stores, the session is swept away before the reply is stored: it holds the reply alone |
| Orchestrator.RememberAfterSlowCall | ask_dot.py:31-57 | when the session has been idle more than 1800 s by the time the question is stored, and the reply follows within 1800 s, the session holds the question and the reply alone |
| Orchestrator.SlowCallDropsHistory | ask_dot.py:552-650 | a model call that takes more than 1800 s (followed by a reply stored within 1800 s) leaves exactly the question and one assistant message |
| Orchestrator.SlowReplyLosesQuestion | ask_dot.py:643-650 | more than 1800 s between the two stores leaves one assistant message and loses the question |
| Orchestrator.UnparsedReplyFallsBack | ask_dot.py:646-651 | an undecodable or false reply returns the fallback and remembers the question and the first 100 characters of the raw text |
| Orchestrator.NonObjectReplyKeepsOnlyQuestion | ask_dot.py:641-645 | a true reply that is not an object is an error, yet the question stays in memory as the last message |

## Left out

- HTTP and Airtable are not modelled: the requests, `raise_for_status`, the filter formulas and the write of the next job number. Their results are inputs:
  - the pages of People records;
  - the client record, or `None`;
  - the model's replies;
  - the tool results.
- The JSON grammar, `json.loads` and `json.dumps` are not modelled. Decoding is the parameter `loads`. Tool results pass to the model as opaque values.
- Numbers are integers: floats, float parsing and float rounding are left out.
  - `tool_get_spend_summary` parses amounts with `float(...)` (ask_dot.py:177-184). `ClientSpend` takes those amounts already read, as whole dollars.
  - Spend.PercentUsed: rounds the exact fraction half to even. It does not reproduce the binary rounding of `spent / budget * 100`.
- `datetime.now`, `strftime('%B')` and `time.time` are inputs: the month, and the times `t0`, `t1` and `t2`. Month names are those of the C locale.
- ClientDetail.ParseCurrency: a bool is returned as the integer 1 or 0. Python returns the bool itself, which equals 1 or 0 but appears in the client detail as `true` or `false`.
- Numeral.ParseIntDecimal: CPython's limit of 4300 digits for `int()` and `str()` of an integer (a `ValueError` beyond it) is not modelled; numerals of any length convert.
- Text is ASCII only for these operations:
  - `lower()` lowers only `A`-`Z`;
  - `int()` reads only ASCII digits.
- Tools.Display: shows lists and objects as "". Python would show their `repr`.
- Error messages are modelled as strings.
  - Those raised by Python (`int()`, slicing, `.get`) follow CPython 3.11 wording.
  - A value inside a message is shown with `str`, not `repr`.
- Tools.Keeps: takes the search term as optional text. A term that is not a string is not modelled.
- Spend.LastQuarterLabel: the current quarter and `rolloverUse` are read as text. A non-text "Current Quarter" field (where `.replace` would raise) is not modelled.
- Tools.SearchPeople: requires the last page returned to have no offset, as Airtable's last page does. An endless run of pages is not modelled.
- The rest of `tool_get_client_detail` (ask_dot.py:120-163) is not modelled, because it only copies fields into a dictionary. Its `parse_currency` and rollover handling are modelled.
- The broad `except Exception` handlers are modelled only where an error reaches the answer, as a `Result` failure. `print` logging is left out.
- `get_system_prompt` and `CLAUDE_TOOLS` (ask_dot.py:327-479) are static text. The system prompt is the client-list string the request carries.
- `app.py` is not part of this model: it holds a prompt fragment, not logic.
- Orchestrator.ResultFor: the tool runner `run` is a function of the call alone. Two `reserve_job_number` calls in one reply get the same result, while the code would reserve two numbers in turn.
- Concurrent requests racing on the session dictionary or on job numbers are not modelled.
