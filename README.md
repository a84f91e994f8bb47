# Slash commands of the pybot Slack bot

This project models the slash-command handlers in `pybot/endpoints/slack/commands.py` and
proves properties of the model. The handlers answer `/roll`, `/here`, `/report`, `/lunch` and
`/repeat`. Each one runs inside the `catch_slack_error` decorator.

- The chat client is the class `Chat.SlackApi`. It logs every query it receives in `calls`.
  The k-th query gets the reply `respond(k)`, which is either `Ok(ts)` or `ApiError`. An
  `ApiError` is the `SlackAPIError` the real client raises.
- Each handler is a method that queries the client. It is proved equal to a pure function
  (`Commands.HereRun`, `Commands.RollRun`, ...). That function gives the list of calls the
  handler makes and how it ends: it returns, raises the chat client's error, or raises the
  error of another service.
- `catch_slack_error` is `Commands.Caught`, a function of the run it wraps, together with the
  method `Commands.CatchSlackError`.
- `/roll` reads "NdS" in three steps:
  - it lower-cases the text (`Text.Lower`);
  - it splits the text on "d" (`Text.Split`);
  - it reads each part with Python's `int()` (`PyInt.ParseInt`).
- The dice come from `Rand.Random.RandInt`, which models `random.randint(lo, hi)` over an
  injected stream of draws.
- `/roll` keeps the bound it has in the code: each die is `randint(1, S + 1)`, so a D6 can
  show 7 (`DiceRoll.DiceReachTopFace`). The bound S + 1 looks unintended; the model keeps it
  as written and does not choose a corrected one.
- The messages the handlers post are given decoders: `ParseRollMessage`, `ParseReportText`,
  `ParseFallbackText` and `ParseMention`. Round-trip lemmas prove that every message carries
  its user, its counts, its dice and its text unchanged.

## Model

| member | source | states |
|---|---|---|
| DiceRoll.ParseRoll | pybot/endpoints/slack/commands.py:218-226 | an accepted text always yields 1 <= N <= 10 and 1 <= S <= 20 |
| DiceRoll.CheckRoll | pybot/endpoints/slack/commands.py:221-226 | the range checks accept only N in [1, 10] and S in [1, 20], on integers that `int()` produced |
| DiceRoll.RollAcceptance | pybot/endpoints/slack/commands.py:218-227 | both directions: a text is read as N dice of S sides exactly when its lower-cased form has one "d", the parts before and after it are read by `int()` as N and S, and both are in range |
| DiceRoll.RollOfNumerals | pybot/endpoints/slack/commands.py:219-226 | for decimal numerals "NdS", the roll is accepted iff 1 <= N <= 10 and 1 <= S <= 20 |
| DiceRoll.RollIgnoresCase | pybot/endpoints/slack/commands.py:219 | texts equal up to letter case are read the same way |
| DiceRoll.RollRejections | pybot/endpoints/slack/commands.py:220-226 | "1d2d3", "3x5", "abc", "", "0d5", "11d5", "3d21" and "\x1c3d6" are all rejected |
| DiceRoll.RejectsSeparatorPad | pybot/endpoints/slack/commands.py:221 | "\x1c3d6" is rejected, because `int()` does not skip the separator 0x1C in front of the 3 |
| DiceRoll.RollAcceptances | pybot/endpoints/slack/commands.py:219-222 | "2d6" reads as 2 dice of 6 sides, and "3D6" reads the same as "3d6" |
| DiceRoll.SplitAtSingleD | pybot/endpoints/slack/commands.py:220 | a text with exactly one "d" splits into the text before it and the text after it |
| DiceRoll.TwoPartsSplitOnce | pybot/endpoints/slack/commands.py:220 | a split into two parts means the text has exactly one "d", between the two parts |
| DiceRoll.Dice | pybot/endpoints/slack/commands.py:240-242 | a roll has exactly N dice, each in [1, S + 1] |
| DiceRoll.DiceReachTopFace | pybot/endpoints/slack/commands.py:242 | the bound S + 1 is reachable: one die of S sides can show S + 1 |
| DiceRoll.RollDice | pybot/endpoints/slack/commands.py:240-242 | the loop draws N times from the generator, and its list is the N dice the draws determine |
| DiceRoll.RollMessage | pybot/endpoints/slack/commands.py:244 | the announcement starts with the user's mention and " Rolled ", and ends with the closing bracket of the dice list |
| DiceRoll.RollMessageAnnounces | pybot/endpoints/slack/commands.py:244 | a message for N dice, each in [1, S + 1], reads back as an announcement of that user's roll of N dice of S sides |
| DiceRoll.RollMessageRoundTrip | pybot/endpoints/slack/commands.py:244 | "<@U> Rolled N DS: [d1, ...]" reads back as exactly U, N, S and the dice |
| DiceRoll.RollBodyRoundTrip | pybot/endpoints/slack/commands.py:244 | "N DS: [d1, ...]" reads back as N, S and the dice |
| DiceRoll.SidesAndDiceRoundTrip | pybot/endpoints/slack/commands.py:244 | "DS: [d1, ...]" reads back as S and the dice |
| Commands.RollRun | pybot/endpoints/slack/commands.py:209-247 | `/roll` makes exactly one post. It is ephemeral iff the text is rejected: then it holds the usage text and goes to the user in that channel. Otherwise it is a channel message with no user |
| Commands.RollAnnounced | pybot/endpoints/slack/commands.py:240-247 | an accepted roll's post names the user, N and S, and holds exactly N dice, each in [1, S + 1] |
| Commands.UsageCall | pybot/endpoints/slack/commands.py:229-237 | the usage notice is an ephemeral post of the usage text to the user in the command's channel, not as the bot user, with no thread and no attachments |
| Commands.SlashRoll | pybot/endpoints/slack/commands.py:209-247 | the handler's calls, its outcome and its draws are those of `RollRun` |
| Commands.HereRun | pybot/endpoints/slack/commands.py:137-169 | an unreachable lookup raises and posts nothing. Status >= 400 or an empty body returns without a post. Otherwise the announcement goes to the channel, and on success the member list follows with thread_ts equal to the first post's ts |
| Commands.Authorised | pybot/endpoints/slack/commands.py:150-156 | the lookup lets `/here` go on only with a status below 400 and a non-empty body |
| Commands.HereGate | pybot/endpoints/slack/commands.py:150-169 | `/here` posts anything at all exactly when the lookup authorises it |
| Commands.SlashHere | pybot/endpoints/slack/commands.py:150-169 | the handler's calls and outcome are those of `HereRun` |
| Commands.ReportText | pybot/endpoints/slack/commands.py:120 | the report starts with the reporter's mention and ends with the reported text, unchanged |
| Commands.ReportTextRoundTrip | pybot/endpoints/slack/commands.py:120 | "<@U> sent report: <text>" reads back as U and the text, unchanged |
| Commands.ReportRun | pybot/endpoints/slack/commands.py:115-128 | `/report` makes one post: a channel message to the moderators' channel with no user, no thread and not as the bot user, with the not-claimed attachment, naming the reporter and carrying the text |
| Commands.SlashReport | pybot/endpoints/slack/commands.py:115-128 | the handler's calls and outcome are those of `ReportRun` |
| Commands.LunchRun | pybot/endpoints/slack/commands.py:185-192 | a failed search raises, posts nothing and is not caught. Otherwise exactly one ephemeral post with the selection is made |
| Commands.SlashLunch | pybot/endpoints/slack/commands.py:185-192 | the handler's calls and outcome are those of `LunchRun` |
| Commands.RepeatRun | pybot/endpoints/slack/commands.py:196-206 | `/repeat` sends exactly the one call chosen by `get_slash_repeat_messages`, and returns iff that query succeeds |
| Commands.SlashRepeat | pybot/endpoints/slack/commands.py:196-206 | the handler's calls and outcome are those of `RepeatRun` |
| Commands.Dispatch | pybot/endpoints/slack/commands.py:32-37 | each registered command runs its own handler's run |
| Commands.FallbackText | pybot/endpoints/slack/commands.py:67-70 | the notice starts with "Could not post result of `", holds the command right after it followed by a backquote, and ends with the channel and ">" |
| Commands.FallbackCall | pybot/endpoints/slack/commands.py:61-72 | the notice is an ephemeral post to user = channel = the user id, as the bot user, with no thread and no attachments, carrying `FallbackText` |
| Commands.FallbackTextRoundTrip | pybot/endpoints/slack/commands.py:67-70 | the notice "Could not post result of `<cmd>` to channel <#<ch>>" reads back as the command and the channel |
| Commands.ChannelRefRoundTrip | pybot/endpoints/slack/commands.py:69 | " to channel <#<ch>>" reads back as the channel |
| Commands.Caught | pybot/endpoints/slack/commands.py:41-74 | any ending other than the chat client's error passes through untouched. That error adds exactly one ephemeral notice to user = channel = the user id, as the bot user, with no thread and no attachments, naming the command and the channel. The wrapper then returns, unless the notice itself fails |
| Commands.CatchSlackError | pybot/endpoints/slack/commands.py:50-72 | the wrapped handler's calls and outcome are `Caught` of the handler's run |
| Chat.Posted | pybot/endpoints/slack/commands.py:128 | a query returns iff the platform answers Ok; otherwise it raises the chat client's error |
| Chat.SlackApi.Query | pybot/endpoints/slack/commands.py:162-168 | a query is appended to the log and gets the reply for its position |
| Chat.ParseMention | pybot/endpoints/slack/commands.py:120 | a decoded mention is a prefix "<@U>" of the message, with no ">" in U |
| Chat.MentionRoundTrip | pybot/endpoints/slack/commands.py:244 | "<@U>" followed by any text reads back as U and that text |
| PyInt.ParseInt | pybot/endpoints/slack/commands.py:221-222 | `int()` accepts only text that, once the white space it skips (space, tab, line feed, vertical tab, form feed, carriage return) is stripped, is non-empty, ends in a digit and holds only digits, underscores and signs |
| PyInt.ParseSigned | pybot/endpoints/slack/commands.py:221-222 | on stripped text, only the first character may be a sign, the text ends in a digit, and a leading "-" gives a number <= 0 and anything else a number >= 0 |
| PyInt.IntRepr | pybot/endpoints/slack/commands.py:244 | `str(i)` is non-empty, ends in a digit and holds only digits and "-" |
| PyInt.ListRepr | pybot/endpoints/slack/commands.py:244 | `str(list)` is enclosed in one pair of brackets, holds only digits, "-", "," and " " inside them, and is "[]" exactly for the empty list |
| PyInt.ParseIntRoundTrip | pybot/endpoints/slack/commands.py:221-222 | `int()` reads `str(i)`, after any run of spaces, tabs, line feeds, vertical tabs, form feeds or carriage returns, back as i |
| PyInt.ParseIntPadded | pybot/endpoints/slack/commands.py:221-222 | `int()` reads `str(i)` back as i with such white space on both sides, as in the "3 " of "3 d6" |
| PyInt.ParseIntKeepsSeparators | pybot/endpoints/slack/commands.py:221 | `int()` rejects "\x1c3": the file separator 0x1C is not skipped, although Python counts it as white space elsewhere |
| PyInt.ParseIntOfRepr | pybot/endpoints/slack/commands.py:221-222 | `int(str(i)) == i` |
| PyInt.NatStr | pybot/endpoints/slack/commands.py:244 | the decimal numeral of n is non-empty, made of digits only, and its value is n |
| PyInt.ListRoundTrip | pybot/endpoints/slack/commands.py:244 | `str(list)` of integers reads back as the same list |
| PyInt.ItemsRoundTrip | pybot/endpoints/slack/commands.py:244 | the items "a, b, c" of a list split on commas into the items, and each item is read back by `int()` |
| Text.Split | pybot/endpoints/slack/commands.py:220 | `split("d")` gives at least one part, no part holds "d", and joining the parts with "d" gives back the text |
| Text.SplitJoin | pybot/endpoints/slack/commands.py:220 | splitting parts joined by "d" gives back the parts, when no part holds "d" |
| Text.Lower | pybot/endpoints/slack/commands.py:219 | `lower()` keeps the length and lower-cases each character on its own |
| Text.LowerOfNoUpper | pybot/endpoints/slack/commands.py:219 | a text without upper-case letters is its own lower case |
| Text.LowerConcat | pybot/endpoints/slack/commands.py:219 | lower-casing distributes over concatenation |
| Text.Strip | pybot/endpoints/slack/commands.py:221-222 | the stripped text is a slice of the input with only white space before and after it, and has no white space at either end |
| Text.StripPadded | pybot/endpoints/slack/commands.py:221-222 | stripping a text that starts and ends with non-space, padded with white space on both sides, gives back exactly that text |
| Text.Cut | pybot/endpoints/slack/commands.py:220 | the first cut at a character exists iff the character occurs, and the text is the part before it, the character, and the rest |
| Text.CutAt | pybot/endpoints/slack/commands.py:220 | a text is cut at the first occurrence of the character |
| Text.StripPrefix | pybot/endpoints/slack/commands.py:120 | removing a prefix succeeds iff the text starts with it, and the rest follows the prefix |
| Rand.Pick | pybot/endpoints/slack/commands.py:242 | `randint(lo, hi)` always lies in [lo, hi] |
| Rand.PickCovers | pybot/endpoints/slack/commands.py:242 | every value in [lo, hi] is the result of some draw |
| Rand.Random.RandInt | pybot/endpoints/slack/commands.py:242 | each call takes one draw from the stream and returns `randint` on it |

## Left out

- `slash_ticket`, `slash_mentor` and their templates are not part of this model.
- Logging is not part of this model.
- `create_endpoints` itself is not modelled. The registration only matters as the choice of handler, which is `Commands.Dispatch`.
- HTTP and the async chat client are not modelled as I/O. Their replies are injected: `respond(k)` for the k-th chat query, and the `Services` record for the moderator lookup and the restaurant search.
- The random generator is left out. Draws are an injected stream, and `randint(lo, hi)` is `lo + draw % (hi - lo + 1)`.
- The contents produced by `get_slash_here_messages`, `get_slash_repeat_messages`, `LunchCommand` (its request and `select_random_lunch`) and `not_claimed_attachment` are not modelled. Each is a function in `Services` or a constant attachment, because its code is outside this file.
- Commands.HereRun: `get_slash_here_messages` is given the chat client, but the model treats it as a pure function of the user, the channel and the text. Any query it makes is not in the log of calls, and a `SlackAPIError` it raises is not modelled (in the code the wrapper would turn it into the fallback notice, with no `/here` post). The bound of one or two calls, all `chat.postMessage`, holds under this abstraction.
- Chat.SlackApi.Query: a query either succeeds or raises `SlackAPIError`. Transport errors of the chat client, which the wrapper would not catch, are left out.
- `/here` takes the decoded lookup body only through its length. Failure to decode the JSON is not modelled separately from an unreachable service.
- `/lunch` treats a search that fails before a status arrives like `raise_for_status`: as the service error, which the wrapper does not catch.
- PyInt.ParseInt: models `int()` on ASCII text only. It accepts an optional sign and decimal digits with single underscores between them, after stripping space, tab, line feed, vertical tab, form feed and carriage return. Unicode digits and non-ASCII white space, which `int()` also accepts, are not modelled. The limit on the number of digits that recent Python versions impose (4300 by default) is not modelled: the model reads numerals of any length.
- Text.Lower: lower-cases ASCII letters only. Python's `str.lower()` also maps non-ASCII letters. No such letter lower-cases to "d" or to an ASCII digit, and non-ASCII digits are left out of `int()` above.
- Commands.Caught: states the notice's text through its decoder only when the command name holds no backquote. Otherwise the decoder cannot find where the command ends.
- Concurrency between handlers (`wait=False`) is not modelled. Each handler runs to completion on its own log of calls.
