# Broadcast session of MyyyForwarderRobot

MyyyForwarderRobot is a Telegram bot. Its single owner forwards messages to
it, picks some of two fixed destination channels with inline buttons, and
presses POST. The bot then copies every staged message to every selected
channel. This project models the state behind that flow: the two lists the
bot keeps in `context.user_data`. `forwarded_messages` holds the staged
messages and `selected_channels` holds the chosen channel ids. The project
proves what each handler does to them and to the text it shows.

- `Text` (text.dfy): Python's `str` of an integer, `int` of a string, and
  `split`/`join` on one separator character, with their round trips.
- `Channels` (channels.dfy): `FIXED_CHANNELS`, `list.index`, the channel
  keyboard and its callback data, and the branch chain that decodes a press.
- `Selection` (selection.dfy): the toggle (`remove` or `append`), its
  involution and commutation lemmas, and the status text shown after a toggle.
- `Dispatch` (dispatch.dfy): the nested send loop as a method proved against
  specification functions (the order of attempts, the error log), and the
  error report with its five-entry bound.
- `Bot` (bot.dfy): a `Session` class whose fields are the two lists. Its
  methods are `handle_forwarded` and the branches of `handle_callback`,
  including the owner check.

Sending a message is an oracle, `Transport = (Message, ChannelId) -> SendResult`.
A send either returns or raises an exception with some text.

In these places the code does something other than what one might expect, and the model follows the code:
- An id that is not in `FIXED_CHANNELS` is toggled like any other: appended
  when absent (main.py:97), removed when present (main.py:95). The status
  lookup (main.py:100) then raises ValueError for the first selected id that
  is not in `FIXED_CHANNELS`, if there is one, and the new selection is kept.
  The model gives `Raised(UnknownChannel(id))` for that first id.
- The toggle status lists only the selected channels, in selection order
  rather than configuration order. Each line gives the channel's 1-based
  position in `FIXED_CHANNELS`. There is no line for an unselected channel.
- A post that gets past its checks empties both lists. Pressing POST again
  therefore answers "Please select at least one channel" (main.py:125), not
  "No messages to post".
- The selection is a list, not a set. Toggling a selected channel off and
  on again moves it to the end of the list.

## Model

| member | source | states |
|---|---|---|
| Text.IntToString | main.py:67 | `str` of an integer, defined by its body; its properties are stated by Text.IntToStringCanonical and Text.ParseIntToString |
| Text.ParseInt | main.py:93 | `int` of a string, defined by its body (None where Python raises ValueError); its properties are stated by Text.ParseIntToString and Text.IntToStringOfParse |
| Text.NatToString | main.py:67 | `str` of a natural number is a non-empty string of decimal digits with no leading zero |
| Text.ParseIntToString | main.py:67-93 | `int(str(n)) == n` for every integer, negative channel ids included (no digit limit; see Left out) |
| Text.NatToStringOfDigits | main.py:93 | a digit string without sign or leading zero is exactly `str` of the value `int` reads from it |
| Text.IntToStringCanonical | main.py:67 | `str` of any integer is canonical: digits without a leading zero, or a minus sign before the digits of a positive number |
| Text.IntToStringOfParse | main.py:93 | a canonical string is accepted by `int`, and `str` of the value gives the same string back |
| Text.Split | main.py:93 | `split` on one character gives at least one piece, none holding the separator, and more than one piece exactly when the separator occurs |
| Text.Join | main.py:100-101 | `sep.join(parts)` for a one-character separator, defined by its body; its properties are stated by Text.JoinSplit and used by Selection.ToggleStatusNone and Dispatch.ReportLinesJoin |
| Text.JoinSplit | main.py:93 | joining the pieces of a split with the same separator gives the original string back |
| Channels.IndexOf | main.py:100 | `list.index` finds a position exactly when the id is in the list; the position holds the id and no earlier position does |
| Channels.ToggleData | main.py:67 | the callback data of a channel button, defined by its body; Channels.ParseToggleData and Channels.ToggleDataOfCanonical state that it decodes to its channel and back |
| Channels.ChannelSelectionKeyboard | main.py:65-77 | `channel_selection_keyboard`, defined by its body over FIXED_CHANNELS; Channels.ChannelSelectionKeyboardDecodes states what its buttons do |
| Channels.KeyboardFor | main.py:65-77 | the keyboard has one row per channel plus the select/unselect row and the post row |
| Channels.ParseCallback | main.py:92-121 | the if/elif chain of `handle_callback` on the callback data, defined by its body; Channels.ParseToggleData, Channels.ToggleDataOfCanonical and Channels.ParseActionData state what it decodes |
| Channels.ParseToggleData | main.py:67-93 | decoding the toggle data of any channel id gives a toggle of that same id |
| Channels.ToggleDataOfCanonical | main.py:92-93 | data made of the toggle prefix and a canonical id without a further underscore decodes to a toggle whose own data is that same string |
| Channels.ParseActionData | main.py:71-75 | the select-all, unselect-all and post buttons' data decode to those actions, not to a toggle |
| Channels.KeyboardDecodes | main.py:65-77 | row i is labelled with position i + 1 and its button toggles channel i; the last two rows decode to select all, unselect all and post |
| Channels.ChannelSelectionKeyboardDecodes | main.py:65-77 | the bot's own keyboard has four rows; "Channel 1" and "Channel 2" toggle the first and second configured channel, and the action buttons decode to select all, unselect all and post |
| Selection.RemoveAt | main.py:95 | dropping position i leaves one element fewer; the elements before i keep their positions and the ones after move one place forward |
| Selection.RemoveFirst | main.py:95 | `remove` takes out the first occurrence of the channel, exactly one copy; the remaining channels keep their order |
| Selection.Toggled | main.py:94-97 | the toggle, defined by its body; Selection.ToggleMembership, Selection.ToggledMultiset, Selection.ToggleTwice and Selection.DisjointTogglesCommute state its properties |
| Selection.ToggleMembership | main.py:94-97 | after a toggle the channel is selected exactly when it was not, and every other channel's membership is unchanged |
| Selection.ToggleKeepsNoDup | main.py:94-97 | a toggle keeps a duplicate-free selection duplicate-free |
| Selection.ToggleTwice | main.py:92-99 | toggling one channel twice restores the selection as a collection; an absent channel leaves the list unchanged; a present one ends up last |
| Selection.ToggledMultiset | main.py:94-97 | a toggle takes one copy of the channel out of the selection when it is there and adds one otherwise; nothing else changes |
| Selection.ToggledCount | main.py:94-97 | after a toggle of c, c occurs once less or once more and every other channel as often as before |
| Selection.DisjointTogglesCommute | main.py:92-99 | toggles of two different channels give the same collection in either order |
| Selection.ToggleKnownRenders | main.py:92-101 | while the selection holds only configured channels, toggling a configured channel keeps it so and the status renders without error |
| Selection.StatusLines | main.py:100-101 | the status fails exactly when some selected id is not configured, and then names the first such id; otherwise there is one line per selected channel, in selection order, giving its 1-based configured position |
| Selection.ToggleStatus | main.py:100-101 | the status text, defined by its body as the joined lines or "None"; Selection.ToggleStatusNone states when it is "None" and what it is otherwise |
| Selection.ToggleStatusNone | main.py:100-101 | the status text is "None" exactly when nothing is selected; otherwise it is the status lines joined by newlines |
| Dispatch.Pairs | main.py:141-142 | the order of the nested loop, defined by its body; Dispatch.PairsCover states which pairs it holds and Dispatch.SendAll that the loop follows it |
| Dispatch.PairsCover | main.py:141-142 | the loop makes \|msgs\| × \|chans\| attempts, one for each message and each channel, and no others |
| Dispatch.FailedAttempts | main.py:143-146 | the failed attempts are exactly the attempts whose send raised, each counted as often as it was made |
| Dispatch.ErrorLog | main.py:140-146 | `errors` after a sequence of attempts, defined by its body; Dispatch.ErrorLogNamesFailures and Dispatch.NoErrorsIffAllSent state its properties |
| Dispatch.EntryText | main.py:146 | the text of one error entry, defined by its body (the channel id in decimal and the exception text) |
| Dispatch.ErrorLogNamesFailures | main.py:140-146 | there are as many error entries as failed attempts, and entry k names the channel and carries the exception text of the k-th failed attempt |
| Dispatch.NoErrorsIffAllSent | main.py:140-146 | the error list is empty exactly when every attempted send went through |
| Dispatch.SendAll | main.py:140-146 | the calls go messages outer, channels inner, in list order; a failure does not stop later sends; the errors are the error log of those calls |
| Dispatch.OneFailedPair | main.py:140-146 | with two messages and two channels where only the first message fails on the second channel, there is exactly one entry, and it names that channel |
| Dispatch.ErrorReport | main.py:153-156 | the failure report, defined by its body in the same two steps as the code; Dispatch.ReportLinesJoin, Dispatch.ErrorReportLines and Dispatch.SevenFailuresReport state its layout |
| Dispatch.PostReport | main.py:152-159 | the final edit text: the success text when nothing failed, the failure report otherwise; defined by its body |
| Dispatch.ReportLinesLayout | main.py:153-156 | the report lines are the header, the first min(n, 5) entries in order, and the "... and n-5 more errors." line exactly when n > 5 |
| Dispatch.ReportLinesJoin | main.py:153-156 | the report text is those lines joined by newlines |
| Dispatch.ErrorReportLines | main.py:153-156 | every failure report is the header, at most five entries and the trailer when needed, joined by newlines |
| Dispatch.SevenFailuresReport | main.py:153-156 | seven failures show five entries and end with "... and 2 more errors." |
| Bot.ToggleResponse | main.py:100-105 | the edit after a toggle or the ValueError of the lookup, defined by its body over Selection.ToggleStatus |
| Bot.PostTransition | main.py:121-159 | the relation the post branch establishes between the lists before and after, the response and the sends made; Bot.Session.PostStaged ensures it |
| Bot.Session.constructor | main.py:51-53 | a session starts with no staged message and no selected channel |
| Bot.Session.HandleForwarded | main.py:46-62 | the owner's message is appended at the end and earlier ones keep their order; the selection is untouched; a stranger changes nothing |
| Bot.Session.ToggleChannel | main.py:92-105 | the selection becomes the toggle of the old one; staged messages are untouched; the reply is the status or the lookup error |
| Bot.Session.SelectAllChannels | main.py:107-112 | the selection becomes FIXED_CHANNELS and staged messages are untouched |
| Bot.Session.UnselectAllChannels | main.py:114-119 | the selection becomes empty and staged messages are untouched |
| Bot.Session.PostStaged | main.py:121-159 | with no selection: the select-channel warning, no send, no change; else with no messages: the no-messages warning, no send, no change; else every pair is sent, both lists are emptied, and the report is shown |
| Bot.Session.HandleCallback | main.py:80-159 | a stranger gets the alert and changes nothing; otherwise each decoded action does what its branch does, unreadable toggle data raises without change, and unknown data does nothing |
| Bot.PostTwice | main.py:125-150 | after a post that passed its checks, a second post answers "select at least one channel" and sends nothing |

## Left out

- The `start` command (main.py:28-43) is not modelled. It only creates the two lists when they are missing and sends a welcome text. Every other handler already reads a missing list as empty, and the `Session` starts empty.
- The Telegram transport is not modelled: `reply_text`, `edit_message_text`, `query.answer()` and `msg.copy`. Handlers return a `Response` value instead, and sends go to the `Transport` oracle. The inline keyboard is a list of rows of (text, data) buttons, not an `InlineKeyboardMarkup`.
- async/await, the polling loop and handler registration (main.py:161-167) are not modelled. Each handler call is one sequential method call.
- Loading `TOKEN` and `OWNER_ID` from the environment (main.py:13-16) is not modelled. The owner id is a constructor parameter.
- Exception objects are not modelled. The text of a failed send is an opaque `detail` string.
- Other users' `user_data` is not modelled. A `Session` belongs to the owner, and other callers only get the refusal.
- Dispatch.SendAll: the transport is a function of (message, channel), so sending the same message twice to the same channel always has the same outcome. The real copy call could succeed once and fail the next time.
- Text.ParseInt (used by Channels.ParseCallback) reads only an optional sign and ASCII digits. Python's `int` also strips surrounding whitespace and accepts other Unicode decimal digits; none of that can come from the bot's own buttons.
- Exceptions raised by the transport inside reply or edit calls are not modelled. Neither is what the framework does with an exception that escapes a handler (`Raised`).
- Text.IntToString and Text.ParseInt have no digit limit. Python 3.11 and later raise ValueError from `str` and `int` beyond 4300 decimal digits (`sys.get_int_max_str_digits`); channel ids have 13 or 14 characters, far below it.
