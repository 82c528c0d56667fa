# PacketIRC client core, modelled in Dafny

PacketIRC is a small IRC client for packet-radio links. It lets an operator
who connects over a packet switch (an AX.25 BBS node) chat on one IRC
channel through a plain line-oriented terminal. The operator's amateur
callsign is the nickname. This project models the client's core logic,
all of it in `packetirc.py`:

- **the input loop** (`handle_user_input`): it reads the operator's lines and
  turns each one into requests on the connection, printed lines, and changes
  of the current channel and of the running flag;
- **the command table** inside that loop (`/quit`, `/msg`, `/join`, `/part`, `/nick`,
  `/list`, `/topic`, `/away`, `/me`, `/whois`, `/names`, `/slap`, `/lid`, `/help`);
- **the link-level disconnect notice** and plain channel text;
- **the outbound word filter** (`filter_input`);
- **the channel-name check** (`is_valid_channel_name`);
- **the SSID stripping of the callsign** (`base_call`);
- **the connect-and-retry phase of `main`**;
- **the event handlers of `PacketIRCClient`**, both those that change the
  client and those that format what they print.

Layout, one module per file:

| file | module | contents |
|---|---|---|
| `wrappers.dfy` | `Wrappers` | `Option` |
| `text.dfy` | `Text` | the parts of Python's `str` the client relies on, with their edge cases written out. These are whitespace (`str.isspace`, which the `re` class `\s` and `strip()`/`split()` share), `strip`, `split(' ', 1)`, `split()`, `join`, `lower`, `replace` and `str(int)` |
| `filter.dfy` | `WordFilter` | `filter_input` as a loop, against the specification function `Filtered` |
| `validation.dfy` | `Validation` | the two regular expressions `^[#][^\s,]+$` and `^[A-Z0-9]+`, including Python's `$` matching before a final newline |
| `protocol.dfy` | `Protocol` | the requests handed to the IRC library's connection object |
| `client.dfy` | `PacketClient` | the handlers. `Client` is a class whose methods update its callsign, current channel, sent requests and printed lines; the formatting-only handlers are functions |
| `interpreter.dfy` | `Interpreter` | one loop iteration as the pure decision table `Interpret`, the whole loop as `Run`, and the imperative loop `HandleUserInput`, proved to do what `Run` says |
| `session.dfy` | `Session` | the retry loop of `main` as the method `Connect`, proved equal to `ConnectionOf`, with lemmas on what that result means |

Where the behaviour of the code differs from its own comments or from the
usual description of the client, the model follows the code:

- the docstring of `is_valid_channel_name` names `&` channels, but the
  pattern admits only `#` (`AmpersandNameRejected`);
- `on_part` never clears the current channel, not even when the client itself
  leaves. Only the `/part` command does;
- `/topic` without an argument does not query the topic. It raises
  `AttributeError` on `connection.current_channel`, which the loop swallows.
  `/topic <text>` with the filter off raises `UnboundLocalError` the same way.
  Both send nothing;
- the part message of `/join` is the literal text `Switching to {command_args}`,
  because the `f` prefix of the string is missing;
- the disconnect notice sends QUIT, and the notice itself is then still sent
  to the channel;
- `/slap` and `/lid` are never filtered;
- a callsign that does not start with a capital letter or a digit makes
  `re.match` return `None`. The following `.group()` raises `AttributeError`,
  which `main` does not catch (`BadCallsign`).

Python's truth values are written out: "in a channel" means the current
channel is set and not empty (`InChannel`). An empty argument means "no
argument". An event with too few arguments, on which a handler raises
`IndexError`, gives `None`.

## Model

| member | source | states |
|---|---|---|
| Text.Strip | packetirc.py:270 | `input().strip()`: the result neither starts nor ends with whitespace, is no longer than the input, and a line already without surrounding whitespace is returned as it is |
| Text.StripKeepsMiddle | packetirc.py:270 | `strip()` drops only surrounding whitespace: the result is a middle slice of the line, and everything before and after it is whitespace |
| Text.TrimLeftSuffix | packetirc.py:270 | the left half of `strip()` keeps a suffix of the line and drops only whitespace in front of it |
| Text.TrimRightPrefix | packetirc.py:270 | the right half of `strip()` keeps a prefix of the line and drops only whitespace after it |
| Text.IndexOf | packetirc.py:278 | the position of the first space, or -1 exactly when there is none |
| Text.SplitOnce | packetirc.py:278 | `split(' ', 1)`: one part exactly when there is no space; otherwise the text before the first space (which holds no space) and the untouched rest, which rejoin to the input |
| Text.Lower | packetirc.py:279 | the result of `lower()` holds no capital letter and no Kelvin sign, and has the length of the input |
| Text.LowerIdempotent | packetirc.py:279 | lower-casing a second time changes nothing |
| Text.LowerKeepsLowered | packetirc.py:279 | a string without capitals is its own lower case, so the command names select themselves |
| Text.LowerKeepsPunctuation | packetirc.py:279 | a `/` or a space in the lower-cased word comes from a `/` or a space in the typed word |
| Text.Words | packetirc.py:176 | `split()`: every word is non-empty and holds no whitespace; `WordsOfSpaced` says which words come out |
| Text.WordsOfSpaced | packetirc.py:176 | `split()` of words with any whitespace between them (at least one character) and any whitespace before and after gives exactly those words |
| Text.WordsSkipGap | packetirc.py:176 | whitespace in front of a string, of any length, does not change its `split()` |
| Text.WordsOfJoin | packetirc.py:176-179 | splitting words that were joined with single spaces gives the same words back |
| Text.ReplaceAbsent | packetirc.py:571-572 | `replace` of a string that does not occur returns the text unchanged |
| Text.ReplaceLeftmost | packetirc.py:571-572 | `replace` rewrites the leftmost occurrence and resumes scanning after it |
| Text.DecimalString | packetirc.py:139 | `str(n)` is one or more decimal digits, with no leading zero unless n is 0 |
| Text.DecimalRoundTrip | packetirc.py:139 | reading back the digits of `str(n)` gives n |
| Text.DecimalLength | packetirc.py:139 | a number from `randint(0, 999)` takes one to three digits |
| WordFilter.FilterInput | packetirc.py:563-573 | the loop returns the text with every banned word, in list order, replaced by "!!!" (`Filtered`) |
| WordFilter.FilterNoBannedWord | packetirc.py:563-573 | text containing none of the banned words passes unchanged, and so does any text with an empty list |
| WordFilter.FilterBothOccurrences | packetirc.py:571-572 | every occurrence is redacted: "foo bar foo" becomes "!!! bar !!!" |
| WordFilter.FilterOrderMatters | packetirc.py:571-572 | the words are applied in list order, and the order can change the result |
| WordFilter.FilterBlankWord | packetirc.py:558 | a blank line of the word file is an empty banned word, which inserts "!!!" around every character |
| Validation.IsValidChannelName | packetirc.py:539-548 | a valid name is `#` followed by at least one character, each of them neither whitespace nor a comma, except a final newline that `$` lets through; `ValidChannelNameExactly` gives the converse |
| Validation.ValidChannelNameExactly | packetirc.py:539-548 | on input without trailing whitespace, a name is valid exactly when it is `#` followed by one or more characters, none of them whitespace or a comma |
| Validation.AmpersandNameRejected | packetirc.py:539-548 | a name starting with `&` is rejected, although the docstring allows it |
| Validation.TrailingNewlineAccepted | packetirc.py:545-548 | `$` accepts a single trailing newline but not two; `#` alone and a name with a comma are rejected |
| Validation.BaseCall | packetirc.py:611 | `None` exactly when the callsign does not start with a capital letter or digit; otherwise the longest non-empty prefix of capital letters and digits |
| Validation.BaseCallDropsSsid | packetirc.py:609-611 | the SSID is dropped: "N0CALL-7" gives "N0CALL" |
| PacketClient.NoticeLine | packetirc.py:92-99 | "-sender- text", with "SERVER" for a notice without a source; `None` when the notice has no text argument |
| PacketClient.WhoisLines | packetirc.py:116-131 | `None` exactly when fewer than five arguments arrive; otherwise the nick, user@host and name lines, with the server line between them unless the server field is only spaces and `*` |
| PacketClient.NamesLine | packetirc.py:171-179 | a line exactly when the reply has at least three arguments, starting with "Users in <channel>: " |
| PacketClient.NamesLineListsNames | packetirc.py:171-179 | the names of a list separated and surrounded by any whitespace are printed as exactly those names, separated by ", " |
| PacketClient.TruncateTopic | packetirc.py:252-253 | a topic is shown as at most 60 characters; a longer one is cut to its first 57 characters followed by "..." |
| PacketClient.ListLine | packetirc.py:243-256 | "channel [users] topic" with missing fields empty and the topic truncated |
| PacketClient.RetryNick | packetirc.py:133-140 | the new nickname is the old one, "_" and exactly `str()` of the random number (no leading zero), whose digits read back as that number; it is 2 to 4 characters longer |
| PacketClient.Client.constructor | packetirc.py:53-61 | a new client has the given callsign and no current channel |
| PacketClient.Client.OnWelcome | packetirc.py:101-114 | announces the server and joins the configured channel when one is set; nothing else changes |
| PacketClient.Client.OnJoin | packetirc.py:142-160 | our own join makes the channel current, announces it and asks for its topic; someone else's join is only announced |
| PacketClient.Client.OnPart | packetirc.py:162-169 | announces the departure with its reason, or "", and keeps the current channel |
| PacketClient.Client.OnQuit | packetirc.py:181-187 | announces the quit with its reason, or "", and keeps the current channel |
| PacketClient.Client.OnNicknameInUse | packetirc.py:133-140 | the callsign grows by "_" and the suffix, so it changes, and the new nickname is sent |
| PacketClient.Client.OnDisconnect | packetirc.py:63-68 | clears the running flag and prints "** Disconnected." |
| Interpreter.ParseCommand | packetirc.py:278-280 | the command name is the lower-cased text before the first space; the argument is the untouched rest, or "" |
| Interpreter.Classify | packetirc.py:270-274 | a line is a command exactly when its stripped form starts with "/"; otherwise it is the stripped text |
| Interpreter.VerbNameSelects | packetirc.py:283-494 | every command name of the table selects its own branch |
| Interpreter.VerbOfNamed | packetirc.py:283-494 | a name selects a branch only when it is exactly that branch's name, so it starts with "/" and holds no space |
| Interpreter.TypedCommand | packetirc.py:270-280 | whatever whitespace surrounds it, a line typed as a command word and an argument is that command, whatever the letter case of the word, with that argument unchanged; a word alone has the argument "" |
| Interpreter.TypedDispatch | packetirc.py:270-494 | the line typed for a command of the table is handled by that command's branch |
| Interpreter.RunCommand | packetirc.py:283-494 | the command table: it stops the loop exactly for `/quit`, only `/part` from inside a channel changes the channel (to none), and only `/topic` fails; `CommandSends` and `NoChannelNoSend` state the rest |
| Interpreter.PlainLine | packetirc.py:496-520 | text stops the loop exactly when it is the disconnect notice and never changes the channel; in a channel its last request is the PRIVMSG of the (filtered) text, outside one it prints the notice and sends only the QUIT of the disconnect notice |
| Interpreter.Interpret | packetirc.py:270-520 | one iteration: the channel changes only on `/part`, to none, and only `/topic` fails; `SendsNeedChannel`, `StopsOnlyOnQuit` and `FilterOnlyRewritesText` state the rest |
| Interpreter.QuitRule | packetirc.py:283-298 | typing `/quit` in any letter case stops the loop after one QUIT carrying the typed message, or "73", filtered when the filter is on; nothing is printed and the channel is kept |
| Interpreter.MsgRule | packetirc.py:301-317 | `/msg` sends one PRIVMSG to the text before the first space of the argument, carrying the rest, when there is such a space; otherwise it prints its usage and sends nothing |
| Interpreter.JoinRule | packetirc.py:320-336 | `/join <name>` sends exactly when the typed name is valid: the JOIN of that name last, after the PART of the current channel, if any, with the literal message "Switching to {command_args}". It never changes the current channel, and a missing or invalid name prints one line |
| Interpreter.PartRule | packetirc.py:339-359 | after `/part` the client is in no channel; from inside one it sends one PART of it with the typed message, or "Leaving", and reports it, from outside it only prints the notice |
| Interpreter.NickRule | packetirc.py:361-369 | `/nick` sends the typed name as it is, never filtered; without one it prints its usage and sends nothing |
| Interpreter.WhoisRule | packetirc.py:434-445 | `/whois` asks about the typed nick as it is, never filtered, in or out of a channel; without one it prints its usage and sends nothing |
| Interpreter.ListRule | packetirc.py:371-374 | `/list` asks for the channel list whatever follows the word |
| Interpreter.TopicRule | packetirc.py:376-399 | `/topic` sends only in a channel, with a topic typed and the filter on, and then the filtered topic for the current channel; every other case in a channel fails, is swallowed and sends and prints nothing |
| Interpreter.AwayRule | packetirc.py:401-411 | `/away` sends one raw "AWAY :" line carrying the typed message, or "AFK", filtered when the filter is on, in or out of a channel |
| Interpreter.MeRule | packetirc.py:413-432 | `/me` sends exactly when in a channel with an action typed: that action, filtered when the filter is on, to the channel; otherwise one usage or notice line |
| Interpreter.SlapRule | packetirc.py:457-469 | `/slap` sends exactly when in a channel with a nick typed: the fixed coax emote around the nick, unfiltered; otherwise one usage or notice line |
| Interpreter.LidRule | packetirc.py:471-482 | `/lid` sends one unfiltered emote exactly when in a channel: the LID alarm at the typed nick, or "may possibly be a LID."; outside a channel it prints its own notice |
| Interpreter.NamesRule | packetirc.py:447-455 | `/names` asks for the names of the current channel only, whatever follows the word; outside a channel it prints its notice and changes nothing |
| Interpreter.HelpRule | packetirc.py:484-486 | `/help` prints the configured help text and does nothing else |
| Interpreter.UnknownCommandNoSend | packetirc.py:493-494 | a command word that is none of the table's, in any letter case, prints "Unknown command." and sends, stops and changes nothing |
| Interpreter.NoChannelNoSend | packetirc.py:339-482 | outside a channel, `/part`, `/topic`, `/me`, `/names`, `/slap` and `/lid` print one notice and send, stop and change nothing |
| Interpreter.CommandSends | packetirc.py:283-494 | for every command: a request goes out only for an unguarded command or inside a channel; it fails only as `/topic`, exactly when it neither sends nor prints; it prints at most one line and only `/part` both sends and prints; only `/join` from a channel sends two requests; `/join` sends exactly for a valid name; `/topic` without the filter never sends |
| Interpreter.FilterOnlyRewritesText | packetirc.py:283-520 | the filter changes what is said, never what is done: for every line but `/topic`, any two filter settings and word lists give requests of the same kinds to the same targets, the same printed lines, channel and running flag |
| Interpreter.CommandFilterOnlyRewritesText | packetirc.py:283-494 | the same for every command but `/topic`, branch by branch |
| Interpreter.UnfilteredCommands | packetirc.py:320-494 | `/join`, `/nick`, `/whois`, `/list`, `/names`, `/slap`, `/lid` and unknown commands do not depend on the filter or its word list at all |
| Interpreter.PlainLineRule | packetirc.py:496-520 | a line that does not start with "/" after stripping goes to the current channel as one PRIVMSG of the stripped text, filtered when the filter is on, or prints the notice outside a channel; the disconnect notice first sends QUIT and stops the loop; text never changes the channel |
| Interpreter.SendsNeedChannel | packetirc.py:274-520 | a line sends something only while in a channel, for an unguarded command, or for the disconnect notice |
| Interpreter.ChannelChangesOnlyOnPart | packetirc.py:339-356 | only `/part` inside a channel changes the current channel, and it clears it |
| Interpreter.StopsOnlyOnQuit | packetirc.py:283-505 | a line stops the loop exactly when it is `/quit` or the disconnect notice |
| Interpreter.DisconnectFallsThrough | packetirc.py:499-517 | in a channel, the disconnect notice sends QUIT with no message and then the notice itself to the channel |
| Interpreter.Run | packetirc.py:267-531 | the loop reads at most all of its inputs, and reads all of them when it is still running at the end |
| Interpreter.NothingAfterStop | packetirc.py:267-527 | once the loop has stopped, later input is never read, sent or printed |
| Interpreter.ReadLoop | packetirc.py:267-531 | the while loop applies each line's sends, prints and channel change to the client, as `Run` describes, and returns the running flag |
| Interpreter.HandleUserInput | packetirc.py:259-531 | `handle_user_input` is the loop run with the command table |
| Session.MaxAttempts | packetirc.py:614-630 | the number of attempts is `MAX_RETRIES` when that is at least 1, and exactly 1 otherwise |
| Session.AttemptsMeaning | packetirc.py:599-635 | from a given attempt on, the phase ends at the first attempt that is not refused, or gives up after the last allowed attempt |
| Session.ConnectionMeaning | packetirc.py:599-635 | never more attempts than allowed. It connects at the first accepted attempt, every earlier one refused, with the full callsign as nickname and the base call as user name. It stops at the first socket failure. It gives up exactly when every allowed attempt was refused. A bad callsign ends it before any attempt |
| Session.FirstAnswerDecides | packetirc.py:599-635 | conversely, the first attempt that is not refused decides the outcome and the number of attempts |
| Session.ThreeRetries | packetirc.py:614-630 | with `MAX_RETRIES` of 3, two refusals and then an acceptance connect on the third attempt and do not count as exhausted |
| Session.Connect | packetirc.py:598-635 | the retry loop returns `ConnectionOf` of its inputs |

## Left out

- **The IRC library** (`irc.client`): encoding of requests on the wire, the
  reactor, keepalive, and the library's own checks and exceptions. Requests
  are recorded as `Protocol.Command` values, in order.
- **Errors raised while sending** (for instance a too-long line) are not
  modelled: every request is taken as handed over.
- **Threads**: the input thread and the main thread share `is_running`.
  `HandleUserInput` models only what the input thread itself does to the
  flag, starting with the flag set. A flag cleared meanwhile by
  `on_disconnect` is not modelled.
- **Terminal input and output are values**: input is a sequence of
  `Input` values, and the printed lines are a sequence of strings.
  Logging is not modelled.
- **The end of input** (Ctrl-D or Ctrl-C) stops the loop. The disconnect call
  made then is not modelled.
- **`load_bad_words`**: it reads a file. The word list is a parameter.
- **Randomness**: the random suffix of `on_nicknameinuse` is a parameter.
- **Connection outcomes**: the delay before each retry (`time.sleep`) is not
  modelled. Whether each connection attempt works is a parameter.
- **The rest of `main`**: its printed progress lines and its final run loop
  (`process_once`, lost connection, shutdown) are I/O over the library and
  are not modelled.
- **Handlers that only print their arguments**: `on_motdstart`, `on_motd`,
  `on_privmsg`, `on_pubmsg`, `on_action`, `on_topic`, `on_currenttopic`,
  `on_error` and `on_topicprotected` are left out.
- **Settings and entry point**: the settings module and the callsign prompt
  at the bottom of the file are left out.
- Text.Lower: models `lower()` for the ASCII capitals and the Kelvin sign
  only. These are the characters whose lower case is an ASCII letter, and so
  the only ones that can turn a name into one of the command names.
  Other characters are kept.
