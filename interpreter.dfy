/**
 * `handle_user_input`: the loop that reads the operator's lines and turns each
 * into requests on the connection, printed lines, and changes of the current
 * channel and of the running flag.  One iteration is the pure decision table
 * `Interpret`; `Run` folds it over a sequence of inputs and `HandleUserInput`
 * is the loop itself, proved to do what `Run` describes.
 */
module Interpreter {
  import opened Wrappers
  import opened Text
  import opened Protocol
  import opened WordFilter
  import opened Validation
  import opened PacketClient

  /** The settings the loop reads: the filter toggle, the banned words and the help text. */
  datatype Config = Config(filterEnabled: bool, badWords: seq<string>, helpText: string)

  /** Outbound user text passes through the filter only when it is switched on. */
  function Censor(cfg: Config, text: string): string {
    if cfg.filterEnabled then Filtered(cfg.badWords, text) else text
  }

  /** One loop iteration: what it sends and prints, the current channel after
      it, whether it stops the loop, and whether it raised an exception that
      the loop's generic handler swallowed. */
  datatype Step = Step(sends: seq<Command>, prints: seq<string>, channel: Option<string>,
                       stop: bool, swallowed: bool)

  /** Python's truth value of `current_channel`: set and not empty. */
  predicate InChannel(channel: Option<string>) {
    channel.Some? && channel.value != ""
  }

  const NotInChannel: string := "** You are not currently in any channel."
  const NotInChannelNames: string := "** You're not currently in any channel."
  const NotInChannelLid: string := "** You are not currently in any channel. Are you the LID?"
  const MsgUsage: string := "Usage: /msg <nickname> <message> - Sends a private message to the specified user."
  const JoinUsage: string := "Usage: /join <channel> - Joins the specified channel."
  const NickUsage: string := "Usage: /nick <nickname> - Changes your nickname."
  const MeUsage: string := "Usage: /me <action> - Performs an action."
  const WhoisUsage: string := "Usage: /whois <nickname> - Retrieves information about the specified user."
  const SlapUsage: string := "Usage: /slap <nickname> - Slaps a user around a bit with some coax."
  const InvalidChannel: string := "** Invalid channel name."
  const UnknownCommand: string := "Unknown command."
  const DisconnectMarker: string := "*** Disconnected from"
  /** The part message of `/join`, literally: the source forgot the `f` of an f-string. */
  const SwitchingMessage: string := "Switching to {command_args}"

  /** A command line split into its lower-cased name and its argument text. */
  datatype CommandLine = CommandLine(name: string, args: string)

  /** `message.split(' ', 1)`: the name is the text before the first space,
      lower-cased; the argument is everything after that space, unchanged, or
      "" when there is no space. */
  function ParseCommand(message: string): (c: CommandLine)
    ensures ' ' in message ==>
              var i := IndexOf(message, ' ');
              c.name == Lower(message[..i]) && c.args == message[i + 1..]
    ensures ' ' !in message ==> c.name == Lower(message) && c.args == ""
  {
    var parts := SplitOnce(message);
    CommandLine(Lower(parts[0]), if |parts| == 2 then parts[1] else "")
  }

  /** The commands of the table, and `Unknown` for any other name. */
  datatype Verb =
    | QuitVerb | MsgVerb | JoinVerb | PartVerb | NickVerb | ListVerb | TopicVerb | AwayVerb
    | MeVerb | WhoisVerb | NamesVerb | SlapVerb | LidVerb | HelpVerb | Unknown

  /** Which branch of the `if`/`elif` chain a lower-cased name selects. */
  function VerbOf(name: string): Verb {
    if name == "/quit" then QuitVerb
    else if name == "/msg" then MsgVerb
    else if name == "/join" then JoinVerb
    else if name == "/part" then PartVerb
    else if name == "/nick" then NickVerb
    else if name == "/list" then ListVerb
    else if name == "/topic" then TopicVerb
    else if name == "/away" then AwayVerb
    else if name == "/me" then MeVerb
    else if name == "/whois" then WhoisVerb
    else if name == "/names" then NamesVerb
    else if name == "/slap" then SlapVerb
    else if name == "/lid" then LidVerb
    else if name == "/help" then HelpVerb
    else Unknown
  }

  /** The name of each command of the table. */
  function VerbName(v: Verb): string
    requires v != Unknown
  {
    match v
    case QuitVerb => "/quit"
    case MsgVerb => "/msg"
    case JoinVerb => "/join"
    case PartVerb => "/part"
    case NickVerb => "/nick"
    case ListVerb => "/list"
    case TopicVerb => "/topic"
    case AwayVerb => "/away"
    case MeVerb => "/me"
    case WhoisVerb => "/whois"
    case NamesVerb => "/names"
    case SlapVerb => "/slap"
    case LidVerb => "/lid"
    case HelpVerb => "/help"
  }

  /** Each command's name selects that command. */
  lemma VerbNameSelects(v: Verb)
    requires v != Unknown
    ensures VerbOf(VerbName(v)) == v
  {
  }

  /** Conversely, a name selects a command only when it is exactly that
      command's name; so every such name starts with "/" and holds no space. */
  lemma VerbOfNamed(name: string)
    requires VerbOf(name) != Unknown
    ensures name == VerbName(VerbOf(name))
    ensures |name| >= 2 && name[0] == '/' && ' ' !in name
  {
  }

  /** A stripped input line: a command (it starts with "/") or chat text. */
  datatype UserLine = Slash(verb: Verb, args: string) | Chat(message: string)

  /** `input().strip()` and the test `message.startswith('/')`. */
  function Classify(line: string): (u: UserLine)
    ensures u.Chat? <==> !StartsWith(Strip(line), "/")
    ensures u.Chat? ==> u.message == Strip(line)
  {
    var message := Strip(line);
    if StartsWith(message, "/") then
      var c := ParseCommand(message);
      Slash(VerbOf(c.name), c.args)
    else Chat(message)
  }

  function Print(channel: Option<string>, line: string): Step {
    Step([], [line], channel, false, false)
  }

  function Send(channel: Option<string>, cmds: seq<Command>): Step {
    Step(cmds, [], channel, false, false)
  }

  function Swallowed(channel: Option<string>): Step {
    Step([], [], channel, false, true)
  }

  /** The branches of the command table, for a line that starts with "/". */
  function RunCommand(cfg: Config, channel: Option<string>, verb: Verb, args: string): (st: Step)
    ensures st.stop <==> verb == QuitVerb
    ensures st.channel != channel ==> verb == PartVerb && InChannel(channel) && st.channel == None
    ensures st.swallowed ==> verb == TopicVerb
  {
    match verb
    case QuitVerb =>
      Step([Quit(Censor(cfg, if args != "" then args else "73"))], [], channel, true, false)
    case MsgVerb =>
      var parts := SplitOnce(args);
      if |parts| == 2 then Send(channel, [PrivMsg(parts[0], Censor(cfg, parts[1]))])
      else Print(channel, MsgUsage)
    case JoinVerb =>
      if args == "" then Print(channel, JoinUsage)
      else if !IsValidChannelName(args) then Print(channel, InvalidChannel)
      else
        var leave := if InChannel(channel) then [Part(channel.value, SwitchingMessage)] else [];
        Send(channel, leave + [Join(args)])
    case PartVerb =>
      if InChannel(channel) then
        var message := Censor(cfg, if args != "" then args else "Leaving");
        Step([Part(channel.value, message)], ["** Left " + channel.value], None, false, false)
      else Print(channel, NotInChannel)
    case NickVerb =>
      if args != "" then Send(channel, [Nick(args)]) else Print(channel, NickUsage)
    case ListVerb =>
      Send(channel, [ListChannels])
    case TopicVerb =>
      if !InChannel(channel) then Print(channel, NotInChannel)
      // With the filter off, `topic` is never bound: UnboundLocalError.
      else if args != "" && !cfg.filterEnabled then Swallowed(channel)
      else if args != "" then Send(channel, [Topic(channel.value, Some(Filtered(cfg.badWords, args)))])
      // `irc_client.connection.current_channel` does not exist: AttributeError.
      else Swallowed(channel)
    case AwayVerb =>
      Send(channel, [SendRaw("AWAY :" + Censor(cfg, if args != "" then args else "AFK"))])
    case MeVerb =>
      if !InChannel(channel) then Print(channel, NotInChannel)
      else if args != "" then Send(channel, [Action(channel.value, Censor(cfg, args))])
      else Print(channel, MeUsage)
    case WhoisVerb =>
      if args != "" then Send(channel, [Whois(args)]) else Print(channel, WhoisUsage)
    case NamesVerb =>
      if InChannel(channel) then Send(channel, [Names(channel.value)])
      else Print(channel, NotInChannelNames)
    case SlapVerb =>
      if !InChannel(channel) then Print(channel, NotInChannel)
      else if args != "" then
        Send(channel, [Action(channel.value, "slaps " + args + " around a bit with some coax.")])
      else Print(channel, SlapUsage)
    case LidVerb =>
      if !InChannel(channel) then Print(channel, NotInChannelLid)
      else if args != "" then
        Send(channel, [Action(channel.value, "presses the LID alarm while looking at " + args + ".")])
      else Send(channel, [Action(channel.value, "may possibly be a LID.")])
    case HelpVerb =>
      Print(channel, cfg.helpText)
    case Unknown =>
      Print(channel, UnknownCommand)
  }

  /** A line that is not a command: a link-level disconnect notice sends QUIT
      and stops the loop, and then, like any other text, goes to the current
      channel. */
  function PlainLine(cfg: Config, channel: Option<string>, message: string): (st: Step)
    ensures st.stop <==> StartsWith(message, DisconnectMarker)
    ensures st.channel == channel && !st.swallowed
    ensures st.sends != [] ==> InChannel(channel) || StartsWith(message, DisconnectMarker)
    ensures InChannel(channel) ==>
              |st.sends| >= 1 && st.sends[|st.sends| - 1] == PrivMsg(channel.value, Censor(cfg, message))
              && st.prints == []
    ensures !InChannel(channel) ==> st.prints == [NotInChannel]
  {
    var disconnected := StartsWith(message, DisconnectMarker);
    var quit := if disconnected then [Quit("")] else [];
    if InChannel(channel) then
      Step(quit + [PrivMsg(channel.value, Censor(cfg, message))], [], channel, disconnected, false)
    else
      Step(quit, [NotInChannel], channel, disconnected, false)
  }

  /** One iteration of the loop on the line the operator typed.  Only `/part`
      can change the current channel, and only `/topic` can fail. */
  function Interpret(cfg: Config, channel: Option<string>, line: string): (st: Step)
    ensures st.channel != channel ==>
              st.channel == None && Classify(line).Slash? && Classify(line).verb == PartVerb
    ensures st.swallowed ==> Classify(line).Slash? && Classify(line).verb == TopicVerb
  {
    match Classify(line)
    case Slash(verb, args) => RunCommand(cfg, channel, verb, args)
    case Chat(message) => PlainLine(cfg, channel, message)
  }

  /** A command line is handled by its branch of the table, any other line as text. */
  lemma InterpretDispatch(cfg: Config, channel: Option<string>, line: string)
    ensures Classify(line).Slash? ==>
              Interpret(cfg, channel, line) == RunCommand(cfg, channel, Classify(line).verb, Classify(line).args)
    ensures Classify(line).Chat? ==>
              Interpret(cfg, channel, line) == PlainLine(cfg, channel, Classify(line).message)
  {
  }

  /** `/msg` sends exactly one PRIVMSG, to the text before the argument's first
      space and carrying the rest, when there is such a space; otherwise it
      prints its usage and sends nothing. */
  lemma MsgRule(cfg: Config, channel: Option<string>, a: string)
    ensures var st := RunCommand(cfg, channel, MsgVerb, a); var i := IndexOf(a, ' ');
            && (' ' in a ==> st == Send(channel, [PrivMsg(a[..i], Censor(cfg, a[i + 1..]))]))
            && (' ' !in a ==> st == Print(channel, MsgUsage))
  {
  }

  /** What the operator types for a command: the command word, then a space
      and the argument when there is one. */
  function Typed(word: string, a: string): string {
    if a == "" then word else word + " " + a
  }

  /** The first `c` of `s` is at `k` when `s[k]` is one and none comes before it. */
  lemma IndexOfFirst(s: string, c: char, k: nat)
    requires k < |s| && s[k] == c && c !in s[..k]
    ensures IndexOf(s, c) == k
  {
  }

  /** A word that names a command of the table in some mix of letter case
      starts with "/" and holds no space. */
  lemma CommandWord(word: string)
    requires VerbOf(Lower(word)) != Unknown
    ensures |word| >= 1 && word[0] == '/' && ' ' !in word
  {
    VerbOfNamed(Lower(word));
    LowerKeepsPunctuation(word);
    forall i | 0 <= i < |word|
      ensures word[i] != ' '
    {
      assert Lower(word)[i] in Lower(word);
    }
  }

  /** Whatever whitespace surrounds it, a line typed as a command word and an
      argument is that command, chosen whatever the letter case of the word,
      with that argument, unchanged; a word alone has the argument "". */
  lemma TypedCommand(line: string, word: string, a: string)
    requires |word| >= 1 && word[0] == '/' && ' ' !in word
    requires Strip(line) == Typed(word, a)
    ensures Classify(line) == Slash(VerbOf(Lower(word)), a)
  {
    var m := Strip(line);
    assert m[..1] == "/";
    if a != "" {
      assert m[..|word|] == word;
      IndexOfFirst(m, ' ', |word|);
      assert m[|word| + 1..] == a;
    }
  }

  /** The line typed for a command is handled by that command's branch. */
  lemma TypedDispatch(cfg: Config, channel: Option<string>, line: string, word: string, a: string)
    requires VerbOf(Lower(word)) != Unknown && Strip(line) == Typed(word, a)
    ensures Interpret(cfg, channel, line) == RunCommand(cfg, channel, VerbOf(Lower(word)), a)
  {
    CommandWord(word);
    TypedCommand(line, word, a);
    InterpretDispatch(cfg, channel, line);
  }

  /** `/quit`, with or without a message: the loop stops after exactly one
      request, a QUIT carrying the typed message, or "73", filtered when the
      filter is on; nothing is printed and the channel is kept. */
  lemma QuitRule(cfg: Config, channel: Option<string>, line: string, word: string, a: string)
    requires VerbOf(Lower(word)) == QuitVerb && Strip(line) == Typed(word, a)
    ensures var st := Interpret(cfg, channel, line);
            && st.stop && st.prints == [] && st.channel == channel && !st.swallowed
            && st.sends == [Quit(Censor(cfg, if a != "" then a else "73"))]
  {
    TypedDispatch(cfg, channel, line, word, a);
  }

  /** `/join <name>`: a request goes out exactly when the typed name is a valid
      channel name, and then it is the JOIN of that name, after the PART of the
      current channel, if any, with the literal message
      "Switching to {command_args}".  The current channel is left to the join
      event, and a missing or invalid name only prints. */
  lemma JoinRule(cfg: Config, channel: Option<string>, line: string, word: string, a: string)
    requires VerbOf(Lower(word)) == JoinVerb && Strip(line) == Typed(word, a)
    ensures var st := Interpret(cfg, channel, line);
            && st.channel == channel && !st.stop && !st.swallowed
            && (st.sends != [] <==> IsValidChannelName(a))
            && (IsValidChannelName(a) ==>
                  st.prints == [] && st.sends[|st.sends| - 1] == Join(a)
                  && (|st.sends| == 2 <==> InChannel(channel))
                  && (InChannel(channel) ==> st.sends[0] == Part(channel.value, SwitchingMessage)))
            && (!IsValidChannelName(a) ==> st.prints == [if a == "" then JoinUsage else InvalidChannel])
  {
    TypedDispatch(cfg, channel, line, word, a);
  }

  /** After `/part` the client is in no channel.  From inside one, it sends
      one PART of it with the typed message, or "Leaving", and reports it;
      from outside, it only prints the notice. */
  lemma PartRule(cfg: Config, channel: Option<string>, line: string, word: string, a: string)
    requires VerbOf(Lower(word)) == PartVerb && Strip(line) == Typed(word, a)
    ensures var st := Interpret(cfg, channel, line);
            && !InChannel(st.channel) && !st.stop && !st.swallowed
            && (InChannel(channel) ==>
                  && st.channel == None
                  && st.sends == [Part(channel.value, Censor(cfg, if a != "" then a else "Leaving"))]
                  && st.prints == ["** Left " + channel.value])
            && (!InChannel(channel) ==> st == Print(channel, NotInChannel))
  {
    TypedDispatch(cfg, channel, line, word, a);
  }

  /** `/nick <name>` sends the typed name as it is, never filtered; without
      one it prints its usage and sends nothing. */
  lemma NickRule(cfg: Config, channel: Option<string>, line: string, word: string, a: string)
    requires VerbOf(Lower(word)) == NickVerb && Strip(line) == Typed(word, a)
    ensures var st := Interpret(cfg, channel, line);
            && st.channel == channel && !st.stop && !st.swallowed
            && (a != "" ==> st.prints == [] && st.sends == [Nick(a)])
            && (a == "" ==> st.sends == [] && st.prints == [NickUsage])
  {
    TypedDispatch(cfg, channel, line, word, a);
  }

  /** `/whois <nick>` asks about the typed nick as it is, never filtered,
      in or out of a channel; without one it prints its usage and sends nothing. */
  lemma WhoisRule(cfg: Config, channel: Option<string>, line: string, word: string, a: string)
    requires VerbOf(Lower(word)) == WhoisVerb && Strip(line) == Typed(word, a)
    ensures var st := Interpret(cfg, channel, line);
            && st.channel == channel && !st.stop && !st.swallowed
            && (a != "" ==> st.prints == [] && st.sends == [Whois(a)])
            && (a == "" ==> st.sends == [] && st.prints == [WhoisUsage])
  {
    TypedDispatch(cfg, channel, line, word, a);
  }

  /** `/list` asks for the channel list, whatever follows the word. */
  lemma ListRule(cfg: Config, channel: Option<string>, line: string, word: string, a: string)
    requires VerbOf(Lower(word)) == ListVerb && Strip(line) == Typed(word, a)
    ensures Interpret(cfg, channel, line) == Send(channel, [ListChannels])
  {
    TypedDispatch(cfg, channel, line, word, a);
  }

  /** `/topic` sends a request only in a channel, with a typed topic and the
      filter on: the filtered topic for the current channel.  In a channel,
      every other case raises (an unbound name without the filter, a missing
      attribute without a topic) and is swallowed: nothing is sent or printed. */
  lemma TopicRule(cfg: Config, channel: Option<string>, line: string, word: string, a: string)
    requires VerbOf(Lower(word)) == TopicVerb && Strip(line) == Typed(word, a)
    ensures var st := Interpret(cfg, channel, line);
            && st.channel == channel && !st.stop
            && (st.sends != [] <==> InChannel(channel) && a != "" && cfg.filterEnabled)
            && (st.sends != [] ==> st.sends == [Topic(channel.value, Some(Filtered(cfg.badWords, a)))])
            && (st.swallowed <==> InChannel(channel) && (a == "" || !cfg.filterEnabled))
            && (InChannel(channel) ==> st.prints == [])
            && (!InChannel(channel) ==> st.prints == [NotInChannel])
  {
    TypedDispatch(cfg, channel, line, word, a);
  }

  /** `/away`, in or out of a channel, sends one raw "AWAY :" line carrying
      the typed message, or "AFK", filtered when the filter is on. */
  lemma AwayRule(cfg: Config, channel: Option<string>, line: string, word: string, a: string)
    requires VerbOf(Lower(word)) == AwayVerb && Strip(line) == Typed(word, a)
    ensures var st := Interpret(cfg, channel, line);
            && st.channel == channel && !st.stop && !st.swallowed && st.prints == []
            && st.sends == [SendRaw("AWAY :" + Censor(cfg, if a != "" then a else "AFK"))]
  {
    TypedDispatch(cfg, channel, line, word, a);
  }

  /** `/me <action>` in a channel sends the typed action, filtered when the
      filter is on, to that channel; without an action, or outside a channel,
      it only prints. */
  lemma MeRule(cfg: Config, channel: Option<string>, line: string, word: string, a: string)
    requires VerbOf(Lower(word)) == MeVerb && Strip(line) == Typed(word, a)
    ensures var st := Interpret(cfg, channel, line);
            && st.channel == channel && !st.stop && !st.swallowed
            && (st.sends != [] <==> InChannel(channel) && a != "")
            && (st.sends != [] ==> st.sends == [Action(channel.value, Censor(cfg, a))] && st.prints == [])
            && (st.sends == [] ==> st.prints == [if InChannel(channel) then MeUsage else NotInChannel])
  {
    TypedDispatch(cfg, channel, line, word, a);
  }

  /** `/slap <nick>` in a channel sends the fixed coax emote around the typed
      nick, never filtered; without a nick, or outside a channel, it only prints. */
  lemma SlapRule(cfg: Config, channel: Option<string>, line: string, word: string, a: string)
    requires VerbOf(Lower(word)) == SlapVerb && Strip(line) == Typed(word, a)
    ensures var st := Interpret(cfg, channel, line);
            && st.channel == channel && !st.stop && !st.swallowed
            && (st.sends != [] <==> InChannel(channel) && a != "")
            && (st.sends != [] ==>
                  st.sends == [Action(channel.value, "slaps " + a + " around a bit with some coax.")]
                  && st.prints == [])
            && (st.sends == [] ==> st.prints == [if InChannel(channel) then SlapUsage else NotInChannel])
  {
    TypedDispatch(cfg, channel, line, word, a);
  }

  /** `/lid [nick]` in a channel always sends one unfiltered emote: the LID
      alarm at the typed nick, or "may possibly be a LID." without one;
      outside a channel it only prints its own notice. */
  lemma LidRule(cfg: Config, channel: Option<string>, line: string, word: string, a: string)
    requires VerbOf(Lower(word)) == LidVerb && Strip(line) == Typed(word, a)
    ensures var st := Interpret(cfg, channel, line);
            && st.channel == channel && !st.stop && !st.swallowed
            && (st.sends != [] <==> InChannel(channel))
            && (InChannel(channel) ==>
                  st.prints == []
                  && st.sends == [Action(channel.value, if a != "" then "presses the LID alarm while looking at " + a + "."
                                                        else "may possibly be a LID.")])
            && (!InChannel(channel) ==> st.prints == [NotInChannelLid])
  {
    TypedDispatch(cfg, channel, line, word, a);
  }

  /** `/names` asks for the names of the current channel only, and whatever
      follows the word is ignored; outside a channel it prints its notice. */
  lemma NamesRule(cfg: Config, channel: Option<string>, line: string, word: string, a: string)
    requires VerbOf(Lower(word)) == NamesVerb && Strip(line) == Typed(word, a)
    ensures var st := Interpret(cfg, channel, line);
            && st.channel == channel && !st.stop && !st.swallowed
            && (InChannel(channel) ==> st.sends == [Names(channel.value)] && st.prints == [])
            && (!InChannel(channel) ==> st == Print(channel, NotInChannelNames))
  {
    TypedDispatch(cfg, channel, line, word, a);
  }

  /** `/help` prints the configured help text and does nothing else. */
  lemma HelpRule(cfg: Config, channel: Option<string>, line: string, word: string, a: string)
    requires VerbOf(Lower(word)) == HelpVerb && Strip(line) == Typed(word, a)
    ensures Interpret(cfg, channel, line) == Print(channel, cfg.helpText)
  {
    TypedDispatch(cfg, channel, line, word, a);
  }

  /** A command word that is none of the table's, in any letter case, prints
      "Unknown command." and sends, stops and changes nothing. */
  lemma UnknownCommandNoSend(cfg: Config, channel: Option<string>, line: string, word: string, a: string)
    requires |word| >= 1 && word[0] == '/' && ' ' !in word && VerbOf(Lower(word)) == Unknown
    requires Strip(line) == Typed(word, a)
    ensures Interpret(cfg, channel, line) == Print(channel, UnknownCommand)
  {
    TypedCommand(line, word, a);
    InterpretDispatch(cfg, channel, line);
  }

  /** The commands that check for a channel first. */
  predicate NeedsChannel(verb: Verb) {
    verb in {TopicVerb, MeVerb, NamesVerb, SlapVerb, LidVerb, PartVerb}
  }

  /** Outside a channel, `/part`, `/topic`, `/me`, `/names`, `/slap` and
      `/lid` print one notice and change nothing. */
  lemma NoChannelNoSend(cfg: Config, channel: Option<string>, verb: Verb, a: string)
    requires !InChannel(channel) && NeedsChannel(verb)
    ensures var st := RunCommand(cfg, channel, verb, a);
            && st.sends == [] && |st.prints| == 1 && st.channel == channel && !st.stop
            && st.prints[0] in {NotInChannel, NotInChannelNames, NotInChannelLid}
  {
  }

  /** The commands that talk to the network whether or not the client is in a channel. */
  predicate Unguarded(verb: Verb) {
    verb in {QuitVerb, MsgVerb, JoinVerb, NickVerb, ListVerb, AwayVerb, WhoisVerb}
  }

  /** What any command can do.  It sends something only if it is unguarded or
      runs inside a channel.  It fails only as `/topic`, and exactly when it
      neither sends nor prints.  It prints at most one line and, except for
      `/part`, never both sends and prints.  Only `/join` from inside a
      channel sends two requests, and `/join` sends exactly for a valid
      name.  `/topic` without the filter never sends. */
  lemma CommandSends(cfg: Config, channel: Option<string>, verb: Verb, a: string)
    ensures var st := RunCommand(cfg, channel, verb, a);
            && (st.sends != [] ==> Unguarded(verb) || InChannel(channel))
            && (st.swallowed ==> verb == TopicVerb)
            && (st.swallowed <==> st.sends == [] && st.prints == [])
            && |st.prints| <= 1 && |st.sends| <= 2
            && (st.prints != [] && st.sends != [] ==> verb == PartVerb)
            && (|st.sends| == 2 ==> verb == JoinVerb && InChannel(channel))
            && (verb == JoinVerb ==> (st.sends != [] <==> IsValidChannelName(a)))
            && (verb == TopicVerb && !cfg.filterEnabled ==> st.sends == [])
  {
  }

  /** A request with the user's text blanked out: what it is and where it goes. */
  function Shape(c: Command): Command {
    match c
    case PrivMsg(target, _) => PrivMsg(target, "")
    case Part(ch, _) => Part(ch, "")
    case Topic(ch, t) => Topic(ch, if t.Some? then Some("") else None)
    case SendRaw(_) => SendRaw("")
    case Action(target, _) => Action(target, "")
    case Quit(_) => Quit("")
    case _ => c
  }

  function Shapes(cs: seq<Command>): seq<Command> {
    seq(|cs|, i requires 0 <= i < |cs| => Shape(cs[i]))
  }

  /** The filter changes what is said, never what is done: for any line other
      than `/topic`, two configurations with the same help text send requests
      of the same kinds to the same places, print the same lines, and leave the
      same channel and running flag, whatever their filter settings and word
      lists. */
  lemma FilterOnlyRewritesText(c1: Config, c2: Config, channel: Option<string>, line: string)
    requires c1.helpText == c2.helpText
    requires !(Classify(line).Slash? && Classify(line).verb == TopicVerb)
    ensures SameEffect(Interpret(c1, channel, line), Interpret(c2, channel, line))
  {
    InterpretDispatch(c1, channel, line);
    InterpretDispatch(c2, channel, line);
    match Classify(line)
    case Slash(verb, a) => CommandFilterOnlyRewritesText(c1, c2, channel, verb, a);
    case Chat(m) =>
      var s1, s2 := PlainLine(c1, channel, m), PlainLine(c2, channel, m);
      assert Shapes(s1.sends) == Shapes(s2.sends);
  }

  /** Two steps that do the same thing, up to the user's text in their requests. */
  predicate SameEffect(s1: Step, s2: Step) {
    && s1.prints == s2.prints && s1.channel == s2.channel
    && s1.stop == s2.stop && s1.swallowed == s2.swallowed
    && Shapes(s1.sends) == Shapes(s2.sends)
  }

  lemma CommandFilterOnlyRewritesText(c1: Config, c2: Config, channel: Option<string>, verb: Verb, a: string)
    requires c1.helpText == c2.helpText && verb != TopicVerb
    ensures SameEffect(RunCommand(c1, channel, verb, a), RunCommand(c2, channel, verb, a))
  {
    match verb
    case QuitVerb =>
    case MsgVerb =>
    case JoinVerb =>
    case PartVerb =>
    case NickVerb =>
    case ListVerb =>
    case AwayVerb =>
    case MeVerb =>
    case WhoisVerb =>
    case NamesVerb =>
    case SlapVerb =>
    case LidVerb =>
    case HelpVerb =>
    case Unknown =>
  }

  /** `/join`, `/nick`, `/whois`, `/list`, `/names`, `/slap`, `/lid` and an
      unknown command do not depend on the filter or its word list at all:
      what the operator typed goes out as it is. */
  lemma UnfilteredCommands(c1: Config, c2: Config, channel: Option<string>, verb: Verb, a: string)
    requires verb in {JoinVerb, NickVerb, WhoisVerb, ListVerb, NamesVerb, SlapVerb, LidVerb, Unknown}
    ensures RunCommand(c1, channel, verb, a) == RunCommand(c2, channel, verb, a)
  {
  }

  /** A line that does not start with "/" after stripping is text: it goes to
      the current channel as one PRIVMSG of the stripped text, filtered when
      the filter is on, or prints the notice outside a channel.  The
      disconnect notice first sends QUIT and stops the loop.  Text never
      changes the channel. */
  lemma PlainLineRule(cfg: Config, channel: Option<string>, line: string)
    requires !StartsWith(Strip(line), "/")
    ensures var st := Interpret(cfg, channel, line); var m := Strip(line);
            var d := StartsWith(m, DisconnectMarker);
            && st.stop == d && st.channel == channel && !st.swallowed
            && (InChannel(channel) ==>
                  st.sends == (if d then [Quit("")] else []) + [PrivMsg(channel.value, Censor(cfg, m))]
                  && st.prints == [])
            && (!InChannel(channel) ==>
                  st.sends == (if d then [Quit("")] else []) && st.prints == [NotInChannel])
  {
    InterpretDispatch(cfg, channel, line);
  }

  /** The loop only talks to the network for a command that does so unguarded,
      for the disconnect notice, or while the client is in a channel. */
  lemma SendsNeedChannel(cfg: Config, channel: Option<string>, line: string)
    requires Interpret(cfg, channel, line).sends != []
    ensures || InChannel(channel)
            || (Classify(line).Slash? && Unguarded(Classify(line).verb))
            || (Classify(line).Chat? && StartsWith(Classify(line).message, DisconnectMarker))
  {
    InterpretDispatch(cfg, channel, line);
    match Classify(line)
    case Slash(verb, a) => CommandSends(cfg, channel, verb, a);
    case Chat(m) =>
  }

  /** Only `/part` inside a channel changes the current channel, and it clears it. */
  lemma ChannelChangesOnlyOnPart(cfg: Config, channel: Option<string>, line: string)
    requires Interpret(cfg, channel, line).channel != channel
    ensures Classify(line).Slash? && Classify(line).verb == PartVerb && InChannel(channel)
    ensures Interpret(cfg, channel, line).channel == None
  {
    InterpretDispatch(cfg, channel, line);
  }

  /** The loop stops exactly on `/quit` and on the link-level disconnect notice. */
  lemma StopsOnlyOnQuit(cfg: Config, channel: Option<string>, line: string)
    ensures Interpret(cfg, channel, line).stop <==>
              || (Classify(line).Slash? && Classify(line).verb == QuitVerb)
              || (Classify(line).Chat? && StartsWith(Classify(line).message, DisconnectMarker))
  {
    InterpretDispatch(cfg, channel, line);
  }

  /** The disconnect notice sends QUIT and then still falls through to the
      channel message: the notice itself is sent to the channel. */
  lemma DisconnectFallsThrough(cfg: Config, channel: Option<string>, line: string)
    requires StartsWith(Strip(line), DisconnectMarker) && InChannel(channel)
    ensures Interpret(cfg, channel, line)
              == Step([Quit(""), PrivMsg(channel.value, Censor(cfg, Strip(line)))], [], channel, true, false)
  {
    var m := Strip(line);
    assert !StartsWith(m, "/") by {
      assert m[..|DisconnectMarker|] == DisconnectMarker;
      assert m[0] == DisconnectMarker[0];
    }
    PlainLineRule(cfg, channel, line);
  }


  /** What the loop reads: a line, or the end of input (Ctrl-D or Ctrl-C). */
  datatype Input = Line(text: string) | EndOfInput

  /** The effect of the loop on a sequence of inputs: everything sent and
      printed, the final channel, whether it is still running, and how many
      inputs it read. */
  datatype Trace = Trace(sends: seq<Command>, prints: seq<string>, channel: Option<string>,
                         running: bool, consumed: nat)

  /** What the loop does with one line, given the current channel. */
  type Handler = (Option<string>, string) -> Step

  /** The handler of `handle_user_input`: the command table. */
  function LineHandler(cfg: Config): Handler {
    (channel: Option<string>, line: string) => Interpret(cfg, channel, line)
  }

  /** The loop over the inputs: each line is handled in the channel the
      previous one left, until a line stops the loop or the input ends. */
  function Run(handler: Handler, channel: Option<string>, inputs: seq<Input>): (t: Trace)
    decreases |inputs|
    ensures t.consumed <= |inputs|
    ensures t.running ==> t.consumed == |inputs|
  {
    if inputs == [] then Trace([], [], channel, true, 0)
    else match inputs[0]
      case EndOfInput => Trace([], [], channel, false, 1)
      case Line(l) =>
        var st := handler(channel, l);
        if st.stop then Trace(st.sends, st.prints, st.channel, false, 1)
        else
          var rest := Run(handler, st.channel, inputs[1..]);
          Trace(st.sends + rest.sends, st.prints + rest.prints, rest.channel, rest.running,
                1 + rest.consumed)
  }

  /** Once the loop has stopped, nothing the operator types afterwards is read,
      sent or printed. */
  lemma {:induction false} NothingAfterStop(handler: Handler, channel: Option<string>,
                                            inputs: seq<Input>, more: seq<Input>)
    requires !Run(handler, channel, inputs).running
    ensures Run(handler, channel, inputs + more) == Run(handler, channel, inputs)
    decreases |inputs|
  {
    assert (inputs + more)[0] == inputs[0];
    assert (inputs + more)[1..] == inputs[1..] + more;
    match inputs[0]
    case EndOfInput =>
    case Line(l) =>
      var st := handler(channel, l);
      if !st.stop {
        NothingAfterStop(handler, st.channel, inputs[1..], more);
      }
  }

  /** The `while running` loop: reads inputs while the flag is set, applies
      each line to the client, and returns the flag. */
  method ReadLoop(client: Client, handler: Handler, inputs: seq<Input>) returns (running: bool)
    modifies client
    ensures var t := Run(handler, old(client.currentChannel), inputs);
            && client.sent == old(client.sent) + t.sends
            && client.printed == old(client.printed) + t.prints
            && client.currentChannel == t.channel
            && running == t.running
    ensures client.callsign == old(client.callsign)
  {
    ghost var total := Run(handler, client.currentChannel, inputs);
    ghost var sent0, printed0 := client.sent, client.printed;
    running := true;
    var i := 0;
    while running && i < |inputs|
      invariant 0 <= i <= |inputs|
      invariant client.callsign == old(client.callsign)
      invariant running ==>
                  var rest := Run(handler, client.currentChannel, inputs[i..]);
                  && sent0 + total.sends == client.sent + rest.sends
                  && printed0 + total.prints == client.printed + rest.prints
                  && total.channel == rest.channel && total.running == rest.running
      invariant !running ==>
                  && client.sent == sent0 + total.sends && client.printed == printed0 + total.prints
                  && client.currentChannel == total.channel && !total.running
      decreases |inputs| - i
    {
      ghost var rest := Run(handler, client.currentChannel, inputs[i..]);
      match inputs[i] {
        case EndOfInput =>
          running := false;
          assert client.sent + rest.sends == client.sent;
          assert client.printed + rest.prints == client.printed;
        case Line(l) =>
          var st := handler(client.currentChannel, l);
          ghost var after := Run(handler, st.channel, inputs[i + 1..]);
          assert inputs[i..][1..] == inputs[i + 1..];
          if !st.stop {
            assert rest.sends == st.sends + after.sends;
            assert client.sent + rest.sends == (client.sent + st.sends) + after.sends;
            assert client.printed + rest.prints == (client.printed + st.prints) + after.prints;
          }
          client.sent := client.sent + st.sends;
          client.printed := client.printed + st.prints;
          client.currentChannel := st.channel;
          if st.stop {
            running := false;
          }
      }
      i := i + 1;
    }
    if running {
      assert inputs[i..] == [];
      assert client.sent + [] == client.sent && client.printed + [] == client.printed;
    }
  }

  /** `handle_user_input`: the loop run with the command table. */
  method HandleUserInput(client: Client, cfg: Config, inputs: seq<Input>) returns (running: bool)
    modifies client
    ensures var t := Run(LineHandler(cfg), old(client.currentChannel), inputs);
            && client.sent == old(client.sent) + t.sends
            && client.printed == old(client.printed) + t.prints
            && client.currentChannel == t.channel
            && running == t.running
    ensures client.callsign == old(client.callsign)
  {
    running := ReadLoop(client, LineHandler(cfg), inputs);
  }
}
