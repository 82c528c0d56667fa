/**
 * `PacketIRCClient`: the event handlers the IRC library calls back.  The
 * handlers that change the client (`on_welcome`, `on_join`, `on_part`,
 * `on_quit`, `on_nicknameinuse`, `on_disconnect`) are methods of `Client`;
 * the ones that only format what they print (`on_notice`, `on_whoisuser`,
 * `on_namreply`, `on_list`) are functions that return the printed lines.
 * Event arguments are `seq<string>`; an index past their end, which raises
 * `IndexError` in the handler, is `None`.
 */
module PacketClient {
  import opened Wrappers
  import opened Text
  import opened Protocol

  /** `on_notice`: "-sender- text", where a notice without a source comes from "SERVER". */
  function NoticeLine(source: Option<string>, args: seq<string>): (r: Option<string>)
    ensures r.Some? <==> |args| >= 1
    ensures r.Some? && source.None? ==> r.value == "-SERVER- " + args[0]
    ensures r.Some? && source.Some? ==> r.value == "-" + source.value + "- " + args[0]
  {
    if |args| == 0 then None
    else
      var sender := if source.Some? then source.value else "SERVER";
      Some("-" + sender + "- " + args[0])
  }

  /** The WHOIS server field is left out when it holds only spaces and `*`,
      which includes the empty field. */
  predicate BlankServer(server: string) {
    forall i :: 0 <= i < |server| ==> server[i] == ' ' || server[i] == '*'
  }

  /** `on_whoisuser`: nick, user@host, the server unless it is blank, and the real name. */
  function WhoisLines(args: seq<string>): (r: Option<seq<string>>)
    ensures r.None? <==> |args| < 5
    ensures r.Some? ==> |r.value| == (if BlankServer(args[3]) then 3 else 4)
    ensures r.Some? ==> r.value[0] == "** WHOIS for " + args[0]
    ensures r.Some? ==> r.value[1] == "   " + args[1] + "@" + args[2]
    ensures r.Some? && !BlankServer(args[3]) ==> r.value[2] == "   Server: " + args[3]
    ensures r.Some? ==> r.value[|r.value| - 1] == "   Name: " + args[4]
  {
    if |args| < 5 then None
    else
      var server := if BlankServer(args[3]) then [] else ["   Server: " + args[3]];
      Some(["** WHOIS for " + args[0], "   " + args[1] + "@" + args[2]] + server
           + ["   Name: " + args[4]])
  }

  /** `on_namreply`: the channel and its whitespace-separated names joined with ", ". */
  function NamesLine(args: seq<string>): (r: Option<string>)
    ensures r.Some? <==> |args| >= 3
    ensures r.Some? ==> StartsWith(r.value, "Users in " + args[1] + ": ")
  {
    if |args| < 3 then None
    else Some("Users in " + args[1] + ": " + JoinWith(Words(args[2]), ", "))
  }

  /** A names reply whose list field is some names with whitespace of any
      kind and length between and around them prints exactly those names,
      separated by ", ". */
  lemma {:induction false} NamesLineListsNames(args: seq<string>, gaps: seq<string>, names: seq<string>)
    requires |gaps| == |names| + 1
    requires forall k :: 0 <= k < |names| ==> |names[k]| > 0 && NoSpace(names[k])
    requires forall k :: 0 <= k < |gaps| ==> AllSpace(gaps[k])
    requires forall k :: 0 < k < |names| ==> |gaps[k]| > 0
    requires |args| >= 3 && args[2] == Spaced(gaps, names)
    ensures NamesLine(args) == Some("Users in " + args[1] + ": " + JoinWith(names, ", "))
  {
    WordsOfSpaced(gaps, names);
  }

  const TopicWidth: nat := 60

  /** The topic as `on_list` prints it: at most 60 characters, a longer one
      cut to its first 57 characters followed by "...". */
  function TruncateTopic(topic: string): (r: string)
    ensures |r| == if |topic| > TopicWidth then TopicWidth else |topic|
    ensures |topic| <= TopicWidth ==> r == topic
    ensures |topic| > TopicWidth ==> r == topic[..57] + "..."
  {
    if |topic| > TopicWidth then topic[..57] + "..." else topic
  }

  /** Argument `k` of a list reply, or "" when the reply is shorter. */
  function ListArg(args: seq<string>, k: nat): string {
    if |args| > k then args[k] else ""
  }

  /** `on_list`: "channel [users] topic", missing fields empty, the topic truncated. */
  function ListLine(args: seq<string>): (r: string)
    ensures StartsWith(r, ListArg(args, 0) + " [" + ListArg(args, 1) + "] ")
    ensures r[|ListArg(args, 0)| + |ListArg(args, 1)| + 4..] == TruncateTopic(ListArg(args, 2))
    ensures |r| <= |ListArg(args, 0)| + |ListArg(args, 1)| + 4 + TopicWidth
  {
    var head := ListArg(args, 0) + " [" + ListArg(args, 1) + "] ";
    assert |head| == |ListArg(args, 0)| + |ListArg(args, 1)| + 4;
    head + TruncateTopic(ListArg(args, 2))
  }

  /** The reason of a part or quit event, "" when it has none. */
  function Reason(args: seq<string>): string {
    if |args| > 0 then args[0] else ""
  }

  /** The nickname tried after a collision: the callsign, "_" and the decimal
      digits of a number from 0 to 999. */
  function RetryNick(callsign: string, suffix: int): (r: string)
    requires 0 <= suffix <= 999
    ensures |callsign| + 2 <= |r| <= |callsign| + 4
    ensures StartsWith(r, callsign + "_")
    ensures AllDigits(r[|callsign| + 1..])
    ensures DecimalValue(r[|callsign| + 1..]) == suffix
    ensures r[|callsign| + 1..] == DecimalString(suffix)
  {
    var digits := DecimalString(suffix);
    DecimalLength(suffix);
    DecimalRoundTrip(suffix);
    var r := callsign + "_" + digits;
    assert r[|callsign| + 1..] == digits;
    r
  }

  class Client {
    /** The nickname the client registers with; it grows on every collision. */
    var callsign: string
    /** The one channel the client is in, set by our own JOIN. */
    var currentChannel: Option<string>
    /** The requests handed to the connection, in order. */
    var sent: seq<Command>
    /** The lines printed to the terminal, in order. */
    var printed: seq<string>

    constructor (callsign: string)
      ensures this.callsign == callsign && currentChannel == None
      ensures sent == [] && printed == []
    {
      this.callsign := callsign;
      currentChannel := None;
      sent := [];
      printed := [];
    }

    /** `on_welcome`: announce the server and join the configured channel, if any. */
    method OnWelcome(serverName: string, defaultChannel: string)
      modifies this
      ensures callsign == old(callsign) && currentChannel == old(currentChannel)
      ensures printed == old(printed) + ["** Connected to " + serverName]
      ensures sent == old(sent) + (if defaultChannel != "" then [Join(defaultChannel)] else [])
    {
      printed := printed + ["** Connected to " + serverName];
      if defaultChannel != "" {
        sent := sent + [Join(defaultChannel)];
      }
    }

    /** `on_join`: our own join makes `channel` the current one and asks for
        its topic; anybody else's join is only announced. */
    method OnJoin(nick: string, channel: string, ownNick: string)
      modifies this
      ensures callsign == old(callsign)
      ensures nick == ownNick ==> currentChannel == Some(channel)
      ensures nick == ownNick ==> sent == old(sent) + [Topic(channel, None)]
      ensures nick == ownNick ==> printed == old(printed) + ["** Joined " + channel]
      ensures nick != ownNick ==> currentChannel == old(currentChannel) && sent == old(sent)
      ensures nick != ownNick ==> printed == old(printed) + ["* " + nick + " has joined " + channel]
    {
      if nick == ownNick {
        currentChannel := Some(channel);
        printed := printed + ["** Joined " + channel];
        sent := sent + [Topic(channel, None)];
      } else {
        printed := printed + ["* " + nick + " has joined " + channel];
      }
    }

    /** `on_part`: announce the departure; the current channel is kept, even
        when it is our own part. */
    method OnPart(nick: string, channel: string, args: seq<string>)
      modifies this
      ensures callsign == old(callsign) && currentChannel == old(currentChannel)
      ensures sent == old(sent)
      ensures printed == old(printed) + ["* " + nick + " has left " + channel + " (" + Reason(args) + ")"]
    {
      printed := printed + ["* " + nick + " has left " + channel + " (" + Reason(args) + ")"];
    }

    /** `on_quit`: announce the quit; the current channel is kept. */
    method OnQuit(nick: string, args: seq<string>)
      modifies this
      ensures callsign == old(callsign) && currentChannel == old(currentChannel)
      ensures sent == old(sent)
      ensures printed == old(printed) + ["* " + nick + " has quit (" + Reason(args) + ")"]
    {
      printed := printed + ["* " + nick + " has quit (" + Reason(args) + ")"];
    }

    /** `on_nicknameinuse`: append "_" and the random number `suffix` to the
        callsign, which keeps its earlier suffixes, and register it again. */
    method OnNicknameInUse(suffix: int)
      requires 0 <= suffix <= 999
      modifies this
      ensures callsign == RetryNick(old(callsign), suffix)
      ensures callsign != old(callsign)
      ensures sent == old(sent) + [Nick(callsign)]
      ensures currentChannel == old(currentChannel) && printed == old(printed)
    {
      callsign := RetryNick(callsign, suffix);
      sent := sent + [Nick(callsign)];
    }

    /** `on_disconnect`: clears the running flag and reports it. */
    method OnDisconnect() returns (running: bool)
      modifies this
      ensures !running
      ensures printed == old(printed) + ["** Disconnected."]
      ensures callsign == old(callsign) && currentChannel == old(currentChannel)
      ensures sent == old(sent)
    {
      running := false;
      printed := printed + ["** Disconnected."];
    }
  }
}
