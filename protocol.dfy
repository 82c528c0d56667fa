/**
 * The outbound requests the client hands to the IRC library's connection
 * object.  The model records them in order instead of encoding them; the
 * library's wire format is not part of this model.
 */
module Protocol {
  import opened Wrappers

  datatype Command =
    | PrivMsg(target: string, text: string)            // connection.privmsg(target, text)
    | Part(channel: string, message: string)           // connection.part(channel, message=...)
    | Join(channel: string)                            // connection.join(channel)
    | Nick(nick: string)                               // connection.nick(nick)
    | ListChannels                                     // connection.list()
    | Topic(channel: string, newTopic: Option<string>) // connection.topic(channel[, new_topic])
    | SendRaw(line: string)                            // connection.send_raw(line)
    | Action(target: string, text: string)             // connection.action(target, text)
    | Whois(nick: string)                              // connection.whois(nick)
    | Names(channel: string)                           // connection.names(channel)
    | Quit(message: string)                            // connection.quit(message); "" when none is given
}
