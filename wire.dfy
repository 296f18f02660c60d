/** The boundary with the IRC message library. Parsing and encoding are not modelled: a parser and an
    encoder are function inputs that may fail, exactly as `ircmsg.ParseLine` and `IrcMessage.Line` do. */
module Wire {
  import opened Wrappers

  /** A parsed incoming message: the harness reads only its command and parameters. */
  datatype Message = Message(command: string, params: seq<string>)

  datatype Parsed = Parsed(msg: Message) | ParseError(reason: string)

  /** `ircmsg.ParseLine`. */
  type Parser = string -> Parsed

  /** An outgoing message as given to `ircmsg.MakeMessage`: tags (a tag without a value is `None`),
      prefix, command and parameters. */
  datatype Outgoing = Outgoing(tags: Option<map<string, Option<string>>>, prefix: string, command: string, params: seq<string>)

  datatype Encoded = Encoded(line: string) | EncodeError(reason: string)

  /** `IrcMessage.Line` applied to the message `ircmsg.MakeMessage` builds. */
  type Encoder = Outgoing -> Encoded

  /** What one read-then-parse step yields: a parsed line, a line that does not parse, or a failed read. */
  datatype Incoming = Received(line: string, msg: Message) | Unparsable(line: string, reason: string) | ReadFailed(reason: string)
}
