/** IRC connections and the pool that creates and destroys them (lib/conn/connections.go). Locks are
    left out: each operation is one sequential step. */
module Connections {
  import opened Wrappers
  import opened Wire
  import opened Sockets

  /** The context `NewConnection` puts before a dial error. */
  const ConnectFailurePrefix: string := "Failed to connect to server: "

  /** One entry of a connection's traffic transcript: a line sent or a line received. */
  datatype Entry = Sent(line: string) | Got(line: string)

  /** How an entry is written into the transcript. */
  function EntryText(e: Entry): string {
    match e
    case Sent(line) => " -> " + line + "\n"
    case Got(line) => "<-  " + line + "\n"
  }

  /** The transcript of a sequence of entries, in order. */
  function Transcript(es: seq<Entry>): string {
    if |es| == 0 then "" else EntryText(es[0]) + Transcript(es[1..])
  }

  /** Transcripts compose: the transcript of calls made one after another is the concatenation of theirs,
      so the traffic log lists sends and receives in call order. */
  lemma {:induction false} TranscriptAppend(a: seq<Entry>, b: seq<Entry>)
    ensures Transcript(a + b) == Transcript(a) + Transcript(b)
  {
    if |a| > 0 {
      assert (a + b)[1..] == a[1..] + b;
      TranscriptAppend(a[1..], b);
    } else {
      assert a + b == b;
    }
  }

  /** One `GetLine` on a connection followed by parsing the line read: the event and the input left.
      A disconnected socket reads nothing; a read that reaches the end of the input consumes it all. */
  function Next(connected: bool, input: string, parse: Parser): (r: (Incoming, string))
    ensures !r.0.ReadFailed? ==> |r.1| < |input|
  {
    if !connected then (ReadFailed(ErrorDisconnected), input)
    else
      var rd := ReadLine(input);
      if !rd.complete then (ReadFailed(EndOfInput), rd.rest)
      else
        match parse(rd.line)
        case Parsed(m) => (Received(rd.line, m), rd.rest)
        case ParseError(e) => (Unparsable(rd.line, e), rd.rest)
  }

  /** A read as `Connection.GetLine` performs it, followed by parsing, observes `Next`'s event. */
  lemma GetLineObserves(connected: bool, before: string, parse: Parser, line: string, err: Option<string>, after: string)
    requires !connected ==> line == "" && err == Some(ErrorDisconnected) && after == before
    requires connected ==>
      var r := ReadLine(before);
      line == r.line && after == r.rest && err == (if r.complete then None else Some(EndOfInput))
    ensures err.Some? ==> Next(connected, before, parse).0 == ReadFailed(err.value)
    ensures err.None? ==> Next(connected, before, parse) == (match parse(line)
      case Parsed(m) => Received(line, m)
      case ParseError(e) => Unparsable(line, e), after)
  {
  }

  /** The events a loop of `GetLine` and parsing observes, up to and including the failed read that
      ends the input. */
  function Replies(connected: bool, input: string, parse: Parser): (evs: seq<Incoming>)
    ensures |evs| > 0 && evs[|evs| - 1].ReadFailed?
    ensures forall i :: 0 <= i < |evs| - 1 ==> !evs[i].ReadFailed?
    decreases |input|
  {
    var (e, rest) := Next(connected, input, parse);
    if e.ReadFailed? then [e] else [e] + Replies(connected, rest, parse)
  }

  /** The transcript entries a loop of `GetLine` adds while observing `evs`: one per line actually read. */
  function Logged(evs: seq<Incoming>): seq<Entry> {
    if |evs| == 0 then []
    else (if evs[0].ReadFailed? then [] else [Got(evs[0].line)]) + Logged(evs[1..])
  }

  /** Observing one more event adds that event's entry, if any, at the end. */
  lemma {:induction false} LoggedSnoc(evs: seq<Incoming>, e: Incoming)
    ensures Logged(evs + [e]) == Logged(evs) + (if e.ReadFailed? then [] else [Got(e.line)])
  {
    if |evs| > 0 {
      assert (evs + [e])[1..] == evs[1..] + [e];
      LoggedSnoc(evs[1..], e);
    } else {
      assert (evs + [e])[1..] == [];
    }
  }

  /** The reply stream is the next event followed, unless it is a failed read, by the stream of the rest. */
  lemma RepliesUnfold(connected: bool, input: string, parse: Parser)
    ensures var next := Next(connected, input, parse);
      Replies(connected, input, parse)
      == if next.0.ReadFailed? then [next.0] else [next.0] + Replies(connected, next.1, parse)
  {
  }



  /** A failed read is the last event of the stream. */
  lemma ReadFails(connected: bool, input: string, parse: Parser)
    requires Next(connected, input, parse).0.ReadFailed?
    ensures Replies(connected, input, parse) == [Next(connected, input, parse).0]
  {
    RepliesUnfold(connected, input, parse);
  }

  /** What sending `msg` through `encode` on socket `s` does: an encoding error is returned and nothing is
      written; otherwise the encoded line is sent as by `Socket.SendLine`. */
  twostate predicate MessageSent(s: Socket, encode: Encoder, msg: Outgoing, new err: Option<string>)
    reads s
  {
    match encode(msg)
    case EncodeError(reason) => err == Some(reason) && s.output == old(s.output)
    case Encoded(line) =>
      err == SendError(s.connected, s.writeError) && s.output == old(s.output) + Delivered(s.connected, s.writeError, line)
  }

  class Connection {
    var nick: string
    const socket: Socket
    /** The transcript of the lines sent and successfully received. */
    var traffic: string

    constructor (socket: Socket)
      ensures this.socket == socket && nick == "" && traffic == ""
    {
      this.socket := socket;
      nick := "";
      traffic := "";
    }

    method Nick() returns (n: string)
      ensures n == nick
    {
      n := nick;
    }

    method Traffic() returns (t: string)
      ensures t == traffic
    {
      t := traffic;
    }

    /** Records the line as sent, then writes it: the entry is in the transcript even when the write fails. */
    method SendLine(line: string) returns (err: Option<string>)
      modifies this`traffic, socket`output
      ensures traffic == old(traffic) + Transcript([Sent(line)])
      ensures err == SendError(socket.connected, socket.writeError)
      ensures socket.output == old(socket.output) + Delivered(socket.connected, socket.writeError, line)
    {
      traffic := traffic + " -> " + line + "\n";
      err := socket.SendLine(line);
    }

    /** Sends an encoded message; the transcript is not touched. */
    method SendMessage(encode: Encoder, tags: Option<map<string, Option<string>>>, prefix: string, command: string, params: seq<string>)
      returns (err: Option<string>)
      modifies socket`output
      ensures MessageSent(socket, encode, Outgoing(tags, prefix, command, params), err)
    {
      err := socket.SendMessage(encode, Outgoing(tags, prefix, command, params));
    }

    /** `SendMessage` with no tags and no prefix. */
    method SendSimpleMessage(encode: Encoder, command: string, params: seq<string>) returns (err: Option<string>)
      modifies socket`output
      ensures MessageSent(socket, encode, Outgoing(None, "", command, params), err)
    {
      err := SendMessage(encode, None, "", command, params);
    }

    /** Reads a line; only a successful read is added to the transcript. */
    method GetLine() returns (line: string, err: Option<string>)
      modifies this`traffic, socket`input
      ensures !socket.connected ==> line == "" && err == Some(ErrorDisconnected) && socket.input == old(socket.input)
      ensures socket.connected ==>
        var r := ReadLine(old(socket.input));
        line == r.line && socket.input == r.rest && err == (if r.complete then None else Some(EndOfInput))
      ensures traffic == old(traffic) + (if err.None? then Transcript([Got(line)]) else "")
    {
      line, err := socket.GetLine();
      if err.None? {
        traffic := traffic + "<-  " + line + "\n";
      }
    }
  }

  class ConnectionPool {
    /** Every live connection, mapped to whether it is in use. */
    var connections: map<Connection, bool>

    constructor ()
      ensures connections == map[]
    {
      connections := map[];
    }

    /** Dials (the outcome is the input `dial`) and registers the new connection as in use. */
    method NewConnection(dial: Dial) returns (c: Connection?, err: Option<string>)
      modifies this
      ensures dial.Refused? ==>
        c == null && err == Some(ConnectFailurePrefix + dial.reason) && connections == old(connections)
      ensures dial.Accepted? ==>
        c != null && fresh(c) && fresh(c.socket) && err == None
        && connections == old(connections)[c := true]
        && c.nick == "" && c.traffic == ""
        && c.socket.connected && c.socket.input == dial.serverInput && c.socket.output == ""
        && c.socket.writeError == dial.writeError && c.socket.closeCalls == 0
    {
      var socket, dialError := ConnectSocket(dial);
      if dialError.Some? {
        return null, Some(ConnectFailurePrefix + dialError.value);
      }
      c := new Connection(socket);
      connections := connections[c := true];
      err := None;
    }

    /** Disconnects the connection's socket (as written, see `Socket.Disconnect`) and removes exactly that
        connection from the registry. */
    method DestroyConnection(c: Connection)
      modifies this, c.socket
      ensures connections == old(connections) - {c}
      ensures c.socket.State() == DisconnectAsWritten(old(c.socket.State()))
      ensures c.socket.input == old(c.socket.input) && c.socket.output == old(c.socket.output)
    {
      c.socket.Disconnect();
      connections := connections - {c};
    }
  }
}
