/** The line-buffered transport (lib/conn/socket.go). The stream itself is not modelled: what the server
    will send is the `input` still to be read, what has been flushed to the server is `output`, and
    whether writes to the stream fail is fixed when the stream is dialled. Locks are left out: every
    operation is one sequential step. */
module Sockets {
  import opened Wrappers
  import opened Text
  import opened Wire

  /** `ErrorDisconnected.Error()`. */
  const ErrorDisconnected: string := "Socket is disconnected"
  /** `io.EOF.Error()`, what a read returns when the stream ends before a line feed. */
  const EndOfInput: string := "EOF"

  /** The outcome of `net.Dial` / `tls.Dial`: refused with a reason, or a stream over which the server
      will send `serverInput` and on which every write fails with `writeError` when that is present. */
  datatype Dial = Refused(reason: string) | Accepted(serverInput: string, writeError: Option<string>)

  /** IRC line framing (section 2.3 of RFC 1459): every line ends with CR LF. */
  function Frame(line: string): string {
    line + "\r\n"
  }

  /** The result of one `ReadBytes('\n')` followed by `TrimRight(_, "\r\n")` on the pending input. */
  datatype Read = Read(line: string, rest: string, complete: bool)

  /** Consumes the input up to and including the first line feed and trims the trailing CR/LF characters;
      without a line feed it consumes everything and the read is incomplete (it ends in EOF). */
  function ReadLine(input: string): (r: Read)
    ensures r.complete <==> '\n' in input
    ensures r.complete ==> |r.rest| < |input|
    ensures r.complete ==>
      var k := |input| - |r.rest| - 1;
      input[k] == '\n' && '\n' !in input[..k] && r.rest == input[k + 1..] && r.line == TrimCrLf(input[..k + 1])
    ensures !r.complete ==> r.rest == "" && r.line == TrimCrLf(input)
  {
    var k := IndexOf(input, '\n');
    if k < 0 then Read(TrimCrLf(input), "", false)
    else Read(TrimCrLf(input[..k + 1]), input[k + 1..], true)
  }

  predicate EndsWithCr(line: string) {
    |line| > 0 && line[|line| - 1] == '\r'
  }

  /** Framing round trip: reading back a framed line gives exactly that line and leaves what follows it,
      if and only if the line holds no line feed and does not end in a carriage return. */
  lemma FramedLineReadsBack(line: string, more: string)
    ensures ReadLine(Frame(line) + more) == Read(line, more, true) <==> '\n' !in line && !EndsWithCr(line)
  {
    if '\n' !in line {
      ReadFramed(line, more);
      TrimFrame(line);
    } else {
      ReadStopsInside(line, more);
    }
  }

  lemma ReadFramed(line: string, more: string)
    requires '\n' !in line
    ensures ReadLine(Frame(line) + more) == Read(TrimCrLf(line + "\r\n"), more, true)
  {
    var input := Frame(line) + more;
    assert input[..|line| + 1] == line + "\r";
    assert input[|line| + 1] == '\n';
    assert '\n' !in input[..|line| + 1];
    var r := ReadLine(input);
    assert |input| - |r.rest| - 1 == |line| + 1;
    assert input[..|line| + 2] == line + "\r\n";
    assert input[|line| + 2..] == more;
  }

  lemma TrimFrame(line: string)
    requires '\n' !in line
    ensures TrimCrLf(line + "\r\n") == line <==> !EndsWithCr(line)
  {
    assert (line + "\r\n")[..|line| + 1] == line + "\r";
    assert (line + "\r")[..|line|] == line;
    assert TrimCrLf(line + "\r\n") == TrimCrLf(line + "\r") == TrimCrLf(line);
    if EndsWithCr(line) {
      assert |TrimCrLf(line)| < |line|;
    }
  }

  lemma ReadStopsInside(line: string, more: string)
    requires '\n' in line
    ensures ReadLine(Frame(line) + more).rest != more
  {
    var input := Frame(line) + more;
    var j := IndexOf(line, '\n');
    assert input[j] == '\n';
    var r := ReadLine(input);
    assert |input| - |r.rest| - 1 <= j;
  }

  /** What a send reports: the disconnected error, else the stream's write error if it has one. */
  function SendError(connected: bool, writeError: Option<string>): Option<string> {
    if !connected then Some(ErrorDisconnected) else writeError
  }

  /** The bytes a send of `line` delivers: its frame when connected and the write succeeds, else nothing
      (a failed write is never flushed). */
  function Delivered(connected: bool, writeError: Option<string>, line: string): string {
    if connected && writeError.None? then Frame(line) else ""
  }

  /** The bytes delivered by sending each message of `msgs` in turn through `encode`; a message that does
      not encode is not written. */
  function WireBytes(connected: bool, writeError: Option<string>, encode: Encoder, msgs: seq<Outgoing>): string {
    if |msgs| == 0 then ""
    else
      var e := encode(msgs[0]);
      (if e.Encoded? then Delivered(connected, writeError, e.line) else "")
      + WireBytes(connected, writeError, encode, msgs[1..])
  }

  /** The wire bytes of two request sequences sent one after the other. */
  lemma {:induction false} WireBytesConcat(connected: bool, we: Option<string>, encode: Encoder, a: seq<Outgoing>, b: seq<Outgoing>)
    ensures WireBytes(connected, we, encode, a + b) == WireBytes(connected, we, encode, a) + WireBytes(connected, we, encode, b)
    decreases |a|
  {
    if |a| > 0 {
      assert (a + b)[1..] == a[1..] + b;
      WireBytesConcat(connected, we, encode, a[1..], b);
    } else {
      assert a + b == b;
    }
  }

  /** The connection state and the number of times the stream was closed. */
  datatype Link = Link(connected: bool, closeCalls: nat)

  /** `Disconnect` as written: it tests `!connected`, so it only ever acts on a socket already marked
      disconnected; a connected socket is neither marked nor closed. */
  function DisconnectAsWritten(l: Link): (r: Link)
    ensures r.connected == l.connected
    ensures r.closeCalls == l.closeCalls + (if l.connected then 0 else 1)
  {
    if !l.connected then Link(false, l.closeCalls + 1) else l
  }

  /** `Disconnect` as intended: a connected socket is marked disconnected and closed; afterwards the call
      does nothing. */
  function DisconnectIntended(l: Link): (r: Link)
    ensures !r.connected
    ensures r.closeCalls == l.closeCalls + (if l.connected then 1 else 0)
  {
    if l.connected then Link(false, l.closeCalls + 1) else l
  }

  /** `n` successive calls of a disconnect step. */
  function Repeatedly(step: Link -> Link, n: nat, l: Link): Link {
    if n == 0 then l else Repeatedly(step, n - 1, step(l))
  }

  /** The defect: however many times a freshly connected socket is disconnected as written, it stays
      connected and its stream is never closed. */
  lemma {:induction false} AsWrittenNeverCloses(n: nat)
    ensures Repeatedly(DisconnectAsWritten, n, Link(true, 0)) == Link(true, 0)
  {
    if n > 0 {
      AsWrittenNeverCloses(n - 1);
    }
  }

  /** The intended behaviour: one or more disconnects of a connected socket leave it disconnected with its
      stream closed exactly once. */
  lemma {:induction false} IntendedClosesOnce(n: nat)
    requires n >= 1
    ensures Repeatedly(DisconnectIntended, n, Link(true, 0)) == Link(false, 1)
  {
    IdleAfterClose(n - 1);
  }

  lemma {:induction false} IdleAfterClose(n: nat)
    ensures Repeatedly(DisconnectIntended, n, Link(false, 1)) == Link(false, 1)
  {
    if n > 0 {
      IdleAfterClose(n - 1);
    }
  }

  class Socket {
    var connected: bool
    /** What the server has sent and the reader has not yet consumed. */
    var input: string
    /** What has been flushed to the server. */
    var output: string
    const writeError: Option<string>
    /** How many times `Close` was called on the underlying stream. */
    ghost var closeCalls: nat

    ghost function State(): Link
      reads this
    {
      Link(connected, closeCalls)
    }

    /** `MakeSocket`: a socket over a stream, marked connected. */
    constructor (serverInput: string, writeError: Option<string>)
      ensures connected && input == serverInput && output == ""
      ensures this.writeError == writeError && closeCalls == 0
    {
      connected := true;
      input := serverInput;
      output := "";
      this.writeError := writeError;
      closeCalls := 0;
    }

    method Connected() returns (b: bool)
      ensures b == connected
    {
      b := connected;
    }

    /** Reads one line; a disconnected socket reads nothing and reports `ErrorDisconnected`. */
    method GetLine() returns (line: string, err: Option<string>)
      modifies this`input
      ensures !connected ==> line == "" && err == Some(ErrorDisconnected) && input == old(input)
      ensures connected ==>
        var r := ReadLine(old(input));
        line == r.line && input == r.rest && err == (if r.complete then None else Some(EndOfInput))
    {
      var up := Connected();
      if !up {
        return "", Some(ErrorDisconnected);
      }
      var r := ReadLine(input);
      input := r.rest;
      line := r.line;
      err := if r.complete then None else Some(EndOfInput);
    }

    /** Writes `line` followed by CR LF and flushes it; a disconnected socket writes nothing. */
    method SendLine(line: string) returns (err: Option<string>)
      modifies this`output
      ensures err == SendError(connected, writeError)
      ensures output == old(output) + Delivered(connected, writeError, line)
    {
      var up := Connected();
      if !up {
        return Some(ErrorDisconnected);
      }
      err := writeError;
      if err.None? {
        output := output + Frame(line);
      }
    }

    /** Encodes `msg` and sends the line; an encoding error is returned without writing anything. */
    method SendMessage(encode: Encoder, msg: Outgoing) returns (err: Option<string>)
      modifies this`output
      ensures encode(msg).EncodeError? ==> err == Some(encode(msg).reason) && output == old(output)
      ensures encode(msg).Encoded? ==>
        err == SendError(connected, writeError) && output == old(output) + Delivered(connected, writeError, encode(msg).line)
    {
      var e := encode(msg);
      if e.EncodeError? {
        return Some(e.reason);
      }
      err := SendLine(e.line);
    }

    /** As written: marks the socket disconnected and closes the stream only when it is already marked
        disconnected, so the mark never changes. */
    method Disconnect()
      modifies this`connected, this`closeCalls
      ensures State() == DisconnectAsWritten(old(State()))
    {
      if !connected {
        connected := false;
        closeCalls := closeCalls + 1;
      }
    }
  }

  /** `ConnectSocket`: dials (the outcome is the input `dial`) and wraps the stream in a connected socket. */
  method ConnectSocket(dial: Dial) returns (s: Socket?, err: Option<string>)
    ensures dial.Refused? ==> s == null && err == Some(dial.reason)
    ensures dial.Accepted? ==>
      s != null && fresh(s) && err == None && s.connected && s.input == dial.serverInput && s.output == ""
      && s.writeError == dial.writeError && s.closeCalls == 0
  {
    if dial.Refused? {
      return null, Some(dial.reason);
    }
    s := new Socket(dial.serverInput, dial.writeError);
    err := None;
  }
}
