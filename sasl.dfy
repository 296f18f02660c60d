/** The SASL test group (lib/tests/saslSuite.go): the `Login-PLAIN` handler, its PLAIN credential
    message and the state machine over the server's replies. */
module SaslSuite {
  import opened Wrappers
  import opened Text
  import opened Base64
  import opened Config
  import opened Wire
  import opened Sockets
  import opened Connections
  import opened Tests

  const NoAccountText: string := "No SASL PLAIN account (username+password) defined in config"
  const SetupFailurePrefix: string := "Could not setup new connection: "
  const ReadFailurePrefix: string := "Could not get reply line: "
  const ParseFailurePrefix: string := "Failed to parse reply line: "
  const SuccessText: string := "Successfully completed SASL PLAIN (username+password) authentication"
  const EarlyWelcomeText: string := "RPL_WELCOME (001) encountered before SASL success numerics"
  const UnorderedSuccessText: string := "Got RPL_SASLSUCCESS (903) before or without getting RPL_LOGGEDIN (900)"
  const UnexpectedNumericText: string := "Got unexpected SASL failure or informational numeric"

  /** RPL_WELCOME (section 5.1 of RFC 2812) and the SASL numerics of IRCv3 SASL 3.1: RPL_LOGGEDIN,
      RPL_SASLSUCCESS, and the failure or informational ones the test rejects. */
  const Welcome: string := "001"
  const LoggedIn: string := "900"
  const SaslSuccess: string := "903"
  const FailureNumerics: seq<string> := ["901", "902", "904", "905", "906", "907", "908"]

  const LoginPlainTest: Test :=
    Test("Login-PLAIN", "Tests the SASL PLAIN authentication method.", 0, ["sasl"], LoginPlain)

  const SaslTests: TestGroup := TestGroup("SASL", "Tests SASL authentication methods.", [LoginPlainTest])

  // ---------------------------------------------------------------------------------------------
  // The PLAIN message (section 2 of RFC 4616): authzid NUL authcid NUL passwd.

  function PlainMessage(authzid: seq<byte>, authcid: seq<byte>, passwd: seq<byte>): seq<byte> {
    authzid + [0] + authcid + [0] + passwd
  }

  /** How a server reads a PLAIN message: the three fields separated by the first two NULs. */
  function SplitPlain(m: seq<byte>): Option<(seq<byte>, seq<byte>, seq<byte>)> {
    var i := IndexOf(m, 0);
    if i < 0 then None
    else
      var tail := m[i + 1..];
      var j := IndexOf(tail, 0);
      if j < 0 then None
      else Some((m[..i], tail[..j], tail[j + 1..]))
  }

  /** Round trip: a server splits the message back into the identities and the password, provided the
      identities hold no NUL (RFC 4616 forbids it). */
  lemma PlainRoundTrip(authzid: seq<byte>, authcid: seq<byte>, passwd: seq<byte>)
    requires 0 !in authzid && 0 !in authcid
    ensures SplitPlain(PlainMessage(authzid, authcid, passwd)) == Some((authzid, authcid, passwd))
  {
    var m := PlainMessage(authzid, authcid, passwd);
    var tail := authcid + [0] + passwd;
    assert m == authzid + [0] + tail;
    NulAfter(authzid, tail);
    assert m[..|authzid|] == authzid;
    assert m[|authzid| + 1..] == tail;
    NulAfter(authcid, passwd);
    assert tail[..|authcid|] == authcid;
    assert tail[|authcid| + 1..] == passwd;
  }

  lemma NulAfter(a: seq<byte>, b: seq<byte>)
    requires 0 !in a
    ensures IndexOf(a + [0] + b, 0) == |a|
  {
    var m := a + [0] + b;
    assert m[..|a|] == a;
    assert m[|a|] == 0;
  }

  /** The messages the handler sends, in order: capability request, registration, then the PLAIN
      exchange and the end of capability negotiation. The last command is the single string "CAP END". */
  function SaslRequests(name: string, nick: string, payload: string): seq<Outgoing> {
    Registration(name, nick) + Authentication(payload)
  }

  /** The capability request and the registration: `CAP REQ sasl`, `NICK`, `USER`. */
  function Registration(name: string, nick: string): seq<Outgoing> {
    [ Outgoing(None, "", "CAP", ["REQ", "sasl"]),
      Outgoing(None, "", "NICK", [nick]),
      Outgoing(None, "", "USER", ["t", "0", "*", name]) ]
  }

  /** The PLAIN exchange and the end of capability negotiation. */
  function Authentication(payload: string): seq<Outgoing> {
    [ Outgoing(None, "", "AUTHENTICATE", ["PLAIN"]),
      Outgoing(None, "", "AUTHENTICATE", [payload]),
      Outgoing(None, "", "CAP END", []) ]
  }

  // ---------------------------------------------------------------------------------------------
  // The reply state machine.

  /** Either still waiting, with the two flags, or finished with a verdict. */
  datatype Progress = Waiting(got900: bool, got903: bool) | Finished(verdict: Verdict)

  const Start: Progress := Waiting(false, false)

  /** What one event does to the state machine; a finished machine ignores everything. */
  function Step(p: Progress, e: Incoming): Progress {
    match p
    case Finished(_) => p
    case Waiting(got900, got903) =>
      match e
      case ReadFailed(reason) => Finished(Verdict(Failure, ReadFailurePrefix + reason))
      case Unparsable(_, reason) => Finished(Verdict(Failure, ParseFailurePrefix + reason))
      case Received(_, msg) =>
        if msg.command == Welcome then
          if got900 && got903 then Finished(Verdict(Success, SuccessText))
          else Finished(Verdict(Failure, EarlyWelcomeText))
        else
          var seen900 := got900 || msg.command == LoggedIn;
          if msg.command == SaslSuccess && !seen900 then Finished(Verdict(Failure, UnorderedSuccessText))
          else if msg.command in FailureNumerics then Finished(Verdict(Failure, UnexpectedNumericText))
          else Waiting(seen900, got903 || msg.command == SaslSuccess)
  }

  /** The machine after a sequence of events. */
  function Feed(p: Progress, evs: seq<Incoming>): Progress
    decreases |evs|
  {
    if |evs| == 0 then p else Feed(Step(p, evs[0]), evs[1..])
  }

  /** The verdict of a reply stream; a stream that ends while waiting ends in EOF. */
  function SaslVerdict(evs: seq<Incoming>): Verdict {
    match Feed(Start, evs)
    case Finished(v) => v
    case Waiting(_, _) => Verdict(Failure, ReadFailurePrefix + EndOfInput)
  }

  /** Running over two sequences in turn is running over their concatenation. */
  lemma {:induction false} FeedAppend(p: Progress, a: seq<Incoming>, b: seq<Incoming>)
    ensures Feed(p, a + b) == Feed(Feed(p, a), b)
    decreases |a|
  {
    if |a| > 0 {
      assert (a + b)[1..] == a[1..] + b;
      FeedAppend(Step(p, a[0]), a[1..], b);
    } else {
      assert a + b == b;
    }
  }

  /** Once finished, the verdict never changes. */
  lemma {:induction false} FinishedStays(v: Verdict, evs: seq<Incoming>)
    ensures Feed(Finished(v), evs) == Finished(v)
  {
    if |evs| > 0 {
      FinishedStays(v, evs[1..]);
    }
  }

  /** A stream that ends with a failed read always reaches a verdict. */
  lemma {:induction false} EndsFinished(p: Progress, evs: seq<Incoming>)
    requires |evs| > 0 && evs[|evs| - 1].ReadFailed?
    ensures Feed(p, evs).Finished?
    decreases |evs|
  {
    if |evs| == 1 {
      assert Feed(p, evs) == Feed(Step(p, evs[0]), []);
    } else {
      EndsFinished(Step(p, evs[0]), evs[1..]);
    }
  }

  predicate IsCommand(e: Incoming, command: string) {
    e.Received? && e.msg.command == command
  }

  predicate Has(evs: seq<Incoming>, command: string) {
    exists i :: 0 <= i < |evs| && IsCommand(evs[i], command)
  }

  /** An event the machine passes over while waiting, given whether a 900 came before it. */
  predicate Passes(e: Incoming, seen900: bool) {
    && e.Received?
    && e.msg.command != Welcome
    && e.msg.command !in FailureNumerics
    && (e.msg.command == SaslSuccess ==> seen900)
  }

  /** While the machine is waiting, its flags say exactly whether a 900 and a 903 have arrived, and every
      event so far was passed over (in particular every 903 came after a 900). */
  lemma {:induction false} WaitingMeans(evs: seq<Incoming>, got900: bool, got903: bool)
    requires Feed(Start, evs) == Waiting(got900, got903)
    ensures got900 <==> Has(evs, LoggedIn)
    ensures got903 <==> Has(evs, SaslSuccess)
    ensures forall j :: 0 <= j < |evs| ==> Passes(evs[j], Has(evs[..j], LoggedIn))
    decreases |evs|
  {
    if |evs| == 0 {
      assert Feed(Start, evs) == Start;
    } else {
      var init := evs[..|evs| - 1];
      var e := evs[|evs| - 1];
      assert evs == init + [e];
      FeedAppend(Start, init, [e]);
      var p := Feed(Start, init);
      assert p.Waiting?;
      WaitingMeans(init, p.got900, p.got903);
      assert Step(p, e) == Waiting(got900, got903);
      assert evs[..|evs| - 1] == init;
      forall j | 0 <= j < |evs|
        ensures Passes(evs[j], Has(evs[..j], LoggedIn))
      {
        if j < |evs| - 1 {
          assert evs[j] == init[j] && evs[..j] == init[..j];
        }
      }
      HasSnoc(init, e, LoggedIn);
      HasSnoc(init, e, SaslSuccess);
    }
  }

  lemma HasSnoc(evs: seq<Incoming>, e: Incoming, command: string)
    ensures Has(evs + [e], command) <==> Has(evs, command) || IsCommand(e, command)
  {
    var s := evs + [e];
    if Has(s, command) && !IsCommand(e, command) {
      var i :| 0 <= i < |s| && IsCommand(s[i], command);
      assert i < |evs| && s[i] == evs[i];
    }
    if Has(evs, command) {
      var i :| 0 <= i < |evs| && IsCommand(evs[i], command);
      assert s[i] == evs[i];
    }
    if IsCommand(e, command) {
      assert s[|evs|] == e;
    }
  }

  /** Success is recorded if and only if a 001 arrives while the machine is waiting with both a 900 and a
      903 seen, which (by `WaitingMeans`) means every earlier 903 followed a 900 and nothing earlier
      ended the exchange. */
  lemma SuccessIff(evs: seq<Incoming>)
    ensures SaslVerdict(evs).code == Success <==>
      exists k :: 0 <= k < |evs| && IsCommand(evs[k], Welcome) && Feed(Start, evs[..k]) == Waiting(true, true)
  {
    if SaslVerdict(evs).code == Success {
      var k := FinishingEvent(Start, evs);
      assert Feed(Start, evs[..k]) == Waiting(true, true);
    }
    if exists k :: 0 <= k < |evs| && IsCommand(evs[k], Welcome) && Feed(Start, evs[..k]) == Waiting(true, true) {
      var k :| 0 <= k < |evs| && IsCommand(evs[k], Welcome) && Feed(Start, evs[..k]) == Waiting(true, true);
      SplitAt(evs, k);
      assert Step(Waiting(true, true), evs[k]) == Finished(Verdict(Success, SuccessText));
      FinishedStays(Verdict(Success, SuccessText), evs[k + 1..]);
    }
  }

  lemma SplitAt(evs: seq<Incoming>, k: nat)
    requires k < |evs|
    ensures Feed(Start, evs) == Feed(Step(Feed(Start, evs[..k]), evs[k]), evs[k + 1..])
  {
    AroundIndex(evs, k);
    FeedThrough(Start, evs[..k], evs[k], evs[k + 1..]);
  }

  /** Feeding `before`, then `e`, then `after` is one step on `e` between the two feeds. */
  lemma FeedThrough(p: Progress, before: seq<Incoming>, e: Incoming, after: seq<Incoming>)
    ensures Feed(p, before + ([e] + after)) == Feed(Step(Feed(p, before), e), after)
  {
    FeedAppend(p, before, [e] + after);
    assert ([e] + after)[1..] == after;
  }

  /** A success verdict is produced by a 001 met while waiting with both flags set. */
  lemma {:induction false} FinishingEvent(p: Progress, evs: seq<Incoming>) returns (k: nat)
    requires p.Waiting?
    requires Feed(p, evs).Finished? && Feed(p, evs).verdict.code == Success
    ensures k < |evs| && IsCommand(evs[k], Welcome) && Feed(p, evs[..k]) == Waiting(true, true)
    decreases |evs|
  {
    if |evs| == 0 {
      assert false;
    }
    var q := Step(p, evs[0]);
    assert Feed(p, evs) == Feed(q, evs[1..]);
    if q.Finished? {
      FinishedStays(q.verdict, evs[1..]);
      k := 0;
      assert evs[..0] == [];
    } else {
      var k' := FinishingEvent(q, evs[1..]);
      k := k' + 1;
      assert evs[..k] == [evs[0]] + evs[1..][..k'];
      assert Feed(p, evs[..k]) == Feed(q, evs[1..][..k']);
    }
  }

  /** A failure or informational SASL numeric met while waiting ends the test at once as a failure,
      whatever follows. */
  lemma FailureNumericEnds(before: seq<Incoming>, e: Incoming, after: seq<Incoming>)
    requires Feed(Start, before).Waiting?
    requires e.Received? && e.msg.command in FailureNumerics
    ensures SaslVerdict(before + [e] + after) == Verdict(Failure, UnexpectedNumericText)
  {
    var evs := before + [e] + after;
    assert evs[..|before|] == before && evs[|before|] == e && evs[|before| + 1..] == after;
    SplitAt(evs, |before|);
    FinishedStays(Verdict(Failure, UnexpectedNumericText), after);
  }

  /** A 001 met while waiting without both flags ends the test as a failure. */
  lemma EarlyWelcomeFails(before: seq<Incoming>, e: Incoming, after: seq<Incoming>)
    requires Feed(Start, before) == Waiting(false, false) || Feed(Start, before) == Waiting(true, false) || Feed(Start, before) == Waiting(false, true)
    requires IsCommand(e, Welcome)
    ensures SaslVerdict(before + [e] + after) == Verdict(Failure, EarlyWelcomeText)
  {
    var evs := before + [e] + after;
    assert evs[..|before|] == before && evs[|before|] == e && evs[|before| + 1..] == after;
    SplitAt(evs, |before|);
    FinishedStays(Verdict(Failure, EarlyWelcomeText), after);
  }

  /** A 903 met while waiting with no 900 before it ends the test at once as a failure, whatever follows. */
  lemma UnorderedSuccessFails(before: seq<Incoming>, e: Incoming, after: seq<Incoming>, got903: bool)
    requires Feed(Start, before) == Waiting(false, got903)
    requires IsCommand(e, SaslSuccess)
    ensures SaslVerdict(before + [e] + after) == Verdict(Failure, UnorderedSuccessText)
  {
    var evs := before + [e] + after;
    assert evs[..|before|] == before && evs[|before|] == e && evs[|before| + 1..] == after;
    SplitAt(evs, |before|);
    FinishedStays(Verdict(Failure, UnorderedSuccessText), after);
  }

  /** A failed read or a line that does not parse, met while waiting, ends the test as a failure whose
      text is the read or parse error behind its prefix, whatever follows. */
  lemma ErrorFails(before: seq<Incoming>, e: Incoming, after: seq<Incoming>)
    requires Feed(Start, before).Waiting?
    requires !e.Received?
    ensures SaslVerdict(before + [e] + after)
         == if e.ReadFailed? then Verdict(Failure, ReadFailurePrefix + e.reason) else Verdict(Failure, ParseFailurePrefix + e.reason)
  {
    var evs := before + [e] + after;
    assert evs[..|before|] == before && evs[|before|] == e && evs[|before| + 1..] == after;
    SplitAt(evs, |before|);
    var v := if e.ReadFailed? then Verdict(Failure, ReadFailurePrefix + e.reason) else Verdict(Failure, ParseFailurePrefix + e.reason);
    assert Step(Feed(Start, before), e) == Finished(v);
    FinishedStays(v, after);
  }

  /** The scenario of a compliant server: 900, 903, then 001. */
  lemma CompliantServerSucceeds(l0: string, l1: string, l2: string, p0: seq<string>, p1: seq<string>, p2: seq<string>, rest: seq<Incoming>)
    ensures SaslVerdict([Received(l0, Message(LoggedIn, p0)), Received(l1, Message(SaslSuccess, p1)), Received(l2, Message(Welcome, p2))] + rest)
         == Verdict(Success, SuccessText)
  {
    var evs := [Received(l0, Message(LoggedIn, p0)), Received(l1, Message(SaslSuccess, p1)), Received(l2, Message(Welcome, p2))] + rest;
    assert evs[..2] == [evs[0]] + [evs[1]];
    FeedAppend(Start, [evs[0]], [evs[1]]);
    assert Feed(Start, [evs[0]]) == Feed(Waiting(true, false), []);
    assert Feed(Start, evs[..2]) == Waiting(true, true);
    SplitAt(evs, 2);
    FinishedStays(Verdict(Success, SuccessText), evs[3..]);
  }

  // ---------------------------------------------------------------------------------------------
  // The handler.

  /** The verdict the handler records and the value it returns, from the configured accounts, the outcome
      of dialling and the parser. */
  function LoginPlainResult(accounts: seq<AccountConfig>, dial: Dial, parse: Parser): (r: (Verdict, bool))
    ensures !r.1 <==> |accounts| > 0 && dial.Refused?
    ensures |accounts| == 0 ==> r.0 == Verdict(NotApplicable, NoAccountText)
    ensures r.0.code == Success ==> |accounts| > 0 && dial.Accepted?
    ensures !r.1 ==> r.0.code == Failure && r.0.text == SetupFailurePrefix + ConnectFailurePrefix + dial.reason
  {
    if |accounts| == 0 then (Verdict(NotApplicable, NoAccountText), true)
    else
      match dial
      case Refused(reason) => (Verdict(Failure, SetupFailurePrefix + ConnectFailurePrefix + reason), false)
      case Accepted(input, _) => (SaslVerdict(Replies(true, input, parse)), true)
  }

  /** The nickname `NewNick` draws from `nonce`. */
  function NickFor(nonce: Nonce): string {
    EncodeLength(nonce);
    Encode(nonce)[..9]
  }

  /** The nickname `NewNick` returns is the one `NickFor` names. */
  lemma NickIsPrefix(nick: string, nonce: Nonce)
    requires |nick| == 9 && nick <= Encode(nonce)
    ensures nick == NickFor(nonce)
  {
    EncodeLength(nonce);
  }

  lemma EncodeLength(nonce: Nonce)
    ensures |Encode(nonce)| == 12
  {
  }



  /** The first half of the outbound requests of `Login-PLAIN` on connection `c`. */
  method SendRegistration(c: Connection, encode: Encoder, name: string, nick: string)
    modifies c.socket`output
    ensures c.socket.output
         == old(c.socket.output) + WireBytes(c.socket.connected, c.socket.writeError, encode, Registration(name, nick))
  {
    ghost var requests := Registration(name, nick);
    ghost var base := c.socket.output;
    ghost var conn, we := c.socket.connected, c.socket.writeError;
    ghost var out := base;
    assert requests[..0] == [];
    var sendErr := c.SendSimpleMessage(encode, "CAP", ["REQ", "sasl"]);
    SentNext(out, c.socket.output, base, conn, we, encode, requests, 0);
    out := c.socket.output;
    sendErr := c.SendSimpleMessage(encode, "NICK", [nick]);
    SentNext(out, c.socket.output, base, conn, we, encode, requests, 1);
    out := c.socket.output;
    sendErr := c.SendSimpleMessage(encode, "USER", ["t", "0", "*", name]);
    SentNext(out, c.socket.output, base, conn, we, encode, requests, 2);
    assert requests[..3] == requests;
  }

  /** The second half of the outbound requests of `Login-PLAIN` on connection `c`. */
  method SendAuthentication(c: Connection, encode: Encoder, payload: string)
    modifies c.socket`output
    ensures c.socket.output
         == old(c.socket.output) + WireBytes(c.socket.connected, c.socket.writeError, encode, Authentication(payload))
  {
    ghost var requests := Authentication(payload);
    ghost var base := c.socket.output;
    ghost var conn, we := c.socket.connected, c.socket.writeError;
    ghost var out := base;
    assert requests[..0] == [];
    var sendErr := c.SendSimpleMessage(encode, "AUTHENTICATE", ["PLAIN"]);
    SentNext(out, c.socket.output, base, conn, we, encode, requests, 0);
    out := c.socket.output;
    sendErr := c.SendSimpleMessage(encode, "AUTHENTICATE", [payload]);
    SentNext(out, c.socket.output, base, conn, we, encode, requests, 1);
    out := c.socket.output;
    sendErr := c.SendSimpleMessage(encode, "CAP END", []);
    SentNext(out, c.socket.output, base, conn, we, encode, requests, 2);
    assert requests[..3] == requests;
  }

  /** After the events `seen`, a read observes `Next`'s event; the stream goes on from the input left
      unless that read failed, and the input left is then shorter. */
  lemma StreamAdvances(evs: seq<Incoming>, seen: seq<Incoming>, connected: bool, before: string, parse: Parser)
    requires evs == seen + Replies(connected, before, parse)
    ensures var next := Next(connected, before, parse);
      && (next.0.ReadFailed? ==> evs == seen + [next.0])
      && (!next.0.ReadFailed? ==> evs == seen + [next.0] + Replies(connected, next.1, parse) && |next.1| < |before|)
  {
    var next := Next(connected, before, parse);
    if next.0.ReadFailed? {
      ReadFails(connected, before, parse);
    } else {
      RepliesUnfold(connected, before, parse);
      Associative(seen, [next.0], Replies(connected, next.1, parse));
    }
  }

  /** One pass of the reply loop: reads a line, parses it and judges it with the flags so far. The result
      is the machine's step on the event the read observes. */
  method ReadReply(c: Connection, parse: Parser, got900: bool, got903: bool) returns (progress: Progress)
    modifies c`traffic, c.socket`input
    ensures var next := Next(c.socket.connected, old(c.socket.input), parse);
      && progress == Step(Waiting(got900, got903), next.0)
      && c.traffic == old(c.traffic) + (if next.0.ReadFailed? then "" else Transcript([Got(next.0.line)]))
      && (!next.0.ReadFailed? ==> c.socket.input == next.1)
  {
    ghost var before := c.socket.input;
    var line, readErr := c.GetLine();
    GetLineObserves(c.socket.connected, before, parse, line, readErr, c.socket.input);
    if readErr.Some? {
      return Finished(Verdict(Failure, ReadFailurePrefix + readErr.value));
    }
    var parsed := parse(line);
    if parsed.ParseError? {
      return Finished(Verdict(Failure, ParseFailurePrefix + parsed.reason));
    }
    var msg := parsed.msg;
    var seen900, seen903 := got900, got903;
    if msg.command == Welcome {
      if seen900 && seen903 {
        return Finished(Verdict(Success, SuccessText));
      } else {
        return Finished(Verdict(Failure, EarlyWelcomeText));
      }
    }
    if msg.command == LoggedIn {
      seen900 := true;
    }
    if msg.command == SaslSuccess {
      if !seen900 {
        return Finished(Verdict(Failure, UnorderedSuccessText));
      }
      seen903 := true;
    }
    if msg.command in FailureNumerics {
      return Finished(Verdict(Failure, UnexpectedNumericText));
    }
    progress := Waiting(seen900, seen903);
  }

  /** The inbound half of `Login-PLAIN`: reads and parses replies until the state machine finishes.
      The events observed are `seen` and then `last`: the machine is still waiting after `seen` and
      `last` finishes it. The transcript gains the lines read; unless the last read failed, the input
      left still yields the rest of the stream. */
  method AwaitVerdict(c: Connection, parse: Parser) returns (verdict: Verdict, ghost seen: seq<Incoming>, ghost last: Incoming)
    modifies c`traffic, c.socket`input
    ensures var evs := Replies(c.socket.connected, old(c.socket.input), parse);
      && Feed(Start, seen).Waiting? && Step(Feed(Start, seen), last) == Finished(verdict)
      && verdict == SaslVerdict(evs)
      && c.traffic == old(c.traffic) + Transcript(Logged(seen + [last]))
      && (last.ReadFailed? ==> evs == seen + [last])
      && (!last.ReadFailed? ==> evs == seen + [last] + Replies(c.socket.connected, c.socket.input, parse))
  {
    ghost var connected := c.socket.connected;
    ghost var evs := Replies(connected, c.socket.input, parse);
    ghost var traffic0 := c.traffic;
    seen := [];
    var got900, got903 := false, false;
    while true
      invariant evs == seen + Replies(connected, c.socket.input, parse)
      invariant Feed(Start, seen) == Waiting(got900, got903)
      invariant c.traffic == traffic0 + Transcript(Logged(seen))
      decreases |c.socket.input|
    {
      ghost var before := c.socket.input;
      ghost var next := Next(connected, before, parse);
      last := next.0;
      var progress := ReadReply(c, parse, got900, got903);
      Observed(traffic0, seen, last, c.traffic);
      StreamAdvances(evs, seen, connected, before, parse);
      if progress.Finished? {
        verdict := progress.verdict;
        break;
      }
      got900, got903 := progress.got900, progress.got903;
      seen := seen + [last];
    }
    FinishedAfter(evs, seen, last, c.socket.input, connected, parse, verdict);
  }

  /** `Login-PLAIN`: records exactly one result for `name`, returns `false` only when the connection could
      not be made, leaves the pool as it found it, and sends the six requests in order. */
  method LoginPlainHandler(name: string, rm: RunManager, session: Session, parse: Parser, encode: Encoder)
    returns (done: bool, ghost conn: Connection?)
    modifies rm.results, rm.pool
    ensures var (v, d) := LoginPlainResult(rm.config.accounts, session.dial, parse);
      && done == d
      && rm.results.resultCode == old(rm.results.resultCode)[name := v.code]
      && rm.results.resultText == old(rm.results.resultText)[name := v.text]
      && rm.results.resultTraffic == old(rm.results.resultTraffic)[name := v.text]
    ensures rm.pool.connections == old(rm.pool.connections)
    ensures (|rm.config.accounts| == 0 || session.dial.Refused?) <==> conn == null
    ensures conn != null ==>
      var acc := rm.config.accounts[0];
      var payload := Encode(PlainMessage(acc.username, acc.username, acc.password));
      && fresh(conn)
      && conn.socket.output == WireBytes(true, session.dial.writeError, encode, SaslRequests(name, NickFor(session.nonce), payload))
      && conn.socket.connected && conn.socket.closeCalls == 0
  {
    var haveValidAccount := 0 < |rm.config.accounts|;
    if !haveValidAccount {
      rm.results.Set(name, NotApplicable, NoAccountText, "");
      return true, null;
    }
    var acc := rm.config.accounts[0];

    ghost var pool0 := rm.pool.connections;
    var c, err := rm.pool.NewConnection(session.dial);
    if err.Some? {
      Associative(SetupFailurePrefix, ConnectFailurePrefix, session.dial.reason);
      rm.results.Set(name, Failure, SetupFailurePrefix + err.value, "");
      return false, null;
    }
    conn := c;
    assert c !in pool0;
    OnConnection(name, rm, c, session, parse, encode);
    RemoveAdded(pool0, c, true);
    ConnectedResult(rm.config.accounts, session.dial, parse);
    done := true;
  }

  /** The handler once connection `c` is open over the accepted dial: it draws a nickname, runs the
      exchange, records its verdict under `name` and destroys the connection again. */
  method OnConnection(name: string, rm: RunManager, c: Connection, session: Session, parse: Parser, encode: Encoder)
    requires |rm.config.accounts| > 0 && session.dial.Accepted?
    requires c.socket.connected && c.socket.input == session.dial.serverInput && c.socket.output == ""
    requires c.socket.writeError == session.dial.writeError && c.socket.closeCalls == 0
    modifies rm.results, rm.pool, c`traffic, c.socket
    ensures var v := SaslVerdict(Replies(true, session.dial.serverInput, parse));
      && rm.results.resultCode == old(rm.results.resultCode)[name := v.code]
      && rm.results.resultText == old(rm.results.resultText)[name := v.text]
      && rm.results.resultTraffic == old(rm.results.resultTraffic)[name := v.text]
    ensures rm.pool.connections == old(rm.pool.connections) - {c}
    ensures var acc := rm.config.accounts[0];
      var payload := Encode(PlainMessage(acc.username, acc.username, acc.password));
      && c.socket.output == WireBytes(true, session.dial.writeError, encode, SaslRequests(name, NickFor(session.nonce), payload))
      && c.socket.connected && c.socket.closeCalls == 0
  {
    var acc := rm.config.accounts[0];
    var nick := rm.NewNick(session.nonce);
    NickIsPrefix(nick, session.nonce);
    var verdict := Exchange(c, name, nick, acc, parse, encode);
    var traffic := c.Traffic();
    rm.results.Set(name, verdict.code, verdict.text, traffic);
    rm.pool.DestroyConnection(c);
  }

  /** What the handler meets once connected: the verdict is that of the replies to the dialled stream. */
  lemma ConnectedResult(accounts: seq<AccountConfig>, dial: Dial, parse: Parser)
    requires |accounts| > 0 && dial.Accepted?
    ensures LoginPlainResult(accounts, dial, parse) == (SaslVerdict(Replies(true, dial.serverInput, parse)), true)
  {
  }

  /** The exchange on a new connection: the PLAIN payload `user NUL user NUL password` is built and
      encoded, the six requests are sent in order, and the replies are read until the state machine
      gives its verdict, which is that of the whole reply stream. */
  method Exchange(c: Connection, name: string, nick: string, acc: AccountConfig, parse: Parser, encode: Encoder)
    returns (verdict: Verdict)
    modifies c`traffic, c.socket`input, c.socket`output
    ensures verdict == SaslVerdict(Replies(c.socket.connected, old(c.socket.input), parse))
    ensures c.socket.output == old(c.socket.output)
      + WireBytes(c.socket.connected, c.socket.writeError, encode,
                  SaslRequests(name, nick, Encode(PlainMessage(acc.username, acc.username, acc.password))))
  {
    var authBytes: seq<byte> := [];
    assert authBytes + acc.username == acc.username;
    authBytes := authBytes + acc.username;
    authBytes := authBytes + [0];
    authBytes := authBytes + acc.username;
    authBytes := authBytes + [0];
    authBytes := authBytes + acc.password;
    var payload := Encode(authBytes);
    assert authBytes == PlainMessage(acc.username, acc.username, acc.password);

    ghost var conn, we, out0 := c.socket.connected, c.socket.writeError, c.socket.output;
    SendRegistration(c, encode, name, nick);
    SendAuthentication(c, encode, payload);
    WireBytesConcat(conn, we, encode, Registration(name, nick), Authentication(payload));
    Associative(out0, WireBytes(conn, we, encode, Registration(name, nick)), WireBytes(conn, we, encode, Authentication(payload)));
    ghost var seen, last;
    verdict, seen, last := AwaitVerdict(c, parse);
  }

  /** The transcript after one more event: the machine and the log both move on by that event. */
  lemma Observed(traffic0: string, seen: seq<Incoming>, e: Incoming, traffic: string)
    requires traffic == traffic0 + Transcript(Logged(seen)) + (if e.ReadFailed? then "" else Transcript([Got(e.line)]))
    ensures traffic == traffic0 + Transcript(Logged(seen + [e]))
    ensures Feed(Start, seen + [e]) == Step(Feed(Start, seen), e)
  {
    LoggedSnoc(seen, e);
    if e.ReadFailed? {
      assert Logged(seen + [e]) == Logged(seen) + [];
      assert Logged(seen) + [] == Logged(seen);
      assert traffic == traffic0 + Transcript(Logged(seen)) + "";
    } else {
      TranscriptAppend(Logged(seen), [Got(e.line)]);
      Associative(traffic0, Transcript(Logged(seen)), Transcript([Got(e.line)]));
    }
    FeedAppend(Start, seen, [e]);
  }

  /** When `last` finishes the machine, the whole stream's verdict is the one it gave. */
  lemma FinishedAfter(evs: seq<Incoming>, seen: seq<Incoming>, last: Incoming, input: string, connected: bool, parse: Parser, v: Verdict)
    requires Step(Feed(Start, seen), last) == Finished(v)
    requires last.ReadFailed? ==> evs == seen + [last]
    requires !last.ReadFailed? ==> evs == seen + [last] + Replies(connected, input, parse)
    ensures SaslVerdict(evs) == v
  {
    var tail := if last.ReadFailed? then [] else Replies(connected, input, parse);
    assert evs == (seen + [last]) + tail;
    FeedAppend(Start, seen + [last], tail);
    FeedAppend(Start, seen, [last]);
    FinishedStays(v, tail);
  }

  /** One more send extends the wire bytes of the first `i` requests to those of the first `i + 1`. */
  lemma SentNext(before: string, after: string, base: string, connected: bool, we: Option<string>, encode: Encoder,
                 requests: seq<Outgoing>, i: nat)
    requires i < |requests|
    requires before == base + WireBytes(connected, we, encode, requests[..i])
    requires after == before + (if encode(requests[i]).Encoded? then Delivered(connected, we, encode(requests[i]).line) else "")
    ensures after == base + WireBytes(connected, we, encode, requests[..i + 1])
  {
    assert requests[..i + 1] == requests[..i] + [requests[i]];
    WireBytesConcat(connected, we, encode, requests[..i], [requests[i]]);
    assert WireBytes(connected, we, encode, [requests[i]])
        == (if encode(requests[i]).Encoded? then Delivered(connected, we, encode(requests[i]).line) else "")
         + WireBytes(connected, we, encode, []);
  }
}
