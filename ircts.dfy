/** The harness's `run` command once the configuration is loaded (ircts.go): every test is first marked
    as cancelled, a first connection asks the server which capabilities it advertises, and then every
    test's handler runs in declaration order. */
module Harness {
  import opened Wrappers
  import opened Text
  import opened Wire
  import opened Sockets
  import opened Connections
  import opened Config
  import opened Tests
  import opened SaslSuite

  /** `tests.AllTests`: every registered test group. */
  const AllTests: seq<TestGroup> := [SaslTests]

  const CancelledText: string := "Test cancelled and not run"
  const InitialCapsFailurePrefix: string := "Failed to connect to server for initial caps: "
  const CapLsRequest: string := "CAP LS 302"
  const QuitRequest: string := "QUIT"

  // ---------------------------------------------------------------------------------------------
  // Writing a value under each name of a list, in order (the results table as the loops leave it).

  /** `m` after `m[k] = f(k)` for each `k` of `names` in turn. */
  function Record<T>(m: map<string, T>, names: seq<string>, f: string -> T): map<string, T> {
    if |names| == 0 then m
    else Record(m, names[..|names| - 1], f)[names[|names| - 1] := f(names[|names| - 1])]
  }

  /** A recorded key is one of `m` or one of `names`; a listed key holds its value under `f`, and every
      other key of `m` keeps its value. */
  lemma {:induction false} RecordHas<T>(m: map<string, T>, names: seq<string>, f: string -> T, k: string)
    ensures k in Record(m, names, f) <==> k in m || k in names
    ensures k in names ==> Record(m, names, f)[k] == f(k)
    ensures k in m && k !in names ==> Record(m, names, f)[k] == m[k]
  {
    if |names| > 0 {
      var init := names[..|names| - 1];
      RecordHas(m, init, f, k);
      assert k in names <==> k in init || k == names[|names| - 1] by {
        assert names == init + [names[|names| - 1]];
      }
    }
  }

  /** Recording one more name extends the recording. */
  lemma RecordSnoc<T>(m: map<string, T>, names: seq<string>, k: string, f: string -> T)
    ensures Record(m, names + [k], f) == Record(m, names, f)[k := f(k)]
  {
    assert (names + [k])[..|names|] == names;
  }

  /** Recording the same names a second time leaves no trace of the first recording. */
  lemma RecordOverwrites<T>(m: map<string, T>, names: seq<string>, f: string -> T, g: string -> T)
    ensures Record(Record(m, names, f), names, g) == Record(m, names, g)
  {
    var a := Record(Record(m, names, f), names, g);
    var b := Record(m, names, g);
    forall k
      ensures k in a <==> k in b
      ensures k in a ==> a[k] == b[k]
    {
      RecordHas(Record(m, names, f), names, g, k);
      RecordHas(m, names, f, k);
      RecordHas(m, names, g, k);
    }
  }

  /** The names of the tests of the first `i + 1` groups extend those of the first `i` by group `i`'s. */
  lemma TestNamesNext(groups: seq<TestGroup>, i: nat)
    requires i < |groups|
    ensures TestNames(groups[..i + 1]) == TestNames(groups[..i]) + GroupTestNames(groups[i])
  {
    assert groups[..i + 1][..i] == groups[..i];
  }

  /** The registered suite has one test, keyed `SASL-Login-PLAIN`. */
  lemma AllTestNames()
    ensures TestNames(AllTests) == ["SASL-Login-PLAIN"]
  {
    assert AllTests[..0] == [];
    assert TestNames(AllTests) == TestNames(AllTests[..0]) + GroupTestNames(SaslTests);
    assert GroupTestNames(SaslTests) == [QualifiedName(SaslTests, LoginPlainTest)];
    assert QualifiedName(SaslTests, LoginPlainTest) == "SASL-Login-PLAIN";
  }

  // ---------------------------------------------------------------------------------------------
  // Marking every test as not run (ircts.go:53-60).

  /** Records every declared test as NotApplicable with the cancellation text, so a test whose handler
      never runs is reported as cancelled. `Set` stores the text as the traffic too. */
  method PreMark(results: TestResults, groups: seq<TestGroup>)
    modifies results
    ensures results.resultCode == Record(old(results.resultCode), TestNames(groups), _ => NotApplicable)
    ensures results.resultText == Record(old(results.resultText), TestNames(groups), _ => CancelledText)
    ensures results.resultTraffic == Record(old(results.resultTraffic), TestNames(groups), _ => CancelledText)
  {
    ghost var code0, text0, traffic0 := results.resultCode, results.resultText, results.resultTraffic;
    for i := 0 to |groups|
      invariant results.resultCode == Record(code0, TestNames(groups[..i]), _ => NotApplicable)
      invariant results.resultText == Record(text0, TestNames(groups[..i]), _ => CancelledText)
      invariant results.resultTraffic == Record(traffic0, TestNames(groups[..i]), _ => CancelledText)
    {
      MarkGroup(results, groups[i]);
      TestNamesNext(groups, i);
      RecordAppend(code0, TestNames(groups[..i]), GroupTestNames(groups[i]), _ => NotApplicable);
      RecordAppend(text0, TestNames(groups[..i]), GroupTestNames(groups[i]), _ => CancelledText);
      RecordAppend(traffic0, TestNames(groups[..i]), GroupTestNames(groups[i]), _ => CancelledText);
    }
    assert groups[..|groups|] == groups;
  }

  /** The inner loop of the marking: every test of one group, under its key `Group-Test`. */
  method MarkGroup(results: TestResults, group: TestGroup)
    modifies results
    ensures results.resultCode == Record(old(results.resultCode), GroupTestNames(group), _ => NotApplicable)
    ensures results.resultText == Record(old(results.resultText), GroupTestNames(group), _ => CancelledText)
    ensures results.resultTraffic == Record(old(results.resultTraffic), GroupTestNames(group), _ => CancelledText)
  {
    ghost var code0, text0, traffic0 := results.resultCode, results.resultText, results.resultTraffic;
    ghost var names := GroupTestNames(group);
    for j := 0 to |group.tests|
      invariant results.resultCode == Record(code0, names[..j], _ => NotApplicable)
      invariant results.resultText == Record(text0, names[..j], _ => CancelledText)
      invariant results.resultTraffic == Record(traffic0, names[..j], _ => CancelledText)
    {
      var name := group.name + "-" + group.tests[j].name;
      results.Set(name, NotApplicable, CancelledText, "");
      assert names[..j + 1] == names[..j] + [name];
      RecordSnoc(code0, names[..j], name, _ => NotApplicable);
      RecordSnoc(text0, names[..j], name, _ => CancelledText);
      RecordSnoc(traffic0, names[..j], name, _ => CancelledText);
    }
    assert names[..|group.tests|] == names;
  }

  // ---------------------------------------------------------------------------------------------
  // The capability advertisement (ircts.go:68-111), the `CAP LS` reply of IRCv3 Capability Negotiation.

  /** The two maps the exchange fills: which capabilities the server advertises, and the value of each. */
  datatype Caps = Caps(supported: map<string, bool>, values: map<string, string>)

  const NoCaps: Caps := Caps(map[], map[])

  /** Recording one advertised token `name[=value]`: it is split on its first `=`, the name is marked
      supported and its value, empty without `=`, replaces any earlier one. */
  function MergeToken(caps: Caps, token: string): Caps {
    var (name, value) := SplitOnEquals(token);
    Caps(caps.supported[name := true], caps.values[name := value])
  }

  /** Recording the tokens in order. The two maps keep the same names. */
  function MergeTokens(caps: Caps, tokens: seq<string>): (r: Caps)
    ensures caps.supported.Keys == caps.values.Keys ==> r.supported.Keys == r.values.Keys
  {
    if |tokens| == 0 then caps
    else MergeToken(MergeTokens(caps, tokens[..|tokens| - 1]), tokens[|tokens| - 1])
  }

  /** The value of the last token named `name`, if any token has that name: the value that should win. */
  function LastValue(tokens: seq<string>, name: string): Option<string> {
    if |tokens| == 0 then None
    else
      var split := SplitOnEquals(tokens[|tokens| - 1]);
      if split.0 == name then Some(split.1) else LastValue(tokens[..|tokens| - 1], name)
  }

  /** A name has a value to win exactly when one of the tokens carries that name. */
  lemma {:induction false} LastValueNamed(tokens: seq<string>, name: string)
    ensures LastValue(tokens, name).Some? <==> exists i :: 0 <= i < |tokens| && SplitOnEquals(tokens[i]).0 == name
  {
    if |tokens| > 0 {
      var last := |tokens| - 1;
      var init := tokens[..last];
      LastValueNamed(init, name);
      if exists i :: 0 <= i < |tokens| && SplitOnEquals(tokens[i]).0 == name {
        var i :| 0 <= i < |tokens| && SplitOnEquals(tokens[i]).0 == name;
        if i < last {
          assert tokens[i] == init[i];
        }
      }
    }
  }

  /** What recording tokens does to one name: the last token with that name sets it to supported with
      that token's value; a name no token carries keeps what it had. */
  lemma {:induction false} MergedName(caps: Caps, tokens: seq<string>, name: string)
    ensures var r := MergeTokens(caps, tokens);
      match LastValue(tokens, name)
      case Some(v) => name in r.supported && r.supported[name] && name in r.values && r.values[name] == v
      case None =>
        (name in r.supported <==> name in caps.supported) && (name in r.values <==> name in caps.values)
        && (name in caps.supported ==> r.supported[name] == caps.supported[name])
        && (name in caps.values ==> r.values[name] == caps.values[name])
  {
    if |tokens| > 0 {
      MergedName(caps, tokens[..|tokens| - 1], name);
    }
  }

  /** Recording two lists one after the other records their concatenation. */
  lemma {:induction false} MergeTokensAppend(caps: Caps, a: seq<string>, b: seq<string>)
    ensures MergeTokens(MergeTokens(caps, a), b) == MergeTokens(caps, a + b)
  {
    if |b| == 0 {
      assert a + b == a;
    } else {
      var init := b[..|b| - 1];
      MergeTokensAppend(caps, a, init);
      assert (a + b)[..|a + b| - 1] == a + init;
    }
  }

  /** The loop over `strings.Fields(list)`: every token is split and written into both maps. */
  method MergeFields(caps: Caps, list: string) returns (merged: Caps)
    ensures merged == MergeTokens(caps, Fields(list))
  {
    var supportedCaps, capValues := caps.supported, caps.values;
    var tokens := Fields(list);
    for i := 0 to |tokens|
      invariant Caps(supportedCaps, capValues) == MergeTokens(caps, tokens[..i])
    {
      var (name, value) := SplitOnEquals(tokens[i]);
      supportedCaps := supportedCaps[name := true];
      capValues := capValues[name := value];
      assert tokens[..i + 1][..i] == tokens[..i];
    }
    assert tokens[..|tokens|] == tokens;
    merged := Caps(supportedCaps, capValues);
  }

  /** The reply the exchange reads: a `CAP` message with more than two parameters whose second one is
      `LS` in any case. */
  predicate IsCapLs(m: Message) {
    m.command == "CAP" && 2 < |m.params| && ToUpper(m.params[1]) == "LS"
  }

  /** A continuation line: more lines of the list follow, and the tokens are in the fourth parameter. */
  predicate IsContinuation(m: Message) {
    IsCapLs(m) && m.params[2] == "*"
  }

  /** What the loop body does with a parsed message: the maps after it, what it sends, and whether it
      panics. */
  datatype Handled = Handled(caps: Caps, sent: seq<Entry>, panicked: bool)

  /** A continuation line is recorded, and one without the fourth parameter indexes past the end (a
      panic in Go); a final `LS` line is recorded and answered with `QUIT`; any other message is skipped. */
  function Handle(m: Message, caps: Caps): (h: Handled)
    ensures h.sent == (if IsCapLs(m) && !IsContinuation(m) then [Sent(QuitRequest)] else [])
    ensures h.panicked <==> IsContinuation(m) && |m.params| == 3
    ensures !IsCapLs(m) || h.panicked ==> h.caps == caps
    ensures caps.supported.Keys == caps.values.Keys ==> h.caps.supported.Keys == h.caps.values.Keys
  {
    if !IsCapLs(m) then Handled(caps, [], false)
    else if IsContinuation(m) then
      if |m.params| == 3 then Handled(caps, [], true)
      else Handled(MergeTokens(caps, Fields(m.params[3])), [], false)
    else Handled(MergeTokens(caps, Fields(m.params[2])), [Sent(QuitRequest)], false)
  }

  /** What one pass of the loop body leaves: the maps, the transcript entries it adds, the input left,
      whether the loop breaks there and whether it does so by a panic. */
  datatype Pass = Pass(caps: Caps, entries: seq<Entry>, rest: string, stop: bool, panicked: bool)

  /** One pass on the outcome `e` of reading and parsing a line, `rest` being the input left after it: a
      failed read or a line that does not parse stops the loop; a parsed message is handled, and the loop
      goes on unless that panicked. */
  function PassOn(e: Incoming, rest: string, caps: Caps): (p: Pass)
    ensures caps.supported.Keys == caps.values.Keys ==> p.caps.supported.Keys == p.caps.values.Keys
  {
    match e
    case ReadFailed(_) => Pass(caps, [], rest, true, false)
    case Unparsable(line, _) => Pass(caps, [Got(line)], rest, true, false)
    case Received(line, m) =>
      var h := Handle(m, caps);
      Pass(h.caps, [Got(line)] + h.sent, rest, h.panicked, h.panicked)
  }

  /** One pass of the loop body over the input still to be read. */
  function ReadPass(connected: bool, input: string, parse: Parser, caps: Caps): (p: Pass)
    ensures !p.stop ==> |p.rest| < |input| && !p.panicked
  {
    var next := Next(connected, input, parse);
    PassOn(next.0, next.1, caps)
  }

  /** Where the exchange ends: the maps, the transcript entries of everything read and sent after the
      request, the input left unread, and whether it ended in a panic. */
  datatype Negotiation = Negotiation(caps: Caps, log: seq<Entry>, rest: string, panicked: bool)

  function Prepend(log: seq<Entry>, n: Negotiation): Negotiation {
    n.(log := log + n.log)
  }

  /** The exchange from `caps` over the input still to be read: passes until one stops the loop. Reading
      goes on after a `QUIT`. The two maps always have the same names. */
  function Negotiate(connected: bool, input: string, parse: Parser, caps: Caps): (n: Negotiation)
    ensures caps.supported.Keys == caps.values.Keys ==> n.caps.supported.Keys == n.caps.values.Keys
    decreases |input|
  {
    var p := ReadPass(connected, input, parse, caps);
    if p.stop then Negotiation(p.caps, p.entries, p.rest, p.panicked)
    else Prepend(p.entries, Negotiate(connected, p.rest, parse, p.caps))
  }

  /** Every token the exchange records, in the order the server sent them. */
  function Advertised(connected: bool, input: string, parse: Parser): seq<string>
    decreases |input|
  {
    var (e, rest) := Next(connected, input, parse);
    if !e.Received? || !IsCapLs(e.msg) then
      if e.Received? then Advertised(connected, rest, parse) else []
    else if IsContinuation(e.msg) then
      if |e.msg.params| == 3 then [] else Fields(e.msg.params[3]) + Advertised(connected, rest, parse)
    else Fields(e.msg.params[2]) + Advertised(connected, rest, parse)
  }

  /** The lines of a multi-line list merge into one set: the maps the exchange ends with are those of
      recording every advertised token in order, so a later token overrides an earlier one of the same
      name whichever line either is on (see `MergedName`). */
  lemma {:induction false} NegotiateMergesAll(connected: bool, input: string, parse: Parser, caps: Caps)
    ensures Negotiate(connected, input, parse, caps).caps == MergeTokens(caps, Advertised(connected, input, parse))
    decreases |input|
  {
    assert MergeTokens(caps, []) == caps;
    var (e, rest) := Next(connected, input, parse);
    if e.Received? && IsCapLs(e.msg) && !(IsContinuation(e.msg) && |e.msg.params| == 3) {
      var list := if IsContinuation(e.msg) then e.msg.params[3] else e.msg.params[2];
      NegotiateMergesAll(connected, rest, parse, MergeTokens(caps, Fields(list)));
      MergeTokensAppend(caps, Fields(list), Advertised(connected, rest, parse));
    } else if e.Received? {
      NegotiateMergesAll(connected, rest, parse, caps);
    }
  }

  /** A message that is not a `CAP LS` reply changes neither map: the exchange goes on from the same maps. */
  lemma OtherMessageSkipped(connected: bool, input: string, parse: Parser, caps: Caps)
    requires Next(connected, input, parse).0.Received?
    requires !IsCapLs(Next(connected, input, parse).0.msg)
    ensures var next := Next(connected, input, parse);
      Negotiate(connected, input, parse, caps) == Prepend([Got(next.0.line)], Negotiate(connected, next.1, parse, caps))
  {
    var next := Next(connected, input, parse);
    assert ReadPass(connected, input, parse, caps) == Pass(caps, [Got(next.0.line)], next.1, false, false);
  }

  /** A failed read or a line that does not parse ends the exchange and keeps everything recorded so far. */
  lemma StopsAtError(connected: bool, input: string, parse: Parser, caps: Caps)
    requires !Next(connected, input, parse).0.Received?
    ensures var next := Next(connected, input, parse);
      Negotiate(connected, input, parse, caps)
      == Negotiation(caps, if next.0.ReadFailed? then [] else [Got(next.0.line)], next.1, false)
  {
    var next := Next(connected, input, parse);
    assert ReadPass(connected, input, parse, caps) == PassOn(next.0, next.1, caps);
  }

  /** The bytes the sends among `log` deliver, in order. */
  function SentBytes(connected: bool, writeError: Option<string>, log: seq<Entry>): string {
    if |log| == 0 then ""
    else (if log[0].Sent? then Delivered(connected, writeError, log[0].line) else "") + SentBytes(connected, writeError, log[1..])
  }

  lemma {:induction false} SentBytesAppend(connected: bool, writeError: Option<string>, a: seq<Entry>, b: seq<Entry>)
    ensures SentBytes(connected, writeError, a + b) == SentBytes(connected, writeError, a) + SentBytes(connected, writeError, b)
  {
    if |a| > 0 {
      assert (a + b)[1..] == a[1..] + b;
      SentBytesAppend(connected, writeError, a[1..], b);
    } else {
      assert a + b == b;
    }
  }

  /** A line read delivers no bytes. */
  lemma ReadSendsNothing(connected: bool, writeError: Option<string>, line: string, log: seq<Entry>)
    ensures SentBytes(connected, writeError, [Got(line)] + log) == SentBytes(connected, writeError, log)
  {
    assert ([Got(line)] + log)[1..] == log;
  }

  /** The handling of a parsed message, as `Handle` describes it. */
  method HandleMessage(c: Connection, msg: Message, caps: Caps) returns (merged: Caps, sent: seq<Entry>, panicked: bool)
    modifies c`traffic, c.socket`output
    ensures Handle(msg, caps) == Handled(merged, sent, panicked)
    ensures c.traffic == old(c.traffic) + Transcript(sent)
    ensures c.socket.output == old(c.socket.output) + SentBytes(c.socket.connected, c.socket.writeError, sent)
  {
    merged, sent, panicked := caps, [], false;
    if msg.command == "CAP" {
      if 2 < |msg.params| && ToUpper(msg.params[1]) == "LS" {
        if msg.params[2] == "*" {
          if |msg.params| == 3 {
            return merged, sent, true;
          }
          merged := MergeFields(caps, msg.params[3]);
        } else {
          merged := MergeFields(caps, msg.params[2]);
          var _ := c.SendLine(QuitRequest);
          sent := [Sent(QuitRequest)];
          assert SentBytes(c.socket.connected, c.socket.writeError, sent) == Delivered(c.socket.connected, c.socket.writeError, QuitRequest) + "";
        }
      }
    }
  }

  /** One pass of the loop body, as `ReadPass` describes it. */
  method ReadCapLine(c: Connection, parse: Parser, caps: Caps) returns (merged: Caps, entries: seq<Entry>, stop: bool, panicked: bool)
    modifies c`traffic, c.socket`input, c.socket`output
    ensures var next := Next(c.socket.connected, old(c.socket.input), parse);
      c.socket.input == next.1 && PassOn(next.0, next.1, caps) == Pass(merged, entries, c.socket.input, stop, panicked)
    ensures c.traffic == old(c.traffic) + Transcript(entries)
    ensures c.socket.output == old(c.socket.output) + SentBytes(c.socket.connected, c.socket.writeError, entries)
  {
    ghost var connected, before := c.socket.connected, c.socket.input;
    var line, err := c.GetLine();
    GetLineObserves(connected, before, parse, line, err, c.socket.input);
    merged, entries, stop, panicked := caps, [], true, false;
    if err.None? {
      entries := [Got(line)];
      ReadSendsNothing(connected, c.socket.writeError, line, []);
      var parsed := parse(line);
      if parsed.Parsed? {
        var sent;
        merged, sent, panicked := HandleMessage(c, parsed.msg, caps);
        stop := panicked;
        TranscriptAppend(entries, sent);
        ReadSendsNothing(connected, c.socket.writeError, line, sent);
        Associative(old(c.traffic), Transcript(entries), Transcript(sent));
        entries := entries + sent;
      }
    }
  }

  /** `Prepend` composes. */
  lemma PrependTwice(a: seq<Entry>, b: seq<Entry>, n: Negotiation)
    ensures Prepend(a, Prepend(b, n)) == Prepend(a + b, n)
  {
    assert a + (b + n.log) == a + b + n.log;
  }

  /** The exchange on the first connection: `CAP LS 302` is sent, then replies are read until a read or
      a parse fails; the maps, the transcript and what was written are those of `Negotiate`. */
  method NegotiateCaps(c: Connection, parse: Parser) returns (caps: Caps, panicked: bool)
    modifies c`traffic, c.socket`input, c.socket`output
    ensures var n := Negotiate(c.socket.connected, old(c.socket.input), parse, NoCaps);
      && caps == n.caps && panicked == n.panicked && c.socket.input == n.rest
      && c.traffic == old(c.traffic) + Transcript([Sent(CapLsRequest)] + n.log)
      && c.socket.output == old(c.socket.output) + SentBytes(c.socket.connected, c.socket.writeError, [Sent(CapLsRequest)] + n.log)
    ensures caps.supported.Keys == caps.values.Keys
  {
    ghost var connected, writeError := c.socket.connected, c.socket.writeError;
    ghost var input0 := c.socket.input;
    var _ := c.SendLine(CapLsRequest);
    ghost var traffic0, output0 := c.traffic, c.socket.output;
    ghost var log: seq<Entry> := [];
    caps, panicked := NoCaps, false;
    while true
      invariant c.socket.connected == connected && c.socket.writeError == writeError
      invariant Negotiate(connected, input0, parse, NoCaps) == Prepend(log, Negotiate(connected, c.socket.input, parse, caps))
      invariant c.traffic == traffic0 + Transcript(log)
      invariant c.socket.output == output0 + SentBytes(connected, writeError, log)
      decreases |c.socket.input|
    {
      ghost var here := Negotiate(connected, c.socket.input, parse, caps);
      ghost var pass := ReadPass(connected, c.socket.input, parse, caps);
      var merged, entries, stop, p := ReadCapLine(c, parse, caps);
      assert pass == Pass(merged, entries, c.socket.input, stop, p);
      ghost var after := if stop then Negotiation(merged, [], c.socket.input, p) else Negotiate(connected, c.socket.input, parse, merged);
      assert here == Prepend(entries, after);
      PrependTwice(log, entries, after);
      TranscriptAppend(log, entries);
      SentBytesAppend(connected, writeError, log, entries);
      Associative(traffic0, Transcript(log), Transcript(entries));
      Associative(output0, SentBytes(connected, writeError, log), SentBytes(connected, writeError, entries));
      log := log + entries;
      caps := merged;
      if stop {
        panicked := p;
        assert log + [] == log;
        break;
      }
    }
    TranscriptAppend([Sent(CapLsRequest)], log);
    SentBytesAppend(connected, writeError, [Sent(CapLsRequest)], log);
    assert SentBytes(connected, writeError, [Sent(CapLsRequest)]) == Delivered(connected, writeError, CapLsRequest);
    assert Transcript([Sent(CapLsRequest)]) == " -> " + CapLsRequest + "\n";
    Associative(old(c.traffic), Transcript([Sent(CapLsRequest)]), Transcript(log));
    Associative(old(c.socket.output), Delivered(connected, writeError, CapLsRequest), SentBytes(connected, writeError, log));
  }

  // ---------------------------------------------------------------------------------------------
  // Running the tests (ircts.go:116-126).

  /** The lines printed while running: an empty line and `Testing <group>` per group, each followed by
      its tests' lines. */
  function ProgressLines(groups: seq<TestGroup>): seq<string> {
    if |groups| == 0 then []
    else ProgressLines(groups[..|groups| - 1]) + ["", "Testing " + groups[|groups| - 1].name] + TestLines(groups[|groups| - 1])
  }

  /** `- <test>` per test of the group. */
  function TestLines(g: TestGroup): (lines: seq<string>)
    ensures |lines| == |g.tests|
  {
    seq(|g.tests|, j requires 0 <= j < |g.tests| => "- " + g.tests[j].name)
  }

  /** Two header lines per group and one line per test. */
  lemma {:induction false} ProgressLinesCount(groups: seq<TestGroup>)
    ensures |ProgressLines(groups)| == 2 * |groups| + |TestNames(groups)|
  {
    if |groups| > 0 {
      ProgressLinesCount(groups[..|groups| - 1]);
    }
  }

  /** The verdict the handler of the test keyed `name` records, given what that run meets. */
  function VerdictFor(accounts: seq<AccountConfig>, sessions: string -> Session, parse: Parser, name: string): Verdict {
    LoginPlainResult(accounts, sessions(name).dial, parse).0
  }

  /** `verdict` gives, for every key, the verdict its handler records. */
  ghost predicate Describes(verdict: string -> Verdict, accounts: seq<AccountConfig>, sessions: string -> Session, parse: Parser) {
    forall k {:trigger VerdictFor(accounts, sessions, parse, k)} :: verdict(k) == VerdictFor(accounts, sessions, parse, k)
  }

  /** Recording two lists of names in turn records their concatenation. */
  lemma {:induction false} RecordAppend<T>(m: map<string, T>, a: seq<string>, b: seq<string>, f: string -> T)
    ensures Record(Record(m, a, f), b, f) == Record(m, a + b, f)
  {
    if |b| == 0 {
      assert a + b == a;
    } else {
      var init := b[..|b| - 1];
      RecordAppend(m, a, init, f);
      assert (a + b)[..|a + b| - 1] == a + init;
    }
  }

  /** `Test.Handler(name, rm)`: the handler records its verdict under `name`; the connection it opens is
      destroyed again. */
  method Invoke(handler: Handler, name: string, rm: RunManager, sessions: string -> Session, parse: Parser, encode: Encoder,
                ghost verdict: string -> Verdict)
    requires Describes(verdict, rm.config.accounts, sessions, parse)
    modifies rm.results, rm.pool
    ensures rm.results.resultCode == old(rm.results.resultCode)[name := verdict(name).code]
    ensures rm.results.resultText == old(rm.results.resultText)[name := verdict(name).text]
    ensures rm.results.resultTraffic == old(rm.results.resultTraffic)[name := verdict(name).text]
    ensures rm.pool.connections == old(rm.pool.connections)
  {
    match handler
    case LoginPlain =>
      var _, _ := LoginPlainHandler(name, rm, sessions(name), parse, encode);
      assert VerdictFor(rm.config.accounts, sessions, parse, name) == verdict(name);
  }

  /** The tests of one group, in declaration order, each under its key `Group-Test`. */
  method RunGroup(rm: RunManager, group: TestGroup, sessions: string -> Session, parse: Parser, encode: Encoder,
                  ghost verdict: string -> Verdict)
    returns (lines: seq<string>)
    requires Describes(verdict, rm.config.accounts, sessions, parse)
    modifies rm.results, rm.pool
    ensures lines == TestLines(group)
    ensures rm.results.resultCode == Record(old(rm.results.resultCode), GroupTestNames(group), k => verdict(k).code)
    ensures rm.results.resultText == Record(old(rm.results.resultText), GroupTestNames(group), k => verdict(k).text)
    ensures rm.results.resultTraffic == Record(old(rm.results.resultTraffic), GroupTestNames(group), k => verdict(k).text)
    ensures rm.pool.connections == old(rm.pool.connections)
  {
    ghost var code0, text0, traffic0 := rm.results.resultCode, rm.results.resultText, rm.results.resultTraffic;
    ghost var names := GroupTestNames(group);
    lines := [];
    for j := 0 to |group.tests|
      invariant lines == TestLines(group)[..j]
      invariant rm.results.resultCode == Record(code0, names[..j], k => verdict(k).code)
      invariant rm.results.resultText == Record(text0, names[..j], k => verdict(k).text)
      invariant rm.results.resultTraffic == Record(traffic0, names[..j], k => verdict(k).text)
      invariant rm.pool.connections == old(rm.pool.connections)
    {
      var test := group.tests[j];
      lines := lines + ["- " + test.name];
      assert TestLines(group)[..j + 1] == TestLines(group)[..j] + ["- " + test.name];
      var name := group.name + "-" + test.name;
      Invoke(test.handler, name, rm, sessions, parse, encode, verdict);
      assert names[..j + 1] == names[..j] + [name];
      RecordSnoc(code0, names[..j], name, k => verdict(k).code);
      RecordSnoc(text0, names[..j], name, k => verdict(k).text);
      RecordSnoc(traffic0, names[..j], name, k => verdict(k).text);
    }
    assert names[..|group.tests|] == names;
    assert TestLines(group)[..|group.tests|] == TestLines(group);
  }

  /** Runs every test's handler, groups in declaration order and tests in declaration order within a
      group, each under its key `Group-Test`: every key ends with the verdict its handler records (a later
      test with the same key overwrites an earlier one), and every connection a handler opens is
      destroyed. */
  method RunTests(rm: RunManager, groups: seq<TestGroup>, sessions: string -> Session, parse: Parser, encode: Encoder,
                  ghost verdict: string -> Verdict)
    returns (lines: seq<string>)
    requires Describes(verdict, rm.config.accounts, sessions, parse)
    modifies rm.results, rm.pool
    ensures lines == ProgressLines(groups)
    ensures rm.results.resultCode == Record(old(rm.results.resultCode), TestNames(groups), k => verdict(k).code)
    ensures rm.results.resultText == Record(old(rm.results.resultText), TestNames(groups), k => verdict(k).text)
    ensures rm.results.resultTraffic == Record(old(rm.results.resultTraffic), TestNames(groups), k => verdict(k).text)
    ensures rm.pool.connections == old(rm.pool.connections)
  {
    ghost var code0, text0, traffic0 := rm.results.resultCode, rm.results.resultText, rm.results.resultTraffic;
    lines := [];
    for i := 0 to |groups|
      invariant lines == ProgressLines(groups[..i])
      invariant rm.results.resultCode == Record(code0, TestNames(groups[..i]), k => verdict(k).code)
      invariant rm.results.resultText == Record(text0, TestNames(groups[..i]), k => verdict(k).text)
      invariant rm.results.resultTraffic == Record(traffic0, TestNames(groups[..i]), k => verdict(k).text)
      invariant rm.pool.connections == old(rm.pool.connections)
    {
      var group := groups[i];
      lines := lines + ["", "Testing " + group.name];
      var testLines := RunGroup(rm, group, sessions, parse, encode, verdict);
      lines := lines + testLines;
      assert groups[..i + 1][..i] == groups[..i];
      TestNamesNext(groups, i);
      RecordAppend(code0, TestNames(groups[..i]), GroupTestNames(group), k => verdict(k).code);
      RecordAppend(text0, TestNames(groups[..i]), GroupTestNames(group), k => verdict(k).text);
      RecordAppend(traffic0, TestNames(groups[..i]), GroupTestNames(group), k => verdict(k).text);
    }
    assert groups[..|groups|] == groups;
  }

  // ---------------------------------------------------------------------------------------------
  // The run command after the configuration is loaded (ircts.go:47-126).

  /** How the run ends: the process exits with a message when the first connection cannot be made, it
      panics on a continuation line without its list, or every test has run. */
  datatype Outcome = Fatal(message: string) | Panicked | Completed(caps: Caps, progress: seq<string>)

  /** Marks every test cancelled, asks the server for its capabilities over a first connection (dialled
      as `capsDial` says), destroys that connection and runs every test. A test whose handler runs ends
      with that handler's verdict, not the cancellation; when the run stops early, every test keeps the
      cancellation. */
  method Run(config: Config, capsDial: Dial, sessions: string -> Session, parse: Parser, encode: Encoder,
             ghost verdict: string -> Verdict)
    returns (outcome: Outcome, rm: RunManager)
    requires Describes(verdict, config.accounts, sessions, parse)
    ensures fresh(rm) && fresh(rm.pool) && fresh(rm.results) && rm.config == config
    ensures var names := TestNames(AllTests);
      if outcome.Completed? then
        && rm.results.resultCode == Record(map[], names, k => verdict(k).code)
        && rm.results.resultText == Record(map[], names, k => verdict(k).text)
        && rm.results.resultTraffic == Record(map[], names, k => verdict(k).text)
      else
        && rm.results.resultCode == Record(map[], names, _ => NotApplicable)
        && rm.results.resultText == Record(map[], names, _ => CancelledText)
        && rm.results.resultTraffic == Record(map[], names, _ => CancelledText)
    ensures capsDial.Refused? ==> outcome == Fatal(InitialCapsFailurePrefix + ConnectFailurePrefix + capsDial.reason)
    ensures capsDial.Accepted? ==>
      var n := Negotiate(true, capsDial.serverInput, parse, NoCaps);
      outcome == if n.panicked then Panicked else Completed(n.caps, ProgressLines(AllTests))
    ensures outcome.Completed? ==> rm.pool.connections == map[]
  {
    var pool := new ConnectionPool();
    rm := new RunManager(config, pool);
    PreMark(rm.results, AllTests);
    var c, err := rm.pool.NewConnection(capsDial);
    if err.Some? {
      Associative(InitialCapsFailurePrefix, ConnectFailurePrefix, capsDial.reason);
      return Fatal(InitialCapsFailurePrefix + err.value), rm;
    }
    var caps, panicked := NegotiateCaps(c, parse);
    if panicked {
      return Panicked, rm;
    }
    rm.pool.DestroyConnection(c);
    assert rm.pool.connections == map[];
    var progress := RunTests(rm, AllTests, sessions, parse, encode, verdict);
    RecordOverwrites(map[], TestNames(AllTests), _ => NotApplicable, k => verdict(k).code);
    RecordOverwrites(map[], TestNames(AllTests), _ => CancelledText, k => verdict(k).text);
    outcome := Completed(caps, progress);
  }
}
