/** Test outcomes, the results table, the declarative test model and the run manager
    (lib/tests/tests.go). */
module Tests {
  import opened Wrappers
  import opened Base64
  import opened Config
  import opened Sockets
  import opened Connections

  /** `TestReturn`; in Go an `int` enumeration whose zero value is `Success`. */
  datatype TestReturn = Success | Failure | NotApplicable

  /** The `iota` value of each outcome. */
  function ReturnValue(r: TestReturn): (v: int)
    ensures 0 <= v < 3
    ensures v == 0 <==> r == Success
  {
    match r
    case Success => 0
    case Failure => 1
    case NotApplicable => 2
  }

  /** The three outcomes have three distinct values. */
  lemma ReturnValuesDistinct(a: TestReturn, b: TestReturn)
    ensures ReturnValue(a) == ReturnValue(b) <==> a == b
  {
  }

  /** `TestReturnStrings`. */
  function ReturnString(r: TestReturn): string {
    match r
    case Success => "Success"
    case Failure => "Failed"
    case NotApplicable => "N/A"
  }

  /** Every outcome has its own label. */
  lemma ReturnStringsDistinct(a: TestReturn, b: TestReturn)
    ensures ReturnString(a) == ReturnString(b) <==> a == b
  {
  }

  /** An outcome with its explanation, as recorded by a test. */
  datatype Verdict = Verdict(code: TestReturn, text: string)

  /** A Go map read: the stored text, or the zero value `""`. */
  function Lookup(m: map<string, string>, key: string): string {
    if key in m then m[key] else ""
  }

  class TestResults {
    var resultCode: map<string, TestReturn>
    var resultText: map<string, string>
    var resultTraffic: map<string, string>

    /** `NewTestResults`. */
    constructor ()
      ensures resultCode == map[] && resultText == map[] && resultTraffic == map[]
    {
      resultCode := map[];
      resultText := map[];
      resultTraffic := map[];
    }

    /** Records a result. As written, the explanation `text` is stored as the traffic and the `traffic`
        argument is dropped. */
    method Set(name: string, code: TestReturn, text: string, traffic: string)
      modifies this
      ensures resultCode == old(resultCode)[name := code]
      ensures resultText == old(resultText)[name := text]
      ensures resultTraffic == old(resultTraffic)[name := text]
    {
      resultCode := resultCode[name := code];
      resultText := resultText[name := text];
      resultTraffic := resultTraffic[name := text];
    }

    /** The outcome a read of `name` gives: the stored one, or the zero value `Success`. */
    function CodeOf(name: string): TestReturn
      reads this
    {
      if name in resultCode then resultCode[name] else Success
    }

    /** The lines `Print(name)` writes. */
    function Print(name: string): (lines: seq<string>)
      reads this
      ensures |lines| == (if CodeOf(name) == Failure then 5 else 2)
      ensures lines[0] == name + " - " + ReturnString(CodeOf(name))
      ensures lines[1] == "   " + Lookup(resultText, name)
      ensures CodeOf(name) == Failure ==> lines[2..] == ["---", Lookup(resultTraffic, name), "---"]
      ensures name !in resultCode ==> lines == [name + " - Success", "   " + Lookup(resultText, name)]
    {
      var result := CodeOf(name);
      assert name + " - " + "Success" == name + " - Success";
      [name + " - " + ReturnString(result), "   " + Lookup(resultText, name)]
      + (if result == Failure then ["---", Lookup(resultTraffic, name), "---"] else [])
    }
  }

  /** The handlers a test can have; the only test of the suite is SASL PLAIN login. */
  datatype Handler = LoginPlain

  datatype Test = Test(name: string, description: string, clientsRequiredAtStart: int, requiredCaps: seq<string>, handler: Handler)

  datatype TestGroup = TestGroup(name: string, description: string, tests: seq<Test>)

  /** The key of a test's results: `Group.Name + "-" + Test.Name`. */
  function QualifiedName(g: TestGroup, t: Test): string {
    g.name + "-" + t.name
  }

  function GroupTestNames(g: TestGroup): (names: seq<string>)
    ensures |names| == |g.tests|
    ensures forall j :: 0 <= j < |g.tests| ==> names[j] == QualifiedName(g, g.tests[j])
  {
    seq(|g.tests|, j requires 0 <= j < |g.tests| => QualifiedName(g, g.tests[j]))
  }

  /** The keys of every test, in group then test declaration order. */
  function TestNames(groups: seq<TestGroup>): seq<string> {
    if |groups| == 0 then [] else TestNames(groups[..|groups| - 1]) + GroupTestNames(groups[|groups| - 1])
  }

  /** A key is listed exactly when some declared test of some group has it. */
  lemma {:induction false} InTestNames(groups: seq<TestGroup>, key: string)
    ensures key in TestNames(groups) <==>
      exists i, j :: 0 <= i < |groups| && 0 <= j < |groups[i].tests| && key == QualifiedName(groups[i], groups[i].tests[j])
  {
    if |groups| > 0 {
      var init := groups[..|groups| - 1];
      InTestNames(init, key);
      var last := groups[|groups| - 1];
      if key in GroupTestNames(last) {
        var j :| 0 <= j < |last.tests| && GroupTestNames(last)[j] == key;
        assert key == QualifiedName(groups[|groups| - 1], groups[|groups| - 1].tests[j]);
      }
      if exists i, j :: 0 <= i < |groups| && 0 <= j < |groups[i].tests| && key == QualifiedName(groups[i], groups[i].tests[j]) {
        var i, j :| 0 <= i < |groups| && 0 <= j < |groups[i].tests| && key == QualifiedName(groups[i], groups[i].tests[j]);
        if i < |groups| - 1 {
          assert groups[i] == init[i];
        } else {
          assert GroupTestNames(last)[j] == key;
        }
      }
    }
  }

  /** The randomness `NewNick` draws: `rand.Read` fills a nine-byte buffer. */
  type Nonce = s: seq<byte> | |s| == 9 witness [0, 0, 0, 0, 0, 0, 0, 0, 0]

  /** What one run of a handler meets from the outside: the outcome of dialling each connection it
      opens and the random bytes of each nickname it draws. */
  datatype Session = Session(dial: Dial, nonce: Nonce)

  class RunManager {
    const config: Config
    const pool: ConnectionPool
    const results: TestResults

    /** `NewRunManager` with the pool and configuration `main` assigns straight after. */
    constructor (config: Config, pool: ConnectionPool)
      ensures this.config == config && this.pool == pool && fresh(results)
      ensures results.resultCode == map[] && results.resultText == map[] && results.resultTraffic == map[]
    {
      this.config := config;
      this.pool := pool;
      results := new TestResults();
    }

    /** A nickname: the first nine characters of the base64 encoding of nine random bytes. The encoding
        is twelve characters long, so the slice is in bounds, and it has no padding. */
    method NewNick(random: Nonce) returns (nick: string)
      ensures |nick| == 9 && InAlphabet(nick)
      ensures nick <= Encode(random)
    {
      var str := Encode(random);
      EncodeUnpadded(random);
      nick := str[..9];
    }
  }
}
