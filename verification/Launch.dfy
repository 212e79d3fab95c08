/** How the arguments of a job reach its process, and what the gate script makes of them. */
module Launch {
  import opened Prelude
  import opened Text
  import opened Wire
  import opened Gates
  import opened GatedWire
  import opened Requirements

  // ----- from the payload to the worker -----

  /** A script to run, and the text of its arguments. */
  datatype ScriptCall = ScriptCall(filename: string, args: string)

  predicate NamesCommand(s: string)
  {
    StartsWith(s, "RUN_ARCHIVE") || StartsWith(s, "START_ARCHIVE_SERVICE")
    || StartsWith(s, "DEPLOY_PAYLOAD") || StartsWith(s, "RUN_PAYLOAD")
  }

  /** The payload behind its first field, if a command stands there; otherwise the payload as it is. */
  function ActualPayload(payload: string): string
  {
    var i := IndexOf(payload, '|');
    if i != -1 && NamesCommand(payload[i + 1..]) then payload[i + 1..] else payload
  }

  /** What executeRunOneOff sends to be run; None for any other kind of payload, or one with too few fields. */
  function RunOf(payload: string): Option<ScriptCall>
  {
    var actual := ActualPayload(payload);
    var parts := JavaSplit(actual, '|');
    if !StartsWith(actual, "RUN_PAYLOAD") || |parts| < 3 then None
    else Some(ScriptCall(parts[1], if |parts| >= 4 then parts[2] else ""))
  }

  function RunMessage(id: string, run: ScriptCall): string
  {
    id + "|" + (run.filename + "|" + run.args)
  }

  /** The worker's message handler passes a message on with its id, or with one of its own. */
  function Forwarded(message: string): string
  {
    var i := IndexOf(message, '|');
    if i == -1 then "UNKNOWN|" + message
    else if message[..i] == "TEST" then "TEST-JOB" + message[i..]
    else message
  }

  /** The script executor's reading: id, script, arguments; without a script in second place, no arguments. */
  function ScriptOf(message: string): ScriptCall
  {
    match CutAt(message)
    case None => ScriptCall(message, "")
    case Some((first, rest)) =>
      var (second, args) := match CutAt(rest) case None => (rest, "") case Some((a, b)) => (a, b);
      if EndsWith(second, ".py") || EndsWith(second, ".sh") then ScriptCall(second, args)
      else ScriptCall(if first == "RUN_PAYLOAD" then second else first, "")
  }

  /** Both sides of the first pipe. */
  function CutAt(s: string): Option<(string, string)>
  {
    var i := IndexOf(s, '|');
    if i == -1 then None else Some((s[..i], s[i + 1..]))
  }

  // ----- from the worker to the process -----

  /** Of the pieces, trimmed, those that are not blank. */
  function Words(pieces: seq<string>): seq<string>
  {
    if pieces == [] then []
    else
      var w := Trim(pieces[|pieces| - 1]);
      Words(pieces[..|pieces| - 1]) + if w == "" then [] else [w]
  }

  /** The words of the command line behind the script. */
  function ArgWords(args: string): seq<string>
  {
    if args == "" then [] else Words(JavaSplit(args, ' '))
  }

  method CommandWords(args: string) returns (command: seq<string>)
    ensures command == ArgWords(args)
  {
    command := [];
    if args != "" {
      var argList := JavaSplit(args, ' ');
      for i := 0 to |argList|
        invariant command == Words(argList[..i])
      {
        assert argList[..i + 1][..i] == argList[..i];
        if Trim(argList[i]) != "" {
          command := command + [Trim(argList[i])];
        }
      }
      assert argList[..|argList|] == argList;
    }
  }

  const GATE_SCRIPT := "hitl_gate.py"

  /** The script that a job's payload makes a worker run. */
  function ScriptRun(id: string, payload: string): Option<ScriptCall>
  {
    match RunOf(payload)
    case None => None
    case Some(run) => Some(ScriptOf(Forwarded(RunMessage(id, run))))
  }

  predicate RunsGate(id: string, payload: string)
  {
    ScriptRun(id, payload).Some? && ScriptRun(id, payload).value.filename == GATE_SCRIPT
  }

  /** The gate under whose name the process of a job asks for a decision: its first argument. Without one it exits. */
  function PolledGate(id: string, payload: string): Option<string>
  {
    if !RunsGate(id, payload) then None
    else
      var words := ArgWords(ScriptRun(id, payload).value.args);
      if words == [] then None else Some(words[0])
  }

  // ----- what becomes of the arguments of a gate -----

  /** A text up to its first space. */
  function UpToSpace(s: string): string
  {
    if ' ' in s then s[..IndexOf(s, ' ')] else s
  }

  function FirstWord(s: string): string
  {
    Trim(UpToSpace(s))
  }

  lemma TrimLeftBounds(s: string)
    ensures |TrimLeft(s)| <= |s|
  {
  }

  lemma TrimRightBounds(s: string)
    ensures |TrimRight(s)| <= |s|
  {
  }

  lemma TrimBounds(s: string)
    ensures |Trim(s)| <= |s|
  {
    TrimLeftBounds(s);
    TrimRightBounds(TrimLeft(s));
  }

  /** A name that is not blank at its ends is its own first word exactly if it holds no space. */
  lemma FirstWordIsWhole(s: string)
    requires Tight(s)
    ensures FirstWord(s) == s <==> ' ' !in s
  {
    if ' ' in s {
      TrimBounds(UpToSpace(s));
    } else {
      TrimTight(s);
    }
  }

  lemma TrimNotEmpty(s: string)
    requires s != [] && !Blank(s[0])
    ensures Trim(s) != []
  {
    TrimRightKeepsStart(s);
  }

  lemma {:induction false} FirstOfWords(pieces: seq<string>)
    requires pieces != [] && Trim(pieces[0]) != ""
    ensures Words(pieces) != [] && Words(pieces)[0] == Trim(pieces[0])
  {
    hide Trim;
    if |pieces| == 1 {
      assert pieces[..0] == [];
    } else {
      FirstOfWords(pieces[..|pieces| - 1]);
    }
  }

  lemma {:induction false} FirstStays(fields: seq<string>)
    requires fields != [] && fields[0] != []
    ensures DropTrailingEmpty(fields) != [] && DropTrailingEmpty(fields)[0] == fields[0]
  {
    if fields[|fields| - 1] == [] {
      FirstStays(fields[..|fields| - 1]);
    }
  }

  /** The first argument of the process is the first word of the text. */
  lemma FirstArg(args: string)
    requires args != [] && !Blank(args[0])
    ensures ArgWords(args) != [] && ArgWords(args)[0] == FirstWord(args)
  {
    hide Trim;
    var first := UpToSpace(args);
    TrimNotEmpty(first);
    if ' ' in args {
      FirstStays(Split(args, ' '));
    }
    FirstOfWords(JavaSplit(args, ' '));
  }

  lemma SpaceCut(a: string, b: string)
    ensures UpToSpace(a + " " + b) == UpToSpace(a)
  {
    var s := a + " " + b;
    assert s[|a|] == ' ';
    if ' ' in a {
      var i := IndexOf(a, ' ');
      assert s == a[..i] + " " + (a[i + 1..] + " " + b);
      IndexOfAt(a[..i], ' ', a[i + 1..] + " " + b);
      assert s[..i] == a[..i];
    } else {
      IndexOfAt(a, ' ', b);
      assert s[..|a|] == a;
    }
  }

  lemma NoPipeStays(s: string)
    requires '|' !in s
    ensures ReplaceChar(s, '|', ' ') == s
  {
  }

  lemma ReplaceConcat(a: string, b: string)
    ensures ReplaceChar(a + b, '|', ' ') == ReplaceChar(a, '|', ' ') + ReplaceChar(b, '|', ' ')
  {
  }

  /** The arguments as the line carries them. */
  function SentArgs(n: Node): string
  {
    ReplaceChar(GateArgs(n, n.maxWait), '|', ' ')
  }

  lemma SentArgsStart(n: Node)
    requires CleanName(n.job.id)
    ensures '|' !in SentArgs(n) && SentArgs(n) != [] && SentArgs(n)[0] == 'h'
    ensures UpToSpace(SentArgs(n)) == UpToSpace(GateId(n.job.id))
  {
    GateNameIsClean(n.job.id);
    var id := GateId(n.job.id);
    var rest := PrintInt(n.maxWait) + " " + ReplaceChar(n.message, '|', ' ');
    assert GateArgs(n, n.maxWait) == id + (" " + rest);
    ReplaceConcat(id, " " + rest);
    ReplaceConcat(" ", rest);
    NoPipeStays(id);
    NoPipeStays(" ");
    assert SentArgs(n) == id + " " + ReplaceChar(rest, '|', ' ');
    SpaceCut(id, ReplaceChar(rest, '|', ' '));
    assert id[0] == GATE_PREFIX[0];
  }

  // ----- the whole way -----

  lemma FourFields(a: string, b: string, c: string, d: string, e: string)
    requires '|' !in a && '|' !in b && '|' !in c && '|' !in e && e != []
    ensures var parts := JavaSplit(a + "|" + (b + "|" + (c + "|" + (d + "|" + e))), '|');
      |parts| >= 5 && parts[1] == b && parts[2] == c
  {
    hide Split, JavaSplit;
    var tail := d + "|" + e;
    LastField(d, e);
    SplitStep(c, '|', tail);
    SplitStep(b, '|', c + "|" + tail);
    SplitStep(a, '|', b + "|" + (c + "|" + tail));
    var s := a + "|" + (b + "|" + (c + "|" + tail));
    var fields := Split(s, '|');
    assert fields == [a] + ([b] + ([c] + (Split(d, '|') + [e])));
    JavaSplitFull(s, '|');
  }

  /** A gate as the master holds it. */
  function HeldGate(n: Node, script: string, payload64: string): ParsedJob
  {
    Intended(GateJob(n, script, payload64))
  }

  lemma HeldPayload(n: Node, script: string, payload64: string)
    requires BaseName(script) == GATE_SCRIPT
    ensures HeldGate(n, script, payload64).id == Prefix(GateId(n.job.id))
    ensures HeldGate(n, script, payload64).payload ==
      "RUN_PAYLOAD" + "|" + (GATE_SCRIPT + "|" +
        (SentArgs(n) + "|" + ((payload64 + "|" + "GENERAL") + "|" + Prefix(GateId(n.job.id)))))
  {
    hide BaseName, ReplaceChar, Prefix, GateArgs, PrintInt, Trim, Content, Header, GateJob, SentArgs;
    var g := GateJob(n, script, payload64);
    GateFields(n, script, payload64);
    var args := ReplaceChar(GateArgs(n, n.maxWait), '|', ' ');
    assert SentArgs(n) == args by { SentIs(n); }
    TightContent(args, payload64);
    Regrouped(args, payload64, Prefix(g.id));
  }

  lemma SentIs(n: Node)
    ensures SentArgs(n) == ReplaceChar(GateArgs(n, n.maxWait), '|', ' ')
  {
  }

  lemma TightContent(args: string, payload64: string)
    ensures var c := "hitl_gate.py" + "|" + args + "|" + payload64 + "|" + "GENERAL"; Trim(c) == c
  {
    hide Trim;
    var c := "hitl_gate.py" + "|" + args + "|" + payload64 + "|" + "GENERAL";
    assert c[0] == 'h' && c[|c| - 1] == 'L';
    TrimTight(c);
  }

  lemma Regrouped(args: string, payload64: string, id: string)
    ensures var c := "hitl_gate.py" + "|" + args + "|" + payload64 + "|" + "GENERAL";
      "RUN_PAYLOAD" + "|" + (c + "|" + id) ==
        "RUN_PAYLOAD" + "|" + (GATE_SCRIPT + "|" + (args + "|" + ((payload64 + "|" + "GENERAL") + "|" + id)))
  {
    var c := "hitl_gate.py" + "|" + args + "|" + payload64 + "|" + "GENERAL";
    assert c + "|" + id == GATE_SCRIPT + "|" + (args + "|" + ((payload64 + "|" + "GENERAL") + "|" + id));
  }

  lemma StaysWhole(rest: string)
    ensures var p := "RUN_PAYLOAD" + "|" + (GATE_SCRIPT + "|" + rest);
      ActualPayload(p) == p && StartsWith(p, "RUN_PAYLOAD")
  {
    var head, tail := "RUN_PAYLOAD", GATE_SCRIPT + "|" + rest;
    var p := head + "|" + tail;
    assert '|' !in head;
    IndexOfAt(head, '|', tail);
    assert p[|head| + 1..] == tail && tail[0] == 'h';
    assert p[..|head|] == head;
  }

  lemma CutAtPipe(a: string, b: string)
    requires '|' !in a
    ensures CutAt(a + "|" + b) == Some((a, b))
  {
    IndexOfAt(a, '|', b);
    var s := a + "|" + b;
    assert s[..|a|] == a && s[|a| + 1..] == b;
  }

  lemma MessageIsRead(id: string, args: string)
    requires '|' !in id && DAG_PREFIX <= id
    ensures ScriptOf(Forwarded(RunMessage(id, ScriptCall(GATE_SCRIPT, args)))) == ScriptCall(GATE_SCRIPT, args)
  {
    var rest := GATE_SCRIPT + "|" + args;
    var m := id + "|" + rest;
    IndexOfAt(id, '|', rest);
    assert m[..|id|] == id && id[0] == 'D' && "TEST"[0] == 'T';
    assert Forwarded(m) == m;
    CutAtPipe(id, rest);
    ScriptHasNoPipe();
    CutAtPipe(GATE_SCRIPT, args);
  }

  lemma ScriptHasNoPipe()
    ensures '|' !in GATE_SCRIPT && EndsWith(GATE_SCRIPT, ".py")
  {
    assert GATE_SCRIPT[9..] == ".py";
  }

  /**
   The process of a gate asks for a decision under the first word of the gate's name, which is
   the gate's own name exactly if the name of its job holds no space.
   */
  lemma GatePolls(n: Node, script: string, payload64: string)
    requires CleanName(n.job.id) && BaseName(script) == GATE_SCRIPT
    ensures var g := HeldGate(n, script, payload64);
      RunsGate(g.id, g.payload) && PolledGate(g.id, g.payload) == Some(FirstWord(GateId(n.job.id)))
    ensures FirstWord(GateId(n.job.id)) == GateId(n.job.id) <==> ' ' !in n.job.id
  {
    GateNameIsClean(n.job.id);
    SpaceInName(n.job.id);
    FirstWordIsWhole(GateId(n.job.id));
    hide *;
    GateRuns(n, script, payload64);
    SentArgsStart(n);
    FirstArgOfGate(n, script, payload64);
  }

  lemma SpaceInName(id: string)
    ensures ' ' in GateId(id) <==> ' ' in id
  {
    assert ' ' !in GATE_PREFIX;
  }

  lemma RunIsRead(id: string, args: string, code: string)
    requires '|' !in id && DAG_PREFIX <= id && '|' !in args
    ensures ScriptRun(id, "RUN_PAYLOAD" + "|" + (GATE_SCRIPT + "|" + (args + "|" + (code + "|" + id)))) ==
      Some(ScriptCall(GATE_SCRIPT, args))
  {
    StaysWhole(args + "|" + (code + "|" + id));
    ScriptHasNoPipe();
    var header := "RUN_PAYLOAD";
    assert '|' !in header;
    FourFields(header, GATE_SCRIPT, args, code, id);
    MessageIsRead(id, args);
    hide ActualPayload, StartsWith, ScriptOf, Forwarded, RunMessage, JavaSplit;
  }

  lemma PrefixHasNoPipe(name: string)
    requires '|' !in name
    ensures '|' !in Prefix(name)
  {
    assert '|' !in DAG_PREFIX;
  }

  lemma GateRuns(n: Node, script: string, payload64: string)
    requires CleanName(n.job.id) && BaseName(script) == GATE_SCRIPT
    ensures var g := HeldGate(n, script, payload64);
      ScriptRun(g.id, g.payload) == Some(ScriptCall(GATE_SCRIPT, SentArgs(n)))
  {
    GateNameIsClean(n.job.id);
    PrefixHasNoPipe(GateId(n.job.id));
    hide *;
    SentArgsStart(n);
    HeldPayload(n, script, payload64);
    RunIsRead(Prefix(GateId(n.job.id)), SentArgs(n), payload64 + "|" + "GENERAL");
  }

  lemma FirstArgOfGate(n: Node, script: string, payload64: string)
    requires CleanName(n.job.id)
    requires var g := HeldGate(n, script, payload64);
      ScriptRun(g.id, g.payload) == Some(ScriptCall(GATE_SCRIPT, SentArgs(n)))
    ensures var g := HeldGate(n, script, payload64);
      RunsGate(g.id, g.payload) && PolledGate(g.id, g.payload) == Some(FirstWord(GateId(n.job.id)))
  {
    hide HeldGate, ScriptRun, CleanName, SentArgs, ArgWords, UpToSpace, Trim;
    SentArgsStart(n);
    FirstArg(SentArgs(n));
  }

  // ----- payloads and messages of any kind -----

  predicate StartsACommand(s: string)
  {
    "RUN_ARCHIVE" <= s || "START_ARCHIVE_SERVICE" <= s || "DEPLOY_PAYLOAD" <= s || "RUN_PAYLOAD" <= s
  }

  /** The first field is dropped exactly if one of the four commands stands behind it. */
  lemma CommandIsFound(head: string, rest: string)
    requires '|' !in head
    ensures ActualPayload(head) == head
    ensures ActualPayload(head + "|" + rest) == if StartsACommand(rest) then rest else head + "|" + rest
  {
    IndexOfAt(head, '|', rest);
    var s := head + "|" + rest;
    assert s[|head| + 1..] == rest;
  }

  lemma FieldsOfJoin(fields: seq<string>)
    requires fields != [] && fields[|fields| - 1] != "" && forall k :: 0 <= k < |fields| ==> '|' !in fields[k]
    ensures JavaSplit(Join(fields, "|"), '|') == fields
  {
    hide *;
    var sep := "|";
    assert sep == ['|'];
    SplitJoin(fields, '|');
    JavaSplitFull(Join(fields, sep), '|');
  }

  /** "RUN_PAYLOAD", the script, its arguments, the code, and more: without arguments the code comes third. */
  lemma RunFields(fields: seq<string>, head: string)
    requires fields != [] && fields[|fields| - 1] != "" && forall k :: 0 <= k < |fields| ==> '|' !in fields[k]
    requires fields[0] == "RUN_PAYLOAD" && '|' !in head
    requires |fields| > 1 ==> !StartsACommand(Join(fields[1..], "|"))
    ensures RunOf(Join(fields, "|")) == RunOf(head + "|" + Join(fields, "|")) ==
      if |fields| < 3 then None
      else if |fields| == 3 then Some(ScriptCall(fields[1], ""))
      else Some(ScriptCall(fields[1], fields[2]))
  {
    var p := Join(fields, "|");
    JoinedIsWhole(fields);
    CommandIsFound(head, p);
    FieldsOfJoin(fields);
    hide *;
    RunOfParts(p, p, fields);
    RunOfParts(head + "|" + p, p, fields);
  }

  lemma RunOfParts(payload: string, actual: string, parts: seq<string>)
    requires ActualPayload(payload) == actual && "RUN_PAYLOAD" <= actual && JavaSplit(actual, '|') == parts
    ensures RunOf(payload) ==
      if |parts| < 3 then None
      else if |parts| == 3 then Some(ScriptCall(parts[1], ""))
      else Some(ScriptCall(parts[1], parts[2]))
  {
    hide ActualPayload, JavaSplit;
  }

  lemma JoinedIsWhole(fields: seq<string>)
    requires fields != [] && fields[0] == "RUN_PAYLOAD"
    requires |fields| > 1 ==> !StartsACommand(Join(fields[1..], "|"))
    ensures var p := Join(fields, "|"); ActualPayload(p) == p && "RUN_PAYLOAD" <= p && StartsACommand(p)
  {
    assert '|' !in fields[0];
    CommandIsFound(fields[0], if |fields| > 1 then Join(fields[1..], "|") else "");
    hide ActualPayload;
  }

  /** What a worker makes of a message without an id, of a test message, and of any other. */
  lemma MessageIsForwarded(id: string, rest: string)
    requires '|' !in id
    ensures Forwarded(id) == "UNKNOWN|" + id
    ensures Forwarded(id + "|" + rest) == (if id == "TEST" then "TEST-JOB" else id) + "|" + rest
  {
    var m := id + "|" + rest;
    IndexOfAt(id, '|', rest);
    assert m[..|id|] == id && m[|id|..] == "|" + rest;
  }

  predicate IsScript(name: string)
  {
    |name| >= 3 && (name[|name| - 3..] == ".py" || name[|name| - 3..] == ".sh")
  }

  /**
   The executor takes the second field for the script if it is one, with everything behind it, pipes
   included, for the arguments; otherwise there are none, and the first field counts, unless it is the
   command.
   */
  lemma ScriptIsRead(first: string, second: string, args: string)
    requires '|' !in first && '|' !in second
    ensures ScriptOf(first) == ScriptCall(first, "")
    ensures var other := ScriptCall(if first == "RUN_PAYLOAD" then second else first, "");
      && ScriptOf(first + "|" + second) == (if IsScript(second) then ScriptCall(second, "") else other)
      && ScriptOf(first + "|" + (second + "|" + args)) == if IsScript(second) then ScriptCall(second, args) else other
  {
    CutAtPipe(first, second);
    CutAtPipe(first, second + "|" + args);
    CutAtPipe(second, args);
    assert CutAt(first) == None && CutAt(second) == None;
    hide *;
    ScriptOfCut(first);
    ScriptOfCut(first + "|" + second);
    ScriptOfCut(first + "|" + (second + "|" + args));
  }

  lemma ScriptOfCut(message: string)
    ensures CutAt(message) == None ==> ScriptOf(message) == ScriptCall(message, "")
    ensures CutAt(message).Some? ==>
      var (first, rest) := CutAt(message).value;
      var (second, args) := if CutAt(rest).Some? then CutAt(rest).value else (rest, "");
      ScriptOf(message) ==
        if IsScript(second) then ScriptCall(second, args)
        else ScriptCall(if first == "RUN_PAYLOAD" then second else first, "")
  {
    hide CutAt;
  }
}
