/** The line a DAG job travels in: printed by the Python SDK, parsed by the Java master. */
module Wire {
  import opened Prelude
  import opened Text

  // ----- printing -----

  datatype SdkJob = SdkJob(
    id: string,
    jobType: string,
    filename: string,
    args: string,
    payload64: string,      // the file, base64-encoded
    port: int,
    isArchive: bool,
    priority: int,
    delay: int,
    parents: seq<string>,
    affinity: bool,
    requirement: string)

  predicate IsService(j: SdkJob)
  {
    j.jobType == "SERVICE" || j.jobType == "DEPLOY_PAYLOAD"
  }

  function BaseName(path: string): string
  {
    path[LastIndexOf(path, '/') + 1..]
  }

  function SafeReq(j: SdkJob): (r: string)
    ensures '|' !in r
  {
    if j.requirement == "" then "GENERAL" else RemoveChar(j.requirement, '|')
  }

  function Header(j: SdkJob): string
  {
    if j.isArchive then
      if IsService(j) then "START_ARCHIVE_SERVICE" else "RUN_ARCHIVE"
    else
      if IsService(j) then "DEPLOY_PAYLOAD" else "RUN_PAYLOAD"
  }

  /** What the line carries between the header and the requirement. */
  function Middle(j: SdkJob): string
  {
    var safeArgs := ReplaceChar(j.args, '|', ' ');
    if j.isArchive then
      if IsService(j) then j.filename + "|" + safeArgs + "|" + PrintInt(j.port)
      else j.filename + "|" + safeArgs
    else
      if IsService(j) then BaseName(j.filename) + "|" + j.payload64 + "|" + PrintInt(j.port)
      else BaseName(j.filename) + "|" + safeArgs + "|" + j.payload64
  }

  function Content(j: SdkJob): string
  {
    Middle(j) + "|" + SafeReq(j)
  }

  function PrintParents(parents: seq<string>): string
  {
    "[" + Join(parents, ",") + "]"
  }

  /** TitanJob.to_string. */
  function ToString(j: SdkJob): string
  {
    j.id + "|" + Header(j) + "|" + Content(j) + "|" + PrintInt(j.priority) + "|" + PrintInt(j.delay) + "|" +
      PrintParents(j.parents) + if j.affinity then "|AFFINITY" else ""
  }

  // ----- parsing, from the outside in -----

  datatype ParsedJob = ParsedJob(
    id: string,
    payload: string,
    priority: int,
    delay: int,
    deps: seq<string>,
    affinity: bool)

  const DAG_PREFIX := "DAG-"

  function Prefix(id: string): (r: string)
    ensures DAG_PREFIX <= r
  {
    if StartsWith(id, DAG_PREFIX) then id else DAG_PREFIX + id
  }

  predicate Flagged(raw: string)
  {
    EndsWith(raw, "|AFFINITY") || EndsWith(raw, "|STICKY")
  }

  function StripFlag(raw: string): string
  {
    if Flagged(raw) && '|' in raw then Trim(raw[..LastIndexOf(raw, '|')]) else raw
  }

  /** A line cut at its last pipe; the field behind it trimmed. */
  function CutLast(s: string): Option<(string, string)>
  {
    var i := LastIndexOf(s, '|');
    if i == -1 then None else Some((s[..i], Trim(s[i + 1..])))
  }

  /** A line cut at its first pipe; the field before it trimmed. */
  function CutFirst(s: string): Option<(string, string)>
  {
    var i := IndexOf(s, '|');
    if i == -1 then None else Some((Trim(s[..i]), s[i + 1..]))
  }

  /** Of the pieces of a parent list, those that name someone. */
  function DepsOf(pieces: seq<string>): seq<string>
  {
    if pieces == [] then []
    else
      var p := Trim(pieces[|pieces| - 1]);
      DepsOf(pieces[..|pieces| - 1]) + if p == "" then [] else [Prefix(p)]
  }

  function ParseDeps(parents: string): seq<string>
  {
    var clean := Trim(RemoveChar(RemoveChar(parents, '['), ']'));
    if clean == "" then [] else DepsOf(JavaSplit(clean, ','))
  }

  function ParseLeft(left: string, priority: int, delay: int, deps: seq<string>, affinity: bool): Option<ParsedJob>
  {
    match CutFirst(left)
    case None => None
    case Some((id, rest)) =>
      match CutFirst(rest)
      case None => None
      case Some((skill, payload)) =>
        Some(ParsedJob(Prefix(id), skill + "|" + (Trim(payload) + "|" + Prefix(id)), priority, delay, deps, affinity))
  }

  function ParseNumbers(temp: string, deps: seq<string>, affinity: bool): Option<ParsedJob>
  {
    match CutLast(temp)
    case None => None
    case Some((temp1, delayStr)) =>
      match CutLast(temp1)
      case None => None
      case Some((temp2, priorityStr)) =>
        match (ParseInt(delayStr, MIN_LONG, MAX_LONG), ParseInt(priorityStr, MIN_INT, MAX_INT))
        case (Some(delay), Some(priority)) => ParseLeft(temp2, priority, delay, deps, affinity)
        case _ => None
  }

  function DropLastPipe(s: string): string
  {
    if EndsWith(s, "|") then s[..|s| - 1] else s
  }

  /** Job.fromDagString; None where it throws. */
  function ParseDagJob(line: string): Option<ParsedJob>
  {
    var raw := StripFlag(Trim(line));
    var i := LastIndexOf(raw, '[');
    if i == -1 then None
    else ParseNumbers(DropLastPipe(Trim(raw[..i])), ParseDeps(raw[i..]), Flagged(Trim(line)))
  }

  /** Job.fromDagString as written: `temp` is rewritten field by field. */
  method FromDagString(jobStr: string) returns (job: Option<ParsedJob>)
    ensures job == ParseDagJob(jobStr)
  {
    hide ParseNumbers, ParseDeps, Trim;
    var raw := Trim(jobStr);
    var isAffinityRequired := false;
    if EndsWith(raw, "|AFFINITY") || EndsWith(raw, "|STICKY") {
      isAffinityRequired := true;
      FlaggedHasPipe(raw);
      raw := Trim(raw[..LastIndexOf(raw, '|')]);
    }
    var bracketStart := LastIndexOf(raw, '[');
    if bracketStart == -1 {
      return None;
    }
    var parentsStr := raw[bracketStart..];
    var temp := Trim(raw[..bracketStart]);
    if EndsWith(temp, "|") {
      temp := temp[..|temp| - 1];
    }
    var deps := CollectDeps(parentsStr);
    job := FromRight(temp, deps, isAffinityRequired);
  }

  /** Its first step: the numbers, from the right. */
  method FromRight(line: string, deps: seq<string>, isAffinityRequired: bool) returns (job: Option<ParsedJob>)
    ensures job == ParseNumbers(line, deps, isAffinityRequired)
  {
    hide ParseLeft, ParseInt, Trim;
    var temp := line;
    var lastPipe := LastIndexOf(temp, '|');
    var delay := ParseInt(Trim(temp[lastPipe + 1..]), MIN_LONG, MAX_LONG);
    if delay.None? || lastPipe == -1 {
      return None;
    }
    temp := temp[..lastPipe];
    lastPipe := LastIndexOf(temp, '|');
    var priority := ParseInt(Trim(temp[lastPipe + 1..]), MIN_INT, MAX_INT);
    if priority.None? || lastPipe == -1 {
      return None;
    }
    temp := temp[..lastPipe];
    job := FromLeft(temp, priority.value, delay.value, deps, isAffinityRequired);
  }

  /** Its second and third steps: id and skill from the left; the payload is what remains. */
  method FromLeft(line: string, priority: int, delay: int, deps: seq<string>, isAffinityRequired: bool)
    returns (job: Option<ParsedJob>)
    ensures job == ParseLeft(line, priority, delay, deps, isAffinityRequired)
  {
    hide Trim;
    var temp := line;
    var firstPipe := IndexOf(temp, '|');
    if firstPipe == -1 {
      return None;
    }
    var id := Trim(temp[..firstPipe]);
    temp := temp[firstPipe + 1..];
    var secondPipe := IndexOf(temp, '|');
    if secondPipe == -1 {
      return None;
    }
    var skill := Trim(temp[..secondPipe]);
    var finalPayload := Trim(temp[secondPipe + 1..]);
    var dagId := if StartsWith(id, DAG_PREFIX) then id else DAG_PREFIX + id;
    var payloadWithId := finalPayload + "|" + dagId;
    job := Some(ParsedJob(dagId, skill + "|" + payloadWithId, priority, delay, deps, isAffinityRequired));
  }

  method CollectDeps(parentsStr: string) returns (deps: seq<string>)
    ensures deps == ParseDeps(parentsStr)
  {
    var cleanParents := Trim(RemoveChar(RemoveChar(parentsStr, '['), ']'));
    deps := [];
    if cleanParents != "" {
      var pieces := JavaSplit(cleanParents, ',');
      for i := 0 to |pieces|
        invariant deps == DepsOf(pieces[..i])
      {
        assert pieces[..i + 1][..i] == pieces[..i];
        var cleanP := Trim(pieces[i]);
        if cleanP != "" {
          deps := deps + [if StartsWith(cleanP, DAG_PREFIX) then cleanP else DAG_PREFIX + cleanP];
        }
      }
      assert pieces[..|pieces|] == pieces;
    }
  }

  lemma FlaggedHasPipe(raw: string)
    requires Flagged(raw)
    ensures '|' in raw
  {
    if EndsWith(raw, "|AFFINITY") {
      assert raw[|raw| - 9..][0] == '|';
    } else {
      assert raw[|raw| - 7..][0] == '|';
    }
  }

  // ----- the round trip -----

  predicate CleanName(name: string)
  {
    Tight(name) && forall c :: c in name ==> c !in "|,[]"
  }

  /** The fields keep clear of the characters the line itself is made of, and of Java's number ranges. */
  predicate WireSafe(j: SdkJob)
  {
    && CleanName(j.id)
    && (forall k :: 0 <= k < |j.parents| ==> CleanName(j.parents[k]))
    && MIN_INT <= j.priority <= MAX_INT && MIN_LONG <= j.delay <= MAX_LONG
  }

  function PrefixAll(names: seq<string>): seq<string>
  {
    seq(|names|, k requires 0 <= k < |names| => Prefix(names[k]))
  }

  /** What the master should make of j. */
  function Intended(j: SdkJob): ParsedJob
  {
    ParsedJob(Prefix(j.id), Header(j) + "|" + (Trim(Content(j)) + "|" + Prefix(j.id)), j.priority, j.delay,
      PrefixAll(j.parents), j.affinity)
  }

  lemma {:induction false} JoinTight(parents: seq<string>)
    requires forall k :: 0 <= k < |parents| ==> CleanName(parents[k])
    ensures var p := Join(parents, ","); (p == [] <==> parents == []) && (p == [] || Tight(p))
    ensures '[' !in Join(parents, ",") && ']' !in Join(parents, ",")
  {
    if |parents| > 1 {
      JoinTight(parents[1..]);
      var rest := Join(parents[1..], ",");
      var p := Join(parents, ",");
      assert p == parents[0] + "," + rest;
      assert p[0] == parents[0][0] && p[|p| - 1] == rest[|rest| - 1];
    }
  }

  lemma {:induction false} DepsOfClean(parents: seq<string>)
    requires forall k :: 0 <= k < |parents| ==> CleanName(parents[k])
    ensures DepsOf(parents) == PrefixAll(parents)
  {
    if parents != [] {
      var n := |parents| - 1;
      DepsOfClean(parents[..n]);
      TrimTight(parents[n]);
      assert PrefixAll(parents) == PrefixAll(parents[..n]) + [Prefix(parents[n])];
    }
  }

  lemma BracketsGo(p: string)
    requires '[' !in p && ']' !in p
    ensures RemoveChar(RemoveChar("[" + p + "]", '['), ']') == p
  {
    RemoveConcat("[" + p, "]", '[');
    RemoveConcat("[", p, '[');
    RemoveAbsent(p, '[');
    assert RemoveChar("[", '[') == "" && RemoveChar("]", '[') == "]";
    assert "" + p == p;
    RemoveConcat(p, "]", ']');
    RemoveAbsent(p, ']');
    assert p + "" == p;
  }

  /** The parent list survives. */
  lemma ParentsRoundTrip(parents: seq<string>)
    requires forall k :: 0 <= k < |parents| ==> CleanName(parents[k])
    ensures ParseDeps(PrintParents(parents)) == PrefixAll(parents)
  {
    var p := Join(parents, ",");
    JoinTight(parents);
    BracketsGo(p);
    TrimTight(p);
    if parents != [] {
      SplitJoin(parents, ',');
      assert parents[|parents| - 1] != [];
      JavaSplitFull(p, ',');
      DepsOfClean(parents);
    }
  }

  lemma CutLastAt(left: string, field: string)
    requires '|' !in field && Tight(field)
    ensures CutLast(left + "|" + field) == Some((left, field))
  {
    LastIndexOfAt(left, '|', field);
    TrimTight(field);
    var s := left + "|" + field;
    assert s[..|left|] == left && s[|left| + 1..] == field;
  }

  lemma CutFirstAt(field: string, right: string)
    requires '|' !in field && Tight(field)
    ensures CutFirst(field + "|" + right) == Some((field, right))
  {
    IndexOfAt(field, '|', right);
    TrimTight(field);
    var s := field + "|" + right;
    assert s[..|field|] == field && s[|field| + 1..] == right;
  }

  /** Everything left of the numbers. */
  function LeftPart(j: SdkJob): string
  {
    j.id + "|" + (Header(j) + "|" + Content(j))
  }

  function NumberedPart(j: SdkJob): string
  {
    (LeftPart(j) + "|" + PrintInt(j.priority)) + "|" + PrintInt(j.delay)
  }

  /** The line without its flag. */
  function Core(j: SdkJob): string
  {
    NumberedPart(j) + "|" + PrintParents(j.parents)
  }

  lemma ToStringParts(j: SdkJob)
    ensures ToString(j) == Core(j) + if j.affinity then "|AFFINITY" else ""
  {
    hide Header, Content, PrintInt, PrintParents;
    calc {
      Core(j);
      (((j.id + "|" + (Header(j) + "|" + Content(j))) + "|" + PrintInt(j.priority)) + "|" + PrintInt(j.delay)) +
        "|" + PrintParents(j.parents);
      { assert j.id + "|" + (Header(j) + "|" + Content(j)) == j.id + "|" + Header(j) + "|" + Content(j); }
      j.id + "|" + Header(j) + "|" + Content(j) + "|" + PrintInt(j.priority) + "|" + PrintInt(j.delay) + "|" +
        PrintParents(j.parents);
    }
  }

  lemma LeftRoundTrip(j: SdkJob, deps: seq<string>)
    requires WireSafe(j)
    ensures ParseLeft(LeftPart(j), j.priority, j.delay, deps, j.affinity) ==
      Some(ParsedJob(Prefix(j.id), Header(j) + "|" + (Trim(Content(j)) + "|" + Prefix(j.id)),
        j.priority, j.delay, deps, j.affinity))
  {
    assert Tight(Header(j)) && '|' !in Header(j);
    hide Header, Content;
    CutFirstAt(j.id, Header(j) + "|" + Content(j));
    CutFirstAt(Header(j), Content(j));
  }

  lemma NumbersCut(left: string, priority: int, delay: int, deps: seq<string>, affinity: bool)
    requires MIN_INT <= priority <= MAX_INT && MIN_LONG <= delay <= MAX_LONG
    ensures ParseNumbers((left + "|" + PrintInt(priority)) + "|" + PrintInt(delay), deps, affinity)
      == ParseLeft(left, priority, delay, deps, affinity)
  {
    hide PrintInt, ParseLeft, ParseInt, CutLast, Tight;
    PrintIntClean(priority);
    PrintIntClean(delay);
    CutLastAt(left + "|" + PrintInt(priority), PrintInt(delay));
    CutLastAt(left, PrintInt(priority));
    ParsePrintInt(priority, MIN_INT, MAX_INT);
    ParsePrintInt(delay, MIN_LONG, MAX_LONG);
  }

  lemma FlagCut(core: string, affinity: bool)
    requires Tight(core) && core[|core| - 1] == ']'
    ensures var s := core + if affinity then "|AFFINITY" else "";
      Tight(s) && Flagged(s) == affinity && StripFlag(s) == core
  {
    if affinity {
      var s := core + "|AFFINITY";
      var flag := "AFFINITY";
      assert s == core + "|" + flag;
      assert s[|core|..] == "|AFFINITY";
      LastIndexOfAt(core, '|', flag);
      assert s[..|core|] == core;
      TrimTight(core);
    } else {
      assert core + "" == core;
      NotFlagged(core);
    }
  }

  lemma NotFlagged(s: string)
    requires s != [] && s[|s| - 1] == ']'
    ensures !Flagged(s)
  {
  }

  lemma BracketCut(left: string, p: string)
    requires '[' !in p && Tight(left + "|")
    ensures var core := left + "|" + ("[" + p); var i := LastIndexOf(core, '[');
      i != -1 && core[i..] == "[" + p && DropLastPipe(Trim(core[..i])) == left
  {
    var head := left + "|";
    var core := head + ("[" + p);
    assert core == head + "[" + p;
    LastIndexOfAt(head, '[', p);
    assert core[..|head|] == head && core[|head|..] == "[" + p;
    TrimTight(head);
    assert head[|head| - 1..] == "|" && head[..|head| - 1] == left;
  }

  lemma CoreIsTight(j: SdkJob)
    requires WireSafe(j)
    ensures Tight(Core(j)) && Core(j)[|Core(j)| - 1] == ']' && Tight(NumberedPart(j) + "|")
  {
  }

  lemma CoreRoundTrip(j: SdkJob)
    requires WireSafe(j)
    ensures var core := Core(j); var i := LastIndexOf(core, '[');
      i != -1 && core[i..] == PrintParents(j.parents) && DropLastPipe(Trim(core[..i])) == NumberedPart(j)
  {
    var p := Join(j.parents, ",") + "]";
    JoinTight(j.parents);
    assert PrintParents(j.parents) == "[" + p;
    CoreIsTight(j);
    hide NumberedPart, Join, Trim;
    BracketCut(NumberedPart(j), p);
  }

  /** A printed job is parsed back: id and parents prefixed, everything else as it was. */
  lemma JobRoundTrip(j: SdkJob)
    requires WireSafe(j)
    ensures Tight(ToString(j)) && ParseDagJob(ToString(j)) == Some(Intended(j))
  {
    ToStringParts(j);
    CoreIsTight(j);
    FlagCut(Core(j), j.affinity);
    TrimTight(ToString(j));
    CoreRoundTrip(j);
    ParentsRoundTrip(j.parents);
    NumbersCut(LeftPart(j), j.priority, j.delay, PrefixAll(j.parents), j.affinity);
    LeftRoundTrip(j, PrefixAll(j.parents));
    hide ToString, Core, LeftPart, PrintParents, ParseNumbers, ParseLeft, ParseDeps, Trim, Tight, Flagged,
      StripFlag, PrintInt;
  }

  // ----- what stands where in the line -----

  /** os.path.basename */
  lemma BaseNameIs(dir: string, name: string)
    requires '/' !in name
    ensures BaseName(name) == name && BaseName(dir + "/" + name) == name
  {
    LastIndexOfAt(dir, '/', name);
    var path := dir + "/" + name;
    assert path[|dir| + 1..] == name;
  }

  /** A job whose fields hold no pipes; the arguments and the capability may, and lose them. */
  predicate NoPipes(j: SdkJob)
  {
    && '|' !in j.id && '|' !in j.filename && '|' !in j.payload64
    && forall k :: 0 <= k < |j.parents| ==> '|' !in j.parents[k]
  }

  lemma TwoFields(a: string, b: string)
    requires '|' !in a && '|' !in b
    ensures Split(a + "|" + b, '|') == [a, b]
  {
    SplitStep(a, '|', b);
    SplitWhole(b, '|');
  }

  lemma ThreeFields(a: string, b: string, c: string)
    requires '|' !in a && '|' !in b && '|' !in c
    ensures Split(a + "|" + b + "|" + c, '|') == [a, b, c]
  {
    TwoFields(a, b);
    SplitLast(a + "|" + b, c);
  }

  lemma NumbersHaveNoPipe(n: int)
    ensures '|' !in PrintInt(n)
  {
    PrintIntClean(n);
  }

  /**
   Between the command and the capability: path, arguments and port; path and arguments; name, code and
   port; or name, arguments and code.
   */
  lemma MiddleFields(j: SdkJob)
    requires NoPipes(j)
    ensures var args := ReplaceChar(j.args, '|', ' ');
      var service := j.jobType == "SERVICE" || j.jobType == "DEPLOY_PAYLOAD";
      Split(Middle(j), '|') ==
        if j.isArchive && service then [j.filename, args, PrintInt(j.port)]
        else if j.isArchive then [j.filename, args]
        else if service then [BaseName(j.filename), j.payload64, PrintInt(j.port)]
        else [BaseName(j.filename), args, j.payload64]
  {
    var args := ReplaceChar(j.args, '|', ' ');
    assert '|' !in args && '|' !in BaseName(j.filename);
    NumbersHaveNoPipe(j.port);
    hide ReplaceChar, BaseName, PrintInt, Split;
    ThreeFields(j.filename, args, PrintInt(j.port));
    TwoFields(j.filename, args);
    ThreeFields(BaseName(j.filename), j.payload64, PrintInt(j.port));
    ThreeFields(BaseName(j.filename), args, j.payload64);
  }

  lemma {:induction false} JoinHasNoPipe(parents: seq<string>)
    requires forall k :: 0 <= k < |parents| ==> '|' !in parents[k]
    ensures '|' !in Join(parents, ",")
  {
    if |parents| > 1 {
      JoinHasNoPipe(parents[1..]);
    }
  }

  lemma OuterFields(id: string, header: string, middle: string, req: string)
    requires '|' !in id && '|' !in header && '|' !in req
    ensures Split(id + "|" + (header + "|" + (middle + "|" + req)), '|') == [id, header] + Split(middle, '|') + [req]
  {
    hide Split;
    SplitLast(middle, req);
    SplitStep(header, '|', middle + "|" + req);
    SplitStep(id, '|', header + "|" + (middle + "|" + req));
    assert [id] + ([header] + (Split(middle, '|') + [req])) == [id, header] + Split(middle, '|') + [req];
  }

  lemma HeaderIs(j: SdkJob)
    ensures var service := j.jobType == "SERVICE" || j.jobType == "DEPLOY_PAYLOAD";
      Header(j) ==
        if j.isArchive then (if service then "START_ARCHIVE_SERVICE" else "RUN_ARCHIVE")
        else if service then "DEPLOY_PAYLOAD" else "RUN_PAYLOAD"
    ensures '|' !in Header(j)
  {
  }

  lemma LeftFields(j: SdkJob)
    requires NoPipes(j)
    ensures Split(LeftPart(j), '|') == [j.id, Header(j)] + Split(Middle(j), '|') + [SafeReq(j)]
  {
    HeaderIs(j);
    hide Split, Middle, Header, SafeReq;
    OuterFields(j.id, Header(j), Middle(j), SafeReq(j));
  }

  lemma RightFields(left: string, a: string, b: string, c: string, affinity: bool)
    requires '|' !in a && '|' !in b && '|' !in c
    ensures Split(left + "|" + a + "|" + b + "|" + c + (if affinity then "|AFFINITY" else ""), '|') ==
      Split(left, '|') + [a, b, c] + if affinity then ["AFFINITY"] else []
  {
    hide Split;
    var core := left + "|" + a + "|" + b + "|" + c;
    SplitLast(left, a);
    SplitLast(left + "|" + a, b);
    SplitLast(left + "|" + a + "|" + b, c);
    if affinity {
      var flag := "AFFINITY";
      SplitLast(core, flag);
      assert core + "|AFFINITY" == core + "|" + flag;
    } else {
      assert core + "" == core;
    }
  }

  /** The fields of the line, in order. */
  lemma LineFields(j: SdkJob)
    requires NoPipes(j)
    ensures var service := j.jobType == "SERVICE" || j.jobType == "DEPLOY_PAYLOAD";
      var command :=
        if j.isArchive then (if service then "START_ARCHIVE_SERVICE" else "RUN_ARCHIVE")
        else if service then "DEPLOY_PAYLOAD" else "RUN_PAYLOAD";
      Split(ToString(j), '|') ==
        [j.id, command] + Split(Middle(j), '|') +
        [if j.requirement == "" then "GENERAL" else RemoveChar(j.requirement, '|')] +
        [PrintInt(j.priority), PrintInt(j.delay), "[" + Join(j.parents, ",") + "]"] +
        if j.affinity then ["AFFINITY"] else []
  {
    ToStringParts(j);
    LeftFields(j);
    HeaderIs(j);
    JoinHasNoPipe(j.parents);
    NumbersHaveNoPipe(j.priority);
    NumbersHaveNoPipe(j.delay);
    hide Split, Middle, PrintInt, Join, RemoveChar, LeftPart, ToString, Header;
    RightFields(LeftPart(j), PrintInt(j.priority), PrintInt(j.delay), PrintParents(j.parents), j.affinity);
  }
}
