/** Which capability a job asks for, dug out of its payload at dispatch time. */
module Requirements {
  import opened Prelude
  import opened Text
  import opened Wire

  const GENERAL := "GENERAL"

  predicate IsHeader(p: string)
  {
    p == "RUN_PAYLOAD" || p == "DEPLOY_PAYLOAD" || p == "RUN_ARCHIVE" || p == "START_ARCHIVE_SERVICE"
  }

  predicate Metadata(p: string, id: string)
  {
    p == id || (StartsWith(p, "[") && EndsWith(p, "]")) || p == "AFFINITY" || ParseInt(p, MIN_LONG, MAX_LONG).Some?
  }

  /** What the backward scan accepts as a capability. */
  predicate Routable(p: string, id: string)
  {
    Trim(p) == p && 1 <= |p| < 20 && !EndsWith(p, "=") && !Metadata(p, id)
  }

  function TrimAll(parts: seq<string>): (r: seq<string>)
    ensures |r| == |parts| && forall k :: 0 <= k < |r| ==> r[k] == Trim(parts[k])
  {
    seq(|parts|, k requires 0 <= k < |parts| => Trim(parts[k]))
  }

  /** The first header among the first three parts, from position i on; -1 if there is none. */
  function HeaderIndex(parts: seq<string>, i: nat): int
    decreases 3 - i
  {
    if i >= |parts| || i >= 3 then -1
    else if IsHeader(parts[i]) then i
    else HeaderIndex(parts, i + 1)
  }

  function Scan(parts: seq<string>, header: nat, id: string, end: nat): string
    requires end < |parts|
  {
    if end <= header then GENERAL
    else
      var p := parts[end];
      if Metadata(p, id) then Scan(parts, header, id, end - 1)
      else if |p| < 20 && p != "" && !EndsWith(p, "=") then p
      else GENERAL
  }

  function FromFields(parts: seq<string>, id: string): string
  {
    var header := HeaderIndex(parts, 0);
    if header == -1 then
      if parts == [] || parts[0] == id then GENERAL else parts[0]
    else if parts == [] then GENERAL
    else Scan(parts, header, id, |parts| - 1)
  }

  function Requirement(payload: string, id: string): string
  {
    if payload == "" || Contains(payload, "INTERNAL_SCALE") then GENERAL
    else FromFields(TrimAll(JavaSplit(payload, '|')), id)
  }

  method Includes(s: string, part: string) returns (found: bool)
    ensures found == Contains(s, part)
  {
    for i := 0 to |s| + 1
      invariant forall k :: 0 <= k < i ==> !(part <= s[k..])
    {
      if part <= s[i..] {
        return true;
      }
    }
    found := false;
  }

  /** extractSkillRequirement as written: two loops over the parts of the payload. */
  method ExtractSkillRequirement(payload: string, id: string) returns (skill: string)
    ensures skill == Requirement(payload, id)
  {
    if payload == "" {
      return GENERAL;
    }
    var scaling := Includes(payload, "INTERNAL_SCALE");
    if scaling {
      return GENERAL;
    }
    var parts := TrimAll(JavaSplit(payload, '|'));
    var headerIndex := FindHeader(parts);
    if headerIndex == -1 {
      if |parts| > 0 && parts[0] == id {
        return GENERAL;
      }
      return if |parts| > 0 then parts[0] else GENERAL;
    }
    skill := ScanBackwards(parts, headerIndex, id);
  }

  method FindHeader(parts: seq<string>) returns (headerIndex: int)
    ensures headerIndex == HeaderIndex(parts, 0) && -1 <= headerIndex < |parts|
  {
    headerIndex := -1;
    var i := 0;
    while i < |parts| && i < 3
      invariant 0 <= i <= 3 && HeaderIndex(parts, 0) == HeaderIndex(parts, i)
    {
      if IsHeader(parts[i]) {
        return i;
      }
      i := i + 1;
    }
  }

  method ScanBackwards(parts: seq<string>, headerIndex: nat, id: string) returns (skill: string)
    requires headerIndex < |parts|
    ensures skill == Scan(parts, headerIndex, id, |parts| - 1)
  {
    var endIndex := |parts| - 1;
    while endIndex > headerIndex
      invariant headerIndex <= endIndex < |parts|
      invariant Scan(parts, headerIndex, id, |parts| - 1) == Scan(parts, headerIndex, id, endIndex)
    {
      var p := parts[endIndex];
      if Metadata(p, id) {
        endIndex := endIndex - 1;
      } else {
        if |p| < 20 && p != "" && !EndsWith(p, "=") {
          return p;
        }
        return GENERAL;
      }
    }
    skill := GENERAL;
  }

  // ----- what the two loops find -----

  /** What the scan skips: the job's own id, a list in brackets, the affinity tag, a number. */
  ghost predicate Skipped(p: string, id: string)
  {
    || p == id
    || (p != "" && p[0] == '[' && p[|p| - 1] == ']')
    || p == "AFFINITY"
    || ParseInt(p, -0x8000_0000_0000_0000, 0x7fff_ffff_ffff_ffff).Some?
  }

  ghost predicate IsCommand(p: string)
  {
    p in {"RUN_PAYLOAD", "DEPLOY_PAYLOAD", "RUN_ARCHIVE", "START_ARCHIVE_SERVICE"}
  }

  lemma SkippedIsMetadata(p: string, id: string)
    ensures Metadata(p, id) <==> Skipped(p, id)
  {
    if p != "" {
      assert "[" <= p <==> p[0] == '[';
      assert "]" == p[|p| - 1..] <==> p[|p| - 1] == ']';
    }
  }

  /** No payload, or the auto-scaler's, asks for nothing in particular; without a command the first part counts. */
  lemma WithoutCommand(payload: string, id: string)
    ensures payload == "" || Contains(payload, "INTERNAL_SCALE") ==> Requirement(payload, id) == "GENERAL"
    ensures var parts := TrimAll(JavaSplit(payload, '|'));
      payload != "" && !Contains(payload, "INTERNAL_SCALE") &&
      (forall k :: 0 <= k < |parts| && k < 3 ==> !IsCommand(parts[k])) ==>
        Requirement(payload, id) == if parts == [] || parts[0] == id then "GENERAL" else parts[0]
  {
    hide Contains, ParseInt, JavaSplit, Trim;
  }

  lemma {:induction false} FirstCommand(parts: seq<string>, i: nat, h: nat)
    requires i <= h < |parts| && h < 3 && IsCommand(parts[h])
    requires forall k :: i <= k < h ==> !IsCommand(parts[k])
    ensures HeaderIndex(parts, i) == h
    decreases h - i
  {
    if i < h {
      FirstCommand(parts, i + 1, h);
    }
  }

  lemma {:induction false} ScanSkips(parts: seq<string>, h: nat, id: string, e: nat, end: nat)
    requires h <= e <= end < |parts| && forall k :: e < k <= end ==> Skipped(parts[k], id)
    ensures Scan(parts, h, id, end) == Scan(parts, h, id, e)
  {
    if e < end {
      SkippedIsMetadata(parts[end], id);
      ScanSkips(parts, h, id, e, end - 1);
    }
  }

  /**
   Behind the first command, at h, and with everything behind part e skipped: part e is the capability
   if it is not the command itself, not empty, shorter than 20 characters, and does not end in '='.
   */
  lemma LastPartCounts(payload: string, id: string, h: nat, e: nat)
    requires payload != "" && !Contains(payload, "INTERNAL_SCALE")
    requires var parts := TrimAll(JavaSplit(payload, '|'));
      h <= e < |parts| && h < 3 && IsCommand(parts[h]) && (forall k :: 0 <= k < h ==> !IsCommand(parts[k])) &&
      (forall k :: e < k < |parts| ==> Skipped(parts[k], id)) && (e == h || !Skipped(parts[e], id))
    ensures var p := TrimAll(JavaSplit(payload, '|'))[e];
      Requirement(payload, id) ==
        if e == h || p == "" || |p| >= 20 || p[|p| - 1] == '=' then "GENERAL" else p
  {
    var parts := TrimAll(JavaSplit(payload, '|'));
    FirstCommand(parts, 0, h);
    ScanSkips(parts, h, id, e, |parts| - 1);
    SkippedIsMetadata(parts[e], id);
    hide Contains, Metadata, Skipped, HeaderIndex, TrimAll, JavaSplit, IsCommand;
    if parts[e] != "" {
      assert "=" == parts[e][|parts[e]| - 1..] <==> parts[e][|parts[e]| - 1] == '=';
    }
  }

  // ----- from the SDK to the choice of a worker -----

  /** The scan never makes a capability up. */
  lemma {:induction false} ScanGives(parts: seq<string>, header: nat, id: string, end: nat)
    requires end < |parts| && forall k :: 0 <= k < |parts| ==> Trim(parts[k]) == parts[k]
    ensures var r := Scan(parts, header, id, end); r == GENERAL || Routable(r, id)
  {
    if end > header && Metadata(parts[end], id) {
      ScanGives(parts, header, id, end - 1);
    }
  }

  lemma GeneralIsRoutable(id: string)
    requires DAG_PREFIX <= id
    ensures Routable(GENERAL, id)
  {
  }

  lemma {:induction false} TrimLeftStop(a: string, b: string)
    requires b != [] && !Blank(b[0])
    ensures TrimLeft(a + b) == TrimLeft(a) + b
  {
    if a == [] {
      assert a + b == b;
    } else {
      assert (a + b)[1..] == a[1..] + b;
      TrimLeftStop(a[1..], b);
    }
  }

  lemma {:induction false} TrimIdempotent(s: string)
    ensures Trim(Trim(s)) == Trim(s)
  {
    TrimIsTight(s);
    TrimTight(Trim(s));
  }

  lemma HeaderIsTight(h: string)
    requires IsHeader(h)
    ensures Tight(h) && '|' !in h
  {
  }

  /** The first part of a parsed payload is its header. */
  lemma HeaderFirst(h: string, rest: string, id: string)
    requires IsHeader(h) && DAG_PREFIX <= id && '|' !in id
    ensures var parts := TrimAll(Split(h + "|" + (rest + "|" + id), '|'));
      HeaderIndex(parts, 0) == 0 && |parts| >= 2
  {
    HeaderIsTight(h);
    TrimTight(h);
    hide IsHeader, Split, Trim, Tight;
    SplitStep(h, '|', rest + "|" + id);
  }

  lemma LastParts(h: string, rest: string, id: string)
    requires IsHeader(h) && DAG_PREFIX <= id && '|' !in id
    ensures JavaSplit(h + "|" + (rest + "|" + id), '|') == Split(h + "|" + rest, '|') + [id]
    ensures Split(h + "|" + (rest + "|" + id), '|') == Split(h + "|" + rest, '|') + [id]
  {
    hide Split, JavaSplit, IsHeader;
    assert h + "|" + (rest + "|" + id) == (h + "|" + rest) + "|" + id;
    LastField(h + "|" + rest, id);
  }

  lemma LastField(a: string, f: string)
    requires '|' !in f && f != []
    ensures Split(a + "|" + f, '|') == Split(a, '|') + [f] == JavaSplit(a + "|" + f, '|')
  {
    hide Split, JavaSplit;
    SplitLast(a, f);
    var fields := Split(a, '|') + [f];
    assert fields[|fields| - 1] == f;
    JavaSplitFull(a + "|" + f, '|');
  }

  lemma TightRequirement(h: string, middle: string, r: string)
    requires Tight(r) && '|' !in r
    ensures exists m :: Split(h + "|" + Trim(middle + "|" + r), '|') == Split(h + "|" + m, '|') + [r]
  {
    var m := TrimLeft(middle);
    var c := middle + "|" + r;
    assert c == middle + ("|" + r);
    TrimLeftStop(middle, "|" + r);
    assert Trim(c) == m + ("|" + r);
    hide *;
    assert h + "|" + (m + ("|" + r)) == (h + "|" + m) + "|" + r;
    SplitLast(h + "|" + m, r);
  }

  lemma RoutableIsFound(h: string, middle: string, r: string, id: string)
    requires IsHeader(h) && DAG_PREFIX <= id && '|' !in id && Tight(id) && '|' !in r && Routable(r, id)
    ensures FromFields(TrimAll(JavaSplit(h + "|" + (Trim(middle + "|" + r) + "|" + id), '|')), id) == r
  {
    var rest := Trim(middle + "|" + r);
    HeaderFirst(h, rest, id);
    LastParts(h, rest, id);
    TrimIsTight(r);
    TightRequirement(h, middle, r);
    var m :| Split(h + "|" + rest, '|') == Split(h + "|" + m, '|') + [r];
    var parts := TrimAll(Split(h + "|" + (rest + "|" + id), '|'));
    var n := |parts|;
    TrimTight(id);
    assert parts[n - 1] == id && parts[n - 2] == r;
    assert n >= 3;
    MetadataSelf(id);
    hide Split, Trim, Metadata, IsHeader, Tight, JavaSplit;
    assert Scan(parts, 0, id, n - 1) == Scan(parts, 0, id, n - 2);
  }

  lemma MetadataSelf(id: string)
    ensures Metadata(id, id)
  {
  }

  lemma FoundIsRoutable(h: string, rest: string, id: string)
    requires IsHeader(h) && DAG_PREFIX <= id && '|' !in id
    ensures var r := FromFields(TrimAll(JavaSplit(h + "|" + (rest + "|" + id), '|')), id);
      r == GENERAL || Routable(r, id)
  {
    HeaderFirst(h, rest, id);
    LastParts(h, rest, id);
    var fields := Split(h + "|" + (rest + "|" + id), '|');
    var parts := TrimAll(fields);
    forall k | 0 <= k < |parts|
      ensures Trim(parts[k]) == parts[k]
    {
      TrimIdempotent(fields[k]);
    }
    ScanGives(parts, 0, id, |parts| - 1);
  }

  /**
   The capability the SDK printed is the one the dispatcher routes by, exactly when the scan
   takes it for a capability and the payload does not mention the auto-scaler's marker.
   */
  lemma RequirementSurvives(j: SdkJob)
    requires WireSafe(j)
    ensures var q := Intended(j); var r := SafeReq(j);
      Requirement(q.payload, q.id) == r <==>
        Routable(r, q.id) && (Contains(q.payload, "INTERNAL_SCALE") ==> r == GENERAL)
  {
    var q := Intended(j);
    var r := SafeReq(j);
    assert IsHeader(Header(j));
    PrefixIsTight(j.id);
    GeneralIsRoutable(q.id);
    hide Header, Middle, Routable, Prefix, FromFields, Contains, Trim;
    FoundIsRoutable(Header(j), Trim(Content(j)), q.id);
    if Routable(r, q.id) {
      RoutableIsFound(Header(j), Middle(j), r, q.id);
    }
  }

  lemma PrefixIsTight(id: string)
    requires CleanName(id)
    ensures Tight(Prefix(id)) && '|' !in Prefix(id)
  {
  }
}
