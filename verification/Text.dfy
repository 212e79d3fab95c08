/** The string operations of Java and Python that the wire formats are made of. */
module Text {
  import opened Prelude

  predicate StartsWith(s: string, prefix: string)
  {
    prefix <= s
  }

  predicate EndsWith(s: string, suffix: string)
  {
    |suffix| <= |s| && s[|s| - |suffix|..] == suffix
  }

  predicate Contains(s: string, part: string)
  {
    exists i :: 0 <= i <= |s| && part <= s[i..]
  }

  lemma ContainedBetween(a: string, part: string, b: string)
    ensures Contains(a + part + b, part)
  {
    var s := a + part + b;
    assert s[|a|..] == part + b;
    assert part <= s[|a|..];
  }

  /** s holds part: it can be cut in three with part in the middle, which may be at either end. */
  lemma ContainsCuts(s: string, part: string)
    ensures Contains(s, part) <==> exists a, b :: s == a + part + b
  {
    if Contains(s, part) {
      var i :| 0 <= i <= |s| && part <= s[i..];
      var a, b := s[..i], s[i + |part|..];
      assert s == a + part + b;
    }
    if a, b :| s == a + part + b {
      ContainedBetween(a, part, b);
    }
  }

  function IndexOf(s: string, c: char): (i: int)
    ensures -1 <= i < |s|
    ensures i == -1 <==> c !in s
    ensures i >= 0 ==> s[i] == c && c !in s[..i]
  {
    if s == [] then -1
    else if s[0] == c then 0
    else
      var i := IndexOf(s[1..], c);
      assert s == [s[0]] + s[1..];
      if i == -1 then -1 else assert s[..i + 1] == [s[0]] + s[1..][..i]; i + 1
  }

  function LastIndexOf(s: string, c: char): (i: int)
    ensures -1 <= i < |s|
    ensures i == -1 <==> c !in s
    ensures i >= 0 ==> s[i] == c && c !in s[i + 1..]
  {
    if s == [] then -1
    else if s[|s| - 1] == c then |s| - 1
    else
      var i := LastIndexOf(s[..|s| - 1], c);
      assert s == s[..|s| - 1] + [s[|s| - 1]];
      if i == -1 then -1 else assert s[i + 1..] == s[..|s| - 1][i + 1..] + [s[|s| - 1]]; i
  }

  lemma IndexOfAt(a: string, c: char, b: string)
    requires c !in a
    ensures IndexOf(a + [c] + b, c) == |a|
  {
    var s := a + [c] + b;
    var i := IndexOf(s, c);
    assert s[|a|] == c;
    assert forall k :: 0 <= k < |a| ==> s[k] == a[k];
  }

  lemma LastIndexOfAt(a: string, c: char, b: string)
    requires c !in b
    ensures LastIndexOf(a + [c] + b, c) == |a|
  {
    var s := a + [c] + b;
    var i := LastIndexOf(s, c);
    assert s[|a|] == c;
    assert forall k :: 0 <= k < |b| ==> s[|a| + 1 + k] == b[k];
  }

  // ----- trimming -----

  /** What String.trim strips: everything up to the space character. */
  predicate Blank(c: char)
  {
    c <= ' '
  }

  function TrimLeft(s: string): string
  {
    if s != [] && Blank(s[0]) then TrimLeft(s[1..]) else s
  }

  function TrimRight(s: string): string
  {
    if s != [] && Blank(s[|s| - 1]) then TrimRight(s[..|s| - 1]) else s
  }

  function Trim(s: string): string
  {
    TrimRight(TrimLeft(s))
  }

  /** Not empty, and no blanks at either end. */
  predicate Tight(s: string)
  {
    s != [] && !Blank(s[0]) && !Blank(s[|s| - 1])
  }

  predicate AllBlank(s: string)
  {
    forall i :: 0 <= i < |s| ==> Blank(s[i])
  }

  lemma {:induction false} TrimLeftPad(a: string, s: string)
    requires AllBlank(a)
    ensures TrimLeft(a + s) == TrimLeft(s)
  {
    if a == [] {
      assert a + s == s;
    } else {
      assert (a + s)[1..] == a[1..] + s;
      TrimLeftPad(a[1..], s);
    }
  }

  lemma {:induction false} TrimRightPad(s: string, b: string)
    requires AllBlank(b)
    ensures TrimRight(s + b) == TrimRight(s)
  {
    if b == [] {
      assert s + b == s;
    } else {
      var n := |b| - 1;
      assert (s + b)[..|s + b| - 1] == s + b[..n];
      TrimRightPad(s, b[..n]);
    }
  }

  lemma TrimPad(a: string, s: string, b: string)
    requires AllBlank(a) && AllBlank(b) && (s == [] || Tight(s))
    ensures Trim(a + s + b) == s
  {
    assert a + s + b == a + (s + b);
    TrimLeftPad(a, s + b);
    if s == [] {
      assert s + b == b + [];
      TrimLeftPad(b, []);
    } else {
      TrimRightPad(s, b);
    }
  }

  lemma TrimTight(s: string)
    requires s == [] || Tight(s)
    ensures Trim(s) == s
  {
  }

  /** Trimming always gives a tight string, or nothing. */
  lemma {:induction false} TrimIsTight(s: string)
    ensures Trim(s) == [] || Tight(Trim(s))
    decreases |s|
  {
    if s != [] && Blank(s[0]) {
      TrimIsTight(s[1..]);
    } else {
      TrimRightKeepsStart(s);
    }
  }

  lemma {:induction false} TrimRightKeepsStart(s: string)
    requires s == [] || !Blank(s[0])
    ensures TrimRight(s) == [] ==> s == []
    ensures s != [] ==> TrimRight(s) != [] && TrimRight(s)[0] == s[0] && !Blank(TrimRight(s)[|TrimRight(s)| - 1])
    decreases |s|
  {
    if s != [] && Blank(s[|s| - 1]) {
      TrimRightKeepsStart(s[..|s| - 1]);
    }
  }

  // ----- splitting and joining -----

  function Join(parts: seq<string>, sep: string): string
  {
    if parts == [] then []
    else if |parts| == 1 then parts[0]
    else parts[0] + sep + Join(parts[1..], sep)
  }

  /** All fields between separators, empty ones included. */
  function Split(s: string, c: char): (fields: seq<string>)
    ensures |fields| >= 1
    ensures forall k :: 0 <= k < |fields| ==> c !in fields[k]
    decreases |s|
  {
    var i := IndexOf(s, c);
    if i == -1 then [s] else [s[..i]] + Split(s[i + 1..], c)
  }

  function DropTrailingEmpty(fields: seq<string>): seq<string>
  {
    if fields != [] && fields[|fields| - 1] == [] then DropTrailingEmpty(fields[..|fields| - 1]) else fields
  }

  /** String.split for a one-character separator, without a limit. */
  function JavaSplit(s: string, c: char): seq<string>
  {
    if c in s then DropTrailingEmpty(Split(s, c)) else [s]
  }

  lemma SplitStep(a: string, c: char, b: string)
    requires c !in a
    ensures Split(a + [c] + b, c) == [a] + Split(b, c)
  {
    IndexOfAt(a, c, b);
    var s := a + [c] + b;
    assert s[..|a|] == a && s[|a| + 1..] == b;
  }

  lemma SplitWhole(s: string, c: char)
    requires c !in s
    ensures Split(s, c) == [s]
  {
  }

  /** Splitting undoes joining. */
  lemma {:induction false} SplitJoin(parts: seq<string>, c: char)
    requires parts != [] && forall k :: 0 <= k < |parts| ==> c !in parts[k]
    ensures Split(Join(parts, [c]), c) == parts
  {
    hide Split;
    if |parts| == 1 {
      SplitWhole(parts[0], c);
    } else {
      SplitJoin(parts[1..], c);
      SplitStep(parts[0], c, Join(parts[1..], [c]));
      assert parts == [parts[0]] + parts[1..];
    }
  }

  lemma {:induction false} SplitLast(a: string, f: string)
    requires '|' !in f
    ensures Split(a + "|" + f, '|') == Split(a, '|') + [f]
    decreases |a|
  {
    hide Split;
    var i := IndexOf(a, '|');
    if i == -1 {
      SplitStep(a, '|', f);
      SplitWhole(f, '|');
      SplitWhole(a, '|');
    } else {
      var x, y := a[..i], a[i + 1..];
      assert a == x + "|" + y;
      SplitLast(y, f);
      SplitStep(x, '|', y);
      assert a + "|" + f == x + "|" + (y + "|" + f);
      SplitStep(x, '|', y + "|" + f);
    }
  }

  lemma JavaSplitFull(s: string, c: char)
    requires Split(s, c)[|Split(s, c)| - 1] != []
    ensures JavaSplit(s, c) == Split(s, c)
  {
  }

  function RemoveChar(s: string, c: char): (r: string)
    ensures c !in r
  {
    if s == [] then [] else (if s[0] == c then [] else [s[0]]) + RemoveChar(s[1..], c)
  }

  lemma {:induction false} RemoveAbsent(s: string, c: char)
    requires c !in s
    ensures RemoveChar(s, c) == s
  {
    if s != [] {
      RemoveAbsent(s[1..], c);
      assert s == [s[0]] + s[1..];
    }
  }

  lemma {:induction false} RemoveConcat(a: string, b: string, c: char)
    ensures RemoveChar(a + b, c) == RemoveChar(a, c) + RemoveChar(b, c)
  {
    if a == [] {
      assert a + b == b;
    } else {
      assert (a + b)[1..] == a[1..] + b;
      var x := if a[0] == c then [] else [a[0]];
      assert RemoveChar(a + b, c) == x + RemoveChar(a[1..] + b, c);
      assert RemoveChar(a, c) == x + RemoveChar(a[1..], c);
      hide RemoveChar;
      RemoveConcat(a[1..], b, c);
    }
  }

  function ReplaceChar(s: string, c: char, other: char): string
  {
    seq(|s|, i requires 0 <= i < |s| => if s[i] == c then other else s[i])
  }

  // ----- decimal numbers -----

  predicate Digit(c: char)
  {
    '0' <= c <= '9'
  }

  function DigitOf(d: nat): char
    requires d < 10
  {
    '0' + d as char
  }

  function PrintNat(n: nat): (s: string)
    ensures s != [] && forall i :: 0 <= i < |s| ==> Digit(s[i])
  {
    if n < 10 then [DigitOf(n)] else PrintNat(n / 10) + [DigitOf(n % 10)]
  }

  function PrintInt(n: int): string
  {
    if n < 0 then "-" + PrintNat(-n) else PrintNat(n)
  }

  function ParseNat(s: string): Option<nat>
  {
    if s == [] || !Digit(s[|s| - 1]) then None
    else
      var d := (s[|s| - 1] - '0') as nat;
      if |s| == 1 then Some(d)
      else
        match ParseNat(s[..|s| - 1])
        case Some(n) => Some(10 * n + d)
        case None => None
  }

  /** parseInt and parseLong: an optional sign, digits, and a value in range. */
  function ParseInt(s: string, low: int, high: int): Option<int>
  {
    if s == [] then None
    else
      var negative := s[0] == '-';
      match ParseNat(if negative || s[0] == '+' then s[1..] else s)
      case None => None
      case Some(n) =>
        var v: int := if negative then -(n as int) else n;
        if low <= v <= high then Some(v) else None
  }

  lemma {:induction false} ParsePrintNat(n: nat)
    ensures ParseNat(PrintNat(n)) == Some(n)
  {
    if n >= 10 {
      ParsePrintNat(n / 10);
      var s := PrintNat(n);
      assert s[..|s| - 1] == PrintNat(n / 10);
    }
  }

  /** Printed numbers parse back, as long as they fit. */
  lemma ParsePrintInt(n: int, low: int, high: int)
    requires low <= n <= high
    ensures ParseInt(PrintInt(n), low, high) == Some(n)
  {
    ParsePrintNat(if n < 0 then -n else n);
    if n < 0 {
      assert PrintInt(n)[1..] == PrintNat(-n);
    }
  }

  /** s without the one sign it may start with. */
  function Unsigned(s: string): string
  {
    if "-" <= s || "+" <= s then s[1..] else s
  }

  lemma {:induction false} DigitsAreRead(s: string)
    ensures ParseNat(s).Some? <==> s != "" && forall i :: 0 <= i < |s| ==> '0' <= s[i] <= '9'
  {
    if |s| > 1 {
      var rest := s[..|s| - 1];
      DigitsAreRead(rest);
      assert forall i :: 0 <= i < |rest| ==> rest[i] == s[i];
    }
  }

  /** What reads as a number: a sign, which may be missing, and digits, at least one; unless it is out of range. */
  lemma NumbersAreRead(s: string, low: int, high: int)
    ensures ParseInt(s, low, high).Some? ==>
      Unsigned(s) != "" && forall i :: 0 <= i < |Unsigned(s)| ==> '0' <= Unsigned(s)[i] <= '9'
    ensures Unsigned(s) != "" && (forall i :: 0 <= i < |Unsigned(s)| ==> '0' <= Unsigned(s)[i] <= '9') ==>
      exists n :: ParseInt(s, n, n) == Some(n) && (ParseInt(s, low, high) == if low <= n <= high then Some(n) else None)
  {
    DigitsAreRead(Unsigned(s));
    if s != "" && ParseNat(Unsigned(s)).Some? {
      var m: int := ParseNat(Unsigned(s)).value;
      var n := if s[0] == '-' then -m else m;
      assert ParseInt(s, n, n) == Some(n);
    }
  }

  lemma PrintIntClean(n: int)
    ensures Tight(PrintInt(n))
    ensures forall i :: 0 <= i < |PrintInt(n)| ==> Digit(PrintInt(n)[i]) || PrintInt(n)[i] == '-'
  {
  }
}
