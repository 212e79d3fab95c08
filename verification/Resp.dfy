/** The Redis protocol as the master's adapter reads and writes it, over a stream of bytes. */
module Resp {
  import opened Prelude
  import opened Text

  // A byte is held in a char, as the adapter itself does when it reads a line.
  type ByteText = string

  const CR := '\r'
  const CRLF := "\r\n"

  // ----- what is read, as functions of the bytes still to come -----

  /** The adapter's results: a String, a Long, a List, or null. */
  datatype Response = Str(text: ByteText) | Num(n: int) | Lst(items: seq<Response>) | Nil

  /** Up to a carriage return or the end; the byte behind the carriage return is dropped unseen. */
  function ReadLine(s: ByteText): (r: (ByteText, ByteText))
    ensures |r.1| <= |s| && (s != [] ==> |r.1| < |s|)
  {
    if s == [] then ([], [])
    else if s[0] == CR then ([], if |s| > 1 then s[2..] else [])
    else
      var r := ReadLine(s[1..]);
      ([s[0]] + r.0, r.1)
  }

  function DropTwo(s: ByteText): (r: ByteText)
    ensures |r| <= |s|
  {
    if |s| <= 2 then [] else s[2..]
  }

  function ReadBulk(s: ByteText): (r: Result<(Response, ByteText)>)
    ensures r.Ok? ==> |r.value.1| <= |s|
  {
    var line := ReadLine(s);
    match ParseInt(line.0, MIN_INT, MAX_INT)
    case None => Err("NumberFormatException")
    case Some(len) =>
      if len == -1 then Ok((Nil, line.1))
      else if len < 0 then Err("NegativeArraySizeException")
      else if |line.1| < len then Err("Unexpected end of stream")
      else Ok((Str(line.1[..len]), DropTwo(line.1[len..])))
  }

  function ReadNumber(s: ByteText): (r: Result<(Response, ByteText)>)
    ensures r.Ok? ==> |r.value.1| <= |s|
  {
    var line := ReadLine(s);
    match ParseInt(line.0, MIN_LONG, MAX_LONG)
    case None => Err("NumberFormatException")
    case Some(n) => Ok((Num(n), line.1))
  }

  function ReadResponse(s: ByteText): (r: Result<(Response, ByteText)>)
    ensures r.Ok? ==> |r.value.1| < |s|
    decreases |s|, 0
  {
    if s == [] then Err("Connection closed by RedisJava")
    else if s[0] == '+' then Ok((Str(ReadLine(s[1..]).0), ReadLine(s[1..]).1))
    else if s[0] == '-' then Err("RedisJava Error: " + ReadLine(s[1..]).0)
    else if s[0] == ':' then ReadNumber(s[1..])
    else if s[0] == '$' then ReadBulk(s[1..])
    else if s[0] == '*' then ReadArray(s[1..])
    else Err("Unknown RESP type: " + [s[0]])
  }

  function ReadArray(s: ByteText): (r: Result<(Response, ByteText)>)
    ensures r.Ok? ==> |r.value.1| <= |s|
    decreases |s|, 2
  {
    var line := ReadLine(s);
    match ParseInt(line.0, MIN_INT, MAX_INT)
    case None => Err("NumberFormatException")
    case Some(count) =>
      if count == -1 then Ok((Nil, line.1))
      else if count < 0 then Err("IllegalArgumentException")
      else
        match ReadItems(line.1, count)
        case Err(e) => Err(e)
        case Ok((items, rest)) => Ok((Lst(items), rest))
  }

  function ReadItems(s: ByteText, count: nat): (r: Result<(seq<Response>, ByteText)>)
    ensures r.Ok? ==> |r.value.1| <= |s| && |r.value.0| == count
    decreases |s|, 1, count
  {
    if count == 0 then Ok(([], s))
    else
      match ReadResponse(s)
      case Err(e) => Err(e)
      case Ok((first, rest)) =>
        match ReadItems(rest, count - 1)
        case Err(e) => Err(e)
        case Ok((items, rest1)) => Ok(([first] + items, rest1))
  }

  // ----- encoding, as the protocol prescribes -----

  datatype Value =
    | Simple(line: ByteText)
    | Error(message: ByteText)
    | Integer(value: int)
    | Bulk(data: ByteText)
    | NullBulk
    | NullArray
    | Array(elements: seq<Value>)

  /** Values the protocol can carry and Java can hold. */
  predicate Encodable(v: Value)
  {
    match v
    case Simple(line) => CR !in line
    case Error(message) => CR !in message
    case Integer(n) => MIN_LONG <= n <= MAX_LONG
    case Bulk(data) => |data| <= MAX_INT
    case Array(elements) => |elements| <= MAX_INT && forall i :: 0 <= i < |elements| ==> Encodable(elements[i])
    case _ => true
  }

  function EncodeBulk(data: ByteText): ByteText
  {
    "$" + PrintInt(|data|) + CRLF + data + CRLF
  }

  function Encode(v: Value): ByteText
    decreases v, 0
  {
    match v
    case Simple(line) => "+" + line + CRLF
    case Error(message) => "-" + message + CRLF
    case Integer(n) => ":" + PrintInt(n) + CRLF
    case Bulk(data) => EncodeBulk(data)
    case NullBulk => "$-1" + CRLF
    case NullArray => "*-1" + CRLF
    case Array(elements) => "*" + PrintInt(|elements|) + CRLF + EncodeAll(elements)
  }

  function EncodeAll(elements: seq<Value>): ByteText
    decreases elements, 1
  {
    if elements == [] then [] else Encode(elements[0]) + EncodeAll(elements[1..])
  }

  /**
   What the adapter is to hand out for a value; it does not tell the two kinds of string, or of
   null, apart. An error becomes an exception, and the first one in an array takes the array along.
   */
  function Meaning(v: Value): Result<Response>
    decreases v, 0
  {
    match v
    case Simple(line) => Ok(Str(line))
    case Error(message) => Err("RedisJava Error: " + message)
    case Integer(n) => Ok(Num(n))
    case Bulk(data) => Ok(Str(data))
    case NullBulk => Ok(Nil)
    case NullArray => Ok(Nil)
    case Array(elements) => match MeaningAll(elements) case Ok(items) => Ok(Lst(items)) case Err(e) => Err(e)
  }

  function MeaningAll(elements: seq<Value>): (r: Result<seq<Response>>)
    ensures r.Ok? ==> |r.value| == |elements|
    decreases elements, 1
  {
    if elements == [] then Ok([])
    else
      match (Meaning(elements[0]), MeaningAll(elements[1..]))
      case (Err(e), _) => Err(e)
      case (_, Err(e)) => Err(e)
      case (Ok(first), Ok(others)) => Ok([first] + others)
  }

  /** A reading that hands out x and leaves `rest`, or fails as x does. */
  function Then<T>(x: Result<T>, rest: ByteText): Result<(T, ByteText)>
  {
    match x case Ok(value) => Ok((value, rest)) case Err(e) => Err(e)
  }

  lemma {:induction false} LineAt(line: ByteText, rest: ByteText)
    requires CR !in line
    ensures ReadLine(line + CRLF + rest) == (line, rest)
  {
    var s := line + CRLF + rest;
    if line == [] {
      assert s[2..] == rest;
    } else {
      assert s[1..] == line[1..] + CRLF + rest;
      LineAt(line[1..], rest);
      assert [line[0]] + line[1..] == line;
    }
  }

  lemma NumberLine(n: int, rest: ByteText)
    ensures ReadLine(PrintInt(n) + CRLF + rest) == (PrintInt(n), rest)
  {
    PrintIntClean(n);
    LineAt(PrintInt(n), rest);
  }

  lemma BulkTail(n: nat, tail: ByteText)
    requires n <= MAX_INT && n <= |tail|
    ensures ReadBulk(PrintInt(n) + CRLF + tail) == Ok((Str(tail[..n]), DropTwo(tail[n..])))
  {
    hide PrintInt, ParseInt, ReadLine;
    NumberLine(n, tail);
    ParsePrintInt(n, MIN_INT, MAX_INT);
  }

  /** A bulk string of declared length n is the next n bytes, whatever they are. */
  lemma BulkAt(n: nat, tail: ByteText)
    requires n <= MAX_INT && n <= |tail|
    ensures ReadResponse("$" + PrintInt(n) + CRLF + tail) == Ok((Str(tail[..n]), DropTwo(tail[n..])))
  {
    hide PrintInt, ReadBulk, ReadResponse, DropTwo;
    Regroup("$", PrintInt(n), CRLF, tail);
    DollarIsBulk(PrintInt(n) + CRLF + tail);
    BulkTail(n, tail);
  }

  lemma Regroup(a: ByteText, b: ByteText, c: ByteText, d: ByteText)
    ensures a + b + c + d == a + (b + c + d)
  {
  }

  lemma DollarIsBulk(t: ByteText)
    ensures ReadResponse("$" + t) == ReadBulk(t)
  {
  }

  lemma BulkRoundTrip(data: ByteText, rest: ByteText)
    requires |data| <= MAX_INT
    ensures ReadResponse(EncodeBulk(data) + rest) == Ok((Str(data), rest))
  {
    hide ReadResponse, PrintInt;
    var tail := data + CRLF + rest;
    assert EncodeBulk(data) + rest == "$" + PrintInt(|data|) + CRLF + tail;
    BulkAt(|data|, tail);
    assert tail[..|data|] == data && tail[|data|..] == CRLF + rest;
    assert (CRLF + rest)[2..] == rest;
  }

  lemma SimpleRoundTrip(line: ByteText, rest: ByteText)
    requires CR !in line
    ensures ReadResponse("+" + line + CRLF + rest) == Ok((Str(line), rest))
  {
    hide ReadLine;
    var s := "+" + line + CRLF + rest;
    assert s[1..] == line + CRLF + rest;
    LineAt(line, rest);
  }

  lemma ErrorIsRaised(message: ByteText, rest: ByteText)
    requires CR !in message
    ensures ReadResponse("-" + message + CRLF + rest) == Err("RedisJava Error: " + message)
  {
    hide ReadLine;
    var s := "-" + message + CRLF + rest;
    assert s[1..] == message + CRLF + rest;
    LineAt(message, rest);
  }

  lemma IntegerRoundTrip(n: int, rest: ByteText)
    requires MIN_LONG <= n <= MAX_LONG
    ensures ReadResponse(":" + PrintInt(n) + CRLF + rest) == Ok((Num(n), rest))
  {
    hide PrintInt, ParseInt, ReadLine;
    var s := ":" + PrintInt(n) + CRLF + rest;
    assert s[1..] == PrintInt(n) + CRLF + rest;
    NumberLine(n, rest);
    ParsePrintInt(n, MIN_LONG, MAX_LONG);
  }

  lemma KindDecides(kind: char, t: ByteText)
    ensures var r := ReadResponse([kind] + t);
      if kind == '+' then r == Ok((Str(ReadLine(t).0), ReadLine(t).1))
      else if kind == '-' then r == Err("RedisJava Error: " + ReadLine(t).0)
      else if kind == ':' then r == ReadNumber(t)
      else if kind == '$' then r == ReadBulk(t)
      else if kind == '*' then r == ReadArray(t)
      else r == Err("Unknown RESP type: " + [kind])
  {
    assert ([kind] + t)[1..] == t;
    hide ReadNumber, ReadBulk, ReadArray, ReadLine;
  }

  lemma BadLength(line: ByteText, rest: ByteText)
    requires CR !in line
    ensures var n, t := ParseInt(line, MIN_INT, MAX_INT), line + CRLF + rest;
      && (ParseInt(line, MIN_LONG, MAX_LONG).None? ==> ReadNumber(t) == Err("NumberFormatException"))
      && (n.None? ==> ReadBulk(t) == Err("NumberFormatException") && ReadArray(t) == Err("NumberFormatException"))
      && (n.Some? && n.value < -1 ==>
          ReadBulk(t) == Err("NegativeArraySizeException") && ReadArray(t) == Err("IllegalArgumentException"))
      && (n.Some? && n.value > |rest| ==> ReadBulk(t) == Err("Unexpected end of stream"))
  {
    LineAt(line, rest);
    hide ReadLine, ParseInt, ReadItems;
  }

  lemma EndedStream()
    ensures ReadResponse("") == Err("Connection closed by RedisJava")
  {
  }

  /**
   What is refused, and with which exception: a stream that has ended, an unknown kind, a line that is no
   number, a length below -1, a string that is not there in full.
   */
  lemma Refusals(kind: char, line: ByteText, rest: ByteText)
    requires CR !in line
    ensures ReadResponse("") == Err("Connection closed by RedisJava")
    ensures var t := line + CRLF + rest;
      var n := ParseInt(line, MIN_INT, MAX_INT);
      && (kind != '+' && kind != '-' && kind != ':' && kind != '$' && kind != '*' ==>
          ReadResponse([kind] + t) == Err("Unknown RESP type: " + [kind]))
      && (ParseInt(line, MIN_LONG, MAX_LONG).None? ==> ReadResponse([':'] + t) == Err("NumberFormatException"))
      && (n.None? ==>
          && ReadResponse(['$'] + t) == Err("NumberFormatException")
          && ReadResponse(['*'] + t) == Err("NumberFormatException"))
      && (n.Some? && n.value < -1 ==>
          && ReadResponse(['$'] + t) == Err("NegativeArraySizeException")
          && ReadResponse(['*'] + t) == Err("IllegalArgumentException"))
      && (n.Some? && n.value > |rest| ==> ReadResponse(['$'] + t) == Err("Unexpected end of stream"))
  {
    hide *;
    var t := line + CRLF + rest;
    EndedStream();
    BadLength(line, rest);
    KindDecides(kind, t);
    KindDecides(':', t);
    KindDecides('$', t);
    KindDecides('*', t);
  }

  lemma ScalarRoundTrip(v: Value, rest: ByteText)
    requires Encodable(v) && !v.Array?
    ensures ReadResponse(Encode(v) + rest) == Then(Meaning(v), rest)
  {
    hide ReadResponse, PrintInt, EncodeBulk;
    match v {
      case Simple(line) => SimpleRoundTrip(line, rest);
      case Error(message) => ErrorIsRaised(message, rest);
      case Integer(n) => IntegerRoundTrip(n, rest);
      case Bulk(data) => BulkRoundTrip(data, rest);
      case NullBulk =>
        assert Encode(v) == "$-1" + CRLF == ['$'] + "-1" + CRLF;
        NullRoundTrip('$', rest);
      case NullArray =>
        assert Encode(v) == "*-1" + CRLF == ['*'] + "-1" + CRLF;
        NullRoundTrip('*', rest);
    }
  }

  lemma NullRoundTrip(kind: char, rest: ByteText)
    requires kind == '$' || kind == '*'
    ensures ReadResponse([kind] + "-1" + CRLF + rest) == Ok((Nil, rest))
  {
    var s := [kind] + "-1" + CRLF + rest;
    assert PrintInt(-1) == "-1";
    assert s[1..] == PrintInt(-1) + CRLF + rest;
    NumberLine(-1, rest);
    ParsePrintInt(-1, MIN_INT, MAX_INT);
    hide PrintInt, ParseInt, ReadLine;
  }

  lemma ArrayAt(n: nat, body: ByteText)
    requires n <= MAX_INT
    ensures ReadResponse("*" + PrintInt(n) + CRLF + body) ==
      match ReadItems(body, n)
      case Err(e) => Err(e)
      case Ok((items, rest)) => Ok((Lst(items), rest))
  {
    var s := "*" + PrintInt(n) + CRLF + body;
    assert s[1..] == PrintInt(n) + CRLF + body;
    NumberLine(n, body);
    ParsePrintInt(n, MIN_INT, MAX_INT);
    hide PrintInt, ParseInt, ReadLine;
  }

  /**
   Reading undoes encoding, for every nested value, and leaves exactly what follows it; if there is
   an error anywhere in it, reading raises the first one.
   */
  lemma {:induction false} RoundTrip(v: Value, rest: ByteText)
    requires Encodable(v)
    ensures ReadResponse(Encode(v) + rest) == Then(Meaning(v), rest)
    decreases v, 0
  {
    if v.Array? {
      var n := |v.elements|;
      ItemsRoundTrip(v.elements, rest);
      ArrayAt(n, EncodeAll(v.elements) + rest);
      assert Encode(v) + rest == "*" + PrintInt(n) + CRLF + (EncodeAll(v.elements) + rest);
      hide ReadResponse, PrintInt;
    } else {
      ScalarRoundTrip(v, rest);
    }
  }

  lemma {:induction false} ItemsRoundTrip(elements: seq<Value>, rest: ByteText)
    requires forall i :: 0 <= i < |elements| ==> Encodable(elements[i])
    ensures ReadItems(EncodeAll(elements) + rest, |elements|) == Then(MeaningAll(elements), rest)
    decreases elements, 1
  {
    hide ReadResponse, Encode, Meaning;
    if elements == [] {
      assert EncodeAll(elements) + rest == rest;
    } else {
      RoundTrip(elements[0], EncodeAll(elements[1..]) + rest);
      ItemsRoundTrip(elements[1..], rest);
      assert EncodeAll(elements) + rest == Encode(elements[0]) + (EncodeAll(elements[1..]) + rest);
    }
  }

  // ----- commands -----

  /** How many UTF-16 units Java counts for a character, and how many bytes UTF-8 takes. */
  function Units(c: char): nat
  {
    if c as int < 0x1_0000 then 1 else 2
  }

  function Utf8(c: char): ByteText
  {
    var n := c as int;
    if n < 0x80 then [c]
    else if n < 0x800 then [(0xC0 + n / 0x40) as char, (0x80 + n % 0x40) as char]
    else if n < 0x1_0000 then [(0xE0 + n / 0x1000) as char, (0x80 + n / 0x40 % 0x40) as char, (0x80 + n % 0x40) as char]
    else [(0xF0 + n / 0x4_0000) as char, (0x80 + n / 0x1000 % 0x40) as char,
      (0x80 + n / 0x40 % 0x40) as char, (0x80 + n % 0x40) as char]
  }

  /** String.length, and String.getBytes(UTF_8). */
  function JavaLength(s: string): nat
  {
    if s == [] then 0 else Units(s[0]) + JavaLength(s[1..])
  }

  function Utf8All(s: string): ByteText
  {
    if s == [] then [] else Utf8(s[0]) + Utf8All(s[1..])
  }

  predicate Ascii(s: string)
  {
    forall i :: 0 <= i < |s| ==> s[i] as int < 0x80
  }

  predicate Continues(b: char)
  {
    0x80 <= b as int < 0xC0
  }

  /**
   Section 3 of RFC 3629: one to four bytes, by the size of the number; the first byte tells how many,
   the others carry six bits each, and together they make up the number. Java counts one unit up to
   U+FFFF and two beyond.
   */
  lemma Utf8Bits(c: char)
    ensures var n, b := c as int, Utf8(c);
      if n < 0x80 then |b| == 1 && b[0] == c
      else if n < 0x800 then
        |b| == 2 && 0xC0 <= b[0] as int < 0xE0 && Continues(b[1]) &&
        (b[0] as int - 0xC0) * 0x40 + (b[1] as int - 0x80) == n
      else if n < 0x1_0000 then
        |b| == 3 && 0xE0 <= b[0] as int < 0xF0 && Continues(b[1]) && Continues(b[2]) &&
        ((b[0] as int - 0xE0) * 0x40 + (b[1] as int - 0x80)) * 0x40 + (b[2] as int - 0x80) == n
      else
        |b| == 4 && 0xF0 <= b[0] as int < 0xF8 && Continues(b[1]) && Continues(b[2]) && Continues(b[3]) &&
        (((b[0] as int - 0xF0) * 0x40 + (b[1] as int - 0x80)) * 0x40 + (b[2] as int - 0x80)) * 0x40
          + (b[3] as int - 0x80) == n
    ensures JavaLength([c]) == if c as int < 0x1_0000 then 1 else 2
  {
    assert JavaLength([c]) == Units(c) + JavaLength([]);
    var n := c as int;
    SixBits(n);
    SixBits(n / 0x40);
    SixBits(n / 0x1000);
  }

  lemma SixBits(n: nat)
    ensures n / 0x40 * 0x40 + n % 0x40 == n && 0 <= n % 0x40 < 0x40
    ensures n / 0x40 / 0x40 == n / 0x1000 && n / 0x1000 / 0x40 == n / 0x4_0000
  {
  }

  /** The length the adapter declares is the length in bytes exactly for ASCII. */
  lemma {:induction false} LengthIsHonest(s: string)
    ensures JavaLength(s) <= |Utf8All(s)|
    ensures JavaLength(s) == |Utf8All(s)| <==> Ascii(s)
    ensures Ascii(s) ==> Utf8All(s) == s
  {
    if s != [] {
      LengthIsHonest(s[1..]);
      assert s == [s[0]] + s[1..];
      assert Ascii(s) <==> s[0] as int < 0x80 && Ascii(s[1..]);
    }
  }

  /** sendCommand: the text is built with lengths in UTF-16 units, then written as UTF-8. */
  function CommandItems(args: seq<string>): ByteText
  {
    if args == [] then []
    else "$" + PrintInt(JavaLength(args[0])) + CRLF + (Utf8All(args[0]) + CRLF + CommandItems(args[1..]))
  }

  function Command(args: seq<string>): ByteText
  {
    "*" + PrintInt(|args|) + CRLF + CommandItems(args)
  }

  /** What a reader of the command should see. */
  function Sent(args: seq<string>): (r: seq<Response>)
    ensures |r| == |args|
  {
    seq(|args|, i requires 0 <= i < |args| => Str(Utf8All(args[i])))
  }

  predicate AllAscii(args: seq<string>)
  {
    forall i :: 0 <= i < |args| ==> Ascii(args[i])
  }

  predicate Sizable(args: seq<string>)
  {
    |args| <= MAX_INT && forall i :: 0 <= i < |args| ==> JavaLength(args[i]) <= MAX_INT
  }

  lemma FirstItem(arg: string, more: ByteText)
    requires JavaLength(arg) <= MAX_INT
    ensures var tail := Utf8All(arg) + CRLF + more; var n := JavaLength(arg);
      n <= |tail| && ReadResponse("$" + PrintInt(n) + CRLF + tail) == Ok((Str(tail[..n]), DropTwo(tail[n..])))
    ensures Ascii(arg) ==>
      ReadResponse("$" + PrintInt(JavaLength(arg)) + CRLF + (Utf8All(arg) + CRLF + more)) ==
        Ok((Str(Utf8All(arg)), more))
  {
    hide ReadResponse, PrintInt, JavaLength, Utf8All, Ascii;
    var data, n := Utf8All(arg), JavaLength(arg);
    var tail := data + CRLF + more;
    LengthIsHonest(arg);
    BulkAt(n, tail);
    assert tail[..|data|] == data && tail[|data|..] == CRLF + more && (CRLF + more)[2..] == more;
  }

  lemma FirstOfItems(s: ByteText, count: nat, first: Response, more: ByteText)
    requires count > 0 && ReadResponse(s) == Ok((first, more))
    ensures ReadItems(s, count) ==
      match ReadItems(more, count - 1) case Err(e) => Err(e) case Ok((items, rest)) => Ok(([first] + items, rest))
  {
    hide ReadResponse;
  }

  lemma SameItems(x: Response, xs: seq<Response>, y: Response, ys: seq<Response>)
    ensures [x] + xs == [y] + ys <==> x == y && xs == ys
  {
    assert ([x] + xs)[0] == x && ([x] + xs)[1..] == xs && ([y] + ys)[0] == y && ([y] + ys)[1..] == ys;
  }

  lemma {:induction false} ItemsSent(args: seq<string>, rest: ByteText)
    requires Sizable(args)
    ensures ReadItems(CommandItems(args) + rest, |args|) == Ok((Sent(args), rest)) <==> AllAscii(args)
  {
    hide ReadResponse, PrintInt, JavaLength, Utf8All, Ascii;
    if args == [] {
      assert CommandItems(args) + rest == rest;
    } else {
      var a, more, n := args[0], CommandItems(args[1..]) + rest, JavaLength(args[0]);
      var s, tail := CommandItems(args) + rest, Utf8All(a) + CRLF + more;
      assert s == "$" + PrintInt(n) + CRLF + tail;
      assert AllAscii(args) <==> Ascii(a) && AllAscii(args[1..]);
      assert Sent(args) == [Str(Utf8All(a))] + Sent(args[1..]);
      ItemsSent(args[1..], rest);
      FirstItem(a, more);
      LengthIsHonest(a);
      hide CommandItems, AllAscii, Sent, DropTwo, ReadItems;
      var first, after := Str(tail[..n]), DropTwo(tail[n..]);
      FirstOfItems(s, |args|, first, after);
      match ReadItems(after, |args| - 1) {
        case Err(e) =>
        case Ok((items, left)) => SameItems(first, items, Str(Utf8All(a)), Sent(args[1..]));
      }
    }
  }

  /** A command is understood as it was meant exactly when all its arguments are ASCII. */
  lemma CommandIsUnderstood(args: seq<string>, rest: ByteText)
    requires Sizable(args)
    ensures ReadResponse(Command(args) + rest) == Ok((Lst(Sent(args)), rest)) <==> AllAscii(args)
  {
    hide ReadResponse, ReadItems, PrintInt, CommandItems, AllAscii;
    ItemsSent(args, rest);
    ArrayAt(|args|, CommandItems(args) + rest);
    assert Command(args) + rest == "*" + PrintInt(|args|) + CRLF + (CommandItems(args) + rest);
  }
}
