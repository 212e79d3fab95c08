/** The Redis adapter's reading and writing loops, over a stream that hands out bytes as it pleases. */
module Adapter {
  import opened Prelude
  import opened Text
  import opened Resp

  class ByteStream {
    const data: ByteText
    var pos: nat

    ghost predicate Valid()
      reads this
    {
      pos <= |data|
    }

    /** The bytes still to come. */
    ghost function Rest(): ByteText
      reads this
      requires Valid()
    {
      data[pos..]
    }

    constructor (data: ByteText)
      ensures Valid() && Rest() == data
    {
      this.data, pos := data, 0;
    }

    /** One byte, or None at the end. */
    method Read() returns (b: Option<char>)
      requires Valid()
      modifies this
      ensures Valid() && old(Rest()) == (match b case Some(c) => [c] case None => []) + Rest()
      ensures b.None? <==> old(Rest()) == []
    {
      if pos == |data| {
        return None;
      }
      b := Some(data[pos]);
      pos := pos + 1;
    }

    /** At least one byte and at most `want`, as many as happen to be there; none only at the end. */
    method ReadSome(want: nat) returns (chunk: ByteText)
      requires Valid() && want > 0
      modifies this
      ensures Valid() && old(Rest()) == chunk + Rest() && |chunk| <= want
      ensures chunk == [] <==> old(Rest()) == []
    {
      if pos == |data| {
        return [];
      }
      var n: nat :| 1 <= n <= want && pos + n <= |data|;
      chunk := data[pos..pos + n];
      pos := pos + n;
    }
  }

  class RedisAdapter {
    const input: ByteStream
    var output: ByteText

    constructor (input: ByteStream)
      ensures this.input == input && output == []
    {
      this.input, output := input, [];
    }

    method ReadTheLine() returns (line: ByteText)
      requires input.Valid()
      modifies input
      ensures input.Valid() && (line, input.Rest()) == ReadLine(old(input.Rest()))
    {
      line := [];
      ghost var start := input.Rest();
      var b := input.Read();
      while b.Some? && b.value != CR
        invariant input.Valid() && CR !in line
        invariant start == line + (match b case Some(c) => [c] + input.Rest() case None => [])
        invariant b.None? ==> input.Rest() == []
        decreases |input.Rest()|, b.Some?
      {
        line := line + [b.value];
        b := input.Read();
      }
      LineEnds(line, if b.Some? then input.Rest() else [], b.Some?);
      if b.Some? {
        var skipped := input.Read();
      }
    }

    /** The loop that fills the buffer, whatever the sizes of the chunks. */
    method ReadFully(len: nat) returns (data: Option<ByteText>)
      requires input.Valid()
      modifies input
      ensures input.Valid()
      ensures data.Some? <==> |old(input.Rest())| >= len
      ensures data.Some? ==> data.value == old(input.Rest())[..len] && input.Rest() == old(input.Rest())[len..]
    {
      var buffer: ByteText := [];
      while |buffer| < len
        invariant input.Valid() && |buffer| <= len && |buffer| <= |old(input.Rest())|
        invariant buffer == old(input.Rest())[..|buffer|] && input.Rest() == old(input.Rest())[|buffer|..]
        decreases len - |buffer|
      {
        var chunk := input.ReadSome(len - |buffer|);
        if chunk == [] {
          return None;
        }
        buffer := buffer + chunk;
      }
      data := Some(buffer);
    }

    method ReadBulkString() returns (r: Result<Response>)
      requires input.Valid()
      modifies input
      ensures input.Valid()
      ensures match ReadBulk(old(input.Rest()))
        case Ok((reply, rest)) => r == Ok(reply) && input.Rest() == rest
        case Err(e) => r == Err(e)
    {
      hide ReadLine, ParseInt;
      var lenStr := ReadTheLine();
      var len := ParseInt(lenStr, MIN_INT, MAX_INT);
      if len.None? {
        return Err("NumberFormatException");
      }
      if len.value == -1 {
        return Ok(Nil);
      }
      if len.value < 0 {
        return Err("NegativeArraySizeException");
      }
      var data := ReadFully(len.value);
      if data.None? {
        return Err("Unexpected end of stream");
      }
      var cr := input.Read();
      var lf := input.Read();
      r := Ok(Str(data.value));
    }

    method ReadResponseObject() returns (r: Result<Response>)
      requires input.Valid()
      modifies input
      ensures input.Valid()
      ensures match ReadResponse(old(input.Rest()))
        case Ok((reply, rest)) => r == Ok(reply) && input.Rest() == rest
        case Err(e) => r == Err(e)
      decreases |input.Rest()|, 0
    {
      hide ReadLine, ReadBulk, ReadArray, ReadNumber;
      ghost var start := input.Rest();
      var b := input.Read();
      if b.None? {
        return Err("Connection closed by RedisJava");
      }
      assert start[1..] == input.Rest();
      var kind := b.value;
      if kind == '+' {
        var line := ReadTheLine();
        return Ok(Str(line));
      } else if kind == '-' {
        var line := ReadTheLine();
        return Err("RedisJava Error: " + line);
      } else if kind == ':' {
        r := ReadInteger();
      } else if kind == '$' {
        r := ReadBulkString();
      } else if kind == '*' {
        r := ReadArrayObject();
      } else {
        return Err("Unknown RESP type: " + [kind]);
      }
    }

    method ReadInteger() returns (r: Result<Response>)
      requires input.Valid()
      modifies input
      ensures input.Valid()
      ensures match ReadNumber(old(input.Rest()))
        case Ok((reply, rest)) => r == Ok(reply) && input.Rest() == rest
        case Err(e) => r == Err(e)
    {
      hide ReadLine, ParseInt;
      var line := ReadTheLine();
      var n := ParseInt(line, MIN_LONG, MAX_LONG);
      r := if n.None? then Err("NumberFormatException") else Ok(Num(n.value));
    }

    method ReadArrayObject() returns (r: Result<Response>)
      requires input.Valid()
      modifies input
      ensures input.Valid()
      ensures match ReadArray(old(input.Rest()))
        case Ok((reply, rest)) => r == Ok(reply) && input.Rest() == rest
        case Err(e) => r == Err(e)
      decreases |input.Rest()|, 2
    {
      hide ReadLine, ParseInt, ReadItems;
      var countStr := ReadTheLine();
      var count := ParseInt(countStr, MIN_INT, MAX_INT);
      if count.None? {
        return Err("NumberFormatException");
      }
      if count.value == -1 {
        return Ok(Nil);
      }
      if count.value < 0 {
        return Err("IllegalArgumentException");
      }
      var list := ReadElements(count.value);
      r := match list case Ok(items) => Ok(Lst(items)) case Err(e) => Err(e);
    }

    /** for (int i = 0; i < count; i++) list.add(readResponse()) */
    method ReadElements(count: nat) returns (r: Result<seq<Response>>)
      requires input.Valid()
      modifies input
      ensures input.Valid()
      ensures match ReadItems(old(input.Rest()), count)
        case Ok((items, rest)) => r == Ok(items) && input.Rest() == rest
        case Err(e) => r == Err(e)
      decreases |input.Rest()|, 1
    {
      var list: seq<Response> := [];
      ghost var start := input.Rest();
      PrependNothing(ReadItems(start, count));
      var i := 0;
      while i < count
        invariant i <= count && |list| == i && input.Valid() && |input.Rest()| <= |start|
        invariant ReadItems(start, count) == Prepend(list, ReadItems(input.Rest(), count - i))
        decreases count - i
      {
        ghost var before := input.Rest();
        var item := ReadResponseObject();
        ItemsStep(list, before, count - i);
        if item.Err? {
          return Err(item.reason);
        }
        list := list + [item.value];
        i := i + 1;
      }
      assert list + [] == list;
      r := Ok(list);
    }

    /** sendCommand; the lengths are counted in UTF-16 units. */
    method SendCommand(args: seq<string>)
      modifies `output
      ensures output == old(output) + Command(args)
    {
      var sb := "*" + PrintInt(|args|) + CRLF;
      assert args[0..] == args;
      var i := 0;
      while i < |args|
        invariant i <= |args| && output == old(output) && Command(args) == sb + CommandItems(args[i..])
      {
        CommandStep(args, i, sb);
        sb := sb + "$" + PrintInt(JavaLength(args[i])) + CRLF;
        sb := sb + Utf8All(args[i]) + CRLF;
        i := i + 1;
      }
      NoItems(args[i..], sb);
      assert Command(args) == sb;
      output := output + sb;
    }
  }

  function Prepend(list: seq<Response>, more: Result<(seq<Response>, ByteText)>): Result<(seq<Response>, ByteText)>
  {
    match more
    case Ok((items, rest)) => Ok((list + items, rest))
    case Err(e) => Err(e)
  }

  /** A line ends at the first carriage return, or at the end of the stream. */
  lemma {:induction false} LineEnds(line: ByteText, left: ByteText, ended: bool)
    requires CR !in line
    ensures ended ==> ReadLine(line + ([CR] + left)) == (line, if left == [] then [] else left[1..])
    ensures !ended ==> ReadLine(line + []) == (line, [])
    decreases |line|
  {
    if line == [] {
      var s := [CR] + left;
      assert line + s == s;
      assert left != [] ==> s[2..] == left[1..];
    } else {
      LineEnds(line[1..], left, ended);
      assert (line + ([CR] + left))[1..] == line[1..] + ([CR] + left);
      assert (line + [])[1..] == line[1..] + [];
      assert [line[0]] + line[1..] == line;
    }
  }

  lemma PrependNothing(more: Result<(seq<Response>, ByteText)>)
    ensures Prepend([], more) == more
  {
    match more {
      case Ok((items, _)) => assert [] + items == items;
      case Err(_) =>
    }
  }

  lemma ItemsStep(list: seq<Response>, s: ByteText, count: nat)
    requires count > 0
    ensures Prepend(list, ReadItems(s, count)) == match ReadResponse(s)
      case Err(e) => Err(e)
      case Ok((first, rest)) => Prepend(list + [first], ReadItems(rest, count - 1))
  {
    hide ReadResponse;
    match ReadResponse(s) {
      case Err(_) =>
      case Ok((first, rest)) =>
        match ReadItems(rest, count - 1) {
          case Err(_) =>
          case Ok((items, _)) => assert list + ([first] + items) == list + [first] + items;
        }
    }
  }

  lemma NoItems(args: seq<string>, sb: ByteText)
    requires args == []
    ensures sb + CommandItems(args) == sb
  {
  }

  lemma CommandStep(args: seq<string>, i: nat, sb: ByteText)
    requires i < |args|
    ensures sb + CommandItems(args[i..]) ==
      sb + "$" + PrintInt(JavaLength(args[i])) + CRLF + Utf8All(args[i]) + CRLF + CommandItems(args[i + 1..])
  {
  }
}
