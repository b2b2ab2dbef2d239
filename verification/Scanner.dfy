/** The cursor over a buffer that every parser moves, with the line and column it keeps. */
module Scanners {
  import opened Wrappers
  import opened Text
  import opened Parsing

  datatype Position = Position(line: nat, column: nat)

  /** The position behind a prefix of the buffer. Before the first line feed columns count from 0, later from 1. */
  function After(prefix: string): Position {
    if prefix == "" then Position(1, 0)
    else
      var p := After(prefix[..|prefix| - 1]);
      if prefix[|prefix| - 1] == '\n' then Position(p.line + 1, 1) else Position(p.line, p.column + 1)
  }

  function LineFeeds(s: string): nat {
    if s == "" then 0 else LineFeeds(s[..|s| - 1]) + if s[|s| - 1] == '\n' then 1 else 0
  }

  /** The line is one more than the line feeds that were read; the column is told by what follows the last of them. */
  lemma {:induction false} PositionMeans(prefix: string, line: string)
    requires '\n' !in line && (prefix == "" || prefix[|prefix| - 1] == '\n')
    ensures After(prefix + line) == Position(1 + LineFeeds(prefix + line), if prefix == "" then |line| else 1 + |line|)
    decreases |prefix| + |line|
  {
    var s := prefix + line;
    if line != "" {
      assert s[..|s| - 1] == prefix + line[..|line| - 1];
      PositionMeans(prefix, line[..|line| - 1]);
    } else if prefix != "" {
      assert s == prefix;
      LineMeans(prefix);
    }
  }

  lemma {:induction false} LineMeans(s: string)
    ensures After(s).line == 1 + LineFeeds(s)
  {
    if s != "" { LineMeans(s[..|s| - 1]); }
  }

  class Scanner {
    const buffer: string
    var index: nat
    var position: Position

    /** The index is inside the buffer, and the position is that of the prefix that was read. */
    ghost predicate Valid()
      reads this
    {
      index <= |buffer| && position == After(buffer[..index])
    }

    function Rest(): string
      requires index <= |buffer|
      reads this
    {
      buffer[index..]
    }

    /** A method did to the scanner what the reader `p` says of the text in front of it. */
    ghost predicate Did<T>(p: Parse<T>, r: Result<T, Kind>)
      reads this
    {
      Valid() && Rest() == p.rest && r == p.Map()
    }

    constructor (buffer: string)
      ensures Valid() && Rest() == buffer
    {
      this.buffer, index, position := buffer, 0, Position(1, 0);
    }

    function Peek(): (c: Option<char>)
      requires index <= |buffer|
      reads this
      ensures c == if Rest() == "" then None else Some(Rest()[0])
    {
      if index < |buffer| then Some(buffer[index]) else None
    }

    method Bump(c: char)
      requires Valid() && Starts(Rest(), c)
      modifies this
      ensures Valid() && Rest() == old(Rest())[1..]
    {
      index := index + 1;
      if c == '\n' {
        position := Position(position.line + 1, 1);
      } else {
        position := Position(position.line, position.column + 1);
      }
      assert buffer[..index][..index - 1] == buffer[..old(index)];
    }

    method ScanWhile(p: char -> bool) returns (s: string)
      requires Valid()
      modifies this
      ensures Valid() && s == old(Rest())[..Span(p, old(Rest()))] && Rest() == old(Rest())[Span(p, old(Rest()))..]
    {
      var start := index;
      ghost var all := Rest();
      while index < |buffer| && p(buffer[index])
        invariant Valid() && start <= index && buffer[start..] == all
        invariant Span(p, all) == (index - start) + Span(p, Rest())
      {
        Bump(buffer[index]);
      }
      s := buffer[start..index];
    }

    method ScanWhileAsStr(p: char -> bool) returns (r: Result<string, Kind>)
      requires Valid()
      modifies this
      ensures Did(TextWhile(p, old(Rest())), r)
    {
      var bytes := ScanWhile(p);
      r := if ValidUtf8(bytes) then Success(bytes) else Failure(InvalidUtf8);
    }

    /** What `ScanWhile` would read. */
    function PeekWhile(p: char -> bool): string
      requires index <= |buffer|
      reads this
    {
      Rest()[..Span(p, Rest())]
    }

    method AdvanceN(n: nat)
      requires Valid() && n <= |Rest()|
      modifies this
      ensures Valid() && Rest() == old(Rest())[n..]
    {
      ghost var all := Rest();
      var i := 0;
      while i < n
        invariant 0 <= i <= n && Valid() && Rest() == all[i..]
      {
        Bump(buffer[index]);
        i := i + 1;
      }
    }

    method ScanIfEq(c: char) returns (taken: bool)
      requires Valid()
      modifies this
      ensures Valid() && taken == Starts(old(Rest()), c)
      ensures Rest() == if taken then old(Rest())[1..] else old(Rest())
    {
      taken := Peek() == Some(c);
      if taken { Bump(c); }
    }

    method MustRead(c: char) returns (r: Result<(), Kind>)
      requires Valid()
      modifies this
      ensures Did(Parsing.MustRead(c, old(Rest())), r)
    {
      match Peek()
      case None => r := Failure(Eof);
      case Some(found) =>
        if found == c {
          Bump(c);
          r := Success(());
        } else {
          r := Failure(UnexpectedByte);
        }
    }

    method ScanNewline() returns (r: Result<(), Kind>)
      requires Valid()
      modifies this
      ensures Did(Parsing.ScanNewline(old(Rest())), r)
    {
      var carriageReturn := ScanIfEq('\r');
      var lineFeed := ScanIfEq('\n');
      r := if carriageReturn || lineFeed then Success(()) else Failure(NonNewLine);
    }

    method ScanLine() returns (r: Result<string, Kind>)
      requires Valid()
      modifies this
      ensures Did(Parsing.ReadLine(old(Rest())), r)
    {
      r := ScanWhileAsStr(Parsing.InLine);
    }

    /** Reads `expected` as far as the buffer goes. */
    method MustScanSlice(expected: string) returns (r: Result<(), Kind>)
      requires Valid()
      modifies this
      ensures Did(MustScan(expected, old(Rest())), r)
    {
      var i := 0;
      ghost var all := Rest();
      while i < |expected| && index < |buffer|
        invariant Valid() && 0 <= i <= |expected|
        invariant MustScan(expected, all) == MustScan(expected[i..], Rest())
      {
        if buffer[index] != expected[i] {
          return Failure(UnexpectedByte);
        }
        assert expected[i..][1..] == expected[i + 1..];
        Bump(buffer[index]);
        i := i + 1;
      }
      r := Success(());
    }

    method NextByte() returns (r: Result<char, Kind>)
      requires Valid()
      modifies this
      ensures Did(Parsing.NextByte(old(Rest())), r)
    {
      match Peek()
      case None => r := Failure(Eof);
      case Some(c) =>
        Bump(c);
        r := Success(c);
    }

    method SkipWs()
      requires Valid()
      modifies this
      ensures Valid() && Rest() == Parsing.SkipWs(old(Rest()))
    {
      var _ := ScanWhile(IsSpace);
    }

    method ScanNumber(max: nat) returns (r: Result<nat, Kind>)
      requires Valid()
      modifies this
      ensures Did(Parsing.ScanNumber(max, old(Rest())), r)
    {
      var digits := ScanWhile(IsDigit);
      if digits != "" && Value(digits) <= max {
        r := Success(Value(digits));
      } else {
        r := Failure(InvalidNumber);
      }
    }
  }
}
