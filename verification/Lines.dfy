/** Bytes that a newline divides into lines. */
module Lines {

  newtype Byte = x: int | 0 <= x < 256

  const NEWLINE: Byte := 10

  type Bytes = seq<Byte>

  /** The number of bytes through the first newline, or 0 if there is none. */
  function LineLength(b: Bytes): (n: nat)
    ensures n <= |b| && (n > 0 ==> b[n - 1] == NEWLINE && NEWLINE !in b[..n - 1])
    ensures n == 0 <==> NEWLINE !in b
  {
    if b == [] then 0
    else if b[0] == NEWLINE then 1
    else
      var n := LineLength(b[1..]);
      assert b == [b[0]] + b[1..];
      if n == 0 then 0
      else
        assert b[..n] == [b[0]] + b[1..][..n - 1];
        n + 1
  }

  lemma {:induction false} FirstLineOfBoth(a: Bytes, b: Bytes)
    ensures LineLength(a) > 0 ==> LineLength(a + b) == LineLength(a)
    ensures LineLength(a) == 0 ==> LineLength(a + b) == if LineLength(b) > 0 then |a| + LineLength(b) else 0
  {
    if a == [] {
      assert a + b == b;
    } else {
      assert (a + b)[1..] == a[1..] + b;
      FirstLineOfBoth(a[1..], b);
    }
  }

  lemma CutFirstLine(a: Bytes, b: Bytes, n: nat)
    requires n <= |a|
    ensures (a + b)[..n] == a[..n] && (a + b)[n..] == a[n..] + b
  {
  }

  lemma {:induction false} OneLine(b: Bytes)
    requires LineLength(b) > 0
    ensures LineLength(b[..LineLength(b)]) == LineLength(b)
  {
    if b[0] != NEWLINE {
      var n := LineLength(b);
      assert b[..n][1..] == b[1..][..n - 1];
      OneLine(b[1..]);
    }
  }

  /** The first line with its newline, or everything when there is none. */
  function FirstLine(b: Bytes): (line: Bytes)
    ensures line <= b && (b != [] ==> line != [])
  {
    if LineLength(b) > 0 then b[..LineLength(b)] else b
  }

  /** All lines in order; the last one may lack its newline. */
  function AllLines(b: Bytes): seq<Bytes>
    decreases |b|
  {
    if b == [] then [] else [FirstLine(b)] + AllLines(b[|FirstLine(b)|..])
  }

  function Flat(lines: seq<Bytes>): Bytes {
    if lines == [] then [] else lines[0] + Flat(lines[1..])
  }

  lemma FlatOfOneMore(line: Bytes, lines: seq<Bytes>)
    ensures Flat([line] + lines) == line + Flat(lines)
  {
    assert ([line] + lines)[1..] == lines;
  }

  lemma {:induction false} LinesAreTheBytes(b: Bytes)
    ensures Flat(AllLines(b)) == b
    decreases |b|
  {
    hide FirstLine, Flat;
    if b == [] {
      assert Flat([]) == [] by { FlatOfNone(); }
    } else {
      var line := FirstLine(b);
      LinesAreTheBytes(b[|line|..]);
      FlatOfOneMore(line, AllLines(b[|line|..]));
    }
  }

  lemma FlatOfNone()
    ensures Flat([]) == []
  {
  }

  lemma {:induction false} FlatOfBoth(a: seq<Bytes>, b: seq<Bytes>)
    ensures Flat(a + b) == Flat(a) + Flat(b)
  {
    if a == [] {
      assert a + b == b;
    } else {
      assert (a + b)[1..] == a[1..] + b;
      FlatOfBoth(a[1..], b);
    }
  }
}
