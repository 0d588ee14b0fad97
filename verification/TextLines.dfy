/** Text as lines, as pieces between separators, and as decimal numbers. */
module TextLines {

  function Unlines(lines: seq<string>): string {
    if lines == [] then "" else lines[0] + "\n" + Unlines(lines[1..])
  }

  /** Length of the part before the first `c`. */
  function Upto(text: string, c: char): (n: nat)
    ensures n <= |text| && c !in text[..n]
    ensures n < |text| ==> text[n] == c
  {
    if text == "" || text[0] == c then 0 else
      assert text[..Upto(text[1..], c) + 1] == [text[0]] + text[1..][..Upto(text[1..], c)];
      Upto(text[1..], c) + 1
  }

  /** The lines of a text; a last one without its newline counts too. */
  function Lines(text: string): seq<string>
    decreases |text|
  {
    if text == "" then []
    else
      var n := Upto(text, '\n');
      if n == |text| then [text] else [text[..n]] + Lines(text[n + 1..])
  }

  lemma {:induction false} UptoIs(a: string, c: char, b: string)
    requires c !in a
    ensures Upto(a + [c] + b, c) == |a|
  {
    if a != "" {
      assert (a + [c] + b)[1..] == a[1..] + [c] + b;
      UptoIs(a[1..], c, b);
    }
  }

  predicate OneLiner(line: string) {
    '\n' !in line
  }

  lemma LinesCons(first: string, rest: string)
    requires OneLiner(first)
    ensures Lines(first + "\n" + rest) == [first] + Lines(rest)
  {
    var text := first + ['\n'] + rest;
    UptoIs(first, '\n', rest);
    assert text[..|first|] == first && text[|first| + 1..] == rest;
  }

  lemma {:induction false} LinesOfUnlines(lines: seq<string>)
    requires forall i :: 0 <= i < |lines| ==> OneLiner(lines[i])
    ensures Lines(Unlines(lines)) == lines
  {
    if lines != [] {
      LinesCons(lines[0], Unlines(lines[1..]));
      LinesOfUnlines(lines[1..]);
    }
  }

  lemma {:induction false} UnlinesConcat(a: seq<string>, b: seq<string>)
    ensures Unlines(a + b) == Unlines(a) + Unlines(b)
  {
    if a == [] {
      assert a + b == b;
    } else {
      assert (a + b)[0] == a[0] && (a + b)[1..] == a[1..] + b;
      UnlinesConcat(a[1..], b);
    }
  }

  /** A text of whole lines. */
  predicate WholeLines(text: string) {
    text == "" || text[|text| - 1] == '\n'
  }

  lemma {:induction false} UnlinesIsWhole(lines: seq<string>)
    ensures WholeLines(Unlines(lines))
  {
    if lines != [] {
      UnlinesIsWhole(lines[1..]);
    }
  }

  lemma FirstLine(a: string, b: string) returns (first: string, rest: string)
    requires WholeLines(a) && a != ""
    ensures OneLiner(first) && WholeLines(rest) && |rest| < |a|
    ensures a == first + "\n" + rest && a + b == first + "\n" + (rest + b)
  {
    var n := Upto(a, '\n');
    first, rest := a[..n], a[n + 1..];
  }

  lemma {:induction false} LinesConcat(a: string, b: string)
    requires WholeLines(a)
    ensures Lines(a + b) == Lines(a) + Lines(b)
    decreases |a|
  {
    if a == "" {
      assert a + b == b;
    } else {
      var first, rest := FirstLine(a, b);
      LinesCons(first, rest);
      LinesCons(first, rest + b);
      LinesConcat(rest, b);
      AssociateLines([first], Lines(rest), Lines(b));
    }
  }

  lemma AssociateLines(a: seq<string>, b: seq<string>, c: seq<string>)
    ensures a + b + c == a + (b + c)
  {
  }

  /** What stands between separators; there is always one piece at least. */
  function Pieces(text: string, c: char): (r: seq<string>)
    ensures r != []
    decreases |text|
  {
    var n := Upto(text, c);
    if n == |text| then [text] else [text[..n]] + Pieces(text[n + 1..], c)
  }

  lemma PiecesCons(first: string, c: char, rest: string)
    requires c !in first
    ensures Pieces(first + [c] + rest, c) == [first] + Pieces(rest, c)
  {
    var text := first + [c] + rest;
    UptoIs(first, c, rest);
    assert text[..|first|] == first && text[|first| + 1..] == rest;
  }

  function JoinWith(pieces: seq<string>, c: char): string
    requires pieces != []
  {
    if |pieces| == 1 then pieces[0] else pieces[0] + [c] + JoinWith(pieces[1..], c)
  }

  predicate Without(piece: string, c: char) {
    c !in piece
  }

  /** Joining pieces free of the separator and splitting again gives them back. */
  lemma {:induction false} PiecesOfJoin(pieces: seq<string>, c: char)
    requires pieces != [] && forall i :: 0 <= i < |pieces| ==> Without(pieces[i], c)
    ensures Pieces(JoinWith(pieces, c), c) == pieces
  {
    if |pieces| == 1 {
      assert Without(pieces[0], c);
    } else {
      PiecesCons(pieces[0], c, JoinWith(pieces[1..], c));
      PiecesOfJoin(pieces[1..], c);
    }
  }

  function Digit(d: nat): char
    requires d < 10
  {
    ['0', '1', '2', '3', '4', '5', '6', '7', '8', '9'][d]
  }

  function Decimal(n: nat): (r: string)
    ensures r != "" && forall i :: 0 <= i < |r| ==> '0' <= r[i] <= '9'
  {
    if n < 10 then [Digit(n)] else Decimal(n / 10) + [Digit(n % 10)]
  }

  function Value(digits: string): nat {
    if digits == "" then 0
    else
      var d := digits[|digits| - 1];
      10 * Value(digits[..|digits| - 1]) + (if '0' <= d <= '9' then d as int - '0' as int else 0)
  }

  /** A number is written so that reading it as decimal digits gives it back. */
  lemma {:induction false} DecimalReadsBack(n: nat)
    ensures Value(Decimal(n)) == n
  {
    var digits := Decimal(n);
    DigitIs(n % 10);
    if n < 10 {
      assert digits[..|digits| - 1] == "";
    } else {
      DecimalReadsBack(n / 10);
      assert digits[..|digits| - 1] == Decimal(n / 10);
    }
  }

  lemma DigitIs(d: nat)
    requires d < 10
    ensures '0' <= Digit(d) <= '9' && Digit(d) as int - '0' as int == d
  {
  }
}
