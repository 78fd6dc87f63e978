/** The string primitives of the JavaScript runtime that the ClickUp nodes use:
    `String.prototype.trim`, `String.prototype.split` and `Array.prototype.join` with a
    one-character separator, the regular expression `^\d+$`, and decimal numerals. */
module Text {

  /** The WhiteSpace and LineTerminator code points of ECMA-262 (sections 12.2 and 12.3):
      exactly the characters `trim` strips. */
  predicate IsJsSpace(c: char)
    ensures c == ' ' || c == '\t' || c == '\n' || c == '\r' ==> IsJsSpace(c)
    ensures IsJsSpace(c) ==> !('0' <= c <= '9') && c != ',' && c != '-'
  {
    var n := c as int;
    || n == 0x09 || n == 0x0A || n == 0x0B || n == 0x0C || n == 0x0D
    || n == 0x20 || n == 0xA0 || n == 0x1680
    || (0x2000 <= n && n <= 0x200A)
    || n == 0x2028 || n == 0x2029 || n == 0x202F || n == 0x205F || n == 0x3000 || n == 0xFEFF
  }

  /** True iff `s` holds nothing but white space (the empty string included). */
  predicate Blank(s: string) {
    forall i | 0 <= i < |s| :: IsJsSpace(s[i])
  }

  /** `r` sits in `s` at offset `i` with nothing but white space before and after it. */
  predicate TrimmedAt(s: string, r: string, i: int) {
    0 <= i <= |s| - |r| && s[i..i + |r|] == r && Blank(s[..i]) && Blank(s[i + |r|..])
  }

  /** `r` is `s` with a white-space prefix and a white-space suffix removed. */
  ghost predicate TrimmedFrom(s: string, r: string) {
    exists i :: TrimmedAt(s, r, i)
  }

  /** `s.trim()`: white space goes from both ends, and what is left neither starts nor ends
      with white space. */
  function Trim(s: string): (r: string)
    ensures r == "" <==> Blank(s)
    ensures r != "" ==> !IsJsSpace(r[0]) && !IsJsSpace(r[|r| - 1])
    decreases |s|
  {
    if |s| > 0 && IsJsSpace(s[0]) then Trim(s[1..])
    else if |s| > 0 && IsJsSpace(s[|s| - 1]) then
      assert forall i | 0 <= i < |s| - 1 :: s[..|s| - 1][i] == s[i];
      Trim(s[..|s| - 1])
    else s
  }

  /** What `trim` removes is white space at the two ends, and nothing else. */
  lemma TrimRemovesEnds(s: string)
    ensures TrimmedFrom(s, Trim(s))
  {
    var i := TrimOffset(s);
  }

  /** Where in `s` its trim sits. */
  lemma {:induction false} TrimOffset(s: string) returns (i: int)
    ensures TrimmedAt(s, Trim(s), i)
    decreases |s|
  {
    if |s| > 0 && IsJsSpace(s[0]) {
      var k := TrimOffset(s[1..]);
      i := TrimmedAtDropFirst(s, Trim(s[1..]), k);
    } else if |s| > 0 && IsJsSpace(s[|s| - 1]) {
      var k := TrimOffset(s[..|s| - 1]);
      i := TrimmedAtDropLast(s, Trim(s[..|s| - 1]), k);
    } else {
      i := 0;
      assert s[..0] == [] && s[0 + |s|..] == [];
    }
  }

  lemma TrimmedAtDropFirst(s: string, r: string, k: int) returns (i: int)
    requires |s| > 0 && IsJsSpace(s[0]) && TrimmedAt(s[1..], r, k)
    ensures TrimmedAt(s, r, i)
  {
    var t := s[1..];
    i := k + 1;
    var mid, pre, post := s[i..i + |r|], s[..i], s[i + |r|..];
    forall n | 0 <= n < |r| ensures mid[n] == r[n] {
      assert mid[n] == t[k..k + |r|][n];
    }
    forall n | 0 <= n < i ensures IsJsSpace(pre[n]) {
      if n > 0 {
        assert pre[n] == t[..k][n - 1];
      }
    }
    forall n | 0 <= n < |post| ensures IsJsSpace(post[n]) {
      assert post[n] == t[k + |r|..][n];
    }
    assert mid == r;
  }

  lemma TrimmedAtDropLast(s: string, r: string, k: int) returns (i: int)
    requires |s| > 0 && IsJsSpace(s[|s| - 1]) && TrimmedAt(s[..|s| - 1], r, k)
    ensures TrimmedAt(s, r, i)
  {
    var t := s[..|s| - 1];
    i := k;
    var mid, pre, post := s[i..i + |r|], s[..i], s[i + |r|..];
    forall n | 0 <= n < |r| ensures mid[n] == r[n] {
      assert mid[n] == t[k..k + |r|][n];
    }
    forall n | 0 <= n < i ensures IsJsSpace(pre[n]) {
      assert pre[n] == t[..k][n];
    }
    forall n | 0 <= n < |post| ensures IsJsSpace(post[n]) {
      if n < |post| - 1 {
        assert post[n] == t[k + |r|..][n];
      }
    }
    assert mid == r;
  }

  /** A string that neither starts nor ends with white space is its own trim. */
  lemma TrimUnpadded(s: string)
    requires s != "" ==> !IsJsSpace(s[0]) && !IsJsSpace(s[|s| - 1])
    ensures Trim(s) == s
  {
  }

  /** Trimming is idempotent. */
  lemma TrimIdempotent(s: string)
    ensures Trim(Trim(s)) == Trim(s)
  {
  }

  /** `parts.join(sep)`. */
  function Join(parts: seq<string>, sep: char): string {
    if |parts| == 0 then ""
    else if |parts| == 1 then parts[0]
    else parts[0] + [sep] + Join(parts[1..], sep)
  }

  /** A join starts with its first piece. */
  lemma JoinHead(parts: seq<string>, sep: char)
    requires |parts| > 0
    ensures parts[0] <= Join(parts, sep)
  {
    if |parts| > 1 {
      assert Join(parts, sep) == parts[0] + ([sep] + Join(parts[1..], sep));
    }
  }

  /** Joining one more piece appends the separator and that piece. */
  lemma {:induction false} JoinSnoc(parts: seq<string>, last: string, sep: char)
    requires |parts| >= 1
    ensures Join(parts + [last], sep) == Join(parts, sep) + [sep] + last
  {
    assert (parts + [last])[0] == parts[0];
    if |parts| == 1 {
      assert (parts + [last])[1..] == [last];
    } else {
      assert (parts + [last])[1..] == parts[1..] + [last];
      JoinSnoc(parts[1..], last, sep);
    }
  }

  /** `s.split(sep)`: the pieces between separators, in order. There is always at least one
      piece, no piece holds the separator, and joining the pieces gives `s` back. */
  function Split(s: string, sep: char): (parts: seq<string>)
    ensures |parts| >= 1
    ensures forall i | 0 <= i < |parts| :: sep !in parts[i]
    ensures Join(parts, sep) == s
  {
    if |s| == 0 then [""]
    else
      var rest := Split(s[1..], sep);
      if s[0] == sep then
        assert ([""] + rest)[1..] == rest;
        [""] + rest
      else
        var parts := [[s[0]] + rest[0]] + rest[1..];
        assert |parts| > 1 ==> parts[1..] == rest[1..];
        assert |rest| > 1 ==> Join(rest, sep) == rest[0] + [sep] + Join(rest[1..], sep);
        assert s == [s[0]] + s[1..];
        parts
  }

  /** Splitting a string that begins with a separator-free piece `p`. */
  lemma {:induction false} SplitAfterPiece(p: string, rest: string, sep: char)
    requires sep !in p
    ensures Split(p + rest, sep) == [p + Split(rest, sep)[0]] + Split(rest, sep)[1..]
    decreases |p|
  {
    if |p| > 0 {
      assert (p + rest)[1..] == p[1..] + rest;
      SplitAfterPiece(p[1..], rest, sep);
      assert [p[0]] + (p[1..] + Split(rest, sep)[0]) == p + Split(rest, sep)[0];
    } else {
      var parts := Split(rest, sep);
      assert p + rest == rest;
      assert p + parts[0] == parts[0];
      assert parts == [parts[0]] + parts[1..];
    }
  }

  /** `split` undoes `join` whenever no piece contains the separator. */
  lemma {:induction false} SplitJoin(parts: seq<string>, sep: char)
    requires |parts| >= 1
    requires forall i | 0 <= i < |parts| :: sep !in parts[i]
    ensures Split(Join(parts, sep), sep) == parts
  {
    if |parts| == 1 {
      SplitAfterPiece(parts[0], "", sep);
      assert parts[0] + "" == parts[0];
    } else {
      var rest := parts[1..];
      assert forall i | 0 <= i < |rest| :: rest[i] == parts[i + 1];
      var tail := Join(rest, sep);
      SplitJoin(rest, sep);
      SplitAtSeparator(tail, sep);
      JoinCons(parts, sep);
      SplitAfterPiece(parts[0], [sep] + tail, sep);
      assert ([""] + rest)[0] == "" && ([""] + rest)[1..] == rest;
      assert parts[0] + "" == parts[0];
      assert [parts[0]] + rest == parts;
    }
  }

  /** A join of two or more pieces is the first piece, a separator and the join of the rest. */
  lemma JoinCons(parts: seq<string>, sep: char)
    requires |parts| >= 2
    ensures Join(parts, sep) == parts[0] + ([sep] + Join(parts[1..], sep))
  {
  }

  /** A leading separator splits off an empty first piece. */
  lemma SplitAtSeparator(s: string, sep: char)
    ensures Split([sep] + s, sep) == [""] + Split(s, sep)
  {
    assert ([sep] + s)[1..] == s;
  }

  /** Splitting at a separator splits the two sides independently. */
  lemma {:induction false} SplitConcat(a: string, b: string, sep: char)
    ensures Split(a + [sep] + b, sep) == Split(a, sep) + Split(b, sep)
    decreases |a|
  {
    if |a| == 0 {
      assert a + [sep] + b == [sep] + b;
      assert ([sep] + b)[1..] == b;
    } else {
      assert (a + [sep] + b)[1..] == a[1..] + [sep] + b;
      SplitConcat(a[1..], b, sep);
    }
  }

  predicate IsDigit(c: char) {
    '0' <= c <= '9'
  }

  /** The regular expression `^\d+$`: one or more ASCII digits and nothing else. */
  predicate AllDigits(s: string)
    ensures AllDigits(s) ==> s != "" && !IsJsSpace(s[0]) && !IsJsSpace(s[|s| - 1]) && ',' !in s
  {
    |s| > 0 && forall i | 0 <= i < |s| :: IsDigit(s[i])
  }

  function DigitValue(c: char): nat
    requires IsDigit(c)
  {
    c as int - '0' as int
  }

  function DigitChar(d: nat): (c: char)
    requires d < 10
    ensures IsDigit(c) && DigitValue(c) == d
  {
    ('0' as int + d) as char
  }

  /** The value of a run of decimal digits, most significant first. */
  function DecimalValue(s: string): nat
    requires forall i | 0 <= i < |s| :: IsDigit(s[i])
  {
    if |s| == 0 then 0 else 10 * DecimalValue(s[..|s| - 1]) + DigitValue(s[|s| - 1])
  }

  /** The decimal numeral JavaScript prints for a natural number: digits only, no leading
      zero, and reading it back gives the number. */
  function NatToDecimal(n: nat): (s: string)
    ensures AllDigits(s)
    ensures DecimalValue(s) == n
    ensures s[0] != '0' || s == "0"
  {
    if n < 10 then [DigitChar(n)]
    else
      var p := NatToDecimal(n / 10);
      var s := p + [DigitChar(n % 10)];
      assert s[..|s| - 1] == p;
      s
  }

  /** `String(n)` for an integer. */
  function IntToDecimal(n: int): string {
    if n < 0 then "-" + NatToDecimal(-n) else NatToDecimal(n)
  }
}
