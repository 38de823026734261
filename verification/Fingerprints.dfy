/** The bytes that request fingerprints and digests hand to SHA-256. */
module Fingerprints {
  predicate NulFree(s: string) { forall k :: 0 <= k < |s| ==> s[k] != '\0' }

  /** Each part preceded by a zero byte (`domain.Fingerprint`). */
  function Framed(parts: seq<string>): string {
    if parts == [] then "" else "\0" + parts[0] + Framed(parts[1..])
  }

  function Digit(d: nat): char
    requires d < 10
  {
    ('0' as int + d) as char
  }

  /** The verb `%d`. */
  function Decimal(n: int): string
    decreases if n < 0 then 1 else 0, if n < 0 then -n else n
  {
    if n < 0 then "-" + Decimal(-n)
    else if n < 10 then [Digit(n)]
    else Decimal(n / 10) + [Digit(n % 10)]
  }

  /** The format `"%s\x00%s\x00%d\n"` of one ledger member. */
  function MemberLine(id: string, workload: string, revision: nat): string {
    id + "\0" + workload + "\0" + Decimal(revision) + "\n"
  }

  /** The format `"%d\x00%d\x00%d\x00%s\x00%s\n"` of one segment. */
  function SegmentLine(sequence: int, start: int, end: int, uri: string, checksum: string): string {
    Decimal(sequence) + "\0" + Decimal(start) + "\0" + Decimal(end) + "\0" + uri + "\0" + checksum + "\n"
  }

  // ---- Request fingerprints ----

  /** The first separator ends the first piece. */
  lemma PieceUnique(c: char, a: string, b: string, x: string, y: string)
    requires forall k :: 0 <= k < |a| ==> a[k] != c
    requires forall k :: 0 <= k < |b| ==> b[k] != c
    requires (x == "" || x[0] == c) && (y == "" || y[0] == c)
    requires a + x == b + y
    ensures a == b && x == y
  {
    var s := a + x;
    assert forall k :: 0 <= k < |a| ==> s[k] != c;
    assert forall k :: 0 <= k < |b| ==> s[k] == b[k] != c;
    assert x != "" ==> s[|a|] == c;
    assert y != "" ==> s[|b|] == c;
    assert |a| == |b|;
    assert a == s[..|a|] && b == s[..|b|];
    assert x == s[|a|..] && y == s[|b|..];
  }

  /** On NUL-free parts the fingerprint bytes determine the parts. */
  lemma {:induction false} FramedInjective(p: seq<string>, q: seq<string>)
    requires forall k :: 0 <= k < |p| ==> NulFree(p[k])
    requires forall k :: 0 <= k < |q| ==> NulFree(q[k])
    requires Framed(p) == Framed(q)
    ensures p == q
  {
    if p != [] && q != [] {
      var x, y := Framed(p[1..]), Framed(q[1..]);
      assert Framed(p) == ['\0'] + (p[0] + x) && Framed(q) == ['\0'] + (q[0] + y);
      assert p[0] + x == Framed(p)[1..] == Framed(q)[1..] == q[0] + y;
      PieceUnique('\0', p[0], q[0], x, y);
      FramedInjective(p[1..], q[1..]);
      assert p == [p[0]] + p[1..] && q == [q[0]] + q[1..];
    }
  }

  // ---- Membership digests ----

  lemma {:induction false} DecimalDigits(n: nat)
    ensures Decimal(n) != "" && forall k :: 0 <= k < |Decimal(n)| ==> '0' <= Decimal(n)[k] <= '9'
  {
    if n >= 10 { DecimalDigits(n / 10); }
  }

  lemma {:induction false} DecimalInjective(m: nat, n: nat)
    requires Decimal(m) == Decimal(n)
    ensures m == n
  {
    DecimalDigits(m / 10);
    DecimalDigits(n / 10);
    var d := Decimal(m);
    if m >= 10 && n >= 10 {
      assert Decimal(m / 10) == d[..|d| - 1] == Decimal(n / 10);
      assert d[|d| - 1] == Digit(m % 10) == Digit(n % 10);
      DecimalInjective(m / 10, n / 10);
    }
  }

  /** One line determines the member, and where the next line starts. */
  lemma MemberLineInjective(id: string, w: string, r: nat, id': string, w': string, r': nat, x: string, y: string)
    requires NulFree(id) && NulFree(w) && NulFree(id') && NulFree(w')
    requires MemberLine(id, w, r) + x == MemberLine(id', w', r') + y
    ensures id == id' && w == w' && r == r' && x == y
  {
    var end, end' := "\n" + x, "\n" + y;
    var tail, tail' := "\0" + (Decimal(r) + end), "\0" + (Decimal(r') + end');
    var rest, rest' := "\0" + (w + tail), "\0" + (w' + tail');
    assert MemberLine(id, w, r) + x == id + rest;
    assert MemberLine(id', w', r') + y == id' + rest';
    PieceUnique('\0', id, id', rest, rest');
    assert w + tail == rest[1..] == rest'[1..] == w' + tail';
    PieceUnique('\0', w, w', tail, tail');
    assert Decimal(r) + end == tail[1..] == tail'[1..] == Decimal(r') + end';
    DecimalDigits(r);
    DecimalDigits(r');
    PieceUnique('\n', Decimal(r), Decimal(r'), end, end');
    assert x == end[1..] && y == end'[1..];
    DecimalInjective(r, r');
  }

  // ---- Segment digests ----

  predicate LineFree(s: string) { forall k :: 0 <= k < |s| ==> s[k] != '\n' }

  /** A decimal, a zero byte and the rest determine the number and the rest. */
  lemma NumberFirst(m: nat, n: nat, x: string, y: string)
    requires Decimal(m) + ("\0" + x) == Decimal(n) + ("\0" + y)
    ensures m == n && x == y
  {
    DecimalDigits(m);
    DecimalDigits(n);
    PieceUnique('\0', Decimal(m), Decimal(n), "\0" + x, "\0" + y);
    assert x == ("\0" + x)[1..] && y == ("\0" + y)[1..];
    DecimalInjective(m, n);
  }

  lemma TextFirst(c: char, a: string, b: string, x: string, y: string)
    requires forall k :: 0 <= k < |a| ==> a[k] != c
    requires forall k :: 0 <= k < |b| ==> b[k] != c
    requires a + ([c] + x) == b + ([c] + y)
    ensures a == b && x == y
  {
    PieceUnique(c, a, b, [c] + x, [c] + y);
    assert x == ([c] + x)[1..] && y == ([c] + y)[1..];
  }

  lemma SegmentLineSplits(sequence: int, start: int, end: int, uri: string, checksum: string, x: string)
    ensures SegmentLine(sequence, start, end, uri, checksum) + x ==
      Decimal(sequence) + ("\0" + (Decimal(start) + ("\0" + (Decimal(end) + ("\0" + (uri + ("\0" + (checksum + ("\n" + x)))))))))
  {
    hide Decimal;
  }

  /** One line determines what it says of the segment, and where the next line starts. */
  lemma SegmentLineInjective(
    n: nat, start: nat, end: nat, uri: string, sum: string, n': nat, start': nat, end': nat, uri': string, sum': string, x: string, y: string)
    requires NulFree(uri) && NulFree(uri') && LineFree(sum) && LineFree(sum')
    requires SegmentLine(n, start, end, uri, sum) + x == SegmentLine(n', start', end', uri', sum') + y
    ensures n == n' && start == start' && end == end' && uri == uri' && sum == sum' && x == y
  {
    hide Decimal, SegmentLine;
    SegmentLineSplits(n, start, end, uri, sum, x);
    SegmentLineSplits(n', start', end', uri', sum', y);
    var e, e' := sum + ("\n" + x), sum' + ("\n" + y);
    var d, d' := uri + ("\0" + e), uri' + ("\0" + e');
    var c, c' := Decimal(end) + ("\0" + d), Decimal(end') + ("\0" + d');
    var b, b' := Decimal(start) + ("\0" + c), Decimal(start') + ("\0" + c');
    NumberFirst(n, n', b, b');
    NumberFirst(start, start', c, c');
    NumberFirst(end, end', d, d');
    TextFirst('\0', uri, uri', e, e');
    TextFirst('\n', sum, sum', x, y);
  }
}
