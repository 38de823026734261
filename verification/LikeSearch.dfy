/** Searching drafts by name: escaping a search text for SQL `LIKE`, and what the pattern then matches. */
module LikeSearch {
  import opened Capacity

  // ---- Escaping ----

  /** `strings.ReplaceAll`. */
  function ReplaceAll(s: string, old_: string, new_: string): string
    requires old_ != ""
  {
    if |s| < |old_| then s
    else if old_ <= s then new_ + ReplaceAll(s[|old_|..], old_, new_)
    else [s[0]] + ReplaceAll(s[1..], old_, new_)
  }

  /** The three replacements, one after the other. */
  function EscapeLike(s: string): string {
    ReplaceAll(ReplaceAll(ReplaceAll(s, "\\", "\\\\"), "%", "\\%"), "_", "\\_")
  }

  predicate Special(c: char) { c == '\\' || c == '%' || c == '_' }

  function EscapeChar(c: char): string { if Special(c) then ['\\', c] else [c] }

  /** One pass that puts a backslash before every special character. */
  function Escape(s: string): string {
    if s == "" then "" else EscapeChar(s[0]) + Escape(s[1..])
  }

  lemma ReplaceHead(s: string, c: char, r: string)
    ensures ReplaceAll(s, [c], r) == if s == "" then "" else (if s[0] == c then r else [s[0]]) + ReplaceAll(s[1..], [c], r)
  {
    if s != "" { assert s[..1] == [s[0]]; }
  }

  /** Replacing a single character works piece by piece. */
  lemma {:induction false} ReplaceConcat(a: string, b: string, c: char, r: string)
    ensures ReplaceAll(a + b, [c], r) == ReplaceAll(a, [c], r) + ReplaceAll(b, [c], r)
  {
    hide ReplaceAll;
    ReplaceHead(a, c, r);
    if a == "" {
      assert a + b == b;
    } else {
      ReplaceConcat(a[1..], b, c, r);
      ReplaceHead(a + b, c, r);
      assert (a + b)[1..] == a[1..] + b;
    }
  }

  lemma ReplaceOne(x: char, c: char, r: string)
    ensures ReplaceAll([x], [c], r) == if x == c then r else [x]
  {
    hide ReplaceAll;
    ReplaceHead([x], c, r);
    ReplaceHead("", c, r);
    assert [x][1..] == "";
  }

  lemma EscapeLikeConcat(a: string, b: string)
    ensures EscapeLike(a + b) == EscapeLike(a) + EscapeLike(b)
  {
    hide ReplaceAll;
    ReplaceConcat(a, b, '\\', "\\\\");
    var a1, b1 := ReplaceAll(a, "\\", "\\\\"), ReplaceAll(b, "\\", "\\\\");
    ReplaceConcat(a1, b1, '%', "\\%");
    ReplaceConcat(ReplaceAll(a1, "%", "\\%"), ReplaceAll(b1, "%", "\\%"), '_', "\\_");
  }

  lemma EscapeLikeOne(x: char)
    ensures EscapeLike([x]) == EscapeChar(x)
  {
    hide ReplaceAll;
    ReplaceOne(x, '\\', "\\\\");
    ReplaceOne(x, '%', "\\%");
    ReplaceOne(x, '_', "\\_");
    ReplaceOne('\\', '%', "\\%");
    ReplaceOne('\\', '_', "\\_");
    ReplaceOne('%', '_', "\\_");
    assert "\\\\" == ['\\'] + ['\\'] && "\\%" == ['\\'] + ['%'];
    ReplaceConcat(['\\'], ['\\'], '%', "\\%");
    ReplaceConcat(['\\'], ['\\'], '_', "\\_");
    ReplaceConcat(['\\'], ['%'], '_', "\\_");
  }

  /** The chained replacements equal the one-pass escape. */
  lemma {:induction false} EscapeLikeIsOnePass(s: string)
    ensures EscapeLike(s) == Escape(s)
  {
    if s != "" {
      assert s == [s[0]] + s[1..];
      EscapeLikeConcat([s[0]], s[1..]);
      EscapeLikeOne(s[0]);
      EscapeLikeIsOnePass(s[1..]);
    }
  }

  // ---- Matching ----

  /** `LIKE` compares ASCII letters without regard to case. */
  predicate Same(a: char, b: char) { LowerChar(a) == LowerChar(b) }

  /** `s LIKE p ESCAPE '\'`. */
  predicate Like(p: string, s: string)
    decreases |p| + |s|
  {
    if p == "" then s == ""
    else if p[0] == '%' then Like(p[1..], s) || (s != "" && Like(p, s[1..]))
    else if p[0] == '_' then s != "" && Like(p[1..], s[1..])
    else if p[0] == '\\' then |p| > 1 && s != "" && Same(p[1], s[0]) && Like(p[2..], s[1..])
    else s != "" && Same(p[0], s[0]) && Like(p[1..], s[1..])
  }

  predicate LowerCase(s: string) { forall k :: 0 <= k < |s| ==> !('A' <= s[k] <= 'Z') }

  predicate Contains(s: string, text: string) { exists k :: 0 <= k <= |s| && text <= s[k..] }

  lemma {:induction false} PercentMatchesAll(s: string)
    ensures Like("%", s)
  {
    if s == "" {
      assert "%"[1..] == "";
    } else {
      PercentMatchesAll(s[1..]);
    }
  }

  /** An escaped text in front of a pattern matches exactly itself. */
  lemma {:induction false} EscapedMatchesItself(text: string, p: string, s: string)
    requires LowerCase(text) && LowerCase(s)
    ensures Like(Escape(text) + p, s) <==> text <= s && Like(p, s[|text|..])
  {
    if text == "" {
      assert Escape(text) + p == p;
    } else {
      var rest := Escape(text[1..]) + p;
      assert Escape(text) + p == EscapeChar(text[0]) + rest;
      assert (EscapeChar(text[0]) + rest)[|EscapeChar(text[0])|..] == rest;
      if s != "" {
        EscapedMatchesItself(text[1..], p, s[1..]);
        assert text == [text[0]] + text[1..] && s == [s[0]] + s[1..];
        assert text <= s <==> text[0] == s[0] && text[1..] <= s[1..];
        assert text <= s ==> s[1..][|text[1..]|..] == s[|text|..];
      }
    }
  }

  /** A leading percent sign lets the rest of the pattern match from any position on. */
  lemma {:induction false} PercentSkips(p: string, s: string)
    ensures Like("%" + p, s) <==> exists k :: 0 <= k <= |s| && Like(p, s[k..])
  {
    assert ("%" + p)[1..] == p && s[0..] == s;
    if s != "" {
      PercentSkips(p, s[1..]);
      assert forall k :: 0 <= k <= |s[1..]| ==> s[1..][k..] == s[k + 1..];
      if exists k :: 0 <= k <= |s| && Like(p, s[k..]) {
        var k :| 0 <= k <= |s| && Like(p, s[k..]);
        if k > 0 { assert s[1..][k - 1..] == s[k..]; }
      }
    }
  }

  lemma {:induction false} LowerIsLower(s: string)
    ensures LowerCase(Lower(s))
  {
    if s != "" { LowerIsLower(s[1..]); }
  }

  /** The search pattern matches a name exactly when the lower-cased name contains the lower-cased text literally. */
  lemma SearchIsContains(name: string, search: string)
    ensures Like("%" + EscapeLike(Lower(search)) + "%", Lower(name)) <==> Contains(Lower(name), Lower(search))
  {
    var s, text := Lower(name), Lower(search);
    LowerIsLower(name);
    LowerIsLower(search);
    EscapeLikeIsOnePass(text);
    hide Lower, EscapeLike, Like;
    assert "%" + EscapeLike(text) + "%" == "%" + (Escape(text) + "%");
    PercentSkips(Escape(text) + "%", s);
    forall k | 0 <= k <= |s|
      ensures Like(Escape(text) + "%", s[k..]) <==> text <= s[k..]
    {
      EscapedMatchesItself(text, "%", s[k..]);
      if text <= s[k..] { PercentMatchesAll(s[k..][|text|..]); }
    }
  }
}
