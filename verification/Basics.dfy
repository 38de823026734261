/** Result types shared by every component, and the errors the services report. */
module Basics {
  datatype Option<+T> = None | Some(value: T)

  /** The sentinel errors of `internal/domain/errors.go`; `Storage` stands for a violated table constraint. */
  datatype Error =
    | Validation
    | NotFound
    | Forbidden
    | Precondition
    | Conflict
    | LeaseLost
    | IdempotencyConflict
    | Storage

  datatype Result<+T> = Ok(value: T) | Err(error: Error) {
    predicate IsFailure() { Err? }
    function PropagateFailure<U>(): Result<U>
      requires Err?
    {
      Err(error)
    }
    function Extract(): T
      requires Ok?
    {
      value
    }
  }

  type Id = string
  type Instant = int

  /** A strict order of times: how a guard decides that one time is before another. */
  type Comparison = (Instant, Instant) -> bool

  /** Comparing the instants themselves, as Go's `Before` does. */
  predicate Earlier(a: Instant, b: Instant) { a < b }

  const MAX_INT64: int := 0x7fff_ffff_ffff_ffff

  function Min(a: int, b: int): int { if a <= b then a else b }

  /** The white space of ASCII: the blank, and the control characters from tabulator to carriage return. */
  predicate IsSpace(c: char) { c == ' ' || 9 <= c as int <= 13 }

  /** `strings.TrimSpace`, for ASCII text. */
  function Trim(s: string): string {
    if s == "" then ""
    else if IsSpace(s[0]) then Trim(s[1..])
    else if IsSpace(s[|s| - 1]) then Trim(s[..|s| - 1])
    else s
  }

  predicate Blank(s: string) { Trim(s) == "" }

  lemma {:induction false} TrimEnds(s: string)
    ensures Trim(s) != "" ==> !IsSpace(Trim(s)[0]) && !IsSpace(Trim(s)[|Trim(s)| - 1])
    decreases |s|
  {
    hide IsSpace;
    if s != "" {
      if IsSpace(s[0]) { TrimEnds(s[1..]); } else if IsSpace(s[|s| - 1]) { TrimEnds(s[..|s| - 1]); }
    }
  }

  /** Trimming takes white space from both ends, and all of it. */
  lemma {:induction false} TrimIs(s: string) returns (i: nat, j: nat)
    ensures i <= j <= |s| && Trim(s) == s[i..j] && forall k :: 0 <= k < i || j <= k < |s| ==> IsSpace(s[k])
    ensures Trim(s) != "" ==> !IsSpace(Trim(s)[0]) && !IsSpace(Trim(s)[|Trim(s)| - 1])
    decreases |s|
  {
    hide IsSpace;
    TrimEnds(s);
    i, j := 0, |s|;
    if s != "" && IsSpace(s[0]) {
      i, j := TrimIs(s[1..]);
      i, j := i + 1, j + 1;
      assert forall k :: 0 < k < |s| ==> s[k] == s[1..][k - 1];
    } else if s != "" && IsSpace(s[|s| - 1]) {
      i, j := TrimIs(s[..|s| - 1]);
    }
  }
}
