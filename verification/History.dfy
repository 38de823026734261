/** Runs as histories: which calls of a run commit, and what the states along it satisfy. */
module History {
  import opened Basics
  import opened Domain
  import opened System
  import Reachability

  ghost predicate Commits(cfg: Config, t: Tables, c: Command) { Exec(cfg, t, c).Ok? }

  /** The tables that call `n` of a run from the empty database finds. */
  ghost function Before(cfg: Config, cs: seq<Command>, n: nat): Tables
    requires n < |cs|
  {
    Run(cfg, EMPTY, cs[..n])
  }

  /** Call `n` of the run commits. */
  ghost predicate CommitsAt(cfg: Config, cs: seq<Command>, n: nat) { n < |cs| && Commits(cfg, Before(cfg, cs, n), cs[n]) }

  /** Some call of the run is one of those, and commits. */
  ghost predicate Happened(cfg: Config, cs: seq<Command>, calls: Command -> bool) {
    exists n: nat :: n < |cs| && CommitsAt(cfg, cs, n) && calls(cs[n])
  }

  lemma PrefixCommits(cfg: Config, cs: seq<Command>, m: nat, n: nat)
    requires n < m <= |cs|
    ensures cs[..m][n] == cs[n] && Before(cfg, cs[..m], n) == Before(cfg, cs, n) && (CommitsAt(cfg, cs[..m], n) <==> CommitsAt(cfg, cs, n))
  {
    hide Run, Commits;
    assert cs[..m][..n] == cs[..n];
  }

  lemma HappenedNext(cfg: Config, cs: seq<Command>, calls: Command -> bool)
    requires cs != []
    ensures var n := |cs| - 1;
      Happened(cfg, cs, calls) <==> Happened(cfg, cs[..n], calls) || (CommitsAt(cfg, cs, n) && calls(cs[n]))
  {
    hide Run, Commits, CommitsAt, Before;
    var n := |cs| - 1;
    if Happened(cfg, cs[..n], calls) {
      var k: nat :| k < n && CommitsAt(cfg, cs[..n], k) && calls(cs[..n][k]);
      PrefixCommits(cfg, cs, n, k);
    }
    if Happened(cfg, cs, calls) {
      var k: nat :| k < |cs| && CommitsAt(cfg, cs, k) && calls(cs[k]);
      if k < n { PrefixCommits(cfg, cs, n, k); }
    }
  }

  lemma NothingHappened(cfg: Config, calls: Command -> bool)
    ensures !Happened(cfg, [], calls)
  {
  }

  lemma RefusedWritesNothing(cfg: Config, t: Tables, c: Command)
    ensures After(cfg, t, c) == if Commits(cfg, t, c) then Exec(cfg, t, c).value else t
  {
    hide Exec;
  }

  lemma InvAlong(cfg: Config, cs: seq<Command>)
    ensures Inv(Run(cfg, EMPTY, cs)) && Reachable(cfg, Run(cfg, EMPTY, cs))
  {
    hide Inv, Run;
    Reachability.EmptyOk();
    Reachability.RunInv(cfg, EMPTY, cs);
  }
}
