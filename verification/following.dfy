/** Following a script step by step, for as long as the process lives. */
module Following {
  import opened Protocol

  /** From w, with n steps to live, the script was followed to its end or to the process's: now w' and n' are left. */
  ghost predicate Followed(w: World, n: nat, script: seq<Action>, w': World, n': nat) {
    w' == Play(w, Take(script, n)) && n' == if n < |script| then 0 else n - |script|
  }

  lemma NothingFollowed(w: World, n: nat)
    ensures Followed(w, n, [], w, n)
  {
  }

  /** A process still alive goes on from where it is. */
  lemma Then(w: World, n: nat, a: seq<Action>, w1: World, n1: nat, b: seq<Action>, w2: World, n2: nat)
    requires Followed(w, n, a, w1, n1) && 0 < n1 && Followed(w1, n1, b, w2, n2)
    ensures Followed(w, n, a + b, w2, n2) && w1 == Play(w, a)
  {
    assert Take(a, n) == a && n1 == n - |a|;
    assert Take(a + b, n) == a + Take(b, n1);
    PlayConcat(w, a, Take(b, n1));
  }

  /** A process that has died has followed every script it was in the middle of. */
  lemma Died(w: World, n: nat, a: seq<Action>, w1: World, rest: seq<Action>)
    requires Followed(w, n, a, w1, 0)
    ensures Followed(w, n, a + rest, w1, 0)
  {
    assert Take(a + rest, n) == Take(a, n);
  }

  lemma DeadFollowsAnything(w: World, script: seq<Action>)
    ensures Followed(w, 0, script, w, 0)
  {
  }

  lemma TakeFirst(a: Action, rest: seq<Action>, n: nat)
    requires 0 < n
    ensures Take([a] + rest, n) == [a] + Take(rest, n - 1)
  {
  }

  /** Some of the whole script has been followed, and the rest of it lies ahead. */
  ghost predicate Midway(w: World, n: nat, all: seq<Action>, done: seq<Action>, w1: World, n1: nat, rest: seq<Action>) {
    Followed(w, n, done, w1, n1) && done + rest == all
  }

  lemma MidwayStarts(w: World, n: nat, all: seq<Action>)
    ensures Midway(w, n, all, [], w, n, all)
  {
    NothingFollowed(w, n);
  }

  lemma SkipTheDone(done: seq<Action>, first: seq<Action>, rest: seq<Action>)
    ensures done + (first + rest) == (done + first) + rest
  {
  }

  /** The part was followed, and whoever is left can go on with the rest. */
  lemma MidwayStep(
    w: World, n: nat, all: seq<Action>, done: seq<Action>, w1: World, n1: nat, first: seq<Action>, rest: seq<Action>, w2: World, n2: nat)
    requires 0 < n1 && Midway(w, n, all, done, w1, n1, first + rest) && Followed(w1, n1, first, w2, n2)
    ensures Midway(w, n, all, done + first, w2, n2, rest)
    ensures n2 == 0 ==> Followed(w, n, all, w2, n2)
    ensures 0 < n2 ==> w2 == Play(w1, first)
  {
    hide Followed;
    Then(w, n, done, w1, n1, first, w2, n2);
    SkipTheDone(done, first, rest);
    if n2 == 0 {
      Died(w, n, done + first, w2, rest);
    } else {
      Survived(w1, n1, first, w2, n2);
    }
  }

  /** A process that outlives a script has played all of it. */
  lemma Survived(w: World, n: nat, script: seq<Action>, w1: World, n1: nat)
    requires Followed(w, n, script, w1, n1) && 0 < n1
    ensures w1 == Play(w, script)
  {
    assert Take(script, n) == script;
  }

  lemma MidwayEnds(
    w: World, n: nat, all: seq<Action>, done: seq<Action>, w1: World, n1: nat, rest: seq<Action>, w2: World, n2: nat)
    requires 0 < n1 && Midway(w, n, all, done, w1, n1, rest) && Followed(w1, n1, rest, w2, n2)
    ensures Followed(w, n, all, w2, n2)
  {
    hide Followed;
    Then(w, n, done, w1, n1, rest, w2, n2);
  }
}
