/**
 * SLife: a Life that syncs other lives with its own lifecycle. It keeps an
 * insertion-ordered set of child lives; its onBorn reaches every child, its
 * onDie reaches every child and then forgets them all, and a child synced
 * while the SLife is alive is born at once.
 */
module SyncedLives {
  import opened Pairing

  /** The identity of a child Life; the child itself is outside the model. */
  type LifeId = nat

  /** A callback made on one child. */
  datatype ChildCall = ChildCall(child: LifeId, call: Call)

  predicate NoDuplicates(s: seq<LifeId>)
  {
    forall i, j :: 0 <= i < j < |s| ==> s[i] != s[j]
  }

  /** The calls `lives.forEach { it.c() }` makes, in iteration order. */
  function Fanout(lives: seq<LifeId>, c: Call): (r: seq<ChildCall>)
    ensures |r| == |lives|
  {
    if lives == [] then []
    else Fanout(lives[..|lives| - 1], c) + [ChildCall(lives[|lives| - 1], c)]
  }

  /** `forEach` makes one call per child, in iteration order. */
  lemma {:induction false} FanoutAt(lives: seq<LifeId>, c: Call)
    ensures forall i :: 0 <= i < |lives| ==> Fanout(lives, c)[i] == ChildCall(lives[i], c)
  {
    if lives != [] {
      FanoutAt(lives[..|lives| - 1], c);
    }
  }

  /** The calls one child received, in order. */
  function CallsTo(log: seq<ChildCall>, x: LifeId): (r: seq<Call>)
    ensures |r| <= |log|
  {
    if log == [] then []
    else
      var init := log[..|log| - 1];
      var last := log[|log| - 1];
      CallsTo(init, x) + (if last.child == x then [last.call] else [])
  }

  lemma CallsToAppend(a: seq<ChildCall>, b: seq<ChildCall>, x: LifeId)
    ensures CallsTo(a + b, x) == CallsTo(a, x) + CallsTo(b, x)
    decreases |b|
  {
    if b != [] {
      var init := b[..|b| - 1];
      assert (a + b)[..|a + b| - 1] == a + init;
      CallsToAppend(a, init, x);
    } else {
      assert a + b == a;
    }
  }

  /** A fan-out over distinct lives reaches each of them exactly once, and nobody else. */
  lemma {:induction false} FanoutReachesEachOnce(lives: seq<LifeId>, c: Call, x: LifeId)
    requires NoDuplicates(lives)
    ensures CallsTo(Fanout(lives, c), x) == if x in lives then [c] else []
  {
    if lives != [] {
      var init := lives[..|lives| - 1];
      var last := lives[|lives| - 1];
      assert lives == init + [last];
      assert NoDuplicates(init);
      FanoutReachesEachOnce(init, c, x);
      var f := Fanout(lives, c);
      assert f[..|f| - 1] == Fanout(init, c);
      if x == last {
        assert x !in init;
      } else {
        assert x in lives <==> x in init;
      }
    }
  }

  /** A born fan-out followed by a die fan-out over the same distinct lives pairs every child once. */
  lemma BornThenDiePairsEachChild(lives: seq<LifeId>, x: LifeId)
    requires NoDuplicates(lives)
    ensures CallsTo(Fanout(lives, OnBorn) + Fanout(lives, OnDie), x)
      == if x in lives then [OnBorn, OnDie] else []
  {
    CallsToAppend(Fanout(lives, OnBorn), Fanout(lives, OnDie), x);
    FanoutReachesEachOnce(lives, OnBorn, x);
    FanoutReachesEachOnce(lives, OnDie, x);
  }

  lemma FanoutSnoc(lives: seq<LifeId>, i: nat, c: Call)
    requires i < |lives|
    ensures Fanout(lives[..i + 1], c) == Fanout(lives[..i], c) + [ChildCall(lives[i], c)]
  {
    assert lives[..i + 1][..i] == lives[..i];
  }

  class SLife {
    var isAlive: bool
    var lives: seq<LifeId>        // a LinkedHashSet: distinct, in insertion order
    var calls: seq<ChildCall>     // the calls made on the children, in order

    ghost predicate Valid()
      reads this
    {
      NoDuplicates(lives)
    }

    constructor ()
      ensures Valid() && !isAlive && lives == [] && calls == []
    {
      isAlive := false;
      lives := [];
      calls := [];
    }

    /**
     * sync: adds the child unless already present (added says which), and
     * borns it at once if this life is alive, whether or not it was new.
     */
    method Sync(child: LifeId) returns (added: bool)
      requires Valid()
      modifies this`lives, this`calls
      ensures Valid()
      ensures added <==> child !in old(lives)
      ensures lives == if added then old(lives) + [child] else old(lives)
      ensures calls == old(calls) + (if isAlive then [ChildCall(child, Call.OnBorn)] else [])
    {
      added := child !in lives;
      if added {
        lives := lives + [child];
      }
      if isAlive {
        calls := calls + [ChildCall(child, Call.OnBorn)];
      }
    }

    /** onBorn: when dead, becomes alive and borns every child in order. */
    method OnBorn()
      requires Valid()
      modifies this`isAlive, this`calls
      ensures Valid() && isAlive && lives == old(lives)
      ensures calls == old(calls) + (if old(isAlive) then [] else Fanout(lives, Call.OnBorn))
    {
      if !isAlive {
        isAlive := true;
        var i := 0;
        while i < |lives|
          invariant 0 <= i <= |lives| && isAlive
          invariant calls == old(calls) + Fanout(lives[..i], Call.OnBorn)
        {
          FanoutSnoc(lives, i, Call.OnBorn);
          calls := calls + [ChildCall(lives[i], Call.OnBorn)];
          i := i + 1;
        }
        assert lives[..|lives|] == lives;
      }
    }

    /** onDie: when alive, becomes dead, kills every child in order and forgets them. */
    method OnDie()
      requires Valid()
      modifies this`isAlive, this`lives, this`calls
      ensures Valid() && !isAlive
      ensures lives == if old(isAlive) then [] else old(lives)
      ensures calls == old(calls) + (if old(isAlive) then Fanout(old(lives), Call.OnDie) else [])
    {
      if isAlive {
        isAlive := false;
        var i := 0;
        while i < |lives|
          invariant 0 <= i <= |lives| && !isAlive && lives == old(lives)
          invariant calls == old(calls) + Fanout(lives[..i], Call.OnDie)
        {
          FanoutSnoc(lives, i, Call.OnDie);
          calls := calls + [ChildCall(lives[i], Call.OnDie)];
          i := i + 1;
        }
        assert lives[..|lives|] == lives;
        lives := [];
      }
    }
  }

  /** A child synced before the SLife is born is not born. */
  method SyncBeforeBorn(child: LifeId) returns (calls: seq<ChildCall>)
    ensures calls == []
  {
    var s := new SLife();
    var added := s.Sync(child);
    calls := s.calls;
  }

  /** A child synced after the SLife is born is born exactly once. */
  method SyncAfterBorn(child: LifeId) returns (toChild: seq<Call>)
    ensures toChild == [OnBorn]
  {
    var s := new SLife();
    s.OnBorn();
    var added := s.Sync(child);
    toChild := CallsTo(s.calls, child);
  }

  /** A child synced after born then killed with the SLife receives onBorn then onDie, once each. */
  method SyncAfterBornThenDie(child: LifeId) returns (toChild: seq<Call>)
    ensures toChild == [OnBorn, OnDie]
  {
    var s := new SLife();
    s.OnBorn();
    var added := s.Sync(child);
    assert s.calls == [ChildCall(child, OnBorn)] && s.lives == [child] && s.isAlive;
    s.OnDie();
    assert Fanout([child], OnDie) == [ChildCall(child, OnDie)];
    var log := s.calls;
    assert log == [ChildCall(child, OnBorn), ChildCall(child, OnDie)];
    BornDieReachesChild(child);
    toChild := CallsTo(log, child);
  }

  lemma BornDieReachesChild(x: LifeId)
    ensures CallsTo([ChildCall(x, OnBorn), ChildCall(x, OnDie)], x) == [OnBorn, OnDie]
  {
    var log := [ChildCall(x, OnBorn), ChildCall(x, OnDie)];
    assert log[..1] == [ChildCall(x, OnBorn)];
    assert log[..1][..0] == [];
  }

  /**
   * Two children synced before born: after born and die each one (and no
   * other life) has received exactly onBorn then onDie, even when both syncs
   * name the same child.
   */
  method SyncTwoThenBornDie(a: LifeId, b: LifeId, x: LifeId) returns (toX: seq<Call>)
    ensures toX == if x == a || x == b then [OnBorn, OnDie] else []
  {
    var s := new SLife();
    var addedA := s.Sync(a);
    var addedB := s.Sync(b);
    var lives := s.lives;
    assert lives == if a == b then [a] else [a, b];
    assert x in lives <==> x == a || x == b;
    assert s.calls == [] && !s.isAlive && NoDuplicates(lives);
    s.OnBorn();
    var born := s.calls;
    assert born == Fanout(lives, OnBorn) && s.lives == lives && s.isAlive;
    s.OnDie();
    assert s.calls == born + Fanout(lives, OnDie);
    BornThenDiePairsEachChild(lives, x);
    toX := CallsTo(s.calls, x);
  }
}
