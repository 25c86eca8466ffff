/**
 * Logs of the callbacks a life receives, and the pairing discipline the
 * handlers keep: onBorn and onDie strictly alternate, starting with onBorn,
 * so the number of onBorn calls exceeds the number of onDie calls by one
 * exactly while the life is alive.
 */
module Pairing {
  import opened Wrappers
  import opened SavedState

  /** A callback made on a Life. */
  datatype Call = OnBorn | OnDie

  /** The callback a correctly paired log holds at position i. */
  function Expected(i: nat): Call
  {
    if i % 2 == 0 then OnBorn else OnDie
  }

  ghost predicate Alternating(log: seq<Call>)
  {
    forall i :: 0 <= i < |log| ==> log[i] == Expected(i)
  }

  /** The handler invariant: the log alternates and its parity is the alive flag. */
  ghost predicate Paired(log: seq<Call>, alive: bool)
  {
    Alternating(log) && alive == (|log| % 2 == 1)
  }

  /** Number of occurrences of c in the log. */
  function Count(log: seq<Call>, c: Call): (n: nat)
    ensures n <= |log|
    ensures n == 0 <==> c !in log
  {
    if log == [] then 0
    else
      var init := log[..|log| - 1];
      assert log == init + [log[|log| - 1]];
      Count(init, c) + (if log[|log| - 1] == c then 1 else 0)
  }

  lemma CountAppend(log: seq<Call>, x: Call, c: Call)
    ensures Count(log + [x], c) == Count(log, c) + (if x == c then 1 else 0)
  {
    assert (log + [x])[..|log|] == log;
  }

  /** Every call in a log is an onBorn or an onDie. */
  lemma {:induction false} CountSplit(log: seq<Call>)
    ensures Count(log, OnBorn) + Count(log, OnDie) == |log|
  {
    if log != [] {
      var init := log[..|log| - 1];
      assert log == init + [log[|log| - 1]];
      CountSplit(init);
    }
  }

  /** The numbers of onBorn and onDie calls of a paired log follow from its length. */
  lemma PairedCounts(log: seq<Call>, alive: bool)
    requires Paired(log, alive)
    ensures Count(log, OnBorn) == (|log| + 1) / 2
    ensures Count(log, OnDie) == |log| / 2
  {
    AlternatingBalance(log);
    CountSplit(log);
  }

  /** Dropping the last call of an alternating log leaves an alternating log. */
  lemma AlternatingInit(log: seq<Call>)
    requires Alternating(log) && log != []
    ensures Alternating(log[..|log| - 1])
  {
    var init := log[..|log| - 1];
    forall i | 0 <= i < |init| ensures init[i] == Expected(i) {
      assert init[i] == log[i];
    }
  }

  /** Appending the expected call keeps a log alternating. */
  lemma AlternatingSnoc(log: seq<Call>, c: Call)
    requires Alternating(log) && c == Expected(|log|)
    ensures Alternating(log + [c])
  {
    var l := log + [c];
    forall i | 0 <= i < |l| ensures l[i] == Expected(i) {
      if i < |log| {
        assert l[i] == log[i];
      }
    }
  }

  lemma ParityStep(n: nat)
    ensures (n + 1) % 2 == 1 - n % 2
  {
  }

  /** In an alternating log, onBorn is ahead of onDie by the log's parity. */
  lemma {:induction false} AlternatingBalance(log: seq<Call>)
    requires Alternating(log)
    ensures Count(log, OnBorn) == Count(log, OnDie) + |log| % 2
  {
    if log != [] {
      var n := |log| - 1;
      var init := log[..n];
      var last := log[n];
      AlternatingInit(log);
      AlternatingBalance(init);
      assert log == init + [last];
      CountAppend(init, last, OnBorn);
      CountAppend(init, last, OnDie);
      ParityStep(n);
      assert last == Expected(n);
    }
  }

  /** #onBorn - #onDie is 1 while alive and 0 otherwise. */
  lemma PairedBalance(log: seq<Call>, alive: bool)
    requires Paired(log, alive)
    ensures Count(log, OnBorn) - Count(log, OnDie) == if alive then 1 else 0
  {
    AlternatingBalance(log);
  }

  /** What a guarded born() adds to the log: onBorn, unless already alive. */
  function BornCalls(alive: bool): seq<Call>
  {
    if alive then [] else [OnBorn]
  }

  /** What a guarded die() adds to the log: onDie, only when alive. */
  function DieCalls(alive: bool): seq<Call>
  {
    if alive then [OnDie] else []
  }

  /** A guarded born keeps the pairing and leaves the life alive. */
  lemma BornKeepsPairing(log: seq<Call>, alive: bool)
    requires Paired(log, alive)
    ensures Paired(log + BornCalls(alive), true)
    ensures Count(log + BornCalls(alive), OnBorn) == Count(log, OnBorn) + (if alive then 0 else 1)
    ensures Count(log + BornCalls(alive), OnDie) == Count(log, OnDie)
  {
    if alive {
      assert log + BornCalls(alive) == log;
    } else {
      assert log + BornCalls(alive) == log + [OnBorn];
      AlternatingSnoc(log, OnBorn);
      CountAppend(log, OnBorn, OnBorn);
      CountAppend(log, OnBorn, OnDie);
    }
  }

  /** A guarded die keeps the pairing and leaves the life dead. */
  lemma DieKeepsPairing(log: seq<Call>, alive: bool)
    requires Paired(log, alive)
    ensures Paired(log + DieCalls(alive), false)
    ensures Count(log + DieCalls(alive), OnDie) == Count(log, OnDie) + (if alive then 1 else 0)
    ensures Count(log + DieCalls(alive), OnBorn) == Count(log, OnBorn)
  {
    if !alive {
      assert log + DieCalls(alive) == log;
    } else {
      assert log + DieCalls(alive) == log + [OnDie];
      AlternatingSnoc(log, OnDie);
      CountAppend(log, OnDie, OnBorn);
      CountAppend(log, OnDie, OnDie);
    }
  }

  /** A callback made on an ELife or ExtendedLife: born with a payload, or died returning one. */
  datatype PayloadCall = BornWith(payload: Option<Bundle>) | DiedWith(result: Bundle)

  function Kind(c: PayloadCall): Call
  {
    if c.BornWith? then OnBorn else OnDie
  }

  /** The log with the payloads forgotten. */
  function Kinds(log: seq<PayloadCall>): (r: seq<Call>)
    ensures |r| == |log|
  {
    if log == [] then []
    else Kinds(log[..|log| - 1]) + [Kind(log[|log| - 1])]
  }

  /** Forgetting payloads maps the log position by position. */
  lemma {:induction false} KindsAt(log: seq<PayloadCall>)
    ensures forall i :: 0 <= i < |log| ==> Kinds(log)[i] == Kind(log[i])
  {
    if log != [] {
      KindsAt(log[..|log| - 1]);
    }
  }

  lemma KindsAppend(log: seq<PayloadCall>, x: PayloadCall)
    ensures Kinds(log + [x]) == Kinds(log) + [Kind(x)]
  {
    assert (log + [x])[..|log|] == log;
  }

  /** The payload returned by the most recent onDie, if any. */
  function LastDied(log: seq<PayloadCall>): Option<Bundle>
  {
    if log == [] then None
    else if log[|log| - 1].DiedWith? then Some(log[|log| - 1].result)
    else LastDied(log[..|log| - 1])
  }

  /** The latest onDie payload occurs in the log, and is absent exactly when no onDie happened. */
  lemma {:induction false} LastDiedMeaning(log: seq<PayloadCall>)
    ensures LastDied(log).Some? ==> DiedWith(LastDied(log).value) in log
    ensures LastDied(log).None? <==> forall i :: 0 <= i < |log| ==> log[i].BornWith?
  {
    if log != [] && log[|log| - 1].BornWith? {
      var init := log[..|log| - 1];
      LastDiedMeaning(init);
      assert log == init + [log[|log| - 1]];
    }
  }

  lemma LastDiedAppend(log: seq<PayloadCall>, x: PayloadCall)
    ensures LastDied(log + [x]) == if x.DiedWith? then Some(x.result) else LastDied(log)
  {
    assert (log + [x])[..|log|] == log;
  }

  /** Payload logs obey the same pairing as plain logs. */
  ghost predicate PayloadPaired(log: seq<PayloadCall>, alive: bool)
  {
    Paired(Kinds(log), alive)
  }

  lemma PayloadBornKeepsPairing(log: seq<PayloadCall>, p: Option<Bundle>)
    requires PayloadPaired(log, false)
    ensures PayloadPaired(log + [BornWith(p)], true)
  {
    KindsAppend(log, BornWith(p));
    AlternatingSnoc(Kinds(log), OnBorn);
  }

  lemma PayloadDieKeepsPairing(log: seq<PayloadCall>, b: Bundle)
    requires PayloadPaired(log, true)
    ensures PayloadPaired(log + [DiedWith(b)], false)
    ensures LastDied(log + [DiedWith(b)]) == Some(b)
  {
    KindsAppend(log, DiedWith(b));
    AlternatingSnoc(Kinds(log), OnDie);
    LastDiedAppend(log, DiedWith(b));
  }
}
