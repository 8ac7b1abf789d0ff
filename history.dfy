/**
 * What the counter of one app means after many cycles: the number of checks
 * that found no slot since the last check that found one, with failed checks
 * not counted either way.
 */
module History {
  import opened Availability
  import opened Monitor

  /** The entry of one app after the given probes for it, one per cycle. */
  function TargetHistory(app: AppConfig, history: seq<Probe>): AppConfig
    decreases |history|
  {
    if |history| == 0 then app
    else Step(TargetHistory(app, history[..|history| - 1]), history[|history| - 1])
  }

  /** The probes of app `i` across all rounds. */
  function Column(rounds: seq<seq<Probe>>, i: nat): (column: seq<Probe>)
    requires forall k :: 0 <= k < |rounds| ==> i < |rounds[k]|
    ensures |column| == |rounds|
    ensures forall k :: 0 <= k < |rounds| ==> column[k] == rounds[k][i]
  {
    seq(|rounds|, k requires 0 <= k < |rounds| => rounds[k][i])
  }

  /** The number of checks in `history` that found no slot. */
  function Misses(history: seq<Probe>): nat
    decreases |history|
  {
    if |history| == 0 then 0
    else Misses(history[..|history| - 1]) + (if IsUnavailable(history[|history| - 1]) then 1 else 0)
  }

  /** Over many cycles, entry `i` of the registry evolves on its own, driven only by its own probes. */
  lemma {:induction false} RoundsAt(apps: seq<AppConfig>, rounds: seq<seq<Probe>>, m: nat, i: nat)
    requires m <= |rounds| && Uniform(rounds, |apps|)
    requires i < |apps|
    ensures Rounds(apps, rounds, m)[i] == TargetHistory(apps[i], Column(rounds, i)[..m])
  {
    if m > 0 {
      RoundsAt(apps, rounds, m - 1, i);
      assert Column(rounds, i)[..m][..m - 1] == Column(rounds, i)[..m - 1];
    }
  }

  /** Name and URL never change, and a non-negative counter stays non-negative. */
  lemma {:induction false} HistoryKeepsIdentity(app: AppConfig, history: seq<Probe>)
    ensures TargetHistory(app, history).name == app.name
    ensures TargetHistory(app, history).url == app.url
    ensures app.noSlotCount >= 0 ==> TargetHistory(app, history).noSlotCount >= 0
    decreases |history|
  {
    if |history| > 0 {
      HistoryKeepsIdentity(app, history[..|history| - 1]);
    }
  }

  /**
   * After the last check that found a slot (at `j`), the counter equals the
   * number of later checks that found none.
   */
  lemma {:induction false} CountSinceLastAvailable(app: AppConfig, history: seq<Probe>, j: nat)
    requires j < |history| && IsAvailable(history[j])
    requires forall k :: j < k < |history| ==> !IsAvailable(history[k])
    ensures TargetHistory(app, history).noSlotCount == Misses(history[j + 1..])
    decreases |history|
  {
    var n := |history|;
    if j < n - 1 {
      var before := history[..n - 1];
      CountSinceLastAvailable(app, before, j);
      assert history[j + 1..][..n - 1 - (j + 1)] == before[j + 1..];
    } else {
      assert history[j + 1..] == [];
    }
  }

  /** While no check finds a slot, the counter grows by the number of checks that found none. */
  lemma {:induction false} CountWithoutAvailable(app: AppConfig, history: seq<Probe>)
    requires forall k :: 0 <= k < |history| ==> !IsAvailable(history[k])
    ensures TargetHistory(app, history).noSlotCount == app.noSlotCount + Misses(history)
    decreases |history|
  {
    if |history| > 0 {
      CountWithoutAvailable(app, history[..|history| - 1]);
    }
  }

  /** Checks that keep finding no slot raise the counter by one each, without bound. */
  lemma {:induction false} CountGrowsWithoutBound(app: AppConfig, history: seq<Probe>)
    requires forall k :: 0 <= k < |history| ==> IsUnavailable(history[k])
    ensures TargetHistory(app, history).noSlotCount == app.noSlotCount + |history|
    decreases |history|
  {
    if |history| > 0 {
      CountGrowsWithoutBound(app, history[..|history| - 1]);
    }
  }

  /**
   * After the last cycle whose check of app `i` found a slot (cycle `j`), its
   * counter is the number of later misses, whatever it was at the start.
   */
  lemma CounterSinceLastSlot(apps: seq<AppConfig>, rounds: seq<seq<Probe>>, i: nat, j: nat)
    requires Uniform(rounds, |apps|) && i < |apps|
    requires j < |rounds| && IsAvailable(rounds[j][i])
    requires forall k :: j < k < |rounds| ==> !IsAvailable(rounds[k][i])
    ensures Rounds(apps, rounds, |rounds|)[i].noSlotCount == Misses(Column(rounds, i)[j + 1..])
  {
    var column := Column(rounds, i);
    RoundsAt(apps, rounds, |rounds|, i);
    assert column[..|rounds|] == column;
    CountSinceLastAvailable(apps[i], column, j);
  }

  /** In a registry that starts at zero, an app never found with a free slot has counted all its misses. */
  lemma CounterWithoutSlot(apps: seq<AppConfig>, rounds: seq<seq<Probe>>, i: nat)
    requires Uniform(rounds, |apps|) && i < |apps| && apps[i].noSlotCount == 0
    requires forall k :: 0 <= k < |rounds| ==> !IsAvailable(rounds[k][i])
    ensures Rounds(apps, rounds, |rounds|)[i].noSlotCount == Misses(Column(rounds, i))
  {
    var column := Column(rounds, i);
    RoundsAt(apps, rounds, |rounds|, i);
    assert column[..|rounds|] == column;
    CountWithoutAvailable(apps[i], column);
  }
}
