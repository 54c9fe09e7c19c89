/**
 * The volume-delta resolver of `on_message` (main.py): turns the feed's
 * cumulative traded volume into a per-tick volume, using the global
 * `previous_total_volume` as its only state.
 */
module VolumeDelta {

  /** The tick's volume, whether the tick goes on to the aggregators, and the next `previous_total_volume`. */
  datatype Resolution = Resolution(delta: int, process: bool, nextPrevious: int)

  /**
   * While `previous` is 0 (the bootstrap, and again whenever a total of 0 was
   * stored) the delta is the total if positive, else the last traded quantity.
   * Otherwise it is the rise of the total, or the last traded quantity when the
   * total fell. A tick with no positive delta outside the bootstrap is
   * dropped and does not update `previous`.
   */
  function Resolve(previous: int, totalVolume: int, lastQty: int): (r: Resolution)
    ensures r.process <==> previous == 0 || r.delta > 0
    ensures r.nextPrevious == (if r.process then totalVolume else previous)
    ensures previous == 0 ==> r.delta == (if totalVolume > 0 then totalVolume else lastQty)
    ensures previous != 0 && totalVolume >= previous ==> r.delta == totalVolume - previous
    ensures previous != 0 && totalVolume < previous ==> r.delta == lastQty
  {
    var delta :=
      if previous == 0 then (if totalVolume > 0 then totalVolume else lastQty)
      else if totalVolume - previous < 0 then lastQty
      else totalVolume - previous;
    if delta <= 0 && previous != 0 then Resolution(delta, false, previous)
    else Resolution(delta, true, totalVolume)
  }

  datatype Reading = Reading(totalVolume: int, lastQty: int)

  /** The sum of the deltas handed on, and the final `previous`, after resolving `readings` in order. */
  function ResolveRun(previous: int, readings: seq<Reading>): (int, int)
    decreases |readings|
  {
    if readings == [] then (0, previous)
    else
      var r := Resolve(previous, readings[0].totalVolume, readings[0].lastQty);
      var rest := ResolveRun(r.nextPrevious, readings[1..]);
      ((if r.process then r.delta else 0) + rest.0, rest.1)
  }

  predicate NonDecreasingFrom(previous: int, readings: seq<Reading>)
  {
    (readings != [] ==> previous <= readings[0].totalVolume)
    && forall i :: 0 <= i < |readings| - 1 ==> readings[i].totalVolume <= readings[i + 1].totalVolume
  }

  /**
   * After the bootstrap (a positive `previous`), a run of non-decreasing
   * cumulative volumes hands on deltas that telescope: they sum to the last
   * total minus the first, and `previous` ends at the last total.
   */
  lemma {:induction false} DeltasTelescope(previous: int, readings: seq<Reading>)
    requires 0 < previous && NonDecreasingFrom(previous, readings)
    ensures var last := if readings == [] then previous else readings[|readings| - 1].totalVolume;
      ResolveRun(previous, readings) == (last - previous, last)
    decreases |readings|
  {
    if readings != [] {
      var r := Resolve(previous, readings[0].totalVolume, readings[0].lastQty);
      assert r.nextPrevious == readings[0].totalVolume;
      var rest := readings[1..];
      assert NonDecreasingFrom(r.nextPrevious, rest) by {
        forall i | 0 <= i < |rest| - 1 ensures rest[i].totalVolume <= rest[i + 1].totalVolume {
          assert rest[i] == readings[i + 1] && rest[i + 1] == readings[i + 2];
        }
      }
      DeltasTelescope(r.nextPrevious, rest);
    }
  }

  /** A fall of the cumulative volume after the bootstrap never hands on a delta of its own making: only a positive last traded quantity goes through. */
  lemma RollbackUsesLastQuantity(previous: int, totalVolume: int, lastQty: int)
    requires previous != 0 && totalVolume < previous
    ensures var r := Resolve(previous, totalVolume, lastQty);
      r.delta == lastQty && (r.process <==> lastQty > 0)
  {
  }
}
