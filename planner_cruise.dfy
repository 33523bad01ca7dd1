/** The cruise-target aggregation of `FrogPilotPlanner.update_v_cruise`
    (selfdrive/frogpilot/controls/frogpilot_planner.py, lines 149-159). */
module PlannerCruise {
  import opened Common

  /** Line 157: every candidate at or below the cruising speed is replaced
      by the requested cruise speed; the others are kept in place. */
  function FilterTargets(targets: seq<real>, vCruise: real, cruisingSpeed: real): (r: seq<real>)
    ensures |r| == |targets|
    ensures forall i :: 0 <= i < |r| ==> r[i] > cruisingSpeed || r[i] == vCruise
    ensures forall i :: 0 <= i < |r| && targets[i] > cruisingSpeed ==> r[i] == targets[i]
    ensures forall i :: 0 <= i < |r| && targets[i] <= cruisingSpeed ==> r[i] == vCruise
  {
    seq(|targets|, i requires 0 <= i < |targets| => if targets[i] > cruisingSpeed then targets[i] else vCruise)
  }

  /** Python's `min` over a list: the least element, or `ValueError` for
      an empty list. */
  function ListMin(xs: seq<real>): (r: Result<real>)
    ensures r.Failure? <==> xs == []
    ensures r.Failure? ==> r.error == ValueError
    ensures r.Success? ==> r.value in xs
    ensures r.Success? ==> forall i :: 0 <= i < |xs| ==> r.value <= xs[i]
  {
    if xs == [] then Failure(ValueError)
    else if |xs| == 1 then Success(xs[0])
    else
      var rest := ListMin(xs[1..]);
      assert xs == [xs[0]] + xs[1..];
      Success(Min(xs[0], rest.value))
  }

  /** The aggregation rule of lines 157-159 over any candidate list: the
      least filtered candidate. The requested cruise speed itself is not a
      candidate, so it bounds the result only through replaced entries, and
      an empty list fails. */
  function AggregateTargets(targets: seq<real>, vCruise: real, cruisingSpeed: real): (r: Result<real>)
    ensures r == Failure(ValueError) <==> targets == []
    ensures r.Success? ==> r.value == vCruise || r.value > cruisingSpeed
    ensures r.Success? ==> exists i :: 0 <= i < |targets| && r.value == FilterTargets(targets, vCruise, cruisingSpeed)[i]
    ensures r.Success? ==> forall i :: 0 <= i < |targets| && targets[i] > cruisingSpeed ==> r.value <= targets[i]
    ensures r.Success? ==> (exists i :: 0 <= i < |targets| && targets[i] <= cruisingSpeed) ==> r.value <= vCruise
  {
    var filtered := FilterTargets(targets, vCruise, cruisingSpeed);
    ListMin(filtered)
  }

  /** `update_v_cruise` as written: its candidate list (line 156) is empty,
      so the `min` of line 159 always raises `ValueError`. */
  function UpdateVCruise(vCruise: real, cruisingSpeed: real): (r: Result<real>)
    ensures r == Failure(ValueError)
  {
    AggregateTargets([], vCruise, cruisingSpeed)
  }

  /** The requested cruise speed is not itself a candidate: one valid
      target above it wins, where a rule that also took the requested speed
      into the minimum would return the requested speed. */
  lemma CruiseSpeedNotACandidate()
    ensures AggregateTargets([12.0], 10.0, 5.0) == Success(12.0)
    ensures AggregateTargets([3.0], 10.0, 5.0) == Success(10.0)
    ensures AggregateTargets([12.0, 8.0], 10.0, 5.0) == Success(8.0)
  {
    assert FilterTargets([12.0], 10.0, 5.0) == [12.0];
    assert FilterTargets([3.0], 10.0, 5.0) == [10.0];
    assert FilterTargets([12.0, 8.0], 10.0, 5.0) == [12.0, 8.0];
  }
}
