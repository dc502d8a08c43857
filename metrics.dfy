/** The surfboard metrics of the Pyramid service: a metric record, an
    in-memory manager that hands out ids from a class-level counter, and
    the surfer's status enumeration. */
module Metrics {
  import opened Wrappers
  import opened Ids

  /** `SurferStatus`, in declaration order. */
  datatype SurferStatus = Idle | Paddling | Riding | RideFinished | WipedOut
  {
    /** The member's `value`. */
    function Value(): (v: int)
      ensures 0 <= v <= 4
    {
      match this
      case Idle => 0
      case Paddling => 1
      case Riding => 2
      case RideFinished => 3
      case WipedOut => 4
    }

    /** The member's `name`, by which `SurferStatus[name]` finds it. */
    function Name(): string
    {
      match this
      case Idle => "IDLE"
      case Paddling => "PADDLING"
      case Riding => "RIDING"
      case RideFinished => "RIDE_FINISHED"
      case WipedOut => "WIPED_OUT"
    }
  }

  /** The members in declaration order, as iterating the enumeration yields them. */
  const SurferStatuses: seq<SurferStatus> := [Idle, Paddling, Riding, RideFinished, WipedOut]

  /** `SurferStatus(value)`; `None` where the enumeration raises `ValueError`. */
  function SurferStatusFromValue(value: int): (r: Option<SurferStatus>)
    ensures r.Some? <==> 0 <= value <= 4
    ensures r.Some? ==> r.value.Value() == value
  {
    match value
    case 0 => Some(Idle)
    case 1 => Some(Paddling)
    case 2 => Some(Riding)
    case 3 => Some(RideFinished)
    case 4 => Some(WipedOut)
    case _ => None
  }

  /** `SurferStatus[name]`; `None` where the enumeration raises `KeyError`. */
  function SurferStatusFromName(name: string): (r: Option<SurferStatus>)
    ensures r.Some? ==> r.value.Name() == name
  {
    if name == "IDLE" then Some(Idle)
    else if name == "PADDLING" then Some(Paddling)
    else if name == "RIDING" then Some(Riding)
    else if name == "RIDE_FINISHED" then Some(RideFinished)
    else if name == "WIPED_OUT" then Some(WipedOut)
    else None
  }

  /** The enumeration has exactly five members, numbered 0..4 in
      declaration order: IDLE, PADDLING, RIDING, RIDE_FINISHED, WIPED_OUT. */
  lemma SurferStatusesNumberedInOrder(s: SurferStatus)
    ensures |SurferStatuses| == 5
    ensures forall i :: 0 <= i < |SurferStatuses| ==> SurferStatuses[i].Value() == i
    ensures s == SurferStatuses[s.Value()]
  {
  }

  /** Looking a member up by its value, or by its name, finds that member;
      so the five values are distinct and so are the five names. */
  lemma SurferStatusLookupRoundTrip(s: SurferStatus)
    ensures SurferStatusFromValue(s.Value()) == Some(s)
    ensures SurferStatusFromName(s.Name()) == Some(s)
  {
  }

  /** `SurfboardMetricModel`. The manager overwrites `id` when it stores the
      record; nothing reassigns the measurements, so they are constants. */
  class SurfboardMetricModel {
    var id: int
    const status: SurferStatus
    const speedInMph: int
    const altitudeInFeet: int
    const waterTemperatureInF: int

    /** A new metric has id 0 until a manager assigns one and keeps the
        given measurements as they are. */
    constructor (status: SurferStatus, speedInMph: int, altitudeInFeet: int, waterTemperatureInF: int)
      ensures id == 0
      ensures this.status == status && this.speedInMph == speedInMph
      ensures this.altitudeInFeet == altitudeInFeet && this.waterTemperatureInF == waterTemperatureInF
    {
      id := 0;
      this.status := status;
      this.speedInMph := speedInMph;
      this.altitudeInFeet := altitudeInFeet;
      this.waterTemperatureInF := waterTemperatureInF;
    }
  }

  class SurfboardMetricManager {
    /** The class-level `last_id`, shared with every other metric manager. */
    const counter: IdCounter
    /** The `metrics` dictionary, from id to record. */
    var metrics: map<int, SurfboardMetricModel>

    /** Every stored id was handed out by the counter, so it lies in
        1..last_id; in particular it is below every id handed out later. */
    ghost predicate Valid()
      reads this, counter
    {
      forall id :: id in metrics ==> 1 <= id <= counter.lastId
    }

    constructor (counter: IdCounter)
      ensures Valid()
      ensures this.counter == counter && metrics == map[]
    {
      this.counter := counter;
      metrics := map[];
    }

    /** `insert_metric`: bump the shared counter, stamp its value on the
        record and store the record under it. */
    method InsertMetric(metric: SurfboardMetricModel)
      requires Valid()
      modifies this, counter, metric`id
      ensures Valid()
      ensures counter.lastId == old(counter.lastId) + 1
      ensures metric.id == counter.lastId
      ensures metric.id !in old(metrics)
      ensures forall id :: id in old(metrics) ==> id < metric.id
      ensures metrics == old(metrics)[metric.id := metric]
    {
      counter.lastId := counter.lastId + 1;
      metric.id := counter.lastId;
      metrics := metrics[counter.lastId := metric];
    }

    /** `get_metric`: the record stored under `id`; a missing id raises
        `KeyError`. */
    method GetMetric(id: int) returns (r: Result<SurfboardMetricModel, KeyError>)
      ensures id in metrics ==> r == Success(metrics[id])
      ensures id !in metrics ==> r == Failure(KeyError(id))
    {
      if id in metrics {
        r := Success(metrics[id]);
      } else {
        r := Failure(KeyError(id));
      }
    }

    /** `delete_metric`: remove exactly the entry for `id`; a missing id
        raises `KeyError` and changes nothing. */
    method DeleteMetric(id: int) returns (outcome: Outcome<KeyError>)
      requires Valid()
      modifies this
      ensures Valid()
      ensures id in old(metrics) ==> outcome == Pass && metrics == old(metrics) - {id}
      ensures id !in old(metrics) ==> outcome == Fail(KeyError(id)) && metrics == old(metrics)
    {
      if id in metrics {
        metrics := metrics - {id};
        outcome := Pass;
      } else {
        outcome := Fail(KeyError(id));
      }
    }
  }

  /** A metric inserted through a manager is what a lookup of its new id
      returns. */
  method InsertedMetricIsFound(manager: SurfboardMetricManager, metric: SurfboardMetricModel)
    returns (lookup: Result<SurfboardMetricModel, KeyError>)
    requires manager.Valid()
    modifies manager, manager.counter, metric`id
    ensures metric.id == manager.counter.lastId
    ensures lookup == Success(metric)
  {
    manager.InsertMetric(metric);
    lookup := manager.GetMetric(metric.id);
  }

  /** Two managers share the class-level counter: after a metric inserted
      through one of them is deleted, an insert through the other gets the
      next id, never the deleted one, and the deleted id stays unknown. */
  method MetricIdsNeverReused(counter: IdCounter, first: SurfboardMetricModel, second: SurfboardMetricModel)
    returns (lookup: Result<SurfboardMetricModel, KeyError>)
    requires first != second
    modifies counter, first`id, second`id
    ensures second.id == first.id + 1 == counter.lastId
    ensures lookup == Failure(KeyError(first.id))
  {
    var one := new SurfboardMetricManager(counter);
    var other := new SurfboardMetricManager(counter);
    one.InsertMetric(first);
    var _ := one.DeleteMetric(first.id);
    other.InsertMetric(second);
    lookup := one.GetMetric(first.id);
  }
}
