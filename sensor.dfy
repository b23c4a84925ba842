/**
 * The VL53L1X time-of-flight sensor as the sampler sees it: an object that is told to
 * stop and start ranging and where to centre its region of interest, that answers
 * range-status polls and distance reads. The driver's internals are not modelled:
 * its replies come from scripts supplied when the object is created, and every
 * command it receives is appended to a ghost log.
 */
module Sensor {
  import opened Ints

  /** Outcome classes of one measurement attempt. */
  datatype RangeStatus =
    | Valid
    | SignalFailure
    | MinRangeFail
    | Pending       // no measurement ready yet
    | OtherFailure  // every other failure class the driver reports

  /** A reply to a range-status poll: a status, or a bus error (`Err` from the driver). */
  datatype StatusReply = Reading(status: RangeStatus) | BusError

  /** The replies after which the sampler takes the distance: Valid, SignalFailure, MinRangeFail. */
  predicate Accepted(reply: StatusReply)
  {
    reply.Reading? && (reply.status == Valid || reply.status == SignalFailure || reply.status == MinRangeFail)
  }

  /** Commands the sampler issues to the sensor. */
  datatype Command =
    | StopRanging
    | SetRoiCenter(spad: u8)
    | StartRanging
    | GetRangeStatus
    | ClearInterrupt
    | GetDistance

  class Tof {
    /** Whether a ranging session is running. */
    var ranging: bool
    /** SPAD index of the current region-of-interest centre. */
    var roiCenter: u8
    /** Replies still to come for range-status polls, in order. */
    var statusScript: seq<StatusReply>
    /** Distances (mm) still to come for distance reads, in order. */
    var readingScript: seq<u16>
    /** Every command received so far, in order. */
    ghost var log: seq<Command>

    constructor (roi: u8, statuses: seq<StatusReply>, readings: seq<u16>)
      ensures !ranging && roiCenter == roi
      ensures statusScript == statuses && readingScript == readings
      ensures log == []
    {
      ranging := false;
      roiCenter := roi;
      statusScript := statuses;
      readingScript := readings;
      log := [];
    }

    method StopRanging()
      modifies this
      ensures !ranging && roiCenter == old(roiCenter)
      ensures statusScript == old(statusScript) && readingScript == old(readingScript)
      ensures log == old(log) + [Command.StopRanging]
    {
      ranging := false;
      log := log + [Command.StopRanging];
    }

    method SetRoiCenter(spad: u8)
      modifies this
      ensures ranging == old(ranging) && roiCenter == spad
      ensures statusScript == old(statusScript) && readingScript == old(readingScript)
      ensures log == old(log) + [Command.SetRoiCenter(spad)]
    {
      roiCenter := spad;
      log := log + [Command.SetRoiCenter(spad)];
    }

    method StartRanging()
      modifies this
      ensures ranging && roiCenter == old(roiCenter)
      ensures statusScript == old(statusScript) && readingScript == old(readingScript)
      ensures log == old(log) + [Command.StartRanging]
    {
      ranging := true;
      log := log + [Command.StartRanging];
    }

    /** Answers with the next scripted status reply. */
    method GetRangeStatus() returns (reply: StatusReply)
      requires statusScript != []
      modifies this
      ensures reply == old(statusScript)[0]
      ensures ranging == old(ranging) && roiCenter == old(roiCenter)
      ensures statusScript == old(statusScript)[1..] && readingScript == old(readingScript)
      ensures log == old(log) + [Command.GetRangeStatus]
    {
      reply := statusScript[0];
      statusScript := statusScript[1..];
      log := log + [Command.GetRangeStatus];
    }

    method ClearInterrupt()
      modifies this
      ensures ranging == old(ranging) && roiCenter == old(roiCenter)
      ensures statusScript == old(statusScript) && readingScript == old(readingScript)
      ensures log == old(log) + [Command.ClearInterrupt]
    {
      log := log + [Command.ClearInterrupt];
    }

    /** Answers with the next scripted distance. */
    method GetDistance() returns (dist: u16)
      requires readingScript != []
      modifies this
      ensures dist == old(readingScript)[0]
      ensures ranging == old(ranging) && roiCenter == old(roiCenter)
      ensures statusScript == old(statusScript) && readingScript == old(readingScript)[1..]
      ensures log == old(log) + [Command.GetDistance]
    {
      dist := readingScript[0];
      readingScript := readingScript[1..];
      log := log + [Command.GetDistance];
    }
  }
}
