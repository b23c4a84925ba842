/**
 * One pass of the firmware's main loop: refresh the sixteen distances, show them on the
 * display, then drive each motor from its distance.
 */
module ScanLoop {
  import opened Ints
  import opened Sensor
  import opened Sampler
  import opened Actuation
  import opened Grid
  import opened Wrappers

  /**
   * One iteration of the main loop. `shown` is the text handed to the display. The motors
   * are driven from exactly the distances read in this pass, and the text on the display
   * reads back as those same distances.
   */
  method ScanStep(tof: Tof, pwm: Pca9685, distances: array<u16>) returns (shown: string)
    requires distances.Length == 16
    requires AcceptedCount(tof.statusScript) >= 16 && |tof.readingScript| >= 16
    requires pwm.Valid()
    modifies tof, pwm, distances
    ensures distances[..] == old(tof.readingScript)[..16]
    ensures tof.readingScript == old(tof.readingScript)[16..]
    ensures tof.log == old(tof.log) + ScanCommands(old(tof.statusScript), 16)
    ensures tof.statusScript == Unread(old(tof.statusScript), 16)
    ensures tof.ranging && tof.roiCenter == TofCenters[15]
    ensures shown == StringifyDistances(distances[..])
    ensures ParseGrid(shown) == Some(distances[..])
    ensures pwm.Valid()
    ensures pwm.offTicks == MotorStrengths(distances[..])
    ensures pwm.onTicks == seq(16, _ => 0)
    ensures pwm.writes == old(pwm.writes) + ActuationWrites(distances[..])
  {
    UpdateDistances(tof, distances);
    shown := StringifyDistances(distances[..]);
    UpdateVibrationStrength(pwm, distances[..]);
  }
}
