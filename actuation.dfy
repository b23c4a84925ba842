/**
 * The actuation half of one scan: the sixteen distances become sixteen PWM writes to the
 * PCA9685, one per motor, in motor order. The controller is modelled by its per-channel
 * on/off tick registers and a ghost log of the writes it received; the I2C transfer and
 * the driver's register encoding are not modelled.
 */
module Actuation {
  import opened Ints
  import opened Channels
  import opened Vibration

  /** Largest on/off tick of the controller's 12-bit counter. */
  const MAX_TICK: u16 := 4095

  /** One `set_channel_on_off` call. */
  datatype ChannelWrite = ChannelWrite(channel: Channel, on: u16, off: u16)

  /** Sixteen tick registers, indexed by channel number. */
  predicate IsBank(regs: seq<u16>)
  {
    |regs| == 16
  }

  /** A register bank after `value` is written for `channel`: one register, or all sixteen for `All`. */
  function Store(regs: seq<u16>, channel: Channel, value: u16): (r: seq<u16>)
    requires IsBank(regs)
    ensures IsBank(r)
    ensures channel == All ==> forall i :: 0 <= i < 16 ==> r[i] == value
    ensures channel != All ==> r[ChannelNumber(channel)] == value
    ensures channel != All ==> forall i :: 0 <= i < 16 && i != ChannelNumber(channel) ==> r[i] == regs[i]
  {
    if channel == All then seq(16, _ => value) else regs[ChannelNumber(channel) := value]
  }

  class Pca9685 {
    /** On tick of each channel's output, by channel number. */
    var onTicks: seq<u16>
    /** Off tick of each channel's output, by channel number: the motor's vibration strength. */
    var offTicks: seq<u16>
    /** Every write received so far, in order. */
    ghost var writes: seq<ChannelWrite>

    ghost predicate Valid()
      reads this
    {
      IsBank(onTicks) && IsBank(offTicks)
    }

    constructor (on: seq<u16>, off: seq<u16>)
      requires IsBank(on) && IsBank(off)
      ensures Valid()
      ensures onTicks == on && offTicks == off && writes == []
    {
      onTicks := on;
      offTicks := off;
      writes := [];
    }

    /** Sets the output of `channel` (all channels for `All`) to rise at `on` and fall at `off`. */
    method SetChannelOnOff(channel: Channel, on: u16, off: u16)
      requires Valid()
      requires on <= MAX_TICK && off <= MAX_TICK
      modifies this
      ensures Valid()
      ensures onTicks == Store(old(onTicks), channel, on)
      ensures offTicks == Store(old(offTicks), channel, off)
      ensures writes == old(writes) + [ChannelWrite(channel, on, off)]
    {
      onTicks := Store(onTicks, channel, on);
      offTicks := Store(offTicks, channel, off);
      writes := writes + [ChannelWrite(channel, on, off)];
    }
  }

  /** The strength each motor is driven at for the distances `ds`, by motor index. */
  function MotorStrengths(ds: seq<u16>): (s: seq<u16>)
    requires |ds| == 16
    ensures IsBank(s)
    ensures forall i :: 0 <= i < 16 ==> s[i] <= MAX_STRENGTH
  {
    seq(16, i requires 0 <= i < 16 => VibrationStrengthFrom(ds[i]))
  }

  /**
   * The writes one actuation pass makes for the distances `ds`: one per motor, in motor order,
   * each to that motor's own channel, rising at tick 0 and falling well inside the 12-bit range.
   */
  function ActuationWrites(ds: seq<u16>): (ws: seq<ChannelWrite>)
    requires |ds| == 16
    ensures |ws| == 16
    ensures forall i :: 0 <= i < 16 ==>
      ws[i].channel != All && ChannelNumber(ws[i].channel) == i && ws[i].on == 0 && ws[i].off <= MAX_STRENGTH
  {
    seq(16, i requires 0 <= i < 16 => ChannelWrite(ChannelFrom(i), 0, VibrationStrengthFrom(ds[i])))
  }

  /** No motor channel is written twice in one pass, and the broadcast channel is never written. */
  lemma ActuationWritesDistinct(ds: seq<u16>)
    requires |ds| == 16
    ensures forall i :: 0 <= i < 16 ==> ActuationWrites(ds)[i].channel != All
    ensures forall i, j :: 0 <= i < j < 16 ==> ActuationWrites(ds)[i].channel != ActuationWrites(ds)[j].channel
  {
  }

  /**
   * One actuation pass: motor `idx` gets the strength of `distances[idx]` on channel `idx`.
   * Afterwards every motor's output rises at tick 0 and falls at its strength, whatever the
   * registers held before.
   */
  method UpdateVibrationStrength(pwm: Pca9685, distances: seq<u16>)
    requires |distances| == 16
    requires pwm.Valid()
    modifies pwm
    ensures pwm.Valid()
    ensures pwm.offTicks == MotorStrengths(distances)
    ensures pwm.onTicks == seq(16, _ => 0)
    ensures pwm.writes == old(pwm.writes) + ActuationWrites(distances)
  {
    ghost var writes0 := pwm.writes;
    ghost var plan := ActuationWrites(distances);
    ghost var strengths := MotorStrengths(distances);
    var idx: nat := 0;
    while idx < 16
      invariant idx <= 16 && pwm.Valid()
      invariant pwm.writes == writes0 + plan[..idx]
      invariant forall i :: 0 <= i < idx ==> pwm.offTicks[i] == strengths[i] && pwm.onTicks[i] == 0
    {
      var channel := ChannelFrom(idx as u8);
      var strength := VibrationStrengthFrom(distances[idx]);
      ChannelFromMotor(idx);
      pwm.SetChannelOnOff(channel, 0, strength);
      assert plan[..idx + 1] == plan[..idx] + [plan[idx]];
      idx := idx + 1;
    }
    assert plan[..16] == plan;
  }

  /** Readings from the end of the ramp up to 32776 mm leave every motor still. */
  lemma FarReadingsAreSilent(ds: seq<u16>)
    requires |ds| == 16
    requires forall i :: 0 <= i < 16 ==> FAR_LIMIT <= ds[i] <= 32776
    ensures MotorStrengths(ds) == seq(16, _ => 0)
  {
    forall i | 0 <= i < 16
      ensures MotorStrengths(ds)[i] == 0
    {
      BeyondRampStrength(ds[i]);
    }
  }

  /** An obstacle at 500 mm in every region drives every motor at 533 ticks. */
  lemma UniformObstacle()
    ensures MotorStrengths(seq(16, _ => 500)) == seq(16, _ => 533)
  {
    KnownStrengths();
  }

  /**
   * A closer obstacle in one region never weakens its motor while both readings are on the
   * ramp, and leaves every other motor unchanged.
   */
  lemma CloserObstacleStrengthens(ds: seq<u16>, idx: nat, closer: u16)
    requires |ds| == 16 && idx < 16
    requires 9 <= closer <= ds[idx] <= FAR_LIMIT
    ensures MotorStrengths(ds[idx := closer])[idx] >= MotorStrengths(ds)[idx]
    ensures forall i :: 0 <= i < 16 && i != idx ==> MotorStrengths(ds[idx := closer])[i] == MotorStrengths(ds)[i]
  {
    RampMonotone(closer, ds[idx]);
  }
}
