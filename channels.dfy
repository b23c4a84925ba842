/** PWM channels of the PCA9685 and the firmware's index-to-channel resolution. */
module Channels {
  import opened Ints

  /** The sixteen outputs of the PWM generator plus the reserved "all channels" identifier. */
  datatype Channel =
    | C0 | C1 | C2 | C3 | C4 | C5 | C6 | C7
    | C8 | C9 | C10 | C11 | C12 | C13 | C14 | C15
    | All

  /** Motor index `v` drives channel `Cv`; any other index selects `All`. */
  function ChannelFrom(v: u8): (c: Channel)
    ensures c != All <==> v < 16
  {
    match v
    case 0 => C0
    case 1 => C1
    case 2 => C2
    case 3 => C3
    case 4 => C4
    case 5 => C5
    case 6 => C6
    case 7 => C7
    case 8 => C8
    case 9 => C9
    case 10 => C10
    case 11 => C11
    case 12 => C12
    case 13 => C13
    case 14 => C14
    case 15 => C15
    case _ => All
  }

  /** The number of a single channel: the inverse of ChannelFrom on 0..15. */
  function ChannelNumber(c: Channel): (n: nat)
    requires c != All
    ensures n < 16
  {
    match c
    case C0 => 0
    case C1 => 1
    case C2 => 2
    case C3 => 3
    case C4 => 4
    case C5 => 5
    case C6 => 6
    case C7 => 7
    case C8 => 8
    case C9 => 9
    case C10 => 10
    case C11 => 11
    case C12 => 12
    case C13 => 13
    case C14 => 14
    case C15 => 15
  }

  /** Indices 0..15 resolve to a single channel whose number is the index. */
  lemma ChannelFromMotor(v: u8)
    requires v < 16
    ensures ChannelFrom(v) != All
    ensures ChannelNumber(ChannelFrom(v)) == v
  {
  }

  /** Every single channel is reached by exactly its own index. */
  lemma ChannelFromNumber(c: Channel)
    requires c != All
    ensures ChannelFrom(ChannelNumber(c)) == c
  {
  }

  /** Indices 16 and above resolve to `All`. */
  lemma ChannelFromOutOfRange(v: u8)
    requires v >= 16
    ensures ChannelFrom(v) == All
  {
  }

  /** Distinct motor indices drive distinct channels. */
  lemma ChannelFromInjective(v: u8, w: u8)
    requires v < 16 && w < 16 && v != w
    ensures ChannelFrom(v) != ChannelFrom(w)
  {
    ChannelFromMotor(v);
    ChannelFromMotor(w);
  }
}
