/**
 * The distance sampler: for each motor index in turn it re-aims the sensor's region of
 * interest, busy-polls until a measurement is classified, and stores the distance in
 * that index's slot of the distance array.
 */
module Sampler {
  import opened Ints
  import opened Sensor

  /** SPAD centres of the sensor's region of interest, ordered by motor index (4 x 4, row-major). */
  const TofCenters: seq<u8> := [
    10, 42, 74, 106,
    14, 46, 78, 110,
    245, 213, 181, 149,
    241, 209, 177, 145
  ]

  /** One centre per motor, and no two motors share a centre. */
  lemma TofCentersTable()
    ensures |TofCenters| == 16
    ensures forall i, j :: 0 <= i < j < |TofCenters| ==> TofCenters[i] != TofCenters[j]
  {
  }

  /** How many replies in `s` let the sampler take a distance. */
  function AcceptedCount(s: seq<StatusReply>): nat
  {
    if s == [] then 0 else (if Accepted(s[0]) then 1 else 0) + AcceptedCount(s[1..])
  }

  /**
   * Number of replies before the first accepted one: the busy-wait polls one more than
   * this. `|s|` when `s` holds no accepted reply.
   */
  function FirstAccepted(s: seq<StatusReply>): (k: nat)
    ensures k <= |s|
  {
    if |s| == 0 || Accepted(s[0]) then 0 else 1 + FirstAccepted(s[1..])
  }

  /** The busy-wait stops at the first accepted reply and at no earlier one. */
  lemma {:induction false} FirstAcceptedIsFirst(s: seq<StatusReply>)
    ensures FirstAccepted(s) < |s| ==> Accepted(s[FirstAccepted(s)])
    ensures forall j :: 0 <= j < FirstAccepted(s) ==> !Accepted(s[j])
  {
    if |s| > 0 && !Accepted(s[0]) {
      FirstAcceptedIsFirst(s[1..]);
      assert forall j :: 1 <= j < FirstAccepted(s) ==> s[j] == s[1..][j - 1];
    }
  }

  /** The replies left after one slot's busy-wait has read through the first accepted one. */
  function AfterSlot(s: seq<StatusReply>): seq<StatusReply>
  {
    if FirstAccepted(s) < |s| then s[FirstAccepted(s) + 1..] else []
  }

  /** A script holding an accepted reply ends one slot's busy-wait and loses one accepted reply. */
  lemma {:induction false} AfterSlotCount(s: seq<StatusReply>)
    requires AcceptedCount(s) > 0
    ensures FirstAccepted(s) < |s|
    ensures AcceptedCount(AfterSlot(s)) == AcceptedCount(s) - 1
  {
    if !Accepted(s[0]) {
      AfterSlotCount(s[1..]);
      assert AfterSlot(s[1..]) == AfterSlot(s);
    }
  }

  /** `n` range-status polls. */
  function Polls(n: nat): (p: seq<Command>)
    ensures |p| == n && forall j :: 0 <= j < n ==> p[j] == GetRangeStatus
  {
    seq(n, _ => GetRangeStatus)
  }

  /** What the sensor receives while slot `idx` is filled after `polls` polls. */
  function SlotCommands(idx: nat, polls: nat): seq<Command>
    requires idx < 16
  {
    [StopRanging, SetRoiCenter(TofCenters[idx]), StartRanging] + Polls(polls) + [ClearInterrupt, GetDistance]
  }

  /** The status replies still unread once the first `n` slots are filled from script `s`. */
  function Unread(s: seq<StatusReply>, n: nat): seq<StatusReply>
    requires n <= 16
  {
    if n == 0 then s else AfterSlot(Unread(s, n - 1))
  }

  /** The commands the sensor receives while the first `n` slots are filled from script `s`. */
  function ScanCommands(s: seq<StatusReply>, n: nat): seq<Command>
    requires n <= 16
  {
    if n == 0 then [] else ScanCommands(s, n - 1) + SlotCommands(n - 1, FirstAccepted(Unread(s, n - 1)) + 1)
  }

  lemma AppendAssociative<T>(a: seq<T>, b: seq<T>, c: seq<T>)
    ensures (a + b) + c == a + (b + c)
  {
  }

  /** Filling `n` slots uses up `n` accepted replies. */
  lemma {:induction false} UnreadCount(s: seq<StatusReply>, n: nat)
    requires n <= 16 && AcceptedCount(s) >= n
    ensures AcceptedCount(Unread(s, n)) == AcceptedCount(s) - n
  {
    if n > 0 {
      UnreadCount(s, n - 1);
      AfterSlotCount(Unread(s, n - 1));
    }
  }

  /**
   * One slot of the sampler: re-aim the region of interest at this motor's centre,
   * busy-poll until an accepted status, then clear the interrupt and read the distance.
   * Polls answered with any other status, or with a bus error, only poll again.
   */
  method SampleSlot(tof: Tof, idx: nat) returns (dist: u16)
    requires idx < 16
    requires AcceptedCount(tof.statusScript) > 0 && tof.readingScript != []
    modifies tof
    ensures dist == old(tof.readingScript)[0]
    ensures tof.readingScript == old(tof.readingScript)[1..]
    ensures tof.statusScript == AfterSlot(old(tof.statusScript))
    ensures tof.log == old(tof.log) + SlotCommands(idx, FirstAccepted(old(tof.statusScript)) + 1)
    ensures tof.ranging && tof.roiCenter == TofCenters[idx]
  {
    ghost var slotLog := tof.log;
    tof.StopRanging();
    tof.SetRoiCenter(TofCenters[idx]);
    tof.StartRanging();
    ghost var slotScript := tof.statusScript;
    AfterSlotCount(slotScript);
    FirstAcceptedIsFirst(slotScript);
    ghost var polls: nat := 0;
    while true
      invariant polls <= FirstAccepted(slotScript) < |slotScript|
      invariant tof.statusScript == slotScript[polls..]
      invariant forall j :: 0 <= j < polls ==> !Accepted(slotScript[j])
      invariant tof.log == slotLog + [StopRanging, SetRoiCenter(TofCenters[idx]), StartRanging] + Polls(polls)
      invariant tof.readingScript == old(tof.readingScript)
      invariant tof.ranging && tof.roiCenter == TofCenters[idx]
      decreases |tof.statusScript|
    {
      var reply := tof.GetRangeStatus();
      assert Polls(polls + 1) == Polls(polls) + [GetRangeStatus];
      polls := polls + 1;
      if Accepted(reply) {
        tof.ClearInterrupt();
        dist := tof.GetDistance();
        break;
      }
    }
    assert FirstAccepted(slotScript) + 1 == polls;
    assert tof.statusScript == AfterSlot(slotScript);
  }

  /**
   * The sensor once slots 0..idx-1 are filled, starting from status script `s0`,
   * distance script `r0` and command log `log0`.
   */
  ghost predicate SensorAfter(tof: Tof, idx: nat, s0: seq<StatusReply>, r0: seq<u16>, log0: seq<Command>)
    reads tof
  {
    && idx <= 16
    && AcceptedCount(s0) >= 16
    && |r0| >= 16
    && tof.log == log0 + ScanCommands(s0, idx)
    && tof.statusScript == Unread(s0, idx)
    && tof.readingScript == r0[idx..]
    && (idx > 0 ==> tof.ranging && tof.roiCenter == TofCenters[idx - 1])
  }

  /** Slot `idx` of the sampler's loop, from the sensor's side: yields that slot's distance. */
  method NextDistance(tof: Tof, idx: nat, ghost s0: seq<StatusReply>, ghost r0: seq<u16>, ghost log0: seq<Command>)
    returns (dist: u16)
    requires idx < 16 && SensorAfter(tof, idx, s0, r0, log0)
    modifies tof
    ensures SensorAfter(tof, idx + 1, s0, r0, log0)
    ensures dist == r0[idx]
  {
    UnreadCount(s0, idx);
    ghost var cmds, rest := ScanCommands(s0, idx), Unread(s0, idx);
    ghost var slot := SlotCommands(idx, FirstAccepted(rest) + 1);
    AppendAssociative(log0, cmds, slot);
    dist := SampleSlot(tof, idx);
    assert r0[idx..][1..] == r0[idx + 1..];
  }

  /**
   * Refreshes all sixteen distances, slot by slot in motor order.
   * The status script must hold an accepted reply for every slot: the firmware's busy-wait
   * has no other way to end.
   */
  method UpdateDistances(tof: Tof, distances: array<u16>)
    requires distances.Length == 16
    requires AcceptedCount(tof.statusScript) >= 16
    requires |tof.readingScript| >= 16
    modifies tof, distances
    ensures distances[..] == old(tof.readingScript)[..16]
    ensures tof.readingScript == old(tof.readingScript)[16..]
    ensures tof.log == old(tof.log) + ScanCommands(old(tof.statusScript), 16)
    ensures tof.statusScript == Unread(old(tof.statusScript), 16)
    ensures tof.ranging && tof.roiCenter == TofCenters[15]
  {
    ghost var s0, r0, log0 := tof.statusScript, tof.readingScript, tof.log;
    var idx: nat := 0;
    while idx < 16
      invariant SensorAfter(tof, idx, s0, r0, log0)
      invariant forall i {:trigger distances[i]} :: 0 <= i < idx ==> distances[i] == r0[i]
    {
      distances[idx] := NextDistance(tof, idx, s0, r0, log0);
      idx := idx + 1;
    }
  }

  /** `c` itself when it aims the region of interest or reads a distance, else nothing. */
  function Milestone(c: Command): seq<Command>
  {
    if c.SetRoiCenter? || c.GetDistance? then [c] else []
  }

  /** The commands that aim the region of interest or read a distance, in order. */
  function Milestones(cmds: seq<Command>): seq<Command>
  {
    if |cmds| == 0 then [] else Milestone(cmds[0]) + Milestones(cmds[1..])
  }

  lemma {:induction false} MilestonesAppend(a: seq<Command>, b: seq<Command>)
    ensures Milestones(a + b) == Milestones(a) + Milestones(b)
  {
    if |a| == 0 {
      assert a + b == b;
    } else {
      calc {
        Milestones(a + b);
        { assert (a + b)[0] == a[0] && (a + b)[1..] == a[1..] + b; }
        Milestone(a[0]) + Milestones(a[1..] + b);
        { MilestonesAppend(a[1..], b); }
        Milestone(a[0]) + (Milestones(a[1..]) + Milestones(b));
        { AppendAssociative(Milestone(a[0]), Milestones(a[1..]), Milestones(b)); }
        Milestones(a) + Milestones(b);
      }
    }
  }

  lemma MilestonesOfThree(a: Command, b: Command, c: Command)
    ensures Milestones([a, b, c]) == Milestone(a) + Milestone(b) + Milestone(c)
  {
    assert [a, b, c][1..] == [b, c];
    MilestonesOfTwo(b, c);
  }

  lemma MilestonesOfTwo(a: Command, b: Command)
    ensures Milestones([a, b]) == Milestone(a) + Milestone(b)
  {
    assert [a, b][1..] == [b];
    MilestonesOfOne(b);
  }

  lemma MilestonesOfOne(c: Command)
    ensures Milestones([c]) == Milestone(c)
  {
    assert [c][1..] == [];
  }

  /** The status polls of a busy-wait neither aim nor read. */
  lemma {:induction false} PollsHaveNoMilestones(n: nat)
    ensures Milestones(Polls(n)) == []
  {
    if n > 0 {
      assert Polls(n)[1..] == Polls(n - 1);
      PollsHaveNoMilestones(n - 1);
    }
  }

  /** A slot aims at its own centre once and then reads one distance, whatever the busy-wait. */
  lemma SlotMilestones(idx: nat, polls: nat)
    requires idx < 16
    ensures Milestones(SlotCommands(idx, polls)) == [SetRoiCenter(TofCenters[idx]), GetDistance]
  {
    var head: seq<Command> := [StopRanging, SetRoiCenter(TofCenters[idx]), StartRanging];
    var tail: seq<Command> := [ClearInterrupt, GetDistance];
    MilestonesAppend(head + Polls(polls), tail);
    MilestonesAppend(head, Polls(polls));
    PollsHaveNoMilestones(polls);
    MilestonesOfThree(StopRanging, SetRoiCenter(TofCenters[idx]), StartRanging);
    MilestonesOfTwo(ClearInterrupt, GetDistance);
  }

  lemma MilestonesAfterSlot(cmds: seq<Command>, idx: nat, polls: nat)
    requires idx < 16
    ensures Milestones(cmds + SlotCommands(idx, polls))
         == Milestones(cmds) + [SetRoiCenter(TofCenters[idx]), GetDistance]
  {
    MilestonesAppend(cmds, SlotCommands(idx, polls));
    SlotMilestones(idx, polls);
  }

  /** Aim at centre 0, read, aim at centre 1, read, ..., for the first `n` motors. */
  function AimThenRead(n: nat): seq<Command>
    requires n <= 16
  {
    if n == 0 then [] else AimThenRead(n - 1) + [SetRoiCenter(TofCenters[n - 1]), GetDistance]
  }

  /** `AimThenRead(n)` alternates: its `2i`-th entry aims at motor `i`'s centre, the next reads. */
  lemma {:induction false} AimThenReadShape(n: nat)
    requires n <= 16
    ensures |AimThenRead(n)| == 2 * n
    ensures forall i :: 0 <= i < n ==>
      AimThenRead(n)[2 * i] == SetRoiCenter(TofCenters[i]) && AimThenRead(n)[2 * i + 1] == GetDistance
  {
    if n > 0 {
      var prev := AimThenRead(n - 1);
      var last := [SetRoiCenter(TofCenters[n - 1]), GetDistance];
      AimThenReadShape(n - 1);
      assert |prev| == 2 * n - 2;
      forall i | 0 <= i < n
        ensures AimThenRead(n)[2 * i] == SetRoiCenter(TofCenters[i])
        ensures AimThenRead(n)[2 * i + 1] == GetDistance
      {
        if i < n - 1 {
          assert (prev + last)[2 * i] == prev[2 * i];
          assert (prev + last)[2 * i + 1] == prev[2 * i + 1];
        } else {
          assert (prev + last)[2 * i] == last[0];
          assert (prev + last)[2 * i + 1] == last[1];
        }
      }
    }
  }

  /**
   * However the busy-waits go, the sensor is re-aimed before every read and each motor's
   * centre is read exactly once, in motor order.
   */
  lemma {:induction false} ScanMilestones(s: seq<StatusReply>, n: nat)
    requires n <= 16
    ensures Milestones(ScanCommands(s, n)) == AimThenRead(n)
  {
    if n > 0 {
      ScanMilestones(s, n - 1);
      MilestonesAfterSlot(ScanCommands(s, n - 1), n - 1, FirstAccepted(Unread(s, n - 1)) + 1);
    }
  }

  /** How many range-status polls `cmds` holds. */
  function PollCount(cmds: seq<Command>): nat
  {
    if |cmds| == 0 then 0 else (if cmds[0].GetRangeStatus? then 1 else 0) + PollCount(cmds[1..])
  }

  lemma {:induction false} PollCountAppend(a: seq<Command>, b: seq<Command>)
    ensures PollCount(a + b) == PollCount(a) + PollCount(b)
  {
    if |a| == 0 {
      assert a + b == b;
    } else {
      assert (a + b)[0] == a[0] && (a + b)[1..] == a[1..] + b;
      PollCountAppend(a[1..], b);
    }
  }

  lemma PollCountOfThree(a: Command, b: Command, c: Command)
    ensures PollCount([a, b, c]) == PollCount([a]) + PollCount([b]) + PollCount([c])
  {
    assert [a, b, c][1..] == [b, c];
    PollCountOfTwo(b, c);
    PollCountOfOne(a);
  }

  lemma PollCountOfTwo(a: Command, b: Command)
    ensures PollCount([a, b]) == PollCount([a]) + PollCount([b])
  {
    assert [a, b][1..] == [b];
    PollCountOfOne(a);
    PollCountOfOne(b);
  }

  lemma PollCountOfOne(c: Command)
    ensures PollCount([c]) == if c.GetRangeStatus? then 1 else 0
  {
    assert [c][1..] == [];
  }

  lemma {:induction false} PollCountPolls(n: nat)
    ensures PollCount(Polls(n)) == n
  {
    if n > 0 {
      assert Polls(n)[1..] == Polls(n - 1);
      PollCountPolls(n - 1);
    }
  }

  /** The only polls of a slot are those of its busy-wait. */
  lemma SlotPollCount(idx: nat, polls: nat)
    requires idx < 16
    ensures PollCount(SlotCommands(idx, polls)) == polls
  {
    var aim := SetRoiCenter(TofCenters[idx]);
    var head: seq<Command> := [StopRanging, aim, StartRanging];
    var tail: seq<Command> := [ClearInterrupt, GetDistance];
    PollCountAppend(head + Polls(polls), tail);
    PollCountAppend(head, Polls(polls));
    PollCountPolls(polls);
    PollCountOfThree(StopRanging, aim, StartRanging);
    PollCountOfOne(StopRanging);
    PollCountOfOne(aim);
    PollCountOfOne(StartRanging);
    PollCountOfTwo(ClearInterrupt, GetDistance);
    PollCountOfOne(ClearInterrupt);
    PollCountOfOne(GetDistance);
  }

  /** Each status reply the sampler reads answers exactly one poll: none is skipped or read twice. */
  lemma {:induction false} ScanPollCount(s: seq<StatusReply>, n: nat)
    requires n <= 16 && AcceptedCount(s) >= n
    ensures PollCount(ScanCommands(s, n)) == |s| - |Unread(s, n)|
  {
    if n > 0 {
      var cmds, rest := ScanCommands(s, n - 1), Unread(s, n - 1);
      var polls := FirstAccepted(rest) + 1;
      ScanPollCount(s, n - 1);
      UnreadCount(s, n - 1);
      AfterSlotCount(rest);
      PollCountAppend(cmds, SlotCommands(n - 1, polls));
      SlotPollCount(n - 1, polls);
      assert |AfterSlot(rest)| == |rest| - polls;
    }
  }
}
