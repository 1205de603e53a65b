/** The relayer's decision logic (`signing/ibc/relayer.rs`): which client info and channel a
    packet event belongs to and how the packet is normalised, when a client is due for an
    automatic update, and which chain each task writes to. Client infos are identified by
    their position in the relayer's list, and every remote query result is a parameter. */
module Relayer {
  import opened Wrappers
  import opened Text
  import opened IbcTypes
  import opened ChainConfig
  import Events
  import opened IbcEvents

  // ---------------------------------------------------------------------------
  // Time

  const NANOS_PER_SEC: nat := 1_000_000_000

  /** Rust's `std::time::Duration`: whole seconds and a sub-second nanosecond part. */
  datatype Duration = Duration(secs: nat, nanos: nat)

  predicate ValidDuration(d: Duration) {
    d.secs < U64_LIMIT && d.nanos < NANOS_PER_SEC
  }

  function DurationNanos(d: Duration): nat {
    d.secs * NANOS_PER_SEC + d.nanos
  }

  /** `Duration::checked_div(3)`, which always succeeds: whole seconds divided, and the
      seconds remainder carried into the nanoseconds before their division. */
  function DivThree(d: Duration): (r: Duration)
    requires ValidDuration(d)
    ensures ValidDuration(r)
    ensures DurationNanos(r) == DurationNanos(d) / 3
  {
    var extraSecs := d.secs % 3;
    var extraNanos := d.nanos % 3;
    var nanos := d.nanos / 3 + (extraSecs * NANOS_PER_SEC + extraNanos) / 3;
    Duration(d.secs / 3, nanos)
  }

  /** `stale_duration`: a third of the side's trusting period (its doc comment says two
      thirds, the code divides by three). */
  function StaleDuration(trustingPeriod: Duration): (r: Duration)
    requires ValidDuration(trustingPeriod)
    ensures ValidDuration(r)
    ensures 3 * DurationNanos(r) <= DurationNanos(trustingPeriod) < 3 * DurationNanos(r) + 3
  {
    DivThree(trustingPeriod)
  }

  /** A protobuf `Timestamp`: `i64` seconds and `i32` nanoseconds. */
  datatype Timestamp = Timestamp(seconds: int, nanos: int)

  predicate NormalTimestamp(t: Timestamp) {
    0 <= t.nanos < NANOS_PER_SEC
  }

  function TimestampNanos(t: Timestamp): int {
    t.seconds * NANOS_PER_SEC + t.nanos
  }

  /** `is_past_update_height`: the block time is strictly after the next update time, compared
      seconds first, then nanoseconds. */
  function IsPastUpdateTime(current: Timestamp, next: Timestamp): bool {
    current.seconds > next.seconds || (current.seconds == next.seconds && current.nanos > next.nanos)
  }

  /** On normalised timestamps the comparison is the order of the instants, so equal times are
      not past. */
  lemma {:induction false} IsPastIsLater(current: Timestamp, next: Timestamp)
    requires NormalTimestamp(current) && NormalTimestamp(next)
    ensures IsPastUpdateTime(current, next) <==> TimestampNanos(current) > TimestampNanos(next)
  {
    if current.seconds > next.seconds {
      assert TimestampNanos(current) >= (next.seconds + 1) * NANOS_PER_SEC;
    } else if current.seconds < next.seconds {
      assert TimestampNanos(next) >= (current.seconds + 1) * NANOS_PER_SEC;
    }
  }

  /** A next update time whose nanoseconds were added without carrying (below two seconds'
      worth) is never reported past too late, and at most one second too early. */
  lemma {:induction false} IsPastUnnormalisedNext(current: Timestamp, next: Timestamp)
    requires NormalTimestamp(current) && 0 <= next.nanos < 2 * NANOS_PER_SEC
    ensures TimestampNanos(current) > TimestampNanos(next) ==> IsPastUpdateTime(current, next)
    ensures IsPastUpdateTime(current, next) ==> TimestampNanos(current) + NANOS_PER_SEC > TimestampNanos(next)
  {
    if current.seconds > next.seconds {
      assert TimestampNanos(current) >= (next.seconds + 1) * NANOS_PER_SEC;
    } else if current.seconds < next.seconds {
      assert TimestampNanos(next) >= (current.seconds + 1) * NANOS_PER_SEC;
    }
  }

  // ---------------------------------------------------------------------------
  // Client infos

  datatype Side = One | Two

  function Other(s: Side): Side {
    match s
    case One => Two
    case Two => One
  }

  /** `ClientUpdate`: the next time the client is due and whether an automatic update is
      already queued (atomics in the Rust code, plain state here). */
  datatype ClientUpdate = ClientUpdate(nextTime: Timestamp, isAutoUpdating: bool)

  const DEFAULT_CLIENT_UPDATE: ClientUpdate := ClientUpdate(Timestamp(0, 0), false)

  /** `ClientInfoChannel`: the two ends of one channel. */
  datatype ClientInfoChannel = ClientInfoChannel(
    channelId1: IbcChannelId,
    channelId2: IbcChannelId,
    portId1: IbcPortId,
    portId2: IbcPortId,
    channelVersion: IbcChannelVersion,
    channelOrdering: IbcChannelOrdering)

  /** `ClientInfo`, with each signing client reduced to its chain id. */
  datatype ClientInfo = ClientInfo(
    chainId1: ChainId,
    chainId2: ChainId,
    clientId1: IbcClientId,
    clientId2: IbcClientId,
    trustingPeriod1: Duration,
    trustingPeriod2: Duration,
    update1: ClientUpdate,
    update2: ClientUpdate,
    connectionId1: IbcConnectionId,
    connectionId2: IbcConnectionId,
    channels: seq<ClientInfoChannel>)
  {
    function Update(s: Side): ClientUpdate {
      match s
      case One => update1
      case Two => update2
    }

    function ClientId(s: Side): IbcClientId {
      match s
      case One => clientId1
      case Two => clientId2
    }

    function WithUpdate(s: Side, u: ClientUpdate): (r: ClientInfo)
      ensures r.Update(s) == u && r.Update(Other(s)) == Update(Other(s))
      ensures r.(update1 := update1, update2 := update2) == this
    {
      match s
      case One => this.(update1 := u)
      case Two => this.(update2 := u)
    }
  }

  /** The side of a client info that a chain is on; chain 1 is checked first. */
  function SideOf(info: ClientInfo, chainId: ChainId): (r: Option<Side>)
    ensures r == Some(One) <==> chainId == info.chainId1
    ensures r == Some(Two) <==> chainId != info.chainId1 && chainId == info.chainId2
  {
    if chainId == info.chainId1 then Some(One)
    else if chainId == info.chainId2 then Some(Two)
    else None
  }

  // ---------------------------------------------------------------------------
  // Packet to client matching (`get_client_packet`)

  /** The packet runs from end 1 to end 2 of the channel. */
  predicate Forward(p: IbcPacket, ch: ClientInfoChannel) {
    p.srcChannelId == ch.channelId1 && p.dstChannelId == ch.channelId2
    && p.srcPortId == ch.portId1 && p.dstPortId == ch.portId2
  }

  /** The packet runs from end 2 to end 1 of the channel. */
  predicate Reverse(p: IbcPacket, ch: ClientInfoChannel) {
    p.srcChannelId == ch.channelId2 && p.dstChannelId == ch.channelId1
    && p.srcPortId == ch.portId2 && p.dstPortId == ch.portId1
  }

  predicate ChannelMatches(p: IbcPacket, ch: ClientInfoChannel) {
    Forward(p, ch) || Reverse(p, ch)
  }

  /** The first channel from position `from` on that the packet matches. */
  function FirstChannelFrom(chs: seq<ClientInfoChannel>, p: IbcPacket, from: nat): (r: Option<nat>)
    requires from <= |chs|
    ensures r.None? <==> forall k :: from <= k < |chs| ==> !ChannelMatches(p, chs[k])
    ensures r.Some? ==> from <= r.value < |chs| && ChannelMatches(p, chs[r.value])
    ensures r.Some? ==> forall k :: from <= k < r.value ==> !ChannelMatches(p, chs[k])
    decreases |chs| - from
  {
    if from == |chs| then None
    else if ChannelMatches(p, chs[from]) then Some(from)
    else FirstChannelFrom(chs, p, from + 1)
  }

  function FirstChannel(chs: seq<ClientInfoChannel>, p: IbcPacket): Option<nat> {
    FirstChannelFrom(chs, p, 0)
  }

  /** A client info takes the packet: the chain is on one of its sides, the packet's
      connection is one of its two, and one of its channels matches. */
  predicate Relays(info: ClientInfo, chainId: ChainId, p: IbcPacket) {
    && SideOf(info, chainId).Some?
    && (p.srcConnectionId == info.connectionId1 || p.srcConnectionId == info.connectionId2)
    && FirstChannel(info.channels, p).Some?
  }

  /** The packet rewritten to point away from the detecting side: connections by side, and
      ports and channels exchanged exactly when the orientation disagrees with the side. */
  function Normalize(info: ClientInfo, side: Side, forward: bool, p: IbcPacket): IbcPacket {
    var swap := (side == Two) == forward;
    var q := if swap then
      p.(srcPortId := p.dstPortId, dstPortId := p.srcPortId,
         srcChannelId := p.dstChannelId, dstChannelId := p.srcChannelId)
    else p;
    match side
    case One => q.(srcConnectionId := info.connectionId1, dstConnectionId := info.connectionId2)
    case Two => q.(srcConnectionId := info.connectionId2, dstConnectionId := info.connectionId1)
  }

  /** `q` is `p` normalised for `side` of `info` over channel `ch`: the detecting side's
      connection, channel and port are the packet's source end, and nothing else differs from `p`. */
  ghost predicate NormalizedFor(q: IbcPacket, p: IbcPacket, info: ClientInfo, side: Side, ch: ClientInfoChannel) {
    && (side == One ==>
          && q.srcConnectionId == info.connectionId1 && q.dstConnectionId == info.connectionId2
          && q.srcChannelId == ch.channelId1 && q.srcPortId == ch.portId1
          && q.dstChannelId == ch.channelId2 && q.dstPortId == ch.portId2)
    && (side == Two ==>
          && q.srcConnectionId == info.connectionId2 && q.dstConnectionId == info.connectionId1
          && q.srcChannelId == ch.channelId2 && q.srcPortId == ch.portId2
          && q.dstChannelId == ch.channelId1 && q.dstPortId == ch.portId1)
    && q.(srcPortId := p.srcPortId, dstPortId := p.dstPortId,
          srcChannelId := p.srcChannelId, dstChannelId := p.dstChannelId,
          srcConnectionId := p.srcConnectionId, dstConnectionId := p.dstConnectionId) == p
  }

  /** `ClientPacket`: the client info (with its position), the detecting side and the
      normalised packet. */
  datatype ClientPacket = ClientPacket(index: nat, info: ClientInfo, side: Side, packet: IbcPacket)

  function GetClientPacketFrom(infos: seq<ClientInfo>, chainId: ChainId, p: IbcPacket, from: nat): (r: Option<ClientPacket>)
    requires from <= |infos|
    ensures r.None? <==> forall i :: from <= i < |infos| ==> !Relays(infos[i], chainId, p)
    ensures r.Some? ==> && from <= r.value.index < |infos|
                        && r.value.info == infos[r.value.index]
                        && Relays(r.value.info, chainId, p)
                        && (forall k :: from <= k < r.value.index ==> !Relays(infos[k], chainId, p))
                        && r.value.side == SideOf(r.value.info, chainId).value
                        && NormalizedFor(r.value.packet, p, r.value.info, r.value.side,
                                         r.value.info.channels[FirstChannel(r.value.info.channels, p).value])
    decreases |infos| - from
  {
    if from == |infos| then None
    else
      match MatchInfo(infos[from], from, chainId, p)
      case Some(c) => Some(c)
      case None => GetClientPacketFrom(infos, chainId, p, from + 1)
  }

  /** One client info's check: the chain's side, the packet's connection, then the first
      matching channel. */
  function MatchInfo(info: ClientInfo, index: nat, chainId: ChainId, p: IbcPacket): (r: Option<ClientPacket>)
    ensures r.Some? <==> Relays(info, chainId, p)
    ensures r.Some? ==> && r.value.index == index && r.value.info == info
                        && r.value.side == SideOf(info, chainId).value
                        && NormalizedFor(r.value.packet, p, info, r.value.side, info.channels[FirstChannel(info.channels, p).value])
  {
    var side := SideOf(info, chainId);
    if side.None? || (p.srcConnectionId != info.connectionId1 && p.srcConnectionId != info.connectionId2) then None
    else
      match FirstChannel(info.channels, p)
      case None => None
      case Some(j) =>
        NormalizeSpec(info, side.value, p, info.channels[j]);
        Some(ClientPacket(index, info, side.value, Normalize(info, side.value, Forward(p, info.channels[j]), p)))
  }

  /** Normalising over a matching channel gives the packet `NormalizedFor` describes. */
  lemma {:induction false} NormalizeSpec(info: ClientInfo, side: Side, p: IbcPacket, ch: ClientInfoChannel)
    requires ChannelMatches(p, ch)
    ensures NormalizedFor(Normalize(info, side, Forward(p, ch), p), p, info, side, ch)
  {
  }

  /** `NormalizedFor` fixes the packet, and a packet and its reversed copy have the same
      normalisation. */
  lemma {:induction false} NormalizedForSwapUnique(q1: IbcPacket, q2: IbcPacket, p: IbcPacket, info: ClientInfo, side: Side, ch: ClientInfoChannel)
    requires NormalizedFor(q1, p, info, side, ch) && NormalizedFor(q2, SwapEnds(p), info, side, ch)
    ensures q1 == q2
  {
    assert q1.sequence == p.sequence && q2.sequence == SwapEnds(p).sequence;
    assert q1.timeoutHeight == q2.timeoutHeight && q1.timeoutTimestamp == q2.timeoutTimestamp;
    assert q1.data == q2.data && q1.ack == q2.ack && q1.kind == q2.kind;
  }

  /** `get_client_packet`: the first client info in list order that takes the packet, and
      within it the first matching channel; no match gives nothing. */
  function GetClientPacket(infos: seq<ClientInfo>, chainId: ChainId, p: IbcPacket): (r: Option<ClientPacket>)
    ensures r.None? <==> forall i :: 0 <= i < |infos| ==> !Relays(infos[i], chainId, p)
    ensures r.Some? ==> && r.value.index < |infos|
                        && r.value.info == infos[r.value.index]
                        && Relays(r.value.info, chainId, p)
                        && (forall k :: 0 <= k < r.value.index ==> !Relays(infos[k], chainId, p))
                        && r.value.side == SideOf(r.value.info, chainId).value
                        && NormalizedFor(r.value.packet, p, r.value.info, r.value.side,
                                         r.value.info.channels[FirstChannel(r.value.info.channels, p).value])
  {
    GetClientPacketFrom(infos, chainId, p, 0)
  }

  /** The packet with source and destination port and channel exchanged. */
  function SwapEnds(p: IbcPacket): IbcPacket {
    p.(srcPortId := p.dstPortId, dstPortId := p.srcPortId,
       srcChannelId := p.dstChannelId, dstChannelId := p.srcChannelId)
  }

  /** Normalisation does not depend on the direction the event reported the packet in: a
      packet and its reversed copy are matched by the same client info and channel and
      normalise to the same packet. */
  lemma {:induction false} NormalizeOrientationFree(infos: seq<ClientInfo>, chainId: ChainId, p: IbcPacket)
    requires GetClientPacket(infos, chainId, p).Some?
    ensures var r1 := GetClientPacket(infos, chainId, p);
            var r2 := GetClientPacket(infos, chainId, SwapEnds(p));
            r2.Some? && r2.value.index == r1.value.index && r2.value.packet == r1.value.packet
  {
    var q := SwapEnds(p);
    RelaysSwap(infos, chainId, p);
    SameRelaysSameIndex(infos, chainId, p, q);
    var r1 := GetClientPacket(infos, chainId, p).value;
    var r2 := GetClientPacket(infos, chainId, q).value;
    assert FirstChannel(infos[r1.index].channels, q) == FirstChannel(infos[r1.index].channels, p);
    NormalizedForSwapUnique(r1.packet, r2.packet, p, r1.info, r1.side, r1.info.channels[FirstChannel(r1.info.channels, p).value]);
  }

  /** A packet and its reversed copy are taken by the same client infos, over the same
      first channel. */
  lemma {:induction false} RelaysSwap(infos: seq<ClientInfo>, chainId: ChainId, p: IbcPacket)
    ensures forall i :: 0 <= i < |infos| ==>
              && FirstChannel(infos[i].channels, SwapEnds(p)) == FirstChannel(infos[i].channels, p)
              && Relays(infos[i], chainId, SwapEnds(p)) == Relays(infos[i], chainId, p)
  {
    forall i | 0 <= i < |infos|
      ensures FirstChannel(infos[i].channels, SwapEnds(p)) == FirstChannel(infos[i].channels, p)
    {
      FirstChannelSwap(infos[i].channels, p, 0);
    }
  }

  /** Packets taken by the same client infos are matched at the same position. */
  lemma {:induction false} SameRelaysSameIndex(infos: seq<ClientInfo>, chainId: ChainId, p: IbcPacket, q: IbcPacket)
    requires forall i :: 0 <= i < |infos| ==> Relays(infos[i], chainId, q) == Relays(infos[i], chainId, p)
    requires GetClientPacket(infos, chainId, p).Some?
    ensures GetClientPacket(infos, chainId, q).Some?
    ensures GetClientPacket(infos, chainId, q).value.index == GetClientPacket(infos, chainId, p).value.index
  {
    var r1 := GetClientPacket(infos, chainId, p).value;
    assert Relays(infos[r1.index], chainId, q);
  }

  /** A channel matches a packet exactly when it matches the reversed packet. */
  lemma {:induction false} FirstChannelSwap(chs: seq<ClientInfoChannel>, p: IbcPacket, from: nat)
    requires from <= |chs|
    ensures FirstChannelFrom(chs, SwapEnds(p), from) == FirstChannelFrom(chs, p, from)
    decreases |chs| - from
  {
    if from < |chs| {
      SwapMatches(p, chs[from]);
      FirstChannelSwap(chs, p, from + 1);
    }
  }

  /** Reversing a packet exchanges its forward and reverse matches with a channel. */
  lemma {:induction false} SwapMatches(p: IbcPacket, ch: ClientInfoChannel)
    ensures Forward(SwapEnds(p), ch) == Reverse(p, ch) && Reverse(SwapEnds(p), ch) == Forward(p, ch)
    ensures ChannelMatches(SwapEnds(p), ch) == ChannelMatches(p, ch)
  {
  }

  // ---------------------------------------------------------------------------
  // Automatic client updates

  /** `set_next_update_time`: the block time plus the stale duration, seconds and nanoseconds
      added separately (nanoseconds are not carried), and the auto-update flag cleared. A
      missing block time, a stale duration beyond `i64` seconds, or an `i64`/`i32` overflow
      of the sum is an error. */
  function SetNextUpdateTime(u: ClientUpdate, blockTime: Option<Timestamp>, stale: Duration): (r: Result<ClientUpdate, string>)
    requires ValidDuration(stale)
    ensures blockTime.None? ==> r == Err("No block time found")
    ensures r.Ok? <==> && blockTime.Some? && stale.secs <= I64_MAX
                       && blockTime.value.seconds + stale.secs <= I64_MAX
                       && blockTime.value.nanos + stale.nanos <= I32_MAX
    ensures r.Ok? ==> && !r.value.isAutoUpdating
                      && r.value.nextTime.seconds == blockTime.value.seconds + stale.secs
                      && r.value.nextTime.nanos == blockTime.value.nanos + stale.nanos
    ensures r.Ok? && NormalTimestamp(blockTime.value) ==>
              TimestampNanos(r.value.nextTime) == TimestampNanos(blockTime.value) + DurationNanos(stale)
  {
    var t :- OkOr(blockTime, "No block time found");
    if stale.secs > I64_MAX then Err("out of range integral type conversion attempted")
    else if t.seconds + stale.secs > I64_MAX || t.nanos + stale.nanos > I32_MAX then Err("attempt to add with overflow")
    else Ok(ClientUpdate(Timestamp(t.seconds + stale.secs, t.nanos + stale.nanos), false))
  }

  /** The tasks the relayer queues. */
  datatype Task =
    | AutoUpdateClient(index: nat, side: Side)
    | RelayPacket(clientPacket: ClientPacket)

  /** What one block's processing leaves behind: the client infos (with their flags), the
      tasks queued, and the error that stopped it, if any. Tasks queued before an error
      stay queued. */
  datatype Produced = Produced(infos: seq<ClientInfo>, tasks: seq<Task>, error: Option<string>)

  /** Whether an info's side on this chain is due for an automatic update: its flag is clear
      and the block time is past its next update time. */
  predicate DueForUpdate(info: ClientInfo, chainId: ChainId, now: Option<Timestamp>) {
    && SideOf(info, chainId).Some?
    && !info.Update(SideOf(info, chainId).value).isAutoUpdating
    && now.Some?
    && IsPastUpdateTime(now.value, info.Update(SideOf(info, chainId).value).nextTime)
  }

  /** Whether an info needs the block time at all: the block time is only asked for when the
      side's flag is clear. */
  predicate NeedsTime(info: ClientInfo, chainId: ChainId) {
    SideOf(info, chainId).Some? && !info.Update(SideOf(info, chainId).value).isAutoUpdating
  }

  /** The info after the check: the flag of a due side set, everything else unchanged. */
  function AfterCheck(info: ClientInfo, chainId: ChainId, now: Option<Timestamp>): ClientInfo
  {
    if DueForUpdate(info, chainId, now) then
      var s := SideOf(info, chainId).value;
      info.WithUpdate(s, info.Update(s).(isAutoUpdating := true))
    else info
  }

  /** The automatic-update loop of `produce_event_tasks` from position `from` on. */
  function AutoUpdatesFrom(infos: seq<ClientInfo>, chainId: ChainId, now: Option<Timestamp>, from: nat): (r: Produced)
    requires from <= |infos|
    ensures |r.infos| == |infos|
    ensures forall k :: 0 <= k < from ==> r.infos[k] == infos[k]
    ensures r.error.Some? <==> now.None? && exists k :: from <= k < |infos| && NeedsTime(infos[k], chainId)
    ensures r.error.None? ==> forall k :: from <= k < |infos| ==> r.infos[k] == AfterCheck(infos[k], chainId, now)
    ensures r.error.None? ==> forall k :: from <= k < |infos| && DueForUpdate(infos[k], chainId, now) ==>
              AutoUpdateClient(k, SideOf(infos[k], chainId).value) in r.tasks
    ensures forall t :: t in r.tasks ==> && t.AutoUpdateClient? && from <= t.index < |infos|
                                         && DueForUpdate(infos[t.index], chainId, now)
                                         && t.side == SideOf(infos[t.index], chainId).value
    decreases |infos| - from
  {
    if from == |infos| then Produced(infos, [], None)
    else
      var info := infos[from];
      var side := SideOf(info, chainId);
      if side.None? || info.Update(side.value).isAutoUpdating then
        AutoUpdatesFrom(infos, chainId, now, from + 1)
      else if now.None? then
        Produced(infos, [], Some("No block time found"))
      else if !IsPastUpdateTime(now.value, info.Update(side.value).nextTime) then
        AutoUpdatesFrom(infos, chainId, now, from + 1)
      else
        var flagged := info.WithUpdate(side.value, info.Update(side.value).(isAutoUpdating := true));
        var rest := AutoUpdatesFrom(infos[from := flagged], chainId, now, from + 1);
        Produced(rest.infos, [AutoUpdateClient(from, side.value)] + rest.tasks, rest.error)
  }

  /** The automatic updates due from position `from` on, judged on the infos as given: one
      task per due side, in list order. */
  function DueTasksFrom(infos: seq<ClientInfo>, chainId: ChainId, now: Option<Timestamp>, from: nat): seq<Task>
    requires from <= |infos|
    decreases |infos| - from
  {
    if from == |infos| then []
    else
      var head := if DueForUpdate(infos[from], chainId, now)
                  then [AutoUpdateClient(from, SideOf(infos[from], chainId).value)] else [];
      head + DueTasksFrom(infos, chainId, now, from + 1)
  }

  /** The due tasks from `from` on depend only on the infos from `from` on. */
  lemma {:induction false} DueTasksFromFrame(infos: seq<ClientInfo>, other: seq<ClientInfo>, chainId: ChainId, now: Option<Timestamp>, from: nat)
    requires from <= |infos| == |other|
    requires forall k :: from <= k < |infos| ==> infos[k] == other[k]
    ensures DueTasksFrom(infos, chainId, now, from) == DueTasksFrom(other, chainId, now, from)
    decreases |infos| - from
  {
    if from < |infos| {
      DueTasksFromFrame(infos, other, chainId, now, from + 1);
    }
  }

  /** Without a block time nothing is due. */
  lemma {:induction false} NoTimeNothingDue(infos: seq<ClientInfo>, chainId: ChainId, from: nat)
    requires from <= |infos|
    ensures DueTasksFrom(infos, chainId, None, from) == []
    decreases |infos| - from
  {
    if from < |infos| {
      NoTimeNothingDue(infos, chainId, from + 1);
    }
  }

  /** When the update loop does not fail, it queues exactly the due tasks. */
  lemma {:induction false} AutoUpdatesAreDueTasks(infos: seq<ClientInfo>, chainId: ChainId, now: Option<Timestamp>, from: nat)
    requires from <= |infos|
    requires AutoUpdatesFrom(infos, chainId, now, from).error.None?
    ensures AutoUpdatesFrom(infos, chainId, now, from).tasks == DueTasksFrom(infos, chainId, now, from)
    decreases |infos| - from
  {
    if from < |infos| {
      var info := infos[from];
      var side := SideOf(info, chainId);
      if side.None? || info.Update(side.value).isAutoUpdating {
        AutoUpdatesAreDueTasks(infos, chainId, now, from + 1);
      } else if now.Some? && IsPastUpdateTime(now.value, info.Update(side.value).nextTime) {
        var flagged := info.WithUpdate(side.value, info.Update(side.value).(isAutoUpdating := true));
        AutoUpdatesAreDueTasks(infos[from := flagged], chainId, now, from + 1);
        DueTasksFromFrame(infos[from := flagged], infos, chainId, now, from + 1);
      } else if now.Some? {
        AutoUpdatesAreDueTasks(infos, chainId, now, from + 1);
      }
    }
  }

  /** Without a block time the update loop queues nothing and changes no info. */
  lemma {:induction false} AutoUpdatesWithoutTime(infos: seq<ClientInfo>, chainId: ChainId, from: nat)
    requires from <= |infos|
    ensures AutoUpdatesFrom(infos, chainId, None, from).tasks == []
    ensures AutoUpdatesFrom(infos, chainId, None, from).infos == infos
    ensures AutoUpdatesFrom(infos, chainId, None, from).error.Some? ==>
              AutoUpdatesFrom(infos, chainId, None, from).error == Some("No block time found")
    decreases |infos| - from
  {
    if from < |infos| {
      AutoUpdatesWithoutTime(infos, chainId, from + 1);
    }
  }

  /** A queued update has its flag set, so the next block does not queue it again; only
      `set_next_update_time` clears it. */
  lemma {:induction false} QueuedUpdateNotRequeued(infos: seq<ClientInfo>, chainId: ChainId, now: Option<Timestamp>, later: Option<Timestamp>)
    requires AutoUpdatesFrom(infos, chainId, now, 0).error.None?
    ensures var r := AutoUpdatesFrom(infos, chainId, now, 0);
            forall t :: t in r.tasks ==> !DueForUpdate(r.infos[t.index], chainId, later)
  {
    var r := AutoUpdatesFrom(infos, chainId, now, 0);
    forall t | t in r.tasks
      ensures !DueForUpdate(r.infos[t.index], chainId, later)
    {
      var info := infos[t.index];
      assert r.infos[t.index] == AfterCheck(info, chainId, now);
      var s := SideOf(info, chainId).value;
      assert r.infos[t.index].Update(s).isAutoUpdating;
    }
  }

  /** The packet of a packet event; other events have none. */
  function PacketOf(e: Events.Event): (r: Option<IbcPacket>)
    ensures r.Some? <==> FromEvent(e).Ok?
    ensures r.Some? ==> r.value == FromEvent(e).value
  {
    match FromEvent(e)
    case Err(_) => None
    case Ok(p) => Some(p)
  }

  /** The packets of a block's events, in event order. */
  function BlockPackets(events: seq<Events.Event>): seq<IbcPacket> {
    Events.FilterMap(events, PacketOf)
  }

  /** The packet loop of `produce_event_tasks` from position `from` of the block's packets:
      one relay task per packet, until a packet that `lookup` finds no client info for
      stops the loop. */
  function RelayTasksFrom(lookup: IbcPacket -> Option<ClientPacket>, packets: seq<IbcPacket>, from: nat): (r: (seq<Task>, Option<string>))
    requires from <= |packets|
    ensures r.1.None? <==> forall j :: from <= j < |packets| ==> lookup(packets[j]).Some?
    ensures r.1.Some? ==> r.1 == Some("couldn't find client info for packet")
    ensures r.1.None? ==> |r.0| == |packets| - from
    ensures |r.0| <= |packets| - from
    ensures forall t :: t in r.0 ==> t.RelayPacket?
    ensures forall i :: from <= i < from + |r.0| ==> lookup(packets[i]).Some? && r.0[i - from] == RelayPacket(lookup(packets[i]).value)
    decreases |packets| - from
  {
    if from == |packets| then ([], None)
    else
      match lookup(packets[from])
      case None => ([], Some("couldn't find client info for packet"))
      case Some(cp) =>
        var rest := RelayTasksFrom(lookup, packets, from + 1);
        var tasks := [RelayPacket(cp)] + rest.0;
        assert tasks[0] == RelayPacket(cp);
        (tasks, rest.1)
  }

  /** The client-info lookup `produce_event_tasks` uses for the packets of chain `chainId`. */
  function LookupIn(infos: seq<ClientInfo>, chainId: ChainId): IbcPacket -> Option<ClientPacket> {
    p => GetClientPacket(infos, chainId, p)
  }

  /** `tasks` is `due` followed by one relay task per packet, in packet order, for the
      packets before the first one `lookup` finds nothing for; `error` is set, with the
      missing-client message, exactly when there is such a packet. */
  ghost predicate QueuedInOrder(tasks: seq<Task>, error: Option<string>, due: seq<Task>,
                                packets: seq<IbcPacket>, lookup: IbcPacket -> Option<ClientPacket>)
  {
    && |due| <= |tasks| <= |due| + |packets|
    && tasks[..|due|] == due
    && (forall j :: 0 <= j < |tasks| - |due| ==>
          lookup(packets[j]).Some? && tasks[|due| + j] == RelayPacket(lookup(packets[j]).value))
    && (error.None? <==> |tasks| == |due| + |packets|)
    && (error.Some? ==> && error == Some("couldn't find client info for packet")
                        && lookup(packets[|tasks| - |due|]).None?)
  }

  /** The packet loop run after the update tasks `due` queues in order. */
  lemma {:induction false} RelayQueuedInOrder(due: seq<Task>, lookup: IbcPacket -> Option<ClientPacket>, packets: seq<IbcPacket>)
    ensures var relay := RelayTasksFrom(lookup, packets, 0);
            QueuedInOrder(due + relay.0, relay.1, due, packets, lookup)
  {
    var relay := RelayTasksFrom(lookup, packets, 0);
    var tasks := due + relay.0;
    assert tasks[..|due|] == due;
    RelayTasksStop(lookup, packets, 0);
    forall j | 0 <= j < |tasks| - |due|
      ensures lookup(packets[j]).Some? && tasks[|due| + j] == RelayPacket(lookup(packets[j]).value)
    {
      assert tasks[|due| + j] == relay.0[j];
    }
  }

  /** `produce_event_tasks` for one block of chain `chainId`: first the automatic updates,
      then one relay task per packet event. It fails when the block time is needed and
      missing, or when some packet has no client info. */
  function ProduceEventTasks(infos: seq<ClientInfo>, chainId: ChainId, now: Option<Timestamp>, events: seq<Events.Event>): (r: Produced)
    ensures |r.infos| == |infos|
    ensures r.error.None? <==> && (now.Some? || forall k :: 0 <= k < |infos| ==> !NeedsTime(infos[k], chainId))
                               && (forall j :: 0 <= j < |BlockPackets(events)| ==>
                                     GetClientPacket(infos, chainId, BlockPackets(events)[j]).Some?)
    // a missing block time that is needed stops everything before any task is queued
    ensures (now.None? && exists k :: 0 <= k < |infos| && NeedsTime(infos[k], chainId)) ==>
              r == Produced(infos, [], Some("No block time found"))
    // otherwise every due side is flagged and its update task is queued, in list order;
    // then come the relay tasks, one per packet event, up to the first unmatched packet
    ensures (now.Some? || forall k :: 0 <= k < |infos| ==> !NeedsTime(infos[k], chainId)) ==>
              && (forall k :: 0 <= k < |infos| ==> r.infos[k] == AfterCheck(infos[k], chainId, now))
              && QueuedInOrder(r.tasks, r.error, DueTasksFrom(infos, chainId, now, 0),
                               BlockPackets(events), LookupIn(infos, chainId))
  {
    var auto := AutoUpdatesFrom(infos, chainId, now, 0);
    if auto.error.Some? then
      AutoUpdatesWithoutTime(infos, chainId, 0);
      auto
    else
      AutoUpdatesAreDueTasks(infos, chainId, now, 0);
      var relay := RelayTasksFrom(LookupIn(infos, chainId), BlockPackets(events), 0);
      RelayQueuedInOrder(auto.tasks, LookupIn(infos, chainId), BlockPackets(events));
      Produced(auto.infos, auto.tasks + relay.0, relay.1)
  }

  /** Where the packet loop stops with an error, the packet it stopped at has no client info. */
  lemma {:induction false} RelayTasksStop(lookup: IbcPacket -> Option<ClientPacket>, packets: seq<IbcPacket>, from: nat)
    requires from <= |packets|
    ensures var r := RelayTasksFrom(lookup, packets, from);
            r.1.Some? ==> from + |r.0| < |packets| && lookup(packets[from + |r.0|]).None?
    decreases |packets| - from
  {
    if from < |packets| && lookup(packets[from]).Some? {
      RelayTasksStop(lookup, packets, from + 1);
    }
  }

  /** Every automatic-update task of a block is due, and all of them come before the block's
      relay tasks. */
  lemma {:induction false} ProducedTasksOrdered(infos: seq<ClientInfo>, chainId: ChainId, now: Option<Timestamp>, events: seq<Events.Event>)
    ensures var r := ProduceEventTasks(infos, chainId, now, events);
      && (forall t :: t in r.tasks && t.AutoUpdateClient? ==> t.index < |infos| && DueForUpdate(infos[t.index], chainId, now))
      && (forall i :: 0 <= i < |r.tasks| - 1 ==> !(r.tasks[i].RelayPacket? && r.tasks[i + 1].AutoUpdateClient?))
  {
    var auto := AutoUpdatesFrom(infos, chainId, now, 0);
    if auto.error.None? {
      var relay := RelayTasksFrom(LookupIn(infos, chainId), BlockPackets(events), 0);
      var tasks := auto.tasks + relay.0;
      assert ProduceEventTasks(infos, chainId, now, events).tasks == tasks;
      forall i | 0 <= i < |tasks|
        ensures tasks[i].AutoUpdateClient? <==> i < |auto.tasks|
      {
        if i < |auto.tasks| {
          assert tasks[i] == auto.tasks[i] && auto.tasks[i] in auto.tasks;
        } else {
          assert tasks[i] == relay.0[i - |auto.tasks|] && relay.0[i - |auto.tasks|] in relay.0;
        }
      }
    }
  }

  // ---------------------------------------------------------------------------
  // Task dispatch (`consume_task`)

  /** The chain actions a task leads to, in order. Updating side `s` updates the client that
      lives on chain `s` with the counterparty's headers. */
  datatype Action =
    | UpdateClient(side: Side)
    | SubmitRecv(target: Side, clientId: IbcClientId, source: Side, packet: IbcPacket)
    | SubmitAck(target: Side, clientId: IbcClientId, source: Side, packet: IbcPacket)

  function Dispatch(t: Task): (r: seq<Action>)
    ensures t.AutoUpdateClient? ==> r == [UpdateClient(t.side)]
    ensures t.RelayPacket? ==>
              var cp := t.clientPacket;
              && (cp.packet.kind in {Ack, Timeout, Receive} <==> r == [])
              && (cp.packet.kind in {Send, WriteAck} ==>
                    && |r| == 3
                    && r[0] == UpdateClient(cp.side) && r[1] == UpdateClient(Other(cp.side))
                    && (cp.packet.kind == Send <==> r[2].SubmitRecv?)
                    && (cp.packet.kind == WriteAck <==> r[2].SubmitAck?)
                    && !r[2].UpdateClient?
                    && r[2].target == Other(cp.side) && r[2].source == cp.side
                    && r[2].clientId == cp.info.ClientId(Other(cp.side))
                    && r[2].packet == cp.packet)
  {
    match t
    case AutoUpdateClient(_, side) => [UpdateClient(side)]
    case RelayPacket(cp) =>
      var target := Other(cp.side);
      match cp.packet.kind
      case Send => [UpdateClient(cp.side), UpdateClient(target), SubmitRecv(target, cp.info.ClientId(target), cp.side, cp.packet)]
      case WriteAck => [UpdateClient(cp.side), UpdateClient(target), SubmitAck(target, cp.info.ClientId(target), cp.side, cp.packet)]
      case _ => []
  }

  /** A relayed send packet is written to the chain opposite the one it was detected on, and
      the receive message proves the commitment stored under the detecting side's own
      channel end. */
  lemma {:induction false} RelaySendTargetsCounterparty(infos: seq<ClientInfo>, chainId: ChainId, p: IbcPacket)
    requires p.kind == Send
    requires GetClientPacket(infos, chainId, p).Some?
    ensures var cp := GetClientPacket(infos, chainId, p).value;
            var a := Dispatch(RelayPacket(cp))[2];
            var ch := cp.info.channels[FirstChannel(cp.info.channels, p).value];
            && a.SubmitRecv? && a.target != a.source
            && (a.source == One ==> a.packet.srcChannelId == ch.channelId1 && a.packet.srcPortId == ch.portId1)
            && (a.source == Two ==> a.packet.srcChannelId == ch.channelId2 && a.packet.srcPortId == ch.portId2)
  {
  }
}
