/**
 * Translation of a chain packet (the `Packet` of ICS 4, Channel & Packet
 * Semantics) into the packet the contract VM receives, and the test
 * fixture that builds chain packets from a default by applying mutators.
 *
 * In the VM packet a timestamp of 0 means "no timestamp timeout" and a
 * missing `Block` means "no height timeout".
 */
module IbcPacket {
  import opened GoTypes

  /** `clienttypes.Height`. */
  datatype Height = Height(revisionNumber: uint64, revisionHeight: uint64)

  /** A height is zero when both components are 0; a zero timeout height means "no height timeout". */
  predicate IsZero(h: Height)
  {
    h.revisionNumber == 0 && h.revisionHeight == 0
  }

  /** `channeltypes.Packet`. */
  datatype Packet = Packet(
    sequence: uint64,
    sourcePort: string,
    sourceChannel: string,
    destinationPort: string,
    destinationChannel: string,
    data: Bytes,
    timeoutHeight: Height,
    timeoutTimestamp: uint64)

  datatype IBCEndpoint = IBCEndpoint(portId: string, channelId: string)

  datatype IBCTimeoutBlock = IBCTimeoutBlock(revision: uint64, height: uint64)

  /** `wasmvmtypes.IBCTimeout`: `block` is a pointer; a `timestamp` of 0 is absent. */
  datatype IBCTimeout = IBCTimeout(block: Option<IBCTimeoutBlock>, timestamp: uint64)

  /** `wasmvmtypes.IBCPacket`. */
  datatype IBCPacket = IBCPacket(data: Bytes, src: IBCEndpoint, dest: IBCEndpoint, sequence: uint64, timeout: IBCTimeout)

  /**
   * `newIBCPacket`: total, with the endpoints, sequence and data copied, a
   * `Block` exactly when the timeout height is not zero (revision height to
   * `Height`, revision number to `Revision`), and the timestamp copied.
   */
  function NewIBCPacket(p: Packet): (r: IBCPacket)
    ensures r.data == p.data && r.sequence == p.sequence
    ensures r.src == IBCEndpoint(p.sourcePort, p.sourceChannel)
    ensures r.dest == IBCEndpoint(p.destinationPort, p.destinationChannel)
    ensures r.timeout.block.Some? <==> !IsZero(p.timeoutHeight)
    ensures r.timeout.block.Some? ==>
      r.timeout.block.value.height == p.timeoutHeight.revisionHeight
      && r.timeout.block.value.revision == p.timeoutHeight.revisionNumber
    ensures r.timeout.timestamp == p.timeoutTimestamp
  {
    var block :=
      if IsZero(p.timeoutHeight) then None
      else Some(IBCTimeoutBlock(p.timeoutHeight.revisionNumber, p.timeoutHeight.revisionHeight));
    IBCPacket(
      p.data,
      IBCEndpoint(p.sourcePort, p.sourceChannel),
      IBCEndpoint(p.destinationPort, p.destinationChannel),
      p.sequence,
      IBCTimeout(block, p.timeoutTimestamp))
  }

  /** The chain packet a VM packet stands for: a missing `Block` is the zero height. */
  function ChannelPacket(v: IBCPacket): Packet
  {
    var height := match v.timeout.block
      case None => Height(0, 0)
      case Some(b) => Height(b.revision, b.height);
    Packet(v.sequence, v.src.portId, v.src.channelId, v.dest.portId, v.dest.channelId, v.data, height, v.timeout.timestamp)
  }

  /** The translation drops nothing: the chain packet can be read back from the VM packet. */
  lemma TranslationDropsNothing(p: Packet)
    ensures ChannelPacket(NewIBCPacket(p)) == p
  {
  }

  /** Two chain packets that translate alike are the same packet. */
  lemma TranslationInjective(p: Packet, q: Packet)
    requires NewIBCPacket(p) == NewIBCPacket(q)
    ensures p == q
  {
    TranslationDropsNothing(p);
    TranslationDropsNothing(q);
  }

  /**
   * The translation invents nothing: a VM packet is the translation of some
   * chain packet exactly when it does not carry a `Block` at the zero height.
   */
  lemma TranslationInventsNothing(v: IBCPacket)
    ensures NewIBCPacket(ChannelPacket(v)) == v <==> v.timeout.block != Some(IBCTimeoutBlock(0, 0))
  {
  }

  // ---------------------------------------------------------------------
  // The test fixture

  /** The bytes of the string "myData". */
  const MyData: Bytes := [0x6d, 0x79, 0x44, 0x61, 0x74, 0x61]

  /** The packet `IBCPacketFixture` starts from. */
  function DefaultPacket(): Packet
  {
    Packet(1, "srcPort", "channel-1", "destPort", "channel-2", MyData, Height(2, 1), 0)
  }

  /** The packet after the mutators have been applied in order, each to the result of the previous one. */
  function ApplyMutators(p: Packet, mutators: seq<Packet -> Packet>): Packet
    decreases |mutators|
  {
    if |mutators| == 0 then p else ApplyMutators(mutators[0](p), mutators[1..])
  }

  /** Applying a list of mutators and then one more is applying the extended list. */
  lemma {:induction false} ApplyMutatorsSnoc(p: Packet, mutators: seq<Packet -> Packet>, m: Packet -> Packet)
    ensures ApplyMutators(p, mutators + [m]) == m(ApplyMutators(p, mutators))
    decreases |mutators|
  {
    if |mutators| > 0 {
      assert (mutators + [m])[1..] == mutators[1..] + [m];
      ApplyMutatorsSnoc(mutators[0](p), mutators[1..], m);
    }
  }

  /** Mutators compose left to right: two lists in a row are their concatenation. */
  lemma {:induction false} ApplyMutatorsConcat(p: Packet, first: seq<Packet -> Packet>, second: seq<Packet -> Packet>)
    ensures ApplyMutators(p, first + second) == ApplyMutators(ApplyMutators(p, first), second)
    decreases |first|
  {
    if |first| == 0 {
      assert first + second == second;
    } else {
      assert (first + second)[1..] == first[1..] + second;
      ApplyMutatorsConcat(first[0](p), first[1..], second);
    }
  }

  /** A mutator that sets the timeout timestamp. */
  function SetTimeoutTimestamp(t: uint64): Packet -> Packet
  {
    (p: Packet) => p.(timeoutTimestamp := t)
  }

  /** The last mutator wins: whatever came before, a final timestamp setter decides the timestamp. */
  lemma LaterMutatorOverrides(p: Packet, mutators: seq<Packet -> Packet>, t: uint64)
    ensures ApplyMutators(p, mutators + [SetTimeoutTimestamp(t)]).timeoutTimestamp == t
  {
    ApplyMutatorsSnoc(p, mutators, SetTimeoutTimestamp(t));
  }

  /** `IBCPacketFixture`: a local packet that each mutator changes in turn. */
  method IBCPacketFixture(mutators: seq<Packet -> Packet>) returns (r: Packet)
    ensures r == ApplyMutators(DefaultPacket(), mutators)
    ensures |mutators| == 0 ==> r == DefaultPacket()
  {
    r := DefaultPacket();
    for i := 0 to |mutators|
      invariant r == ApplyMutators(DefaultPacket(), mutators[..i])
    {
      assert mutators[..i + 1] == mutators[..i] + [mutators[i]];
      ApplyMutatorsSnoc(DefaultPacket(), mutators[..i], mutators[i]);
      r := mutators[i](r);
    }
    assert mutators[..|mutators|] == mutators;
  }

  // ---------------------------------------------------------------------
  // The three cases of the translation's table test

  /** The mutator of "with time timeout": timestamp 1 and a zero height. */
  function TimeTimeout(p: Packet): Packet
  {
    p.(timeoutTimestamp := 1, timeoutHeight := Height(0, 0))
  }

  /** The mutator of "with time and height timeout": timestamp 1. */
  function TimeAndHeightTimeout(p: Packet): Packet
  {
    p.(timeoutTimestamp := 1)
  }

  lemma WithHeightTimeout()
    ensures NewIBCPacket(ApplyMutators(DefaultPacket(), [])) == IBCPacket(
      MyData, IBCEndpoint("srcPort", "channel-1"), IBCEndpoint("destPort", "channel-2"), 1,
      IBCTimeout(Some(IBCTimeoutBlock(2, 1)), 0))
  {
  }

  lemma WithTimeTimeout()
    ensures NewIBCPacket(ApplyMutators(DefaultPacket(), [TimeTimeout])) == IBCPacket(
      MyData, IBCEndpoint("srcPort", "channel-1"), IBCEndpoint("destPort", "channel-2"), 1,
      IBCTimeout(None, 1))
  {
    ApplyMutatorsSnoc(DefaultPacket(), [], TimeTimeout);
    assert [] + [TimeTimeout] == [TimeTimeout];
  }

  lemma WithTimeAndHeightTimeout()
    ensures NewIBCPacket(ApplyMutators(DefaultPacket(), [TimeAndHeightTimeout])) == IBCPacket(
      MyData, IBCEndpoint("srcPort", "channel-1"), IBCEndpoint("destPort", "channel-2"), 1,
      IBCTimeout(Some(IBCTimeoutBlock(2, 1)), 1))
  {
    ApplyMutatorsSnoc(DefaultPacket(), [], TimeAndHeightTimeout);
    assert [] + [TimeAndHeightTimeout] == [TimeAndHeightTimeout];
  }
}
