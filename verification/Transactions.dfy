/** The transaction bridge as a value: a lease, an active flag, and the offsets staged for one consumer group. */
module Transactions {
  import opened Basics
  import opened ConsumerGroup

  /** A consumer group. Each is bound to one subscription and so to one topic, which is why the staged offsets of
      its transaction are keyed by the partition alone. */
  type Key = string

  datatype Bridge = Bridge(lease: bool, active: bool, offsets: map<nat, nat>, groupKey: Option<Key>)

  const IDLE: Bridge := Bridge(false, false, map[], None)

  datatype BeginResult = LeaseTimeout | BeginFailed | Began

  function BeginOutcome(b: Bridge, beginOk: bool): BeginResult {
    if b.lease then LeaseTimeout else if !beginOk then BeginFailed else Began
  }

  function Begin(b: Bridge, beginOk: bool): Bridge {
    if BeginOutcome(b, beginOk).Began? then Bridge(true, true, map[], None) else b
  }

  datatype StageResult = NotActive | CrossGroup | NoMetadata | Staged

  function StageOutcome(b: Bridge, key: Key, metadataOk: bool): StageResult {
    if !b.active then NotActive
    else if b.groupKey.Some? && b.groupKey.value != key then CrossGroup
    else if !metadataOk then NoMetadata
    else Staged
  }

  /** The group is recorded before its metadata is asked for, so a failure there still pins the transaction to it. */
  function StageOffset(b: Bridge, key: Key, partition: nat, next: nat, metadataOk: bool): Bridge {
    match StageOutcome(b, key, metadataOk)
    case NotActive => b
    case CrossGroup => b
    case NoMetadata => b.(groupKey := Some(key))
    case Staged => b.(groupKey := Some(key), offsets := Higher(b.offsets, partition, next))
  }

  function Higher(offsets: map<nat, nat>, partition: nat, next: nat): map<nat, nat> {
    offsets[partition := if partition in offsets && offsets[partition] > next then offsets[partition] else next]
  }

  /** Commit and abort both end here, whether or not the producer raised. */
  function Finish(b: Bridge): Bridge {
    if b.active then IDLE else b
  }

  /** Between calls the lease is held exactly while a transaction is active, and staged offsets have a group. */
  predicate BridgeOk(b: Bridge) {
    && b.lease == b.active
    && (!b.active ==> b == IDLE)
    && (b.groupKey.None? ==> b.offsets == map[])
  }

  function StagedFor(b: Bridge, key: Key): map<nat, nat> {
    if b.groupKey == Some(key) then b.offsets else map[]
  }

  lemma StageKeepsBridge(b: Bridge, key: Key, partition: nat, next: nat, metadataOk: bool)
    requires BridgeOk(b)
    ensures var b' := StageOffset(b, key, partition, next, metadataOk);
            && BridgeOk(b') && b'.active == b.active
            && StagedFor(b', key) == (if StageOutcome(b, key, metadataOk).Staged?
                                      then Higher(StagedFor(b, key), partition, next)
                                      else StagedFor(b, key))
            && (forall other :: other != key ==> StagedFor(b', other) == StagedFor(b, other))
  {
    if StageOutcome(b, key, metadataOk).Staged? && b.groupKey.None? {
      assert b.offsets == StagedFor(b, key);
    }
  }

  /** The first group for which an offset is to be staged is the only one of its transaction, also if its metadata
      cannot be had. */
  lemma FirstGroupPins(b: Bridge, key: Key, partition: nat, next: nat, metadataOk: bool, other: Key)
    requires b.active && b.groupKey.None? && other != key
    ensures var b' := StageOffset(b, key, partition, next, metadataOk);
            && StageOutcome(b, key, metadataOk) == (if metadataOk then Staged else NoMetadata)
            && StageOutcome(b', other, true) == CrossGroup && StageOutcome(b', key, true) == Staged
  {
  }
}
