/**
 * The batch assembler of poll: for every transaction group of a fetched
 * message, one partition and one offset taken from the group's last record,
 * then one ConnectRecord per slice, tagged with messageId, batchIndex and
 * totalBatches.
 */
module BatchAssembler {
  import opened Wrappers
  import opened CanalRecords
  import opened Batching

  /** The partition of a group: the server and the last record's journal and execute time. */
  function PartitionOf(serverUUID: Option<string>, last: ChangeRecord): RecordPartition
  {
    RecordPartition(serverUUID, last.journalName, last.executeTime)
  }

  /** The offset of a group: its Xid key, with the last record's gtid pair when both are non-empty. */
  function OffsetOf(key: int, last: ChangeRecord): RecordOffset
  {
    if IsNotEmpty(last.gtid) && IsNotEmpty(last.currentGtid) then RecordOffset(key, last.gtid, last.currentGtid)
    else RecordOffset(key, None, None)
  }

  /**
   * The records emitted for one group. The clock is read once per record; the
   * i-th record of the poll gets reading number `base + i`.
   */
  function AssembleGroup(serverUUID: Option<string>, messageId: int, g: TxGroup, batchSize: nat,
                         clock: nat -> int, base: nat): seq<ConnectRecord>
    requires |g.records| > 0 && batchSize >= 1
  {
    var last := g.records[|g.records| - 1];
    var partition := PartitionOf(serverUUID, last);
    var offset := OffsetOf(g.xidOffset, last);
    var slices := Slices(g.records, batchSize);
    seq(|slices|, i requires 0 <= i < |slices| =>
      ConnectRecord(partition, offset, clock(base + i), messageId, i, |slices|, slices[i]))
  }

  /** Prefixes the records of a successful result; an error stays as it is. */
  function Prepend(prefix: seq<ConnectRecord>, r: Result<seq<ConnectRecord>, PollError>): Result<seq<ConnectRecord>, PollError>
  {
    match r
    case Ok(rs) => Ok(prefix + rs)
    case Err(e) => Err(e)
  }

  lemma PrependNothing(r: Result<seq<ConnectRecord>, PollError>)
    ensures Prepend([], r) == r
  {
    if r.Ok? {
      assert [] + r.value == r.value;
    }
  }

  lemma PrependTwice(a: seq<ConnectRecord>, b: seq<ConnectRecord>, r: Result<seq<ConnectRecord>, PollError>)
    ensures Prepend(a, Prepend(b, r)) == Prepend(a + b, r)
  {
    if r.Ok? {
      assert a + (b + r.value) == (a + b) + r.value;
    }
  }

  /** The records of all groups, group after group in the parser's order; an empty group throws. */
  function Assemble(serverUUID: Option<string>, messageId: int, groups: seq<TxGroup>, batchSize: nat,
                    clock: nat -> int, base: nat): Result<seq<ConnectRecord>, PollError>
    requires batchSize >= 1
    decreases |groups|
  {
    if groups == [] then Ok([])
    else if |groups[0].records| == 0 then Err(EmptyGroup)
    else
      var first := AssembleGroup(serverUUID, messageId, groups[0], batchSize, clock, base);
      Prepend(first, Assemble(serverUUID, messageId, groups[1..], batchSize, clock, base + |first|))
  }

  /** The payloads of a list of records. */
  function Payloads(rs: seq<ConnectRecord>): seq<seq<ChangeRecord>>
  {
    seq(|rs|, i requires 0 <= i < |rs| => rs[i].data)
  }

  /**
   * Every record emitted for one group carries the same partition and the
   * same offset, taken from the group's key and its last record; the
   * batchIndex values are 0, 1, ..., k-1 in order and totalBatches is k,
   * where k = ceil(N / batchSize); every payload holds 1 to batchSize records
   * (exactly batchSize except the last), and the payloads concatenate to
   * the group's records.
   */
  lemma GroupBatches(serverUUID: Option<string>, messageId: int, g: TxGroup, batchSize: nat,
                     clock: nat -> int, base: nat)
    requires |g.records| > 0 && batchSize >= 1
    ensures var rs := AssembleGroup(serverUUID, messageId, g, batchSize, clock, base);
      var last := g.records[|g.records| - 1];
      var k := |rs|;
      && (k - 1) * batchSize < |g.records| <= k * batchSize
      && (forall i :: 0 <= i < k ==>
            && rs[i].partition == RecordPartition(serverUUID, last.journalName, last.executeTime)
            && rs[i].offset.offset == g.xidOffset
            && rs[i].offset == rs[0].offset
            && rs[i].messageId == messageId
            && rs[i].batchIndex == i
            && rs[i].totalBatches == k
            && rs[i].timestamp == clock(base + i)
            && 1 <= |rs[i].data| <= batchSize
            && (i < k - 1 ==> |rs[i].data| == batchSize))
      && Flatten(Payloads(rs)) == g.records
  {
    var rs := AssembleGroup(serverUUID, messageId, g, batchSize, clock, base);
    var slices := Slices(g.records, batchSize);
    var last := g.records[|g.records| - 1];
    var k := |rs|;
    assert k == |slices|;
    SlicesCount(g.records, batchSize);
    SlicesShape(g.records, batchSize);
    forall i | 0 <= i < k
      ensures && rs[i].partition == RecordPartition(serverUUID, last.journalName, last.executeTime)
              && rs[i].offset.offset == g.xidOffset
              && rs[i].offset == rs[0].offset
              && rs[i].messageId == messageId
              && rs[i].batchIndex == i
              && rs[i].totalBatches == k
              && rs[i].timestamp == clock(base + i)
              && 1 <= |rs[i].data| <= batchSize
              && (i < k - 1 ==> |rs[i].data| == batchSize)
    {
      assert rs[i].data == slices[i];
    }
    GroupPayloads(serverUUID, messageId, g, batchSize, clock, base);
  }

  /** The payloads of a group's records concatenate to the group's records. */
  lemma GroupPayloads(serverUUID: Option<string>, messageId: int, g: TxGroup, batchSize: nat,
                      clock: nat -> int, base: nat)
    requires |g.records| > 0 && batchSize >= 1
    ensures Flatten(Payloads(AssembleGroup(serverUUID, messageId, g, batchSize, clock, base))) == g.records
  {
    assert Payloads(AssembleGroup(serverUUID, messageId, g, batchSize, clock, base)) == Slices(g.records, batchSize);
    SlicesFlatten(g.records, batchSize);
  }

  /**
   * The offset of a group carries a gtid and a currentGtid exactly when both
   * are non-empty on the group's last record, and then they are that
   * record's; otherwise both stay unset.
   */
  lemma GroupGtid(serverUUID: Option<string>, messageId: int, g: TxGroup, batchSize: nat,
                  clock: nat -> int, base: nat, i: nat)
    requires |g.records| > 0 && batchSize >= 1
    requires i < |AssembleGroup(serverUUID, messageId, g, batchSize, clock, base)|
    ensures var o := AssembleGroup(serverUUID, messageId, g, batchSize, clock, base)[i].offset;
      var last := g.records[|g.records| - 1];
      && (o.gtid.Some? <==> IsNotEmpty(last.gtid) && IsNotEmpty(last.currentGtid))
      && (o.currentGtid.Some? <==> o.gtid.Some?)
      && (o.gtid.Some? ==> o.gtid == last.gtid && o.currentGtid == last.currentGtid)
  {
  }

  /** Assembly fails exactly when some group has no record. */
  lemma {:induction false} AssembleFailsIff(serverUUID: Option<string>, messageId: int, groups: seq<TxGroup>,
                                            batchSize: nat, clock: nat -> int, base: nat)
    requires batchSize >= 1
    ensures Assemble(serverUUID, messageId, groups, batchSize, clock, base).Err? <==>
            exists j :: 0 <= j < |groups| && groups[j].records == []
    ensures Assemble(serverUUID, messageId, groups, batchSize, clock, base).Err? ==>
            Assemble(serverUUID, messageId, groups, batchSize, clock, base).error == EmptyGroup
    decreases |groups|
  {
    if groups != [] && |groups[0].records| > 0 {
      var first := AssembleGroup(serverUUID, messageId, groups[0], batchSize, clock, base);
      AssembleFailsIff(serverUUID, messageId, groups[1..], batchSize, clock, base + |first|);
      if exists j :: 0 <= j < |groups| && groups[j].records == [] {
        var j :| 0 <= j < |groups| && groups[j].records == [];
        assert groups[1..][j - 1] == groups[j];
      }
      if exists j :: 0 <= j < |groups[1..]| && groups[1..][j].records == [] {
        var j :| 0 <= j < |groups[1..]| && groups[1..][j].records == [];
        assert groups[j + 1] == groups[1..][j];
      }
    }
  }

  /** A successful assembly is the first group's records followed by the assembly of the rest. */
  lemma AssembleCons(serverUUID: Option<string>, messageId: int, groups: seq<TxGroup>,
                     batchSize: nat, clock: nat -> int, base: nat)
    requires batchSize >= 1 && groups != []
    requires Assemble(serverUUID, messageId, groups, batchSize, clock, base).Ok?
    ensures |groups[0].records| > 0
    ensures var first := AssembleGroup(serverUUID, messageId, groups[0], batchSize, clock, base);
      var rest := Assemble(serverUUID, messageId, groups[1..], batchSize, clock, base + |first|);
      rest.Ok? && Assemble(serverUUID, messageId, groups, batchSize, clock, base).value == first + rest.value
  {
  }

  /** The records of every group, group after group. */
  function AllRecords(groups: seq<TxGroup>): seq<ChangeRecord>
  {
    if groups == [] then [] else groups[0].records + AllRecords(groups[1..])
  }

  /**
   * No record of a fetched message is dropped, duplicated or reordered: the
   * payloads of all emitted records, in emission order, concatenate to the
   * records of all groups in the parser's order.
   */
  lemma {:induction false} AssemblePreservesRecords(serverUUID: Option<string>, messageId: int, groups: seq<TxGroup>,
                                                    batchSize: nat, clock: nat -> int, base: nat)
    requires batchSize >= 1
    requires Assemble(serverUUID, messageId, groups, batchSize, clock, base).Ok?
    ensures Flatten(Payloads(Assemble(serverUUID, messageId, groups, batchSize, clock, base).value)) == AllRecords(groups)
    decreases |groups|
  {
    var all := Assemble(serverUUID, messageId, groups, batchSize, clock, base).value;
    if groups == [] {
      assert Payloads(all) == [];
    } else {
      AssembleCons(serverUUID, messageId, groups, batchSize, clock, base);
      var first := AssembleGroup(serverUUID, messageId, groups[0], batchSize, clock, base);
      var rest := Assemble(serverUUID, messageId, groups[1..], batchSize, clock, base + |first|).value;
      calc {
        Flatten(Payloads(all));
        { assert Payloads(all) == Payloads(first) + Payloads(rest); }
        Flatten(Payloads(first) + Payloads(rest));
        { FlattenAppend(Payloads(first), Payloads(rest)); }
        Flatten(Payloads(first)) + Flatten(Payloads(rest));
        { GroupPayloads(serverUUID, messageId, groups[0], batchSize, clock, base);
          AssemblePreservesRecords(serverUUID, messageId, groups[1..], batchSize, clock, base + |first|); }
        groups[0].records + AllRecords(groups[1..]);
      }
    }
  }
}
