/**
 * CanalSourceIncrementConnector: the source connector object with its
 * `running` flag and client identity, the lifecycle (start/stop) and the
 * poll cycle (fetch until a non-empty message, assemble the records,
 * acknowledge the message).
 *
 * The embedded Canal server is represented by the responses it will hand
 * out, in order (`pending`), and a ghost log of everything the connector
 * asks of it or of the scheduler (`trace`).
 */
module Connector {
  import opened Wrappers
  import opened CanalRecords
  import opened CanalConfig
  import opened TableFilter
  import opened Backoff
  import opened Batching
  import opened BatchAssembler
  import opened CanalSetup

  /** ClientIdentity(destination, clientId, filter), the subscription key at the server. */
  datatype ClientIdentity = ClientIdentity(destination: string, clientId: int, filter: string)

  /**
   * A fetched message. `decoded` is what the entry parser makes of its
   * entries: the groups keyed by Xid offset, in the returned map's iteration
   * order, or None when an entry cannot be parsed.
   */
  datatype Message = Message(id: int, decoded: Option<seq<TxGroup>>)

  /** The id the server gives a message that carries nothing. */
  const EmptyMessageId: int := -1

  /** A null message or one with id -1. */
  predicate IsEmptyFetch(m: Option<Message>)
  {
    m.None? || m.value.id == EmptyMessageId
  }

  /** What the connector does to the server, the scheduler and its own flag, in order. */
  datatype Effect =
    | StartTableMgr
    | StartServer
    | StartDestination(destination: string)
    | Subscribe(identity: ClientIdentity)
    | StopDestination(destination: string)
    | StopServer
    | GetWithoutAck(batchSize: int, timeoutMillis: Option<int>)
    | Wait(decision: WaitDecision)
    | Ack(identity: ClientIdentity, messageId: int)
    | SetRunning(running: bool)

  datatype PollOutcome =
    | Records(records: seq<ConnectRecord>)
    | Failed(error: PollError)
    | StillWaiting   // every response so far was empty; the source goes on fetching

  /** The fetch call of the configured mode: without a timeout when batchTimeout is negative. */
  function FetchCall(config: SourceConfig): Effect
  {
    GetWithoutAck(config.batchSize, if config.batchTimeout < 0 then None else Some(config.batchTimeout))
  }

  /** The effects of `n` consecutive empty fetches; only the blocking mode waits after each. */
  function EmptyFetches(n: nat, config: SourceConfig): seq<Effect>
  {
    if n == 0 then []
    else EmptyFetches(n - 1, config) + [FetchCall(config)]
         + (if config.batchTimeout < 0 then [Wait(ApplyWait(Counter(n - 1)))] else [])
  }

  /** The index of the first non-empty response, or |rs| when there is none. */
  function FirstNonEmpty(rs: seq<Option<Message>>): (k: nat)
    ensures k <= |rs|
    ensures forall j :: 0 <= j < k ==> IsEmptyFetch(rs[j])
    ensures k < |rs| ==> !IsEmptyFetch(rs[k])
  {
    if rs == [] || !IsEmptyFetch(rs[0]) then 0 else 1 + FirstNonEmpty(rs[1..])
  }

  lemma FirstNonEmptyIs(rs: seq<Option<Message>>, k: nat)
    requires k <= |rs|
    requires forall j :: 0 <= j < k ==> IsEmptyFetch(rs[j])
    requires k < |rs| ==> !IsEmptyFetch(rs[k])
    ensures FirstNonEmpty(rs) == k
  {
  }

  /** The records built from a non-empty message, or the exception that ends the poll. */
  function Process(config: SourceConfig, m: Message, clock: nat -> int): Result<seq<ConnectRecord>, PollError>
    requires config.batchSize >= 1
  {
    if m.decoded.None? then Err(ParseFailure)
    else Assemble(config.serverUUID, m.id, m.decoded.value, config.batchSize, clock, 0)
  }

  /** The number of acknowledgements in a run of effects. */
  function AckCount(s: seq<Effect>): nat
  {
    if s == [] then 0 else AckCount(s[..|s| - 1]) + (if s[|s| - 1].Ack? then 1 else 0)
  }

  lemma {:induction false} AckCountAppend(a: seq<Effect>, b: seq<Effect>)
    ensures AckCount(a + b) == AckCount(a) + AckCount(b)
    decreases |b|
  {
    if b == [] {
      assert a + b == a;
    } else {
      AckCountAppend(a, b[..|b| - 1]);
      assert (a + b)[..|a + b| - 1] == a + b[..|b| - 1];
    }
  }

  /** Empty fetches never acknowledge anything. */
  lemma {:induction false} EmptyFetchesNoAck(n: nat, config: SourceConfig)
    ensures AckCount(EmptyFetches(n, config)) == 0
  {
    if n > 0 {
      EmptyFetchesNoAck(n - 1, config);
      var waits := if config.batchTimeout < 0 then [Wait(ApplyWait(Counter(n - 1)))] else [];
      AckCountAppend(EmptyFetches(n - 1, config), [FetchCall(config)]);
      AckCountAppend(EmptyFetches(n - 1, config) + [FetchCall(config)], waits);
    }
  }

  /**
   * A poll that ends with records appends exactly one acknowledgement, of
   * the fetched message, as its very last effect; a poll that throws after
   * the fetch appends none.
   */
  lemma PollAcksOnce(n: nat, config: SourceConfig, identity: ClientIdentity, messageId: int)
    ensures var fetched := EmptyFetches(n, config) + [FetchCall(config)];
      && AckCount(fetched) == 0
      && AckCount(fetched + [Ack(identity, messageId)]) == 1
  {
    var fetched := EmptyFetches(n, config) + [FetchCall(config)];
    EmptyFetchesNoAck(n, config);
    AckCountAppend(EmptyFetches(n, config), [FetchCall(config)]);
    AckCountAppend(fetched, [Ack(identity, messageId)]);
  }

  /** The wait decisions in a run of effects, in order. */
  function Waits(s: seq<Effect>): seq<WaitDecision>
  {
    if s == [] then []
    else Waits(s[..|s| - 1]) + (if s[|s| - 1].Wait? then [s[|s| - 1].decision] else [])
  }

  lemma {:induction false} WaitsAppend(a: seq<Effect>, b: seq<Effect>)
    ensures Waits(a + b) == Waits(a) + Waits(b)
    decreases |b|
  {
    if b == [] {
      assert a + b == a;
    } else {
      WaitsAppend(a, b[..|b| - 1]);
      assert (a + b)[..|a + b| - 1] == a + b[..|b| - 1];
    }
  }

  /** The wait decisions of a streak of `n` empty fetches in the blocking mode. */
  function WaitSchedule(n: nat): seq<WaitDecision>
  {
    if n == 0 then [] else WaitSchedule(n - 1) + [ApplyWait(Counter(n - 1))]
  }

  /** The i-th decision of the streak is applyWait of the i-th counter value. */
  lemma {:induction false} WaitScheduleAt(n: nat)
    ensures |WaitSchedule(n)| == n
    ensures forall i :: 0 <= i < n ==> WaitSchedule(n)[i] == ApplyWait(Counter(i))
  {
    if n > 0 {
      WaitScheduleAt(n - 1);
    }
  }

  /**
   * In the blocking mode the empty fetches of a poll are followed by the
   * decisions applyWait(0), applyWait(1), ... of the counter; in the
   * timeout mode an empty fetch is retried at once, with no wait.
   */
  lemma {:induction false} EmptyFetchWaits(n: nat, config: SourceConfig)
    ensures Waits(EmptyFetches(n, config)) == if config.batchTimeout < 0 then WaitSchedule(n) else []
  {
    if n > 0 {
      var prev := Waits(EmptyFetches(n - 1, config));
      EmptyFetchWaits(n - 1, config);
      EmptyFetchWaitsStep(n, config);
      if config.batchTimeout < 0 {
        assert prev == WaitSchedule(n - 1);
        assert WaitSchedule(n) == prev + [ApplyWait(Counter(n - 1))];
      } else {
        assert prev == [];
        assert prev + [] == [];
      }
    } else {
      assert EmptyFetches(n, config) == [];
    }
  }

  /** One more empty fetch adds its decision in the blocking mode, nothing in the timeout mode. */
  lemma EmptyFetchWaitsStep(n: nat, config: SourceConfig)
    requires n > 0
    ensures Waits(EmptyFetches(n, config)) ==
      Waits(EmptyFetches(n - 1, config)) + (if config.batchTimeout < 0 then [ApplyWait(Counter(n - 1))] else [])
  {
    var prev := EmptyFetches(n - 1, config);
    var waits := if config.batchTimeout < 0 then [Wait(ApplyWait(Counter(n - 1)))] else [];
    assert EmptyFetches(n, config) == (prev + [FetchCall(config)]) + waits;
    WaitsAppend(prev, [FetchCall(config)]);
    WaitsAppend(prev + [FetchCall(config)], waits);
    assert Waits([FetchCall(config)]) == [];
    assert Waits(waits) == if config.batchTimeout < 0 then [ApplyWait(Counter(n - 1))] else [];
  }

  /** A message whose entries hold no change group is still acknowledged, with no record. */
  lemma EmptyMessageAcked(config: SourceConfig, id: int, clock: nat -> int)
    requires config.batchSize >= 1
    ensures Process(config, Message(id, Some([])), clock) == Ok([])
  {
  }

  /**
   * No record of a message is lost, duplicated or reordered by poll: the
   * payloads of the records it returns concatenate to the records of the
   * message's groups, in order.
   */
  lemma ProcessPreservesRecords(config: SourceConfig, m: Message, clock: nat -> int)
    requires config.batchSize >= 1
    requires Process(config, m, clock).Ok?
    ensures m.decoded.Some?
    ensures Flatten(Payloads(Process(config, m, clock).value)) == AllRecords(m.decoded.value)
  {
    AssemblePreservesRecords(config.serverUUID, m.id, m.decoded.value, config.batchSize, clock, 0);
  }

  class CanalSourceIncrementConnector {
    var config: SourceConfig
    var tableFilter: string
    var fieldFilter: Option<string>
    var running: bool
    var clientIdentity: Option<ClientIdentity>
    /** The responses the embedded server will give to the next getWithoutAck calls. */
    var pending: seq<Option<Message>>
    ghost var trace: seq<Effect>

    /** The identity the connector subscribes with. */
    function Identity(): ClientIdentity
      reads this
    {
      ClientIdentity(config.destination, config.clientId, tableFilter)
    }

    ghost predicate Valid()
      reads this
    {
      && tableFilter == FilterSpec(config.databases)
      && (running ==> clientIdentity == Some(Identity()))
    }

    /**
     * init(ConnectorContext): takes the restored positions when the context
     * has them, builds the table filter, keeps a non-empty field filter and
     * records a non-empty server UUID. `serverUUID` is what the UUID query
     * returned.
     */
    constructor Init(cfg: SourceConfig, restored: Option<seq<RecordPosition>>, serverUUID: Option<string>,
                     server: seq<Option<Message>>)
      ensures Valid()
      ensures config == cfg.(recordPositions := if restored.Some? then restored else cfg.recordPositions,
                             serverUUID := if IsNotEmpty(serverUUID) then serverUUID else cfg.serverUUID)
      ensures fieldFilter == if IsNotEmpty(cfg.fieldFilter) then cfg.fieldFilter else None
      ensures !running && clientIdentity == None && pending == server && trace == []
    {
      var c := cfg;
      if restored.Some? {
        c := c.(recordPositions := restored);
      }
      var filter := BuildTableFilters(c.databases);
      var fields: Option<string> := None;
      if IsNotEmpty(c.fieldFilter) {
        fields := c.fieldFilter;
      }
      if IsNotEmpty(serverUUID) {
        c := c.(serverUUID := serverUUID);
      }
      config := c;
      tableFilter := filter;
      fieldFilter := fields;
      running := false;
      clientIdentity := None;
      pending := server;
      trace := [];
    }

    /** start: does nothing when running; otherwise starts, subscribes and sets `running`. */
    method Start()
      requires Valid()
      modifies this`running, this`clientIdentity, this`trace
      ensures Valid() && running
      ensures old(running) ==> clientIdentity == old(clientIdentity) && trace == old(trace)
      ensures !old(running) ==>
        && clientIdentity == Some(Identity())
        && trace == old(trace) + [StartTableMgr, StartServer, StartDestination(config.destination),
                                  Subscribe(Identity()), SetRunning(true)]
    {
      if running {
        return;
      }
      trace := trace + [StartTableMgr];
      trace := trace + [StartServer];
      trace := trace + [StartDestination(config.destination)];
      clientIdentity := Some(ClientIdentity(config.destination, config.clientId, tableFilter));
      trace := trace + [Subscribe(clientIdentity.value)];
      running := true;
      trace := trace + [SetRunning(true)];
    }

    /** stop: does nothing when not running; otherwise clears `running`, then stops the server. */
    method Stop()
      requires Valid()
      modifies this`running, this`trace
      ensures Valid() && !running
      ensures !old(running) ==> trace == old(trace)
      ensures old(running) ==> trace == old(trace) + [SetRunning(false), StopDestination(config.destination), StopServer]
    {
      if !running {
        return;
      }
      running := false;
      trace := trace + [SetRunning(false)];
      trace := trace + [StopDestination(config.destination)];
      trace := trace + [StopServer];
    }

    /**
     * poll: fetch until a non-empty message (waiting after each empty fetch
     * in the blocking mode), build every record of the message, then
     * acknowledge the message once. A poll that throws acknowledges nothing.
     */
    method Poll(clock: nat -> int) returns (outcome: PollOutcome)
      requires Valid() && config.batchSize >= 1
      modifies this`pending, this`trace
      ensures Valid()
      ensures !running ==> outcome == Failed(NullMessage) && pending == old(pending) && trace == old(trace)
      ensures running && FirstNonEmpty(old(pending)) == |old(pending)| ==>
        && outcome == StillWaiting
        && pending == []
        && trace == old(trace) + EmptyFetches(|old(pending)|, config)
      ensures running && FirstNonEmpty(old(pending)) < |old(pending)| ==>
        var k := FirstNonEmpty(old(pending));
        var m := old(pending)[k].value;
        var fetched := old(trace) + EmptyFetches(k, config) + [FetchCall(config)];
        && pending == old(pending)[k + 1..]
        && match Process(config, m, clock)
           case Ok(rs) => outcome == Records(rs) && trace == fetched + [Ack(Identity(), m.id)]
           case Err(e) => outcome == Failed(e) && trace == fetched
    {
      var message, exhausted := FetchMessage();
      if exhausted {
        return StillWaiting;
      }
      if message.None? {
        // the fetch loop never ran: dereferencing the null message throws
        return Failed(NullMessage);
      }
      var m := message.value;
      if m.decoded.None? {
        return Failed(ParseFailure);
      }
      var built := BuildRecords(config.serverUUID, m.id, m.decoded.value, config.batchSize, clock);
      if built.Err? {
        return Failed(built.error);
      }
      trace := trace + [Ack(clientIdentity.value, m.id)];
      outcome := Records(built.value);
    }

    /**
     * The fetch loops of poll. `message` is the last response fetched (null
     * when the loop never ran); `exhausted` says that every response the
     * server had was empty, where the source would go on fetching.
     */
    method FetchMessage() returns (message: Option<Message>, exhausted: bool)
      requires Valid()
      modifies this`pending, this`trace
      ensures !running ==> message.None? && !exhausted && pending == old(pending) && trace == old(trace)
      ensures running ==>
        var k := FirstNonEmpty(old(pending));
        if k == |old(pending)| then
          exhausted && pending == [] && trace == old(trace) + EmptyFetches(k, config)
        else
          && !exhausted
          && message == old(pending)[k]
          && pending == old(pending)[k + 1..]
          && trace == old(trace) + EmptyFetches(k, config) + [FetchCall(config)]
    {
      if config.batchTimeout < 0 {
        message, exhausted := FetchBlocking();
      } else {
        message, exhausted := FetchWithTimeout();
      }
    }

    /** The loop without a timeout: every empty fetch is followed by applyWait(emptyTimes++). */
    method FetchBlocking() returns (message: Option<Message>, exhausted: bool)
      requires config.batchTimeout < 0
      modifies this`pending, this`trace
      ensures !running ==> message.None? && !exhausted && pending == old(pending) && trace == old(trace)
      ensures running ==>
        var k := FirstNonEmpty(old(pending));
        if k == |old(pending)| then
          exhausted && pending == [] && trace == old(trace) + EmptyFetches(k, config)
        else
          && !exhausted
          && message == old(pending)[k]
          && pending == old(pending)[k + 1..]
          && trace == old(trace) + EmptyFetches(k, config) + [FetchCall(config)]
    {
      var emptyTimes: int32 := 0;
      message := None;
      exhausted := false;
      ghost var k: nat := 0;
      while running
        invariant k <= |old(pending)| && pending == old(pending)[k..]
        invariant forall j :: 0 <= j < k ==> IsEmptyFetch(old(pending)[j])
        invariant emptyTimes == Counter(k)
        invariant trace == old(trace) + EmptyFetches(k, config)
        invariant !running ==> k == 0 && message.None?
        decreases |pending|
      {
        if pending == [] {
          FirstNonEmptyIs(old(pending), k);
          exhausted := true;
          return;
        }
        message := pending[0];
        pending := pending[1..];
        trace := trace + [FetchCall(config)];
        if IsEmptyFetch(message) {
          trace := trace + [Wait(ApplyWait(emptyTimes))];
          emptyTimes := Inc(emptyTimes);
          k := k + 1;
        } else {
          break;
        }
      }
      if running {
        FirstNonEmptyIs(old(pending), k);
      } else {
        assert old(pending)[0..] == old(pending);
      }
    }

    /** The loop with a timeout: an empty fetch is retried at once. */
    method FetchWithTimeout() returns (message: Option<Message>, exhausted: bool)
      requires config.batchTimeout >= 0
      modifies this`pending, this`trace
      ensures !running ==> message.None? && !exhausted && pending == old(pending) && trace == old(trace)
      ensures running ==>
        var k := FirstNonEmpty(old(pending));
        if k == |old(pending)| then
          exhausted && pending == [] && trace == old(trace) + EmptyFetches(k, config)
        else
          && !exhausted
          && message == old(pending)[k]
          && pending == old(pending)[k + 1..]
          && trace == old(trace) + EmptyFetches(k, config) + [FetchCall(config)]
    {
      message := None;
      exhausted := false;
      ghost var k: nat := 0;
      while running
        invariant k <= |old(pending)| && pending == old(pending)[k..]
        invariant forall j :: 0 <= j < k ==> IsEmptyFetch(old(pending)[j])
        invariant trace == old(trace) + EmptyFetches(k, config)
        invariant !running ==> k == 0 && message.None?
        decreases |pending|
      {
        if pending == [] {
          FirstNonEmptyIs(old(pending), k);
          exhausted := true;
          return;
        }
        message := pending[0];
        pending := pending[1..];
        trace := trace + [FetchCall(config)];
        if IsEmptyFetch(message) {
          k := k + 1;
          continue;
        }
        break;
      }
      if running {
        FirstNonEmptyIs(old(pending), k);
      } else {
        assert old(pending)[0..] == old(pending);
      }
    }
  }

  /**
   * init(ConnectorContext): builds the filters, probes the data source type
   * and the server UUID, and throws when either probe fails; otherwise the
   * connector is configured, with the probed UUID taking over the configured
   * one when it is not empty.
   */
  method Initialize(cfg: SourceConfig, restored: Option<seq<RecordPosition>>, version: VersionProbe,
                    run: string -> UuidProbe, server: seq<Option<Message>>)
      returns (r: Result<CanalSourceIncrementConnector, ProbeError>)
    ensures r.Err? <==> ProbeServer(version, run).Err?
    ensures r.Err? ==> r.error == ProbeServer(version, run).error
    ensures r.Ok? ==>
      var uuid := ProbeServer(version, run).value;
      && fresh(r.value) && r.value.Valid()
      && r.value.config == cfg.(recordPositions := if restored.Some? then restored else cfg.recordPositions,
                                serverUUID := if IsNotEmpty(uuid) then uuid else cfg.serverUUID)
      && r.value.fieldFilter == (if IsNotEmpty(cfg.fieldFilter) then cfg.fieldFilter else None)
      && !r.value.running && r.value.clientIdentity == None && r.value.pending == server && r.value.trace == []
  {
    var probed := ProbeServer(version, run);
    if probed.Err? {
      return Err(probed.error);
    }
    var c := new CanalSourceIncrementConnector.Init(cfg, restored, probed.value, server);
    return Ok(c);
  }

  /**
   * The record-building part of poll: for each group, in the parser's order,
   * the records of that group; an empty group throws.
   */
  method BuildRecords(serverUUID: Option<string>, messageId: int, groups: seq<TxGroup>, batchSize: int,
                      clock: nat -> int)
    returns (built: Result<seq<ConnectRecord>, PollError>)
    requires batchSize >= 1
    ensures built == Assemble(serverUUID, messageId, groups, batchSize, clock, 0)
  {
    var result: seq<ConnectRecord> := [];
    var gi := 0;
    assert groups[0..] == groups;
    PrependNothing(Assemble(serverUUID, messageId, groups, batchSize, clock, 0));
    while gi < |groups|
      invariant 0 <= gi <= |groups|
      invariant Assemble(serverUUID, messageId, groups, batchSize, clock, 0)
                == Prepend(result, Assemble(serverUUID, messageId, groups[gi..], batchSize, clock, |result|))
    {
      assert groups[gi..][0] == groups[gi];
      if |groups[gi].records| == 0 {
        // get(size() - 1) on an empty list throws
        return Err(EmptyGroup);
      }
      ghost var before := result;
      result := EmitGroup(result, serverUUID, messageId, groups[gi], batchSize, clock);
      assert groups[gi..][1..] == groups[gi + 1..];
      PrependTwice(before, AssembleGroup(serverUUID, messageId, groups[gi], batchSize, clock, |before|),
                   Assemble(serverUUID, messageId, groups[gi + 1..], batchSize, clock, |result|));
      gi := gi + 1;
    }
    assert result + [] == result;
    built := Ok(result);
  }

  /**
   * The body of poll's loop over the groups: one partition and one offset
   * from the group's last record, the split, and one record per slice.
   */
  method EmitGroup(result: seq<ConnectRecord>, serverUUID: Option<string>, messageId: int, g: TxGroup,
                   batchSize: int, clock: nat -> int)
    returns (grown: seq<ConnectRecord>)
    requires |g.records| > 0 && batchSize >= 1
    ensures grown == result + AssembleGroup(serverUUID, messageId, g, batchSize, clock, |result|)
  {
    var records := g.records;
    var last := records[|records| - 1];
    var partition := PartitionOf(serverUUID, last);
    var offset := OffsetOf(g.xidOffset, last);
    var splitLists := Split(records, batchSize);
    ghost var batches := AssembleGroup(serverUUID, messageId, g, batchSize, clock, |result|);
    grown := result;
    var i := 0;
    while i < |splitLists|
      invariant 0 <= i <= |splitLists|
      invariant grown == result + batches[..i]
    {
      var record := ConnectRecord(partition, offset, clock(|grown|), messageId, i, |splitLists|, splitLists[i]);
      grown := grown + [record];
      i := i + 1;
    }
    assert batches[..i] == batches;
  }

  /** Starting twice and stopping twice has the effect of one start and one stop. */
  method StartStopTwice(c: CanalSourceIncrementConnector)
    requires c.Valid() && !c.running
    modifies c`running, c`clientIdentity, c`trace
    ensures c.Valid() && !c.running && c.clientIdentity == Some(c.Identity())
    ensures c.trace == old(c.trace)
      + [StartTableMgr, StartServer, StartDestination(c.config.destination), Subscribe(c.Identity()), SetRunning(true)]
      + [SetRunning(false), StopDestination(c.config.destination), StopServer]
  {
    c.Start();
    c.Start();
    c.Stop();
    c.Stop();
  }
}
