/** The consumer engine's table of group states and the adapter session that drives one transaction at a time. A
    session, its bridge and the table show part of the runtime of `Runtime`, and each method takes them where the step
    of that name takes the runtime. */
module Sessions {
  import opened Basics
  import opened ConsumerGroup
  import D = Durability
  import opened Transactions
  import opened Runtime
  import opened RuntimeSafety
  import opened Engine

  // ------------------------------------------------------------ what a session shows of the runtime

  type States = map<Key, Group>

  /** The live states of the runtime are these. */
  ghost predicate Holds(s: Sys, states: States) {
    && (forall k :: k in states <==> Live(s, k).Some?)
    && (forall k :: k in states ==> states[k] == Live(s, k).value)
  }

  ghost predicate Shows(s: Sys, sid: nat, states: States, b: Bridge, ses: Session) {
    sid in s.sessions && s.sessions[sid] == ses && s.bridge == b && Holds(s, states)
  }

  lemma HoldsDropped(s: Sys, s': Sys, states: States, dropped: set<Key>)
    requires Holds(s, states)
    requires forall k :: Live(s', k) == if k in dropped then None else Live(s, k)
    ensures Holds(s', states - dropped)
  {
  }

  /** Creating the state of a group, as the table does on first use. */
  lemma HoldsJoined(s: Sys, states: States, k: Key)
    requires Holds(s, states) && k in s.worlds
    ensures Holds(Next(s, Joined(k)), if k in states then states else states[k := FRESH])
  {
    assert forall j :: j != k ==> Live(Next(s, Joined(k)), j) == Live(s, j);
  }

  lemma HoldsAcked(s: Sys, s': Sys, states: States, k: Key, g: Group)
    requires Holds(s, states) && k in states && Live(s', k) == Some(g)
    requires forall j :: j != k ==> Live(s', j) == Live(s, j)
    ensures Holds(s', states[k := g])
  {
  }

  // ------------------------------------------------------------ the table of states

  class ConsumerEngine {
    var states: map<Key, GroupState>

    /** No two groups share a state. */
    ghost predicate Valid()
      reads this
    {
      forall j, k :: j in states && k in states && j != k ==> states[j] != states[k]
    }

    ghost function Values(): States
      reads this, states.Values
    {
      map k | k in states :: states[k].Value()
    }

    constructor ()
      ensures states == map[] && Valid()
    {
      states := map[];
    }

    /** The state of a group, created on first use. */
    method State(key: Key, ghost s: Sys) returns (g: GroupState)
      requires Valid() && Holds(s, Values()) && key in s.worlds
      modifies this
      ensures Valid() && key in states && states[key] == g && Holds(Next(s, Joined(key)), Values())
      ensures Values() == if key in old(states) then old(Values()) else old(Values())[key := FRESH]
    {
      HoldsJoined(s, Values(), key);
      if key in states {
        g := states[key];
      } else {
        g := new GroupState();
        states := states[key := g];
      }
    }

    /** The state is dropped before its client is closed. */
    method Recover(key: Key)
      requires Valid()
      modifies this
      ensures Valid() && Values() == old(Values()) - {key} && states == old(states) - {key}
    {
      states := states - {key};
    }

    /** Closing the client of a group in `failing` raises, if the group has one. */
    method RecoverAll(keys: set<Key>, failing: set<Key>) returns (recovery: Recovery)
      requires Valid()
      modifies this
      ensures Valid() && Values() == old(Values()) - (keys - LeftBy(recovery))
      ensures LeftBy(recovery) <= keys
      ensures recovery.Interrupted? ==> exists k :: k in keys && k in failing && k in old(states) && k !in recovery.left
    {
      var todo := keys;
      while todo != {}
        invariant Valid() && todo <= keys
        invariant Values() == old(Values()) - (keys - todo) && states == old(states) - (keys - todo)
        decreases todo
      {
        var key :| key in todo;
        var open := key in states;
        Recover(key);
        todo := todo - {key};
        if open && key in failing { return Interrupted(todo); }
      }
      recovery := Completed;
    }
  }

  // ------------------------------------------------------------ the steps, on what is shown

  lemma BeginShows(s: Sys, sid: nat, states: States, b: Bridge, ses: Session, beginOk: bool)
    requires Shows(s, sid, states, b, ses)
    ensures var may := !ses.closed && ses.transactional && !ses.active;
            var ok := may && BeginOutcome(b, beginOk).Began?;
            Shows(BeginSession(s, sid, beginOk), sid, states, if may then Begin(b, beginOk) else b,
                  ses.(active := ses.active || ok))
  {
  }

  lemma CommitShows(s: Sys, sid: nat, states: States, b: Bridge, ses: Session, recovery: Recovery)
    requires Shows(s, sid, states, b, ses)
    ensures Shows(CommitSession(s, sid, true, recovery), sid, states, Finish(b), ses.(active := false, touched := {}))
  {
    HoldsDropped(s, CommitSession(s, sid, true, recovery), states, {});
    assert states - {} == states;
  }

  lemma AbortShows(s: Sys, sid: nat, states: States, b: Bridge, ses: Session, recovery: Recovery)
    requires Shows(s, sid, states, b, ses)
    ensures var left := states - (ses.touched - LeftBy(recovery));
            && Shows(CommitSession(s, sid, false, recovery), sid, left, Finish(b), ses.(active := false, touched := {}))
            && Shows(Rollback(s, sid, recovery), sid, left, Finish(b),
                     ses.(active := false, touched := if recovery.Completed? then {} else ses.touched))
  {
    HoldsDropped(s, CommitSession(s, sid, false, recovery), states, ses.touched - LeftBy(recovery));
    HoldsDropped(s, Rollback(s, sid, recovery), states, ses.touched - LeftBy(recovery));
  }

  lemma ForgetShows(s: Sys, sid: nat, states: States, b: Bridge, ses: Session, recovery: Recovery)
    requires Shows(s, sid, states, b, ses)
    ensures Shows(Forget(s, sid, recovery), sid, states - (ses.touched - LeftBy(recovery)), b,
                  ses.(touched := if recovery.Completed? then {} else ses.touched))
  {
    HoldsDropped(s, Forget(s, sid, recovery), states, ses.touched - LeftBy(recovery));
  }

  lemma EndTxShows(s: Sys, sid: nat, states: States, b: Bridge, ses: Session)
    requires Shows(s, sid, states, b, ses)
    ensures Shows(CommitTx(s), sid, states, Finish(b), ses) && Shows(AbortTx(s), sid, states, Finish(b), ses)
  {
    assert forall k :: Live(CommitTx(s), k) == Live(s, k) && Live(AbortTx(s), k) == Live(s, k);
  }

  lemma TouchShows(s: Sys, sid: nat, states: States, b: Bridge, ses: Session, k: Key)
    requires Shows(s, sid, states, b, ses)
    ensures Shows(Touch(s, sid, k), sid, states, b, ses.(touched := ses.touched + {k}))
  {
    assert forall j :: Live(Touch(s, sid, k), j) == Live(s, j);
  }

  /** An acknowledgement by either route: its outcome, the state of the group and the bridge. */
  function AckOne(g: Group, b: Bridge, k: Key, t: Token, staged: bool, brokerOk: bool): (AckResult, Group, Bridge) {
    var ok := if staged then StageOutcome(b, k, brokerOk).Staged? else brokerOk;
    (AckOutcome(g, t, ok), Ack(g, t, ok),
     if staged && Current(g, t) && Advances(g, t.coord)
     then StageOffset(b, k, t.coord.partition, Drained(g, t.coord).0, brokerOk) else b)
  }

  function AckTable(states: States, b: Bridge, k: Key, t: Token, staged: bool,
                    brokerOk: bool): (AckResult, States, Bridge) {
    if k !in states then (DeliveryRejected, states, b)
    else var (r, g, b') := AckOne(states[k], b, k, t, staged, brokerOk); (r, states[k := g], b')
  }

  lemma TxAckShows(s: Sys, sid: nat, states: States, b: Bridge, ses: Session, k: Key, t: Token, metadataOk: bool)
    requires Shows(s, sid, states, b, ses)
    ensures var (_, states', b') := AckTable(states, b, k, t, true, metadataOk);
            Shows(TxAck(s, k, t, metadataOk), sid, states', b', ses)
  {
    if k in states {
      HoldsAcked(s, TxAck(s, k, t, metadataOk), states, k, Ack(states[k], t, StageOutcome(b, k, metadataOk).Staged?));
    }
  }

  lemma DirectAckShows(s: Sys, sid: nat, states: States, b: Bridge, ses: Session, k: Key, t: Token, ok: bool)
    requires Shows(s, sid, states, b, ses)
    ensures var (_, states', b') := AckTable(states, b, k, t, false, ok);
            Shows(DirectAck(s, k, t, ok), sid, states', b', ses)
  {
    if k in states { HoldsAcked(s, DirectAck(s, k, t, ok), states, k, Ack(states[k], t, ok)); }
  }

  // ------------------------------------------------------------ the session

  /** Where the step of a session takes the runtime and what it shows. */
  ghost predicate Leads(s: Sys, step: Step, sid: nat, states: States, b: Bridge, ses: Session) {
    Exclusive(Next(s, step)) && Settled(Next(s, step)) && Shows(Next(s, step), sid, states, b, ses)
  }

  lemma ActiveShown(s: Sys, sid: nat, states: States, b: Bridge, ses: Session)
    requires Exclusive(s) && Shows(s, sid, states, b, ses) && ses.active
    ensures b.active && BridgeOk(b)
  {
    assert SomeActive(s.sessions);
  }

  lemma IdleLeads(s: Sys, step: Step, sid: nat, states: States, b: Bridge, ses: Session)
    requires Exclusive(s) && Settled(s) && Shows(s, sid, states, b, ses) && Next(s, step) == s
    ensures Leads(s, step, sid, states, b, ses)
  {
  }

  lemma CommittedLeads(s: Sys, sid: nat, states: States, b: Bridge, ses: Session, commitOk: bool, recovery: Recovery)
    requires Exclusive(s) && Settled(s) && Shows(s, sid, states, b, ses) && InTx(s, sid)
    ensures Leads(s, Committed(sid, commitOk, recovery), sid,
                  if commitOk then states else states - (ses.touched - LeftBy(recovery)), IDLE,
                  ses.(active := false, touched := {}))
  {
    assert SomeActive(s.sessions);
    NextExclusive(s, Committed(sid, commitOk, recovery));
    if commitOk { CommitShows(s, sid, states, b, ses, recovery); } else {
      AbortShows(s, sid, states, b, ses, recovery);
    }
  }

  lemma RolledBackLeads(s: Sys, sid: nat, states: States, b: Bridge, ses: Session, recovery: Recovery)
    requires Exclusive(s) && Settled(s) && Shows(s, sid, states, b, ses) && InTx(s, sid)
    ensures Leads(s, RolledBack(sid, recovery), sid, states - (ses.touched - LeftBy(recovery)), IDLE,
                  ses.(active := false, touched := if recovery.Completed? then {} else ses.touched))
  {
    assert SomeActive(s.sessions);
    NextExclusive(s, RolledBack(sid, recovery));
    AbortShows(s, sid, states, b, ses, recovery);
  }

  /** A close is a rollback, if a transaction is open, and the mark, if that did not raise. */
  lemma ClosedLeads(s: Sys, sid: nat, states: States, b: Bridge, ses: Session, abortOk: bool, recovery: Recovery)
    requires Exclusive(s) && Settled(s) && sid in s.sessions && !s.sessions[sid].closed
    requires Shows(if InTx(s, sid) then Next(s, RolledBack(sid, recovery)) else s, sid, states, b, ses)
    ensures var raised := InTx(s, sid) && !(abortOk && recovery.Completed?);
            Leads(s, Closed(sid, abortOk, recovery), sid, states, b, if raised then ses else ses.(closed := true))
  {
    NextExclusive(s, Closed(sid, abortOk, recovery));
    ClosedShows(if InTx(s, sid) then Next(s, RolledBack(sid, recovery)) else s, sid, states, b, ses);
  }

  lemma ClosedShows(s: Sys, sid: nat, states: States, b: Bridge, ses: Session)
    requires Shows(s, sid, states, b, ses)
    ensures Shows(s.(sessions := s.sessions[sid := s.sessions[sid].(closed := true)]), sid, states, b,
                  ses.(closed := true))
  {
    assert forall k :: Live(s.(sessions := s.sessions[sid := s.sessions[sid].(closed := true)]), k) == Live(s, k);
  }

  predicate Runs(ses: Session) {
    !ses.closed && (ses.transactional ==> ses.active)
  }

  lemma AcknowledgedLeads(s: Sys, sid: nat, states: States, b: Bridge, ses: Session, k: Key, t: Token, brokerOk: bool,
                          states': States, b': Bridge, r: AckResult)
    requires Exclusive(s) && Settled(s) && Shows(s, sid, states, b, ses) && Runs(ses)
    requires (r, states', b') == AckTable(states, b, k, t, ses.active, brokerOk)
    ensures Leads(s, Acknowledged(sid, k, t, brokerOk), sid, states', b',
                  if ses.active then ses.(touched := ses.touched + {k}) else ses)
  {
    NextExclusive(s, Acknowledged(sid, k, t, brokerOk));
    if ses.active {
      TouchShows(s, sid, states, b, ses, k);
      TxAckShows(Touch(s, sid, k), sid, states, b, ses.(touched := ses.touched + {k}), k, t, brokerOk);
    } else {
      DirectAckShows(s, sid, states, b, ses, k, t, brokerOk);
    }
  }

  // ------------------------------------------------------------ consume-publish

  /** The bridge of a consume-publish once it has its transaction. */
  function Begun(b: Bridge, ses: Session, tx: TxEnv): Bridge {
    if ses.active then b else Begin(b, tx.beginOk)
  }

  /** Whether the outputs were all produced and the acknowledgement went through, position token included. */
  predicate AttemptGood(states: States, b: Bridge, k: Key, t: Token, outputs: seq<Event>, tx: TxEnv) {
    && tx.produced >= |outputs| && k in states && tx.encodeOk
    && AckOutcome(states[k], t, StageOutcome(b, k, tx.metadataOk).Staged?).Accepted?
  }

  function AttemptIn(states: States, b: Bridge, k: Key, t: Token, outputs: seq<Event>, tx: TxEnv): (States, Bridge) {
    if tx.produced < |outputs| then (states, b)
    else var (_, states', b') := AckTable(states, b, k, t, true, tx.metadataOk); (states', b')
  }

  lemma AttemptShows(s: Sys, sid: nat, states: States, b: Bridge, ses: Session, k: Key, t: Token, outputs: seq<Event>,
                     tx: TxEnv)
    requires Shows(s, sid, states, b, ses) && (ses.active || OpensOwn(s, sid, tx))
    ensures var (states', b') := AttemptIn(states, Begun(b, ses, tx), k, t, outputs, tx);
            Shows(Attempted(s, sid, k, t, outputs, tx), sid, states', b', ses.(touched := ses.touched + {k}))
    ensures AttemptOk(s, sid, k, t, outputs, tx) == AttemptGood(states, Begun(b, ses, tx), k, t, outputs, tx)
  {
    var begun := if s.sessions[sid].active then s else s.(bridge := Begin(s.bridge, tx.beginOk));
    var produced := Produce(Touch(begun, sid, k), outputs, tx.produced);
    assert forall j :: Live(produced, j) == Live(s, j) && Live(begun, j) == Live(s, j);
    assert Shows(produced, sid, states, Begun(b, ses, tx), ses.(touched := ses.touched + {k}));
    TxAckShows(produced, sid, states, Begun(b, ses, tx), ses.(touched := ses.touched + {k}), k, t, tx.metadataOk);
  }

  /** How a consume-publish that has its transaction ends, given what its attempt has left. */
  lemma ConsumePublishShows(s: Sys, sid: nat, states: States, b: Bridge, ses: Session, k: Key, t: Token,
                            outputs: seq<Event>,
                            tx: TxEnv, a: Sys, good: bool)
    requires Exclusive(s) && sid in s.sessions && (s.sessions[sid].active || OpensOwn(s, sid, tx))
    requires a == Attempted(s, sid, k, t, outputs, tx) && good == AttemptOk(s, sid, k, t, outputs, tx)
    requires Shows(a, sid, states, b, ses)
    ensures var owns, s' := !s.sessions[sid].active, ConsumePublish(s, sid, k, t, outputs, tx);
            if good && !owns then Shows(s', sid, states, b, ses)
            else if good && tx.commitOk then Shows(s', sid, states, Finish(b), ses.(touched := {}))
            else
              var recovery := if owns then OwnRecovery(s, sid, k, t, outputs, tx) else tx.recovery;
              Shows(s', sid, states - (ses.touched - LeftBy(recovery)), if owns then Finish(b) else b,
                    ses.(touched := if recovery.Completed? then {} else ses.touched))
  {
    EndTxShows(a, sid, states, b, ses);
    if s.sessions[sid].active {
      if !good { ForgetShows(a, sid, states, b, ses, tx.recovery); }
    } else if good && tx.commitOk {
      assert forall j :: Live(Untouch(CommitTx(a), sid), j) == Live(CommitTx(a), j);
    } else {
      ForgetShows(AbortTx(a), sid, states, Finish(b), ses, OwnRecovery(s, sid, k, t, outputs, tx));
    }
  }

  datatype TxResult = Refused | Failed | Done

  /** How a consume-publish that has its transaction ends: the table, the bridge and the session. An abort that raises
      leaves no room for the recovery. */
  function Concluded(states: States, b: Bridge, ses: Session, owns: bool, good: bool,
                     tx: TxEnv): (States, Bridge, Session) {
    if good && !owns then (states, b, ses)
    else if good && tx.commitOk then (states, Finish(b), ses.(touched := {}))
    else if owns && !good && !tx.abortOk then (states, Finish(b), ses)
    else
      (states - (ses.touched - LeftBy(tx.recovery)), if owns then Finish(b) else b,
       ses.(touched := if tx.recovery.Completed? then {} else ses.touched))
  }

  /** The whole of it: what was attempted, and the end of that. */
  function Performed(states: States, b: Bridge, ses: Session, owns: bool, k: Key, t: Token, outputs: seq<Event>,
                     tx: TxEnv)
      : (States, Bridge, Session)
  {
    var (states', b') := AttemptIn(states, b, k, t, outputs, tx);
    Concluded(states', b', ses.(touched := ses.touched + {k}), owns, AttemptGood(states, b, k, t, outputs, tx), tx)
  }

  /** What the caller sees. */
  function Answer(states: States, b: Bridge, ses: Session, k: Key, t: Token, outputs: seq<Event>, tx: TxEnv): TxResult {
    if !Runs(ses) || !(ses.active || BeginOutcome(b, tx.beginOk).Began?) then Refused
    else if AttemptGood(states, Begun(b, ses, tx), k, t, outputs, tx) && (ses.active || tx.commitOk) then Done
    else Failed
  }

  lemma AttemptKeepsBridge(states: States, b: Bridge, k: Key, t: Token, outputs: seq<Event>, tx: TxEnv)
    requires b.active && BridgeOk(b)
    ensures var (_, b') := AttemptIn(states, b, k, t, outputs, tx); b'.active && BridgeOk(b')
  {
    if k in states { StageKeepsBridge(b, k, t.coord.partition, Drained(states[k], t.coord).0, tx.metadataOk); }
  }

  lemma ConsumePublishLeads(s: Sys, sid: nat, states: States, b: Bridge, ses: Session, k: Key, t: Token,
                            outputs: seq<Event>,
                            tx: TxEnv)
    requires Exclusive(s) && Settled(s) && Shows(s, sid, states, b, ses) && Runs(ses)
    requires ses.active || BeginOutcome(b, tx.beginOk).Began?
    ensures var (states', b', ses') := Performed(states, Begun(b, ses, tx), ses, !ses.active, k, t, outputs, tx);
            Leads(s, ConsumedAndPublished(sid, k, t, outputs, tx), sid, states', b', ses')
  {
    var touched, begun := ses.(touched := ses.touched + {k}), Begun(b, ses, tx);
    var (states', b') := AttemptIn(states, begun, k, t, outputs, tx);
    NextExclusive(s, ConsumedAndPublished(sid, k, t, outputs, tx));
    AttemptShows(s, sid, states, b, ses, k, t, outputs, tx);
    ConsumePublishShows(s, sid, states', b', touched, k, t, outputs, tx, Attempted(s, sid, k, t, outputs, tx),
                        AttemptGood(states, begun, k, t, outputs, tx));
    assert states' - (touched.touched - touched.touched) == states';
  }

  class AdapterSession {
    const engine: ConsumerEngine
    const bridge: TransactionBridge
    const transactional: bool
    var active: bool
    var closed: bool
    var touched: set<Key>

    ghost function Value(): Session
      reads this
    {
      Session(transactional, active, closed, touched)
    }

    /** The objects are where the runtime is, and that is in order. */
    ghost predicate Mirrors(s: Sys, sid: nat)
      reads this, bridge, engine, engine.states.Values
    {
      engine.Valid() && Exclusive(s) && Settled(s) && Shows(s, sid, engine.Values(), bridge.Value(), Value())
    }

    constructor (engine: ConsumerEngine, bridge: TransactionBridge, transactional: bool)
      ensures this.engine == engine && this.bridge == bridge && Value() == Session(transactional, false, false, {})
    {
      this.engine, this.bridge, this.transactional := engine, bridge, transactional;
      active, closed, touched := false, false, {};
    }

    method Begin(beginOk: bool, ghost s: Sys, ghost sid: nat) returns (ok: bool)
      requires Mirrors(s, sid)
      modifies this, bridge
      ensures Mirrors(Next(s, Step.Began(sid, beginOk)), sid)
      ensures ok <==> !old(active) && active
    {
      BeginShows(s, sid, engine.Values(), bridge.Value(), Value(), beginOk);
      NextExclusive(s, Step.Began(sid, beginOk));
      if closed || !transactional || active { return false; }
      var r := bridge.Begin(beginOk);
      if !r.Began? { return false; }
      active := true;
      ok := true;
    }

    /** `sent` is what the broker applies. When that is nothing, the groups that the transaction touched are
        recovered. */
    method Commit(sendOk: bool, commitOk: bool, failing: set<Key>, ghost s: Sys, ghost sid: nat)
        returns (sent: Option<map<nat, nat>>, recovery: Recovery)
      requires Mirrors(s, sid)
      modifies this, bridge, engine
      ensures Mirrors(Next(s, Committed(sid, sent.Some?, recovery)), sid)
      ensures sent == if InTx(s, sid) && commitOk && (s.bridge.offsets == map[] || sendOk) then Some(s.bridge.offsets)
                      else None
    {
      sent, recovery := None, Completed;
      ghost var states, b, ses := engine.Values(), bridge.Value(), Value();
      if closed || !active {
        IdleLeads(s, Committed(sid, false, Completed), sid, states, b, ses);
        return;
      }
      ActiveShown(s, sid, states, b, ses);
      sent, recovery := CommitBridge(sendOk, commitOk, failing);
      CommittedLeads(s, sid, states, b, ses, sent.Some?, recovery);
    }

    method CommitBridge(sendOk: bool, commitOk: bool, failing: set<Key>)
        returns (sent: Option<map<nat, nat>>, recovery: Recovery)
      requires engine.Valid() && active && bridge.active && BridgeOk(bridge.Value())
      modifies this, bridge, engine
      ensures sent == if commitOk && (old(bridge.offsets) == map[] || sendOk) then Some(old(bridge.offsets)) else None
      ensures engine.Valid() && bridge.Value() == IDLE && Value() == old(Value()).(active := false, touched := {})
      ensures engine.Values() == if sent.Some? then old(engine.Values())
                                 else old(engine.Values()) - (old(touched) - LeftBy(recovery))
    {
      sent := bridge.Commit(sendOk, commitOk);
      recovery := Settle(sent.Some?, failing);
    }

    /** Recover the touched groups unless the transaction is committed, and leave it. */
    method Settle(committed: bool, failing: set<Key>) returns (recovery: Recovery)
      requires engine.Valid()
      modifies this, engine
      ensures engine.Valid() && Value() == old(Value()).(active := false, touched := {})
      ensures engine.Values() == if committed then old(engine.Values())
                                 else old(engine.Values()) - (old(touched) - LeftBy(recovery))
    {
      recovery := Completed;
      if !committed { recovery := engine.RecoverAll(touched, failing); }
      active := false;
      touched := {};
    }

    /** Whether or not the abort raises, the touched groups are recovered, as far as that goes. */
    method Rollback(failing: set<Key>, ghost s: Sys, ghost sid: nat) returns (recovery: Recovery)
      requires Mirrors(s, sid)
      modifies this, bridge, engine
      ensures Mirrors(Next(s, RolledBack(sid, recovery)), sid)
      ensures closed == old(closed)
    {
      recovery := Completed;
      ghost var states, b, ses := engine.Values(), bridge.Value(), Value();
      if closed || !active {
        IdleLeads(s, RolledBack(sid, Completed), sid, states, b, ses);
        return;
      }
      ActiveShown(s, sid, states, b, ses);
      recovery := AbortBridge(failing);
      RolledBackLeads(s, sid, states, b, ses, recovery);
    }

    method AbortBridge(failing: set<Key>) returns (recovery: Recovery)
      requires engine.Valid() && active && bridge.active && BridgeOk(bridge.Value())
      modifies this, bridge, engine
      ensures engine.Valid() && bridge.Value() == IDLE
      ensures Value() == old(Value()).(active := false, touched := if recovery.Completed? then {} else old(touched))
      ensures engine.Values() == old(engine.Values()) - (old(touched) - LeftBy(recovery))
    {
      bridge.Abort();
      active := false;
      recovery := RecoverTouched(failing);
    }

    /** Recover the touched groups and forget them, unless that was interrupted. */
    method RecoverTouched(failing: set<Key>) returns (recovery: Recovery)
      requires engine.Valid()
      modifies this`touched, engine
      ensures engine.Valid() && touched == if recovery.Completed? then {} else old(touched)
      ensures engine.Values() == old(engine.Values()) - (old(touched) - LeftBy(recovery))
    {
      recovery := engine.RecoverAll(touched, failing);
      if recovery.Completed? { touched := {}; }
    }

    /** A close that finds a transaction rolls it back; if that raises, the session is not marked closed. */
    method Close(abortOk: bool, failing: set<Key>, ghost s: Sys, ghost sid: nat) returns (recovery: Recovery)
      requires Mirrors(s, sid)
      modifies this, bridge, engine
      ensures Mirrors(Next(s, Closed(sid, abortOk, recovery)), sid)
    {
      recovery := Completed;
      if closed {
        IdleLeads(s, Closed(sid, abortOk, Completed), sid, engine.Values(), bridge.Value(), Value());
        return;
      }
      var ending := active;
      if ending { recovery := Rollback(failing, s, sid); }
      ClosedLeads(s, sid, engine.Values(), bridge.Value(), Value(), abortOk, recovery);
      if ending && !(abortOk && recovery.Completed?) { return; }
      closed := true;
    }

    /** An acknowledgement: inside a transaction the group is recorded as touched first, and an advance is staged. */
    method Acknowledge(k: Key, t: Token, brokerOk: bool, tokenOk: bool, ghost s: Sys, ghost sid: nat)
        returns (r: AckResult, answered: bool)
      requires Mirrors(s, sid)
      modifies this, bridge, if k in engine.states then {engine.states[k]} else {}
      ensures Mirrors(Next(s, Acknowledged(sid, k, t, brokerOk)), sid)
      ensures r == if Runs(old(Value()))
                   then AckTable(old(engine.Values()), old(bridge.Value()), k, t, old(active), brokerOk).0
                   else DeliveryRejected
      ensures answered == (r.Accepted? && tokenOk)
    {
      ghost var states, b, ses := engine.Values(), bridge.Value(), Value();
      if closed || (transactional && !active) {
        IdleLeads(s, Acknowledged(sid, k, t, brokerOk), sid, states, b, ses);
        return DeliveryRejected, false;
      }
      if active { touched := touched + {k}; }
      r, answered := AckState(k, t, active, brokerOk, tokenOk);
      AcknowledgedLeads(s, sid, states, b, ses, k, t, brokerOk, engine.Values(), bridge.Value(), r);
    }

    /** The acknowledgement in the state of the group, if it has one. */
    method AckState(k: Key, t: Token, staged: bool, brokerOk: bool,
                    tokenOk: bool) returns (r: AckResult, answered: bool)
      requires engine.Valid()
      modifies bridge, if k in engine.states then {engine.states[k]} else {}
      ensures engine.Valid() && engine.states == old(engine.states) && Value() == old(Value())
      ensures (r, engine.Values(), bridge.Value()) == AckTable(old(engine.Values()), old(bridge.Value()), k, t, staged,
                                                               brokerOk)
      ensures answered == (r.Accepted? && tokenOk)
    {
      if k !in engine.states { return DeliveryRejected, false; }
      ghost var states := engine.Values();
      r, answered := AckEntry(k, t, staged, brokerOk, tokenOk);
      assert engine.Values() == states[k := engine.states[k].Value()];
    }

    method AckEntry(k: Key, t: Token, staged: bool, brokerOk: bool,
                    tokenOk: bool) returns (r: AckResult, answered: bool)
      requires engine.Valid() && k in engine.states
      modifies bridge, engine.states[k]
      ensures engine.states == old(engine.states) && Value() == old(Value())
      ensures forall j :: j in engine.states && j != k ==> engine.states[j].Value() == old(engine.states[j].Value())
      ensures (r, engine.states[k].Value(), bridge.Value()) ==
              AckOne(old(engine.states[k].Value()), old(bridge.Value()), k, t, staged, brokerOk)
      ensures answered == (r.Accepted? && tokenOk)
    {
      var committed;
      if staged {
        r, committed, answered := engine.states[k].Acknowledge(t, k, bridge, brokerOk, tokenOk);
      } else {
        r, committed, answered := engine.states[k].Acknowledge(t, k, null, brokerOk, tokenOk);
      }
    }

    /** Produce the outputs, then acknowledge through the bridge. */
    method Attempt(k: Key, t: Token, outputs: seq<Event>, tx: TxEnv) returns (good: bool)
      requires engine.Valid()
      modifies bridge, if k in engine.states then {engine.states[k]} else {}
      ensures engine.Valid() && engine.states == old(engine.states) && Value() == old(Value())
      ensures good == AttemptGood(old(engine.Values()), old(bridge.Value()), k, t, outputs, tx)
      ensures (engine.Values(), bridge.Value()) == AttemptIn(old(engine.Values()), old(bridge.Value()), k, t, outputs,
                                                             tx)
    {
      if tx.produced < |outputs| { return false; }
      var r;
      r, good := AckState(k, t, true, tx.metadataOk, tx.encodeOk);
    }

    /** Commit a transaction of its own, or abort it and recover. `recovery` is how far that got. */
    method Conclude(owns: bool, good: bool, tx: TxEnv, failing: set<Key>) returns (done: bool, recovery: Recovery)
      requires engine.Valid() && bridge.active && BridgeOk(bridge.Value())
      modifies this, bridge, engine
      ensures engine.Valid() && done == (good && (owns ==> tx.commitOk))
      ensures (engine.Values(), bridge.Value(), Value()) ==
              Concluded(old(engine.Values()), old(bridge.Value()), old(Value()), owns, good, tx.(recovery := recovery))
    {
      done, recovery := false, Completed;
      if good && !owns { return true, Completed; }
      if good {
        var sent := bridge.Commit(true, tx.commitOk);
        if sent.Some? {
          touched := {};
          return true, Completed;
        }
      } else if owns {
        bridge.Abort();
        if !tx.abortOk { return; }
      }
      recovery := RecoverTouched(failing);
    }

    /** Publish the outputs and acknowledge the source in one transaction: the caller's if one is open, else its own.
        `shown` is what becomes visible during the call, `all` adds to the answers how far the recovery got. */
    method ConsumePublish(k: Key, t: Token, outputs: seq<Event>, tx: TxEnv, failing: set<Key>, ghost s: Sys,
                          ghost sid: nat)
        returns (r: TxResult, shown: seq<Event>, ghost all: TxEnv)
      requires Mirrors(s, sid)
      modifies this, bridge, engine, if k in engine.states then {engine.states[k]} else {}
      ensures all == tx.(recovery := all.recovery)
      ensures Mirrors(Next(s, ConsumedAndPublished(sid, k, t, outputs, all)), sid)
      ensures r == Answer(old(engine.Values()), old(bridge.Value()), old(Value()), k, t, outputs, tx)
      ensures shown == if r == Done && !old(active) then outputs else []
    {
      ghost var states, b, ses := engine.Values(), bridge.Value(), Value();
      var recovery;
      r, shown, recovery := Transact(k, t, outputs, tx, failing);
      all := tx.(recovery := recovery);
      if r == Refused {
        IdleLeads(s, ConsumedAndPublished(sid, k, t, outputs, all), sid, states, b, ses);
      } else {
        ConsumePublishLeads(s, sid, states, b, ses, k, t, outputs, all);
      }
    }

    method Transact(k: Key, t: Token, outputs: seq<Event>, tx: TxEnv, failing: set<Key>)
        returns (r: TxResult, shown: seq<Event>, recovery: Recovery)
      requires engine.Valid() && BridgeOk(bridge.Value()) && (active ==> bridge.active)
      modifies this, bridge, engine, if k in engine.states then {engine.states[k]} else {}
      ensures engine.Valid() && r == Answer(old(engine.Values()), old(bridge.Value()), old(Value()), k, t, outputs, tx)
      ensures shown == if r == Done && !old(active) then outputs else []
      ensures (engine.Values(), bridge.Value(), Value()) ==
              if r == Refused then (old(engine.Values()), old(bridge.Value()), old(Value()))
              else Performed(old(engine.Values()), Begun(old(bridge.Value()), old(Value()), tx), old(Value()),
                             !old(active), k, t, outputs,
                             tx.(recovery := recovery))
    {
      shown, recovery := [], Completed;
      if closed || (transactional && !active) { return Refused, [], Completed; }
      var owns := !active;
      var open := Ensure(tx.beginOk);
      if !open { return Refused, [], Completed; }
      var done;
      done, recovery := Perform(owns, k, t, outputs, tx, failing);
      r, shown := if done then Done else Failed, if done && owns then outputs else [];
    }

    /** The attempt and its end, once there is a transaction. */
    method Perform(owns: bool, k: Key, t: Token, outputs: seq<Event>, tx: TxEnv, failing: set<Key>)
        returns (done: bool, recovery: Recovery)
      requires engine.Valid() && bridge.active && BridgeOk(bridge.Value())
      modifies this, bridge, engine, if k in engine.states then {engine.states[k]} else {}
      ensures engine.Valid()
      ensures done == (AttemptGood(old(engine.Values()), old(bridge.Value()), k, t, outputs, tx)
                       && (owns ==> tx.commitOk))
      ensures (engine.Values(), bridge.Value(), Value()) ==
              Performed(old(engine.Values()), old(bridge.Value()), old(Value()), owns, k, t, outputs,
                        tx.(recovery := recovery))
    {
      AttemptKeepsBridge(engine.Values(), bridge.Value(), k, t, outputs, tx);
      touched := touched + {k};
      var good := Attempt(k, t, outputs, tx);
      done, recovery := Conclude(owns, good, tx, failing);
    }

    /** A transaction for a consume-publish: the one that is open, or its own. */
    method Ensure(beginOk: bool) returns (open: bool)
      modifies bridge
      ensures open == (active || BeginOutcome(old(bridge.Value()), beginOk).Began?)
      ensures bridge.Value() == if active then old(bridge.Value()) else Transactions.Begin(old(bridge.Value()), beginOk)
    {
      if active { return true; }
      var r := bridge.Begin(beginOk);
      open := r.Began?;
    }
  }
}
