/** One open runtime: every consumer group with its broker side, the transaction bridge, and any number of sessions.
    Each call of a session, each callback and each broker event is one step. Answers of the broker and the clients are
    part of the step. */
module Runtime {
  import opened Basics
  import opened ConsumerGroup
  import D = Durability
  import opened Transactions

  type Event = string

  datatype Session = Session(transactional: bool, active: bool, closed: bool, touched: set<Key>)

  datatype Sys = Sys(
    worlds: map<Key, D.World>,
    bridge: Bridge,
    sessions: map<nat, Session>,
    visible: seq<Event>,      // published events that read-committed consumers can see
    buffered: seq<Event>)     // published inside the active transaction

  /** How the recovery of the touched groups goes: closing the client of one may raise, which leaves the groups that
      were not reached by then as they are. */
  datatype Recovery = Completed | Interrupted(left: set<Key>)

  function LeftBy(r: Recovery): set<Key> {
    if r.Completed? then {} else r.left
  }

  /** What the broker and the clients answer during one transactional consume-publish. */
  datatype TxEnv = TxEnv(beginOk: bool, produced: nat, metadataOk: bool, encodeOk: bool, commitOk: bool, abortOk: bool,
                         recovery: Recovery)

  datatype Step =
    // the broker and the other members of the group
    | Appended(k: Key, c: Coord, decodable: bool)
    | Truncated(k: Key, removed: set<Coord>)
    | PeerCommitted(k: Key, p: nat, start: nat, end: nat, resolved: set<Coord>)
    // polling: creating the state, rebalance callbacks, expiry, resume and messages
    | Joined(k: Key)
    | Assigned(k: Key, starts: map<nat, nat>)
    | Revoked(k: Key, partitions: set<nat>)
    | Expired(k: Key, rewind: map<nat, nat>)
    | Resumed(k: Key, due: set<nat>, sought: set<nat>)
    | Delivered(k: Key, c: Coord, clock: int, expiresAt: int, decodable: bool, minted: bool, seekOk: bool)
    | Recovered(k: Key)
    // session calls
    | Opened(sid: nat, transactional: bool)
    | Began(sid: nat, beginOk: bool)
    | Acknowledged(sid: nat, k: Key, t: Token, brokerOk: bool)
    | NegativelyAcknowledged(sid: nat, k: Key, t: Token, policy: DeadLetterPolicy, retryAfter: nat, clock: int,
                             env: NackEnv)
    | Positioned(sid: nat, k: Key, target: map<nat, nat>, commitOk: bool)
    | Published(sid: nat, events: seq<Event>, produced: nat)
    | ConsumedAndPublished(sid: nat, k: Key, t: Token, outputs: seq<Event>, tx: TxEnv)
    | Committed(sid: nat, commitOk: bool, recovery: Recovery)
    | RolledBack(sid: nat, recovery: Recovery)
    | Closed(sid: nat, abortOk: bool, recovery: Recovery)

  function Live(s: Sys, k: Key): Option<Group> {
    if k in s.worlds then s.worlds[k].live else None
  }

  predicate CanExecute(s: Sys, sid: nat) {
    sid in s.sessions && !s.sessions[sid].closed && (s.sessions[sid].transactional ==> s.sessions[sid].active)
  }

  function WithLive(s: Sys, k: Key, g: Group): Sys {
    if k in s.worlds then s.(worlds := s.worlds[k := s.worlds[k].(live := Some(g))]) else s
  }

  function WithWorld(s: Sys, k: Key, w: D.World): Sys {
    s.(worlds := s.worlds[k := w])
  }

  // -------------------------------------------------------- ends of a transaction

  function RecoverAll(worlds: map<Key, D.World>, keys: set<Key>): map<Key, D.World> {
    map k | k in worlds :: if k in keys then D.Recovered(worlds[k]) else worlds[k]
  }

  function CommitAll(worlds: map<Key, D.World>, b: Bridge): map<Key, D.World> {
    map k | k in worlds :: D.TxCommitted(worlds[k], StagedFor(b, k))
  }

  function AbortAll(worlds: map<Key, D.World>): map<Key, D.World> {
    map k | k in worlds :: D.TxAborted(worlds[k])
  }

  /** The producer committed: staged offsets and buffered events take effect together. */
  function CommitTx(s: Sys): Sys {
    s.(worlds := CommitAll(s.worlds, s.bridge), bridge := Finish(s.bridge), visible := s.visible + s.buffered,
       buffered := [])
  }

  function AbortTx(s: Sys): Sys {
    s.(worlds := AbortAll(s.worlds), bridge := Finish(s.bridge), buffered := [])
  }

  /** The touched groups are dropped, except those that an interrupted recovery did not reach. */
  function Drop(s: Sys, sid: nat, recovery: Recovery): map<Key, D.World>
    requires sid in s.sessions
  {
    RecoverAll(s.worlds, s.sessions[sid].touched - LeftBy(recovery))
  }

  function Leave(s: Sys, sid: nat, touched: set<Key>): Sys
    requires sid in s.sessions
  {
    s.(sessions := s.sessions[sid := s.sessions[sid].(active := false, touched := touched)])
  }

  /** A commit forgets what was touched in any case. */
  function CommitSession(s: Sys, sid: nat, commitOk: bool, recovery: Recovery): Sys
    requires sid in s.sessions
  {
    if commitOk then Leave(CommitTx(s), sid, {})
    else Leave(AbortTx(s).(worlds := Drop(AbortTx(s), sid, recovery)), sid, {})
  }

  /** A rollback forgets what was touched unless its recovery was interrupted. */
  function Rollback(s: Sys, sid: nat, recovery: Recovery): Sys
    requires sid in s.sessions
  {
    Leave(AbortTx(s).(worlds := Drop(AbortTx(s), sid, recovery)), sid,
          if recovery.Completed? then {} else s.sessions[sid].touched)
  }

  // -------------------------------------------------------- acknowledgement routes

  /** The session records the group before it acknowledges anything in it. */
  function Touch(s: Sys, sid: nat, k: Key): Sys
    requires sid in s.sessions
  {
    s.(sessions := s.sessions[sid := s.sessions[sid].(touched := s.sessions[sid].touched + {k})])
  }

  /** An acknowledgement through the bridge: only an advance is staged, and staging can fail. */
  function TxAck(s: Sys, k: Key, t: Token, metadataOk: bool): Sys {
    if Live(s, k).None? then s else
      var g := Live(s, k).value;
      var staged := StageOutcome(s.bridge, k, metadataOk).Staged?;
      s.(worlds := s.worlds[k := D.TxAck(s.worlds[k], g, t, staged)],
         bridge := if Current(g, t) && Advances(g, t.coord)
                   then StageOffset(s.bridge, k, t.coord.partition, Drained(g, t.coord).0, metadataOk)
                   else s.bridge)
  }

  predicate TxAckAccepted(s: Sys, k: Key, t: Token, metadataOk: bool) {
    Live(s, k).Some? && AckOutcome(Live(s, k).value, t, StageOutcome(s.bridge, k, metadataOk).Staged?).Accepted?
  }

  function DirectAck(s: Sys, k: Key, t: Token, commitOk: bool): Sys {
    if Live(s, k).None? then s
    else WithWorld(s, k, D.DirectAck(s.worlds[k], Live(s, k).value, t, commitOk))
  }

  // -------------------------------------------------------- consume-publish

  function Produce(s: Sys, events: seq<Event>, produced: nat): Sys {
    s.(buffered := s.buffered + Taken(events, produced))
  }

  function Taken(events: seq<Event>, produced: nat): seq<Event> {
    if produced < |events| then events[..produced] else events
  }

  predicate OpensOwn(s: Sys, sid: nat, tx: TxEnv)
    requires sid in s.sessions
  {
    !s.sessions[sid].active && BeginOutcome(s.bridge, tx.beginOk).Began?
  }

  /** After the outputs were produced and, if all of them were, the delivery was acknowledged. */
  function Attempted(s: Sys, sid: nat, k: Key, t: Token, outputs: seq<Event>, tx: TxEnv): Sys
    requires sid in s.sessions
  {
    var begun := if s.sessions[sid].active then s else s.(bridge := Begin(s.bridge, tx.beginOk));
    var produced := Produce(Touch(begun, sid, k), outputs, tx.produced);
    if tx.produced < |outputs| then produced else TxAck(produced, k, t, tx.metadataOk)
  }

  /** Whether the acknowledgement inside the attempt went through, position token included. */
  predicate AttemptOk(s: Sys, sid: nat, k: Key, t: Token, outputs: seq<Event>, tx: TxEnv)
    requires sid in s.sessions
  {
    var begun := if s.sessions[sid].active then s else s.(bridge := Begin(s.bridge, tx.beginOk));
    tx.produced >= |outputs| && TxAckAccepted(begun, k, t, tx.metadataOk) && tx.encodeOk
  }

  function Forget(s: Sys, sid: nat, recovery: Recovery): Sys
    requires sid in s.sessions
  {
    s.(worlds := Drop(s, sid, recovery),
       sessions := s.sessions[sid := s.sessions[sid].(touched := if recovery.Completed? then {}
                                                                 else s.sessions[sid].touched)])
  }

  function Untouch(s: Sys, sid: nat): Sys
    requires sid in s.sessions
  {
    s.(sessions := s.sessions[sid := s.sessions[sid].(touched := {})])
  }

  /** The recovery after a consume-publish of its own has failed. An abort that raises leaves no room for it. */
  function OwnRecovery(s: Sys, sid: nat, k: Key, t: Token, outputs: seq<Event>, tx: TxEnv): Recovery
    requires sid in s.sessions
  {
    if AttemptOk(s, sid, k, t, outputs, tx) || tx.abortOk then tx.recovery
    else Interrupted(s.sessions[sid].touched + {k})
  }

  function ConsumePublish(s: Sys, sid: nat, k: Key, t: Token, outputs: seq<Event>, tx: TxEnv): Sys
    requires sid in s.sessions
  {
    var owns := !s.sessions[sid].active;
    if owns && !OpensOwn(s, sid, tx) then s
    else
      var a, good := Attempted(s, sid, k, t, outputs, tx), AttemptOk(s, sid, k, t, outputs, tx);
      if !owns then (if good then a else Forget(a, sid, tx.recovery))
      else if good && tx.commitOk then Untouch(CommitTx(a), sid)
      else Forget(AbortTx(a), sid, OwnRecovery(s, sid, k, t, outputs, tx))
  }

  // -------------------------------------------------------- the step function

  function Next(s: Sys, step: Step): Sys {
    match step
    case Appended(k, c, decodable) => if k in s.worlds then WithWorld(s, k, D.Append(s.worlds[k], c, decodable)) else s
    case Truncated(k, removed) => if k in s.worlds then WithWorld(s, k, D.Truncate(s.worlds[k], removed)) else s
    case PeerCommitted(k, p, start, end, resolved) =>
      if k in s.worlds then WithWorld(s, k, D.Peer(s.worlds[k], p, start, end, resolved)) else s
    case Joined(k) => if k in s.worlds then WithWorld(s, k, D.Opened(s.worlds[k])) else s
    case Assigned(k, starts) =>
      if Live(s, k).Some? then WithWorld(s, k, D.AssignedAt(s.worlds[k], Live(s, k).value, starts)) else s
    case Revoked(k, partitions) =>
      if Live(s, k).Some? then WithLive(s, k, ConsumerGroup.Revoked(Live(s, k).value, partitions)) else s
    case Expired(k, rewind) => if Live(s, k).Some? then WithLive(s, k, Rewind(Live(s, k).value, rewind)) else s
    case Resumed(k, due, sought) =>
      if Live(s, k).Some? then WithLive(s, k, Resume(Live(s, k).value, due, sought)) else s
    case Delivered(k, c, clock, expiresAt, decodable, minted, seekOk) =>
      if Live(s, k).Some? then WithLive(s, k,
                                        Deliver(Live(s, k).value, c, clock, expiresAt, decodable, minted,
                                                seekOk)) else s
    case Recovered(k) => if k in s.worlds then WithWorld(s, k, D.Recovered(s.worlds[k])) else s
    case Opened(sid, transactional) =>
      if sid in s.sessions then s else s.(sessions := s.sessions[sid := Session(transactional, false, false, {})])
    case Began(sid, beginOk) => BeginSession(s, sid, beginOk)
    case Acknowledged(sid, k, t, brokerOk) =>
      if !CanExecute(s, sid) then s
      else if s.sessions[sid].active then TxAck(Touch(s, sid, k), k, t, brokerOk)
      else DirectAck(s, k, t, brokerOk)
    case NegativelyAcknowledged(sid, k, t, policy, retryAfter, clock, env) =>
      if !CanExecute(s, sid) || s.sessions[sid].active || Live(s, k).None? then s
      else WithWorld(s, k, D.Nacked(s.worlds[k], Live(s, k).value, t, policy, retryAfter, clock, env))
    case Positioned(sid, k, target, commitOk) =>
      if Repositions(s, step, k) then
        WithWorld(s, k, D.Repositioned(D.Opened(s.worlds[k]), D.Opened(s.worlds[k]).live.value, target))
      else if !CanExecute(s, sid) || s.sessions[sid].active || k !in s.worlds then s
      else WithWorld(s, k, D.Opened(s.worlds[k]))
    case Published(sid, events, produced) =>
      if !CanExecute(s, sid) then s
      else if s.sessions[sid].active then Produce(s, events, produced)
      else s.(visible := s.visible + Taken(events, produced))
    case ConsumedAndPublished(sid, k, t, outputs, tx) =>
      if !CanExecute(s, sid) then s else ConsumePublish(s, sid, k, t, outputs, tx)
    case Committed(sid, commitOk, recovery) => if !InTx(s, sid) then s else CommitSession(s, sid, commitOk, recovery)
    case RolledBack(sid, recovery) => if !InTx(s, sid) then s else Rollback(s, sid, recovery)
    case Closed(sid, abortOk, recovery) =>
      if sid !in s.sessions || s.sessions[sid].closed then s
      else
        var r := if s.sessions[sid].active then Rollback(s, sid, recovery) else s;
        if s.sessions[sid].active && !(abortOk && recovery.Completed?)
        then r     // the rollback raised: not marked closed
        else r.(sessions := r.sessions[sid := r.sessions[sid].(closed := true)])
  }

  predicate InTx(s: Sys, sid: nat) {
    sid in s.sessions && !s.sessions[sid].closed && s.sessions[sid].active
  }

  function BeginSession(s: Sys, sid: nat, beginOk: bool): Sys {
    if sid !in s.sessions || s.sessions[sid].closed || !s.sessions[sid].transactional || s.sessions[sid].active then s
    else if BeginOutcome(s.bridge, beginOk).Began? then
      s.(bridge := Begin(s.bridge, beginOk), sessions := s.sessions[sid := s.sessions[sid].(active := true)])
    else s
  }

  /** A group-position call that goes through for group `k`. */
  predicate Repositions(s: Sys, step: Step, k: Key) {
    && step.Positioned? && step.k == k && step.commitOk && k in s.worlds
    && CanExecute(s, step.sid) && !s.sessions[step.sid].active
  }

  function Run(s: Sys, steps: seq<Step>): Sys {
    if steps == [] then s else Next(Run(s, steps[..|steps| - 1]), steps[|steps| - 1])
  }

  // -------------------------------------------------------- what the environment may do

  /** The rewind of an expiry pass, or of the part of it that ran before a seek raised. */
  ghost predicate ExpiryAllowed(g: Group, rewind: map<nat, nat>) {
    exists now: int, whole: map<nat, nat> ::
      LeastExpired(g, now, whole) && forall p :: p in rewind ==> p in whole && rewind[p] == whole[p]
  }

  ghost predicate Enabled(s: Sys, step: Step) {
    match step
    case Appended(k, c, _) => k in s.worlds ==> D.High(s.worlds[k], c.partition) <= c.offset
    case PeerCommitted(k, p, start, end, resolved) =>
      k in s.worlds ==> D.PeerAllowed(s.worlds[k], p, start, end, resolved)
    case Assigned(k, starts) => k in s.worlds ==> D.StartsAllowed(s.worlds[k], starts)
    case Expired(k, rewind) => Live(s, k).Some? ==> ExpiryAllowed(Live(s, k).value, rewind)
    case Delivered(k, c, _, _, decodable, _, _) =>
      Live(s, k).Some? ==> D.NextMessage(s.worlds[k], Live(s, k).value, c, decodable)
    case Positioned(_, k, target, _) =>
      k in s.worlds ==> D.TargetAllowed(s.worlds[k], D.Opened(s.worlds[k]).live.value, target)
    case _ => true
  }

  /** The active transaction has acknowledged something in group `k`. */
  ghost predicate TouchedBy(sessions: map<nat, Session>, k: Key) {
    exists sid :: sid in sessions && sessions[sid].active && k in sessions[sid].touched
  }

  /** Nothing was acknowledged in these groups inside the transaction. */
  ghost predicate Harmless(s: Sys, left: set<Key>) {
    forall k :: k in left && k in s.worlds ==> s.worlds[k].pending == {}
  }

  /** How the calls must be routed. A group that the active transaction touched is acknowledged through the bridge only,
      a group it uses is not repositioned, and when a transaction fails the recovery reaches the groups it acknowledged
      in. */
  ghost predicate Routed(s: Sys, step: Step) {
    match step
    case Acknowledged(sid, k, t, _) =>
      CanExecute(s, sid) && !s.sessions[sid].active ==> !TouchedBy(s.sessions, k)
    case NegativelyAcknowledged(sid, k, t, policy, retryAfter, _, env) =>
      Live(s, k).Some? && NackOutcome(Live(s, k).value, t, policy, retryAfter, env).DeadLettered? ==>
          !TouchedBy(s.sessions, k)
    case Positioned(_, k, _, _) => !TouchedBy(s.sessions, k) && s.bridge.groupKey != Some(k)
    case ConsumedAndPublished(sid, k, t, outputs, tx) =>
      CanExecute(s, sid) && OpensOwn(s, sid, tx) && !(AttemptOk(s, sid, k, t, outputs, tx) && tx.commitOk) ==>
        Harmless(Attempted(s, sid, k, t, outputs, tx), LeftBy(OwnRecovery(s, sid, k, t, outputs, tx)))
    case Committed(sid, commitOk, recovery) => InTx(s, sid) && !commitOk ==> Harmless(s, LeftBy(recovery))
    case RolledBack(sid, recovery) => InTx(s, sid) ==> Harmless(s, LeftBy(recovery))
    case Closed(sid, _, recovery) => InTx(s, sid) ==> Harmless(s, LeftBy(recovery))
    case _ => true
  }

  ghost predicate RunAllowed(s: Sys, steps: seq<Step>) {
    forall i :: 0 <= i < |steps| ==> Enabled(Run(s, steps[..i]), steps[i])
  }

  ghost predicate RunRouted(s: Sys, steps: seq<Step>) {
    forall i :: 0 <= i < |steps| ==> Routed(Run(s, steps[..i]), steps[i])
  }

  /** A runtime that was just opened: no sessions, and each group starts at what the broker has committed. */
  ghost predicate Init(s: Sys) {
    && s.bridge == IDLE && s.sessions == map[] && s.buffered == []
    && forall k :: k in s.worlds ==> InitWorld(s.worlds[k])
  }

  ghost predicate InitWorld(w: D.World) {
    && w.live.None? && w.done == {} && w.parked == {} && w.pending == {} && w.base == w.committed
    && forall p :: p in w.committed ==> w.committed[p] <= D.High(w, p)
  }
}
