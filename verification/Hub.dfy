/**
 * The WebSocket hub (internal/websocket/hub.go): the connection registry, the bounded
 * per-connection channels and the writer goroutines, as interleaved steps.
 *
 * A step is what one goroutine does without another being able to observe the middle of it.
 * SendToUser holds the hub mutex over its whole loop, but the writer goroutines take messages out of
 * the channels without that mutex, so each iteration of its loop is a step of its own.
 */
module WebSocketHub {
  import opened Common

  const SEND_BUF_SIZE := 256

  type UserId = nat
  type Socket = nat
  type Msg = string
  type ConnId = nat

  /** Where the writer goroutine of a connection is. `lost` is the message whose write failed, if any. */
  datatype Pump =
    | NotStarted
    | Waiting
    | Writing(msg: Msg)
    | Failed(lost: seq<Msg>)
    | Abandoned(lost: seq<Msg>)
    | Drained

  /**
   * One connection: its socket, its channel (`buffer`, `closed`) and its writer. `written` is what
   * reached the socket. `since` and `removedAt` are history: the length of the hub's send log when
   * the connection was registered and when it left the registry.
   */
  datatype Conn = Conn(user: UserId, ws: Socket, buffer: seq<Msg>, closed: bool, pump: Pump,
                       written: seq<Msg>, since: nat, removedAt: Option<nat>)
  {
    function InFlight(): seq<Msg> {
      match pump
      case Writing(m) => [m]
      case Failed(lost) => lost
      case Abandoned(lost) => lost
      case _ => []
    }

    /** Every message the channel ever accepted, in order. */
    function Accepted(): seq<Msg> { written + InFlight() + buffer }
  }

  /** The hub mutex, seen from SendToUser: `todo` is the part of the list its loop has not reached. */
  datatype Lock =
    | Free
    | Sending(user: UserId, msg: Msg, todo: seq<ConnId>, alive: seq<ConnId>)

  /** `log` is the history of SendToUser calls; `panicked` records a Go channel panic. */
  datatype State = State(conns: map<UserId, seq<ConnId>>, table: seq<Conn>,
                         log: seq<(UserId, Msg)>, lock: Lock, panicked: bool)

  datatype Event =
    | Register(user: UserId, ws: Socket)
    | StartPump(id: ConnId)
    | Unregister(user: UserId, ws: Socket)
    | BeginSend(user: UserId, msg: Msg)
    | SendOne
    | EndSend
    | Receive(id: ConnId)
    | WriteOk(id: ConnId)
    | WriteFail(id: ConnId)
    | PingFail(id: ConnId)
    | UnregisterConn(id: ConnId)

  const INIT := State(map[], [], [], Free, false)

  /** The messages of `log` addressed to `user`. */
  function Sent(log: seq<(UserId, Msg)>, user: UserId): seq<Msg> {
    if log == [] then []
    else Sent(log[..|log| - 1], user) + (if log[|log| - 1].0 == user then [log[|log| - 1].1] else [])
  }

  function Get(conns: map<UserId, seq<ConnId>>, user: UserId): seq<ConnId> {
    if user in conns then conns[user] else []
  }

  /** h.conns[user] = ids, followed by the delete of an empty entry. */
  function Put(conns: map<UserId, seq<ConnId>>, user: UserId, ids: seq<ConnId>): map<UserId, seq<ConnId>> {
    if ids == [] then conns - {user} else conns[user := ids]
  }

  /** close(c.send): closing a closed channel panics. */
  function Close(s: State, id: ConnId): State
    requires id < |s.table|
  {
    if s.table[id].closed then s.(panicked := true)
    else s.(table := s.table[id := s.table[id].(closed := true)])
  }

  function Detach(s: State, id: ConnId, at: nat): State
    requires id < |s.table|
  {
    s.(table := s.table[id := s.table[id].(removedAt := Some(at))])
  }

  predicate InRange(ids: seq<ConnId>, n: nat) {
    forall k :: 0 <= k < |ids| ==> ids[k] < n
  }

  function FindSocket(table: seq<Conn>, ids: seq<ConnId>, ws: Socket): (i: nat)
    requires InRange(ids, |table|)
    ensures i <= |ids|
    ensures i < |ids| ==> table[ids[i]].ws == ws
    ensures forall k :: 0 <= k < i ==> table[ids[k]].ws != ws
    decreases |ids|
  {
    if ids == [] then 0
    else if table[ids[0]].ws == ws then 0
    else 1 + FindSocket(table, ids[1..], ws)
  }

  function FindId(ids: seq<ConnId>, id: ConnId): (i: nat)
    ensures i <= |ids|
    ensures i < |ids| ==> ids[i] == id
    ensures i == |ids| <==> id !in ids
    ensures forall k :: 0 <= k < i ==> ids[k] != id
  {
    if ids == [] then 0 else if ids[0] == id then 0 else 1 + FindId(ids[1..], id)
  }

  function RegisterStep(s: State, user: UserId, ws: Socket): State {
    var c := Conn(user, ws, [], false, NotStarted, [], |s.log|, None);
    s.(table := s.table + [c], conns := s.conns[user := Get(s.conns, user) + [|s.table|]])
  }

  function UnregisterStep(s: State, user: UserId, ws: Socket): State
    requires IdsInRange(s)
  {
    var ids := Get(s.conns, user);
    var i := FindSocket(s.table, ids, ws);
    if i == |ids| then s.(conns := Put(s.conns, user, ids))
    else
      var s' := Detach(Close(s, ids[i]), ids[i], |s.log|);
      s'.(conns := Put(s.conns, user, Remove(ids, i)))
  }

  function UnregisterConnStep(s: State, id: ConnId): State
    requires id < |s.table| && s.table[id].pump.Failed?
  {
    var user := s.table[id].user;
    var ids := Get(s.conns, user);
    var i := FindId(ids, id);
    var s' := s.(table := s.table[id := s.table[id].(pump := Abandoned(s.table[id].pump.lost))]);
    if i == |ids| then s'.(conns := Put(s.conns, user, ids))
    else Detach(s', id, |s.log|).(conns := Put(s.conns, user, Remove(ids, i)))
  }

  function BeginSendStep(s: State, user: UserId, msg: Msg): State {
    s.(log := s.log + [(user, msg)], lock := Sending(user, msg, Get(s.conns, user), []))
  }

  /** One iteration of SendToUser's loop: enqueue if there is room, else close and drop. */
  function SendOneStep(s: State): State
    requires s.lock.Sending? && s.lock.todo != [] && s.lock.todo[0] < |s.table| && s.log != []
  {
    var id := s.lock.todo[0];
    var c := s.table[id];
    var rest := s.lock.(todo := s.lock.todo[1..]);
    if c.closed then s.(panicked := true)
    else if |c.buffer| < SEND_BUF_SIZE then
      s.(table := s.table[id := c.(buffer := c.buffer + [s.lock.msg])],
         lock := rest.(alive := s.lock.alive + [id]))
    else Detach(Close(s, id), id, |s.log| - 1).(lock := rest)
  }

  function EndSendStep(s: State): State
    requires s.lock.Sending?
  {
    s.(conns := Put(s.conns, s.lock.user, s.lock.alive), lock := Free)
  }

  function SetConn(s: State, id: ConnId, c: Conn): State
    requires id < |s.table|
  {
    s.(table := s.table[id := c])
  }

  predicate IdsInRange(s: State) {
    && (forall u :: u in s.conns ==> InRange(s.conns[u], |s.table|))
    && (s.lock.Sending? ==> InRange(s.lock.todo, |s.table|))
  }

  /** Which steps some goroutine can take: the mutex is free, or its own channel operation is ready. */
  predicate Enabled(s: State, e: Event) {
    && IdsInRange(s)
    && !s.panicked
    && match e
       case Register(_, _) => s.lock.Free?
       case StartPump(id) => id < |s.table| && s.table[id].pump.NotStarted?
       case Unregister(_, _) => s.lock.Free?
       case BeginSend(_, _) => s.lock.Free?
       case SendOne => s.lock.Sending? && s.lock.todo != [] && s.log != []
       case EndSend => s.lock.Sending? && s.lock.todo == []
       case Receive(id) =>
         id < |s.table| && s.table[id].pump.Waiting? && (s.table[id].buffer != [] || s.table[id].closed)
       case WriteOk(id) => id < |s.table| && s.table[id].pump.Writing?
       case WriteFail(id) => id < |s.table| && s.table[id].pump.Writing?
       case PingFail(id) => id < |s.table| && s.table[id].pump.Waiting?
       case UnregisterConn(id) => s.lock.Free? && id < |s.table| && s.table[id].pump.Failed?
  }

  function Step(s: State, e: Event): State
    requires Enabled(s, e)
  {
    match e
    case Register(user, ws) => RegisterStep(s, user, ws)
    case StartPump(id) => SetConn(s, id, s.table[id].(pump := Waiting))
    case Unregister(user, ws) => UnregisterStep(s, user, ws)
    case BeginSend(user, msg) => BeginSendStep(s, user, msg)
    case SendOne => SendOneStep(s)
    case EndSend => EndSendStep(s)
    case Receive(id) =>
      var c := s.table[id];
      SetConn(s, id, if c.buffer == [] then c.(pump := Drained)
                     else c.(pump := Writing(c.buffer[0]), buffer := c.buffer[1..]))
    case WriteOk(id) =>
      var c := s.table[id];
      SetConn(s, id, c.(pump := Waiting, written := c.written + [c.pump.msg]))
    case WriteFail(id) => SetConn(s, id, s.table[id].(pump := Failed([s.table[id].pump.msg])))
    case PingFail(id) => SetConn(s, id, s.table[id].(pump := Failed([])))
    case UnregisterConn(id) => UnregisterConnStep(s, id)
  }

  /** The goroutines can take the steps of `run`, oldest first, from `s`. */
  predicate CanRun(s: State, run: seq<Event>)
    decreases |run|
  {
    run == [] || (Enabled(s, run[0]) && CanRun(Step(s, run[0]), run[1..]))
  }

  function After(s: State, run: seq<Event>): State
    requires CanRun(s, run)
    decreases |run|
  {
    if run == [] then s else After(Step(s, run[0]), run[1..])
  }

  // ---------------------------------------------------------------- invariant

  /** The connections of `user` that are registered, also while SendToUser rebuilds the list. */
  function Current(s: State, user: UserId): seq<ConnId> {
    if s.lock.Sending? && s.lock.user == user then s.lock.alive + s.lock.todo
    else Get(s.conns, user)
  }

  /** The log prefix whose messages the channel of connection `id` has been offered. */
  function OfferedUpTo(s: State, id: ConnId): int
    requires id < |s.table|
  {
    var c := s.table[id];
    if c.removedAt.Some? then c.removedAt.value
    else if s.lock.Sending? && id in s.lock.todo then |s.log| - 1
    else |s.log|
  }

  ghost predicate ConnOk(s: State, id: ConnId)
    requires id < |s.table|
  {
    var c := s.table[id];
    && (c.removedAt.None? <==> id in Current(s, c.user))
    && (c.closed ==> c.removedAt.Some?)
    && (c.removedAt.Some? ==> c.closed || c.pump.Abandoned?)
    && (c.pump.Abandoned? ==> c.removedAt.Some?)
    && |c.buffer| <= SEND_BUF_SIZE
    && c.since <= OfferedUpTo(s, id) <= |s.log|
    && c.Accepted() == Sent(s.log[c.since..OfferedUpTo(s, id)], c.user)
    && (c.pump.Drained? ==> c.closed && c.buffer == [])
  }

  predicate OwnedBy(s: State, ids: seq<ConnId>, user: UserId) {
    forall k :: 0 <= k < |ids| ==> ids[k] < |s.table| && s.table[ids[k]].user == user
  }

  ghost predicate ListOk(s: State, user: UserId) {
    && NoDup(Current(s, user))
    && OwnedBy(s, Current(s, user), user)
  }

  ghost predicate MapOk(s: State) {
    forall u :: u in s.conns ==>
      s.conns[u] != [] && NoDup(s.conns[u]) && OwnedBy(s, s.conns[u], u)
  }

  ghost predicate LockOk(s: State) {
    s.lock.Sending? ==>
      && s.log != [] && s.log[|s.log| - 1] == (s.lock.user, s.lock.msg)
      && forall id :: 0 <= id < |s.table| ==> s.table[id].since < |s.log|
  }

  ghost predicate Inv(s: State) {
    && !s.panicked
    && MapOk(s)
    && LockOk(s)
    && (forall u: UserId :: ListOk(s, u))
    && (forall id: ConnId :: id < |s.table| ==> ConnOk(s, id))
  }

  lemma SentSnoc(log: seq<(UserId, Msg)>, since: nat, entry: (UserId, Msg), user: UserId)
    requires since <= |log|
    ensures (log + [entry])[since..|log|] == log[since..]
    ensures Sent((log + [entry])[since..], user)
         == Sent(log[since..], user) + (if entry.0 == user then [entry.1] else [])
  {
    var l := (log + [entry])[since..];
    assert l[..|l| - 1] == log[since..];
  }

  lemma RegisterInv(s: State, user: UserId, ws: Socket)
    requires Inv(s) && Enabled(s, Register(user, ws))
    ensures Inv(RegisterStep(s, user, ws))
  {
    var s' := RegisterStep(s, user, ws);
    forall u: UserId ensures ListOk(s', u) {
      assert ListOk(s, u);
      NewInList(s, user, ws, u);
    }
    forall id: ConnId | id < |s'.table| ensures ConnOk(s', id) {
      if id < |s.table| {
        assert ListOk(s, s.table[id].user);
        NewInList(s, user, ws, s.table[id].user);
        OtherConn(s, s', id);
      } else {
        NewConn(s, user, ws);
      }
    }
    MapFromLists(s');
  }

  /** While nobody sends, the lists are those of the registry. */
  lemma MapFromLists(s: State)
    requires s.lock.Free? && (forall u: UserId :: ListOk(s, u)) && forall u :: u in s.conns ==> s.conns[u] != []
    ensures MapOk(s)
  {
    forall u | u in s.conns ensures NoDup(s.conns[u]) && OwnedBy(s, s.conns[u], u) { assert ListOk(s, u); }
  }

  lemma NewInList(s: State, user: UserId, ws: Socket, u: UserId)
    requires ListOk(s, u) && s.lock.Free?
    ensures var s' := RegisterStep(s, user, ws);
            ListOk(s', u) && forall k :: k != |s.table| ==> (k in Current(s', u) <==> k in Current(s, u))
  {
    var s' := RegisterStep(s, user, ws);
    assert Current(s', u) == if u == user then Current(s, u) + [|s.table|] else Current(s, u);
  }

  lemma NewConn(s: State, user: UserId, ws: Socket)
    requires s.lock.Free?
    ensures ConnOk(RegisterStep(s, user, ws), |s.table|)
  {
    var s' := RegisterStep(s, user, ws);
    assert s.log[|s.log|..|s.log|] == [];
    assert Current(s', user) == Get(s.conns, user) + [|s.table|];
  }

  /** A connection whose own record, list membership and position in the loop are untouched. */
  lemma OtherConn(s: State, s': State, id: ConnId)
    requires id < |s.table| && ConnOk(s, id) && id < |s'.table|
    requires s'.table[id] == s.table[id] && s'.log == s.log
    requires id in Current(s', s.table[id].user) <==> id in Current(s, s.table[id].user)
    requires (s.lock.Sending? && id in s.lock.todo) <==> (s'.lock.Sending? && id in s'.lock.todo)
    ensures ConnOk(s', id)
  {
  }

  lemma UnregisterInv(s: State, user: UserId, ws: Socket)
    requires Inv(s) && Enabled(s, Unregister(user, ws))
    ensures Inv(UnregisterStep(s, user, ws))
  {
    var s' := UnregisterStep(s, user, ws);
    var ids := Get(s.conns, user);
    var i := FindSocket(s.table, ids, ws);
    assert ListOk(s, user);
    if i == |ids| {
      assert s' == s;
    } else {
      assert ids[i] in Current(s, user) && ConnOk(s, ids[i]);
      RemoveStep(s, s', ids[i], i);
    }
  }

  /** Taking a live connection off its list at the end of the log keeps the invariant. */
  lemma {:induction false} RemoveStep(s: State, s': State, id: ConnId, i: nat)
    requires Inv(s) && s.lock.Free? && id < |s.table|
    requires i < |Get(s.conns, s.table[id].user)| && Get(s.conns, s.table[id].user)[i] == id
    requires s' == s.(conns := s'.conns, table := s'.table)
    requires s'.conns == Put(s.conns, s.table[id].user, Remove(Get(s.conns, s.table[id].user), i))
    requires |s'.table| == |s.table| && forall k: ConnId :: k < |s.table| && k != id ==> s'.table[k] == s.table[k]
    requires var c, c' := s.table[id], s'.table[id];
             && c' == c.(closed := c'.closed, pump := c'.pump, removedAt := Some(|s.log|))
             && c'.InFlight() == c.InFlight() && (c'.pump.Drained? ==> c.pump.Drained?) && (c.closed ==> c'.closed)
             && (c'.closed || c'.pump.Abandoned?)
    ensures Inv(s')
  {
    var user := s.table[id].user;
    var ids := Get(s.conns, user);
    assert id in Current(s, user) && ConnOk(s, id) && ListOk(s, user);
    RemoveLists(s, s', user, i);
    forall k: ConnId | k < |s'.table| ensures ConnOk(s', k) {
      if k == id { RemovedConn(s, s', id); } else { OtherConn(s, s', k); }
    }
  }

  /** Dropping the `i`th connection of one user's list leaves every list in order. */
  lemma RemoveLists(s: State, s': State, user: UserId, i: nat)
    requires (forall u: UserId :: ListOk(s, u)) && s.lock.Free? && s'.lock.Free? && i < |Get(s.conns, user)|
    requires s'.conns == Put(s.conns, user, Remove(Get(s.conns, user), i))
    requires |s'.table| == |s.table| && forall k: ConnId :: k < |s.table| ==> s'.table[k].user == s.table[k].user
    ensures forall u: UserId :: ListOk(s', u)
    ensures Get(s.conns, user)[i] !in Current(s', user)
    ensures forall u: UserId, k: ConnId :: k != Get(s.conns, user)[i] ==> (k in Current(s', u) <==> k in Current(s, u))
  {
    forall u: UserId
      ensures ListOk(s', u) && (u == user ==> Get(s.conns, user)[i] !in Current(s', u))
      ensures forall k :: k != Get(s.conns, user)[i] ==> (k in Current(s', u) <==> k in Current(s, u))
    {
      assert ListOk(s, u);
      if u == user {
        RemoveNoDup(Get(s.conns, user), i);
        assert Current(s', u) == Remove(Current(s, u), i);
      } else {
        assert Current(s', u) == Current(s, u);
      }
    }
  }

  lemma RemovedConn(s: State, s': State, id: ConnId)
    requires s.lock.Free? && s'.lock.Free? && s'.log == s.log && id < |s.table| && id < |s'.table| && ConnOk(s, id)
    requires var c, c' := s.table[id], s'.table[id];
             && c' == c.(closed := c'.closed, pump := c'.pump, removedAt := Some(|s.log|))
             && c'.InFlight() == c.InFlight() && (c'.pump.Drained? ==> c.pump.Drained?) && (c.closed ==> c'.closed)
             && (c'.closed || c'.pump.Abandoned?)
    requires s.table[id].removedAt.None? && id !in Current(s', s.table[id].user)
    ensures ConnOk(s', id)
  {
  }

  lemma UnregisterConnInv(s: State, id: ConnId)
    requires Inv(s) && Enabled(s, UnregisterConn(id))
    ensures Inv(UnregisterConnStep(s, id))
  {
    var s' := UnregisterConnStep(s, id);
    var user := s.table[id].user;
    var ids := Get(s.conns, user);
    var i := FindId(ids, id);
    if i == |ids| {
      assert ConnOk(s, id);
      assert s'.conns == s.conns;
      LocalInv(s, id, s'.table[id]);
    } else {
      RemoveStep(s, s', id, i);
    }
  }

  /** A step of one writer goroutine that keeps the sequence of accepted messages keeps the invariant. */
  lemma LocalInv(s: State, id: ConnId, c: Conn)
    requires Inv(s) && id < |s.table|
    requires c == s.table[id].(buffer := c.buffer, pump := c.pump, written := c.written)
    requires c.Accepted() == s.table[id].Accepted() && |c.buffer| <= SEND_BUF_SIZE
    requires c.pump.Drained? ==> c.closed && c.buffer == []
    requires if s.table[id].pump.Abandoned? then c.pump.Abandoned?
             else c.pump.Abandoned? ==> s.table[id].removedAt.Some?
    ensures Inv(SetConn(s, id, c))
  {
    var s' := SetConn(s, id, c);
    assert forall u :: Current(s', u) == Current(s, u);
    forall u: UserId ensures ListOk(s', u) { assert ListOk(s, u); }
    forall k: ConnId | k < |s'.table| ensures ConnOk(s', k) { assert ConnOk(s, k); }
  }

  lemma SliceKept(log: seq<(UserId, Msg)>, entry: (UserId, Msg), i: nat, j: nat)
    requires i <= j <= |log|
    ensures (log + [entry])[i..j] == log[i..j]
  {
  }

  lemma BeginSendConn(s: State, user: UserId, msg: Msg, id: ConnId)
    requires s.lock.Free? && id < |s.table| && ConnOk(s, id) && OwnedBy(s, Get(s.conns, user), user)
    requires Current(BeginSendStep(s, user, msg), s.table[id].user) == Current(s, s.table[id].user)
    ensures ConnOk(BeginSendStep(s, user, msg), id)
  {
    var s' := BeginSendStep(s, user, msg);
    var c := s.table[id];
    if c.removedAt.Some? {
      SliceKept(s.log, (user, msg), c.since, c.removedAt.value);
    } else if c.user == user {
      assert OfferedUpTo(s', id) == |s.log|;
      SliceKept(s.log, (user, msg), c.since, |s.log|);
    } else {
      assert id !in Get(s.conns, user);
      BeginSendPasses(s, user, msg, c);
    }
  }

  /** A message for somebody else. */
  lemma BeginSendPasses(s: State, user: UserId, msg: Msg, c: Conn)
    requires c.user != user && c.since <= |s.log|
    ensures var log' := s.log + [(user, msg)];
            Sent(log'[c.since..|log'|], c.user) == Sent(s.log[c.since..|s.log|], c.user)
  {
    var log' := s.log + [(user, msg)];
    SentSnoc(s.log, c.since, (user, msg), c.user);
    assert s.log[c.since..|s.log|] == s.log[c.since..] && log'[c.since..|log'|] == log'[c.since..];
  }

  lemma BeginSendLists(s: State, user: UserId, msg: Msg)
    requires s.lock.Free?
    ensures forall u: UserId :: Current(BeginSendStep(s, user, msg), u) == Current(s, u)
  {
    assert [] + Get(s.conns, user) == Get(s.conns, user);
  }

  lemma BeginSendInv(s: State, user: UserId, msg: Msg)
    requires Inv(s) && Enabled(s, BeginSend(user, msg))
    ensures Inv(BeginSendStep(s, user, msg))
  {
    var s' := BeginSendStep(s, user, msg);
    BeginSendLists(s, user, msg);
    forall u: UserId ensures ListOk(s', u) { assert ListOk(s, u); }
    forall id: ConnId | id < |s'.table| ensures ConnOk(s', id) && s.table[id].since < |s'.log| {
      assert ConnOk(s, id) && ListOk(s, user);
      BeginSendConn(s, user, msg, id);
    }
  }

  /** The facts about the connection at the head of the loop that both outcomes of an iteration use. */
  lemma SendOneHead(s: State)
    requires Inv(s) && Enabled(s, SendOne)
    ensures var id := s.lock.todo[0];
            && id < |s.table| && ConnOk(s, id) && s.table[id].user == s.lock.user
            && s.table[id].removedAt.None? && !s.table[id].closed
            && id !in s.lock.todo[1..]
            && Current(s, s.lock.user)[|s.lock.alive|] == id
            && Sent(s.log[s.table[id].since..], s.lock.user) == s.table[id].Accepted() + [s.lock.msg]
  {
    var user, id := s.lock.user, s.lock.todo[0];
    var cur, n := Current(s, user), |s.lock.alive|;
    assert ListOk(s, user);
    assert cur[n] == id && id in cur;
    assert ConnOk(s, id);
    var c := s.table[id];
    assert s.log[..|s.log| - 1] + [(user, s.lock.msg)] == s.log;
    SentSnoc(s.log[..|s.log| - 1], c.since, (user, s.lock.msg), user);
    assert s.log[..|s.log| - 1][c.since..] == s.log[c.since..|s.log| - 1];
    assert forall k :: 0 <= k < |s.lock.todo| ==> cur[n + k] == s.lock.todo[k];
  }

  lemma EnqueueInv(s: State)
    requires Inv(s) && Enabled(s, SendOne)
    requires |s.table[s.lock.todo[0]].buffer| < SEND_BUF_SIZE
    ensures Inv(SendOneStep(s))
  {
    SendOneHead(s);
    var s' := SendOneStep(s);
    var id := s.lock.todo[0];
    EnqueueLists(s);
    forall u: UserId ensures ListOk(s', u) { assert ListOk(s, u); }
    forall k: ConnId | k < |s'.table| ensures ConnOk(s', k) {
      if k == id {
        EnqueuedConn(s, s', id, s.lock.msg);
      } else {
        assert k in s.lock.todo <==> k in s'.lock.todo;
        OtherConn(s, s', k);
      }
    }
  }

  lemma EnqueueLists(s: State)
    requires Enabled(s, SendOne) && |s.table[s.lock.todo[0]].buffer| < SEND_BUF_SIZE && !s.table[s.lock.todo[0]].closed
    ensures forall u: UserId :: Current(SendOneStep(s), u) == Current(s, u)
  {
    var s' := SendOneStep(s);
    assert s'.lock.alive + s'.lock.todo == s.lock.alive + s.lock.todo;
  }

  lemma EnqueuedConn(s: State, s': State, id: ConnId, msg: Msg)
    requires id < |s.table| && ConnOk(s, id) && id < |s'.table| && s'.log == s.log
    requires var c := s.table[id];
             && c.removedAt.None? && |c.buffer| < SEND_BUF_SIZE && s'.table[id] == c.(buffer := c.buffer + [msg])
             && !c.pump.Drained? && Sent(s.log[c.since..], c.user) == c.Accepted() + [msg]
    requires id in Current(s', s.table[id].user) && (s'.lock.Sending? ==> id !in s'.lock.todo)
    ensures ConnOk(s', id)
  {
    var c := s.table[id];
    assert s.log[c.since..|s.log|] == s.log[c.since..];
    assert c.written + c.InFlight() + (c.buffer + [msg]) == c.Accepted() + [msg];
  }

  lemma DropInv(s: State)
    requires Inv(s) && Enabled(s, SendOne)
    requires |s.table[s.lock.todo[0]].buffer| >= SEND_BUF_SIZE
    ensures Inv(SendOneStep(s))
  {
    SendOneHead(s);
    var s' := SendOneStep(s);
    var id, user := s.lock.todo[0], s.lock.user;
    DropLists(s);
    forall k: ConnId | k < |s'.table| ensures ConnOk(s', k) {
      if k == id {
        DroppedConn(s, s', id);
      } else {
        assert k in s.lock.todo <==> k in s'.lock.todo;
        OtherConn(s, s', k);
      }
    }
  }

  lemma DropLists(s: State)
    requires Inv(s) && Enabled(s, SendOne)
    requires |s.table[s.lock.todo[0]].buffer| >= SEND_BUF_SIZE && !s.table[s.lock.todo[0]].closed
    requires Current(s, s.lock.user)[|s.lock.alive|] == s.lock.todo[0]
    ensures var s', id := SendOneStep(s), s.lock.todo[0];
            && (forall u: UserId :: ListOk(s', u)) && id !in Current(s', s.lock.user)
            && forall u: UserId, k: ConnId :: k != id ==> (k in Current(s', u) <==> k in Current(s, u))
  {
    assert ListOk(s, s.lock.user);
    forall u: UserId ensures ListOk(SendOneStep(s), u) {
      assert ListOk(s, u);
      DropList(s, u);
    }
    forall u: UserId, k: ConnId | k != s.lock.todo[0]
      ensures k in Current(SendOneStep(s), u) <==> k in Current(s, u)
    {
      assert ListOk(s, u);
      DropList(s, u);
    }
    DropList(s, s.lock.user);
  }

  lemma DropList(s: State, u: UserId)
    requires Enabled(s, SendOne) && ListOk(s, u)
    requires |s.table[s.lock.todo[0]].buffer| >= SEND_BUF_SIZE && !s.table[s.lock.todo[0]].closed
    requires Current(s, s.lock.user)[|s.lock.alive|] == s.lock.todo[0]
    ensures var s', id := SendOneStep(s), s.lock.todo[0];
            && ListOk(s', u)
            && (u == s.lock.user ==> id !in Current(s', u))
            && forall k :: k != id ==> (k in Current(s', u) <==> k in Current(s, u))
  {
    var s', n := SendOneStep(s), |s.lock.alive|;
    if u == s.lock.user {
      RemoveNoDup(Current(s, u), n);
      assert Current(s', u) == Remove(Current(s, u), n);
    } else {
      assert Current(s', u) == Current(s, u);
    }
  }

  lemma DroppedConn(s: State, s': State, id: ConnId)
    requires id < |s.table| && ConnOk(s, id) && id < |s'.table| && s'.log == s.log
    requires s'.table[id] == s.table[id].(closed := true, removedAt := Some(OfferedUpTo(s, id)))
    requires s.table[id].removedAt.None? && id !in Current(s', s.table[id].user)
    ensures ConnOk(s', id)
  {
  }

  lemma SendOneInv(s: State)
    requires Inv(s) && Enabled(s, SendOne)
    ensures Inv(SendOneStep(s)) && SendOneStep(s).lock.Sending?
  {
    SendOneHead(s);
    if |s.table[s.lock.todo[0]].buffer| < SEND_BUF_SIZE { EnqueueInv(s); } else { DropInv(s); }
  }

  lemma EndSendInv(s: State)
    requires Inv(s) && Enabled(s, EndSend)
    ensures Inv(EndSendStep(s))
  {
    var s' := EndSendStep(s);
    assert s.lock.alive + s.lock.todo == s.lock.alive;
    assert ListOk(s, s.lock.user);
    assert forall u :: Current(s', u) == Current(s, u);
    forall u: UserId ensures ListOk(s', u) { assert ListOk(s, u); }
    forall id: ConnId | id < |s'.table| ensures ConnOk(s', id) { assert ConnOk(s, id); }
  }

  lemma ReceiveInv(s: State, id: ConnId)
    requires Inv(s) && Enabled(s, Receive(id))
    ensures Inv(Step(s, Receive(id)))
  {
    assert ConnOk(s, id);
    var c := s.table[id];
    if c.buffer == [] {
      LocalInv(s, id, c.(pump := Drained));
    } else {
      ReceivedAccepts(c);
      LocalInv(s, id, c.(pump := Writing(c.buffer[0]), buffer := c.buffer[1..]));
    }
  }

  lemma ReceivedAccepts(c: Conn)
    requires c.pump.Waiting? && c.buffer != []
    ensures c.(pump := Writing(c.buffer[0]), buffer := c.buffer[1..]).Accepted() == c.Accepted()
  {
    assert c.buffer == [c.buffer[0]] + c.buffer[1..];
  }

  lemma StepInv(s: State, e: Event)
    requires Inv(s) && Enabled(s, e)
    ensures Inv(Step(s, e))
  {
    match e
    case Register(user, ws) => RegisterInv(s, user, ws);
    case Unregister(user, ws) => UnregisterInv(s, user, ws);
    case BeginSend(user, msg) => BeginSendInv(s, user, msg);
    case SendOne => SendOneInv(s);
    case EndSend => EndSendInv(s);
    case UnregisterConn(id) => UnregisterConnInv(s, id);
    case Receive(id) => ReceiveInv(s, id);
    case StartPump(id) => PumpInv(s, e, id);
    case WriteOk(id) => PumpInv(s, e, id);
    case WriteFail(id) => PumpInv(s, e, id);
    case PingFail(id) => PumpInv(s, e, id);
  }

  lemma PumpInv(s: State, e: Event, id: ConnId)
    requires Inv(s) && Enabled(s, e)
    requires (e == StartPump(id) || e == WriteOk(id) || e == WriteFail(id) || e == PingFail(id))
    ensures Inv(Step(s, e))
  {
    assert ConnOk(s, id);
    LocalInv(s, id, Step(s, e).table[id]);
  }

  /** The invariant holds in every reachable state of every interleaving. */
  lemma {:induction false} RunInv(s: State, run: seq<Event>)
    requires Inv(s) && CanRun(s, run)
    ensures Inv(After(s, run))
    decreases |run|
  {
    if run != [] {
      StepInv(s, run[0]);
      RunInv(Step(s, run[0]), run[1..]);
    }
  }

  // ---------------------------------------------------------------- what the hub guarantees

  /** No interleaving closes a channel twice or sends on a closed one, and no buffer exceeds its bound. */
  lemma NoChannelMisuse(run: seq<Event>)
    requires CanRun(INIT, run)
    ensures !After(INIT, run).panicked
    ensures forall c :: c in After(INIT, run).table ==> |c.buffer| <= 256
  {
    InitInv();
    RunInv(INIT, run);
    var s := After(INIT, run);
    forall c | c in s.table ensures |c.buffer| <= 256 {
      var id :| 0 <= id < |s.table| && s.table[id] == c;
      assert ConnOk(s, id);
    }
  }

  /** The registry never holds an empty list, and holds every connection at most once over all users. */
  lemma RegistryShape(run: seq<Event>)
    requires CanRun(INIT, run)
    ensures var conns := After(INIT, run).conns;
            && (forall u :: u in conns ==> conns[u] != [])
            && forall u, v, i, j ::
                 (u in conns && v in conns && 0 <= i < |conns[u]| && 0 <= j < |conns[v]|
                  && conns[u][i] == conns[v][j]) ==> (u == v && i == j)
  {
    InitInv();
    RunInv(INIT, run);
  }

  lemma PrefixOfSent(log: seq<(UserId, Msg)>, user: UserId, n: nat)
    requires n <= |log|
    ensures Sent(log[..n], user) <= Sent(log, user)
    decreases |log|
  {
    if n < |log| {
      assert log[..|log| - 1][..n] == log[..n];
      PrefixOfSent(log[..|log| - 1], user, n);
    } else {
      assert log[..n] == log;
    }
  }

  /**
   * What reached the socket of a connection is a prefix of what was sent to its user after it
   * registered: no gap, no duplicate, no reordering, whatever fails and however steps interleave.
   */
  lemma DeliveredIsPrefix(run: seq<Event>, id: ConnId)
    requires CanRun(INIT, run) && id < |After(INIT, run).table|
    ensures var s := After(INIT, run);
            var c := s.table[id];
            c.since <= |s.log| && c.written <= Sent(s.log[c.since..], c.user)
  {
    InitInv();
    RunInv(INIT, run);
    var s := After(INIT, run);
    var c := s.table[id];
    assert ConnOk(s, id);
    var n := OfferedUpTo(s, id) - c.since;
    assert s.log[c.since..][..n] == s.log[c.since..OfferedUpTo(s, id)];
    PrefixOfSent(s.log[c.since..], c.user, n);
    assert c.written <= c.Accepted();
  }

  /**
   * While a connection is registered and no send is in progress, everything sent to its user since it
   * registered is written, being written, or queued. Once its writer has exited on the closed channel,
   * exactly the messages sent between its registration and its removal were written.
   */
  lemma NothingLost(run: seq<Event>, id: ConnId)
    requires CanRun(INIT, run) && id < |After(INIT, run).table|
    ensures var s := After(INIT, run);
            var c := s.table[id];
            && c.since <= |s.log|
            && (s.lock.Free? && id in Get(s.conns, c.user) ==> c.Accepted() == Sent(s.log[c.since..], c.user))
            && (c.pump.Drained? ==>
                  c.removedAt.Some? && c.since <= c.removedAt.value <= |s.log|
                  && c.written == Sent(s.log[c.since..c.removedAt.value], c.user))
  {
    InitInv();
    RunInv(INIT, run);
    var s := After(INIT, run);
    var c := s.table[id];
    assert ConnOk(s, id);
    assert s.log[c.since..|s.log|] == s.log[c.since..];
    assert c.pump.Drained? ==> c.Accepted() == c.written;
  }

  // ---------------------------------------------------------------- how a connection ends

  /** Only a writer that failed leaves by UnregisterConn; every step keeps the connections it does not concern. */
  lemma AbandonedBy(s: State, e: Event, id: ConnId)
    requires Inv(s) && Enabled(s, e) && id < |s.table|
    ensures id < |Step(s, e).table| && Step(s, e).table[id].user == s.table[id].user
    ensures s.table[id].closed ==> Step(s, e).table[id].closed
    ensures Step(s, e).table[id].pump.Abandoned? ==> s.table[id].pump.Abandoned? || e == UnregisterConn(id)
    ensures e == UnregisterConn(id) ==> Step(s, e).table[id].closed == s.table[id].closed
  {
    match e
    case Unregister(_, _) => UnregisterAbandons(s, e, id);
    case SendOne => SendOneHead(s);
    case _ =>
  }

  lemma UnregisterAbandons(s: State, e: Event, id: ConnId)
    requires Inv(s) && Enabled(s, e) && e.Unregister? && id < |s.table|
    ensures |Step(s, e).table| == |s.table|
    ensures var c, c' := s.table[id], Step(s, e).table[id];
            c'.user == c.user && c'.pump == c.pump && (c.closed ==> c'.closed)
  {
  }

  /**
   * Whenever a connection leaves the registry, its channel is closed by that very step, unless its own failed writer
   * takes it out.
   */
  lemma LeavingCloses(run: seq<Event>, e: Event, id: ConnId)
    requires CanRun(INIT, run) && Enabled(After(INIT, run), e) && id < |After(INIT, run).table|
    requires var s := After(INIT, run);
             var user := s.table[id].user;
             id in Current(s, user) && id !in Current(Step(s, e), user)
    ensures var s' := Step(After(INIT, run), e);
            id < |s'.table| && (s'.table[id].closed <==> e != UnregisterConn(id))
  {
    InitInv();
    RunInv(INIT, run);
    var s := After(INIT, run);
    StepInv(s, e);
    AbandonedBy(s, e, id);
    assert ConnOk(s, id) && ConnOk(Step(s, e), id);
  }

  /** At any time, a connection outside the registry is closed or was given up by its failed writer. */
  lemma {:induction false} GoneIsClosed(run: seq<Event>, id: ConnId)
    requires CanRun(INIT, run) && id < |After(INIT, run).table|
    ensures var s := After(INIT, run);
            var c := s.table[id];
            && (id in Current(s, c.user) ==> !c.closed && !c.pump.Abandoned?)
            && (id !in Current(s, c.user) ==> c.closed || c.pump.Abandoned?)
  {
    InitInv();
    RunInv(INIT, run);
    assert ConnOk(After(INIT, run), id);
  }

  predicate IsActive(p: Pump) { p.NotStarted? || p.Waiting? || p.Writing? }

  /** The steps of connection `id`'s own writer goroutine. */
  predicate IsOwn(e: Event, id: ConnId) {
    e == StartPump(id) || e == Receive(id) || e == WriteOk(id) || e == WriteFail(id) || e == PingFail(id)
  }

  /** What a writer still has to do before it finds its closed channel empty. */
  function PumpWork(c: Conn): nat {
    2 * |c.buffer| + match c.pump case NotStarted => 3 case Writing(_) => 3 case Waiting => 2 case _ => 0
  }

  /** The writer of a closed channel never waits, and each of its steps brings it closer to its end. */
  lemma ClosedPumpProgress(s: State, id: ConnId)
    requires Inv(s) && id < |s.table| && s.table[id].closed && IsActive(s.table[id].pump)
    ensures exists e :: IsOwn(e, id) && Enabled(s, e)
    ensures forall e :: IsOwn(e, id) && Enabled(s, e) ==>
              id < |Step(s, e).table| && PumpWork(Step(s, e).table[id]) < PumpWork(s.table[id])
  {
    InRangeOf(s);
    var p := s.table[id].pump;
    assert Enabled(s, if p.NotStarted? then StartPump(id) else if p.Waiting? then Receive(id) else WriteOk(id));
  }

  lemma InRangeOf(s: State)
    requires Inv(s)
    ensures IdsInRange(s)
  {
    forall u | u in s.conns ensures InRange(s.conns[u], |s.table|) { assert OwnedBy(s, s.conns[u], u); }
    if s.lock.Sending? {
      var cur := Current(s, s.lock.user);
      assert ListOk(s, s.lock.user);
      assert forall k :: 0 <= k < |s.lock.todo| ==> cur[|s.lock.alive| + k] == s.lock.todo[k];
    }
  }

  /** If its writes succeed, the writer of a closed channel delivers everything accepted and then ends. */
  lemma {:induction false} ClosedIsDrained(s: State, id: ConnId) returns (run: seq<Event>)
    requires Inv(s) && id < |s.table| && s.table[id].closed && IsActive(s.table[id].pump)
    ensures CanRun(s, run) && forall i :: 0 <= i < |run| ==> IsOwn(run[i], id)
    ensures id < |After(s, run).table|
    ensures var c := After(s, run).table[id];
            c.pump == Drained && c.buffer == [] && c.written == s.table[id].Accepted()
    decreases PumpWork(s.table[id])
  {
    InRangeOf(s);
    var c := s.table[id];
    var e := if c.pump.NotStarted? then StartPump(id) else if c.pump.Waiting? then Receive(id) else WriteOk(id);
    StepInv(s, e);
    OwnStepAccepts(s, e, id);
    var rest := [];
    if c.pump.Waiting? && c.buffer == [] {
      assert CanRun(Step(s, e), rest);
    } else {
      rest := ClosedIsDrained(Step(s, e), id);
    }
    run := [e] + rest;
    assert run[1..] == rest;
  }

  lemma OwnStepAccepts(s: State, e: Event, id: ConnId)
    requires Enabled(s, e) && (e == StartPump(id) || e == Receive(id) || e == WriteOk(id))
    ensures id < |Step(s, e).table| && Step(s, e).table[id].closed == s.table[id].closed
    ensures Step(s, e).table[id].Accepted() == s.table[id].Accepted()
    ensures if e == Receive(id) && s.table[id].buffer == [] then Step(s, e).table[id].pump == Drained
            else IsActive(Step(s, e).table[id].pump) && PumpWork(Step(s, e).table[id]) < PumpWork(s.table[id])
  {
    var c := s.table[id];
    if e == Receive(id) && c.buffer != [] {
      ReceivedAccepts(c);
    } else if e == WriteOk(id) {
      assert (c.written + [c.pump.msg]) + [] + c.buffer == c.written + [c.pump.msg] + c.buffer;
    }
  }

  lemma InitInv()
    ensures Inv(INIT)
  {
    assert forall u: UserId :: Current(INIT, u) == [];
  }

  // ---------------------------------------------------------------- SendToUser as one uninterrupted call

  /** The rest of SendToUser's loop and its final update, with no other goroutine in between. */
  function FinishSend(s: State): State
    requires Inv(s) && s.lock.Sending?
    decreases if s.lock.Sending? then |s.lock.todo| else 0
  {
    if s.lock.todo == [] then EndSendStep(s)
    else
      SendingEnabled(s);
      SendOneInv(s);
      FinishSend(SendOneStep(s))
  }

  /** In the middle of SendToUser its own next step is always enabled: it never waits for a writer. */
  lemma SendingEnabled(s: State)
    requires Inv(s) && s.lock.Sending?
    ensures Enabled(s, if s.lock.todo == [] then EndSend else SendOne)
    ensures s.lock.todo != [] ==> s.lock.todo[0] < |s.table|
  {
    assert ListOk(s, s.lock.user);
    var cur := Current(s, s.lock.user);
    assert forall k :: 0 <= k < |s.lock.todo| ==> cur[|s.lock.alive| + k] == s.lock.todo[k];
  }

  /**
   * From any reachable point inside SendToUser, its own steps alone bring it to an end and free the
   * mutex, however slow or stalled the clients are.
   */
  lemma {:induction false} SendToUserCompletes(s: State)
    requires Inv(s) && s.lock.Sending?
    ensures var run := seq(|s.lock.todo|, _ => SendOne) + [EndSend];
            CanRun(s, run) && After(s, run) == FinishSend(s) && After(s, run).lock.Free?
    decreases |s.lock.todo|
  {
    var run := seq(|s.lock.todo|, _ => SendOne) + [EndSend];
    SendingEnabled(s);
    if s.lock.todo == [] {
      assert run == [EndSend];
      assert run[1..] == [];
      assert CanRun(Step(s, EndSend), []);
    } else {
      SendOneInv(s);
      var s' := SendOneStep(s);
      assert |s'.lock.todo| == |s.lock.todo| - 1 by { SendOneHead(s); }
      SendToUserCompletes(s');
      assert run[0] == SendOne;
      assert run[1..] == seq(|s'.lock.todo|, _ => SendOne) + [EndSend];
    }
  }

  // ---------------------------------------------------------------- the Hub type

  /** The hub object. Each method is proved to perform the steps of its name on the hub's state. */
  class Hub {
    var conns: map<UserId, seq<ConnId>>
    var table: seq<Conn>
    var log: seq<(UserId, Msg)>

    ghost function Snapshot(): State
      reads this
    {
      State.State(conns, table, log, Free, false)
    }

    ghost predicate Valid()
      reads this
    {
      Inv(Snapshot())
    }

    constructor ()
      ensures Valid() && Snapshot() == INIT
    {
      conns, table, log := map[], [], [];
      new;
      InitInv();
    }

    method Register(user: UserId, ws: Socket) returns (id: ConnId)
      requires Valid()
      modifies this
      ensures Valid() && id == |old(table)|
      ensures Snapshot() == Step(old(Snapshot()), Event.Register(user, ws))
      ensures table == old(table) + [Conn(user, ws, [], false, NotStarted, [], |old(log)|, None)] && log == old(log)
      ensures Get(conns, user) == Get(old(conns), user) + [id]
      ensures forall u :: u != user ==> Get(conns, u) == Get(old(conns), u)
    {
      ghost var before := Snapshot();
      EnabledWhenFree(before, Event.Register(user, ws));
      RegisterInv(before, user, ws);
      id := |table|;
      table := table + [Conn(user, ws, [], false, NotStarted, [], |log|, None)];
      conns := conns[user := Get(conns, user) + [id]];
    }

    /** The search loop of Unregister. */
    method ScanSocket(ids: seq<ConnId>, ws: Socket) returns (i: nat)
      requires InRange(ids, |table|)
      ensures i == FindSocket(table, ids, ws)
    {
      i := 0;
      while i < |ids|
        invariant i <= |ids| && forall k :: 0 <= k < i ==> table[ids[k]].ws != ws
      {
        if table[ids[i]].ws == ws {
          return;
        }
        i := i + 1;
      }
    }

    /** The body of SendToUser's loop: a non-blocking send, or close and drop. */
    method Offer(id: ConnId, msg: Msg) returns (kept: bool)
      requires id < |table| && !table[id].closed && log != []
      modifies this`table
      ensures kept <==> |old(table[id].buffer)| < 256
      ensures table == old(table)[id := if kept then old(table[id]).(buffer := old(table[id].buffer) + [msg])
                                        else old(table[id]).(closed := true, removedAt := Some(|log| - 1))]
    {
      if |table[id].buffer| < SEND_BUF_SIZE {
        table := table[id := table[id].(buffer := table[id].buffer + [msg])];
        return true;
      }
      table := table[id := table[id].(closed := true, removedAt := Some(|log| - 1))];
      return false;
    }

    method Unregister(user: UserId, ws: Socket)
      requires Valid()
      modifies this
      ensures Valid()
      ensures Snapshot() == Step(old(Snapshot()), Event.Unregister(user, ws))
      ensures log == old(log) && forall u :: u != user ==> Get(conns, u) == Get(old(conns), u)
      ensures !HasSocket(old(table), Get(old(conns), user), ws) ==> table == old(table) && conns == old(conns)
      ensures forall i: nat :: IsFirstWith(old(table), Get(old(conns), user), ws, i) ==>
                var ids := Get(old(conns), user);
                && Get(conns, user) == ids[..i] + ids[i + 1..] && ids[i] !in Get(conns, user)
                && |table| == |old(table)| && table[ids[i]].closed
                && table[ids[i]] == old(table)[ids[i]].(closed := true, removedAt := Some(|log|))
                && forall k :: 0 <= k < |table| && k != ids[i] ==> table[k] == old(table)[k]
    {
      ghost var before := Snapshot();
      UnregisterFacts(before, user, ws);
      var ids := Get(conns, user);
      var i := ScanSocket(ids, ws);
      if i < |ids| {
        var id := ids[i];
        table := table[id := table[id].(closed := true, removedAt := Some(|log|))];
        ids := Common.Remove(ids, i);
      }
      conns := Put(conns, user, ids);
      assert Snapshot() == UnregisterStep(before, user, ws);
      FirstIsGone(before, user, ws);
    }

    method SendToUser(user: UserId, msg: Msg)
      requires Valid()
      modifies this
      ensures Valid()
      ensures Snapshot() == SendToUserResult(old(Snapshot()), user, msg)
      ensures log == old(log) + [(user, msg)] && |table| == |old(table)|
      ensures Get(conns, user) == WithRoom(old(table), Get(old(conns), user))
      ensures forall u :: u != user ==> Get(conns, u) == Get(old(conns), u)
      ensures forall id :: 0 <= id < |table| ==>
                var c := old(table)[id];
                table[id] == if id !in Get(old(conns), user) then c
                             else if |c.buffer| < 256 then c.(buffer := c.buffer + [msg])
                             else c.(closed := true, removedAt := Some(|old(log)|))
    {
      ghost var before := Snapshot();
      EnabledWhenFree(before, BeginSend(user, msg));
      BeginSendInv(before, user, msg);
      log := log + [(user, msg)];
      var ids := Get(conns, user);
      var alive: seq<ConnId> := [];
      assert ids[0..] == ids;
      for i := 0 to |ids|
        invariant InLoop(user, msg, ids[i..], alive, SendToUserResult(before, user, msg))
      {
        alive := SendIteration(user, msg, ids[i..], alive, SendToUserResult(before, user, msg));
        assert ids[i..][1..] == ids[i + 1..];
      }
      FinishLoop(user, msg, alive, SendToUserResult(before, user, msg));
      SendToUserEffect(before, user, msg);
    }

    /** The state seen by the steps of SendToUser between two iterations of its loop. */
    ghost function Looping(user: UserId, msg: Msg, todo: seq<ConnId>, alive: seq<ConnId>): State
      reads this
    {
      Snapshot().(lock := Sending(user, msg, todo, alive))
    }

    ghost predicate InLoop(user: UserId, msg: Msg, todo: seq<ConnId>, alive: seq<ConnId>, goal: State)
      reads this
    {
      Inv(Looping(user, msg, todo, alive)) && FinishSend(Looping(user, msg, todo, alive)) == goal
    }

    method SendIteration(user: UserId, msg: Msg, todo: seq<ConnId>, alive: seq<ConnId>, ghost goal: State)
      returns (kept: seq<ConnId>)
      requires todo != [] && InLoop(user, msg, todo, alive, goal)
      modifies this`table
      ensures InLoop(user, msg, todo[1..], kept, goal)
    {
      ghost var s := Looping(user, msg, todo, alive);
      SendingEnabled(s);
      SendOneHead(s);
      SendOneInv(s);
      var alive1 := Offer(todo[0], msg);
      kept := if alive1 then alive + [todo[0]] else alive;
      assert Looping(user, msg, todo[1..], kept) == SendOneStep(s);
    }

    method FinishLoop(user: UserId, msg: Msg, alive: seq<ConnId>, ghost goal: State)
      requires InLoop(user, msg, [], alive, goal)
      modifies this`conns
      ensures Valid() && Snapshot() == goal
    {
      ghost var s := Looping(user, msg, [], alive);
      SendingEnabled(s);
      EndSendInv(s);
      conns := Put(conns, user, alive);
    }

    method UnregisterConn(id: ConnId)
      requires Valid() && id < |table| && table[id].pump.Failed?
      modifies this
      ensures Valid()
      ensures Snapshot() == Step(old(Snapshot()), Event.UnregisterConn(id))
      ensures log == old(log) && |table| == |old(table)|
      ensures forall k :: 0 <= k < |table| && k != id ==> table[k] == old(table)[k]
      ensures forall u :: u != table[id].user ==> Get(conns, u) == Get(old(conns), u)
      ensures var c, ids := old(table)[id], Get(old(conns), old(table)[id].user);
              if id in ids then
                && id !in Get(conns, c.user)
                && (forall i :: 0 <= i < |ids| && ids[i] == id ==> Get(conns, c.user) == ids[..i] + ids[i + 1..])
                && table[id] == c.(pump := Abandoned(c.pump.lost), removedAt := Some(|log|))
              else conns == old(conns) && table[id] == c.(pump := Abandoned(c.pump.lost))
    {
      ghost var before := Snapshot();
      EnabledWhenFree(before, Event.UnregisterConn(id));
      UnregisterConnInv(before, id);
      var user := table[id].user;
      var ids := Get(conns, user);
      table := table[id := table[id].(pump := Abandoned(table[id].pump.lost))];
      var i := 0;
      while i < |ids|
        invariant i <= |ids| && forall k :: 0 <= k < i ==> ids[k] != id
      {
        if ids[i] == id {
          break;
        }
        i := i + 1;
      }
      if i < |ids| {
        table := table[id := table[id].(removedAt := Some(|log|))];
        ids := Common.Remove(ids, i);
      }
      conns := Put(conns, user, ids);
      FailedIsGone(before, id);
    }
  }

  lemma FailedIsGone(s: State, id: ConnId)
    requires Inv(s) && s.lock.Free? && id < |s.table|
    ensures var ids := Get(s.conns, s.table[id].user);
            forall i :: 0 <= i < |ids| && ids[i] == id ==> i == FindId(ids, id) && id !in Remove(ids, i)
  {
    var ids := Get(s.conns, s.table[id].user);
    assert ListOk(s, s.table[id].user);
    forall i | 0 <= i < |ids| && ids[i] == id ensures i == FindId(ids, id) && id !in Remove(ids, i) {
      RemoveNoDup(ids, i);
    }
  }

  /** Connection `ids[i]` is the first of the list with this socket. */
  predicate IsFirstWith(table: seq<Conn>, ids: seq<ConnId>, ws: Socket, i: nat) {
    && i < |ids| && ids[i] < |table| && table[ids[i]].ws == ws
    && forall k :: 0 <= k < i && ids[k] < |table| ==> table[ids[k]].ws != ws
  }

  predicate HasSocket(table: seq<Conn>, ids: seq<ConnId>, ws: Socket) {
    exists k | 0 <= k < |ids| :: ids[k] < |table| && table[ids[k]].ws == ws
  }

  lemma FirstIsGone(s: State, user: UserId, ws: Socket)
    requires Inv(s) && s.lock.Free?
    ensures InRange(Get(s.conns, user), |s.table|)
    ensures forall i: nat :: IsFirstWith(s.table, Get(s.conns, user), ws, i) ==>
              var ids := Get(s.conns, user);
              i == FindSocket(s.table, ids, ws) && ids[i] !in Remove(ids, i)
  {
    var ids := Get(s.conns, user);
    UnregisterFacts(s, user, ws);
    assert ListOk(s, user);
    forall i: nat | IsFirstWith(s.table, ids, ws, i)
      ensures i == FindSocket(s.table, ids, ws) && ids[i] !in Remove(ids, i)
    {
      RemoveNoDup(ids, i);
    }
  }

  /** Unregister is enabled, keeps the invariant, and the channel it closes is still open. */
  lemma UnregisterFacts(s: State, user: UserId, ws: Socket)
    requires Inv(s) && s.lock.Free?
    ensures Enabled(s, Unregister(user, ws)) && Inv(UnregisterStep(s, user, ws))
    ensures var ids := Get(s.conns, user);
            InRange(ids, |s.table|) && forall k :: 0 <= k < |ids| ==> !s.table[ids[k]].closed
  {
    EnabledWhenFree(s, Unregister(user, ws));
    UnregisterInv(s, user, ws);
    var ids := Get(s.conns, user);
    forall k | 0 <= k < |ids| ensures ids[k] < |s.table| && !s.table[ids[k]].closed {
      assert ListOk(s, user);
      assert ids[k] in Current(s, user);
      assert ConnOk(s, ids[k]);
    }
  }

  lemma EnabledWhenFree(s: State, e: Event)
    requires Inv(s) && s.lock.Free?
    requires match e
             case Register(_, _) => true
             case Unregister(_, _) => true
             case BeginSend(_, _) => true
             case UnregisterConn(id) => id < |s.table| && s.table[id].pump.Failed?
             case _ => false
    ensures Enabled(s, e)
  {
    forall u | u in s.conns ensures InRange(s.conns[u], |s.table|) {
      assert OwnedBy(s, s.conns[u], u);
    }
  }

  /** What an uninterrupted SendToUser does: by SendToUserCompletes, a run of its small steps. */
  ghost function SendToUserResult(s: State, user: UserId, msg: Msg): State
    requires Inv(s) && s.lock.Free?
  {
    EnabledWhenFree(s, BeginSend(user, msg));
    BeginSendInv(s, user, msg);
    FinishSend(BeginSendStep(s, user, msg))
  }

  /** The connections of `ids` whose buffers have room, in order. */
  function WithRoom(table: seq<Conn>, ids: seq<ConnId>): seq<ConnId> {
    if ids == [] then []
    else (if ids[0] < |table| && |table[ids[0]].buffer| < 256 then [ids[0]] else []) + WithRoom(table, ids[1..])
  }

  lemma {:induction false} WithRoomSame(t1: seq<Conn>, t2: seq<Conn>, ids: seq<ConnId>)
    requires |t1| == |t2| && forall id :: id in ids && id < |t1| ==> t1[id] == t2[id]
    ensures WithRoom(t1, ids) == WithRoom(t2, ids)
  {
    if ids != [] {
      assert forall id :: id in ids[1..] ==> id in ids;
      assert ids[0] in ids;
      WithRoomSame(t1, t2, ids[1..]);
    }
  }

  /** What one send makes of a connection. */
  function Offered(c: Conn, msg: Msg, at: nat): Conn {
    if |c.buffer| < 256 then c.(buffer := c.buffer + [msg]) else c.(closed := true, removedAt := Some(at))
  }

  /** `s'` is what the rest of the loop makes of `s`, on the tables. */
  ghost predicate IsFinished(s: State, s': State)
    requires s.lock.Sending?
  {
    && s.log != [] && |s'.table| == |s.table| && s'.log == s.log
    && s'.conns == Put(s.conns, s.lock.user, s.lock.alive + WithRoom(s.table, s.lock.todo))
    && forall id :: 0 <= id < |s.table| ==>
         s'.table[id] == if id in s.lock.todo then Offered(s.table[id], s.lock.msg, |s.log| - 1) else s.table[id]
  }

  lemma {:induction false} FinishSendEffect(s: State)
    requires Inv(s) && s.lock.Sending?
    ensures IsFinished(s, FinishSend(s))
    decreases |s.lock.todo|
  {
    if s.lock.todo == [] {
      assert s.lock.alive + [] == s.lock.alive;
    } else {
      SendingEnabled(s);
      SendOneHead(s);
      SendOneInv(s);
      OneOffered(s);
      FinishSendEffect(SendOneStep(s));
      FinishedCons(s, SendOneStep(s), FinishSend(s));
    }
  }

  /** One connection of the loop offered the message. */
  predicate IsOffered(s: State, s': State) {
    && s.lock.Sending? && s.lock.todo != [] && s.log != []
    && var id := s.lock.todo[0];
    && id < |s.table| && s'.table == s.table[id := Offered(s.table[id], s.lock.msg, |s.log| - 1)]
    && id !in s.lock.todo[1..]
    && s'.log == s.log && s'.conns == s.conns && s'.lock.Sending? && s'.lock.user == s.lock.user
    && s'.lock.msg == s.lock.msg && s'.lock.todo == s.lock.todo[1..]
    && s'.lock.alive == s.lock.alive + if |s.table[id].buffer| < 256 then [id] else []
  }

  lemma FinishedCons(s: State, s1: State, s': State)
    requires IsOffered(s, s1) && IsFinished(s1, s')
    ensures IsFinished(s, s')
  {
    WithRoomSame(s.table, s1.table, s1.lock.todo);
    assert s1.lock.alive + WithRoom(s.table, s1.lock.todo) == s.lock.alive + WithRoom(s.table, s.lock.todo);
    assert forall id :: id in s.lock.todo <==> id == s.lock.todo[0] || id in s1.lock.todo;
  }

  lemma OneOffered(s: State)
    requires Inv(s) && Enabled(s, SendOne)
    ensures IsOffered(s, SendOneStep(s))
  {
    SendOneHead(s);
    assert s.lock.alive + [] == s.lock.alive;
  }

  lemma SendToUserEffect(s: State, user: UserId, msg: Msg)
    requires Inv(s) && s.lock.Free?
    ensures var s', ids := SendToUserResult(s, user, msg), Get(s.conns, user);
            && s'.log == s.log + [(user, msg)] && |s'.table| == |s.table|
            && Get(s'.conns, user) == WithRoom(s.table, ids)
            && (forall u :: u != user ==> Get(s'.conns, u) == Get(s.conns, u))
            && forall id :: 0 <= id < |s.table| ==>
                 s'.table[id] == if id in ids then Offered(s.table[id], msg, |s.log|) else s.table[id]
  {
    EnabledWhenFree(s, BeginSend(user, msg));
    BeginSendInv(s, user, msg);
    FinishSendEffect(BeginSendStep(s, user, msg));
    assert [] + WithRoom(s.table, Get(s.conns, user)) == WithRoom(s.table, Get(s.conns, user));
  }

  /** The uninterrupted call is one of the interleavings: BeginSend, one step per connection, EndSend. */
  lemma SendToUserIsRun(s: State, user: UserId, msg: Msg)
    requires Inv(s) && s.lock.Free?
    ensures var run := [BeginSend(user, msg)] + (seq(|Get(s.conns, user)|, _ => SendOne) + [EndSend]);
            CanRun(s, run) && After(s, run) == SendToUserResult(s, user, msg)
  {
    EnabledWhenFree(s, BeginSend(user, msg));
    BeginSendInv(s, user, msg);
    var tail := seq(|Get(s.conns, user)|, _ => SendOne) + [EndSend];
    SendToUserCompletes(BeginSendStep(s, user, msg));
    assert ([BeginSend(user, msg)] + tail)[1..] == tail;
  }
}
