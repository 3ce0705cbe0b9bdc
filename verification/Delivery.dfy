/** `websocket_connect` of src/operator/backend_listener.py: a queue, sender tasks, the
    buffer of unacknowledged messages, and a connection that drops and is re-established. A
    sender task outlives its connection when the receiver fails first, so several senders
    may be left. */
module Delivery {
  import opened Outcomes
  import opened UnackBuffer

  /** One `_send_message` task: between messages, waiting for room with a message in hand,
      woken up but not yet resumed, sending an inserted message, or ended by an error. All
      tasks share the variable that holds the newest connection, so a task left over from an
      earlier one goes on with the new one; a send stays with the connection, `socket`, that
      was the newest when it began, right after the insertion. */
  datatype Sender =
    | Idle
    | Waiting(message: Message)
    | Released(message: Message)
    | Sending(message: Message, socket: nat)
    | Ended

  /** The reconnect loop: between connections, sending the log and init messages, sending
      the list `replay` of which `sent` messages went out, or running its own two tasks. */
  datatype Link =
    | Down
    | Greeting
    | Replaying(replay: seq<Message>, sent: nat)
    | Open(replay: seq<Message>)

  /** `socket` numbers the newest connection, which works while `alive`; `wire` is what was
      put on it besides the log and init messages. `submitted`, `acked` and `early` are
      bookkeeping: every uuid ever queued, every uuid ever acknowledged, and what sender
      tasks put on the newest connection before its replay was over. */
  datatype State = State(
    limit: nat, queue: seq<Message>, buffer: Buffer, ready: bool,
    senders: map<nat, Sender>, link: Link,
    socket: nat, alive: bool, wire: seq<Message>,
    submitted: set<nat>, acked: set<nat>, early: seq<Message>)

  function Initial(limit: nat): State {
    State(limit, [], [], true, map[], Down, 0, false, [], {}, {}, [])
  }

  datatype Step =
    | Submit(message: Message)
    | Connect
    | TakeList
    | Replay
    | StartSender(sender: nat)
    | Get(sender: nat)
    | Resume(sender: nat)
    | SendOk(sender: nat)
    | SendFails(sender: nat)
    | Acknowledge(uuid: nat)
    | Break
    | Drop(requeue: bool)

  // ---------- steps ----------

  /** `add_message` after its wait, and the start of the send: on a connection that is
      closed it raises at once, which ends the task. */
  function Insert(s: State, sender: nat, m: Message): State {
    var buffer := Put(s.buffer, m);
    s.(buffer := buffer, ready := ReadyAfterPut(s.limit, s.ready, buffer),
       senders := s.senders[sender := if s.alive then Sending(m, s.socket) else Ended])
  }

  function Wake(senders: map<nat, Sender>): map<nat, Sender> {
    map i | i in senders :: if senders[i].Waiting? then Released(senders[i].message) else senders[i]
  }

  /** `remove_message`: setting the event wakes every waiting sender. */
  function Remove(s: State, id: nat): State {
    if Has(s.buffer, id) then
      s.(buffer := Delete(s.buffer, id), ready := true, senders := Wake(s.senders), acked := s.acked + {id})
    else s
  }

  /** The message variable of the reconnect loop: the replayed message being sent, or the
      last one once the replay is over. It is put back when the link fails. */
  function InHand(link: Link): Option<Message> {
    match link
    case Replaying(replay, sent) => if sent < |replay| then Some(replay[sent]) else if replay == [] then None else Some(replay[|replay| - 1])
    case Open(replay) => if replay == [] then None else Some(replay[|replay| - 1])
    case _ => None
  }

  /** The list has not been taken or has not gone out in full. */
  predicate BeforeReplayEnds(link: Link) {
    link.Greeting? || (link.Replaying? && link.sent < |link.replay|)
  }

  /** Sender `i` is sending on the newest connection, and that works. */
  predicate OnLiveSocket(s: State, i: nat) {
    s.alive && i in s.senders && s.senders[i].Sending? && s.senders[i].socket == s.socket
  }

  predicate Enabled(s: State, step: Step) {
    match step
    case Submit(_) => true
    case Connect => s.link.Down?
    case TakeList => s.link.Greeting?
    case Replay => s.link.Replaying? && s.link.sent < |s.link.replay| && s.alive
    case StartSender(i) => s.link.Replaying? && s.link.sent == |s.link.replay| && i !in s.senders
    case Get(i) => i in s.senders && s.senders[i].Idle? && s.queue != []
    case Resume(i) => i in s.senders && s.senders[i].Released?
    case SendOk(i) => i in s.senders && s.senders[i].Sending?
    case SendFails(i) => i in s.senders && s.senders[i].Sending? && !OnLiveSocket(s, i)
    case Acknowledge(_) => true
    case Break => s.alive
    case Drop(requeue) => !s.link.Down? && (requeue ==> InHand(s.link).Some?)
  }

  function After(s: State, step: Step): State
    requires Enabled(s, step)
  {
    match step
    case Submit(m) => s.(queue := s.queue + [m], submitted := s.submitted + {m.uuid})
    case Connect => s.(link := Greeting, socket := s.socket + 1, alive := true, wire := [], early := [])
    case TakeList => s.(link := Replaying(s.buffer, 0))
    case Replay => s.(link := Replaying(s.link.replay, s.link.sent + 1), wire := s.wire + [s.link.replay[s.link.sent]])
    case StartSender(i) => s.(link := Open(s.link.replay), senders := s.senders[i := Idle])
    case Get(i) =>
      var m := s.queue[0];
      var s1 := s.(queue := s.queue[1..]);
      if s.ready then Insert(s1, i, m) else s1.(senders := s.senders[i := Waiting(m)])
    case Resume(i) => Insert(s, i, s.senders[i].message)
    case SendOk(i) =>
      var m := s.senders[i].message;
      var s1 := s.(senders := s.senders[i := Idle]);
      if !OnLiveSocket(s, i) then s1
      else s1.(wire := s.wire + [m], early := if BeforeReplayEnds(s.link) then s.early + [m] else s.early)
    case SendFails(i) => s.(senders := s.senders[i := Ended])
    case Acknowledge(id) => Remove(s, id)
    case Break => s.(alive := false)
    case Drop(requeue) =>
      var s1 := s.(link := Down, alive := false);
      if requeue then
        var m := InHand(s.link).value;
        s1.(queue := s.queue + [m], submitted := s.submitted + {m.uuid})
      else s1
  }

  /** A behaviour from the start, as the list of steps taken. */
  ghost predicate Behaviour(limit: nat, states: seq<State>, steps: seq<Step>) {
    && |states| == |steps| + 1
    && states[0] == Initial(limit)
    && forall k | 0 <= k < |steps| :: Enabled(states[k], steps[k]) && states[k + 1] == After(states[k], steps[k])
  }

  // ---------- no message is lost ----------

  predicate HeldBy(sender: Sender, id: nat) {
    (sender.Waiting? || sender.Released?) && sender.message.uuid == id
  }

  predicate Queued(s: State, id: nat) {
    exists k :: 0 <= k < |s.queue| && s.queue[k].uuid == id
  }

  predicate Held(s: State, id: nat) {
    exists i :: i in s.senders && HeldBy(s.senders[i], id)
  }

  predicate Accounted(s: State, id: nat) {
    Queued(s, id) || Held(s, id) || Has(s.buffer, id) || id in s.acked
  }

  predicate Inv(s: State) {
    && Unique(s.buffer)
    && forall id | id in s.submitted :: Accounted(s, id)
  }

  lemma InsertKeepsInv(s: State, i: nat, m: Message)
    requires Unique(s.buffer) && i in s.senders && (s.senders[i].Idle? || s.senders[i] == Released(m))
    requires forall id | id in s.submitted :: Accounted(s, id) || id == m.uuid
    ensures Inv(Insert(s, i, m))
  {
    var s' := Insert(s, i, m);
    PutKeepsOrder(s.buffer, m, m.uuid);
    forall id | id in s'.submitted
      ensures Accounted(s', id)
    {
      PutKeepsOrder(s.buffer, m, id);
      if Queued(s, id) {
        assert Queued(s', id);
      } else if Held(s, id) && id != m.uuid {
        var j :| j in s.senders && HeldBy(s.senders[j], id);
        assert j in s'.senders && HeldBy(s'.senders[j], id);
      }
    }
  }

  lemma GetKeepsInv(s: State, i: nat)
    requires Inv(s) && Enabled(s, Get(i))
    ensures Inv(After(s, Get(i)))
  {
    var m, s1, s' := s.queue[0], s.(queue := s.queue[1..]), After(s, Get(i));
    forall id | id in s.submitted && id != m.uuid
      ensures Accounted(s1, id)
    {
      if Queued(s, id) {
        var k :| 0 <= k < |s.queue| && s.queue[k].uuid == id;
        assert s1.queue[k - 1].uuid == id;
      } else if Held(s, id) {
        var j :| j in s.senders && HeldBy(s.senders[j], id);
        assert HeldBy(s1.senders[j], id);
      }
    }
    if s.ready {
      InsertKeepsInv(s1, i, m);
    } else {
      assert HeldBy(s'.senders[i], m.uuid);
      forall id | id in s.submitted && id != m.uuid
        ensures Accounted(s', id)
      {
        assert Accounted(s1, id);
        if Queued(s1, id) {
          assert Queued(s', id);
        } else if Held(s1, id) {
          var j :| j in s1.senders && HeldBy(s1.senders[j], id);
          assert j != i && HeldBy(s'.senders[j], id);
        }
      }
    }
  }

  lemma AcknowledgeKeepsInv(s: State, id: nat)
    requires Inv(s)
    ensures Inv(Remove(s, id))
  {
    if Has(s.buffer, id) {
      var s' := Remove(s, id);
      DeleteIsUnique(s.buffer, id);
      forall x | x in s.submitted
        ensures Accounted(s', x)
      {
        if x != id { DeleteShifts(s.buffer, id, x); }
        if Queued(s, x) {
          assert Queued(s', x);
        } else if Held(s, x) {
          var j :| j in s.senders && HeldBy(s.senders[j], x);
          assert j in s'.senders && HeldBy(s'.senders[j], x);
        }
      }
    }
  }

  /** The steps that move no message between queue, senders and buffer. */
  lemma OtherStepsKeepInv(s: State, step: Step)
    requires Inv(s) && Enabled(s, step)
    requires !step.Get? && !step.Resume? && !step.Acknowledge?
    ensures Inv(After(s, step))
  {
    var s' := After(s, step);
    assert s'.buffer == s.buffer && s.queue <= s'.queue;
    forall x | x in s'.submitted
      ensures Accounted(s', x)
    {
      if x in s.submitted {
        if Queued(s, x) {
          var k :| 0 <= k < |s.queue| && s.queue[k].uuid == x;
          assert s'.queue[k].uuid == x;
        } else if Held(s, x) {
          var j :| j in s.senders && HeldBy(s.senders[j], x);
          assert j in s'.senders && HeldBy(s'.senders[j], x);
        }
      } else {
        assert s'.queue[|s.queue|].uuid == x;
      }
    }
  }

  lemma StepKeepsInv(s: State, step: Step)
    requires Inv(s) && Enabled(s, step)
    ensures Inv(After(s, step))
  {
    match step
    case Get(i) => GetKeepsInv(s, i);
    case Resume(i) => InsertKeepsInv(s, i, s.senders[i].message);
    case Acknowledge(id) => AcknowledgeKeepsInv(s, id);
    case _ => OtherStepsKeepInv(s, step);
  }

  lemma {:induction false} BehaviourKeepsInv(limit: nat, states: seq<State>, steps: seq<Step>, k: nat)
    requires Behaviour(limit, states, steps) && k < |states|
    ensures Inv(states[k])
  {
    if k > 0 {
      BehaviourKeepsInv(limit, states, steps, k - 1);
      StepKeepsInv(states[k - 1], steps[k - 1]);
    }
  }

  /** Across any sends, acknowledgements, disconnects and reconnects, a message put on the
      queue is still queued, in a sender's hands, in the buffer, or acknowledged. */
  lemma NoMessageIsLost(limit: nat, states: seq<State>, steps: seq<Step>, k: nat, id: nat)
    requires Behaviour(limit, states, steps) && k < |states| && id in states[k].submitted
    ensures Queued(states[k], id) || Held(states[k], id) || Has(states[k].buffer, id) || id in states[k].acked
  {
    BehaviourKeepsInv(limit, states, steps, k);
  }

  // ---------- what a connection carries ----------

  /** A working connection owes nothing: each unacknowledged message is on its wire, in the
      rest of its replay, or being sent on it. */
  ghost predicate Carried(s: State, m: Message) {
    || m in s.wire
    || (s.link.Replaying? && s.link.sent <= |s.link.replay| && m in s.link.replay[s.link.sent..])
    || exists i :: i in s.senders && s.senders[i] == Sending(m, s.socket)
  }

  ghost predicate AllCarried(s: State) {
    s.alive && (s.link.Replaying? || s.link.Open?) ==> forall m | m in s.buffer :: Carried(s, m)
  }

  /** `w` holds the messages of `a` and those of `b`, each in their order. */
  predicate Interleaves(a: seq<Message>, b: seq<Message>, w: seq<Message>) {
    if w == [] then a == [] && b == []
    else
      var n := |w| - 1;
      || (a != [] && a[|a| - 1] == w[n] && Interleaves(a[..|a| - 1], b, w[..n]))
      || (b != [] && b[|b| - 1] == w[n] && Interleaves(a, b[..|b| - 1], w[..n]))
  }

  lemma {:induction false} InterleavedContents(a: seq<Message>, b: seq<Message>, w: seq<Message>)
    requires Interleaves(a, b, w)
    ensures |w| == |a| + |b| && multiset(w) == multiset(a) + multiset(b)
    ensures b == [] ==> w == a
    decreases |w|
  {
    if w != [] {
      var n := |w| - 1;
      assert w == w[..n] + [w[n]];
      if a != [] && a[|a| - 1] == w[n] && Interleaves(a[..|a| - 1], b, w[..n]) {
        assert a == a[..|a| - 1] + [a[|a| - 1]];
        InterleavedContents(a[..|a| - 1], b, w[..n]);
      } else {
        assert b == b[..|b| - 1] + [b[|b| - 1]];
        InterleavedContents(a, b[..|b| - 1], w[..n]);
      }
    }
  }

  lemma InterleavedMore(a: seq<Message>, b: seq<Message>, w: seq<Message>, m: Message)
    requires Interleaves(a, b, w)
    ensures Interleaves(a + [m], b, w + [m]) && Interleaves(a, b + [m], w + [m])
  {
    assert (w + [m])[..|w|] == w && (a + [m])[..|a|] == a && (b + [m])[..|b|] == b;
  }

  /** What of the replay has gone out. */
  function SentPart(link: Link): seq<Message> {
    match link
    case Replaying(replay, sent) => if sent <= |replay| then replay[..sent] else replay
    case Open(replay) => replay
    case _ => []
  }

  /** The replayed messages and those that senders put among them make up the opening of the
      wire, each in their order: all of it until the replay is over, and then, unless the
      replay was empty, up to the last of them. */
  predicate OpeningOk(sent: seq<Message>, early: seq<Message>, wire: seq<Message>, before: bool) {
    var n := |sent| + |early|;
    && n <= |wire| && Interleaves(sent, early, wire[..n])
    && (before ==> n == |wire|)
    && (!before && sent != [] ==> wire[n - 1] == sent[|sent| - 1])
  }

  lemma EarlyPut(sent: seq<Message>, early: seq<Message>, wire: seq<Message>, m: Message)
    requires OpeningOk(sent, early, wire, true)
    ensures OpeningOk(sent, early + [m], wire + [m], true)
  {
    assert wire[..|wire|] == wire && (wire + [m])[..|wire| + 1] == wire + [m];
    InterleavedMore(sent, early, wire, m);
  }

  lemma LatePut(sent: seq<Message>, early: seq<Message>, wire: seq<Message>, m: Message)
    requires OpeningOk(sent, early, wire, false)
    ensures OpeningOk(sent, early, wire + [m], false)
  {
    assert (wire + [m])[..|sent| + |early|] == wire[..|sent| + |early|];
  }

  lemma ReplayPut(sent: seq<Message>, early: seq<Message>, wire: seq<Message>, m: Message, before: bool)
    requires OpeningOk(sent, early, wire, true)
    ensures OpeningOk(sent + [m], early, wire + [m], before)
  {
    assert wire[..|wire|] == wire && (wire + [m])[..|wire| + 1] == wire + [m];
    InterleavedMore(sent, early, wire, m);
  }

  predicate WireOk(s: State) {
    && (s.link.Down? ==> !s.alive)
    && (s.link.Replaying? ==> s.link.sent <= |s.link.replay|)
    && (!s.link.Down? ==> OpeningOk(SentPart(s.link), s.early, s.wire, BeforeReplayEnds(s.link)))
  }

  lemma StepKeepsWire(s: State, step: Step)
    requires WireOk(s) && Enabled(s, step)
    ensures WireOk(After(s, step))
  {
    match step
    case SendOk(i) =>
      if OnLiveSocket(s, i) {
        if BeforeReplayEnds(s.link) {
          EarlyPut(SentPart(s.link), s.early, s.wire, s.senders[i].message);
        } else {
          LatePut(SentPart(s.link), s.early, s.wire, s.senders[i].message);
        }
      }
    case Replay =>
      var m, link := s.link.replay[s.link.sent], After(s, Replay).link;
      assert SentPart(link) == SentPart(s.link) + [m];
      ReplayPut(SentPart(s.link), s.early, s.wire, m, BeforeReplayEnds(link));
    case StartSender(i) => assert SentPart(After(s, step).link) == SentPart(s.link);
    case _ =>
  }

  lemma StepKeepsCarried(s: State, step: Step)
    requires AllCarried(s) && WireOk(s) && Unique(s.buffer) && Enabled(s, step)
    ensures AllCarried(After(s, step))
  {
    var s' := After(s, step);
    forall m | s'.alive && (s'.link.Replaying? || s'.link.Open?) && m in s'.buffer
      ensures Carried(s', m)
    {
      match step
      case Get(i) => InsertedIsCarried(s, step, i, m);
      case Resume(i) => InsertedIsCarried(s, step, i, m);
      case TakeList => assert s'.link.replay[0..] == s.buffer;
      case Replay =>
        assert Carried(s, m);
        assert s.link.replay[s.link.sent..] == [s.link.replay[s.link.sent]] + s'.link.replay[s'.link.sent..];
        OthersStillSend(s, s', m);
      case Acknowledge(id) =>
        assert m in s.buffer && Carried(s, m);
        OthersStillSend(s, s', m);
      case SendOk(i) =>
        assert Carried(s, m);
        if s.senders[i] != Sending(m, s.socket) { OthersStillSend(s, s', m); }
      case SendFails(i) =>
        assert Carried(s, m);
        OthersStillSend(s, s', m);
      case StartSender(i) =>
        assert Carried(s, m) && s.link.replay[s.link.sent..] == [];
        OthersStillSend(s, s', m);
      case Submit(x) =>
        assert Carried(s, m);
        OthersStillSend(s, s', m);
      case _ =>
    }
  }

  lemma OthersStillSend(s: State, s': State, m: Message)
    requires s'.socket == s.socket
    requires forall i | i in s.senders && s.senders[i] == Sending(m, s.socket) :: i in s'.senders && s'.senders[i] == s.senders[i]
    ensures
      (exists i :: i in s.senders && s.senders[i] == Sending(m, s.socket)) ==>
        exists i :: i in s'.senders && s'.senders[i] == Sending(m, s'.socket)
  {
  }

  lemma InsertedIsCarried(s: State, step: Step, i: nat, m: Message)
    requires AllCarried(s) && Enabled(s, step) && (step == Get(i) || step == Resume(i))
    requires var s' := After(s, step); s'.alive && (s'.link.Replaying? || s'.link.Open?) && m in s'.buffer
    ensures Carried(After(s, step), m)
  {
    var s' := After(s, step);
    if m in s.buffer {
      assert Carried(s, m);
      OthersStillSend(s, s', m);
    } else {
      assert s'.senders[i] == Sending(m, s'.socket);
    }
  }

  lemma {:induction false} BehaviourKeepsWire(limit: nat, states: seq<State>, steps: seq<Step>, k: nat)
    requires Behaviour(limit, states, steps) && k < |states|
    ensures WireOk(states[k]) && AllCarried(states[k])
  {
    if k > 0 {
      BehaviourKeepsWire(limit, states, steps, k - 1);
      BehaviourKeepsInv(limit, states, steps, k - 1);
      StepKeepsWire(states[k - 1], steps[k - 1]);
      StepKeepsCarried(states[k - 1], steps[k - 1]);
    }
  }

  /** On every working connection whose list has been taken, and whatever senders are left,
      each unacknowledged message is on the wire, still to be replayed, or being sent on it. */
  lemma HealthyConnectionCarries(limit: nat, states: seq<State>, steps: seq<Step>, k: nat, m: Message)
    requires Behaviour(limit, states, steps) && k < |states| && states[k].alive
    requires (states[k].link.Replaying? || states[k].link.Open?) && m in states[k].buffer
    ensures
      || m in states[k].wire
      || (states[k].link.Replaying? && states[k].link.sent <= |states[k].link.replay| && m in states[k].link.replay[states[k].link.sent..])
      || exists i :: i in states[k].senders && states[k].senders[i] == Sending(m, states[k].socket)
  {
    BehaviourKeepsWire(limit, states, steps, k);
    assert Carried(states[k], m);
  }

  lemma {:induction false} ReplayIsKept(limit: nat, states: seq<State>, steps: seq<Step>, c: nat, k: nat)
    requires Behaviour(limit, states, steps) && c < k < |states| && steps[c].TakeList?
    requires forall j | c < j < k :: !steps[j].Drop?
    ensures (states[k].link.Replaying? || states[k].link.Open?) && states[k].link.replay == states[c].buffer
  {
    if k > c + 1 {
      ReplayIsKept(limit, states, steps, c, k - 1);
    }
    assert Enabled(states[k - 1], steps[k - 1]) && states[k] == After(states[k - 1], steps[k - 1]);
  }

  /** A reconnection replays the whole buffer in its order. Once its replay is over, the wire
      begins with an interleaving of the buffer as it was listed and of what sender tasks put
      there meanwhile, which is the buffer alone exactly if they put nothing. */
  lemma ReconnectReplaysUnacked(limit: nat, states: seq<State>, steps: seq<Step>, c: nat, k: nat)
    requires Behaviour(limit, states, steps) && c < k < |states| && steps[c].TakeList?
    requires forall j | c < j < k :: !steps[j].Drop?
    requires states[k].link.Open?
    ensures
      var list, early, wire := states[c].buffer, states[k].early, states[k].wire;
      && |list| + |early| <= |wire| && Interleaves(list, early, wire[..|list| + |early|])
      && (wire[..|list| + |early|] == list <==> early == [])
  {
    ReplayIsKept(limit, states, steps, c, k);
    BehaviourKeepsWire(limit, states, steps, k);
    var list, early := states[c].buffer, states[k].early;
    InterleavedContents(list, early, states[k].wire[..|list| + |early|]);
  }

  /** The list comes before anything else on the wire if and only if no sender put a message
      there before the replay was over, or there was nothing to replay. That is when no such
      message was itself on the list: sent twice, it may be taken for its replay. */
  lemma ReplayIsPrefixUnlessMixed(limit: nat, states: seq<State>, steps: seq<Step>, c: nat, k: nat)
    requires Behaviour(limit, states, steps) && c < k < |states| && steps[c].TakeList?
    requires forall j | c < j < k :: !steps[j].Drop?
    requires states[k].link.Open?
    ensures states[k].early == [] ==> states[c].buffer <= states[k].wire
    ensures
      (forall m | m in states[k].early :: m !in states[c].buffer) ==>
        (states[c].buffer <= states[k].wire <==> states[k].early == [] || states[c].buffer == [])
  {
    ReplayIsKept(limit, states, steps, c, k);
    BehaviourKeepsWire(limit, states, steps, k);
    var list, early := states[c].buffer, states[k].early;
    var opening := states[k].wire[..|list| + |early|];
    InterleavedContents(list, early, opening);
    if early != [] && list != [] && list <= states[k].wire && forall m | m in early :: m !in list {
      LastIsNotFirst(list, early, opening);
    }
  }

  /** An interleaving that begins with all of `a` ends with something of `b`. */
  lemma LastIsNotFirst(a: seq<Message>, b: seq<Message>, w: seq<Message>)
    requires Interleaves(a, b, w) && b != [] && a <= w
    ensures |w| > 0 && w[|w| - 1] in b
  {
    InterleavedContents(a, b, w);
    var rest := w[|a|..];
    assert w == a + rest;
    assert multiset(w) == multiset(a) + multiset(rest);
    forall m
      ensures multiset(rest)[m] == multiset(b)[m]
    {
      assert (multiset(a) + multiset(rest))[m] == multiset(w)[m] == (multiset(a) + multiset(b))[m];
    }
    assert multiset(rest) == multiset(b);
    assert w[|w| - 1] == rest[|rest| - 1] && rest[|rest| - 1] in multiset(rest);
  }

  // ---------- without a lingering sender ----------

  /** No sender task is left until the newest connection starts its own. */
  predicate NoneLingers(s: State) {
    s.early == [] && (BeforeReplayEnds(s.link) || s.link.Replaying? ==> forall i | i in s.senders :: s.senders[i].Ended?)
  }

  lemma NoneLingersStep(s: State, step: Step)
    requires NoneLingers(s) && Enabled(s, step) && !step.Connect? && !step.Drop?
    ensures NoneLingers(After(s, step))
  {
  }

  lemma NoneLingersAtConnect(s: State)
    requires s.link.Down? && forall i | i in s.senders :: s.senders[i].Ended?
    ensures NoneLingers(After(s, Connect))
  {
  }

  lemma NoneLingersNext(limit: nat, states: seq<State>, steps: seq<Step>, k: nat)
    requires Behaviour(limit, states, steps) && k < |steps| && NoneLingers(states[k]) && !steps[k].Connect? && !steps[k].Drop?
    ensures NoneLingers(states[k + 1])
  {
    assert Enabled(states[k], steps[k]) && states[k + 1] == After(states[k], steps[k]);
    NoneLingersStep(states[k], steps[k]);
  }

  lemma NoneLingersAfterConnect(limit: nat, states: seq<State>, steps: seq<Step>, c: nat)
    requires Behaviour(limit, states, steps) && c < |steps| && steps[c].Connect?
    requires forall i | i in states[c].senders :: states[c].senders[i].Ended?
    ensures NoneLingers(states[c + 1])
  {
    assert Enabled(states[c], steps[c]) && states[c + 1] == After(states[c], steps[c]);
    NoneLingersAtConnect(states[c]);
  }

  lemma {:induction false} NothingIsMixedIn(limit: nat, states: seq<State>, steps: seq<Step>, c: nat, k: nat)
    requires Behaviour(limit, states, steps) && c < k < |states| && steps[c].Connect?
    requires forall j | c < j < k :: !steps[j].Connect? && !steps[j].Drop?
    requires forall i | i in states[c].senders :: states[c].senders[i].Ended?
    ensures NoneLingers(states[k])
  {
    if k > c + 1 {
      NothingIsMixedIn(limit, states, steps, c, k - 1);
      NoneLingersNext(limit, states, steps, k - 1);
    } else {
      NoneLingersAfterConnect(limit, states, steps, c);
    }
  }

  /** If no earlier sender lingers at a connection, then once it is open its wire begins with
      the whole list. */
  lemma ReplayComesFirst(limit: nat, states: seq<State>, steps: seq<Step>, b: nat, c: nat, k: nat)
    requires Behaviour(limit, states, steps) && b < c < k < |states| && steps[b].Connect? && steps[c].TakeList?
    requires forall j | b < j < k :: !steps[j].Connect? && !steps[j].Drop?
    requires forall i | i in states[b].senders :: states[b].senders[i].Ended?
    requires states[k].link.Open?
    ensures states[c].buffer <= states[k].wire
  {
    NothingIsMixedIn(limit, states, steps, b, k);
    ReplayIsPrefixUnlessMixed(limit, states, steps, c, k);
  }

  // ---------- backpressure ----------

  function Live(s: State): set<nat> {
    set i | i in s.senders && !s.senders[i].Ended?
  }

  /** Never more unacknowledged messages than the limit, and the event says exactly whether
      there is room. */
  predicate Bounded(s: State) {
    s.limit > 0 ==> |s.buffer| <= s.limit && (s.ready <==> |s.buffer| < s.limit)
  }

  predicate AtMost(n: nat, states: seq<State>) {
    forall k | 0 <= k < |states| :: |Live(states[k])| <= n
  }

  /** Nobody waits while the event is set, and it is cleared only for want of room. */
  predicate WaitsForRoom(s: State) {
    && (forall i | i in s.senders && s.senders[i].Waiting? :: !s.ready)
    && (!s.ready ==> 0 < s.limit <= |s.buffer|)
  }

  lemma WaitsForRoomStep(s: State, step: Step)
    requires Unique(s.buffer) && WaitsForRoom(s) && Enabled(s, step)
    ensures WaitsForRoom(After(s, step))
  {
    if step.Resume? || step.Get? {
      var m := if step.Get? then s.queue[0] else s.senders[step.sender].message;
      PutKeepsOrder(s.buffer, m, m.uuid);
    }
  }

  /** A sender is held back only while the buffer is at a positive limit or beyond, with any
      number of senders. */
  lemma {:induction false} WaitingMeansFull(limit: nat, states: seq<State>, steps: seq<Step>, k: nat)
    requires Behaviour(limit, states, steps) && k < |states|
    ensures WaitsForRoom(states[k])
    ensures (exists i | i in states[k].senders :: states[k].senders[i].Waiting?) ==> 0 < limit <= |states[k].buffer|
  {
    LimitIsFixed(limit, states, steps, k);
    if k > 0 {
      WaitingMeansFull(limit, states, steps, k - 1);
      BehaviourKeepsInv(limit, states, steps, k - 1);
      assert Enabled(states[k - 1], steps[k - 1]) && states[k] == After(states[k - 1], steps[k - 1]);
      WaitsForRoomStep(states[k - 1], steps[k - 1]);
    }
  }

  /** With one sender, a sender that was woken up still finds room when it resumes. */
  predicate OneSenderInv(s: State) {
    && Unique(s.buffer) && Bounded(s)
    && forall i | i in s.senders && s.senders[i].Released? :: s.ready
  }

  lemma OnlyLive(s: State, i: nat, j: nat)
    requires |Live(s)| <= 1 && i in Live(s) && j in Live(s)
    ensures i == j
  {
    if i != j {
      assert {i, j} <= Live(s);
      SubsetIsSmaller({i, j}, Live(s));
    }
  }

  lemma SubsetIsSmaller(a: set<nat>, b: set<nat>)
    requires a <= b
    ensures |a| <= |b|
  {
    assert b == a + (b - a);
  }

  lemma OneSenderStep(s: State, step: Step)
    requires OneSenderInv(s) && Enabled(s, step) && |Live(s)| <= 1
    ensures OneSenderInv(After(s, step))
  {
    var s' := After(s, step);
    if step.Resume? || step.Get? {
      var i := step.sender;
      assert i in Live(s);
      var m := if step.Get? then s.queue[0] else s.senders[i].message;
      PutKeepsOrder(s.buffer, m, m.uuid);
      forall j | j in s'.senders && s'.senders[j].Released?
        ensures s'.ready
      {
        assert j in Live(s);
        OnlyLive(s, i, j);
      }
    } else if step.Acknowledge? {
      DeleteIsUnique(s.buffer, step.uuid);
    }
  }

  lemma {:induction false} OneSenderIsBounded(limit: nat, states: seq<State>, steps: seq<Step>, k: nat)
    requires Behaviour(limit, states, steps) && k < |states| && AtMost(1, states)
    ensures OneSenderInv(states[k])
  {
    if k > 0 {
      OneSenderIsBounded(limit, states, steps, k - 1);
      OneSenderStep(states[k - 1], steps[k - 1]);
    }
  }

  // ---------- two senders know no bound ----------

  datatype Trace = Trace(states: seq<State>, steps: seq<Step>)

  ghost predicate IsTrace(limit: nat, t: Trace) {
    Behaviour(limit, t.states, t.steps) && AtMost(2, t.states)
  }

  function Last(t: Trace): State
    requires |t.states| > 0
  {
    t.states[|t.states| - 1]
  }

  function Then(t: Trace, step: Step): Trace
    requires |t.states| > 0 && Enabled(Last(t), step)
  {
    Trace(t.states + [After(Last(t), step)], t.steps + [step])
  }

  lemma ThenIsTrace(limit: nat, t: Trace, step: Step)
    requires IsTrace(limit, t) && Enabled(Last(t), step)
    requires forall i | i in After(Last(t), step).senders :: i == 0 || i == 1
    ensures IsTrace(limit, Then(t, step)) && Last(Then(t, step)) == After(Last(t), step)
  {
    var s' := After(Last(t), step);
    SubsetIsSmaller(Live(s'), {0, 1});
  }

  /** Two idle senders, nothing queued, and uuids from `next` on not yet used. */
  predicate Quiet(limit: nat, s: State, next: nat, size: nat) {
    && s.limit == limit && s.senders == map[0 := Idle, 1 := Idle] && s.queue == [] && s.alive
    && Unique(s.buffer) && |s.buffer| == size && (s.ready <==> size < limit)
    && forall m | m in s.buffer :: m.uuid < next
  }

  lemma NewUuidIsAppended(b: Buffer, m: Message)
    requires Unique(b) && forall x | x in b :: x.uuid < m.uuid
    ensures Put(b, m) == b + [m] && Unique(Put(b, m))
  {
    HasIsMembership(b, m.uuid);
    PutKeepsOrder(b, m, m.uuid);
  }

  /** The receiver fails, its sender stays, and the reconnection starts another one. */
  lemma LingeringSender(limit: nat) returns (t: Trace)
    requires limit > 0
    ensures IsTrace(limit, t) && Quiet(limit, Last(t), 0, 0)
  {
    t := Trace([Initial(limit)], []);
    ThenIsTrace(limit, t, Connect);
    t := Then(t, Connect);
    ThenIsTrace(limit, t, TakeList);
    t := Then(t, TakeList);
    ThenIsTrace(limit, t, StartSender(0));
    t := Then(t, StartSender(0));
    ThenIsTrace(limit, t, Drop(false));
    t := Then(t, Drop(false));
    ThenIsTrace(limit, t, Connect);
    t := Then(t, Connect);
    ThenIsTrace(limit, t, TakeList);
    t := Then(t, TakeList);
    ThenIsTrace(limit, t, StartSender(1));
    t := Then(t, StartSender(1));
  }

  lemma FillOne(limit: nat, t: Trace, next: nat, size: nat) returns (t': Trace)
    requires IsTrace(limit, t) && Quiet(limit, Last(t), next, size) && size < limit
    ensures IsTrace(limit, t') && Quiet(limit, Last(t'), next + 1, size + 1)
  {
    var m := Message(next, "");
    NewUuidIsAppended(Last(t).buffer, m);
    ThenIsTrace(limit, t, Submit(m));
    t' := Then(t, Submit(m));
    ThenIsTrace(limit, t', Get(0));
    t' := Then(t', Get(0));
    ThenIsTrace(limit, t', SendOk(0));
    t' := Then(t', SendOk(0));
    assert Last(t').senders == map[0 := Idle, 1 := Idle];
  }

  /** Both senders wait; one acknowledgement wakes both, and both insert. */
  lemma GrowOne(limit: nat, t: Trace, next: nat, size: nat) returns (t': Trace)
    requires IsTrace(limit, t) && Quiet(limit, Last(t), next, size) && 0 < limit <= size
    ensures IsTrace(limit, t') && Quiet(limit, Last(t'), next + 2, size + 1)
  {
    t' := BothWait(limit, t, next, size);
    t' := BothWake(limit, t', next, size);
    t' := BothInsert(limit, t', next, size);
  }

  lemma BothWake(limit: nat, t: Trace, next: nat, size: nat) returns (t': Trace)
    requires IsTrace(limit, t) && 0 < size
    requires Last(t).senders == map[0 := Waiting(Message(next, "")), 1 := Waiting(Message(next + 1, ""))]
    requires Last(t).limit == limit && Last(t).alive && Last(t).queue == [] && Unique(Last(t).buffer) && |Last(t).buffer| == size
    ensures IsTrace(limit, t')
    ensures Last(t').senders == map[0 := Released(Message(next, "")), 1 := Released(Message(next + 1, ""))]
    ensures Last(t').limit == limit && Last(t').alive && Last(t').queue == [] && Last(t').buffer == Last(t).buffer[1..] && Last(t').ready
  {
    var buffer := Last(t).buffer;
    IndexIsUnique(buffer, 0);
    ThenIsTrace(limit, t, Acknowledge(buffer[0].uuid));
    t' := Then(t, Acknowledge(buffer[0].uuid));
  }

  lemma BothInsert(limit: nat, t: Trace, next: nat, size: nat) returns (t': Trace)
    requires IsTrace(limit, t) && 0 < limit <= size
    requires Last(t).senders == map[0 := Released(Message(next, "")), 1 := Released(Message(next + 1, ""))]
    requires Last(t).limit == limit && Last(t).alive && Last(t).queue == [] && Unique(Last(t).buffer) && |Last(t).buffer| == size - 1 && Last(t).ready
    requires forall m | m in Last(t).buffer :: m.uuid < next
    ensures IsTrace(limit, t') && Quiet(limit, Last(t'), next + 2, size + 1)
  {
    var a, b := Message(next, ""), Message(next + 1, "");
    var buffer := Last(t).buffer;
    NewUuidIsAppended(buffer, a);
    NewUuidIsAppended(buffer + [a], b);
    ThenIsTrace(limit, t, Resume(0));
    t' := Then(t, Resume(0));
    ThenIsTrace(limit, t', Resume(1));
    t' := Then(t', Resume(1));
    assert Last(t').buffer == buffer + [a] + [b] && !Last(t').ready;
    ThenIsTrace(limit, t', SendOk(0));
    t' := Then(t', SendOk(0));
    ThenIsTrace(limit, t', SendOk(1));
    t' := Then(t', SendOk(1));
    assert Last(t').senders == map[0 := Idle, 1 := Idle];
  }

  lemma BothWait(limit: nat, t: Trace, next: nat, size: nat) returns (t': Trace)
    requires IsTrace(limit, t) && Quiet(limit, Last(t), next, size) && limit <= size
    ensures IsTrace(limit, t')
    ensures Last(t').senders == map[0 := Waiting(Message(next, "")), 1 := Waiting(Message(next + 1, ""))]
    ensures Last(t').limit == limit && Last(t').alive && Last(t').queue == [] && Last(t').buffer == Last(t).buffer
  {
    var a, b := Message(next, ""), Message(next + 1, "");
    ThenIsTrace(limit, t, Submit(a));
    t' := Then(t, Submit(a));
    ThenIsTrace(limit, t', Submit(b));
    t' := Then(t', Submit(b));
    ThenIsTrace(limit, t', Get(0));
    t' := Then(t', Get(0));
    ThenIsTrace(limit, t', Get(1));
    t' := Then(t', Get(1));
    assert Last(t').senders == map[0 := Waiting(a), 1 := Waiting(b)];
  }

  /** Two senders take the buffer beyond any size, whatever the limit. */
  lemma {:induction false} TwoSendersReach(limit: nat, size: nat) returns (t: Trace, next: nat)
    requires limit > 0
    ensures IsTrace(limit, t) && Quiet(limit, Last(t), next, size)
  {
    if size == 0 {
      t := LingeringSender(limit);
      next := 0;
    } else {
      t, next := TwoSendersReach(limit, size - 1);
      if size - 1 < limit {
        t := FillOne(limit, t, next, size - 1);
        next := next + 1;
      } else {
        t := GrowOne(limit, t, next, size - 1);
        next := next + 2;
      }
    }
  }

  /** Behaviours with at most `senders` live senders stay within `bound`. */
  ghost predicate BoundedWith(limit: nat, senders: nat, bound: nat) {
    forall states: seq<State>, steps, k: nat | Behaviour(limit, states, steps) && AtMost(senders, states) && k < |states| ::
      |states[k].buffer| <= bound
  }

  /** Backpressure works exactly while there is no second sender: then the limit holds,
      otherwise no bound at all does. */
  lemma BackpressureNeedsOneSender(limit: nat, senders: nat)
    requires limit > 0
    ensures senders <= 1 ==> BoundedWith(limit, senders, limit)
    ensures senders > 1 ==> forall bound: nat :: !BoundedWith(limit, senders, bound)
  {
    if senders <= 1 {
      forall states: seq<State>, steps, k: nat | Behaviour(limit, states, steps) && AtMost(senders, states) && k < |states|
        ensures |states[k].buffer| <= limit
      {
        OneSenderIsBounded(limit, states, steps, k);
        LimitIsFixed(limit, states, steps, k);
      }
    } else {
      forall bound: nat
        ensures !BoundedWith(limit, senders, bound)
      {
        var t, next := TwoSendersReach(limit, bound + 1);
        assert AtMost(senders, t.states);
        assert |t.states[|t.states| - 1].buffer| == bound + 1;
      }
    }
  }

  lemma {:induction false} LimitIsFixed(limit: nat, states: seq<State>, steps: seq<Step>, k: nat)
    requires Behaviour(limit, states, steps) && k < |states|
    ensures states[k].limit == limit
  {
    if k > 0 {
      LimitIsFixed(limit, states, steps, k - 1);
    }
  }

  // ---------- a replay with something in between ----------

  ghost predicate IsRun(t: Trace) {
    Behaviour(0, t.states, t.steps)
  }

  lemma Extend(t: Trace, step: Step) returns (t': Trace)
    requires IsRun(t) && Enabled(Last(t), step)
    ensures IsRun(t') && Last(t') == After(Last(t), step)
  {
    t' := Then(t, step);
  }

  /** What matters of a state while one sender, 0, is left over. */
  predicate Lingering(s: State, sender: Sender, queue: seq<Message>, buffer: Buffer) {
    s.limit == 0 && s.ready && s.senders == map[0 := sender] && s.queue == queue && s.buffer == buffer
  }

  lemma SendOne(t: Trace, m: Message, buffer: Buffer) returns (t': Trace)
    requires IsRun(t) && Lingering(Last(t), Idle, [], buffer) && Last(t).alive && Unique(buffer) && !Has(buffer, m.uuid)
    ensures IsRun(t') && Lingering(Last(t'), Idle, [], buffer + [m])
    ensures
      var s, s' := Last(t), Last(t');
      && s'.alive && s'.link == s.link && s'.socket == s.socket && s'.wire == s.wire + [m]
      && s'.early == if BeforeReplayEnds(s.link) then s.early + [m] else s.early
  {
    t' := Extend(t, Submit(m));
    t' := Extend(t', Get(0));
    assert Lingering(Last(t'), Sending(m, Last(t').socket), [], buffer + [m]);
    t' := Extend(t', SendOk(0));
  }

  /** The first connection leaves its sender, idle, and two unacknowledged messages. */
  lemma TwoUnacked(a: Message, b: Message) returns (t: Trace)
    requires a.uuid != b.uuid
    ensures IsRun(t) && Lingering(Last(t), Idle, [], [a, b]) && Last(t).link.Down?
  {
    t := Trace([Initial(0)], []);
    t := Extend(t, Connect);
    t := Extend(t, TakeList);
    t := Extend(t, StartSender(0));
    assert Lingering(Last(t), Idle, [], []);
    t := SendOne(t, a, []);
    assert [] + [a] == [a];
    t := SendOne(t, b, [a]);
    assert [a] + [b] == [a, b];
    t := Extend(t, Drop(false));
  }

  /** A sender left over from the connection before puts a new message between two messages
      of the replay. */
  lemma ReplayMayBeMixed(a: Message, b: Message, c: Message) returns (t: Trace)
    requires a.uuid != b.uuid && a.uuid != c.uuid && b.uuid != c.uuid
    ensures IsRun(t)
    ensures
      var s := Last(t);
      && s.link == Open([a, b]) && s.alive && s.senders == map[0 := Idle, 1 := Idle]
      && s.wire == [a, c, b] && s.early == [c] && s.buffer == [a, b, c]
  {
    t := TwoUnacked(a, b);
    t := Extend(t, Connect);
    t := Extend(t, TakeList);
    t := Extend(t, Replay);
    assert Last(t).link == Replaying([a, b], 1) && Last(t).wire == [] + [a];
    t := SendOne(t, c, [a, b]);
    assert Last(t).wire == [a, c];
    t := Extend(t, Replay);
    assert Last(t).wire == [a, c, b];
    t := Extend(t, StartSender(1));
  }
}
