/** The snapshot broadcast of the switch agent: one refresher replaces the content of
    one-slot channels while subscribers drain them, come and go. */
module SwitchAgent {
  import opened Wrappers
  import Subscription

  type Entry = Subscription.Entry

  type Snapshot = Subscription.Snapshot

  /** What a WatchLLDPNeighbors call does next. */
  datatype Stream = First(initial: Option<Snapshot>) | Waiting | Sending(snapshot: Snapshot) | Leaving

  /** A registered subscriber: its channel, its stream and what it has sent. `taken` is the
      generation of the last snapshot that was handed to it. */
  datatype Subscriber = Subscriber(slot: Option<Snapshot>, stream: Stream, last: int, sent: seq<Snapshot>,
    taken: int)

  /** Where the refresher is. It holds the lock from Broadcasting on. */
  datatype Refresher =
    | Resting
    | Collecting(generation: int)
    | Comparing(collected: Snapshot)
    | Broadcasting(todo: set<int>)
    | Replacing(id: int, todo: set<int>)
    | Drained(id: int, todo: set<int>)

  datatype State = State(current: Option<Snapshot>, subscribers: map<int, Subscriber>, next: int, refresher: Refresher)

  datatype Step =
    | ReadGeneration | Collect(entries: seq<Entry>) | CollectFails | Compare | TrySend(to: int) | Drain | Send | Unlock
    | Subscribe | SendFirst(first: int) | Receive(receiver: int) | SendNext(sender: int) | Leave(leaver: int)
    | Unsubscribe(gone: int)

  function Generation(current: Option<Snapshot>): int {
    if current.Some? then current.value.generation else 0
  }

  ghost predicate HoldsLock(r: Refresher) {
    r.Broadcasting? || r.Replacing? || r.Drained?
  }

  ghost predicate SameContent(current: Option<Snapshot>, s: Snapshot) {
    current.Some? && current.value.entries == s.entries
  }

  ghost function WithSlot(s: State, id: int, slot: Option<Snapshot>): map<int, Subscriber>
    requires id in s.subscribers
  {
    s.subscribers[id := s.subscribers[id].(slot := slot)]
  }

  /** The refresher's steps; every channel operation is a step of its own. */
  ghost predicate RefresherStep(s: State, step: Step, s': State) {
    match step
    case ReadGeneration => s.refresher.Resting? && s' == s.(refresher := Collecting(Generation(s.current) + 1))
    case Collect(entries) =>
      s.refresher.Collecting?
        && s' == s.(refresher := Comparing(Subscription.Snapshot(s.refresher.generation, entries)))
    case CollectFails => s.refresher.Collecting? && s' == s.(refresher := Resting)
    case Compare =>
      s.refresher.Comparing? &&
      if SameContent(s.current, s.refresher.collected) then s' == s.(refresher := Resting)
      else s' == s.(current := Some(s.refresher.collected), refresher := Broadcasting(s.subscribers.Keys))
    case TrySend(id) =>
      s.refresher.Broadcasting? && id in s.refresher.todo && id in s.subscribers &&
      if s.subscribers[id].slot.None? then
        s' == s.(subscribers := WithSlot(s, id, s.current), refresher := Broadcasting(s.refresher.todo - {id}))
      else s' == s.(refresher := Replacing(id, s.refresher.todo))
    case Drain =>
      s.refresher.Replacing? && s.refresher.id in s.subscribers &&
      s' == s.(subscribers := WithSlot(s, s.refresher.id, None), refresher := Drained(s.refresher.id, s.refresher.todo))
    case Send =>
      SendReady(s)
        && s' == s.(subscribers := WithSlot(s, s.refresher.id, s.current),
           refresher := Broadcasting(s.refresher.todo - {s.refresher.id}))
    case Unlock => s.refresher == Broadcasting({}) && s' == s.(refresher := Resting)
    case _ => false
  }

  /** The plain send after the drain can go through: the channel has room. */
  ghost predicate SendReady(s: State) {
    s.refresher.Drained? && s.refresher.id in s.subscribers && s.subscribers[s.refresher.id].slot.None?
  }

  ghost function WithStream(s: State, id: int, stream: Stream): State
    requires id in s.subscribers
  {
    s.(subscribers := s.subscribers[id := s.subscribers[id].(stream := stream)])
  }

  ghost function AfterSend(sub: Subscriber, snapshot: Snapshot): Subscriber {
    sub.(stream := Waiting, last := snapshot.generation, sent := sub.sent + [snapshot])
  }

  /** What a subscriber becomes when it takes the snapshot in its channel. */
  ghost function AfterReceive(sub: Subscriber): Subscriber
    requires sub.slot.Some?
  {
    var taken := sub.slot.value;
    sub.(slot := None, taken := taken.generation, stream := if taken.generation <= sub.last then Waiting
      else Sending(taken))
  }

  /** The subscribers' steps. Receiving needs no lock; subscribing and unsubscribing do. */
  ghost predicate SubscriberStep(s: State, step: Step, s': State) {
    match step
    case Subscribe =>
      !HoldsLock(s.refresher) &&
      s' == s.(subscribers := s.subscribers[s.next := Subscriber(None, First(s.current), 0, [], Generation(s.current))],
        next := s.next + 1)
    case SendFirst(id) =>
      id in s.subscribers && s.subscribers[id].stream.First? &&
      if s.subscribers[id].stream.initial.None? then s' == WithStream(s, id, Leaving)
      else
        var sent := s.subscribers[id].stream.initial.value;
        s' == s.(subscribers := s.subscribers[id := AfterSend(s.subscribers[id], sent)])
    case Receive(id) =>
      id in s.subscribers && s.subscribers[id].stream.Waiting? && s.subscribers[id].slot.Some? &&
      s' == s.(subscribers := s.subscribers[id := AfterReceive(s.subscribers[id])])
    case SendNext(id) =>
      id in s.subscribers && s.subscribers[id].stream.Sending? &&
      var sent := s.subscribers[id].stream.snapshot;
      s' == s.(subscribers := s.subscribers[id := AfterSend(s.subscribers[id], sent)])
    case Leave(id) => id in s.subscribers && s' == WithStream(s, id, Leaving)
    case Unsubscribe(id) =>
      !HoldsLock(s.refresher) && id in s.subscribers && s.subscribers[id].stream.Leaving?
        && s' == s.(subscribers := s.subscribers - {id})
    case _ => false
  }

  ghost predicate Next(s: State, step: Step, s': State) {
    RefresherStep(s, step, s') || SubscriberStep(s, step, s')
  }

  // ---------------------------------------------------------------------- the invariant

  /** The channel holds the current snapshot, or is empty because it was taken already. */
  ghost predicate UpToDate(current: Option<Snapshot>, sub: Subscriber) {
    if sub.slot.Some? then sub.slot == current else sub.taken == Generation(current)
  }

  /** The subscriber has not been offered the current snapshot yet. */
  ghost predicate Behind(current: Option<Snapshot>, sub: Subscriber) {
    sub.taken < Generation(current) && (sub.slot.Some? ==> sub.slot.value.generation < Generation(current))
  }

  ghost predicate Increasing(sent: seq<Snapshot>) {
    forall i, j :: 0 <= i < j < |sent| ==> sent[i].generation < sent[j].generation
  }

  ghost predicate SentOk(sub: Subscriber) {
    && Increasing(sub.sent) && (forall i :: 0 <= i < |sub.sent| ==> 0 < sub.sent[i].generation <= sub.last)
    && sub.last == if sub.sent == [] then 0 else sub.sent[|sub.sent| - 1].generation
  }

  /** What a stream is about to send is what it took last; while it waits it has sent that. */
  ghost predicate StreamOk(sub: Subscriber) {
    && 0 <= sub.last <= sub.taken && SentOk(sub)
    && (sub.slot.Some? ==> sub.taken < sub.slot.value.generation)
    && (sub.stream.First? && sub.stream.initial.Some? ==> sub.last < sub.stream.initial.value.generation == sub.taken)
    && (sub.stream.Waiting? ==> sub.sent != [] && sub.last == sub.taken)
    && (sub.stream.Sending? ==> sub.last < sub.stream.snapshot.generation == sub.taken)
  }

  ghost function Todo(r: Refresher): set<int> {
    if r.Broadcasting? || r.Replacing? || r.Drained? then r.todo else {}
  }

  ghost predicate SubscriberOk(s: State, id: int)
    requires id in s.subscribers
  {
    && id < s.next && StreamOk(s.subscribers[id])
    && if id in Todo(s.refresher) then Behind(s.current, s.subscribers[id]) else UpToDate(s.current, s.subscribers[id])
  }

  ghost predicate RefresherOk(s: State) {
    && (s.current.Some? ==> s.current.value.generation >= 1)
    && (HoldsLock(s.refresher) ==> s.current.Some? && Todo(s.refresher) <= s.subscribers.Keys)
    && (s.refresher.Collecting? ==> s.refresher.generation == Generation(s.current) + 1)
    && (s.refresher.Comparing? ==> s.refresher.collected.generation == Generation(s.current) + 1)
    && (s.refresher.Replacing? ==> s.refresher.id in s.refresher.todo)
    && (s.refresher.Drained? ==> s.refresher.id in s.refresher.todo && s.subscribers[s.refresher.id].slot.None?)
  }

  ghost predicate Inv(s: State) {
    RefresherOk(s) && forall id {:trigger s.subscribers[id]} :: id in s.subscribers ==> SubscriberOk(s, id)
  }

  ghost predicate Init(s: State) {
    s.current.None? && s.subscribers == map[] && s.refresher.Resting?
  }

  lemma AfterSendOk(sub: Subscriber, snapshot: Snapshot)
    requires StreamOk(sub) && sub.last < snapshot.generation == sub.taken
    ensures StreamOk(AfterSend(sub, snapshot))
  {
  }

  /** A step of the refresher on one channel. */
  lemma ChannelStepKeepsInv(s: State, step: Step, s': State)
    requires Inv(s) && RefresherStep(s, step, s') && (step.TrySend? || step.Drain? || step.Send?)
    ensures Inv(s')
  {
    match step {
      case TrySend(id) => TrySendKeepsInv(s, id, s');
      case Drain => DrainKeepsInv(s, s');
      case Send => SendKeepsInv(s, s');
    }
  }

  lemma TrySendKeepsInv(s: State, id: int, s': State)
    requires Inv(s) && RefresherStep(s, TrySend(id), s')
    ensures Inv(s')
  {
    forall x | x in s'.subscribers
      ensures SubscriberOk(s', x)
    {
      assert SubscriberOk(s, x);
    }
  }

  lemma DrainKeepsInv(s: State, s': State)
    requires Inv(s) && RefresherStep(s, Drain, s')
    ensures Inv(s')
  {
    forall x | x in s'.subscribers
      ensures SubscriberOk(s', x)
    {
      assert SubscriberOk(s, x);
    }
  }

  lemma SendKeepsInv(s: State, s': State)
    requires Inv(s) && RefresherStep(s, Send, s')
    ensures Inv(s')
  {
    forall x | x in s'.subscribers
      ensures SubscriberOk(s', x)
    {
      assert SubscriberOk(s, x);
    }
  }

  lemma RefresherKeepsInv(s: State, step: Step, s': State)
    requires Inv(s) && RefresherStep(s, step, s')
    ensures Inv(s')
  {
    if step.TrySend? || step.Drain? || step.Send? {
      ChannelStepKeepsInv(s, step, s');
    } else {
      forall id | id in s'.subscribers
        ensures SubscriberOk(s', id)
      {
        assert SubscriberOk(s, id);
      }
    }
  }

  /** A change of one subscriber that keeps how far behind the current snapshot it is. */
  ghost predicate KeepsPlace(current: Option<Snapshot>, sub: Subscriber, sub': Subscriber) {
    && (sub.slot.None? ==> sub'.slot.None?)
    && (Behind(current, sub) ==> Behind(current, sub')) && (UpToDate(current, sub) ==> UpToDate(current, sub'))
  }

  lemma OneSubscriberKeepsInv(s: State, id: int, sub': Subscriber, s': State)
    requires Inv(s) && id in s.subscribers && s' == s.(subscribers := s.subscribers[id := sub'])
    requires StreamOk(sub') && KeepsPlace(s.current, s.subscribers[id], sub')
    ensures Inv(s')
  {
    forall x | x in s'.subscribers
      ensures SubscriberOk(s', x)
    {
      assert SubscriberOk(s, x);
    }
  }

  lemma SubscribeKeepsInv(s: State, s': State)
    requires Inv(s) && SubscriberStep(s, Subscribe, s')
    ensures Inv(s')
  {
    forall id | id in s'.subscribers
      ensures SubscriberOk(s', id)
    {
      if id in s.subscribers {
        assert SubscriberOk(s, id);
      }
    }
  }

  lemma UnsubscribeKeepsInv(s: State, id: int, s': State)
    requires Inv(s) && SubscriberStep(s, Unsubscribe(id), s')
    ensures Inv(s')
  {
    forall x | x in s'.subscribers
      ensures SubscriberOk(s', x)
    {
      assert SubscriberOk(s, x);
    }
  }

  lemma SubscriberKeepsInv(s: State, step: Step, s': State)
    requires Inv(s) && SubscriberStep(s, step, s')
    ensures Inv(s')
  {
    match step {
      case Subscribe => SubscribeKeepsInv(s, s');
      case SendFirst(id) => SendFirstKeepsInv(s, id, s');
      case Receive(id) => ReceiveKeepsInv(s, id, s');
      case SendNext(id) => SendNextKeepsInv(s, id, s');
      case Leave(id) => LeaveKeepsInv(s, id, s');
      case Unsubscribe(id) => UnsubscribeKeepsInv(s, id, s');
    }
  }

  lemma SendFirstKeepsInv(s: State, id: int, s': State)
    requires Inv(s) && SubscriberStep(s, SendFirst(id), s')
    ensures Inv(s')
  {
    var sub := s.subscribers[id];
    assert SubscriberOk(s, id);
    if sub.stream.initial.Some? {
      AfterSendOk(sub, sub.stream.initial.value);
    }
    OneSubscriberKeepsInv(s, id, s'.subscribers[id], s');
  }

  lemma ReceiveKeepsInv(s: State, id: int, s': State)
    requires Inv(s) && SubscriberStep(s, Receive(id), s')
    ensures Inv(s')
  {
    assert SubscriberOk(s, id);
    OneSubscriberKeepsInv(s, id, s'.subscribers[id], s');
  }

  lemma SendNextKeepsInv(s: State, id: int, s': State)
    requires Inv(s) && SubscriberStep(s, SendNext(id), s')
    ensures Inv(s')
  {
    var sub := s.subscribers[id];
    assert SubscriberOk(s, id);
    AfterSendOk(sub, sub.stream.snapshot);
    OneSubscriberKeepsInv(s, id, s'.subscribers[id], s');
  }

  lemma LeaveKeepsInv(s: State, id: int, s': State)
    requires Inv(s) && SubscriberStep(s, Leave(id), s')
    ensures Inv(s')
  {
    assert SubscriberOk(s, id);
    OneSubscriberKeepsInv(s, id, s'.subscribers[id], s');
  }

  // --------------------------------------------------------------- one content a generation

  /** `x` is the current snapshot or an earlier one. */
  ghost predicate Agrees(current: Option<Snapshot>, x: Snapshot) {
    x.generation <= Generation(current) && (x.generation == Generation(current) ==> current == Some(x))
  }

  ghost predicate AllAgree(current: Option<Snapshot>, sent: seq<Snapshot>) {
    forall i :: 0 <= i < |sent| ==> Agrees(current, sent[i])
  }

  ghost predicate SubscriberAgrees(current: Option<Snapshot>, sub: Subscriber) {
    && (sub.slot.Some? ==> Agrees(current, sub.slot.value)) && AllAgree(current, sub.sent)
    && (sub.stream.First? && sub.stream.initial.Some? ==> Agrees(current, sub.stream.initial.value))
    && (sub.stream.Sending? ==> Agrees(current, sub.stream.snapshot))
  }

  ghost predicate Faithful(s: State) {
    forall id {:trigger s.subscribers[id]} :: id in s.subscribers ==> SubscriberAgrees(s.current, s.subscribers[id])
  }

  /** The current snapshot changes only to one of a later generation. */
  lemma CurrentMovesOn(s: State, step: Step, s': State, x: Snapshot)
    requires RefresherOk(s) && Next(s, step, s') && Agrees(s.current, x)
    ensures Agrees(s'.current, x)
  {
  }

  lemma SubscriberStaysFaithful(s: State, step: Step, s': State, id: int)
    requires RefresherOk(s) && Next(s, step, s') && id in s.subscribers
      && SubscriberAgrees(s.current, s.subscribers[id])
    ensures SubscriberAgrees(s'.current, s.subscribers[id])
  {
    var sub := s.subscribers[id];
    forall x | Agrees(s.current, x)
      ensures Agrees(s'.current, x)
    {
      CurrentMovesOn(s, step, s', x);
    }
  }

  lemma RefresherKeepsFaithful(s: State, step: Step, s': State, id: int)
    requires RefresherOk(s) && RefresherStep(s, step, s') && id in s.subscribers && id in s'.subscribers
    requires SubscriberAgrees(s.current, s.subscribers[id])
    ensures SubscriberAgrees(s'.current, s'.subscribers[id])
  {
    SubscriberStaysFaithful(s, step, s', id);
  }

  lemma SubscriberKeepsFaithful(s: State, step: Step, s': State, id: int)
    requires RefresherOk(s) && SubscriberStep(s, step, s') && id in s'.subscribers
    requires id in s.subscribers ==> SubscriberAgrees(s.current, s.subscribers[id])
    ensures SubscriberAgrees(s'.current, s'.subscribers[id])
  {
  }

  lemma StepKeepsFaithful(s: State, step: Step, s': State)
    requires Inv(s) && Faithful(s) && Next(s, step, s')
    ensures Faithful(s')
  {
    forall id | id in s'.subscribers
      ensures SubscriberAgrees(s'.current, s'.subscribers[id])
    {
      if RefresherStep(s, step, s') {
        RefresherKeepsFaithful(s, step, s', id);
      } else {
        SubscriberKeepsFaithful(s, step, s', id);
      }
    }
  }

  // ------------------------------------------------------------------------- whole runs

  ghost predicate StepAt(run: seq<State>, steps: seq<Step>, i: int)
    requires 0 <= i < |steps| && |run| == |steps| + 1
  {
    Next(run[i], steps[i], run[i + 1])
  }

  ghost predicate IsRun(run: seq<State>, steps: seq<Step>) {
    && |run| == |steps| + 1 && Init(run[0])
    && forall i {:trigger StepAt(run, steps, i)} :: 0 <= i < |steps| ==> StepAt(run, steps, i)
  }

  lemma {:induction false} RunKeepsInv(run: seq<State>, steps: seq<Step>, i: nat)
    requires IsRun(run, steps) && i < |run|
    ensures Inv(run[i])
    decreases i
  {
    if i > 0 {
      RunKeepsInv(run, steps, i - 1);
      var step := steps[i - 1];
      assert StepAt(run, steps, i - 1);
      if RefresherStep(run[i - 1], step, run[i]) {
        RefresherKeepsInv(run[i - 1], step, run[i]);
      } else {
        SubscriberKeepsInv(run[i - 1], step, run[i]);
      }
    }
  }

  /** The send after the drain never blocks, whatever the subscribers do in between. */
  lemma SendNeverBlocks(run: seq<State>, steps: seq<Step>, i: nat)
    requires IsRun(run, steps) && i < |run| && run[i].refresher.Drained?
    ensures SendReady(run[i])
  {
    RunKeepsInv(run, steps, i);
  }

  /** Whenever the lock is free, every channel holds the current snapshot or is empty with
      the current snapshot already taken. */
  lemma NobodyMissesTheCurrent(run: seq<State>, steps: seq<Step>, i: nat, id: int)
    requires IsRun(run, steps) && i < |run| && !HoldsLock(run[i].refresher) && id in run[i].subscribers
    ensures UpToDate(run[i].current, run[i].subscribers[id])
  {
    RunKeepsInv(run, steps, i);
    assert SubscriberOk(run[i], id);
  }

  /** The generations sent on each stream strictly increase. */
  lemma StreamsIncrease(run: seq<State>, steps: seq<Step>, i: nat, id: int)
    requires IsRun(run, steps) && i < |run| && id in run[i].subscribers
    ensures Increasing(run[i].subscribers[id].sent)
    ensures forall k :: 0 <= k < |run[i].subscribers[id].sent| ==>
      run[i].subscribers[id].sent[k].generation <= Generation(run[i].current)
  {
    RunKeepsInv(run, steps, i);
    assert SubscriberOk(run[i], id);
  }

  lemma {:induction false} RunKeepsFaithful(run: seq<State>, steps: seq<Step>, i: nat)
    requires IsRun(run, steps) && i < |run|
    ensures Faithful(run[i])
    decreases i
  {
    if i > 0 {
      RunKeepsFaithful(run, steps, i - 1);
      RunKeepsInv(run, steps, i - 1);
      var step := steps[i - 1];
      assert StepAt(run, steps, i - 1);
      StepKeepsFaithful(run[i - 1], step, run[i]);
    }
  }

  /** A snapshot of the run stays one as the run goes on. */
  lemma {:induction false} AgreesLater(run: seq<State>, steps: seq<Step>, i: nat, j: nat, x: Snapshot)
    requires IsRun(run, steps) && i <= j < |run| && Agrees(run[i].current, x)
    ensures Agrees(run[j].current, x)
    decreases j
  {
    if i < j {
      AgreesLater(run, steps, i, j - 1, x);
      RunKeepsInv(run, steps, j - 1);
      var step := steps[j - 1];
      assert StepAt(run, steps, j - 1);
      CurrentMovesOn(run[j - 1], step, run[j], x);
    }
  }

  /** The stream waits, with nothing in its channel and no broadcast under way. */
  ghost predicate Delivered(s: State, id: int) {
    !HoldsLock(s.refresher) && id in s.subscribers && s.subscribers[id].slot.None? && s.subscribers[id].stream.Waiting?
  }

  /** Then the last snapshot it sent is the current one. */
  lemma DeliveredIsCurrent(run: seq<State>, steps: seq<Step>, i: nat, id: int)
    requires IsRun(run, steps) && i < |run| && Delivered(run[i], id)
    ensures var sent := run[i].subscribers[id].sent;
      sent != [] && run[i].current == Some(sent[|sent| - 1])
  {
    RunKeepsInv(run, steps, i);
    RunKeepsFaithful(run, steps, i);
    var sub := run[i].subscribers[id];
    assert SubscriberOk(run[i], id) && SubscriberAgrees(run[i].current, sub);
    assert Agrees(run[i].current, sub.sent[|sub.sent| - 1]);
  }

  // ------------------------------------------------------------- what the current one holds

  /** The entries of the last collection that succeeded. */
  ghost function LastCollected(steps: seq<Step>): Option<seq<Entry>> {
    if steps == [] then None
    else
      var step := steps[|steps| - 1];
      if step.Collect? then Some(step.entries) else LastCollected(steps[..|steps| - 1])
  }

  /** The entries of the last collection that was compared with the current snapshot. */
  ghost function LastCompared(steps: seq<Step>): Option<seq<Entry>> {
    if steps == [] then None
    else
      var before := steps[..|steps| - 1];
      if steps[|steps| - 1].Compare? then LastCollected(before) else LastCompared(before)
  }

  /** How often a compared collection differed from the one compared before it. */
  ghost function Changes(steps: seq<Step>): nat {
    if steps == [] then 0
    else
      var before := steps[..|steps| - 1];
      Changes(before) + if LastCompared(steps) != LastCompared(before) then 1 else 0
  }

  /** The snapshot that these steps should have made current. */
  ghost function Published(steps: seq<Step>): Option<Snapshot> {
    match LastCompared(steps)
    case None => None
    case Some(entries) => Some(Subscription.Snapshot(Changes(steps), entries))
  }

  /** What the refresher is comparing is what it collected last; otherwise that was compared. */
  ghost predicate ComparesLast(s: State, steps: seq<Step>) {
    && (!s.refresher.Comparing? ==> LastCompared(steps) == LastCollected(steps))
    && (s.refresher.Comparing? ==> LastCollected(steps) == Some(s.refresher.collected.entries))
    && (s.refresher.Comparing? ==> s.refresher.collected.generation == Generation(s.current) + 1)
    && (s.refresher.Collecting? ==> s.refresher.generation == Generation(s.current) + 1)
  }

  lemma StepPublishes(s: State, steps: seq<Step>, step: Step, s': State)
    requires Next(s, step, s') && ComparesLast(s, steps) && s.current == Published(steps)
    requires LastCompared(steps).None? ==> Changes(steps) == 0
    ensures ComparesLast(s', steps + [step]) && s'.current == Published(steps + [step])
    ensures LastCompared(steps + [step]).None? ==> Changes(steps + [step]) == 0
  {
    var more := steps + [step];
    assert more[..|steps|] == steps && more[|more| - 1] == step;
  }

  /** In every state of every run the current snapshot holds the entries last collected and
      compared, and its generation is the number of times that these changed. */
  lemma {:induction false} CurrentIsPublished(run: seq<State>, steps: seq<Step>, i: nat)
    requires IsRun(run, steps) && i < |run|
    ensures run[i].current == Published(steps[..i]) && ComparesLast(run[i], steps[..i])
    ensures LastCompared(steps[..i]).None? ==> Changes(steps[..i]) == 0
    decreases i
  {
    if i > 0 {
      CurrentIsPublished(run, steps, i - 1);
      var step := steps[i - 1];
      assert StepAt(run, steps, i - 1);
      StepPublishes(run[i - 1], steps[..i - 1], step, run[i]);
      assert steps[..i] == steps[..i - 1] + [step];
    }
  }

  // ---------------------------------------------------------------- nothing else is sent

  ghost predicate WasCurrent(run: seq<State>, i: nat, x: Snapshot)
    requires i < |run|
  {
    exists k :: 0 <= k <= i && run[k].current == Some(x)
  }

  ghost predicate AllWereCurrent(run: seq<State>, i: nat, sub: Subscriber)
    requires i < |run|
  {
    && (sub.slot.Some? ==> WasCurrent(run, i, sub.slot.value))
    && (forall k :: 0 <= k < |sub.sent| ==> WasCurrent(run, i, sub.sent[k]))
    && (sub.stream.First? && sub.stream.initial.Some? ==> WasCurrent(run, i, sub.stream.initial.value))
    && (sub.stream.Sending? ==> WasCurrent(run, i, sub.stream.snapshot))
  }

  lemma WasCurrentLater(run: seq<State>, i: nat, sub: Subscriber)
    requires 0 < i < |run| && AllWereCurrent(run, i - 1, sub)
    ensures AllWereCurrent(run, i, sub)
  {
  }

  /** Every snapshot that a stream sends was the current one at some time. */
  lemma {:induction false} OnlyCurrentIsSent(run: seq<State>, steps: seq<Step>, i: nat, id: int)
    requires IsRun(run, steps) && i < |run| && id in run[i].subscribers
    ensures AllWereCurrent(run, i, run[i].subscribers[id])
    decreases i
  {
    if i > 0 {
      var s, step, s' := run[i - 1], steps[i - 1], run[i];
      assert StepAt(run, steps, i - 1);
      if s.current.Some? {
        assert WasCurrent(run, i, s.current.value);
      }
      if id in s.subscribers {
        OnlyCurrentIsSent(run, steps, i - 1, id);
        WasCurrentLater(run, i, s.subscribers[id]);
      }
    }
  }

  // --------------------------------------------------------------------- fair to everyone

  /** The subscriber that a step is about. */
  ghost predicate Concerns(s: State, step: Step, id: int) {
    match step
    case TrySend(x) => x == id
    case Drain => s.refresher.Replacing? && s.refresher.id == id
    case Send => s.refresher.Drained? && s.refresher.id == id
    case SendFirst(x) => x == id
    case Receive(x) => x == id
    case SendNext(x) => x == id
    case Leave(x) => x == id
    case Unsubscribe(x) => x == id
    case _ => false
  }

  /** A step changes no subscriber but its own, and none goes but by its own leave. */
  lemma StepTouchesOne(s: State, step: Step, s': State, id: int)
    requires Next(s, step, s') && id in s.subscribers && id < s.next
    ensures id !in s'.subscribers <==> step == Unsubscribe(id)
    ensures id !in s'.subscribers ==> s.subscribers[id].stream.Leaving?
    ensures id in s'.subscribers && !Concerns(s, step, id) ==> s'.subscribers[id] == s.subscribers[id]
    ensures id in s'.subscribers && (step.TrySend? || step.Drain? || step.Send?) ==>
      s'.subscribers[id] == s.subscribers[id].(slot := s'.subscribers[id].slot)
  {
  }

  /** The stream is about to send this snapshot first, has sent it first, or leaves. */
  ghost predicate Serves(sub: Subscriber, first: Option<Snapshot>) {
    || (sub.stream == First(first) && sub.sent == []) || sub.stream.Leaving?
    || (sub.sent != [] && !sub.stream.First? && first == Some(sub.sent[0]))
  }

  lemma StepKeepsServing(s: State, step: Step, s': State, id: int, first: Option<Snapshot>)
    requires Next(s, step, s') && id < s.next && id in s.subscribers && id in s'.subscribers
    requires Serves(s.subscribers[id], first)
    ensures Serves(s'.subscribers[id], first)
    ensures step == SendFirst(id) ==>
      if first.Some? then s'.subscribers[id].stream.Waiting? && s'.subscribers[id].sent == [first.value]
      else s'.subscribers[id].stream.Leaving?
  {
    StepTouchesOne(s, step, s', id);
  }

  /** Every stream begins with the snapshot that was current when it subscribed. */
  lemma {:induction false} BeginsWithTheCurrent(run: seq<State>, steps: seq<Step>, k: nat, i: nat)
    requires IsRun(run, steps) && k < i < |run| && steps[k] == Subscribe && run[k].next in run[i].subscribers
    ensures Serves(run[i].subscribers[run[k].next], run[k].current)
    decreases i
  {
    var s, step, s' := run[i - 1], steps[i - 1], run[i];
    assert StepAt(run, steps, i - 1);
    var id := run[k].next;
    RunKeepsInv(run, steps, i - 1);
    RunKeepsInv(run, steps, k);
    if k < i - 1 {
      NumbersRise(run, steps, k, i - 1);
      NotNew(s, step, s', id);
      assert SubscriberOk(s, id);
      BeginsWithTheCurrent(run, steps, k, i - 1);
      StepKeepsServing(s, step, s', id, run[k].current);
    }
  }

  lemma NotNew(s: State, step: Step, s': State, id: int)
    requires Next(s, step, s') && id < s.next && id in s'.subscribers
    ensures id in s.subscribers
  {
  }

  lemma {:induction false} NumbersRise(run: seq<State>, steps: seq<Step>, k: nat, i: nat)
    requires IsRun(run, steps) && k < i < |run| && steps[k] == Subscribe
    ensures run[k].next < run[i].next
    decreases i
  {
    var step := steps[i - 1];
    assert StepAt(run, steps, i - 1);
    NextNumber(run[i - 1], step, run[i]);
    if k < i - 1 {
      NumbersRise(run, steps, k, i - 1);
    }
  }

  lemma NextNumber(s: State, step: Step, s': State)
    requires Next(s, step, s')
    ensures s'.next == s.next + if step.Subscribe? then 1 else 0
  {
  }

  /** What is in a channel leaves it only when it is received or drained. */
  lemma ChannelsKeep(s: State, step: Step, s': State, id: int)
    requires Next(s, step, s') && id in s.subscribers && id in s'.subscribers && id < s.next
    requires s.subscribers[id].slot.Some? && s'.subscribers[id].slot != s.subscribers[id].slot
    ensures s'.subscribers[id].slot.None?
    ensures step == Receive(id) || (step == Drain && s.refresher == Replacing(id, s.refresher.todo))
  {
  }

  // ---------------------------------------------------------------- every broadcast ends

  /** What is left of a broadcast. */
  ghost function BroadcastLeft(r: Refresher): int {
    match r
    case Broadcasting(todo) => 3 * |todo| + 1
    case Replacing(_, todo) => 3 * |todo|
    case Drained(_, todo) => 3 * |todo| - 1
    case _ => 0
  }

  lemma OneLess<T>(s: set<T>, x: T)
    requires x in s
    ensures |s - {x}| == |s| - 1
  {
  }

  /** Every step of a broadcast leaves less of it, whatever the subscribers do. */
  lemma BroadcastGetsDone(s: State, step: Step, s': State)
    requires Inv(s) && HoldsLock(s.refresher) && Next(s, step, s')
    ensures s'.refresher == s.refresher || BroadcastLeft(s'.refresher) < BroadcastLeft(s.refresher)
    ensures RefresherStep(s, step, s') ==> s'.refresher != s.refresher
  {
    if RefresherStep(s, step, s') {
      match step {
        case TrySend(id) => OneLess(s.refresher.todo, id);
        case Send => OneLess(s.refresher.todo, s.refresher.id);
        case _ =>
      }
    }
  }

  ghost predicate CanDo(s: State, step: Step) {
    exists s' :: RefresherStep(s, step, s')
  }

  /** And there always is a next step: to any subscriber that is left, or the unlock. */
  lemma BroadcastGoesOn(s: State)
    requires Inv(s) && HoldsLock(s.refresher)
    ensures match s.refresher
      case Broadcasting(todo) => (todo == {} ==> CanDo(s, Unlock)) && forall id :: id in todo ==> CanDo(s, TrySend(id))
      case Replacing(_, _) => CanDo(s, Drain)
      case Drained(_, _) => CanDo(s, Send)
      case _ => false
  {
    match s.refresher {
      case Broadcasting(todo) =>
        if todo == {} {
          assert RefresherStep(s, Unlock, s.(refresher := Resting));
        }
        forall id | id in todo
          ensures CanDo(s, TrySend(id))
        {
          var sent := s.(subscribers := WithSlot(s, id, s.current), refresher := Broadcasting(todo - {id}));
          var full := s.(refresher := Replacing(id, todo));
          assert RefresherStep(s, TrySend(id), sent) || RefresherStep(s, TrySend(id), full);
        }
      case Replacing(id, todo) =>
        assert RefresherStep(s, Drain, s.(subscribers := WithSlot(s, id, None), refresher := Drained(id, todo)));
      case Drained(id, todo) =>
        assert RefresherStep(s, Send, s.(subscribers := WithSlot(s, id, s.current),
          refresher := Broadcasting(todo - {id})));
    }
  }

  ghost predicate CanStep(s: State, step: Step) {
    exists s' :: Next(s, step, s')
  }

  /** While no broadcast is under way the refresher can go on, with whatever it collects, and
      anybody can subscribe; a stream can send what it has, receive what is in its channel, and
      leave at any time. */
  lemma NobodyIsBlocked(s: State, entries: seq<Entry>, id: int)
    ensures s.refresher.Resting? ==> CanStep(s, ReadGeneration)
    ensures s.refresher.Collecting? ==> CanStep(s, Collect(entries)) && CanStep(s, CollectFails)
    ensures s.refresher.Comparing? ==> CanStep(s, Compare)
    ensures !HoldsLock(s.refresher) ==> CanStep(s, Subscribe)
    ensures id in s.subscribers ==> CanStep(s, Leave(id))
    ensures id in s.subscribers && s.subscribers[id].stream.First? ==> CanStep(s, SendFirst(id))
    ensures id in s.subscribers && s.subscribers[id].stream.Waiting? && s.subscribers[id].slot.Some? ==>
      CanStep(s, Receive(id))
    ensures id in s.subscribers && s.subscribers[id].stream.Sending? ==> CanStep(s, SendNext(id))
    ensures id in s.subscribers && s.subscribers[id].stream.Leaving? && !HoldsLock(s.refresher) ==>
      CanStep(s, Unsubscribe(id))
  {
    RefresherIsFree(s, entries);
    if !HoldsLock(s.refresher) {
      var sub := Subscriber(None, First(s.current), 0, [], Generation(s.current));
      assert Next(s, Subscribe, s.(subscribers := s.subscribers[s.next := sub], next := s.next + 1));
    }
    if id in s.subscribers {
      StreamIsFree(s, id);
    }
  }

  lemma RefresherIsFree(s: State, entries: seq<Entry>)
    ensures s.refresher.Resting? ==> CanStep(s, ReadGeneration)
    ensures s.refresher.Collecting? ==> CanStep(s, Collect(entries)) && CanStep(s, CollectFails)
    ensures s.refresher.Comparing? ==> CanStep(s, Compare)
  {
    match s.refresher {
      case Resting => assert Next(s, ReadGeneration, s.(refresher := Collecting(Generation(s.current) + 1)));
      case Collecting(generation) =>
        var found := Subscription.Snapshot(generation, entries);
        assert Next(s, Collect(entries), s.(refresher := Comparing(found)));
        assert Next(s, CollectFails, s.(refresher := Resting));
      case Comparing(collected) =>
        var changed := s.(current := Some(collected), refresher := Broadcasting(s.subscribers.Keys));
        assert Next(s, Compare, s.(refresher := Resting)) || Next(s, Compare, changed);
      case _ =>
    }
  }

  lemma StreamIsFree(s: State, id: int)
    requires id in s.subscribers
    ensures CanStep(s, Leave(id))
    ensures s.subscribers[id].stream.First? ==> CanStep(s, SendFirst(id))
    ensures s.subscribers[id].stream.Waiting? && s.subscribers[id].slot.Some? ==> CanStep(s, Receive(id))
    ensures s.subscribers[id].stream.Sending? ==> CanStep(s, SendNext(id))
    ensures s.subscribers[id].stream.Leaving? && !HoldsLock(s.refresher) ==> CanStep(s, Unsubscribe(id))
  {
    var sub := s.subscribers[id];
    assert Next(s, Leave(id), WithStream(s, id, Leaving));
    match sub.stream {
      case First(None) => assert Next(s, SendFirst(id), WithStream(s, id, Leaving));
      case First(Some(x)) => assert Next(s, SendFirst(id), s.(subscribers := s.subscribers[id := AfterSend(sub, x)]));
      case Waiting =>
        if sub.slot.Some? {
          assert Next(s, Receive(id), s.(subscribers := s.subscribers[id := AfterReceive(sub)]));
        }
      case Sending(x) => assert Next(s, SendNext(id), s.(subscribers := s.subscribers[id := AfterSend(sub, x)]));
      case Leaving =>
        if !HoldsLock(s.refresher) {
          assert Next(s, Unsubscribe(id), s.(subscribers := s.subscribers - {id}));
        }
    }
  }

  /** A stream sends every snapshot that it takes from its channel, one at a time. */
  lemma WhatIsReceivedIsSent(s: State, step: Step, s': State, id: int)
    requires Inv(s) && Next(s, step, s') && id in s.subscribers && id in s'.subscribers
    ensures step == Receive(id) ==>
      s.subscribers[id].slot.Some?
        && s'.subscribers[id].slot.None? && s'.subscribers[id].stream == Sending(s.subscribers[id].slot.value)
    ensures step == SendNext(id) ==>
      s.subscribers[id].stream.Sending?
        && s'.subscribers[id].stream.Waiting? && s'.subscribers[id].slot == s.subscribers[id].slot
        && s'.subscribers[id].sent == s.subscribers[id].sent + [s.subscribers[id].stream.snapshot]
    ensures step == Receive(id) ==> s'.subscribers[id].sent == s.subscribers[id].sent
  {
    assert SubscriberOk(s, id);
  }
}
