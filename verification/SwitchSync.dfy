/** The switch agent and the controller together: when the stored neighbours are those of the
    agent's current snapshot. */
module SwitchSync {
  import opened Wrappers
  import opened Subscription
  import SwitchAgent

  /** The events of a connection: what the stream sent, up to where the connection was cut. */
  ghost predicate Carries(events: seq<Event>, sent: seq<Snapshot>) {
    |events| <= |sent| && forall i :: 0 <= i < |events| ==> events[i].snapshot == sent[i]
  }

  /** The last accepted snapshot is this one. */
  ghost predicate Holds(accepted: seq<Event>, current: Option<Snapshot>) {
    accepted != [] && current == Some(accepted[|accepted| - 1].snapshot)
  }

  /** All accepted snapshots come from the agent that now has this current snapshot. */
  ghost predicate OfThisAgent(accepted: seq<Event>, current: Option<Snapshot>) {
    forall i :: 0 <= i < |accepted| ==> SwitchAgent.Agrees(current, accepted[i].snapshot)
  }

  /** The stored neighbours are the normalization of these entries. */
  ghost predicate MirrorsEntries(ignored: Ports, neighbors: seq<Neighbor>, entries: seq<Entry>) {
    exists nodes {:trigger ReadingFor(ignored, nodes)} :: Normalizes(ReadingFor(ignored, nodes), entries, neighbors)
  }

  ghost predicate Mirrors(ignored: Ports, neighbors: seq<Neighbor>, current: Option<Snapshot>) {
    current.Some? && MirrorsEntries(ignored, neighbors, current.value.entries)
  }

  /** The stored neighbours are those of the entries that the agent last collected and compared;
      while its refresher rests, of the entries that it last collected. */
  ghost predicate MirrorsCollected(ignored: Ports, neighbors: seq<Neighbor>, steps: seq<SwitchAgent.Step>,
                                   refresher: SwitchAgent.Refresher) {
    var compared, collected := SwitchAgent.LastCompared(steps), SwitchAgent.LastCollected(steps);
    && compared.Some? && MirrorsEntries(ignored, neighbors, compared.value)
    && (refresher.Resting? ==> collected.Some? && MirrorsEntries(ignored, neighbors, collected.value))
  }

  ghost predicate Observed(run: seq<SwitchAgent.State>, steps: seq<SwitchAgent.Step>, i: nat, id: int,
                           events: seq<Event>) {
    SwitchAgent.IsRun(run, steps) && i < |run| && id in run[i].subscribers
      && Carries(events, run[i].subscribers[id].sent)
  }

  /** All that the agent sent has arrived, and no more is under way. */
  ghost predicate Arrived(run: seq<SwitchAgent.State>, steps: seq<SwitchAgent.Step>, i: nat, id: int,
                          events: seq<Event>) {
    && Observed(run, steps, i, id, events) && SwitchAgent.Delivered(run[i], id)
    && |events| == |run[i].subscribers[id].sent|
  }

  lemma EventsAgree(run: seq<SwitchAgent.State>, steps: seq<SwitchAgent.Step>, i: nat, id: int, events: seq<Event>)
    requires Observed(run, steps, i, id, events)
    ensures OfThisAgent(events, run[i].current)
  {
    SwitchAgent.RunKeepsFaithful(run, steps, i);
    var sub := run[i].subscribers[id];
    assert SwitchAgent.SubscriberAgrees(run[i].current, sub);
    forall k | 0 <= k < |events|
      ensures SwitchAgent.Agrees(run[i].current, events[k].snapshot)
    {
      assert events[k].snapshot == sub.sent[k];
    }
  }

  lemma LastIsCurrent(run: seq<SwitchAgent.State>, steps: seq<SwitchAgent.Step>, i: nat, id: int, events: seq<Event>)
    requires Arrived(run, steps, i, id, events)
    ensures Holds(events, run[i].current) && SwitchAgent.Generation(run[i].current) > 0
  {
    SwitchAgent.DeliveredIsCurrent(run, steps, i, id);
    SwitchAgent.RunKeepsInv(run, steps, i);
  }

  lemma AcceptedAgree(before: seq<Event>, accepted: seq<Event>, events: seq<Event>, current: Option<Snapshot>)
    requires before <= accepted && OfThisAgent(before, current) && OfThisAgent(events, current)
    requires forall i :: |before| <= i < |accepted| ==> accepted[i] in events
    ensures OfThisAgent(accepted, current)
  {
  }

  lemma OfThisAgentLater(run: seq<SwitchAgent.State>, steps: seq<SwitchAgent.Step>, i: nat, j: nat,
                         accepted: seq<Event>)
    requires SwitchAgent.IsRun(run, steps) && i <= j < |run| && OfThisAgent(accepted, run[i].current)
    ensures OfThisAgent(accepted, run[j].current)
  {
    forall k | 0 <= k < |accepted|
      ensures SwitchAgent.Agrees(run[j].current, accepted[k].snapshot)
    {
      SwitchAgent.AgreesLater(run, steps, i, j, accepted[k].snapshot);
    }
  }

  /** The controller follows a stream that has delivered. The last accepted snapshot is then the
      agent's current one if and only if it already was or its generation was not reached before.
      Where an earlier agent had reached it, nothing is stored. */
  method Follow(sub: SwitchSubscription, events: seq<Event>, ghost run: seq<SwitchAgent.State>,
                ghost steps: seq<SwitchAgent.Step>, ghost i: nat, ghost id: int)
    returns (failed: bool)
    requires sub.Valid() && Arrived(run, steps, i, id, events)
    modifies sub
    ensures sub.Valid() && old(sub.accepted) <= sub.accepted
    ensures failed <==> Fails(sub.ignored, old(sub.lastGeneration), events)
    ensures var current := run[i].current;
      !failed ==> (Holds(sub.accepted, current) <==>
        old(sub.lastGeneration) < SwitchAgent.Generation(current) || Holds(old(sub.accepted), current))
    ensures !failed && Holds(sub.accepted, run[i].current) ==> Mirrors(sub.ignored, sub.neighbors, run[i].current)
    ensures !failed && old(sub.lastGeneration) >= SwitchAgent.Generation(run[i].current) ==>
      sub.accepted == old(sub.accepted) && sub.neighbors == old(sub.neighbors)
    ensures OfThisAgent(old(sub.accepted), run[i].current) ==> !failed ==> Holds(sub.accepted, run[i].current)
  {
    ghost var current := run[i].current;
    EventsAgree(run, steps, i, id, events);
    LastIsCurrent(run, steps, i, id, events);
    failed := sub.ReceiveUntilError(events);
    if !failed {
      if sub.accepted == old(sub.accepted) {
        assert events[|events| - 1].snapshot.generation <= sub.lastGeneration;
      } else {
        assert sub.accepted[|sub.accepted| - 1] in events;
      }
      if Holds(sub.accepted, current) {
        var last := sub.accepted[|sub.accepted| - 1];
        assert Normalizes(ReadingFor(sub.ignored, last.nodes), last.snapshot.entries, sub.neighbors);
      }
    }
  }

  /** When and with which subscriber number each connection was observed. */
  datatype Sighting = Sighting(at: nat, id: int)

  /** Connections to one agent that keeps running, each cut anywhere. */
  ghost predicate OneAgent(run: seq<SwitchAgent.State>, steps: seq<SwitchAgent.Step>, connections: seq<seq<Event>>,
                           sightings: seq<Sighting>) {
    && |sightings| == |connections|
    && (forall c :: 0 <= c < |connections| ==>
          Observed(run, steps, sightings[c].at, sightings[c].id, connections[c]))
    && forall c, d :: 0 <= c < d < |connections| ==> sightings[c].at <= sightings[d].at
  }

  /** A new subscription to an agent that keeps running: after any connections, once the last
      stream has delivered, the stored neighbours are those of the agent's current snapshot,
      unless handling an event of that stream failed. */
  method FollowAll(ignored: Ports, stored: seq<Neighbor>, connections: seq<seq<Event>>, events: seq<Event>,
                   ghost run: seq<SwitchAgent.State>, ghost steps: seq<SwitchAgent.Step>,
                   ghost sightings: seq<Sighting>, ghost last: Sighting)
    returns (sub: SwitchSubscription, failed: bool)
    requires OneAgent(run, steps, connections, sightings) && Arrived(run, steps, last.at, last.id, events)
    requires forall c :: 0 <= c < |connections| ==> sightings[c].at <= last.at
    ensures fresh(sub) && sub.Valid() && sub.ignored == ignored
    ensures failed ==> Fails(ignored, 0, events)
    ensures !failed ==>
      Holds(sub.accepted, run[last.at].current) && Mirrors(ignored, sub.neighbors, run[last.at].current)
    ensures !failed ==> MirrorsCollected(ignored, sub.neighbors, steps[..last.at], run[last.at].refresher)
  {
    sub := new SwitchSubscription(ignored, stored);
    ghost var at: nat := 0;
    for c := 0 to |connections|
      invariant fresh(sub) && sub.Valid() && sub.ignored == ignored && sub.lastGeneration >= 0
      invariant at < |run| && at <= last.at
      invariant OfThisAgent(sub.accepted, run[at].current)
      invariant forall d :: c <= d < |connections| ==> at <= sightings[d].at
    {
      ghost var before, s := sub.accepted, sightings[c];
      var cut := sub.ReceiveUntilError(connections[c]);
      EventsAgree(run, steps, s.at, s.id, connections[c]);
      OfThisAgentLater(run, steps, at, s.at, before);
      AcceptedAgree(before, sub.accepted, connections[c], run[s.at].current);
      at := s.at;
    }
    OfThisAgentLater(run, steps, at, last.at, sub.accepted);
    ghost var reached := sub.lastGeneration;
    failed := Follow(sub, events, run, steps, last.at, last.id);
    SwitchAgent.CurrentIsPublished(run, steps, last.at);
    if failed {
      FailsEarlier(ignored, 0, reached, events);
    }
  }

  // ---------------------------------------------------------------------- a restarted agent

  /** An agent that starts, collects these entries and serves its first subscriber. */
  ghost function FirstStates(entries: seq<Entry>): seq<SwitchAgent.State> {
    var first := Snapshot(1, entries);
    var sub := SwitchAgent.Subscriber(None, SwitchAgent.First(Some(first)), 0, [], 1);
    var sent := SwitchAgent.AfterSend(sub, first);
    [SwitchAgent.State(None, map[], 0, SwitchAgent.Resting),
     SwitchAgent.State(None, map[], 0, SwitchAgent.Collecting(1)),
     SwitchAgent.State(None, map[], 0, SwitchAgent.Comparing(first)),
     SwitchAgent.State(Some(first), map[], 0, SwitchAgent.Broadcasting({})),
     SwitchAgent.State(Some(first), map[], 0, SwitchAgent.Resting),
     SwitchAgent.State(Some(first), map[0 := sub], 1, SwitchAgent.Resting),
     SwitchAgent.State(Some(first), map[0 := sent], 1, SwitchAgent.Resting)]
  }

  ghost function FirstSteps(entries: seq<Entry>): seq<SwitchAgent.Step> {
    [SwitchAgent.ReadGeneration, SwitchAgent.Collect(entries), SwitchAgent.Compare, SwitchAgent.Unlock,
     SwitchAgent.Subscribe, SwitchAgent.SendFirst(0)]
  }

  lemma AgentStarts(e: Event)
    requires e.snapshot.generation == 1
    ensures var entries := e.snapshot.entries;
      && Arrived(FirstStates(entries), FirstSteps(entries), 6, 0, [e])
      && FirstStates(entries)[6].current == Some(e.snapshot)
  {
    var run, steps := FirstStates(e.snapshot.entries), FirstSteps(e.snapshot.entries);
    assert SwitchAgent.Next(run[0], steps[0], run[1]) && SwitchAgent.Next(run[1], steps[1], run[2]);
    assert run[2].subscribers.Keys == {};
    assert SwitchAgent.Next(run[2], steps[2], run[3]) && SwitchAgent.Next(run[3], steps[3], run[4]);
    assert SwitchAgent.Next(run[4], steps[4], run[5]) && SwitchAgent.Next(run[5], steps[5], run[6]);
    assert run[6].subscribers[0].sent == [e.snapshot];
  }

  /** Whatever a restarted agent reports first, a subscription that has accepted a snapshot of
      its predecessor keeps those neighbours. */
  method RestartIsIgnored(sub: SwitchSubscription, e: Event) returns (failed: bool)
    requires sub.Valid() && sub.lastGeneration >= 1 && e.snapshot.generation == 1
    modifies sub
    ensures sub.Valid() && !failed && sub.neighbors == old(sub.neighbors) && sub.accepted == old(sub.accepted)
    ensures Arrived(FirstStates(e.snapshot.entries), FirstSteps(e.snapshot.entries), 6, 0, [e])
  {
    AgentStarts(e);
    failed := sub.ReceiveUntilError([e]);
  }
}
