/** The critical sections of the dispatcher as the code runs them
    (engine/dispatcher.go:87-164), on actor objects and the map that registers
    them. Each is proved to be the step of the same name. */
module Mailboxes {
  import opened Dispatcher

  /** The state once an instance has an actor. */
  ghost function Spawned<S>(s: State<S>, id: string): (n: State<S>)
    ensures id in n.registry
  {
    if id in s.registry then s
    else s.(actors := s.actors + [Actor(id, [], 0, Idle)], registry := s.registry[id := |s.actors|])
  }

  lemma EnqueueSpawned<S(!new)>(s: State<S>, id: string, event: string, cancellable: bool)
    requires RegistryInRange(s)
    ensures
      var m := Spawned(s, id);
      var a := m.registry[id];
      && a < |m.actors|
      && Enqueue(s, id, event, cancellable)
         == m.(actors := m.actors[a := m.actors[a].(pending := m.actors[a].pending + 1)],
               tickets := m.tickets + [Ticket(id, event, cancellable, a, Sending)], inflight := m.inflight + 1)
  {
    if id in s.registry { assert s.registry[id := s.registry[id]] == s.registry; }
  }

  class InstanceActor {
    const id: string
    var mailbox: seq<Command>
    var pending: int

    constructor (id: string)
      ensures this.id == id && mailbox == [] && pending == 0
    {
      this.id := id;
      mailbox := [];
      pending := 0;
    }
  }

  class Registry<S(!new)> {
    var actors: map<string, InstanceActor>
    var inflight: int
    ghost var spawned: seq<InstanceActor>

    /** The objects are those of the state, in the order they were spawned. */
    ghost predicate Represents(s: State<S>)
      reads this, spawned
    {
      && |spawned| == |s.actors| && inflight == s.inflight
      && (forall i, j :: 0 <= i < j < |spawned| ==> spawned[i] != spawned[j])
      && (forall a :: 0 <= a < |spawned| ==>
            && spawned[a].id == s.actors[a].id && spawned[a].mailbox == s.actors[a].mailbox
            && spawned[a].pending == s.actors[a].pending)
      && actors.Keys == s.registry.Keys
      && (forall id :: id in s.registry ==> s.registry[id] < |spawned| && actors[id] == spawned[s.registry[id]])
    }

    lemma InRange(s: State<S>)
      requires Represents(s)
      ensures RegistryInRange(s)
    {}

    /** Finds the actor of an instance, spawning it if there is none. */
    method Find(id: string, ghost s: State<S>) returns (a: InstanceActor)
      requires Represents(s)
      modifies this`actors, this`spawned
      ensures Represents(Spawned(s, id)) && a == spawned[Spawned(s, id).registry[id]]
      ensures (a in old(spawned) || fresh(a)) && id in actors && actors[id] == a
    {
      if id in actors {
        a := actors[id];
      } else {
        a := new InstanceActor(id);
        actors := actors[id := a];
        spawned := spawned + [a];
      }
    }

    /** Counts a sender, with the actor and in the wait group. */
    method Count(a: InstanceActor, ghost k: nat, ghost m: State<S>, ghost tickets: seq<Ticket>)
      requires Represents(m) && k < |m.actors| && a == spawned[k]
      modifies a`pending, this`inflight
      ensures Represents(m.(actors := m.actors[k := m.actors[k].(pending := m.actors[k].pending + 1)],
                            tickets := tickets, inflight := m.inflight + 1))
    {
      a.pending := a.pending + 1;
      inflight := inflight + 1;
    }

    /** The part of enqueue under the lock. */
    method Reserve(id: string, ghost s: State<S>, ghost event: string, ghost cancellable: bool) returns (a: InstanceActor)
      requires Represents(s)
      modifies this, spawned
      ensures RegistryInRange(s) && Represents(Enqueue(s, id, event, cancellable))
      ensures id in actors && actors[id] == a
    {
      hide Represents, Enqueue, Spawned, RegistryInRange;
      InRange(s);
      ghost var m := Spawned(s, id);
      a := Find(id, s);
      EnqueueSpawned(s, id, event, cancellable);
      ghost var k := m.registry[id];
      Count(a, k, m, m.tickets + [Ticket(id, event, cancellable, k, Sending)]);
    }

    /** The send that follows, once the mailbox has room. */
    method Place(a: InstanceActor, t: nat, event: string, ghost p: Params<S>, ghost s: State<S>)
      requires Represents(s) && Possible(p, s, Send(t))
      requires a == spawned[s.tickets[t].owner] && event == s.tickets[t].event
      modifies a`mailbox
      ensures RegistryInRange(s) && Represents(Next(p, s, Send(t)))
    {
      a.mailbox := a.mailbox + [Command(t, event)];
    }

    /** The cancelled sender takes its reservation back, first the actor's count and
        then, outside the lock, the wait group's. */
    method Retract(a: InstanceActor, ghost t: nat, ghost p: Params<S>, ghost s: State<S>)
      requires Represents(s) && Possible(p, s, GiveUp(t)) && a == spawned[s.tickets[t].owner]
      modifies a`pending
      ensures RegistryInRange(s) && Represents(Next(p, s, GiveUp(t)))
    {
      a.pending := a.pending - 1;
    }

    method Cancelled(ghost t: nat, ghost p: Params<S>, ghost s: State<S>)
      requires Represents(s) && Possible(p, s, ReportCancelled(t))
      modifies this`inflight
      ensures RegistryInRange(s) && Represents(Next(p, s, ReportCancelled(t)))
    {
      inflight := inflight - 1;
    }

    method Receive(a: InstanceActor, ghost n: nat, ghost p: Params<S>, ghost s: State<S>) returns (cmd: Command)
      requires Represents(s) && Possible(p, s, Label.Receive(n)) && a == spawned[n]
      modifies a`mailbox
      ensures RegistryInRange(s) && Represents(Next(p, s, Label.Receive(n)))
      ensures [cmd] + a.mailbox == old(a.mailbox) && Next(p, s, Label.Receive(n)).actors[n].pc == Received(cmd)
    {
      cmd := a.mailbox[0];
      a.mailbox := a.mailbox[1..];
    }

    /** After processing: the actor's count under the lock, the wait group's after it. */
    method Settle(a: InstanceActor, ghost n: nat, ghost p: Params<S>, ghost s: State<S>)
      requires Represents(s) && Possible(p, s, Release(n)) && a == spawned[n]
      modifies a`pending
      ensures RegistryInRange(s) && Represents(Next(p, s, Release(n)))
    {
      a.pending := a.pending - 1;
    }

    method Done(ghost n: nat, ghost p: Params<S>, ghost s: State<S>)
      requires Represents(s) && Possible(p, s, Finish(n))
      modifies this`inflight
      ensures RegistryInRange(s) && Represents(Next(p, s, Finish(n)))
    {
      inflight := inflight - 1;
    }

    /** The idle timer: the actor unregisters itself exactly when nothing is pending,
        and otherwise keeps serving. */
    method IdleTimeout(a: InstanceActor, ghost n: nat, ghost p: Params<S>, ghost s: State<S>) returns (evicted: bool)
      requires Represents(s) && n < |s.actors| && s.actors[n].pc.Idle? && a == spawned[n]
      modifies this`actors
      ensures evicted <==> Possible(p, s, Evict(n))
      ensures RegistryInRange(s) && Represents(if evicted then Next(p, s, Evict(n)) else s)
    {
      evicted := a.pending == 0;
      if evicted {
        actors := actors - {a.id};
      }
    }
  }
}
