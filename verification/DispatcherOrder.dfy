/** Order and exactly-once processing in the dispatcher: what is placed in the
    mailboxes of an instance, whichever actors come and go, is processed in that
    order, each command once, one at a time; so the actor system refines one
    sequential machine per instance. */
module DispatcherOrder {
  import opened Sums
  import opened Dispatcher

  // ---- Evicted actors and tickets -----------------------------------------

  /** An actor that has evicted itself has nothing pending; a command belongs to an
      actor of its instance. */
  ghost predicate TicketsFit<S>(s: State<S>) {
    && (forall a :: 0 <= a < |s.actors| && !s.actors[a].Serves() ==> s.actors[a].pending == 0)
    && (forall t :: 0 <= t < |s.tickets| ==>
          s.tickets[t].owner < |s.actors| && s.actors[s.tickets[t].owner].id == s.tickets[t].id)
  }

  ghost predicate Base<S>(s: State<S>) {
    OneActor(s) && PendingExact(s) && TicketsFit(s)
  }

  /** A command on its way is on its way to the actor in the registry. */
  lemma SendingIsServed<S(!new)>(s: State<S>, t: nat)
    requires Base(s) && t < |s.tickets| && s.tickets[t].stage == Sending
    ensures
      var k := s.tickets[t];
      s.actors[k.owner].Serves() && k.id in s.registry && s.registry[k.id] == k.owner
  {
    ZeroPendingIsEmpty(s, s.tickets[t].owner);
  }

  lemma EnqueueTicketsFit<S(!new)>(s: State<S>, id: string, event: string, cancellable: bool)
    requires OneActor(s) && TicketsFit(s)
    ensures TicketsFit(Enqueue(s, id, event, cancellable))
  {}

  lemma GiveUpTicketsFit<S(!new)>(p: Params<S>, s: State<S>, t: nat)
    requires Base(s) && Possible(p, s, GiveUp(t))
    ensures TicketsFit(Next(p, s, GiveUp(t)))
  {
    SendingIsServed(s, t);
  }

  lemma SenderTicketsFit<S(!new)>(p: Params<S>, s: State<S>, l: Label<S>)
    requires RegistryInRange(s) && TicketsFit(s) && Possible(p, s, l) && BySender(l) && !l.GiveUp?
    ensures TicketsFit(Next(p, s, l))
  {}

  lemma WorkTicketsFit<S(!new)>(p: Params<S>, s: State<S>, l: Label<S>)
    requires RegistryInRange(s) && TicketsFit(s) && Possible(p, s, l) && AtWork(l)
    ensures TicketsFit(Next(p, s, l))
  {}

  lemma AfterWorkTicketsFit<S(!new)>(p: Params<S>, s: State<S>, l: Label<S>)
    requires RegistryInRange(s) && TicketsFit(s) && Possible(p, s, l) && AfterWork(l)
    ensures TicketsFit(Next(p, s, l))
  {}

  lemma UntouchedTicketsFit<S(!new)>(p: Params<S>, s: State<S>, l: Label<S>)
    requires RegistryInRange(s) && TicketsFit(s) && Possible(p, s, l) && (ByAttempt(l) || ByPool(l) || ByShutdown(l))
    ensures TicketsFit(Next(p, s, l))
  {
    hide Next, Possible;
    ActorsUntouched(p, s, l);
  }

  lemma BaseStep<S(!new)>(p: Params<S>, s: State<S>, l: Label<S>)
    requires Base(s) && Possible(p, s, l)
    ensures Base(Next(p, s, l))
  {
    OneActorStep(p, s, l);
    PendingStep(p, s, l);
    if l.Accept? {
      EnqueueTicketsFit(s, l.id, l.event, l.cancellable);
    } else if l.Forward? {
      EnqueueTicketsFit(SetAttempt(s, l.i, Dispatching(|s.tickets|)), s.attempts[l.i].parent, l.event, false);
    } else {
      hide Next, Possible, PendingExact, TicketsFit;
      if l.GiveUp? { GiveUpTicketsFit(p, s, l.t); }
      else if BySender(l) { SenderTicketsFit(p, s, l); }
      else if AtWork(l) { WorkTicketsFit(p, s, l); }
      else if AfterWork(l) { AfterWorkTicketsFit(p, s, l); }
      else { UntouchedTicketsFit(p, s, l); }
    }
  }

  // ---- First in, first out ------------------------------------------------

  /** The commands placed for an instance and not yet written back, in order. */
  function Rest<S>(s: State<S>, id: string): seq<Command> {
    if id in s.registry && s.registry[id] < |s.actors|
    then s.actors[s.registry[id]].InHand() + s.actors[s.registry[id]].mailbox
    else []
  }

  /** What has been placed is what has been served, then what is left. */
  ghost predicate InOrder<S>(s: State<S>) {
    forall id :: Logged(s.placed, id) == Logged(s.served, id) + Rest(s, id)
  }

  /** What a step does to the logs and the rest of one instance. */
  ghost predicate OrderStep<S>(p: Params<S>, s: State<S>, l: Label<S>, n: State<S>, id: string)
    requires Possible(p, s, l)
  {
    if l.Send? && s.tickets[l.t].id == id then
      var c := Command(l.t, s.tickets[l.t].event);
      && Logged(n.placed, id) == Logged(s.placed, id) + [c]
      && Logged(n.served, id) == Logged(s.served, id)
      && Rest(n, id) == Rest(s, id) + [c]
    else if l.Write? && s.actors[l.a].id == id then
      var c := s.actors[l.a].pc.cmd;
      && Logged(n.placed, id) == Logged(s.placed, id)
      && Logged(n.served, id) == Logged(s.served, id) + [c]
      && Rest(s, id) == [c] + Rest(n, id)
    else
      && Logged(n.placed, id) == Logged(s.placed, id)
      && Logged(n.served, id) == Logged(s.served, id)
      && Rest(n, id) == Rest(s, id)
  }

  lemma SendOrder<S(!new)>(p: Params<S>, s: State<S>, t: nat, id: string)
    requires Base(s) && Possible(p, s, Send(t))
    ensures OrderStep(p, s, Send(t), Next(p, s, Send(t)), id)
  {
    SendingIsServed(s, t);
    var n := Next(p, s, Send(t));
    if id == s.tickets[t].id {
      var a := s.actors[s.registry[id]];
      var c := Command(t, s.tickets[t].event);
      assert a.InHand() + (a.mailbox + [c]) == a.InHand() + a.mailbox + [c];
    }
  }

  lemma EvictOrder<S(!new)>(p: Params<S>, s: State<S>, a: nat, id: string)
    requires Base(s) && Possible(p, s, Evict(a))
    ensures OrderStep(p, s, Evict(a), Next(p, s, Evict(a)), id)
  {
    ZeroPendingIsEmpty(s, a);
  }

  /** Receiving, reading, submitting and settling move a command inside its actor. */
  lemma ReceiveOrder<S(!new)>(p: Params<S>, s: State<S>, a: nat, id: string)
    requires OneActor(s) && Possible(p, s, Receive(a))
    ensures OrderStep(p, s, Receive(a), Next(p, s, Receive(a)), id)
  {
    var m := s.actors[a].mailbox;
    assert m == [m[0]] + m[1..];
  }

  lemma WorkOrder<S(!new)>(p: Params<S>, s: State<S>, l: Label<S>, id: string)
    requires OneActor(s) && Possible(p, s, l) && (l.Read? || l.Submit? || l.Cleanup? || l.GiveUp?)
    ensures OrderStep(p, s, l, Next(p, s, l), id)
  {}

  lemma SettleOrder<S(!new)>(p: Params<S>, s: State<S>, l: Label<S>, id: string)
    requires OneActor(s) && Possible(p, s, l) && (l.Release? || l.Finish?)
    ensures OrderStep(p, s, l, Next(p, s, l), id)
  {}

  lemma WriteOrder<S(!new)>(p: Params<S>, s: State<S>, a: nat, after: S, id: string)
    requires OneActor(s) && Possible(p, s, Write(a, after))
    ensures OrderStep(p, s, Write(a, after), Next(p, s, Write(a, after)), id)
  {
    var x := s.actors[a];
    assert x.Serves();
    assert x.InHand() + x.mailbox == [x.pc.cmd] + x.mailbox;
    assert [] + x.mailbox == x.mailbox;
  }

  /** A new actor has nothing to do yet. */
  lemma EnqueueRest<S(!new)>(s: State<S>, id: string, event: string, cancellable: bool, x: string)
    requires OneActor(s)
    ensures Rest(Enqueue(s, id, event, cancellable), x) == Rest(s, x)
  {}

  lemma EnqueueOrder<S(!new)>(p: Params<S>, s: State<S>, l: Label<S>, id: string)
    requires OneActor(s) && Possible(p, s, l) && Enqueues(l)
    ensures OrderStep(p, s, l, Next(p, s, l), id)
  {
    if l.Accept? {
      EnqueueRest(s, l.id, l.event, l.cancellable, id);
    } else {
      EnqueueRest(SetAttempt(s, l.i, Dispatching(|s.tickets|)), s.attempts[l.i].parent, l.event, false, id);
    }
    hide Rest, OneActor;
  }

  lemma RestOrder<S(!new)>(p: Params<S>, s: State<S>, l: Label<S>, id: string)
    requires RegistryInRange(s) && Possible(p, s, l) && (ByAttempt(l) || ByPool(l) || ByShutdown(l))
    ensures OrderStep(p, s, l, Next(p, s, l), id)
  {
    hide Next;
    ActorsUntouched(p, s, l);
    hide Possible;
  }

  lemma CancelOrder<S(!new)>(p: Params<S>, s: State<S>, t: nat, id: string)
    requires RegistryInRange(s) && Possible(p, s, ReportCancelled(t))
    ensures OrderStep(p, s, ReportCancelled(t), Next(p, s, ReportCancelled(t)), id)
  {}

  lemma EveryOrderStep<S(!new)>(p: Params<S>, s: State<S>, l: Label<S>, id: string)
    requires Base(s) && Possible(p, s, l)
    ensures OrderStep(p, s, l, Next(p, s, l), id)
  {
    hide Next, Possible, OrderStep, PendingExact, TicketsFit;
    if l.Send? { SendOrder(p, s, l.t, id); }
    else if l.Evict? { EvictOrder(p, s, l.a, id); }
    else if l.Accept? || l.Forward? { EnqueueOrder(p, s, l, id); }
    else if l.Receive? { ReceiveOrder(p, s, l.a, id); }
    else if l.Write? { WriteOrder(p, s, l.a, l.after, id); }
    else if l.Release? || l.Finish? { SettleOrder(p, s, l, id); }
    else if l.Read? || l.Submit? || l.Cleanup? || l.GiveUp? { WorkOrder(p, s, l, id); }
    else if l.ReportCancelled? { CancelOrder(p, s, l.t, id); }
    else { RestOrder(p, s, l, id); }
  }

  lemma StaysInOrder<S(!new)>(p: Params<S>, s: State<S>, l: Label<S>, n: State<S>, id: string)
    requires Possible(p, s, l) && OrderStep(p, s, l, n, id)
    requires Logged(s.placed, id) == Logged(s.served, id) + Rest(s, id)
    ensures Logged(n.placed, id) == Logged(n.served, id) + Rest(n, id)
  {
    hide Rest, Logged;
  }

  lemma InOrderStep<S(!new)>(p: Params<S>, s: State<S>, l: Label<S>)
    requires Base(s) && InOrder(s) && Possible(p, s, l)
    ensures InOrder(Next(p, s, l))
  {
    hide Next, Possible, Rest, Logged, PendingExact, TicketsFit, OrderStep;
    var n := Next(p, s, l);
    forall id ensures Logged(n.placed, id) == Logged(n.served, id) + Rest(n, id) {
      EveryOrderStep(p, s, l, id);
      StaysInOrder(p, s, l, n, id);
    }
  }

  // ---- Exactly once -------------------------------------------------------

  /** A logged command is a placed ticket of its instance. */
  ghost predicate LogsTicket<S>(s: State<S>, id: string, c: Command) {
    && c.ticket < |s.tickets| && s.tickets[c.ticket].stage == Placed
    && s.tickets[c.ticket].id == id && s.tickets[c.ticket].event == c.event
  }

  /** The log of placed commands holds every placed ticket, once. */
  ghost predicate PlacedOnce<S>(s: State<S>) {
    && (forall id, i :: 0 <= i < |Logged(s.placed, id)| ==> LogsTicket(s, id, Logged(s.placed, id)[i]))
    && (forall id, i, j :: 0 <= i < j < |Logged(s.placed, id)| ==>
          Logged(s.placed, id)[i].ticket != Logged(s.placed, id)[j].ticket)
    && (forall t :: 0 <= t < |s.tickets| && s.tickets[t].stage == Placed ==>
          Command(t, s.tickets[t].event) in Logged(s.placed, s.tickets[t].id))
  }

  /** Placed tickets and their logs are untouched. */
  ghost predicate SamePlaced<S>(s: State<S>, n: State<S>) {
    && n.placed == s.placed && |s.tickets| <= |n.tickets|
    && (forall t :: 0 <= t < |s.tickets| ==>
          n.tickets[t].id == s.tickets[t].id && n.tickets[t].event == s.tickets[t].event
          && (n.tickets[t].stage == Placed <==> s.tickets[t].stage == Placed))
    && (forall t :: |s.tickets| <= t < |n.tickets| ==> n.tickets[t].stage != Placed)
  }

  lemma TicketsPlaced<S(!new)>(p: Params<S>, s: State<S>, l: Label<S>)
    requires RegistryInRange(s) && Possible(p, s, l) && (Enqueues(l) || l.GiveUp? || l.ReportCancelled?)
    ensures SamePlaced(s, Next(p, s, l))
  {}

  lemma WorkPlaced<S(!new)>(p: Params<S>, s: State<S>, l: Label<S>)
    requires RegistryInRange(s) && Possible(p, s, l) && (AtWork(l) || AfterWork(l))
    ensures SamePlaced(s, Next(p, s, l))
  {
    assert Next(p, s, l).tickets == s.tickets && Next(p, s, l).placed == s.placed;
    hide Next;
  }

  lemma NotSendPlaced<S(!new)>(p: Params<S>, s: State<S>, l: Label<S>)
    requires RegistryInRange(s) && Possible(p, s, l) && !l.Send?
    ensures SamePlaced(s, Next(p, s, l))
  {
    hide Next, Possible;
    if AtWork(l) || AfterWork(l) { WorkPlaced(p, s, l); }
    else if ByAttempt(l) || ByPool(l) || ByShutdown(l) { ActorsUntouched(p, s, l); }
    else { TicketsPlaced(p, s, l); }
  }

  lemma SamePlacedOnce<S(!new)>(s: State<S>, n: State<S>)
    requires PlacedOnce(s) && SamePlaced(s, n)
    ensures PlacedOnce(n)
  {
    forall id, i | 0 <= i < |Logged(n.placed, id)| ensures LogsTicket(n, id, Logged(n.placed, id)[i]) {
      assert LogsTicket(s, id, Logged(s.placed, id)[i]);
    }
  }

  lemma SendPlacedOnce<S(!new)>(p: Params<S>, s: State<S>, t: nat)
    requires RegistryInRange(s) && PlacedOnce(s) && Possible(p, s, Send(t))
    ensures PlacedOnce(Next(p, s, Send(t)))
  {
    var n := Next(p, s, Send(t));
    var k := s.tickets[t];
    var old_, new_ := Logged(s.placed, k.id), Logged(n.placed, k.id);
    var c := Command(t, k.event);
    assert new_ == old_ + [c];
    assert forall i :: 0 <= i < |old_| ==> old_[i].ticket != t;
    forall id, i | 0 <= i < |Logged(n.placed, id)|
      ensures LogsTicket(n, id, Logged(n.placed, id)[i])
    {
      if id != k.id || i < |old_| {
        assert Logged(n.placed, id)[i] == Logged(s.placed, id)[i];
        assert LogsTicket(s, id, Logged(s.placed, id)[i]);
      }
    }
    forall id, i, j | 0 <= i < j < |Logged(n.placed, id)|
      ensures Logged(n.placed, id)[i].ticket != Logged(n.placed, id)[j].ticket
    {
      if id != k.id { assert Logged(n.placed, id) == Logged(s.placed, id); }
    }
    forall u | 0 <= u < |n.tickets| && n.tickets[u].stage == Placed
      ensures Command(u, n.tickets[u].event) in Logged(n.placed, n.tickets[u].id)
    {
      if u == t { assert new_[|old_|] == Command(t, k.event); }
      else { assert Command(u, s.tickets[u].event) in Logged(s.placed, s.tickets[u].id); }
    }
  }

  lemma PlacedOnceStep<S(!new)>(p: Params<S>, s: State<S>, l: Label<S>)
    requires OneActor(s) && PlacedOnce(s) && Possible(p, s, l)
    ensures PlacedOnce(Next(p, s, l))
  {
    hide Next, Possible, PlacedOnce, SamePlaced;
    if l.Send? { SendPlacedOnce(p, s, l.t); }
    else { NotSendPlaced(p, s, l); SamePlacedOnce(s, Next(p, s, l)); }
  }

  // ---- No lost update -----------------------------------------------------

  /** What the state was when the outcome number `i` was computed. */
  function Before<S>(p: Params<S>, id: string, outs: seq<S>, i: nat): S
    requires i <= |outs|
  {
    if i == 0 then p.init(id) else outs[i - 1]
  }

  /** The outcomes are those of the commands taken one at a time: each follows from
      the one before it. */
  ghost predicate Follows<S>(p: Params<S>, id: string, log: seq<Command>, outs: seq<S>) {
    |outs| == |log| && forall i :: 0 <= i < |outs| ==> p.step(id, Before(p, id, outs, i), log[i].event, outs[i])
  }

  /** The row is the last outcome. */
  ghost predicate RowFits<S>(p: Params<S>, s: State<S>, id: string) {
    && Follows(p, id, Logged(s.served, id), Outcomes(s, id))
    && RowOf(p, s, id) == Before(p, id, Outcomes(s, id), |Outcomes(s, id)|)
  }

  /** Rows are the last outcomes, and what a working actor has read is still
      current. */
  ghost predicate RowsFit<S>(p: Params<S>, s: State<S>) {
    && (forall id :: RowFits(p, s, id))
    && (forall a :: 0 <= a < |s.actors| && s.actors[a].pc.Working? ==> s.actors[a].pc.read == RowOf(p, s, s.actors[a].id))
  }

  lemma FollowsMore<S(!new)>(p: Params<S>, id: string, log: seq<Command>, outs: seq<S>, c: Command, after: S)
    requires Follows(p, id, log, outs) && p.step(id, Before(p, id, outs, |outs|), c.event, after)
    ensures Follows(p, id, log + [c], outs + [after])
  {
    var more := outs + [after];
    forall i | 0 <= i < |more| ensures p.step(id, Before(p, id, more, i), (log + [c])[i].event, more[i]) {
      assert Before(p, id, more, i) == Before(p, id, outs, i);
    }
  }

  /** The row written is the next outcome of its log. */
  lemma WrittenFits<S(!new)>(p: Params<S>, s: State<S>, a: nat, after: S)
    requires RegistryInRange(s) && RowsFit(p, s) && Possible(p, s, Write(a, after))
    ensures RowFits(p, Next(p, s, Write(a, after)), s.actors[a].id)
  {
    hide Follows;
    var x, n := s.actors[a].id, Next(p, s, Write(a, after));
    var pc := s.actors[a].pc;
    assert RowFits(p, s, x);
    FollowsMore(p, x, Logged(s.served, x), Outcomes(s, x), pc.cmd, after);
    assert Logged(n.served, x) == Logged(s.served, x) + [pc.cmd] && Outcomes(n, x) == Outcomes(s, x) + [after];
  }

  lemma OthersFit<S(!new)>(p: Params<S>, s: State<S>, a: nat, after: S, id: string)
    requires RegistryInRange(s) && Possible(p, s, Write(a, after)) && id != s.actors[a].id && RowFits(p, s, id)
    ensures RowFits(p, Next(p, s, Write(a, after)), id)
    ensures RowOf(p, Next(p, s, Write(a, after)), id) == RowOf(p, s, id)
  {
    hide Follows;
  }

  /** No other actor has read the row being written. */
  lemma NoOtherReader<S(!new)>(p: Params<S>, s: State<S>, a: nat, after: S, b: nat)
    requires OneActor(s) && Possible(p, s, Write(a, after)) && b < |s.actors| && b != a && s.actors[b].pc.Working?
    ensures s.actors[b].id != s.actors[a].id
  {
    assert s.actors[b].Serves() && s.actors[a].Serves();
  }

  lemma WriteRows<S(!new)>(p: Params<S>, s: State<S>, a: nat, after: S)
    requires OneActor(s) && RowsFit(p, s) && Possible(p, s, Write(a, after))
    ensures RowsFit(p, Next(p, s, Write(a, after)))
  {
    hide RowFits, RowOf;
    var n := Next(p, s, Write(a, after));
    var x := s.actors[a].id;
    WrittenFits(p, s, a, after);
    forall id ensures RowFits(p, n, id) {
      if id != x { OthersFit(p, s, a, after, id); }
    }
    forall b | 0 <= b < |n.actors| && n.actors[b].pc.Working? ensures n.actors[b].pc.read == RowOf(p, n, n.actors[b].id) {
      NoOtherReader(p, s, a, after, b);
      OthersFit(p, s, a, after, s.actors[b].id);
    }
  }

  ghost predicate SameRows<S>(p: Params<S>, s: State<S>, n: State<S>) {
    && n.rows == s.rows && n.written == s.written && n.served == s.served && |s.actors| <= |n.actors|
    && (forall a :: 0 <= a < |s.actors| ==> n.actors[a].id == s.actors[a].id)
    && (forall a :: 0 <= a < |n.actors| && n.actors[a].pc.Working? ==>
          a < |s.actors| &&
          (if s.actors[a].pc.Working? then n.actors[a].pc.read == s.actors[a].pc.read
           else n.actors[a].pc.read == RowOf(p, s, s.actors[a].id)))
  }

  lemma WorkRows<S(!new)>(p: Params<S>, s: State<S>, l: Label<S>)
    requires RegistryInRange(s) && Possible(p, s, l) && AtWork(l) && !l.Write?
    ensures SameRows(p, s, Next(p, s, l))
  {}

  lemma AfterWorkRows<S(!new)>(p: Params<S>, s: State<S>, l: Label<S>)
    requires RegistryInRange(s) && Possible(p, s, l) && AfterWork(l)
    ensures SameRows(p, s, Next(p, s, l))
  {}

  lemma SenderRows<S(!new)>(p: Params<S>, s: State<S>, l: Label<S>)
    requires RegistryInRange(s) && Possible(p, s, l) && BySender(l)
    ensures SameRows(p, s, Next(p, s, l))
  {}

  lemma EnqueueRows<S(!new)>(p: Params<S>, s: State<S>, l: Label<S>)
    requires RegistryInRange(s) && Possible(p, s, l) && Enqueues(l)
    ensures SameRows(p, s, Next(p, s, l))
  {}

  lemma NotWriteRows<S(!new)>(p: Params<S>, s: State<S>, l: Label<S>)
    requires RegistryInRange(s) && Possible(p, s, l) && !l.Write?
    ensures SameRows(p, s, Next(p, s, l))
  {
    hide Next, Possible;
    if AtWork(l) { WorkRows(p, s, l); }
    else if AfterWork(l) { AfterWorkRows(p, s, l); }
    else if BySender(l) { SenderRows(p, s, l); }
    else if Enqueues(l) { EnqueueRows(p, s, l); }
    else { ActorsUntouched(p, s, l); }
  }

  lemma SameRowsFit<S(!new)>(p: Params<S>, s: State<S>, n: State<S>)
    requires RowsFit(p, s) && SameRows(p, s, n)
    ensures RowsFit(p, n)
  {
    hide Follows;
    forall id ensures RowFits(p, n, id) {
      assert RowFits(p, s, id);
    }
  }

  lemma RowsStep<S(!new)>(p: Params<S>, s: State<S>, l: Label<S>)
    requires OneActor(s) && RowsFit(p, s) && Possible(p, s, l)
    ensures RowsFit(p, Next(p, s, l))
  {
    hide Next, Possible, RowsFit, SameRows;
    if l.Write? { WriteRows(p, s, l.a, l.after); }
    else { NotWriteRows(p, s, l); SameRowsFit(p, s, Next(p, s, l)); }
  }

  // ---- The invariant ------------------------------------------------------

  ghost predicate Inv<S>(p: Params<S>, s: State<S>) {
    Base(s) && InflightExact(s) && InOrder(s) && PlacedOnce(s) && RowsFit(p, s)
  }

  function Empty<S>(): State<S> {
    State([], map[], [], [], [], 0, 0, map[], map[], map[], map[], Serving)
  }

  lemma EmptyCounts<S(!new)>()
    ensures Base(Empty<S>()) && InflightExact(Empty<S>())
  {}

  lemma EmptyOrder<S(!new)>()
    ensures InOrder(Empty<S>()) && PlacedOnce(Empty<S>())
  {
    assert forall id :: Rest(Empty<S>(), id) == [] && Logged(Empty<S>().placed, id) == [] && Logged(Empty<S>().served, id) == [];
  }

  lemma EmptyRows<S(!new)>(p: Params<S>)
    ensures RowsFit(p, Empty<S>())
  {}

  lemma EmptyInv<S(!new)>(p: Params<S>)
    ensures Inv(p, Empty<S>())
  {
    hide Base, InflightExact, InOrder, PlacedOnce, RowsFit;
    EmptyCounts<S>();
    EmptyOrder<S>();
    EmptyRows(p);
  }

  lemma InvStep<S(!new)>(p: Params<S>, s: State<S>, l: Label<S>)
    requires Inv(p, s) && Possible(p, s, l)
    ensures Inv(p, Next(p, s, l))
  {
    hide Next, Possible, OneActor, PendingExact, TicketsFit, InflightExact, InOrder, PlacedOnce, RowsFit;
    BaseStep(p, s, l);
    InflightStep(p, s, l);
    InOrderStep(p, s, l);
    PlacedOnceStep(p, s, l);
    RowsStep(p, s, l);
  }

  lemma InRange<S(!new)>(p: Params<S>, s: State<S>)
    requires Inv(p, s)
    ensures RegistryInRange(s)
  {}

  /** `states` is a run of the system that takes the steps `ls`. */
  ghost predicate IsRun<S>(p: Params<S>, ls: seq<Label<S>>, states: seq<State<S>>) {
    && |states| == |ls| + 1
    && forall i :: 0 <= i < |ls| ==>
         RegistryInRange(states[i]) && Possible(p, states[i], ls[i]) && states[i + 1] == Next(p, states[i], ls[i])
  }

  /** The invariant holds at every point of every run from the empty dispatcher. */
  lemma {:induction false} RunInv<S(!new)>(p: Params<S>, ls: seq<Label<S>>, states: seq<State<S>>, n: nat)
    requires IsRun(p, ls, states) && states[0] == Empty() && n < |states|
    ensures Inv(p, states[n])
  {
    hide Possible, Next, Inv, RegistryInRange;
    if n > 0 {
      RunInv(p, ls, states, n - 1);
      InvStep(p, states[n - 1], ls[n - 1]);
    } else {
      EmptyInv(p);
    }
  }

  // ---- What it says -------------------------------------------------------

  /** At most one actor per instance can be running the processing function. */
  lemma OneAtATime<S(!new)>(p: Params<S>, ls: seq<Label<S>>, states: seq<State<S>>, n: nat, a: nat, b: nat)
    requires IsRun(p, ls, states) && states[0] == Empty() && n < |states|
    requires a < |states[n].actors| && b < |states[n].actors|
    requires states[n].actors[a].Processing() && states[n].actors[b].Processing() && states[n].actors[a].id == states[n].actors[b].id
    ensures a == b
  {
    hide IsRun, InOrder, PlacedOnce, RowsFit, PendingExact, TicketsFit, InflightExact;
    RunInv(p, ls, states, n);
    assert states[n].actors[a].Serves() && states[n].actors[b].Serves();
  }

  /** An actor's `pending` is its senders in mid-flight, its mailbox and the command
      it is processing; the wait group is all of them, whoever is between a decrement
      and its Done, and the auto-join attempts; the pool's is its unfinished jobs. */
  lemma CountersExact<S(!new)>(p: Params<S>, ls: seq<Label<S>>, states: seq<State<S>>, n: nat, a: nat)
    requires IsRun(p, ls, states) && states[0] == Empty() && n < |states| && a < |states[n].actors|
    ensures
      var s := states[n];
      var x := s.actors[a];
      && x.pending == Sum(s.tickets, SendingTo(a)) + |x.mailbox| + (if x.Processing() then 1 else 0)
      && x.pending >= 0
      && s.inflight == Sum(s.actors, Held()) + Sum(s.tickets, HeldByTicket()) + Sum(s.attempts, HeldByAttempt())
      && s.unfinished == Sum(s.jobs, JobOpen())
  {
    hide IsRun, InOrder, PlacedOnce, RowsFit, TicketsFit, OneActor, Sum;
    RunInv(p, ls, states, n);
    ZeroPendingIsEmpty(states[n], a);
    assert states[n].actors[a].pending == Load(states[n], a);
  }

  /** The state of an instance is what its served commands give when taken one at
      a time: no update is lost, however many actors have served it. */
  lemma NoLostUpdate<S(!new)>(p: Params<S>, ls: seq<Label<S>>, states: seq<State<S>>, n: nat, id: string)
    requires IsRun(p, ls, states) && states[0] == Empty() && n < |states|
    ensures
      var s := states[n];
      var outs := Outcomes(s, id);
      && Follows(p, id, Logged(s.served, id), outs)
      && RowOf(p, s, id) == if outs == [] then p.init(id) else outs[|outs| - 1]
  {
    hide IsRun, Base, InOrder, PlacedOnce, InflightExact, Follows, RowOf;
    RunInv(p, ls, states, n);
    assert RowFits(p, states[n], id);
  }

  /** Every accepted command is in exactly one of four places: with its sender,
      reported as cancelled, waiting in the registered actor, or served; and it
      is placed and served at most once, in the order of placing. */
  lemma ExactlyOnce<S(!new)>(p: Params<S>, ls: seq<Label<S>>, states: seq<State<S>>, n: nat, t: nat)
    requires IsRun(p, ls, states) && states[0] == Empty() && n < |states| && t < |states[n].tickets|
    ensures
      var s := states[n];
      var k := s.tickets[t];
      var c := Command(t, k.event);
      var log := Logged(s.served, k.id) + Rest(s, k.id);
      && Logged(s.placed, k.id) == log
      && (k.stage == Placed <==> c in log)
      && (forall i, j :: 0 <= i < j < |log| ==> log[i].ticket != log[j].ticket)
      && (k.stage == Sending ==> k.id in s.registry && s.registry[k.id] == k.owner)
  {
    hide IsRun, RowsFit, InflightExact, Logged, Rest;
    RunInv(p, ls, states, n);
    var s := states[n];
    if s.tickets[t].stage == Sending { SendingIsServed(s, t); }
  }

  // ---- Bounds -------------------------------------------------------------

  /** How many jobs are at a stage. */
  function Count(jobs: seq<Job>, stage: JobStage): nat {
    if jobs == [] then 0 else Count(jobs[..|jobs| - 1], stage) + if jobs[|jobs| - 1].stage == stage then 1 else 0
  }

  lemma {:induction false} CountIsSum(jobs: seq<Job>, stage: JobStage)
    ensures Count(jobs, stage) == Sum(jobs, InStage(stage))
  {
    if jobs != [] { CountIsSum(jobs[..|jobs| - 1], stage); }
  }

  /** No mailbox holds more than its buffer, and no more jobs wait in the queue or run at
      once than the pool has room and workers for. */
  ghost predicate Bounded<S>(p: Params<S>, s: State<S>) {
    && (forall a :: 0 <= a < |s.actors| ==> |s.actors[a].mailbox| <= 64)
    && Count(s.jobs, Queued) <= p.queue && Count(s.jobs, Running) <= p.workers
  }

  lemma PoolBounded<S(!new)>(p: Params<S>, s: State<S>, l: Label<S>)
    requires RegistryInRange(s) && Bounded(p, s) && Possible(p, s, l) && (ByPool(l) || l.Submit?)
    ensures Bounded(p, Next(p, s, l))
  {
    hide Sum, Count;
    var n := Next(p, s, l);
    forall stage | stage == Queued || stage == Running ensures Count(n.jobs, stage) == Sum(n.jobs, InStage(stage)) {
      CountIsSum(n.jobs, stage);
    }
    CountIsSum(s.jobs, Queued);
    CountIsSum(s.jobs, Running);
    if l.Submit? {
      SumAppend(s.jobs, n.jobs[|s.jobs|], InStage(Queued));
      SumAppend(s.jobs, n.jobs[|s.jobs|], InStage(Running));
    } else {
      SumUpdate(s.jobs, l.j, n.jobs[l.j], InStage(Queued));
      SumUpdate(s.jobs, l.j, n.jobs[l.j], InStage(Running));
    }
  }

  lemma MailboxesBounded<S(!new)>(p: Params<S>, s: State<S>, l: Label<S>)
    requires RegistryInRange(s) && Bounded(p, s) && Possible(p, s, l) && !ByPool(l) && !l.Submit?
    ensures Bounded(p, Next(p, s, l))
  {
    hide Sum, Count;
  }

  lemma {:induction false} RunBounded<S(!new)>(p: Params<S>, ls: seq<Label<S>>, states: seq<State<S>>, n: nat)
    requires IsRun(p, ls, states) && states[0] == Empty() && n < |states|
    ensures Bounded(p, states[n])
  {
    hide Possible, Next, RegistryInRange;
    if n > 0 {
      hide Bounded;
      RunBounded(p, ls, states, n - 1);
      if ByPool(ls[n - 1]) || ls[n - 1].Submit? {
        PoolBounded(p, states[n - 1], ls[n - 1]);
      } else {
        MailboxesBounded(p, states[n - 1], ls[n - 1]);
      }
    }
  }

  /** Main result: at every point of every run the mailboxes and the pool are within their
      bounds, a sender is placed exactly when its actor's mailbox has room, and a job goes
      on exactly when the queue or a worker is free. */
  lemma WithinBounds<S(!new)>(p: Params<S>, ls: seq<Label<S>>, states: seq<State<S>>, n: nat)
    requires IsRun(p, ls, states) && states[0] == Empty() && n < |states|
    ensures
      var s := states[n];
      && Bounded(p, s)
      && (forall t: nat :: t < |s.tickets| && s.tickets[t].stage == Sending ==>
            (Possible(p, s, Send(t)) <==> s.tickets[t].owner < |s.actors| && |s.actors[s.tickets[t].owner].mailbox| < 64))
      && (forall j: nat :: j < |s.jobs| ==>
            && (s.jobs[j].stage == Waiting ==> (Possible(p, s, QueueJob(j)) <==> Count(s.jobs, Queued) < p.queue))
            && (s.jobs[j].stage == Queued ==> (Possible(p, s, StartJob(j)) <==> Count(s.jobs, Running) < p.workers)))
  {
    hide IsRun, Sum, Count;
    RunBounded(p, ls, states, n);
    CountIsSum(states[n].jobs, Queued);
    CountIsSum(states[n].jobs, Running);
  }

  /** One sequential machine per instance. */
  datatype Machine<S> = Machine(state: S, queue: seq<string>)

  function Events(cs: seq<Command>): (es: seq<string>)
    ensures |es| == |cs| && forall i :: 0 <= i < |cs| ==> es[i] == cs[i].event
  {
    seq(|cs|, i requires 0 <= i < |cs| => cs[i].event)
  }

  function Abstract<S>(p: Params<S>, s: State<S>, id: string): Machine<S> {
    Machine(RowOf(p, s, id), Events(Rest(s, id)))
  }

  /** Main result: every step of the actor system is, seen from one instance, the
      arrival of an event at the end of its queue, the processing of the event at
      the front, or nothing at all. */
  lemma RefinesOneMachine<S(!new)>(p: Params<S>, s: State<S>, l: Label<S>, id: string)
    requires Inv(p, s) && Possible(p, s, l)
    ensures
      var m, m' := Abstract(p, s, id), Abstract(p, Next(p, s, l), id);
      if l.Send? && s.tickets[l.t].id == id then
        m' == Machine(m.state, m.queue + [s.tickets[l.t].event])
      else if l.Write? && s.actors[l.a].id == id then
        m.queue != [] && p.step(id, m.state, m.queue[0], m'.state) && m'.queue == m.queue[1..]
      else m' == m
  {
    hide InOrder, PlacedOnce, InflightExact, Rest, Logged, PendingExact, TicketsFit, RowOf, Next, Follows, RowsFit;
    EveryOrderStep(p, s, l, id);
    StateStep(p, s, l, id);
    var n := Next(p, s, l);
    var es, es' := Events(Rest(s, id)), Events(Rest(n, id));
    if l.Send? && s.tickets[l.t].id == id {
      assert es' == es + [s.tickets[l.t].event];
    } else if l.Write? && s.actors[l.a].id == id {
      assert es' == es[1..];
    }
  }

  lemma StateStep<S(!new)>(p: Params<S>, s: State<S>, l: Label<S>, id: string)
    requires OneActor(s) && RowsFit(p, s) && Possible(p, s, l)
    ensures
      if l.Write? && s.actors[l.a].id == id
      then p.step(id, RowOf(p, s, id), s.actors[l.a].pc.cmd.event, RowOf(p, Next(p, s, l), id))
      else RowOf(p, Next(p, s, l), id) == RowOf(p, s, id)
  {
    hide RowFits;
    if !l.Write? { NotWriteRows(p, s, l); hide Next, Possible; }
  }
}
