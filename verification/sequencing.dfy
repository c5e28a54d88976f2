/**
 * Runs of events over the scene: the unlock order the manager's queue enforces, the
 * terminal state, and properties that hold after any sequence of events.
 */
module Sequencing {
  import opened Common
  import opened States
  import opened Assembly
  import Parts
  import Sockets
  import Groups


  /** Completion notices reaching the manager from `senders[k]` at ticks `times[k]`, in order. */
  function Notices(w: World, senders: seq<nat>, times: seq<int>): (r: World)
    requires Inv(w) && w.manager.Some? && |senders| == |times|
    ensures Inv(r) && Frame(w, r) && GrabStaysOff(w, r)
    decreases |times|
  {
    if |times| == 0 then w
    else
      var w1 := OnGroupAssembled(w, senders[0], times[0]).world;
      assert Frame(w, w1);
      var r := Notices(w1, senders[1..], times[1..]);
      FrameTrans(w, w1, r);
      r
  }

  /** Each notice removes exactly one queue entry, whichever group sent it, until the queue is empty. */
  lemma {:induction false} NoticesDrainQueue(w: World, senders: seq<nat>, times: seq<int>)
    requires Inv(w) && w.manager.Some? && |senders| == |times|
    ensures var q := w.manager.value.queue;
            Notices(w, senders, times).manager.value.queue == q[Groups.Min(|times|, |q|)..]
    decreases |times|
  {
    var q := w.manager.value.queue;
    if |times| > 0 {
      var w1 := OnGroupAssembled(w, senders[0], times[0]).world;
      NoticesDrainQueue(w1, senders[1..], times[1..]);
      if |q| > 0 {
        assert q[1..][Groups.Min(|times| - 1, |q| - 1)..] == q[Groups.Min(|times|, |q|)..];
      }
    } else {
      assert q[0..] == q;
    }
  }

  /** Dropping `n` entries after the head is dropping `n + 1` from the start (all of them at most). */
  lemma DropAfterRest(q: seq<Option<nat>>, n: nat)
    ensures Rest(q)[Groups.Min(n, |Rest(q)|)..] == q[Groups.Min(n + 1, |q|)..]
  {
    if |q| > 0 {
      assert Rest(q) == q[1..];
      assert q[1..][Groups.Min(n, |q| - 1)..] == q[Groups.Min(n + 1, |q|)..];
    }
  }

  /** Start-up from an empty queue and a list without nulls leaves the list minus its head queued. */
  lemma StartQueue(w: World, t0: int)
    requires Inv(w) && w.manager.Some? && w.manager.value.queue == []
    requires NoNullEntries(w.manager.value.groupsOrder)
    ensures var w1 := InitializeGroupQueue(w, t0).world;
      Inv(w1) && w1.manager.Some? && w1.manager.value.queue == Rest(w.manager.value.groupsOrder)
  {
    assert [] + w.manager.value.groupsOrder == w.manager.value.groupsOrder;
  }

  /**
   * Groups unlock in `GroupsOrder` order: from a list without null entries, after
   * initialisation and `k` completion notices exactly the first k + 1 entries have left
   * the queue (all of them once it is empty).
   */
  lemma QueueAfterNotices(w: World, t0: int, senders: seq<nat>, times: seq<int>)
    requires Inv(w) && w.manager.Some? && w.manager.value.queue == [] && |senders| == |times|
    requires NoNullEntries(w.manager.value.groupsOrder)
    ensures var order := w.manager.value.groupsOrder;
            var w1 := InitializeGroupQueue(w, t0).world;
            Notices(w1, senders, times).manager.value.queue == order[Groups.Min(|times| + 1, |order|)..]
  {
    var order := w.manager.value.groupsOrder;
    var w1 := InitializeGroupQueue(w, t0).world;
    StartQueue(w, t0);
    var q1 := w1.manager.value.queue;
    NoticesDrainQueue(w1, senders, times);
    DropAfterRest(order, |times|);
  }

  /** The notice after the `k`-th unlocks entry k + 1 of `GroupsOrder`: its parts become Unlocked. */
  lemma NextGroupInOrder(w: World, t0: int, senders: seq<nat>, times: seq<int>, sender: nat, now: int)
    requires Inv(w) && w.manager.Some? && w.manager.value.queue == [] && |senders| == |times|
    requires NoNullEntries(w.manager.value.groupsOrder)
    requires |times| + 1 < |w.manager.value.groupsOrder|
    ensures var g := w.manager.value.groupsOrder[|times| + 1].value;
            var wk := Notices(InitializeGroupQueue(w, t0).world, senders, times);
            var r := OnGroupAssembled(wk, sender, now).world;
            g < |w.groups| && forall k :: 0 <= k < |w.groups[g].parts| ==> r.parts[w.groups[g].parts[k]].state == Unlocked
  {
    QueueAfterNotices(w, t0, senders, times);
  }

  /**
   * Once every entry has been taken, the manager is terminal: each further notice
   * unlocks nothing, leaves parts, sockets and timing alone and resets the screen.
   */
  lemma TerminalAfterLastGroup(w: World, t0: int, senders: seq<nat>, times: seq<int>, sender: nat, now: int)
    requires Inv(w) && w.manager.Some? && w.manager.value.queue == [] && |senders| == |times|
    requires NoNullEntries(w.manager.value.groupsOrder)
    requires |times| + 1 >= |w.manager.value.groupsOrder|
    ensures var wk := Notices(InitializeGroupQueue(w, t0).world, senders, times);
            var r := OnGroupAssembled(wk, sender, now);
            && wk.manager.value.queue == []
            && r.world.parts == wk.parts && r.world.sockets == wk.sockets && r.world.timer == wk.timer
            && r.world.manager.value.queue == []
            && (wk.manager.value.screen.Some? ==>
                  !r.threw && r.world.manager.value.screen == Some(ResetInstructions(wk.manager.value.screen.value)))
  {
    QueueAfterNotices(w, t0, senders, times);
  }

  /** An empty `GroupsOrder` makes initialisation itself terminal: the screen shows its defaults. */
  lemma EmptyOrderIsTerminal(w: World, t0: int)
    requires Inv(w) && w.manager.Some? && w.manager.value.queue == [] && w.manager.value.groupsOrder == []
    requires w.manager.value.screen.Some?
    ensures var r := InitializeGroupQueue(w, t0);
            && !r.threw && r.world.parts == w.parts && r.world.sockets == w.sockets
            && r.world.manager.value.screen == Some(ResetInstructions(w.manager.value.screen.value))
  {
  }

  // ---------------------------------------------------------------------------
  // Arbitrary runs of events.

  /** Every event the host delivers to the core. */
  datatype Event =
    | Start
    | GroupNotice(sender: nat)
    | Enter(socket: nat, obj: Option<nat>)
    | Exit(socket: nat, obj: Option<nat>)
    | Grab(part: nat, selected: bool)
    | Release(socket: nat, part: nat)

  predicate EventOk(w: World, e: Event)
  {
    match e
    case Start => w.manager.Some?
    case GroupNotice(_) => w.manager.Some?
    case Enter(s, obj) => s < |w.sockets| && (obj.Some? ==> obj.value < |w.parts|)
    case Exit(s, obj) => s < |w.sockets| && (obj.Some? ==> obj.value < |w.parts|)
    case Grab(p, _) => p < |w.parts|
    case Release(s, p) => s < |w.sockets| && p < |w.parts|
  }

  function Step(w: World, e: Event, now: int): (r: World)
    requires Inv(w) && EventOk(w, e)
    ensures Inv(r) && Frame(w, r) && GrabStaysOff(w, r)
  {
    match e
    case Start => InitializeGroupQueue(w, now).world
    case GroupNotice(sender) => OnGroupAssembled(w, sender, now).world
    case Enter(s, obj) => SelectEnter(w, s, obj)
    case Exit(s, obj) => SelectExit(w, s, obj, now)
    case Grab(p, selected) =>
      var r := SetSelected(w, p, selected);
      assert Frame(w, r);
      r
    case Release(s, p) => GrabReleased(w, s, p, now).world
  }

  /** Frame keeps the scene's shape, so an event valid in one scene is valid after any event. */
  lemma EventOkKept(w: World, w': World, e: Event)
    requires Frame(w, w') && EventOk(w, e)
    ensures EventOk(w', e)
  {
  }

  predicate EventsOk(w: World, events: seq<Event>)
  {
    forall k :: 0 <= k < |events| ==> EventOk(w, events[k])
  }

  /** The scene after the events `events[k]` at ticks `times[k]`; an exception ends only its own event. */
  function Run(w: World, events: seq<Event>, times: seq<int>): (r: World)
    requires Inv(w) && |events| == |times| && EventsOk(w, events)
    ensures Inv(r) && Frame(w, r) && GrabStaysOff(w, r)
    decreases |events|
  {
    if |events| == 0 then w
    else
      var w1 := Step(w, events[0], times[0]);
      assert EventsOk(w1, events[1..]) by {
        forall k | 0 <= k < |events[1..]| ensures EventOk(w1, events[1..][k]) {
          EventOkKept(w, w1, events[1..][k]);
        }
      }
      var r := Run(w1, events[1..], times[1..]);
      FrameTrans(w, w1, r);
      r
  }

  /**
   * Commit happens at most once per socket: once closed, a socket stays closed through
   * any run, and a later release on it changes nothing.
   */
  lemma ClosedSocketStaysClosed(w: World, events: seq<Event>, times: seq<int>, s: nat, p: nat, now: int)
    requires Inv(w) && |events| == |times| && EventsOk(w, events)
    requires s < |w.sockets| && p < |w.parts| && w.sockets[s].assembled
    ensures var r := Run(w, events, times);
            r.sockets[s].assembled && GrabReleased(r, s, p, now) == Outcome(r, false)
  {
  }

  /**
   * Assembled is final for interaction: an Assembled part can never be grabbed again,
   * after any run of events, even if a later unlock retags it.
   */
  lemma AssembledPartStaysUngrabbable(w: World, events: seq<Event>, times: seq<int>, p: nat)
    requires Inv(w) && |events| == |times| && EventsOk(w, events)
    requires p < |w.parts| && w.parts[p].state == Assembled
    ensures var r := Run(w, events, times);
            !r.parts[p].grabEnabled && SetSelected(r, p, true) == r
  {
  }

  /** A part offered to a socket of another group is refused and can never be committed there. */
  lemma WrongGroupRejected(w: World, s: nat, p: nat, now: int)
    requires Inv(w) && s < |w.sockets| && p < |w.parts|
    requires w.parts[p].groupId != w.sockets[s].groupId
    ensures !Sockets.CanSelect(w.sockets[s], Offered(w, Some(p)))
    ensures SelectEnter(w, s, Some(p)) == w
    ensures GrabReleased(w, s, p, now) == Outcome(w, false)
  {
    assert SubscribersMatch(w, s);
  }
}
