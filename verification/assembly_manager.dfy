/**
 * The whole scene as one value: parts, sockets and groups held in arenas and referred
 * to by index, the assembly manager (`EngineAssemblyManager`) with its FIFO of groups
 * and its instruction screen, and the time manager. Every event handler of the core is
 * a function from a scene to the scene after the event.
 *
 * Three places in the C# code dereference a scene object without a null check: the
 * time manager found when a group is unlocked, the instruction screen reset when the
 * queue is empty, and a null `GroupsOrder` entry, which the enqueue loop queues and
 * then dereferences to log its id. When that object is missing the handler throws; every
 * change made
 * before the throw stays, and the rest of the event (including the caller's remaining
 * statements) is skipped. `Outcome.threw` records that.
 */
module Assembly {
  import opened Common
  import opened States
  import Parts
  import Sockets
  import Groups
  import Timing
  import Instructions

  /** The instruction screen: the shown title and text, and the defaults a reset restores. */
  datatype Screen = Screen(title: string, text: string, defaultTitle: string, defaultText: string)

  function UpdateInstructions(s: Screen, title: string, text: string): (r: Screen)
    ensures r.title == title && r.text == text
    ensures r.defaultTitle == s.defaultTitle && r.defaultText == s.defaultText
  {
    s.(title := title, text := text)
  }

  function ResetInstructions(s: Screen): (r: Screen)
    ensures r.title == s.defaultTitle && r.text == s.defaultText
    ensures r.defaultTitle == s.defaultTitle && r.defaultText == s.defaultText
  {
    UpdateInstructions(s, s.defaultTitle, s.defaultText)
  }

  /**
   * The assembly manager: `groupsOrder` is the inspector list (null entries allowed),
   * `queue` the FIFO built from it, and its two dependencies, either of which may be
   * missing: the screen and the instruction manager's dictionary.
   */
  datatype Manager = Manager(
    groupsOrder: seq<Option<nat>>,
    queue: seq<Option<nat>>,
    screen: Option<Screen>,
    instructions: Option<map<string, Instructions.GroupInstruction>>)

  datatype World = World(
    parts: seq<Parts.Part>,
    sockets: seq<Sockets.Socket>,
    groups: seq<Groups.Group>,
    manager: Option<Manager>,
    timer: Option<Timing.Recorder>)

  /** The scene after an event, and whether the event ended in an exception. */
  datatype Outcome = Outcome(world: World, threw: bool)

  predicate EntriesIn(q: seq<Option<nat>>, n: nat)
  {
    forall k :: 0 <= k < |q| && q[k].Some? ==> q[k].value < n
  }

  /** Every reference in the scene points at an existing object. */
  predicate Valid(w: World)
  {
    && (forall g :: 0 <= g < |w.groups| ==>
          Groups.IndicesIn(w.groups[g].parts, |w.parts|) && Groups.IndicesIn(w.groups[g].sockets, |w.sockets|))
    && (forall i :: 0 <= i < |w.parts| && w.parts[i].parent.Some? ==> w.parts[i].parent.value < |w.groups|)
    && (w.manager.Some? ==>
          EntriesIn(w.manager.value.groupsOrder, |w.groups|) && EntriesIn(w.manager.value.queue, |w.groups|))
    && (forall s :: 0 <= s < |w.sockets| ==> SubscribersMatch(w, s))
  }

  /** Socket `s`'s release listener is subscribed only to existing parts of its own group. */
  predicate SubscribersMatch(w: World, s: nat)
    requires s < |w.sockets|
  {
    forall p :: p in w.sockets[s].listeners ==> p < |w.parts| && w.parts[p].groupId == w.sockets[s].groupId
  }

  /**
   * The invariant every event keeps: references are valid, release listeners are only
   * subscribed to parts of the socket's group, group counts stay within their part
   * counts, and an Assembled part cannot be grabbed.
   */
  predicate Inv(w: World)
  {
    && Valid(w)
    && (forall g :: 0 <= g < |w.groups| ==> Groups.CountBounded(w.groups[g]))
    && (forall i :: 0 <= i < |w.parts| && w.parts[i].state == Assembled ==> !w.parts[i].grabEnabled)
  }

  /**
   * What no event changes: arena sizes, identities, group membership, the manager's
   * configuration; and a closed socket never reopens.
   */
  predicate Frame(w: World, w': World)
  {
    && |w'.parts| == |w.parts| && |w'.sockets| == |w.sockets| && |w'.groups| == |w.groups|
    && (forall i :: 0 <= i < |w.parts| ==> Parts.SameIdentity(w.parts[i], w'.parts[i]))
    && (forall s :: 0 <= s < |w.sockets| ==> w'.sockets[s].groupId == w.sockets[s].groupId)
    && (forall s :: 0 <= s < |w.sockets| && w.sockets[s].assembled ==> w'.sockets[s].assembled)
    && (forall g :: 0 <= g < |w.groups| ==> w'.groups[g] == w.groups[g].(count := w'.groups[g].count))
    && w'.manager.Some? == w.manager.Some?
    && (w.manager.Some? ==>
          w'.manager.value.groupsOrder == w.manager.value.groupsOrder
          && w'.manager.value.instructions == w.manager.value.instructions)
  }

  /** Once a part's grab is disabled it stays disabled. */
  predicate GrabStaysOff(w: World, w': World)
    requires |w'.parts| == |w.parts|
  {
    forall i :: 0 <= i < |w.parts| && !w.parts[i].grabEnabled ==> !w'.parts[i].grabEnabled
  }

  /** No socket is committed or reopened: only a release closes a socket. */
  predicate NoCommit(w: World, w': World)
    requires |w'.sockets| == |w.sockets|
  {
    forall t :: 0 <= t < |w.sockets| ==> w'.sockets[t].assembled == w.sockets[t].assembled
  }

  /** The time manager is neither added nor removed, and its log is left as it was. */
  predicate TimerLogKept(w: World, w': World)
  {
    && w'.timer.Some? == w.timer.Some?
    && (w.timer.Some? ==> w'.timer.value.log == w.timer.value.log)
  }

  /**
   * A completion notice from group `g` would unlock part `i` again: the group completes
   * with this count, a manager hears the notice, and the group at the head of its queue
   * lists `i` (a part may be listed by more than one group).
   */
  predicate NoticeUnlocks(w: World, g: nat, i: nat)
  {
    && g < |w.groups|
    && Groups.OnPartAssembled(w.groups[g]).notify
    && w.manager.Some?
    && |w.manager.value.queue| > 0
    && w.manager.value.queue[0].Some?
    && w.manager.value.queue[0].value < |w.groups|
    && i in w.groups[w.manager.value.queue[0].value].parts
  }

  /** The invariant carries over to a scene that differs only in what events may change. */
  lemma InvTransfer(w: World, w': World)
    requires Inv(w) && Frame(w, w')
    requires forall s :: 0 <= s < |w.sockets| ==> w'.sockets[s].listeners <= w.sockets[s].listeners
    requires w'.manager.Some? ==> EntriesIn(w'.manager.value.queue, |w.groups|)
    requires forall g :: 0 <= g < |w.groups| ==> w'.groups[g].count <= w.groups[g].count || Groups.CountBounded(w'.groups[g])
    requires forall i :: 0 <= i < |w.parts| && w'.parts[i].state == Assembled ==> !w'.parts[i].grabEnabled
    ensures Inv(w')
  {
    forall g | 0 <= g < |w'.groups|
      ensures Groups.IndicesIn(w'.groups[g].parts, |w'.parts|) && Groups.IndicesIn(w'.groups[g].sockets, |w'.sockets|)
      ensures Groups.CountBounded(w'.groups[g])
    {
      assert w'.groups[g].parts == w.groups[g].parts && w'.groups[g].sockets == w.groups[g].sockets;
    }
    forall i | 0 <= i < |w'.parts| && w'.parts[i].parent.Some?
      ensures w'.parts[i].parent.value < |w'.groups|
    {
      assert Parts.SameIdentity(w.parts[i], w'.parts[i]);
    }
    forall t | 0 <= t < |w'.sockets| ensures SubscribersMatch(w', t) {
      assert SubscribersMatch(w, t);
      forall p | p in w'.sockets[t].listeners
        ensures p < |w'.parts| && w'.parts[p].groupId == w'.sockets[t].groupId
      {
        assert p in w.sockets[t].listeners;
        assert Parts.SameIdentity(w.parts[p], w'.parts[p]);
      }
    }
  }

  lemma FrameTrans(w: World, w1: World, w2: World)
    requires Frame(w, w1) && Frame(w1, w2)
    requires GrabStaysOff(w, w1) && GrabStaysOff(w1, w2)
    ensures Frame(w, w2) && GrabStaysOff(w, w2)
  {
  }

  lemma EntriesInAppend(a: seq<Option<nat>>, b: seq<Option<nat>>, n: nat)
    requires EntriesIn(a, n) && EntriesIn(b, n)
    ensures EntriesIn(a + b, n) && EntriesIn(Rest(a + b), n)
  {
    var c := a + b;
    forall k | 0 <= k < |c| && c[k].Some? ensures c[k].value < n {
      if k < |a| { assert c[k] == a[k]; } else { assert c[k] == b[k - |a|]; }
    }
  }

  /** The queue after one `Dequeue`, or the empty queue left empty. */
  function Rest(q: seq<Option<nat>>): (q': seq<Option<nat>>)
  {
    if |q| > 0 then q[1..] else []
  }

  /**
   * `UpdateInstructionScreen`: a found instruction is shown, a missing one resets the
   * screen to its defaults, and with no instruction manager or no screen nothing changes.
   */
  function UpdateInstructionScreen(m: Manager, groupId: string): (r: Manager)
    ensures r == m.(screen := r.screen)
    ensures m.instructions.None? || m.screen.None? ==> r == m
    ensures m.instructions.Some? && m.screen.Some? ==> r.screen.Some?
    ensures m.instructions.Some? && m.screen.Some? && groupId in m.instructions.value ==>
      var ins := m.instructions.value[groupId];
      r.screen.value == UpdateInstructions(m.screen.value, ins.title, ins.text)
    ensures m.instructions.Some? && m.screen.Some? && groupId !in m.instructions.value ==>
      r.screen.value == ResetInstructions(m.screen.value)
  {
    if m.instructions.Some? && m.screen.Some? then
      match Instructions.GetInstructionForGroup(m.instructions.value, groupId)
      case Some(ins) => m.(screen := Some(UpdateInstructions(m.screen.value, ins.title, ins.text)))
      case None => m.(screen := Some(ResetInstructions(m.screen.value)))
    else m
  }

  /**
   * With the dictionary `InitializeDictionary` built from the inspector list, the screen
   * shows the list's first record for the group, or its defaults when the list has none.
   */
  lemma ScreenShowsFirstRecord(m: Manager, list: seq<Instructions.GroupInstruction>, groupId: string)
    requires m.instructions == Some(Instructions.InitializeDictionary(list)) && m.screen.Some?
    ensures var r := UpdateInstructionScreen(m, groupId).screen.value;
      match Instructions.FirstFor(list, groupId)
      case Some(ins) => r.title == ins.title && r.text == ins.text
      case None => r.title == m.screen.value.defaultTitle && r.text == m.screen.value.defaultText
  {
    Instructions.LookupFindsFirst(list, groupId);
  }

  /** `EngineGroup.Unlock` applied to group `g` of the scene. */
  function UnlockGroup(w: World, g: nat): (r: World)
    requires Inv(w) && g < |w.groups|
    ensures Inv(r) && Frame(w, r) && GrabStaysOff(w, r) && NoCommit(w, r)
    ensures r.groups == w.groups && r.manager == w.manager && r.timer == w.timer
    ensures forall k :: 0 <= k < |w.groups[g].parts| ==>
      r.parts[w.groups[g].parts[k]].state == Unlocked && r.parts[w.groups[g].parts[k]].layer.Name() == "Unlocked"
    ensures forall k :: 0 <= k < |w.groups[g].sockets| ==>
      r.sockets[w.groups[g].sockets[k]] == Groups.EnableSocket(w.sockets[w.groups[g].sockets[k]], true)
    ensures forall i :: 0 <= i < |w.parts| && i !in w.groups[g].parts ==> r.parts[i] == w.parts[i]
  {
    var a := Groups.Unlock(w.groups[g], Groups.Arena(w.parts, w.sockets));
    var r := w.(parts := a.parts, sockets := a.sockets);
    assert forall i :: 0 <= i < |w.parts| ==> Parts.SameIdentity(w.parts[i], r.parts[i]) && r.parts[i].grabEnabled == w.parts[i].grabEnabled
                                              && (r.parts[i].state == Assembled ==> r.parts[i] == w.parts[i]) by {
      forall i | 0 <= i < |w.parts|
        ensures Parts.SameIdentity(w.parts[i], r.parts[i]) && r.parts[i].grabEnabled == w.parts[i].grabEnabled
                && (r.parts[i].state == Assembled ==> r.parts[i] == w.parts[i])
      {
        if i in w.groups[g].parts {
          var k :| 0 <= k < |w.groups[g].parts| && w.groups[g].parts[k] == i;
        }
      }
    }
    assert forall s :: 0 <= s < |w.sockets| ==> r.sockets[s].groupId == w.sockets[s].groupId
                                                && r.sockets[s].listeners == w.sockets[s].listeners by {
      forall s | 0 <= s < |w.sockets|
        ensures r.sockets[s].groupId == w.sockets[s].groupId && r.sockets[s].listeners == w.sockets[s].listeners
      {
        if s in w.groups[g].sockets {
          var k :| 0 <= k < |w.groups[g].sockets| && w.groups[g].sockets[k] == s;
        }
      }
    }
    InvTransfer(w, r);
    r
  }

  /**
   * The body of `UnlockNextGroup` for a dequeued group `g`: unlock it, then start its
   * timing and show its instruction, or throw when there is no time manager.
   */
  function StartGroup(w: World, g: nat, now: int): (r: Outcome)
    requires Inv(w) && w.manager.Some? && g < |w.groups|
    ensures Inv(r.world) && Frame(w, r.world) && GrabStaysOff(w, r.world) && NoCommit(w, r.world)
    ensures r.world.groups == w.groups && TimerLogKept(w, r.world)
    ensures r.world.manager.value.queue == w.manager.value.queue
    ensures forall k :: 0 <= k < |w.groups[g].parts| ==> r.world.parts[w.groups[g].parts[k]].state == Unlocked
    ensures forall k :: 0 <= k < |w.groups[g].sockets| ==> r.world.sockets[w.groups[g].sockets[k]].enabled
    ensures forall i :: 0 <= i < |w.parts| && i !in w.groups[g].parts ==> r.world.parts[i] == w.parts[i]
    ensures w.timer.None? ==> r.threw && r.world.manager == w.manager
    ensures w.timer.Some? ==>
      && !r.threw
      && r.world.timer == Some(Timing.StartTiming(w.timer.value, w.groups[g].groupId, now))
      && r.world.manager.value == UpdateInstructionScreen(w.manager.value, w.groups[g].groupId)
  {
    var w2 := UnlockGroup(w, g);
    if w2.timer.None? then Outcome(w2, true)
    else
      var gid := w2.groups[g].groupId;
      var w3 := w2.(timer := Some(Timing.StartTiming(w2.timer.value, gid, now)),
                    manager := Some(UpdateInstructionScreen(w2.manager.value, gid)));
      InvTransfer(w2, w3);
      FrameTrans(w, w2, w3);
      Outcome(w3, false)
  }

  /**
   * `UnlockNextGroup`: a non-empty queue loses its head whatever follows. A group at the
   * head is unlocked, its timing starts under its id and the screen shows its
   * instruction; a null head unlocks nothing. An empty queue is terminal: nothing is
   * unlocked and the screen is reset to its defaults.
   */
  function UnlockNextGroup(w: World, now: int): (r: Outcome)
    requires Inv(w) && w.manager.Some?
    ensures Inv(r.world) && Frame(w, r.world) && GrabStaysOff(w, r.world) && NoCommit(w, r.world)
    ensures r.world.groups == w.groups && TimerLogKept(w, r.world)
    ensures r.world.manager.value.queue == Rest(w.manager.value.queue)
    ensures var q := w.manager.value.queue;
      |q| == 0 ==> (
        && r.world.parts == w.parts && r.world.sockets == w.sockets && r.world.timer == w.timer
        && (w.manager.value.screen.None? ==> r.threw && r.world == w)
        && (w.manager.value.screen.Some? ==>
              !r.threw && r.world.manager.value.screen == Some(ResetInstructions(w.manager.value.screen.value))))
    ensures var q := w.manager.value.queue;
      |q| > 0 && q[0].None? ==>
        !r.threw && r.world == w.(manager := Some(w.manager.value.(queue := q[1..])))
    ensures var q := w.manager.value.queue;
      |q| > 0 && q[0].Some? ==> (
        var g := q[0].value;
        && (forall k :: 0 <= k < |w.groups[g].parts| ==> r.world.parts[w.groups[g].parts[k]].state == Unlocked)
        && (forall k :: 0 <= k < |w.groups[g].sockets| ==> r.world.sockets[w.groups[g].sockets[k]].enabled)
        && (forall i :: 0 <= i < |w.parts| && i !in w.groups[g].parts ==> r.world.parts[i] == w.parts[i])
        && (w.timer.None? ==> r.threw && r.world.manager.value.screen == w.manager.value.screen)
        && (w.timer.Some? ==> (
              && !r.threw
              && r.world.timer == Some(Timing.StartTiming(w.timer.value, w.groups[g].groupId, now))
              && r.world.manager.value
                 == UpdateInstructionScreen(w.manager.value.(queue := q[1..]), w.groups[g].groupId))))
  {
    var m := w.manager.value;
    if |m.queue| > 0 then
      var w1 := w.(manager := Some(m.(queue := m.queue[1..])));
      InvTransfer(w, w1);
      match m.queue[0]
      case None => Outcome(w1, false)
      case Some(g) =>
        var r := StartGroup(w1, g, now);
        FrameTrans(w, w1, r.world);
        r
    else if m.screen.None? then Outcome(w, true)
    else
      var w1 := w.(manager := Some(m.(screen := Some(ResetInstructions(m.screen.value)))));
      InvTransfer(w, w1);
      Outcome(w1, false)
  }

  /** Part `i` after `UnlockNextGroup`: Unlocked if the head group lists it, otherwise as it was. */
  lemma UnlockNextGroupPart(w: World, now: int, i: nat)
    requires Inv(w) && w.manager.Some? && i < |w.parts|
    ensures var q := w.manager.value.queue;
      var r := UnlockNextGroup(w, now).world;
      if |q| > 0 && q[0].Some? && i in w.groups[q[0].value].parts then r.parts[i].state == Unlocked
      else r.parts[i] == w.parts[i]
  {
    var q := w.manager.value.queue;
    if |q| > 0 && q[0].Some? && i in w.groups[q[0].value].parts {
      var k :| 0 <= k < |w.groups[q[0].value].parts| && w.groups[q[0].value].parts[k] == i;
    }
  }

  /**
   * Where the enqueue loop stops: the index of the first null entry of `order` (the
   * loop queues it, then throws dereferencing it for its log line), or `|order|` when
   * there is none.
   */
  function FirstNull(order: seq<Option<nat>>): (k: nat)
    ensures k <= |order|
    ensures forall i :: 0 <= i < k ==> order[i].Some?
    ensures k < |order| ==> order[k].None?
    decreases |order|
  {
    if |order| == 0 || order[0].None? then 0
    else 1 + FirstNull(order[1..])
  }

  predicate NoNullEntries(order: seq<Option<nat>>)
  {
    forall i :: 0 <= i < |order| ==> order[i].Some?
  }

  /**
   * `InitializeGroupQueue`: enqueues `GroupsOrder` in list order, then unlocks the head.
   * A null entry throws in the loop right after being queued: it and the entries before
   * it stay enqueued and nothing is unlocked.
   */
  function InitializeGroupQueue(w: World, now: int): (r: Outcome)
    requires Inv(w) && w.manager.Some?
    ensures Inv(r.world) && Frame(w, r.world) && GrabStaysOff(w, r.world)
    ensures var m := w.manager.value;
      NoNullEntries(m.groupsOrder) <==> FirstNull(m.groupsOrder) == |m.groupsOrder|
    ensures var m := w.manager.value;
      NoNullEntries(m.groupsOrder) ==> r.world.manager.value.queue == Rest(m.queue + m.groupsOrder)
    ensures var m := w.manager.value;
      !NoNullEntries(m.groupsOrder) ==> (
        && r.threw
        && r.world.parts == w.parts && r.world.sockets == w.sockets && r.world.groups == w.groups
        && r.world.timer == w.timer && r.world.manager.value.screen == m.screen
        && r.world.manager.value.queue == m.queue + m.groupsOrder[..FirstNull(m.groupsOrder) + 1])
    ensures var m := w.manager.value;
      m.queue == [] && |m.groupsOrder| > 0 && NoNullEntries(m.groupsOrder) ==>
        var g := m.groupsOrder[0].value;
        forall k :: 0 <= k < |w.groups[g].parts| ==> r.world.parts[w.groups[g].parts[k]].state == Unlocked
    ensures var m := w.manager.value;
      m.queue == [] && m.groupsOrder == [] ==>
        && r.world.parts == w.parts && r.world.sockets == w.sockets && r.world.timer == w.timer
        && r.threw == m.screen.None?
        && (m.screen.Some? ==> r.world.manager.value.screen == Some(ResetInstructions(m.screen.value)))
  {
    var m := w.manager.value;
    var k := FirstNull(m.groupsOrder);
    var enqueued := if k < |m.groupsOrder| then m.groupsOrder[..k + 1] else m.groupsOrder;
    assert EntriesIn(enqueued, |w.groups|) by {
      forall j | 0 <= j < |enqueued| && enqueued[j].Some? ensures enqueued[j].value < |w.groups| {
        assert enqueued[j] == m.groupsOrder[j];
      }
    }
    EntriesInAppend(m.queue, enqueued, |w.groups|);
    var w1 := w.(manager := Some(m.(queue := m.queue + enqueued)));
    InvTransfer(w, w1);
    if k < |m.groupsOrder| then Outcome(w1, true)
    else
      assert enqueued == m.groupsOrder;
      UnlockNextGroup(w1, now)
  }

  /** `OnGroupAssembled`: the sending group is not examined; the manager simply advances. */
  function OnGroupAssembled(w: World, sender: nat, now: int): (r: Outcome)
    requires Inv(w) && w.manager.Some?
    ensures Inv(r.world) && Frame(w, r.world) && GrabStaysOff(w, r.world) && TimerLogKept(w, r.world) && NoCommit(w, r.world)
    ensures r.world.manager.value.queue == Rest(w.manager.value.queue)
  {
    UnlockNextGroup(w, now)
  }

  /** The notice's argument is never checked: any sender gives the same result. */
  lemma SenderIgnored(w: World, sender: nat, other: nat, now: int)
    requires Inv(w) && w.manager.Some?
    ensures OnGroupAssembled(w, sender, now) == OnGroupAssembled(w, other, now)
    ensures OnGroupAssembled(w, sender, now) == UnlockNextGroup(w, now)
  {
  }

  /**
   * `EngineGroup.OnPartAssembled` for group `g`: the clamped count moves, and a notice
   * reaches the manager (advancing its queue) exactly when the group is then complete.
   * Without a manager in the scene the notice is lost.
   */
  function GroupOnPartAssembled(w: World, g: nat, now: int): (r: Outcome)
    requires Inv(w) && g < |w.groups|
    ensures Inv(r.world) && Frame(w, r.world) && GrabStaysOff(w, r.world) && NoCommit(w, r.world)
    ensures r.world.groups == w.groups[g := Groups.OnPartAssembled(w.groups[g]).group]
    ensures !Groups.OnPartAssembled(w.groups[g]).notify || w.manager.None? ==>
      !r.threw && r.world == w.(groups := r.world.groups)
    ensures Groups.OnPartAssembled(w.groups[g]).notify && w.manager.Some? ==>
      r.world.manager.value.queue == Rest(w.manager.value.queue)
    ensures TimerLogKept(w, r.world)
  {
    var step := Groups.OnPartAssembled(w.groups[g]);
    var w1 := w.(groups := w.groups[g := step.group]);
    InvTransfer(w, w1);
    if step.notify && w1.manager.Some? then OnGroupAssembled(w1, g, now)
    else Outcome(w1, false)
  }

  /** Part `i` after group `g` counts a part: changed only when the notice unlocks a group listing it. */
  lemma GroupOnPartAssembledPart(w: World, g: nat, now: int, i: nat)
    requires Inv(w) && g < |w.groups| && i < |w.parts|
    ensures var r := GroupOnPartAssembled(w, g, now).world;
      if NoticeUnlocks(w, g, i) then r.parts[i].state == Unlocked else r.parts[i] == w.parts[i]
  {
    var step := Groups.OnPartAssembled(w.groups[g]);
    var w1 := w.(groups := w.groups[g := step.group]);
    InvTransfer(w, w1);
    if step.notify && w1.manager.Some? {
      UnlockNextGroupPart(w1, now, i);
    }
  }

  /** The timing stop `SetState(Assembled)` performs when a time manager is present. */
  function StopHook(timer: Option<Timing.Recorder>, p: Parts.Part, now: int): (r: Option<Timing.Recorder>)
    ensures r.Some? == timer.Some?
    ensures timer.Some? ==> r.value == Timing.StopTiming(timer.value, p.groupId, p.partId, now)
  {
    match timer
    case None => None
    case Some(t) => Some(Timing.StopTiming(t, p.groupId, p.partId, now))
  }

  /**
   * `EnginePart.OnPartAssembled` for part `i`. From Locked or Assembled nothing happens.
   * From Unlocked the part becomes Assembled and loses its grab, its timing slice is
   * stopped, and its parent group (if any) counts it exactly once.
   */
  function PartOnPartAssembled(w: World, i: nat, now: int): (r: Outcome)
    requires Inv(w) && i < |w.parts|
    ensures Inv(r.world) && Frame(w, r.world) && GrabStaysOff(w, r.world) && NoCommit(w, r.world)
    ensures w.parts[i].state != Unlocked ==> r == Outcome(w, false)
    ensures w.parts[i].state == Unlocked ==> !r.world.parts[i].grabEnabled
    ensures w.parts[i].state == Unlocked && w.parts[i].parent.None? ==>
      && !r.threw
      && r.world.parts == w.parts[i := Parts.SetState(w.parts[i], Assembled).part]
      && r.world.timer == StopHook(w.timer, w.parts[i], now)
      && r.world.groups == w.groups && r.world.sockets == w.sockets && r.world.manager == w.manager
    ensures w.parts[i].state == Unlocked && w.parts[i].parent.Some? ==>
      var g := w.parts[i].parent.value;
      r.world.groups == w.groups[g := Groups.OnPartAssembled(w.groups[g]).group]
    ensures w.parts[i].state == Unlocked ==>
      && r.world.timer.Some? == w.timer.Some?
      && (w.timer.Some? ==> r.world.timer.value.log == StopHook(w.timer, w.parts[i], now).value.log)
    ensures w.parts[i].state == Unlocked ==>
      if w.parts[i].parent.Some? && NoticeUnlocks(w, w.parts[i].parent.value, i)
      then r.world.parts[i].state == Unlocked
      else r.world.parts[i] == Parts.SetState(w.parts[i], Assembled).part
  {
    if !Parts.OnPartAssembled(w.parts[i]).assembled then Outcome(w, false)
    else
      var w1 := MarkAssembled(w, i, now);
      match w1.parts[i].parent
      case None => Outcome(w1, false)
      case Some(g) =>
        GroupOnPartAssembledPart(w1, g, now, i);
        var r := GroupOnPartAssembled(w1, g, now);
        FrameTrans(w, w1, r.world);
        r
  }

  /** The part's own half of an assembly from Unlocked: the transition and its timing stop. */
  function MarkAssembled(w: World, i: nat, now: int): (r: World)
    requires Inv(w) && i < |w.parts| && w.parts[i].state == Unlocked
    ensures Inv(r) && Frame(w, r) && GrabStaysOff(w, r) && NoCommit(w, r)
    ensures r == w.(parts := r.parts, timer := r.timer)
    ensures r.parts == w.parts[i := Parts.SetState(w.parts[i], Assembled).part]
    ensures r.timer == StopHook(w.timer, w.parts[i], now)
  {
    var a := Parts.OnPartAssembled(w.parts[i]);
    var r := w.(parts := w.parts[i := a.part], timer := StopHook(w.timer, a.part, now));
    InvTransfer(w, r);
    r
  }

  /** What socket `s` sees of the offered object: nothing, or part `i`'s group and `isSelected`. */
  function Offered(w: World, obj: Option<nat>): (c: Sockets.Candidate)
    requires obj.Some? ==> obj.value < |w.parts|
    ensures obj.None? <==> c.NotAPart?
    ensures obj.Some? ==> c == Sockets.PartCandidate(w.parts[obj.value].groupId, w.parts[obj.value].selected)
  {
    match obj
    case None => Sockets.NotAPart
    case Some(i) => Sockets.PartCandidate(w.parts[i].groupId, w.parts[i].selected)
  }

  /**
   * A select-enter on socket `s`. The interaction layer only delivers it to an enabled
   * socket whose `CanSelect` accepted the object; then `OnSelectEntered` runs.
   */
  function SelectEnter(w: World, s: nat, obj: Option<nat>): (r: World)
    requires Inv(w) && s < |w.sockets| && (obj.Some? ==> obj.value < |w.parts|)
    ensures Inv(r) && Frame(w, r) && GrabStaysOff(w, r)
    ensures !w.sockets[s].enabled || !Sockets.CanSelect(w.sockets[s], Offered(w, obj)) ==> r == w
    ensures r == w.(sockets := w.sockets[s := r.sockets[s]])
    ensures w.sockets[s].enabled && Sockets.CanSelect(w.sockets[s], Offered(w, obj)) ==>
      r.sockets[s] == Sockets.OnSelectEntered(w.sockets[s], obj)
  {
    var sock := w.sockets[s];
    if sock.enabled && Sockets.CanSelect(sock, Offered(w, obj)) then
      var r := w.(sockets := w.sockets[s := Sockets.OnSelectEntered(sock, obj)]);
      EnterKeepsInv(w, s, obj, r);
      r
    else w
  }

  lemma EnterKeepsInv(w: World, s: nat, obj: Option<nat>, r: World)
    requires Inv(w) && s < |w.sockets| && (obj.Some? ==> obj.value < |w.parts|)
    requires w.sockets[s].enabled && Sockets.CanSelect(w.sockets[s], Offered(w, obj))
    requires r == w.(sockets := w.sockets[s := Sockets.OnSelectEntered(w.sockets[s], obj)])
    ensures Inv(r)
  {
    forall t | 0 <= t < |r.sockets| ensures SubscribersMatch(r, t) {
      assert SubscribersMatch(w, t);
      forall p | p in r.sockets[t].listeners
        ensures p < |r.parts| && r.parts[p].groupId == r.sockets[t].groupId
      {
        if t == s && obj.Some? && p == obj.value {
          assert w.parts[p].groupId == w.sockets[s].groupId;
        } else if t == s {
          assert r.sockets[t].listeners[p] == w.sockets[t].listeners[p];
          assert p in w.sockets[t].listeners;
        } else {
          assert p in w.sockets[t].listeners;
        }
      }
    }
    forall g | 0 <= g < |r.groups|
      ensures Groups.IndicesIn(r.groups[g].parts, |r.parts|) && Groups.IndicesIn(r.groups[g].sockets, |r.sockets|)
    {
    }
  }

  /** A select-exit on socket `s` at tick `now`: `OnSelectExited` with its debounce. */
  function SelectExit(w: World, s: nat, obj: Option<nat>, now: int): (r: World)
    requires Inv(w) && s < |w.sockets| && (obj.Some? ==> obj.value < |w.parts|)
    ensures Inv(r) && Frame(w, r) && GrabStaysOff(w, r)
    ensures r == w.(sockets := w.sockets[s := Sockets.OnSelectExited(w.sockets[s], obj, now)])
  {
    var r := w.(sockets := w.sockets[s := Sockets.OnSelectExited(w.sockets[s], obj, now)]);
    assert r.sockets[s].listeners <= w.sockets[s].listeners by {
      forall p ensures r.sockets[s].listeners[p] <= w.sockets[s].listeners[p] {
        if obj.None? || p != obj.value {
          assert r.sockets[s].listeners[p] == w.sockets[s].listeners[p];
        }
      }
    }
    InvTransfer(w, r);
    r
  }

  /**
   * The hand releases part `p`, or grabs it (`selected`). A grab interactable whose
   * component is disabled cannot be grabbed.
   */
  function SetSelected(w: World, p: nat, selected: bool): (r: World)
    requires Inv(w) && p < |w.parts|
    ensures |r.parts| == |w.parts| && Inv(r) && GrabStaysOff(w, r)
    ensures selected && !w.parts[p].grabEnabled ==> r == w
    ensures !selected || w.parts[p].grabEnabled ==> r.parts[p].selected == selected
    ensures r == w.(parts := w.parts[p := r.parts[p]])
    ensures r.parts[p] == w.parts[p].(selected := r.parts[p].selected)
  {
    if selected && !w.parts[p].grabEnabled then w
    else
      var r := w.(parts := w.parts[p := w.parts[p].(selected := selected)]);
      InvTransfer(w, r);
      r
  }

  /** The tail of `OnGrabReleased`: disable the part's grab, then close the socket. */
  function CloseSocket(w: World, s: nat, p: nat): (r: World)
    requires Inv(w) && s < |w.sockets| && p < |w.parts|
    ensures Inv(r) && Frame(w, r) && GrabStaysOff(w, r)
    ensures r.sockets[s] == Sockets.Commit(w.sockets[s])
    ensures r.parts[p] == w.parts[p].(grabEnabled := false)
    ensures forall i :: 0 <= i < |w.parts| && i != p ==> r.parts[i] == w.parts[i]
    ensures forall t :: 0 <= t < |w.sockets| && t != s ==> r.sockets[t] == w.sockets[t]
    ensures r.groups == w.groups && r.manager == w.manager && r.timer == w.timer
  {
    var r := w.(parts := w.parts[p := w.parts[p].(grabEnabled := false)],
                sockets := w.sockets[s := Sockets.Commit(w.sockets[s])]);
    InvTransfer(w, r);
    r
  }

  /**
   * Socket `s`'s release listener fires for part `p` (it does so only while subscribed).
   * With the socket still open the part is assembled, then its grab is disabled and the
   * socket closed ("AssembledSocket", `isPartAssembled`), even when the part's own guard
   * refused the transition. If the assembly chain threw, the socket stays open.
   */
  function GrabReleased(w: World, s: nat, p: nat, now: int): (r: Outcome)
    requires Inv(w) && s < |w.sockets| && p < |w.parts|
    ensures Inv(r.world) && Frame(w, r.world) && GrabStaysOff(w, r.world)
    ensures p !in w.sockets[s].listeners || w.sockets[s].assembled ==> r == Outcome(w, false)
    ensures p in w.sockets[s].listeners && !w.sockets[s].assembled ==>
      && w.parts[p].groupId == w.sockets[s].groupId
      && (w.parts[p].state != Unlocked ==> !r.threw)
      && (!r.threw ==> r.world.sockets[s].assembled && r.world.sockets[s].layer.Name() == "AssembledSocket"
                       && !r.world.parts[p].grabEnabled)
      && (r.threw ==> !r.world.sockets[s].assembled)
    ensures p in w.sockets[s].listeners && !w.sockets[s].assembled && w.parts[p].state == Unlocked ==>
      && r.world.timer.Some? == w.timer.Some?
      && (w.timer.Some? ==> r.world.timer.value.log == StopHook(w.timer, w.parts[p], now).value.log)
      && (if w.parts[p].parent.Some? && NoticeUnlocks(w, w.parts[p].parent.value, p)
          then r.world.parts[p].state == Unlocked
          else r.world.parts[p] == Parts.SetState(w.parts[p], Assembled).part)
  {
    if p !in w.sockets[s].listeners || w.sockets[s].assembled then Outcome(w, false)
    else
      assert SubscribersMatch(w, s);
      var o := PartOnPartAssembled(w, p, now);
      if o.threw then o
      else
        AssembledThenClosed(w, s, p, o.world);
        Outcome(CloseSocket(o.world, s, p), false)
  }

  /** Closing the socket after the part's assembly keeps what the assembly did to the part and the timing. */
  lemma AssembledThenClosed(w: World, s: nat, p: nat, w1: World)
    requires Inv(w) && s < |w.sockets| && p < |w.parts|
    requires Inv(w1) && Frame(w, w1) && GrabStaysOff(w, w1)
    ensures var w2 := CloseSocket(w1, s, p);
      && Frame(w, w2) && GrabStaysOff(w, w2)
      && w2.parts[p].state == w1.parts[p].state
      && (!w1.parts[p].grabEnabled ==> w2.parts[p] == w1.parts[p])
      && w2.timer == w1.timer
  {
    FrameTrans(w, w1, CloseSocket(w1, s, p));
  }
}
