/**
 * Worked scenarios over the concrete scenes: a two-group assembly from start to the
 * terminal state, and the timing of two stops in the same tick.
 */
module Scenarios {
  import opened Common
  import opened States
  import opened Layers
  import opened Assembly
  import Parts
  import Sockets
  import Groups
  import Timing
  import opened Scenes

  lemma SceneAInv()
    ensures Inv(SceneA())
  {
    var w := SceneA();
    forall s | 0 <= s < |w.sockets| ensures SubscribersMatch(w, s) {
      assert w.sockets[s].listeners == multiset{};
    }
  }

  lemma A1Inv()
    ensures Inv(A1())
  {
    var w := A1();
    forall s | 0 <= s < |w.sockets| ensures SubscribersMatch(w, s) {
      assert w.sockets[s].listeners == multiset{};
    }
  }

  /** Entering an open, silent socket subscribes exactly that part's release. */
  lemma EnterOpenSocket(groupId: string, i: nat)
    ensures Sockets.OnSelectEntered(OpenSocket(groupId, multiset{}), Some(i)) == OpenSocket(groupId, multiset{i})
  {
    var m: multiset<nat> := multiset{};
    assert m[i := 0] + multiset{i} == multiset{i};
  }

  /** A part in Unlocked assembles into the same part in Assembled, losing its grab. */
  lemma AssembleUnlocked(groupId: string, partId: string, parent: nat)
    ensures Parts.OnPartAssembled(PartIn(groupId, partId, Unlocked, parent))
         == Parts.Assembly(PartIn(groupId, partId, Assembled, parent), true)
  {
  }

  lemma D1Inv()
    ensures Inv(D1())
  {
    SceneAInv();
    InvTransfer(SceneA(), D1());
  }

  lemma G1Parts()
    ensures Groups.UnlockParts(D1().parts, [0, 1]) == A1().parts
  {
    var r := Groups.UnlockParts(D1().parts, [0, 1]);
    assert r[0] == A1().parts[0] && r[1] == A1().parts[1] && r[2] == A1().parts[2];
  }

  lemma G1Sockets()
    ensures Groups.EnableSockets(D1().sockets, [0, 1]) == A1().sockets
  {
    var r := Groups.EnableSockets(D1().sockets, [0, 1]);
    assert r[0] == A1().sockets[0] && r[1] == A1().sockets[1] && r[2] == A1().sockets[2];
  }

  lemma UnlockG1()
    ensures Inv(D1()) && UnlockGroup(D1(), 0) == D1().(parts := A1().parts, sockets := A1().sockets)
  {
    D1Inv();
    G1Parts();
    G1Sockets();
  }

  lemma ScreenForG1()
    ensures UpdateInstructionScreen(D1().manager.value, "G1") == A1().manager.value
  {
    assert "G1" !in map["G2" := HeadInstruction];
  }

  lemma EnqueueOrder()
    ensures Inv(SceneA()) && Inv(D0())
    ensures InitializeGroupQueue(SceneA(), 0) == UnlockNextGroup(D0(), 0)
  {
    SceneAInv();
    InvTransfer(SceneA(), D0());
    var m := SceneA().manager.value;
    assert NoNullEntries(m.groupsOrder);
    assert m.queue + m.groupsOrder == [Some(0), Some(1)];
    assert SceneA().(manager := Some(m.(queue := m.queue + m.groupsOrder))) == D0();
  }

  lemma DequeueG1()
    ensures Inv(D0()) && UnlockNextGroup(D0(), 0) == Outcome(A1(), false)
  {
    EnqueueOrder();
    UnlockG1();
    ScreenForG1();
    var q := D0().manager.value.queue;
    assert q[1..] == [Some(1)];
    assert D0().(manager := Some(D0().manager.value.(queue := q[1..]))) == D1();
    assert Timing.StartTiming(Timing.Empty(), "G1", 0) == A1().timer.value;
  }

  lemma StartUnlocksG1()
    ensures Inv(SceneA()) && InitializeGroupQueue(SceneA(), 0) == Outcome(A1(), false)
  {
    EnqueueOrder();
    DequeueG1();
  }

  lemma A2Inv()
    ensures Inv(A2())
  {
    EnterP1();
  }

  lemma A3Inv()
    ensures Inv(A3())
  {
    ReleaseP1();
  }

  lemma A4Inv()
    ensures Inv(A4())
  {
    EnterP2();
  }

  lemma A5Inv()
    ensures Inv(A5())
  {
    ReleaseP2();
  }

  lemma A6Inv()
    ensures Inv(A6())
  {
    EnterP3();
  }

  lemma EnterP1()
    ensures Inv(A1()) && SelectEnter(A1(), 0, Some(0)) == A2()
  {
    A1Inv();
    EnterOpenSocket("G1", 0);
  }

  /** An assembly from Unlocked is the part's own half followed by its group's count. */
  lemma AssemblyThroughGroup(w: World, i: nat, now: int, g: nat, w1: World)
    requires Inv(w) && i < |w.parts| && w.parts[i].state == Unlocked && w.parts[i].parent == Some(g)
    requires MarkAssembled(w, i, now) == w1
    ensures Inv(w1) && g < |w1.groups|
    ensures PartOnPartAssembled(w, i, now) == GroupOnPartAssembled(w1, g, now)
  {
  }

  /** The scene after P1's own half of its assembly: Assembled, its slice logged. */
  function M3(): World
  {
    B3().(groups := GroupsA(0, 0))
  }

  lemma MarkP1()
    ensures Inv(A2()) && MarkAssembled(A2(), 0, 10) == M3()
  {
    A2Inv();
    AssembleUnlocked("G1", "P1", 0);
    assert Timing.StopTiming(A2().timer.value, "G1", "P1", 10) == A3().timer.value;
    assert A2().parts[0 := PartIn("G1", "P1", Assembled, 0)] == M3().parts;
  }

  lemma CountP1()
    ensures Inv(M3()) && GroupOnPartAssembled(M3(), 0, 10) == Outcome(B3(), false)
  {
    MarkP1();
    assert Groups.OnPartAssembled(GroupsA(0, 0)[0]) == Groups.Step(GroupsA(1, 0)[0], false);
    assert M3().(groups := M3().groups[0 := GroupsA(1, 0)[0]]) == B3();
  }

  lemma AssembleP1()
    ensures Inv(A2()) && PartOnPartAssembled(A2(), 0, 10) == Outcome(B3(), false)
  {
    MarkP1();
    AssemblyThroughGroup(A2(), 0, 10, 0, M3());
    CountP1();
  }

  /** A release on an open, subscribed socket whose assembly chain did not throw ends by closing it. */
  lemma ReleaseCloses(w: World, s: nat, p: nat, now: int, w1: World)
    requires Inv(w) && s < |w.sockets| && p < |w.parts|
    requires p in w.sockets[s].listeners && !w.sockets[s].assembled
    requires PartOnPartAssembled(w, p, now) == Outcome(w1, false)
    ensures Inv(w1) && s < |w1.sockets| && p < |w1.parts|
    ensures GrabReleased(w, s, p, now) == Outcome(CloseSocket(w1, s, p), false)
  {
  }

  lemma B3Inv()
    ensures Inv(B3())
  {
    A2Inv();
    InvTransfer(A2(), B3());
  }

  lemma CloseP1()
    ensures Inv(B3()) && CloseSocket(B3(), 0, 0) == A3()
  {
    B3Inv();
    CommitOpenSocket("G1", 0);
    assert B3().parts[0 := B3().parts[0].(grabEnabled := false)] == A3().parts;
  }

  lemma ReleaseP1()
    ensures Inv(A2()) && GrabReleased(A2(), 0, 0, 10) == Outcome(A3(), false)
  {
    AssembleP1();
    assert 0 in A2().sockets[0].listeners;
    ReleaseCloses(A2(), 0, 0, 10, B3());
    CloseP1();
  }

  lemma EnterP2()
    ensures Inv(A3()) && SelectEnter(A3(), 1, Some(1)) == A4()
  {
    A3Inv();
    EnterOpenSocket("G1", 1);
  }

  lemma C5Inv()
    ensures Inv(C5()) && Inv(E5())
  {
    A4Inv();
    InvTransfer(A4(), C5());
    InvTransfer(C5(), E5());
  }

  lemma UnlockG2Arena()
    ensures Inv(E5()) && UnlockGroup(E5(), 1) == E5().(parts := B5().parts, sockets := B5().sockets)
  {
    C5Inv();
    var r := UnlockGroup(E5(), 1);
    assert r.parts == B5().parts;
    assert r.sockets == B5().sockets;
  }

  lemma ScreenForG2()
    ensures UpdateInstructionScreen(E5().manager.value, "G2") == B5().manager.value
  {
  }

  lemma UnlockG2()
    ensures Inv(C5()) && UnlockNextGroup(C5(), 20) == Outcome(B5(), false)
  {
    C5Inv();
    UnlockG2Arena();
    ScreenForG2();
    assert C5().(manager := Some(C5().manager.value.(queue := []))) == E5();
    assert Timing.StartTiming(C5().timer.value, "G2", 20) == B5().timer.value;
  }

  lemma CountP2()
    ensures Inv(F5()) && GroupOnPartAssembled(F5(), 0, 20) == Outcome(B5(), false)
  {
    F5Inv();
    NoticeG1();
    G1Completes();
  }

  lemma F5Inv()
    ensures Inv(F5())
  {
    C5Inv();
    InvTransfer(C5(), F5());
  }

  lemma G1Completes()
    ensures Groups.OnPartAssembled(F5().groups[0]) == Groups.Step(C5().groups[0], true)
    ensures F5().(groups := F5().groups[0 := C5().groups[0]]) == C5()
  {
  }

  lemma NoticeG1()
    ensures Inv(C5()) && OnGroupAssembled(C5(), 0, 20) == Outcome(B5(), false)
  {
    UnlockG2();
  }

  lemma StampP2()
    ensures A4().(parts := A4().parts[1 := PartIn("G1", "P2", Assembled, 0)],
                  timer := Some(Timing.StopTiming(A4().timer.value, "G1", "P2", 20))) == F5()
  {
    assert Timing.StopTiming(A4().timer.value, "G1", "P2", 20) == C5().timer.value;
    assert A4().parts[1 := PartIn("G1", "P2", Assembled, 0)] == F5().parts;
  }

  lemma MarkP2()
    ensures Inv(A4()) && MarkAssembled(A4(), 1, 20) == F5()
  {
    A4Inv();
    AssembleUnlocked("G1", "P2", 0);
    StampP2();
  }

  lemma AssembleP2()
    ensures Inv(A4()) && PartOnPartAssembled(A4(), 1, 20) == Outcome(B5(), false)
  {
    MarkP2();
    AssemblyThroughGroup(A4(), 1, 20, 0, F5());
    CountP2();
  }

  /** Committing an open socket that listens for part `i` closes it, the subscription kept. */
  lemma CommitOpenSocket(groupId: string, i: nat)
    ensures Sockets.Commit(OpenSocket(groupId, multiset{i})) == ClosedSocket(groupId, i)
  {
  }

  lemma B5Inv()
    ensures Inv(B5())
  {
    UnlockG2();
  }

  lemma CloseP2()
    ensures Inv(B5()) && CloseSocket(B5(), 1, 1) == A5()
  {
    B5Inv();
    CommitOpenSocket("G1", 1);
    assert B5().parts[1 := B5().parts[1].(grabEnabled := false)] == A5().parts;
  }

  lemma ReleaseP2()
    ensures Inv(A4()) && GrabReleased(A4(), 1, 1, 20) == Outcome(A5(), false)
  {
    AssembleP2();
    assert 1 in A4().sockets[1].listeners;
    ReleaseCloses(A4(), 1, 1, 20, B5());
    CloseP2();
  }

  lemma EnterP3()
    ensures Inv(A5()) && SelectEnter(A5(), 2, Some(2)) == A6()
  {
    A5Inv();
    EnterOpenSocket("G2", 2);
  }

  lemma C7Inv()
    ensures Inv(C7()) && Inv(F7())
  {
    A6Inv();
    InvTransfer(A6(), C7());
    InvTransfer(A6(), F7());
  }

  lemma QueueExhausted()
    ensures Inv(C7()) && UnlockNextGroup(C7(), 35) == Outcome(B7(), false)
  {
    C7Inv();
  }

  lemma CountP3()
    ensures Inv(F7()) && GroupOnPartAssembled(F7(), 1, 35) == Outcome(B7(), false)
  {
    C7Inv();
    QueueExhausted();
    assert Groups.OnPartAssembled(GroupsA(2, 0)[1]) == Groups.Step(GroupsA(2, 1)[1], true);
    assert F7().(groups := F7().groups[1 := GroupsA(2, 1)[1]]) == C7();
  }

  lemma StampP3()
    ensures A6().(parts := A6().parts[2 := PartIn("G2", "P3", Assembled, 1)],
                  timer := Some(Timing.StopTiming(A6().timer.value, "G2", "P3", 35))) == F7()
  {
    assert Timing.StopTiming(A6().timer.value, "G2", "P3", 35) == A7().timer.value;
    assert A6().parts[2 := PartIn("G2", "P3", Assembled, 1)] == F7().parts;
  }

  lemma MarkP3()
    ensures Inv(A6()) && MarkAssembled(A6(), 2, 35) == F7()
  {
    A6Inv();
    AssembleUnlocked("G2", "P3", 1);
    StampP3();
  }

  lemma AssembleP3()
    ensures Inv(A6()) && PartOnPartAssembled(A6(), 2, 35) == Outcome(B7(), false)
  {
    MarkP3();
    AssemblyThroughGroup(A6(), 2, 35, 1, F7());
    CountP3();
  }

  lemma B7Inv()
    ensures Inv(B7())
  {
    QueueExhausted();
  }

  lemma CloseP3()
    ensures Inv(B7()) && CloseSocket(B7(), 2, 2) == A7()
  {
    B7Inv();
    CommitOpenSocket("G2", 2);
    assert B7().parts[2 := B7().parts[2].(grabEnabled := false)] == A7().parts;
  }

  lemma ReleaseP3()
    ensures Inv(A6()) && GrabReleased(A6(), 2, 2, 35) == Outcome(A7(), false)
  {
    AssembleP3();
    assert 2 in A6().sockets[2].listeners;
    ReleaseCloses(A6(), 2, 2, 35, B7());
    CloseP3();
  }

  /**
   * The two-group scenario, event by event: start, then each part entered into its
   * socket and released there, in group order. Assembling the first G1 part leaves G2
   * locked (A3); assembling the second unlocks G2 and empties the queue (A5); assembling
   * G2's part reaches the terminal state with the screen reset (A7), and the log then
   * holds one slice per part.
   */
  lemma ScenarioA()
    ensures Inv(SceneA()) && InitializeGroupQueue(SceneA(), 0) == Outcome(A1(), false)
    ensures Inv(A1()) && GrabReleased(SelectEnter(A1(), 0, Some(0)), 0, 0, 10) == Outcome(A3(), false)
    ensures Inv(A3()) && GrabReleased(SelectEnter(A3(), 1, Some(1)), 1, 1, 20) == Outcome(A5(), false)
    ensures Inv(A5()) && GrabReleased(SelectEnter(A5(), 2, Some(2)), 2, 2, 35) == Outcome(A7(), false)
  {
    StartUnlocksG1();
    EnterP1();
    ReleaseP1();
    EnterP2();
    ReleaseP2();
    EnterP3();
    ReleaseP3();
  }

  /**
   * Two stops of the same group in the same tick as its start: the elapsed time is zero,
   * so neither writes a record; the start stays stamped at that tick.
   */
  lemma ZeroElapsedStopsRecordNothing(r: Timing.Recorder, g: string, p: string, t: int)
    ensures var r1 := Timing.StopTiming(Timing.StartTiming(r, g, t), g, p, t);
            var r2 := Timing.StopTiming(r1, g, p, t);
            r2.log == r.log && r2.start[g] == t
  {
  }
}
