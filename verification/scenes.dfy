/**
 * Concrete scenes for the worked scenario: a two-group assembly, the scene after each
 * event, and the intermediate scenes an event passes through.
 */
module Scenes {
  import opened Common
  import opened States
  import opened Layers
  import opened Assembly
  import Parts
  import Sockets
  import Groups
  import Timing
  import Instructions

  /** A part of the scenes below in state `st`, tagged and grabbable as that state leaves it. */
  function PartIn(groupId: string, partId: string, st: AssemblyState, parent: nat): Parts.Part
  {
    var layer := match st
      case Locked => LockedPartLayer
      case Unlocked => UnlockedLayer
      case Assembled => AssembledPartLayer;
    Parts.Part(groupId, partId, st, layer, st != Assembled, false, Some(parent))
  }

  function OpenSocket(groupId: string, listeners: multiset<nat>): Sockets.Socket
  {
    Sockets.Socket(groupId, true, UnlockedLayer, false, Sockets.InitialLastExit, listeners)
  }

  function ClosedSocket(groupId: string, listener: nat): Sockets.Socket
  {
    Sockets.Socket(groupId, true, AssembledSocketLayer, true, Sockets.InitialLastExit, multiset{listener})
  }

  const LockedSocketA: Sockets.Socket := Sockets.Fresh("G2", false, LockedSocketLayer)

  const Defaults: Screen := Screen("Done", "Engine assembled", "Done", "Engine assembled")
  const HeadInstruction: Instructions.GroupInstruction := Instructions.GroupInstruction("G2", "Head", "Fit the head")

  function ManagerA(queue: seq<Option<nat>>, screen: Screen): Manager
  {
    Manager([Some(0), Some(1)], queue, Some(screen), Some(map["G2" := HeadInstruction]))
  }

  function GroupsA(c1: nat, c2: nat): seq<Groups.Group>
  {
    [Groups.Group("G1", [0, 1], [0, 1], c1), Groups.Group("G2", [2], [2], c2)]
  }

  /**
   * Group G1 owns parts P1, P2 and sockets 0, 1; group G2 owns part P3 and socket 2.
   * GroupsOrder is [G1, G2]; only G2 has an instruction; a time manager is present.
   */
  function SceneA(): World
  {
    World(
      [PartIn("G1", "P1", Locked, 0), PartIn("G1", "P2", Locked, 0), PartIn("G2", "P3", Locked, 1)],
      [Sockets.Fresh("G1", false, LockedSocketLayer), Sockets.Fresh("G1", false, LockedSocketLayer), LockedSocketA],
      GroupsA(0, 0),
      Some(Manager([Some(0), Some(1)], [], Some(Screen("", "", "Done", "Engine assembled")),
                   Some(map["G2" := HeadInstruction]))),
      Some(Timing.Empty()))
  }

  /** After start: G1 unlocked, its timing started at tick 0, its (missing) instruction shows the defaults. */
  function A1(): World
  {
    World(
      [PartIn("G1", "P1", Unlocked, 0), PartIn("G1", "P2", Unlocked, 0), PartIn("G2", "P3", Locked, 1)],
      [OpenSocket("G1", multiset{}), OpenSocket("G1", multiset{}), LockedSocketA],
      GroupsA(0, 0), Some(ManagerA([Some(1)], Defaults)),
      Some(Timing.Recorder(map["G1" := 0], [])))
  }

  /** P1 entered socket 0, which now listens for its release. */
  function A2(): World
  {
    A1().(sockets := [OpenSocket("G1", multiset{0}), OpenSocket("G1", multiset{}), LockedSocketA])
  }

  /** P1 released at tick 10: assembled, counted, one slice logged, socket 0 closed. */
  function A3(): World
  {
    World(
      [PartIn("G1", "P1", Assembled, 0), PartIn("G1", "P2", Unlocked, 0), PartIn("G2", "P3", Locked, 1)],
      [ClosedSocket("G1", 0), OpenSocket("G1", multiset{}), LockedSocketA],
      GroupsA(1, 0), Some(ManagerA([Some(1)], Defaults)),
      Some(Timing.Recorder(map["G1" := 10], [Timing.Entry("G1", "P1", 10)])))
  }

  function A4(): World
  {
    A3().(sockets := [ClosedSocket("G1", 0), OpenSocket("G1", multiset{1}), LockedSocketA])
  }

  /** P2 released at tick 20: G1 complete, so G2 is unlocked, timed from 20 and its instruction shown. */
  function A5(): World
  {
    World(
      [PartIn("G1", "P1", Assembled, 0), PartIn("G1", "P2", Assembled, 0), PartIn("G2", "P3", Unlocked, 1)],
      [ClosedSocket("G1", 0), ClosedSocket("G1", 1), OpenSocket("G2", multiset{})],
      GroupsA(2, 0), Some(ManagerA([], Screen("Head", "Fit the head", "Done", "Engine assembled"))),
      Some(Timing.Recorder(map["G1" := 20, "G2" := 20],
                           [Timing.Entry("G1", "P1", 10), Timing.Entry("G1", "P2", 10)])))
  }

  function A6(): World
  {
    A5().(sockets := [ClosedSocket("G1", 0), ClosedSocket("G1", 1), OpenSocket("G2", multiset{2})])
  }

  /** P3 released at tick 35: the queue is exhausted, so the screen is reset to its defaults. */
  function A7(): World
  {
    World(
      [PartIn("G1", "P1", Assembled, 0), PartIn("G1", "P2", Assembled, 0), PartIn("G2", "P3", Assembled, 1)],
      [ClosedSocket("G1", 0), ClosedSocket("G1", 1), ClosedSocket("G2", 2)],
      GroupsA(2, 1), Some(ManagerA([], Defaults)),
      Some(Timing.Recorder(map["G1" := 20, "G2" := 35],
                           [Timing.Entry("G1", "P1", 10), Timing.Entry("G1", "P2", 10), Timing.Entry("G2", "P3", 15)])))
  }

  /** SceneA with GroupsOrder enqueued. */
  function D0(): World
  {
    SceneA().(manager := Some(ManagerA([Some(0), Some(1)], Screen("", "", "Done", "Engine assembled"))))
  }

  /** SceneA with GroupsOrder enqueued and the head (G1) taken off. */
  function D1(): World
  {
    SceneA().(manager := Some(ManagerA([Some(1)], Screen("", "", "Done", "Engine assembled"))))
  }

  /** A3 before socket 0 closes. */
  function B3(): World
  {
    A3().(sockets := A2().sockets)
  }

  /** A4 once P2 is assembled and counted, before G1's notice is handled. */
  function C5(): World
  {
    A4().(parts := A5().parts[2 := PartIn("G2", "P3", Locked, 1)],
          groups := GroupsA(2, 0),
          timer := Some(Timing.Recorder(map["G1" := 20], A5().timer.value.log)))
  }

  /** A4 once P2 is assembled, before G1 counts it. */
  function F5(): World
  {
    C5().(groups := GroupsA(1, 0))
  }

  /** C5 with G2 taken off the queue. */
  function E5(): World
  {
    C5().(manager := Some(ManagerA([], Defaults)))
  }

  /** A5 before socket 1 closes. */
  function B5(): World
  {
    A5().(sockets := [ClosedSocket("G1", 0), OpenSocket("G1", multiset{1}), OpenSocket("G2", multiset{})])
  }

  /** A6 once P3 is assembled and counted, before G2's notice is handled. */
  function C7(): World
  {
    A6().(parts := A7().parts, groups := GroupsA(2, 1), timer := A7().timer)
  }

  /** A6 once P3 is assembled, before G2 counts it. */
  function F7(): World
  {
    C7().(groups := GroupsA(2, 0))
  }

  /** A7 before socket 2 closes. */
  function B7(): World
  {
    A7().(sockets := A6().sockets)
  }
}
