/**
 * One assembly socket (`EngineSocket`): the pure acceptance test, the enter/exit
 * handlers that arm and disarm the release listener (with the exit debounce), and the
 * commit-once flag set when a released part is fixed in place.
 *
 * Time is an integer number of ticks of 0.1 s, so the 0.5 s cooldown is 5 ticks and the
 * initial `lastExitTime` of -1 s is -10 ticks.
 */
module Sockets {
  import opened Common
  import opened Layers

  const ExitCooldown: nat := 5
  const InitialLastExit: int := -10

  /**
   * `enabled` and `layer` model the XRSocketInteractor's `enabled` flag and interaction
   * layers; `assembled` is `isPartAssembled`. `listeners` counts, per part index, how
   * many times this socket's `OnGrabReleased` is subscribed to that part's grab
   * interactable `selectExited` event.
   */
  datatype Socket = Socket(
    groupId: string,
    enabled: bool,
    layer: Layer,
    assembled: bool,
    lastExit: int,
    listeners: multiset<nat>)

  /** A socket as placed in the scene, before any event reached it. */
  function Fresh(groupId: string, enabled: bool, layer: Layer): (s: Socket)
    ensures !s.assembled && s.lastExit == InitialLastExit && s.listeners == multiset{}
  {
    Socket(groupId, enabled, layer, false, InitialLastExit, multiset{})
  }

  /** What the socket sees of the object offered to it: not a part, or a part's group and `isSelected`. */
  datatype Candidate = NotAPart | PartCandidate(groupId: string, selected: bool)

  /** Whether the socket may select the offered object; it reads the socket and changes nothing. */
  function CanSelect(s: Socket, c: Candidate): (r: bool)
    ensures r ==> !s.assembled
    ensures c.NotAPart? ==> !r
    ensures c.PartCandidate? && c.groupId != s.groupId ==> !r
    ensures c.PartCandidate? && c.groupId == s.groupId && !s.assembled ==> (r <==> !c.selected)
  {
    if s.assembled then false
    else match c
      case NotAPart => false
      case PartCandidate(g, selected) => g == s.groupId && !selected
  }

  /** A part entering the socket subscribes the release listener exactly once (remove, then add). */
  function OnSelectEntered(s: Socket, part: Option<nat>): (r: Socket)
    ensures s.assembled || part.None? ==> r == s
    ensures !s.assembled && part.Some? ==> r.listeners[part.value] == 1
    ensures forall q :: (part.None? || q != part.value) ==> r.listeners[q] == s.listeners[q]
    ensures r.(listeners := s.listeners) == s
  {
    if s.assembled then s
    else match part
      case None => s
      case Some(i) => s.(listeners := s.listeners[i := 0] + multiset{i})
  }

  /** Whether an exit at `now` falls outside the cooldown after the last processed exit. */
  predicate ExitProcessed(s: Socket, now: int)
  {
    !s.assembled && now - s.lastExit >= ExitCooldown
  }

  /** A new socket's first exit, at any time from the start of the scene on, is processed. */
  lemma FirstExitProcessed(groupId: string, enabled: bool, layer: Layer, now: int)
    requires 0 <= now
    ensures ExitProcessed(Fresh(groupId, enabled, layer), now)
  {
  }

  /**
   * An exit inside the cooldown window is ignored. A processed exit stamps `lastExit`
   * (even for an object that is not a part) and unsubscribes the part's release listener.
   */
  function OnSelectExited(s: Socket, part: Option<nat>, now: int): (r: Socket)
    ensures !ExitProcessed(s, now) ==> r == s
    ensures ExitProcessed(s, now) ==> r.lastExit == now
    ensures ExitProcessed(s, now) && part.Some? ==> r.listeners[part.value] == 0
    ensures forall q :: (part.None? || q != part.value) ==> r.listeners[q] == s.listeners[q]
    ensures r.(lastExit := s.lastExit, listeners := s.listeners) == s
  {
    if s.assembled then s
    else if now - s.lastExit < ExitCooldown then s
    else
      var s1 := s.(lastExit := now);
      match part
      case None => s1
      case Some(i) => s1.(listeners := s1.listeners[i := 0])
  }

  /** The socket's side of a successful release: tag "AssembledSocket" and set `isPartAssembled`. */
  function Commit(s: Socket): (r: Socket)
    ensures r.assembled && r.layer.Name() == "AssembledSocket"
    ensures r.(assembled := s.assembled, layer := s.layer) == s
  {
    s.(layer := AssembledSocketLayer, assembled := true)
  }

  /** Once assembled, the socket selects nothing and its enter/exit handlers change nothing. */
  lemma ClosedSocketIsInert(s: Socket, c: Candidate, part: Option<nat>, now: int)
    requires s.assembled
    ensures !CanSelect(s, c)
    ensures OnSelectEntered(s, part) == s
    ensures OnSelectExited(s, part, now) == s
    ensures Commit(s).assembled
  {
  }

  /**
   * Debounce: exits of the same part at 0.1 s and 0.3 s reach a fresh socket; the first
   * is processed and disarms the listener, the second falls inside the window and is ignored.
   */
  lemma DebounceIgnoresRapidExit(groupId: string, part: nat)
    ensures var s0 := OnSelectEntered(Fresh(groupId, true, UnlockedLayer), Some(part));
            var s1 := OnSelectExited(s0, Some(part), 1);
            var s2 := OnSelectExited(s1, Some(part), 3);
            && s0.listeners[part] == 1
            && ExitProcessed(s0, 1) && s1.lastExit == 1 && s1.listeners[part] == 0
            && !ExitProcessed(s1, 3) && s2 == s1
  {
  }

  /** An exit ignored by the debounce keeps the release listener armed. */
  lemma IgnoredExitKeepsListener(s: Socket, part: nat, now: int)
    requires !s.assembled && now - s.lastExit < ExitCooldown
    ensures OnSelectExited(s, Some(part), now).listeners[part] == s.listeners[part]
    ensures OnSelectExited(s, Some(part), now).lastExit == s.lastExit
  {
  }
}
