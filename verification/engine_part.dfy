/**
 * One engine part (`EnginePart`): its lifecycle state, the interaction tag and grab
 * affordance that follow the state, and the follow-up effects a transition asks of
 * its collaborators (stopping the timer, notifying the parent group).
 */
module Parts {
  import opened Common
  import opened States
  import opened Layers

  /**
   * `layer` and `grabEnabled` model the part's XRGrabInteractable (its interaction
   * layers and `enabled` flag); `selected` is that interactable's `isSelected`.
   * `parent` is the index of the EngineGroup found above the part, if any.
   */
  datatype Part = Part(
    groupId: string,
    partId: string,
    state: AssemblyState,
    layer: Layer,
    grabEnabled: bool,
    selected: bool,
    parent: Option<nat>)

  /** The fields a state change never touches. */
  predicate SameIdentity(p: Part, q: Part)
  {
    p.groupId == q.groupId && p.partId == q.partId && p.parent == q.parent
  }

  /**
   * The result of `SetState`: the updated part and whether the transition calls
   * `StopPartTiming(groupId, partId)` on the time manager (when one is present).
   */
  datatype Transition = Transition(part: Part, stopsTiming: bool)

  /** Assigns the requested state unconditionally and retags the grab interactable. */
  function SetState(p: Part, s: AssemblyState): (r: Transition)
    ensures r.part.state == s
    ensures SameIdentity(p, r.part) && r.part.selected == p.selected
    ensures s == Locked ==> r.part.layer.Name() == "LockedPart" && r.part.grabEnabled == p.grabEnabled
    ensures s == Unlocked ==> r.part.layer.Name() == "Unlocked" && r.part.grabEnabled == p.grabEnabled
    ensures s == Assembled ==> r.part.layer.Name() == "AssembledPart" && !r.part.grabEnabled
    ensures r.stopsTiming <==> s == Assembled
  {
    match s
    case Locked => Transition(p.(state := s, layer := LockedPartLayer), false)
    case Unlocked => Transition(p.(state := s, layer := UnlockedLayer), false)
    case Assembled => Transition(p.(state := s, layer := AssembledPartLayer, grabEnabled := false), true)
  }

  /** Setting the same state twice is the same as setting it once (used when a part is listed twice). */
  lemma SetStateTwice(p: Part, s: AssemblyState)
    ensures SetState(SetState(p, s).part, s).part == SetState(p, s).part
  {
  }

  /**
   * The result of `OnPartAssembled`: the updated part and whether the guarded
   * transition happened. When it did, the caller stops the part's timing and
   * notifies `part.parent` once, if there is a parent.
   */
  datatype Assembly = Assembly(part: Part, assembled: bool)

  /** Acts only from Unlocked: then the part becomes Assembled; otherwise nothing changes. */
  function OnPartAssembled(p: Part): (r: Assembly)
    ensures r.assembled <==> ReadyForAssembly(p.state)
    ensures r.assembled ==> r.part == SetState(p, Assembled).part
    ensures r.assembled ==> r.part.state == Assembled && !r.part.grabEnabled && r.part.layer.Name() == "AssembledPart"
    ensures !r.assembled ==> r.part == p
  {
    if p.state == Unlocked then Assembly(SetState(p, Assembled).part, true)
    else Assembly(p, false)
  }

  /** After a successful assembly a second call is a no-op. */
  lemma OnPartAssembledIdempotent(p: Part)
    requires OnPartAssembled(p).assembled
    ensures var q := OnPartAssembled(p).part; OnPartAssembled(q) == Assembly(q, false)
  {
  }
}
