/**
 * One assembly group (`EngineGroup`): the parts and sockets it owns (as indices into
 * the scene's arenas), the clamped assembled-parts counter, and the completion notice.
 */
module Groups {
  import opened States
  import opened Layers
  import Parts
  import Sockets

  datatype Group = Group(groupId: string, parts: seq<nat>, sockets: seq<nat>, count: nat)

  /** `IsComplete`: every listed part has been counted. */
  predicate IsComplete(g: Group)
  {
    g.count == |g.parts|
  }

  /** The bound the clamp in `OnPartAssembled` keeps. */
  predicate CountBounded(g: Group)
  {
    g.count <= |g.parts|
  }

  /** The result of `OnPartAssembled`: the updated group and whether it notifies the assembly manager. */
  datatype Step = Step(group: Group, notify: bool)

  /** Counts one assembled part, clamped at the number of parts; notifies whenever the group is then complete. */
  function OnPartAssembled(g: Group): (r: Step)
    ensures CountBounded(r.group)
    ensures g.count < |g.parts| ==> r.group.count == g.count + 1
    ensures g.count >= |g.parts| ==> r.group.count == |g.parts|
    ensures r.notify <==> IsComplete(r.group)
    ensures r.notify <==> g.count + 1 >= |g.parts|
    ensures r.group == g.(count := r.group.count)
  {
    var c := g.count + 1;
    var g' := g.(count := if c > |g.parts| then |g.parts| else c);
    Step(g', IsComplete(g'))
  }

  /** The group after `k` calls of `OnPartAssembled`, and how many of them notified. */
  datatype Run = Run(group: Group, notices: nat)

  function Repeat(g: Group, k: nat): (run: Run)
    decreases k
  {
    if k == 0 then Run(g, 0)
    else
      var step := OnPartAssembled(g);
      var rest := Repeat(step.group, k - 1);
      Run(rest.group, rest.notices + if step.notify then 1 else 0)
  }

  function Min(a: int, b: int): int { if a <= b then a else b }
  function Max(a: int, b: int): int { if a >= b then a else b }

  /**
   * From a bounded count, `k` calls leave the count at min(count + k, |parts|). The call
   * that reaches the total notifies, and so does every later call: repeats are not
   * suppressed. An empty group notifies on every call.
   */
  lemma {:induction false} RepeatedNotices(g: Group, k: nat)
    requires CountBounded(g)
    ensures Repeat(g, k).group.count == Min(g.count + k, |g.parts|)
    ensures Repeat(g, k).notices == Max(0, k - Max(1, |g.parts| - g.count) + 1)
    ensures Repeat(g, k).group == g.(count := Repeat(g, k).group.count)
    decreases k
  {
    if k > 0 {
      RepeatedNotices(OnPartAssembled(g).group, k - 1);
    }
  }

  /**
   * `IsComplete` after `k` assembled parts: from a bounded count `c`, the group is
   * complete exactly when `c + k` reaches its number of parts, and stays complete.
   */
  lemma CompleteExactlyWhenAllCounted(g: Group, k: nat)
    requires CountBounded(g)
    ensures IsComplete(Repeat(g, k).group) <==> g.count + k >= |g.parts|
  {
    RepeatedNotices(g, k);
  }

  /** `EnableSocket`: sets the socket's `enabled` flag and its tag ("Unlocked" or "LockedSocket"). */
  function EnableSocket(s: Sockets.Socket, active: bool): (r: Sockets.Socket)
    ensures r.enabled == active
    ensures active ==> r.layer.Name() == "Unlocked"
    ensures !active ==> r.layer.Name() == "LockedSocket"
    ensures r.(enabled := s.enabled, layer := s.layer) == s
  {
    s.(enabled := active, layer := if active then UnlockedLayer else LockedSocketLayer)
  }

  /** The part and socket arenas a group's `Unlock` writes to. */
  datatype Arena = Arena(parts: seq<Parts.Part>, sockets: seq<Sockets.Socket>)

  predicate IndicesIn(idx: seq<nat>, n: nat)
  {
    forall k :: 0 <= k < |idx| ==> idx[k] < n
  }

  /** Applies `SetState(Unlocked)` to each listed part in turn. */
  function UnlockParts(parts: seq<Parts.Part>, idx: seq<nat>): (r: seq<Parts.Part>)
    requires IndicesIn(idx, |parts|)
    ensures |r| == |parts|
    ensures forall i :: 0 <= i < |parts| && i in idx ==> r[i] == Parts.SetState(parts[i], Unlocked).part
    ensures forall i :: 0 <= i < |parts| && i !in idx ==> r[i] == parts[i]
    decreases |idx|
  {
    if |idx| == 0 then parts
    else
      var i := idx[0];
      var once := parts[i := Parts.SetState(parts[i], Unlocked).part];
      Parts.SetStateTwice(parts[i], Unlocked);
      UnlockParts(once, idx[1..])
  }

  /** Applies `EnableSocket(_, true)` to each listed socket in turn. */
  function EnableSockets(sockets: seq<Sockets.Socket>, idx: seq<nat>): (r: seq<Sockets.Socket>)
    requires IndicesIn(idx, |sockets|)
    ensures |r| == |sockets|
    ensures forall i :: 0 <= i < |sockets| && i in idx ==> r[i] == EnableSocket(sockets[i], true)
    ensures forall i :: 0 <= i < |sockets| && i !in idx ==> r[i] == sockets[i]
    decreases |idx|
  {
    if |idx| == 0 then sockets
    else
      var i := idx[0];
      EnableSockets(sockets[i := EnableSocket(sockets[i], true)], idx[1..])
  }

  /**
   * `Unlock`: every owned part becomes Unlocked (tag "Unlocked") and every owned socket
   * enabled with tag "Unlocked"; nothing else in the arenas changes.
   */
  function Unlock(g: Group, a: Arena): (r: Arena)
    requires IndicesIn(g.parts, |a.parts|) && IndicesIn(g.sockets, |a.sockets|)
    ensures |r.parts| == |a.parts| && |r.sockets| == |a.sockets|
    ensures forall k :: 0 <= k < |g.parts| ==>
      var p := r.parts[g.parts[k]];
      p.state == Unlocked && p.layer.Name() == "Unlocked" && Parts.SameIdentity(a.parts[g.parts[k]], p)
      && p.grabEnabled == a.parts[g.parts[k]].grabEnabled
    ensures forall k :: 0 <= k < |g.sockets| ==>
      r.sockets[g.sockets[k]] == EnableSocket(a.sockets[g.sockets[k]], true)
    ensures forall i :: 0 <= i < |a.parts| && i !in g.parts ==> r.parts[i] == a.parts[i]
    ensures forall i :: 0 <= i < |a.sockets| && i !in g.sockets ==> r.sockets[i] == a.sockets[i]
  {
    Arena(UnlockParts(a.parts, g.parts), EnableSockets(a.sockets, g.sockets))
  }
}
