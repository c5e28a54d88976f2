/**
 * Instruction lookup (`InstructionManager`): the dictionary built from the inspector
 * list of `GroupInstruction` records, where the first record for a group id wins.
 */
module Instructions {
  import opened Common

  /** A `GroupInstruction` asset; it is only a record. */
  datatype GroupInstruction = GroupInstruction(groupId: string, title: string, text: string)

  /** The group ids present in the list. */
  function GroupIds(list: seq<GroupInstruction>): (ids: set<string>)
    ensures forall k :: 0 <= k < |list| ==> list[k].groupId in ids
    ensures forall g :: g in ids ==> exists k :: 0 <= k < |list| && list[k].groupId == g
  {
    set k | 0 <= k < |list| :: list[k].groupId
  }

  /** Reference definition: the earliest record in the list for group `g`. */
  function FirstFor(list: seq<GroupInstruction>, g: string): (r: Option<GroupInstruction>)
    ensures r.None? <==> forall k :: 0 <= k < |list| ==> list[k].groupId != g
    ensures r.Some? ==> r.value.groupId == g
    decreases |list|
  {
    if |list| == 0 then None
    else if list[0].groupId == g then Some(list[0])
    else
      assert forall k :: 1 <= k < |list| ==> list[1..][k - 1] == list[k];
      FirstFor(list[1..], g)
  }

  /** The record at `i` is the one `FirstFor` picks when no earlier record has its group id. */
  lemma {:induction false} FirstForPicksEarliest(list: seq<GroupInstruction>, i: nat)
    requires i < |list|
    requires forall j :: 0 <= j < i ==> list[j].groupId != list[i].groupId
    ensures FirstFor(list, list[i].groupId) == Some(list[i])
    decreases i
  {
    if i > 0 {
      assert list[0].groupId != list[i].groupId;
      assert list[1..][i - 1] == list[i];
      FirstForPicksEarliest(list[1..], i - 1);
    }
  }

  lemma {:induction false} FirstForSnoc(list: seq<GroupInstruction>, x: GroupInstruction, g: string)
    ensures FirstFor(list + [x], g) ==
      if FirstFor(list, g).Some? then FirstFor(list, g)
      else if x.groupId == g then Some(x) else None
    decreases |list|
  {
    if |list| > 0 {
      assert (list + [x])[1..] == list[1..] + [x];
      FirstForSnoc(list[1..], x, g);
    } else {
      assert [] + [x] == [x];
    }
  }

  /** What the dictionary holds after the first `i` records have been added. */
  predicate BuiltFrom(d: map<string, GroupInstruction>, prefix: seq<GroupInstruction>)
  {
    && d.Keys == GroupIds(prefix)
    && forall g :: g in d ==> FirstFor(prefix, g) == Some(d[g])
  }

  lemma GroupIdsSnoc(prefix: seq<GroupInstruction>, x: GroupInstruction)
    ensures GroupIds(prefix + [x]) == GroupIds(prefix) + {x.groupId}
  {
    var l := prefix + [x];
    assert l[|prefix|] == x;
    forall g | g in GroupIds(l) ensures g in GroupIds(prefix) + {x.groupId} {
      var k :| 0 <= k < |l| && l[k].groupId == g;
      if k < |prefix| { assert prefix[k] == l[k]; }
    }
    forall g | g in GroupIds(prefix) ensures g in GroupIds(l) {
      var k :| 0 <= k < |prefix| && prefix[k].groupId == g;
      assert l[k] == prefix[k];
    }
  }

  /** One iteration of the loop keeps the dictionary built from the records seen so far. */
  lemma AddStep(prefix: seq<GroupInstruction>, x: GroupInstruction, d: map<string, GroupInstruction>)
    requires BuiltFrom(d, prefix)
    ensures BuiltFrom(if x.groupId !in d then d[x.groupId := x] else d, prefix + [x])
  {
    GroupIdsSnoc(prefix, x);
    forall g {
      FirstForSnoc(prefix, x, g);
    }
  }

  /** The `foreach` of `InitializeDictionary` from record `i` on: add a record only if its id is new. */
  function AddFrom(list: seq<GroupInstruction>, i: nat, d: map<string, GroupInstruction>): (r: map<string, GroupInstruction>)
    requires i <= |list| && BuiltFrom(d, list[..i])
    ensures BuiltFrom(r, list)
    decreases |list| - i
  {
    if i == |list| then
      assert list[..i] == list;
      d
    else
      var x := list[i];
      var d' := if x.groupId !in d then d[x.groupId := x] else d;
      AddStep(list[..i], x, d);
      assert list[..i + 1] == list[..i] + [x];
      assert BuiltFrom(d', list[..i + 1]);
      AddFrom(list, i + 1, d')
  }

  /**
   * `InitializeDictionary`: one key per distinct group id in the list, each mapped to
   * the first record with that id; later duplicates are ignored.
   */
  function InitializeDictionary(list: seq<GroupInstruction>): (d: map<string, GroupInstruction>)
    ensures d.Keys == GroupIds(list)
    ensures |d| == |GroupIds(list)|
    ensures forall g :: g in d ==> FirstFor(list, g) == Some(d[g])
  {
    assert list[..0] == [];
    var d := AddFrom(list, 0, map[]);
    assert |d| == |d.Keys|;
    d
  }

  /** `GetInstructionForGroup`: the stored record, or `None` (null) for an absent id. */
  function GetInstructionForGroup(d: map<string, GroupInstruction>, g: string): (r: Option<GroupInstruction>)
    ensures r.Some? <==> g in d
    ensures r.Some? ==> r.value == d[g]
  {
    if g in d then Some(d[g]) else None
  }

  /** Looking a group up in the built dictionary yields the list's first record for it, or `None`. */
  lemma LookupFindsFirst(list: seq<GroupInstruction>, g: string)
    ensures GetInstructionForGroup(InitializeDictionary(list), g) == FirstFor(list, g)
    ensures GetInstructionForGroup(InitializeDictionary(list), g).None? <==>
            forall k :: 0 <= k < |list| ==> list[k].groupId != g
  {
  }

  /**
   * Duplicates: the record looked up for an id is the earliest one in the list with that
   * id, whatever records with the same id follow it.
   */
  lemma FirstRecordWins(list: seq<GroupInstruction>, i: nat)
    requires i < |list|
    requires forall j :: 0 <= j < i ==> list[j].groupId != list[i].groupId
    ensures GetInstructionForGroup(InitializeDictionary(list), list[i].groupId) == Some(list[i])
  {
    FirstForPicksEarliest(list, i);
  }
}
