/**
 * The team-member store: an ordered list of members, mirrored to one
 * browser-storage slot after every change.
 */
module MemberService {
  import opened Wrappers
  import opened TeamMemberModel

  /** What the storage slot holds when it is read. `Blank` is the empty
      string, which the load treats like a missing slot. */
  datatype Slot = Absent | Blank | Saved(list: seq<TeamMember>)

  ghost predicate DistinctIds(list: seq<TeamMember>) {
    forall i, j :: 0 <= i < j < |list| ==> list[i].id != list[j].id
  }

  ghost predicate HasId(list: seq<TeamMember>, id: string) {
    exists i :: 0 <= i < |list| && list[i].id == id
  }

  function SeedMember(id: string, name: string, avatar: string, role: string, email: string): TeamMember {
    TeamMember(id, name, avatar, Active, role, email, ["Design", "Product", "Marketing"], 4)
  }

  const SeedIds: seq<string> := ["1", "2", "3", "4", "5", "6", "7", "8", "9", "10"]

  /** The ten sample members used when nothing has been stored yet. */
  function Seed(): (r: seq<TeamMember>)
    ensures |r| == 10
    ensures forall i :: 0 <= i < 10 ==> r[i].id == SeedIds[i]
  {
    [ SeedMember("1", "Farouk Muhammed", "FM", "Product Designer", "olivia@untitledui.com"),
      SeedMember("2", "Saliu Hammed", "SH", "Product Designer", "olivia@untitledui.com"),
      SeedMember("3", "Farouk Muhammed", "FM", "Product Designer", "olivia@untitledui.com"),
      SeedMember("4", "Ahmed Ibrahim", "AI", "Frontend Developer", "ahmed@untitledui.com"),
      SeedMember("5", "Aisha Johnson", "AJ", "UX Designer", "aisha@untitledui.com"),
      SeedMember("6", "Chidi Okonkwo", "CO", "Backend Developer", "chidi@untitledui.com"),
      SeedMember("7", "Ngozi Adeyemi", "NA", "Product Manager", "ngozi@untitledui.com"),
      SeedMember("8", "Tunde Williams", "TW", "Data Analyst", "tunde@untitledui.com"),
      SeedMember("9", "Zainab Hassan", "ZH", "Marketing Manager", "zainab@untitledui.com"),
      SeedMember("10", "Emeka Nwosu", "EN", "DevOps Engineer", "emeka@untitledui.com") ]
  }

  /** The seed's ids are pairwise distinct. */
  lemma SeedIdsDistinct()
    ensures DistinctIds(Seed())
  {
    var r := Seed();
    forall i, j | 0 <= i < j < 10 ensures r[i].id != r[j].id {
      if j == 9 {
        assert |SeedIds[i]| == 1 && |SeedIds[j]| == 2;
      } else {
        assert SeedIds[i][0] != SeedIds[j][0];
      }
    }
  }

  /** The list the store starts from: the stored list, or the seed when the
      slot is missing or blank. A stored empty list is still a stored list. */
  function LoadFromStorage(slot: Slot): (r: seq<TeamMember>)
    ensures slot.Saved? ==> r == slot.list
    ensures !slot.Saved? ==> r == Seed() && |r| == 10 && DistinctIds(r)
  {
    if slot.Saved? then slot.list else SeedIdsDistinct(); Seed()
  }

  /** `list.map(m => m.id === id ? { ...m, ...patch } : m)`. */
  function UpdateById(list: seq<TeamMember>, id: string, patch: MemberPatch): (r: seq<TeamMember>)
    ensures |r| == |list|
  {
    if list == [] then []
    else [if list[0].id == id then Merge(list[0], patch) else list[0]] + UpdateById(list[1..], id, patch)
  }

  /** `list.filter(m => m.id !== id)`. */
  function RemoveById(list: seq<TeamMember>, id: string): (r: seq<TeamMember>)
    ensures |r| <= |list|
    ensures forall m :: m in r ==> m in list && m.id != id
  {
    if list == [] then []
    else (if list[0].id == id then [] else [list[0]]) + RemoveById(list[1..], id)
  }

  /** `list.find(m => m.id === id)`: the first member with that id, if any. */
  function FindById(list: seq<TeamMember>, id: string): (r: Option<TeamMember>)
    ensures r.None? <==> !HasId(list, id)
    ensures r.Some? ==> exists i :: 0 <= i < |list| && list[i] == r.value && r.value.id == id &&
                                    forall j :: 0 <= j < i ==> list[j].id != id
  {
    if list == [] then None
    else if list[0].id == id then Some(list[0])
    else
      var r := FindById(list[1..], id);
      assert forall i :: 0 <= i < |list| - 1 ==> list[1..][i] == list[i + 1];
      r
  }

  /** Member by member, an update edits exactly the members with the id. */
  lemma {:induction false} UpdateByIdPointwise(list: seq<TeamMember>, id: string, patch: MemberPatch)
    ensures |UpdateById(list, id, patch)| == |list|
    ensures forall i :: 0 <= i < |list| ==>
      UpdateById(list, id, patch)[i] == if list[i].id == id then Merge(list[i], patch) else list[i]
  {
    if list != [] {
      UpdateByIdPointwise(list[1..], id, patch);
    }
  }

  /** Updating an id that no member carries leaves the list as it is. */
  lemma UpdateAbsentIsNoOp(list: seq<TeamMember>, id: string, patch: MemberPatch)
    requires !HasId(list, id)
    ensures UpdateById(list, id, patch) == list
  {
    UpdateByIdPointwise(list, id, patch);
  }

  /** Applying the same update twice is the same as applying it once. */
  lemma UpdateIdempotent(list: seq<TeamMember>, id: string, patch: MemberPatch)
    ensures UpdateById(UpdateById(list, id, patch), id, patch) == UpdateById(list, id, patch)
  {
    var once := UpdateById(list, id, patch);
    UpdateByIdPointwise(list, id, patch);
    UpdateByIdPointwise(once, id, patch);
    forall i | 0 <= i < |list|
      ensures UpdateById(once, id, patch)[i] == once[i]
    {
      if list[i].id == id {
        MergeIdempotent(list[i], patch);
      }
    }
  }

  /** An update that does not touch the id field keeps every member's id,
      so it keeps ids distinct. */
  lemma UpdateKeepsDistinctIds(list: seq<TeamMember>, id: string, patch: MemberPatch)
    requires DistinctIds(list)
    requires patch.id.None?
    ensures DistinctIds(UpdateById(list, id, patch))
  {
    UpdateByIdPointwise(list, id, patch);
  }

  /** Removing an id keeps every member with another id. */
  lemma {:induction false} RemoveByIdKeepsOthers(list: seq<TeamMember>, id: string)
    ensures forall m :: m in list && m.id != id ==> m in RemoveById(list, id)
  {
    if list != [] {
      RemoveByIdKeepsOthers(list[1..], id);
      forall m | m in list && m.id != id
        ensures m in RemoveById(list, id)
      {
        if m != list[0] {
          assert m in list[1..];
        }
      }
    }
  }

  /** Removal distributes over concatenation, so the survivors stay in their
      original order. */
  lemma {:induction false} RemoveByIdConcat(a: seq<TeamMember>, b: seq<TeamMember>, id: string)
    ensures RemoveById(a + b, id) == RemoveById(a, id) + RemoveById(b, id)
  {
    if a != [] {
      assert (a + b)[1..] == a[1..] + b;
      RemoveByIdConcat(a[1..], b, id);
    } else {
      assert a + b == b;
    }
  }

  /** Removing an id that no member carries leaves the list as it is. */
  lemma {:induction false} RemoveAbsentIsNoOp(list: seq<TeamMember>, id: string)
    requires !HasId(list, id)
    ensures RemoveById(list, id) == list
  {
    if list != [] {
      assert !HasId(list[1..], id) by {
        forall i | 0 <= i < |list| - 1 ensures list[1..][i].id != id {
          assert list[1..][i] == list[i + 1];
        }
      }
      RemoveAbsentIsNoOp(list[1..], id);
      assert list == [list[0]] + list[1..];
    }
  }

  /** Removing twice is the same as removing once. */
  lemma RemoveIdempotent(list: seq<TeamMember>, id: string)
    ensures RemoveById(RemoveById(list, id), id) == RemoveById(list, id)
  {
    var once := RemoveById(list, id);
    assert !HasId(once, id) by {
      forall i | 0 <= i < |once| ensures once[i].id != id {
        assert once[i] in once;
      }
    }
    RemoveAbsentIsNoOp(once, id);
  }

  /** After removing an id, looking it up finds nothing. */
  lemma FindAfterRemove(list: seq<TeamMember>, id: string)
    ensures FindById(RemoveById(list, id), id) == None
  {
    var once := RemoveById(list, id);
    forall i | 0 <= i < |once| ensures once[i].id != id {
      assert once[i] in once;
    }
  }

  /** Adding a member whose id is already present breaks id uniqueness:
      the store does not check ids on insertion. */
  lemma AddMayDuplicateId(list: seq<TeamMember>, m: TeamMember)
    requires HasId(list, m.id)
    ensures !DistinctIds(list + [m])
  {
    var k :| 0 <= k < |list| && list[k].id == m.id;
    assert (list + [m])[k].id == (list + [m])[|list|].id;
  }

  /**
   * The store. `members` is the in-memory list; `storage` is the slot it is
   * mirrored to. `Valid` says the slot holds exactly the in-memory list.
   */
  class TeamMemberService {
    var members: seq<TeamMember>
    var storage: Slot

    ghost predicate Valid()
      reads this
    {
      storage == Saved(members)
    }

    /** Loads the list from the slot found at start-up, then writes it back. */
    constructor (slot: Slot)
      ensures Valid()
      ensures members == LoadFromStorage(slot)
      ensures slot.Saved? ==> members == slot.list
      ensures !slot.Saved? ==> members == Seed()
    {
      members := LoadFromStorage(slot);
      new;
      SaveToStorage(members);
    }

    method SaveToStorage(data: seq<TeamMember>)
      modifies this`storage
      ensures storage == Saved(data)
    {
      storage := Saved(data);
    }

    /** Appends the member as given, without looking at its id. */
    method AddMember(member: TeamMember)
      modifies this
      ensures Valid()
      ensures members == old(members) + [member]
      ensures |members| == |old(members)| + 1 && members[..|old(members)|] == old(members)
    {
      var updated := members + [member];
      SaveToStorage(updated);
      members := updated;
    }

    /** Merges `patch` into every member whose id is `id`. */
    method UpdateMember(id: string, patch: MemberPatch)
      modifies this
      ensures Valid()
      ensures members == UpdateById(old(members), id, patch)
      ensures |members| == |old(members)|
      ensures forall i :: 0 <= i < |members| ==>
        members[i] == if old(members)[i].id == id then Merge(old(members)[i], patch) else old(members)[i]
      ensures !HasId(old(members), id) ==> members == old(members)
    {
      var updated := UpdateById(members, id, patch);
      UpdateByIdPointwise(members, id, patch);
      if !HasId(members, id) {
        UpdateAbsentIsNoOp(members, id, patch);
      }
      SaveToStorage(updated);
      members := updated;
    }

    /** Drops every member whose id is `id`. */
    method DeleteMember(id: string)
      modifies this
      ensures Valid()
      ensures members == RemoveById(old(members), id)
      ensures !HasId(members, id)
      ensures forall m :: m in old(members) && m.id != id ==> m in members
      ensures !HasId(old(members), id) ==> members == old(members)
    {
      var updated := RemoveById(members, id);
      RemoveByIdKeepsOthers(members, id);
      if !HasId(members, id) {
        RemoveAbsentIsNoOp(members, id);
      }
      forall i | 0 <= i < |updated| ensures updated[i].id != id {
        assert updated[i] in updated;
      }
      SaveToStorage(updated);
      members := updated;
    }

    /** The first member whose id is `id`, or none. */
    method GetMemberById(id: string) returns (r: Option<TeamMember>)
      ensures r.None? <==> !HasId(members, id)
      ensures r.Some? ==> exists i :: 0 <= i < |members| && members[i] == r.value && r.value.id == id &&
                                      forall j :: 0 <= j < i ==> members[j].id != id
    {
      r := FindById(members, id);
    }
  }
}
