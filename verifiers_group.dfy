/**
 * One group of verifiers in the assessment's multi-level verification panel: the people
 * of one review level, edited in place, with a dirty flag, a backup taken when editing
 * starts and a `saveVerifiers` event dispatched when changes are saved.
 */
module VerifiersGroup {
  import opened Wrappers
  import opened VerificationFlow

  /** The `saveVerifiers` event the group dispatches to its parent. */
  datatype SaveVerifiersEvent = SaveVerifiersEvent(levelNumber: Option<int>, people: seq<Person>)

  /**
   * `findIndex` on the people's ids: the index of the first person with the id, or -1
   * when nobody has it.
   */
  function FindIndex(people: seq<Person>, id: int): (r: int)
    ensures -1 <= r < |people|
    ensures r == -1 <==> forall i :: 0 <= i < |people| ==> people[i].id != id
    ensures r >= 0 ==> people[r].id == id && forall i :: 0 <= i < r ==> people[i].id != id
  {
    if people == [] then -1
    else if people[0].id == id then 0
    else
      var k := FindIndex(people[1..], id);
      assert forall i :: 1 <= i < |people| ==> people[i] == people[1..][i - 1];
      if k == -1 then -1 else k + 1
  }

  /**
   * `splice(start, 1)`: a negative start counts from the end (clamped at the front),
   * and a start past the end removes nothing.
   */
  function SpliceOne(s: seq<Person>, start: int): seq<Person>
  {
    var k := if start < 0 then (if |s| + start < 0 then 0 else |s| + start) else start;
    if k < |s| then s[..k] + s[k + 1..] else s
  }

  /** The people after `removePerson` of `id`: the splice at the id's index. */
  function Removed(people: seq<Person>, id: int): seq<Person>
  {
    SpliceOne(people, FindIndex(people, id))
  }

  /** The people after `personSelected`: the person is appended unless their id is present. */
  function Selected(people: seq<Person>, id: int, email: string): seq<Person>
  {
    if FindIndex(people, id) != -1 then people else people + [Person(id, email)]
  }

  predicate UniqueIds(people: seq<Person>)
  {
    forall i, j :: 0 <= i < j < |people| ==> people[i].id != people[j].id
  }

  /** Cutting one entry out of a list leaves the other entries. */
  lemma CutOne(s: seq<Person>, k: int)
    requires 0 <= k < |s|
    ensures multiset(s[..k] + s[k + 1..]) + multiset{s[k]} == multiset(s)
  {
    assert s == s[..k] + [s[k]] + s[k + 1..];
  }

  /**
   * Removing a person who is listed takes out exactly the first entry with their id and
   * keeps the others in order.
   */
  lemma RemovePresent(people: seq<Person>, id: int)
    requires exists i :: 0 <= i < |people| && people[i].id == id
    ensures var k := FindIndex(people, id);
            0 <= k < |people| && people[k].id == id
            && Removed(people, id) == people[..k] + people[k + 1..]
            && |Removed(people, id)| == |people| - 1
            && multiset(Removed(people, id)) + multiset{people[k]} == multiset(people)
  {
    var k := FindIndex(people, id);
    assert Removed(people, id) == SpliceOne(people, k) == people[..k] + people[k + 1..];
    CutOne(people, k);
  }

  /**
   * Removing a person who is not listed still removes someone: `findIndex` gives -1
   * and `splice(-1, 1)` drops the last person.
   */
  lemma RemoveAbsentDropsLast(people: seq<Person>, id: int)
    requires forall i :: 0 <= i < |people| ==> people[i].id != id
    ensures people != [] ==> Removed(people, id) == people[..|people| - 1]
    ensures people == [] ==> Removed(people, id) == []
  {
  }

  /** Selecting a person who is already listed changes nothing; selecting twice is selecting once. */
  lemma SelectIdempotent(people: seq<Person>, id: int, email: string, email2: string)
    ensures (exists i :: 0 <= i < |people| && people[i].id == id) ==> Selected(people, id, email) == people
    ensures Selected(Selected(people, id, email), id, email2) == Selected(people, id, email)
  {
    var s := Selected(people, id, email);
    if FindIndex(people, id) == -1 {
      assert s[|people|].id == id;
    }
  }

  /** Selecting a new person and removing them again gives back the list. */
  lemma SelectThenRemove(people: seq<Person>, id: int, email: string)
    requires forall i :: 0 <= i < |people| ==> people[i].id != id
    ensures Removed(Selected(people, id, email), id) == people
  {
    var s := people + [Person(id, email)];
    assert s[|people|].id == id;
    assert forall i :: 0 <= i < |people| ==> s[i] == people[i];
    assert FindIndex(s, id) == |people|;
    assert s[..|people|] == people;
  }

  /** Selecting and removing keep every id listed at most once, and a removed person is gone. */
  lemma UniqueIdsPreserved(people: seq<Person>, id: int, email: string)
    requires UniqueIds(people)
    ensures UniqueIds(Selected(people, id, email))
    ensures UniqueIds(Removed(people, id))
    ensures forall i :: 0 <= i < |Removed(people, id)| ==> Removed(people, id)[i].id != id
  {
    var k := FindIndex(people, id);
    var r := Removed(people, id);
    if k >= 0 {
      assert r == people[..k] + people[k + 1..];
      forall i | 0 <= i < |r|
        ensures r[i].id != id
        ensures i < k ==> r[i] == people[i]
        ensures i >= k ==> r[i] == people[i + 1]
      {
      }
    } else if people != [] {
      assert r == people[..|people| - 1];
    }
  }

  /** The view model of one verifiers group. */
  class VerifiersGroupViewModel {
    var readonly: bool
    var autoUpdate: bool
    var updatableGroupId: Option<int>
    var isDirty: bool
    var levelNumber: Option<int>
    var groupTitle: string
    var people: seq<Person>
    var backUp: seq<Person>
    /** The events dispatched so far, oldest first. */
    var dispatched: seq<SaveVerifiersEvent>

    /** `isLoading`: the group being saved is this one (two missing ids count as equal). */
    function IsLoading(): bool
      reads this
    {
      updatableGroupId == levelNumber
    }

    /** `canEdit`: neither read-only nor being saved. */
    function CanEdit(): bool
      reads this
    {
      !readonly && !IsLoading()
    }

    /**
     * The defaults. As neither the group being saved nor the level number is set yet,
     * a new group counts as loading and cannot be edited until one of them is given.
     */
    constructor ()
      ensures !readonly && !autoUpdate && !isDirty
      ensures updatableGroupId.None? && levelNumber.None? && groupTitle == ""
      ensures people == [] && backUp == [] && dispatched == []
      ensures IsLoading() && !CanEdit()
    {
      readonly := false;
      autoUpdate := false;
      updatableGroupId := None;
      isDirty := false;
      levelNumber := None;
      groupTitle := "";
      people := [];
      backUp := [];
      dispatched := [];
    }

    /** `getPersonIndexById`. */
    function PersonIndexById(id: int): (r: int)
      reads this
      ensures r == FindIndex(people, id)
    {
      FindIndex(people, id)
    }

    /** `saveChanges`: when dirty, clear the flag and dispatch the level number and the people. */
    method SaveChanges()
      modifies this
      ensures old(isDirty) ==> !isDirty && dispatched == old(dispatched) + [SaveVerifiersEvent(levelNumber, people)]
      ensures !old(isDirty) ==> !isDirty && dispatched == old(dispatched)
      ensures people == old(people) && backUp == old(backUp) && levelNumber == old(levelNumber)
      ensures readonly == old(readonly) && autoUpdate == old(autoUpdate) && updatableGroupId == old(updatableGroupId)
      ensures groupTitle == old(groupTitle)
    {
      if !isDirty {
        return;
      }
      isDirty := false;
      dispatched := dispatched + [SaveVerifiersEvent(levelNumber, people)];
    }

    /**
     * `removePerson`: mark the group dirty and splice out the person's entry; with
     * auto-update on, save straight away.
     */
    method RemovePerson(id: int)
      modifies this
      ensures people == Removed(old(people), id)
      ensures autoUpdate ==> !isDirty && dispatched == old(dispatched) + [SaveVerifiersEvent(levelNumber, people)]
      ensures !autoUpdate ==> isDirty && dispatched == old(dispatched)
      ensures UniqueIds(old(people)) ==> UniqueIds(people)
      ensures backUp == old(backUp) && levelNumber == old(levelNumber)
      ensures readonly == old(readonly) && autoUpdate == old(autoUpdate) && updatableGroupId == old(updatableGroupId)
      ensures groupTitle == old(groupTitle)
    {
      isDirty := true;
      var personIndex := PersonIndexById(id);
      if UniqueIds(people) {
        UniqueIdsPreserved(people, id, "");
      }
      people := SpliceOne(people, personIndex);
      if autoUpdate {
        SaveChanges();
      }
    }

    /**
     * `personSelected`: nothing when the id is already listed; otherwise mark the group
     * dirty and append the person; with auto-update on, save straight away.
     */
    method PersonSelected(id: int, email: string)
      modifies this
      ensures people == Selected(old(people), id, email)
      ensures FindIndex(old(people), id) != -1 ==>
                isDirty == old(isDirty) && dispatched == old(dispatched)
      ensures FindIndex(old(people), id) == -1 && autoUpdate ==>
                !isDirty && dispatched == old(dispatched) + [SaveVerifiersEvent(levelNumber, people)]
      ensures FindIndex(old(people), id) == -1 && !autoUpdate ==> isDirty && dispatched == old(dispatched)
      ensures UniqueIds(old(people)) ==> UniqueIds(people)
      ensures backUp == old(backUp) && levelNumber == old(levelNumber)
      ensures readonly == old(readonly) && autoUpdate == old(autoUpdate) && updatableGroupId == old(updatableGroupId)
      ensures groupTitle == old(groupTitle)
    {
      var personIndex := PersonIndexById(id);
      if personIndex != -1 {
        return;
      }
      if UniqueIds(people) {
        UniqueIdsPreserved(people, id, email);
      }
      isDirty := true;
      people := people + [Person(id, email)];
      if autoUpdate {
        SaveChanges();
      }
    }

    /** `backUpPeople`: snapshot the people. */
    method BackUpPeople()
      modifies this
      ensures backUp == people == old(people)
      ensures isDirty == old(isDirty) && dispatched == old(dispatched) && levelNumber == old(levelNumber)
      ensures readonly == old(readonly) && autoUpdate == old(autoUpdate) && updatableGroupId == old(updatableGroupId)
      ensures groupTitle == old(groupTitle)
    {
      backUp := people;
    }

    /** `getBackUpPeople`: hand back the snapshot and empty it. */
    method GetBackUpPeople() returns (snapshot: seq<Person>)
      modifies this
      ensures snapshot == old(backUp) && backUp == []
      ensures people == old(people) && isDirty == old(isDirty) && dispatched == old(dispatched)
      ensures levelNumber == old(levelNumber) && readonly == old(readonly) && autoUpdate == old(autoUpdate)
      ensures updatableGroupId == old(updatableGroupId) && groupTitle == old(groupTitle)
    {
      snapshot := backUp;
      backUp := [];
    }

    /**
     * `changeEditableGroup`: entering edit mode snapshots the people; leaving it puts the
     * snapshot back, empties it and clears the dirty flag, so unsaved edits are dropped.
     */
    method ChangeEditableGroup(editableMode: bool)
      modifies this
      ensures editableMode ==> backUp == people == old(people) && isDirty == old(isDirty)
      ensures !editableMode ==> people == old(backUp) && backUp == [] && !isDirty
      ensures dispatched == old(dispatched) && levelNumber == old(levelNumber)
      ensures readonly == old(readonly) && autoUpdate == old(autoUpdate) && updatableGroupId == old(updatableGroupId)
      ensures groupTitle == old(groupTitle)
    {
      if !editableMode {
        var snapshot := GetBackUpPeople();
        people := snapshot;
        isDirty := false;
      } else {
        BackUpPeople();
      }
    }

    /** The `inserted` event: snapshot the people the group starts with. */
    method Inserted()
      modifies this
      ensures backUp == people == old(people)
      ensures isDirty == old(isDirty) && dispatched == old(dispatched) && levelNumber == old(levelNumber)
      ensures readonly == old(readonly) && autoUpdate == old(autoUpdate) && updatableGroupId == old(updatableGroupId)
      ensures groupTitle == old(groupTitle)
    {
      BackUpPeople();
    }
  }
}
