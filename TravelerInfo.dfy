/**
 * The traveler screen's editable list of travelers and the check that runs
 * before the list is handed to the booking store.
 */
module TravelerInfo {
  import opened Common
  import opened Bookings

  /** The two keys the screen's inputs update. */
  datatype TravelerField = NameField | AgeField

  const DefaultAge: string := "35"

  /** The list the screen starts with: the signed-in user as primary traveler. */
  function InitialTravelers(userName: string): seq<Traveler>
  {
    [Traveler("1", userName, DefaultAge, true)]
  }

  /** The blank entry `addTraveler` appends: id `String(length + 1)`. */
  function BlankTraveler(count: nat): Traveler
  {
    Traveler(NatToString(count + 1), "", "", false)
  }

  function IdIsNot(id: string): Traveler -> bool
  {
    (t: Traveler) => t.id != id
  }

  /** `removeTraveler`'s `filter`. */
  function WithoutTraveler(travelers: seq<Traveler>, id: string): (r: seq<Traveler>)
    ensures forall t :: t in r <==> t in travelers && t.id != id
    ensures IsSubsequence(r, travelers)
    ensures forall t :: multiset(r)[t] == if t.id == id then 0 else multiset(travelers)[t]
  {
    FilterCounts(travelers, IdIsNot(id));
    Filter(travelers, IdIsNot(id))
  }

  function SetField(t: Traveler, field: TravelerField, value: string): Traveler
  {
    match field
    case NameField => t.(name := value)
    case AgeField => t.(age := value)
  }

  /** `updateTraveler`'s `map`: only the named field of matching entries changes. */
  function UpdatedTravelers(travelers: seq<Traveler>, id: string, field: TravelerField, value: string): (r: seq<Traveler>)
    ensures |r| == |travelers|
    ensures forall i :: 0 <= i < |r| && travelers[i].id != id ==> r[i] == travelers[i]
    ensures forall i :: 0 <= i < |r| && travelers[i].id == id ==>
      && r[i].id == id && r[i].isPrimary == travelers[i].isPrimary
      && (if field == NameField then r[i].name == value && r[i].age == travelers[i].age
          else r[i].age == value && r[i].name == travelers[i].name)
  {
    if |travelers| == 0 then []
    else
      var head := if travelers[0].id == id then SetField(travelers[0], field, value) else travelers[0];
      var rest := UpdatedTravelers(travelers[1..], id, field, value);
      assert ([head] + rest)[0] == head;
      assert forall i :: 1 <= i <= |rest| ==> ([head] + rest)[i] == rest[i - 1] && travelers[i] == travelers[1..][i - 1];
      [head] + rest
  }

  /** A traveler entry with a non-blank name and age after trimming. */
  predicate TravelerComplete(t: Traveler)
  {
    Trim(t.name) != "" && Trim(t.age) != ""
  }

  /** The `every` in `handleContinue`. */
  predicate AllComplete(travelers: seq<Traveler>)
  {
    forall i :: 0 <= i < |travelers| ==> TravelerComplete(travelers[i])
  }

  /** The check fails exactly when some entry's name or age is only white space. */
  lemma IncompleteMeansBlankField(travelers: seq<Traveler>)
    ensures !AllComplete(travelers) <==>
      exists i :: 0 <= i < |travelers| && (IsBlank(travelers[i].name) || IsBlank(travelers[i].age))
  {
  }

  /** A freshly added entry blocks the step until it is filled in. */
  lemma AddedTravelerBlocksContinue(travelers: seq<Traveler>)
    ensures !AllComplete(travelers + [BlankTraveler(|travelers|)])
  {
    assert !TravelerComplete((travelers + [BlankTraveler(|travelers|)])[|travelers|]);
  }

  lemma WithoutTravelerOfOne(t: Traveler)
    ensures WithoutTraveler([t], t.id) == []
  {
    assert [t][1..] == [];
  }

  /** With distinct ids, removing an entry's id removes that entry alone. */
  lemma RemoveDistinctId(travelers: seq<Traveler>, k: nat)
    requires forall i, j :: 0 <= i < j < |travelers| ==> travelers[i].id != travelers[j].id
    requires k < |travelers|
    ensures WithoutTraveler(travelers, travelers[k].id) == travelers[..k] + travelers[k + 1..]
  {
    var t, p := travelers[k], IdIsNot(travelers[k].id);
    var before, after := travelers[..k], travelers[k + 1..];
    assert travelers == before + ([t] + after);
    FilterKeepsAll(before, p);
    FilterKeepsAll(after, p);
    WithoutTravelerOfOne(t);
    FilterAppend([t], after, p);
    assert Filter([t] + after, p) == after;
    FilterAppend(before, [t] + after, p);
  }

  /** The ids `addTraveler` hands out while nothing is removed: "1", "2", ... */
  predicate IdsArePositions(travelers: seq<Traveler>)
  {
    forall i :: 0 <= i < |travelers| ==> travelers[i].id == NatToString(i + 1)
  }

  /** Adding without removing keeps ids positional. */
  lemma AddKeepsIdsPositions(travelers: seq<Traveler>)
    requires IdsArePositions(travelers)
    ensures IdsArePositions(travelers + [BlankTraveler(|travelers|)])
  {
  }

  /**
   * Ids are not unique: removing any entry but the last and then adding one
   * gives the new entry the id of the entry that was last, so the list ends
   * in two entries with the same id.
   */
  lemma RemoveThenAddDuplicatesId(travelers: seq<Traveler>, k: nat)
    requires IdsArePositions(travelers)
    requires k + 1 < |travelers|
    ensures var remaining := WithoutTraveler(travelers, travelers[k].id);
      var afterAdd := remaining + [BlankTraveler(|remaining|)];
      && |afterAdd| == |travelers|
      && afterAdd[|travelers| - 2] == travelers[|travelers| - 1]
      && afterAdd[|travelers| - 1].id == travelers[|travelers| - 1].id
  {
    forall i, j | 0 <= i < j < |travelers| ensures travelers[i].id != travelers[j].id {
      NatToStringInjective(i + 1, j + 1);
    }
    RemoveDistinctId(travelers, k);
    var n := |travelers|;
    var remaining := WithoutTraveler(travelers, travelers[k].id);
    assert remaining == travelers[..k] + travelers[k + 1..];
    assert |remaining| == n - 1;
    assert remaining[n - 2] == travelers[n - 1];
    assert BlankTraveler(n - 1).id == travelers[n - 1].id;
  }

  /**
   * The screen edits and removes travelers by id, so once two entries share
   * an id they move together: typing a name for the new entry renames the
   * older entry too, and removing either removes both.
   */
  lemma DuplicateIdEditsBoth(travelers: seq<Traveler>, k: nat, name: string)
    requires IdsArePositions(travelers)
    requires k + 1 < |travelers|
    ensures var remaining := WithoutTraveler(travelers, travelers[k].id);
      var afterAdd := remaining + [BlankTraveler(|remaining|)];
      var n := |travelers|;
      var id := travelers[n - 1].id;
      var renamed := UpdatedTravelers(afterAdd, id, NameField, name);
      && |afterAdd| == n && afterAdd[n - 2].id == id && afterAdd[n - 1].id == id
      && renamed[n - 2].name == name && renamed[n - 1].name == name
      && afterAdd[n - 2] !in WithoutTraveler(afterAdd, id)
      && afterAdd[n - 1] !in WithoutTraveler(afterAdd, id)
  {
    RemoveThenAddDuplicatesId(travelers, k);
  }

  class TravelerForm {
    var travelers: seq<Traveler>
    var specialRequests: string

    constructor (userName: string)
      ensures travelers == InitialTravelers(userName) && specialRequests == ""
    {
      travelers := InitialTravelers(userName);
      specialRequests := "";
    }

    method AddTraveler()
      modifies this`travelers
      ensures travelers == old(travelers) + [BlankTraveler(|old(travelers)|)]
    {
      var newTraveler := Traveler(NatToString(|travelers| + 1), "", "", false);
      travelers := travelers + [newTraveler];
    }

    method RemoveTraveler(id: string)
      modifies this`travelers
      ensures travelers == WithoutTraveler(old(travelers), id)
    {
      travelers := WithoutTraveler(travelers, id);
    }

    method UpdateTraveler(id: string, field: TravelerField, value: string)
      modifies this`travelers
      ensures travelers == UpdatedTravelers(old(travelers), id, field, value)
    {
      travelers := UpdatedTravelers(travelers, id, field, value);
    }

    method SetSpecialRequests(text: string)
      modifies this`specialRequests
      ensures specialRequests == text
    {
      specialRequests := text;
    }

    /**
     * Saves `{travelers, specialRequests}` into the draft when every entry is
     * complete; otherwise leaves the booking store as it was.
     */
    method HandleContinue(store: BookingsStore) returns (saved: bool)
      requires store.currentBooking.Some?
      modifies store`currentBooking, store`bookingStep
      ensures saved == AllComplete(travelers)
      ensures saved ==>
        && store.currentBooking == Some(old(store.currentBooking.value).(travelers := Payload(travelers, specialRequests)))
        && store.bookingStep == 2
      ensures !saved ==> store.currentBooking == old(store.currentBooking) && store.bookingStep == old(store.bookingStep)
    {
      var isValid := forall i :: 0 <= i < |travelers| ==> Trim(travelers[i].name) != "" && Trim(travelers[i].age) != "";
      if !isValid {
        return false;
      }
      store.SetTravelers(Payload(travelers, specialRequests));
      saved := true;
    }
  }
}
