/** The specializations editor of an agent's profile: a list of at most ten
    distinct labels, grown from a free-text input (trimmed, on click or on
    Enter) or from a fixed list of common labels, shrunk by removing one
    entry, and saved as the list or as null when it is empty. */
module AgentSpecializations {
  import opened Wrappers
  import Text
  import JsArray

  const MaxSpecializations := 10

  /** `commonSpecializations` */
  const CommonSpecializations: seq<string> := [
    "Buyer's Agent", "Listing Agent", "Relocation", "Foreclosure", "Short-Sale", "Consulting",
    "Property Management", "Landlord", "First-Time Home Buyers", "Luxury Homes", "Commercial",
    "Investment Properties"
  ]

  predicate Distinct(s: seq<string>) {
    forall i, j :: 0 <= i < j < |s| ==> s[i] != s[j]
  }

  /** The editor's invariant: within the limit and without repeats. */
  predicate WellFormed(s: seq<string>) {
    |s| <= MaxSpecializations && Distinct(s)
  }

  /** The list the editor starts from: the stored list, or empty for null. */
  function InitialList(stored: Option<seq<string>>): (s: seq<string>)
    ensures stored.Some? ==> s == stored.value
    ensures stored.None? ==> s == []
  {
    stored.GetOr([])
  }

  /** The `specializations` field that `handleSave` writes. */
  function SavePayload(s: seq<string>): (stored: Option<seq<string>>)
    ensures stored.None? <==> s == []
  {
    if |s| > 0 then Some(s) else None
  }

  /** Saving and reopening the editor gives back the same list. */
  lemma SaveReload(s: seq<string>)
    ensures InitialList(SavePayload(s)) == s
  {
  }

  /** `specializations.filter((_, i) => i !== index)`: drops the entry at
      `index` when there is one and keeps the rest in order. */
  function RemoveAt(s: seq<string>, index: int): (r: seq<string>)
    ensures 0 <= index < |s| ==> |r| == |s| - 1 && multiset(r) + multiset{s[index]} == multiset(s)
    ensures 0 <= index < |s| ==> forall k :: 0 <= k < |r| ==> r[k] == s[if k < index then k else k + 1]
    ensures !(0 <= index < |s|) ==> r == s
  {
    if 0 <= index < |s| then
      assert s == s[..index] + [s[index]] + s[index + 1..];
      s[..index] + s[index + 1..]
    else s
  }

  lemma RemoveKeepsWellFormed(s: seq<string>, index: int)
    requires WellFormed(s)
    ensures WellFormed(RemoveAt(s, index))
  {
    var r := RemoveAt(s, index);
    if 0 <= index < |s| {
      forall i, j | 0 <= i < j < |r|
        ensures r[i] != r[j]
      {
        var i' := if i < index then i else i + 1;
        var j' := if j < index then j else j + 1;
        assert r[i] == s[i'] && r[j] == s[j'] && i' < j';
      }
    }
  }

  /** The common labels offered as buttons: those not yet in the list, in
      their fixed order. */
  function OfferedCommon(current: seq<string>): (offered: seq<string>)
    ensures forall i :: 0 <= i < |offered| ==> offered[i] in CommonSpecializations && offered[i] !in current
    ensures forall i :: 0 <= i < |CommonSpecializations| && CommonSpecializations[i] !in current ==>
      CommonSpecializations[i] in offered
  {
    JsArray.Filter(CommonSpecializations, spec => spec !in current)
  }

  /** Appending a label that is new keeps the list well formed while the
      limit is not reached. */
  lemma AppendKeepsWellFormed(s: seq<string>, x: string)
    requires WellFormed(s) && x !in s && |s| < MaxSpecializations
    ensures WellFormed(s + [x])
  {
  }

  class SpecializationsEditor {
    var specializations: seq<string>
    var inputValue: string

    /** The editor opened on the agent's stored list. */
    constructor (stored: Option<seq<string>>)
      ensures specializations == InitialList(stored) && inputValue == ""
    {
      specializations := InitialList(stored);
      inputValue := "";
    }

    /** `handleAddSpecialization`: the trimmed input is appended and the
        input cleared when it is non-empty, new and the list has room;
        otherwise nothing changes. */
    method Add()
      modifies this
      ensures var t := Text.Trim(old(inputValue));
        if t != "" && t !in old(specializations) && |old(specializations)| < MaxSpecializations
        then specializations == old(specializations) + [t] && inputValue == ""
        else specializations == old(specializations) && inputValue == old(inputValue)
      ensures WellFormed(old(specializations)) ==> WellFormed(specializations)
    {
      var trimmed := Text.Trim(inputValue);
      if trimmed != "" && trimmed !in specializations && |specializations| < MaxSpecializations {
        specializations := specializations + [trimmed];
        inputValue := "";
      }
    }

    /** `handleKeyPress`: Enter adds, any other key does nothing. */
    method KeyPress(key: string)
      modifies this
      ensures key != "Enter" ==> specializations == old(specializations) && inputValue == old(inputValue)
      ensures key == "Enter" ==> var t := Text.Trim(old(inputValue));
        if t != "" && t !in old(specializations) && |old(specializations)| < MaxSpecializations
        then specializations == old(specializations) + [t] && inputValue == ""
        else specializations == old(specializations) && inputValue == old(inputValue)
      ensures WellFormed(old(specializations)) ==> WellFormed(specializations)
    {
      if key == "Enter" {
        Add();
      }
    }

    /** `handleRemoveSpecialization(index)` */
    method Remove(index: int)
      modifies this
      ensures specializations == RemoveAt(old(specializations), index)
      ensures inputValue == old(inputValue)
      ensures WellFormed(old(specializations)) ==> WellFormed(specializations)
    {
      if WellFormed(specializations) {
        RemoveKeepsWellFormed(specializations, index);
      }
      specializations := RemoveAt(specializations, index);
    }

    /** A click on the common-label button at position `i` of the offered
        buttons: the label is appended while the list has room. */
    method AddCommon(i: nat)
      requires i < |OfferedCommon(specializations)|
      modifies this
      ensures var spec := OfferedCommon(old(specializations))[i];
        specializations == if |old(specializations)| < MaxSpecializations
          then old(specializations) + [spec] else old(specializations)
      ensures inputValue == old(inputValue)
      ensures WellFormed(old(specializations)) ==> WellFormed(specializations)
    {
      var spec := OfferedCommon(specializations)[i];
      if |specializations| < MaxSpecializations {
        specializations := specializations + [spec];
      }
    }
  }
}
