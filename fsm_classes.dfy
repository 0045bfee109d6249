/**
 * The two aiogram `StatesGroup`s of FSM_Classes.py: their members in
 * declaration order, the successor used by `StatesGroup.next()`, and the
 * names under which the FSM storage records them ("Group:member").
 */
module FsmClasses {
  import opened Wrappers

  /** The members of `RegistrationStates`, declared in this order. */
  datatype RegistrationState =
    | WaitingForFullName
    | WaitingForPhoneNumber
    | WaitingForWorkplace
    | ConfirmationApplication

  /** The members of `KGMPickupStates`, declared in this order. */
  datatype PickupState =
    | WaitingForFullName
    | WaitingForPhoneNumber
    | WaitingForManagementCompany
    | WaitingForAddress
    | WaitingForWasteType
    | WaitingForComment
    | WaitingForPhoto
    | WaitingForConfirmation

  /** A state of either group. */
  datatype State = Registration(r: RegistrationState) | Pickup(p: PickupState)

  /** `RegistrationStates.all_states`: the declaration order. */
  const RegistrationOrder: seq<RegistrationState> := [
    RegistrationState.WaitingForFullName,
    RegistrationState.WaitingForPhoneNumber,
    RegistrationState.WaitingForWorkplace,
    RegistrationState.ConfirmationApplication
  ]

  /** `KGMPickupStates.all_states`: the declaration order. */
  const PickupOrder: seq<PickupState> := [
    PickupState.WaitingForFullName,
    PickupState.WaitingForPhoneNumber,
    PickupState.WaitingForManagementCompany,
    PickupState.WaitingForAddress,
    PickupState.WaitingForWasteType,
    PickupState.WaitingForComment,
    PickupState.WaitingForPhoto,
    PickupState.WaitingForConfirmation
  ]

  /** The position of a registration state in its group. */
  function RegistrationIndex(s: RegistrationState): (i: nat)
    ensures i < |RegistrationOrder| && RegistrationOrder[i] == s
  {
    match s
    case WaitingForFullName => 0
    case WaitingForPhoneNumber => 1
    case WaitingForWorkplace => 2
    case ConfirmationApplication => 3
  }

  /** The position of a pickup state in its group. */
  function PickupIndex(s: PickupState): (i: nat)
    ensures i < |PickupOrder| && PickupOrder[i] == s
  {
    match s
    case WaitingForFullName => 0
    case WaitingForPhoneNumber => 1
    case WaitingForManagementCompany => 2
    case WaitingForAddress => 3
    case WaitingForWasteType => 4
    case WaitingForComment => 5
    case WaitingForPhoto => 6
    case WaitingForConfirmation => 7
  }

  /**
   * The state `RegistrationStates.next()` moves to from `s`; `None` past the
   * last member, where aiogram clears the state.
   */
  function RegistrationNext(s: RegistrationState): (r: Option<RegistrationState>)
    ensures r.Some? <==> RegistrationIndex(s) + 1 < |RegistrationOrder|
    ensures r.Some? ==> RegistrationIndex(r.value) == RegistrationIndex(s) + 1
  {
    match s
    case WaitingForFullName => Some(RegistrationState.WaitingForPhoneNumber)
    case WaitingForPhoneNumber => Some(RegistrationState.WaitingForWorkplace)
    case WaitingForWorkplace => Some(RegistrationState.ConfirmationApplication)
    case ConfirmationApplication => None
  }

  /** The state `KGMPickupStates.next()` moves to from `s`. */
  function PickupNext(s: PickupState): (r: Option<PickupState>)
    ensures r.Some? <==> PickupIndex(s) + 1 < |PickupOrder|
    ensures r.Some? ==> PickupIndex(r.value) == PickupIndex(s) + 1
  {
    match s
    case WaitingForFullName => Some(PickupState.WaitingForPhoneNumber)
    case WaitingForPhoneNumber => Some(PickupState.WaitingForManagementCompany)
    case WaitingForManagementCompany => Some(PickupState.WaitingForAddress)
    case WaitingForAddress => Some(PickupState.WaitingForWasteType)
    case WaitingForWasteType => Some(PickupState.WaitingForComment)
    case WaitingForComment => Some(PickupState.WaitingForPhoto)
    case WaitingForPhoto => Some(PickupState.WaitingForConfirmation)
    case WaitingForConfirmation => None
  }

  /** The registration group lists each of its four states exactly once, in declared order. */
  lemma RegistrationOrderIsEnumeration()
    ensures |RegistrationOrder| == 4
    ensures forall i, j :: 0 <= i < j < |RegistrationOrder| ==> RegistrationOrder[i] != RegistrationOrder[j]
    ensures RegistrationOrder[0] == RegistrationState.WaitingForFullName
    ensures RegistrationOrder[3] == RegistrationState.ConfirmationApplication
  {
  }

  /** The pickup group lists each of its eight states exactly once, ending with the confirmation. */
  lemma PickupOrderIsEnumeration()
    ensures |PickupOrder| == 8
    ensures forall i, j :: 0 <= i < j < |PickupOrder| ==> PickupOrder[i] != PickupOrder[j]
    ensures PickupOrder[|PickupOrder| - 1] == PickupState.WaitingForConfirmation
  {
  }

  /** The workplace step is followed by the confirmation step, which is the last one. */
  lemma RegistrationEnds()
    ensures RegistrationNext(RegistrationState.WaitingForWorkplace) == Some(RegistrationState.ConfirmationApplication)
    ensures RegistrationNext(RegistrationState.ConfirmationApplication) == None
    ensures forall s :: RegistrationNext(s) != Some(RegistrationState.WaitingForFullName)
  {
  }

  /** The photo step comes after the comment step and directly before the confirmation step. */
  lemma PickupPhotoPrecedesConfirmation()
    ensures PickupIndex(PickupState.WaitingForComment) < PickupIndex(PickupState.WaitingForPhoto)
    ensures PickupNext(PickupState.WaitingForPhoto) == Some(PickupState.WaitingForConfirmation)
    ensures PickupNext(PickupState.WaitingForConfirmation) == None
  {
  }

  /** The class name aiogram uses as the group's prefix. */
  function GroupName(s: State): string
  {
    match s
    case Registration(_) => "RegistrationStates"
    case Pickup(_) => "KGMPickupStates"
  }

  /** The attribute name of the member inside its class. */
  function MemberName(s: State): string
  {
    match s
    case Registration(r) => (
      match r
      case WaitingForFullName => "waiting_for_full_name"
      case WaitingForPhoneNumber => "waiting_for_phone_number"
      case WaitingForWorkplace => "waiting_for_workplace"
      case ConfirmationApplication => "confirmation_application")
    case Pickup(p) =>
      match p
      case WaitingForFullName => "waiting_for_full_name"
      case WaitingForPhoneNumber => "waiting_for_phone_number"
      case WaitingForManagementCompany => "waiting_for_management_company"
      case WaitingForAddress => "waiting_for_address"
      case WaitingForWasteType => "waiting_for_waste_type"
      case WaitingForComment => "waiting_for_comment"
      case WaitingForPhoto => "waiting_for_photo"
      case WaitingForConfirmation => "waiting_for_confirmation"
  }

  /** The string under which the FSM storage records a state: "Group:member". */
  function StateName(s: State): string
  {
    GroupName(s) + ":" + MemberName(s)
  }

  /**
   * Both groups declare `waiting_for_full_name` and `waiting_for_phone_number`,
   * yet no two states share a storage name, so no registration state is ever
   * mistaken for a pickup state.
   */
  lemma StateNameInjective(a: State, b: State)
    requires StateName(a) == StateName(b)
    ensures a == b
  {
    // Equal names with the same prefix leave equal member names; different
    // prefixes cannot give equal names, since neither group name contains ':'.
    if GroupName(a) == GroupName(b) {
      var k := |GroupName(a)| + 1;
      assert StateName(a)[k..] == MemberName(a);
      assert StateName(b)[k..] == MemberName(b);
    } else {
      SeparatorPosition(a);
      SeparatorPosition(b);
      assert false;
    }
  }

  /** The character at position 15 tells the two group prefixes apart. */
  lemma SeparatorPosition(s: State)
    ensures |StateName(s)| > 15
    ensures StateName(s)[15] == ':' <==> s.Pickup?
  {
  }
}
