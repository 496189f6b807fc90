/**
 * The checkout-session store of frontend/src/courses/localStorage.ts: one
 * browser-storage entry, `COURSE_CHECKOUT_IDS`, holding a JSON object from
 * course id to checkout session id.
 *
 * The entry is modelled as the decoded object, or None when the entry is
 * absent. The JSON text itself is not modelled: the module only ever
 * stores what it encoded, so decoding returns the object written.
 */
module CheckoutStorage {
  import opened Wrappers
  import opened Strings

  /** The browser-storage key of the entry. */
  const StorageKey: string := "COURSE_CHECKOUT_IDS"

  /** The entry: the decoded object, or None when it is absent. */
  type Slot = Option<map<string, string>>

  /** `getAllCheckoutSessionIds`: the stored object, or `{}` when there is none. */
  function GetAll(slot: Slot): (ids: map<string, string>)
    ensures slot.None? ==> ids == map[]
    ensures slot.Some? ==> ids == slot.value
  {
    match slot
    case None => map[]
    case Some(m) => m
  }

  /** `getCheckoutSessionId`: the stored id for a course, or '' for a missing course id or entry. */
  function GetCheckoutSessionId(slot: Slot, courseId: Option<string>): (id: string)
    ensures !Truthy(courseId) ==> id == ""
    ensures Truthy(courseId) && courseId.value !in GetAll(slot) ==> id == ""
    ensures Truthy(courseId) && courseId.value in GetAll(slot) ==> id == GetAll(slot)[courseId.value]
  {
    if !Truthy(courseId) then ""
    else match slot
      case None => ""
      case Some(m) => if courseId.value in m then m[courseId.value] else ""
  }

  /** `setCheckoutSessionId`: records the id for the course, keeping the others; a no-op without both. */
  function SetCheckoutSessionId(slot: Slot, courseId: Option<string>, checkoutId: Option<string>): (slot': Slot)
    ensures !Truthy(courseId) || !Truthy(checkoutId) ==> slot' == slot
    ensures Truthy(courseId) && Truthy(checkoutId) ==>
              slot'.Some? && courseId.value in slot'.value && slot'.value[courseId.value] == checkoutId.value
    ensures Truthy(courseId) && Truthy(checkoutId) ==>
              forall c :: c != courseId.value ==> (c in GetAll(slot') <==> c in GetAll(slot))
  {
    if !Truthy(courseId) || !Truthy(checkoutId) then slot
    else Some(GetAll(slot)[courseId.value := checkoutId.value])
  }

  /** `clearCheckoutSessionIds`: removes the entry. */
  function Clear(slot: Slot): (slot': Slot)
    ensures GetAll(slot') == map[]
  {
    None
  }

  /** What is set is what is read back. */
  lemma GetAfterSet(slot: Slot, courseId: string, checkoutId: string)
    requires courseId != "" && checkoutId != ""
    ensures GetCheckoutSessionId(SetCheckoutSessionId(slot, Some(courseId), Some(checkoutId)), Some(courseId)) == checkoutId
  {
  }

  /** Setting one course's id leaves every other course's id as it was. */
  lemma SetKeepsOthers(slot: Slot, courseId: string, checkoutId: string, other: Option<string>)
    requires courseId != "" && checkoutId != ""
    requires other != Some(courseId)
    ensures GetCheckoutSessionId(SetCheckoutSessionId(slot, Some(courseId), Some(checkoutId)), other)
         == GetCheckoutSessionId(slot, other)
  {
  }

  /** A single read agrees with the read of the whole object, with '' for a missing course. */
  lemma GetAgreesWithGetAll(slot: Slot, courseId: string)
    requires courseId != ""
    ensures GetCheckoutSessionId(slot, Some(courseId))
         == (if courseId in GetAll(slot) then GetAll(slot)[courseId] else "")
  {
  }

  /** After clearing, no course has a checkout id. */
  lemma ClearForgetsAll(slot: Slot, courseId: Option<string>)
    ensures GetCheckoutSessionId(Clear(slot), courseId) == ""
  {
  }
}
