/**
 * The checkout page: its total (no coupon at this step), the address form
 * with its validation chain, the address record it saves, the default
 * address selection, and the guard on moving to payment.
 */
module Checkout {
  import opened Wrappers
  import opened Strings
  import opened Models
  import opened Catalog
  import opened Pricing

  /** The checkout total: the cart total, without any coupon; every line must carry a price. */
  function CheckoutTotal(cart: seq<CartItem>, isPremium: bool, premiumExpiry: Option<int>, now: int): (r: int)
    requires Priced(cart)
    ensures r == CartTotal(Subtotal(cart), Discount(isPremium, premiumExpiry, now))
    ensures r == PaymentTotal(Subtotal(cart), Discount(isPremium, premiumExpiry, now), 0)
  {
    CartTotal(Subtotal(cart), Discount(isPremium, premiumExpiry, now))
  }

  /** The address form; `id` is "" for a new address. */
  datatype AddressForm = AddressForm(id: string, name: string, phone: string, street: string, city: string,
                                     state: string, pincode: string, isDefault: bool)

  const EmptyForm := AddressForm("", "", "", "", "", "", "", false)

  const LoginRequired := "Please login to save addresses"
  const FieldsRequired := "Please fill in all required fields"
  const BadPhone := "Please enter a valid 10-digit phone number starting with 6-9"
  const BadPincode := "Please enter a valid 6-digit pincode"

  predicate RequiredPresent(f: AddressForm) {
    f.phone != "" && f.street != "" && f.city != "" && f.state != "" && f.pincode != ""
  }

  /** `handleAddressSubmit`'s checks in order; the first failure's message is the result. The name is optional. */
  function ValidateAddress(loggedIn: bool, f: AddressForm): (r: Option<string>)
    ensures r.None? <==>
      loggedIn && RequiredPresent(f) && MatchesPhonePattern(f.phone) && MatchesPincodePattern(f.pincode)
    ensures r == Some(LoginRequired) <==> !loggedIn
    ensures r == Some(FieldsRequired) <==> loggedIn && !RequiredPresent(f)
    ensures r == Some(BadPhone) <==> loggedIn && RequiredPresent(f) && !MatchesPhonePattern(f.phone)
    ensures r == Some(BadPincode) <==>
      loggedIn && RequiredPresent(f) && MatchesPhonePattern(f.phone) && !MatchesPincodePattern(f.pincode)
  {
    if !loggedIn then Some(LoginRequired)
    else if !RequiredPresent(f) then Some(FieldsRequired)
    else if !MatchesPhonePattern(f.phone) then Some(BadPhone)
    else if !MatchesPincodePattern(f.pincode) then Some(BadPincode)
    else None
  }

  /** The name alone never decides validity. */
  lemma NameOptional(loggedIn: bool, f: AddressForm, name: string)
    ensures ValidateAddress(loggedIn, f.(name := name)) == ValidateAddress(loggedIn, f)
  {
  }

  /** The record sent to the server. */
  datatype AddressData = AddressData(name: string, address: string, city: string, state: string, country: string,
                                     postalCode: string, phone: string, isDefault: bool)

  /** Every text field trimmed, the country fixed to India. */
  function ToAddressData(f: AddressForm): (d: AddressData)
    ensures d.name == Trim(f.name) && d.address == Trim(f.street) && d.city == Trim(f.city) && d.state == Trim(f.state)
    ensures d.country == "India" && d.postalCode == Trim(f.pincode) && d.phone == Trim(f.phone) && d.isDefault == f.isDefault
  {
    AddressData(Trim(f.name), Trim(f.street), Trim(f.city), Trim(f.state), "India", Trim(f.pincode), Trim(f.phone), f.isDefault)
  }

  /** On a form that passed validation, the phone and pincode are sent exactly as typed. */
  lemma ValidatedDigitsUntouched(loggedIn: bool, f: AddressForm)
    requires ValidateAddress(loggedIn, f).None?
    ensures ToAddressData(f).phone == f.phone && ToAddressData(f).postalCode == f.pincode
    ensures MatchesPhonePattern(ToAddressData(f).phone) && MatchesPincodePattern(ToAddressData(f).postalCode)
  {
    DigitsTrimmed(f.phone);
    DigitsTrimmed(f.pincode);
  }

  datatype SaveRequest = EditAddress(id: string, data: AddressData) | CreateAddress(data: AddressData)

  /** A form with an id edits that address; without one it creates a new address. */
  function SaveRequestFor(f: AddressForm): (r: SaveRequest)
    ensures r.EditAddress? <==> f.id != ""
    ensures r.EditAddress? ==> r.id == f.id
    ensures r.data == ToAddressData(f)
  {
    if f.id != "" then EditAddress(f.id, ToAddressData(f)) else CreateAddress(ToAddressData(f))
  }

  /** The id of the first default address, if any. */
  function FirstDefault(addresses: seq<Address>): (r: Option<string>)
    ensures r.None? <==> forall i :: 0 <= i < |addresses| ==> !addresses[i].isDefault
    ensures r.Some? ==> exists i :: 0 <= i < |addresses| && addresses[i].isDefault && addresses[i].id == r.value
                                    && forall j :: 0 <= j < i ==> !addresses[j].isDefault
  {
    if |addresses| == 0 then None
    else if addresses[0].isDefault then Some(addresses[0].id)
    else
      var rest := FirstDefault(addresses[1..]);
      assert forall i :: 0 < i < |addresses| ==> addresses[i] == addresses[1..][i - 1];
      if rest.Some? then
        ghost var k :| 0 <= k < |addresses[1..]| && addresses[1..][k].isDefault && addresses[1..][k].id == rest.value
                       && forall j :: 0 <= j < k ==> !addresses[1..][j].isDefault;
        assert addresses[k + 1] == addresses[1..][k];
        rest
      else rest
  }

  /**
   * The selection after the addresses load: the default address, else the
   * only address, else the previous selection is kept.
   */
  function SelectionAfterLoad(previous: string, addresses: seq<Address>): (r: string)
    ensures FirstDefault(addresses).Some? ==> r == FirstDefault(addresses).value
    ensures FirstDefault(addresses).None? && |addresses| == 1 ==> r == addresses[0].id
    ensures FirstDefault(addresses).None? && |addresses| != 1 ==> r == previous
  {
    var d := FirstDefault(addresses);
    if d.Some? then d.value else if |addresses| == 1 then addresses[0].id else previous
  }

  /** The outcome of the save request: success, or the server's message ("" when none). */
  datatype SaveOutcome = Saved | SaveFailed(message: string)

  const SelectAddress := "Please select a shipping address"

  /** The page state; `error` is "" when no error shows, `selectedAddress` "" when none is chosen. */
  class CheckoutPage {
    var addresses: seq<Address>
    var selectedAddress: string
    var newAddress: AddressForm
    var error: string
    var addressDialog: bool

    constructor ()
      ensures addresses == [] && selectedAddress == "" && newAddress == EmptyForm && error == "" && !addressDialog
    {
      addresses := [];
      selectedAddress := "";
      newAddress := EmptyForm;
      error := "";
      addressDialog := false;
    }

    /** `fetchAddresses` once the list arrives. */
    method LoadAddresses(list: seq<Address>)
      modifies this
      ensures addresses == list && selectedAddress == SelectionAfterLoad(old(selectedAddress), list)
      ensures newAddress == old(newAddress) && error == old(error) && addressDialog == old(addressDialog)
    {
      addresses := list;
      var d := FirstDefault(list);
      if d.Some? {
        selectedAddress := d.value;
      } else if |list| == 1 {
        selectedAddress := list[0].id;
      }
    }

    /**
     * `handleAddressSubmit`. A failed check sets its message and sends
     * nothing; otherwise the request is returned and `outcome` is the
     * server's answer to it. A successful save closes the dialog, clears the
     * error and empties the form.
     */
    method SubmitAddress(loggedIn: bool, outcome: SaveOutcome) returns (request: Option<SaveRequest>)
      modifies this
      ensures ValidateAddress(loggedIn, old(newAddress)).Some? ==>
        request.None? && error == ValidateAddress(loggedIn, old(newAddress)).value
        && newAddress == old(newAddress) && addressDialog == old(addressDialog)
      ensures ValidateAddress(loggedIn, old(newAddress)).None? ==>
        request == Some(SaveRequestFor(old(newAddress)))
        && (outcome.Saved? ==> newAddress == EmptyForm && error == "" && !addressDialog)
        && (outcome.SaveFailed? ==>
              newAddress == old(newAddress) && addressDialog == old(addressDialog)
              && error == (if outcome.message != "" then outcome.message else "Failed to save address"))
      ensures addresses == old(addresses) && selectedAddress == old(selectedAddress)
    {
      var invalid := ValidateAddress(loggedIn, newAddress);
      if invalid.Some? {
        error := invalid.value;
        return None;
      }
      request := Some(SaveRequestFor(newAddress));
      match outcome {
        case Saved =>
          addressDialog := false;
          error := "";
          newAddress := EmptyForm;
        case SaveFailed(message) =>
          error := if message != "" then message else "Failed to save address";
      }
    }

    /** `handleNext`: without a selection an error shows and nothing navigates. */
    method Next() returns (navigate: Option<string>)
      modifies this
      ensures selectedAddress == old(selectedAddress) && addresses == old(addresses) && newAddress == old(newAddress)
      ensures addressDialog == old(addressDialog)
      ensures old(selectedAddress) == "" ==> navigate.None? && error == SelectAddress
      ensures old(selectedAddress) != "" ==> navigate == Some("/payment") && error == ""
    {
      if selectedAddress == "" {
        error := SelectAddress;
        return None;
      }
      navigate := Some("/payment");
      error := "";
    }
  }
}
