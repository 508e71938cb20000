/**
 * The framework records the adapter reads (Shipment, Address, Contact, the
 * User row of the pickup contact, the DHL Billing Number table, DHL Settings)
 * and the errors a shipment request can end in.
 */
module Records {
  import opened Wrappers
  import opened Dates

  type Bytes = seq<bv8>

  /** An Address record; every field may be unset. */
  datatype Address = Address(
    addressLine1: Option<string>,
    addressLine2: Option<string>,
    pincode: Option<string>,
    city: Option<string>,
    state: Option<string>,
    country: Option<string>)

  /** A Contact record (the delivery contact). */
  datatype Contact = Contact(
    firstName: Option<string>,
    lastName: Option<string>,
    phone: Option<string>,
    mobileNo: Option<string>,
    emailId: Option<string>)

  /** The `full_name` and `email` columns of the pickup contact's User row. */
  datatype UserRow = UserRow(fullName: Option<string>, email: Option<string>)

  /** One row of a shipment's parcel table. */
  datatype Parcel = Parcel(height: real, length: real, width: real, weight: real)

  /** A Shipment record: what the request is built from, and the four result fields written back. */
  datatype Shipment = Shipment(
    pickupDate: Date,
    pickupAddressName: string,
    pickupContactPerson: string,
    pickupCompany: Option<string>,
    deliveryAddressName: string,
    deliveryContactName: string,
    deliveryCustomer: Option<string>,
    parcels: seq<Parcel>,
    serviceProvider: Option<string>,
    carrier: Option<string>,
    carrierService: Option<string>,
    shipmentId: Option<string>)

  /**
   * The records the adapter looks up by name: addresses, contacts, user rows,
   * and the billing number stored for each DHL service name (unset when the
   * row has no number).
   */
  datatype Records = Records(
    addresses: map<string, Address>,
    contacts: map<string, Contact>,
    users: map<string, UserRow>,
    billingNumbers: map<string, Option<string>>)

  /** The DHL Settings single record, with its secrets already decrypted. */
  datatype Settings = Settings(
    enabled: bool,
    apiKey: string,
    apiSecret: string,
    username: string,
    password: string,
    isSandbox: bool)

  /** Why an exception inside the request block was raised. */
  datatype Cause =
    | TransportFailure(text: string)  // the HTTP call itself raised, with this text
    | BodyNotJson                     // `response.json()` could not parse the body
    | LabelMissing                    // the first item carries no `label.b64`
    | LabelNotBase64                  // `label.b64` does not decode

  /** The ways a shipment request ends in an exception. */
  datatype Error =
    | Disabled                                 // DHL Settings has `enabled` unset
    | PickupDateInPast                         // pickup date before today
    | MissingBillingNumber(service: string)    // no usable billing number for this service name
    | DoesNotExist(doctype: string, name: string)  // `get_doc` of a missing record
    | NoUserRow(user: string)                  // no User row to unpack for the pickup contact
    | NoParcel                                 // `shipment_parcel[0]` of an empty table
    | Rethrown(cause: Cause)                   // re-raised by `frappe.throw(str(e))`

  /**
   * The text shown to the user for the errors the adapter raises itself;
   * `None` for the exceptions Python or the framework raise, whose texts are
   * not part of this model.
   */
  function UserMessage(e: Error): (m: Option<string>)
    ensures e.MissingBillingNumber? ==> m.Some? && |m.value| > 38 + |e.service| && m.value[38..38 + |e.service|] == e.service
    ensures e.Rethrown? && e.cause.TransportFailure? ==> m == Some(e.cause.text)
    ensures m.Some? <==> e.Disabled? || e.PickupDateInPast? || e.MissingBillingNumber? || (e.Rethrown? && e.cause.TransportFailure?)
  {
    match e
    case Disabled => Some("Please enable DHL Integration in DHL Settings")
    case PickupDateInPast => Some("The pickup date must be after today's date")
    case MissingBillingNumber(service) =>
      Some("Please enter a billing number for the " + service + " service in DHL Settings")
    case Rethrown(TransportFailure(text)) => Some(text)
    case _ => None
  }
}
