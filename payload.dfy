/**
 * The request a shipment becomes: the DHL product chosen from the
 * consignee's country, the `shipper`, `consignee` and `details` blocks, and
 * the ordered checks `create_shipment` runs before it sends anything.
 */
module Payload {
  import opened Wrappers
  import opened Values
  import opened Dates
  import opened Records

  const HOME_COUNTRY := "Germany"
  const DHL_PAKET := "DHLPaket"
  const DHL_PAKET_INTERNATIONAL := "DHLPaketInternational"
  const V01PAK := "V01PAK"
  const V53WPAK := "V53WPAK"

  /** `get_country_code`, whose definition is not part of this model: any function of the country name. */
  type CountryCodes = Option<string> -> Option<string>

  /** The product name: `DHLPaket` for a consignee in Germany, `DHLPaketInternational` otherwise. */
  function ProductFor(country: Option<string>): (product: string)
    ensures product == DHL_PAKET <==> country == Some(HOME_COUNTRY)
    ensures product == DHL_PAKET_INTERNATIONAL <==> country != Some(HOME_COUNTRY)
  {
    if country != Some(HOME_COUNTRY) then DHL_PAKET_INTERNATIONAL else DHL_PAKET
  }

  /** The product code the request carries, decided by the product name alone. */
  function ProductCode(product: string): (code: string)
    ensures code == V01PAK <==> product == DHL_PAKET
    ensures code == V53WPAK <==> product != DHL_PAKET
  {
    if product == DHL_PAKET then V01PAK else V53WPAK
  }

  const SHIPPER_KEYS: set<string> :=
    {"name1", "addressStreet", "postalCode", "city", "country", "contactName", "email"}

  const CONSIGNEE_KEYS: set<string> :=
    {"name1", "addressStreet", "postalCode", "city", "state", "country", "contactName", "phone", "email"}

  const SHIPMENT_KEYS: set<string> :=
    {"product", "billingNumber", "shipDate", "shipper", "consignee", "details"}

  /**
   * The `shipper` block, from the shipment's pickup side: fields are copied
   * as they are (an unset field becomes `null`), and `addressHouse` is added
   * only for a non-empty second address line.
   */
  function Shipper(doc: Shipment, address: Address, user: UserRow, countryCode: CountryCodes): (r: map<string, Json>)
    ensures r.Keys == SHIPPER_KEYS + (if Truthy(address.addressLine2) then {"addressHouse"} else {})
    ensures Truthy(address.addressLine2) ==> r["addressHouse"] == JStr(address.addressLine2.value)
    ensures r["name1"] == Raw(doc.pickupCompany) && r["addressStreet"] == Raw(address.addressLine1)
    ensures r["city"] == Raw(address.city) && r["postalCode"] == Raw(address.pincode)
    ensures r["postalCode"].JNull? <==> address.pincode.None?
    ensures r["contactName"] == Raw(user.fullName) && r["email"] == Raw(user.email)
    ensures r["country"] == Raw(countryCode(address.country))
  {
    var block := map[
      "name1" := Raw(doc.pickupCompany),
      "addressStreet" := Raw(address.addressLine1),
      "postalCode" := Raw(address.pincode),
      "city" := Raw(address.city),
      "country" := Raw(countryCode(address.country)),
      "contactName" := Raw(user.fullName),
      "email" := Raw(user.email)];
    if Truthy(address.addressLine2) then block["addressHouse" := JStr(address.addressLine2.value)] else block
  }

  /**
   * The `consignee` block and the product name, from the delivery side:
   * postal code, state, phone and e-mail are never `null` (they default to
   * `""`), the phone falls back to the mobile number, and the contact name
   * is first name, a space, and the last name if there is one.
   */
  function Consignee(doc: Shipment, address: Address, contact: Contact, countryCode: CountryCodes): (r: (map<string, Json>, string))
    ensures r.0.Keys == CONSIGNEE_KEYS + (if Truthy(address.addressLine2) then {"additionalAddressInformation1"} else {})
    ensures Truthy(address.addressLine2) ==> r.0["additionalAddressInformation1"] == JStr(address.addressLine2.value)
    ensures r.0["name1"] == Raw(doc.deliveryCustomer) && r.0["addressStreet"] == Raw(address.addressLine1)
    ensures r.0["city"] == Raw(address.city)
    ensures r.0["postalCode"].JStr? && r.0["state"].JStr? && r.0["phone"].JStr? && r.0["email"].JStr?
    ensures r.0["postalCode"] == JStr(OrEmpty(address.pincode)) && r.0["state"] == JStr(OrEmpty(address.state))
    ensures r.0["email"] == JStr(OrEmpty(contact.emailId))
    ensures Truthy(contact.phone) ==> r.0["phone"] == JStr(contact.phone.value)
    ensures !Truthy(contact.phone) && Truthy(contact.mobileNo) ==> r.0["phone"] == JStr(contact.mobileNo.value)
    ensures !Truthy(contact.phone) && !Truthy(contact.mobileNo) ==> r.0["phone"] == JStr("")
    ensures Truthy(contact.lastName) ==> r.0["contactName"] == JStr(Show(contact.firstName) + " " + contact.lastName.value)
    ensures !Truthy(contact.lastName) ==> r.0["contactName"] == JStr(Show(contact.firstName) + " ")
    ensures r.0["country"] == Raw(countryCode(address.country))
    ensures r.1 == ProductFor(address.country)
  {
    var contactName := Show(contact.firstName) + " " + OrEmpty(contact.lastName);
    var withSpace := Show(contact.firstName) + " ";
    assert withSpace + "" == withSpace;
    var block := map[
      "name1" := Raw(doc.deliveryCustomer),
      "addressStreet" := Raw(address.addressLine1),
      "postalCode" := JStr(OrEmpty(address.pincode)),
      "city" := Raw(address.city),
      "state" := JStr(OrEmpty(address.state)),
      "country" := Raw(countryCode(address.country)),
      "contactName" := JStr(contactName),
      "phone" := JStr(if Truthy(contact.phone) then contact.phone.value else OrEmpty(contact.mobileNo)),
      "email" := JStr(OrEmpty(contact.emailId))];
    var consignee :=
      if Truthy(address.addressLine2) then block["additionalAddressInformation1" := JStr(address.addressLine2.value)]
      else block;
    var product := if address.country != Some(HOME_COUNTRY) then DHL_PAKET_INTERNATIONAL else DHL_PAKET;
    (consignee, product)
  }

  /**
   * The `details` block: the dimensions in `cm` and the weight in `kg` of the
   * first parcel, copied unchanged; `idx` is not used. `None` when the parcel
   * table is empty (indexing it raises).
   */
  function Details(doc: Shipment, idx: int): (r: Option<map<string, Json>>)
    ensures r.None? <==> doc.parcels == []
    ensures r.Some? ==> r.value.Keys == {"dim", "weight"}
    ensures r.Some? ==> r.value["dim"] == JObj(map[
                          "uom" := JStr("cm"),
                          "height" := JNum(doc.parcels[0].height),
                          "length" := JNum(doc.parcels[0].length),
                          "width" := JNum(doc.parcels[0].width)])
    ensures r.Some? ==> r.value["weight"] == JObj(map["uom" := JStr("kg"), "value" := JNum(doc.parcels[0].weight)])
  {
    if doc.parcels == [] then None
    else
      var parcel := doc.parcels[0];
      Some(map[
        "dim" := JObj(map[
          "uom" := JStr("cm"),
          "height" := JNum(parcel.height),
          "length" := JNum(parcel.length),
          "width" := JNum(parcel.width)]),
        "weight" := JObj(map["uom" := JStr("kg"), "value" := JNum(parcel.weight)])])
  }

  /** Only the first parcel reaches `details`: the index argument and every later parcel are ignored. */
  lemma DetailsFirstParcelOnly(doc: Shipment, idx: int, later: seq<Parcel>, otherIdx: int)
    requires doc.parcels != []
    ensures Details(doc.(parcels := [doc.parcels[0]] + later), otherIdx) == Details(doc, idx)
  {
  }

  /**
   * The billing number `get_value` returns for a service name, when it is
   * usable: the row exists and its number is neither unset nor empty.
   */
  function BillingNumber(records: Records, service: string): (b: Option<string>)
    ensures b.Some? <==> service in records.billingNumbers && Truthy(records.billingNumbers[service])
    ensures b.Some? ==> b == records.billingNumbers[service] && b.value != ""
  {
    if service in records.billingNumbers && Truthy(records.billingNumbers[service])
    then records.billingNumbers[service] else None
  }

  /** What `create_shipment` has assembled when all its checks pass: the product name and the shipment dictionary. */
  datatype Prepared = Prepared(product: string, shipment: map<string, Json>)

  /** The checks before the delivery side is looked up: the shipment exists and its pickup date is not before today. */
  predicate PickupAccepted(shipments: map<string, Shipment>, name: string, today: Date) {
    name in shipments && !Before(shipments[name].pickupDate, today)
  }

  /** The pickup checks pass and the delivery address and contact exist, so the product is known. */
  predicate ConsigneeResolved(records: Records, shipments: map<string, Shipment>, name: string, today: Date) {
    && PickupAccepted(shipments, name, today)
    && shipments[name].deliveryAddressName in records.addresses
    && shipments[name].deliveryContactName in records.contacts
  }

  /** The product name of an accepted shipment, from its delivery address's country. */
  function ResolvedProduct(records: Records, shipments: map<string, Shipment>, name: string, today: Date): string
    requires ConsigneeResolved(records, shipments, name, today)
  {
    ProductFor(records.addresses[shipments[name].deliveryAddressName].country)
  }

  /** The consignee is resolved and a usable billing number is stored for its product name. */
  predicate BillingResolved(records: Records, shipments: map<string, Shipment>, name: string, today: Date) {
    && ConsigneeResolved(records, shipments, name, today)
    && BillingNumber(records, ResolvedProduct(records, shipments, name, today)).Some?
  }

  /**
   * Lines 34-61 of `create_shipment`: load the shipment, reject a pickup date
   * before today, build the consignee and resolve the product, look up the
   * billing number for the product NAME, then build the shipper and details
   * blocks; each step raises before the next one runs.
   */
  function Prepare(records: Records, shipments: map<string, Shipment>, name: string, today: Date, countryCode: CountryCodes)
    : (r: Result<Prepared, Error>)
    ensures name !in shipments ==> r == Failure(DoesNotExist("Shipment", name))
    ensures r == Failure(PickupDateInPast) <==> name in shipments && Before(shipments[name].pickupDate, today)
    ensures (r.Failure? && r.error.MissingBillingNumber?) <==>
              ConsigneeResolved(records, shipments, name, today)
              && BillingNumber(records, ResolvedProduct(records, shipments, name, today)).None?
    ensures r.Failure? && r.error.MissingBillingNumber? ==>
              r.error.service == ResolvedProduct(records, shipments, name, today)
    ensures PickupAccepted(shipments, name, today) && shipments[name].deliveryAddressName !in records.addresses ==>
              r == Failure(DoesNotExist("Address", shipments[name].deliveryAddressName))
    ensures PickupAccepted(shipments, name, today) && shipments[name].deliveryAddressName in records.addresses
            && shipments[name].deliveryContactName !in records.contacts ==>
              r == Failure(DoesNotExist("Contact", shipments[name].deliveryContactName))
    ensures BillingResolved(records, shipments, name, today) && shipments[name].pickupAddressName !in records.addresses ==>
              r == Failure(DoesNotExist("Address", shipments[name].pickupAddressName))
    ensures BillingResolved(records, shipments, name, today) && shipments[name].pickupAddressName in records.addresses
            && shipments[name].pickupContactPerson !in records.users ==>
              r == Failure(NoUserRow(shipments[name].pickupContactPerson))
    ensures BillingResolved(records, shipments, name, today) && shipments[name].pickupAddressName in records.addresses
            && shipments[name].pickupContactPerson in records.users && shipments[name].parcels == [] ==>
              r == Failure(NoParcel)
    ensures r.Success? <==>
              && BillingResolved(records, shipments, name, today)
              && shipments[name].pickupAddressName in records.addresses
              && shipments[name].pickupContactPerson in records.users
              && shipments[name].parcels != []
    ensures r.Success? ==>
              && ConsigneeResolved(records, shipments, name, today)
              && var doc := shipments[name];
              && var product := ResolvedProduct(records, shipments, name, today);
              && r.value.product == product
              && r.value.shipment.Keys == SHIPMENT_KEYS
              && r.value.shipment["product"] == JStr(ProductCode(product))
              && BillingNumber(records, product).Some?
              && r.value.shipment["billingNumber"] == JStr(BillingNumber(records, product).value)
              && r.value.shipment["shipDate"] == JStr(IsoDate(doc.pickupDate))
              && doc.parcels != []
              && doc.pickupAddressName in records.addresses
              && doc.pickupContactPerson in records.users
              && r.value.shipment["shipper"] == JObj(Shipper(doc, records.addresses[doc.pickupAddressName],
                                                            records.users[doc.pickupContactPerson], countryCode))
              && r.value.shipment["consignee"] == JObj(Consignee(doc, records.addresses[doc.deliveryAddressName],
                                                                records.contacts[doc.deliveryContactName], countryCode).0)
              && r.value.shipment["details"] == JObj(Details(doc, 1).value)
  {
    if name !in shipments then Failure(DoesNotExist("Shipment", name))
    else
      var doc := shipments[name];
      if Before(doc.pickupDate, today) then Failure(PickupDateInPast)
      else if doc.deliveryAddressName !in records.addresses then Failure(DoesNotExist("Address", doc.deliveryAddressName))
      else if doc.deliveryContactName !in records.contacts then Failure(DoesNotExist("Contact", doc.deliveryContactName))
      else
        var (consignee, product) := Consignee(doc, records.addresses[doc.deliveryAddressName],
                                              records.contacts[doc.deliveryContactName], countryCode);
        var code := ProductCode(product);
        var billing := BillingNumber(records, product);
        if billing.None? then Failure(MissingBillingNumber(product))
        else if doc.pickupAddressName !in records.addresses then Failure(DoesNotExist("Address", doc.pickupAddressName))
        else if doc.pickupContactPerson !in records.users then Failure(NoUserRow(doc.pickupContactPerson))
        else
          var shipper := Shipper(doc, records.addresses[doc.pickupAddressName], records.users[doc.pickupContactPerson], countryCode);
          var details := Details(doc, 1);
          if details.None? then Failure(NoParcel)
          else Success(Prepared(product, map[
            "product" := JStr(code),
            "billingNumber" := JStr(billing.value),
            "shipDate" := JStr(IsoDate(doc.pickupDate)),
            "shipper" := JObj(shipper),
            "consignee" := JObj(consignee),
            "details" := JObj(details.value)]))
  }

  /** A pickup date before today is rejected whatever the billing numbers are: the billing table is not consulted. */
  lemma PastPickupIgnoresBilling(records: Records, shipments: map<string, Shipment>, name: string, today: Date,
                                 countryCode: CountryCodes, otherBilling: map<string, Option<string>>)
    requires name in shipments && Before(shipments[name].pickupDate, today)
    ensures Prepare(records, shipments, name, today, countryCode)
         == Prepare(records.(billingNumbers := otherBilling), shipments, name, today, countryCode)
         == Failure(PickupDateInPast)
  {
  }

  /** A pickup date equal to today passes the date check. */
  lemma PickupTodayAccepted(records: Records, shipments: map<string, Shipment>, name: string, today: Date,
                            countryCode: CountryCodes)
    requires name in shipments && shipments[name].pickupDate == today
    ensures Prepare(records, shipments, name, today, countryCode) != Failure(PickupDateInPast)
  {
  }

  /**
   * The billing number is looked up under the product name, not the code:
   * whatever number is stored under the code, a German consignee's shipment
   * is rejected when none is stored under the name.
   */
  lemma BillingKeyedByName(records: Records, shipments: map<string, Shipment>, name: string, today: Date,
                           countryCode: CountryCodes)
    requires ConsigneeResolved(records, shipments, name, today)
    requires records.addresses[shipments[name].deliveryAddressName].country == Some(HOME_COUNTRY)
    requires V01PAK in records.billingNumbers && Truthy(records.billingNumbers[V01PAK])
    requires !(DHL_PAKET in records.billingNumbers && Truthy(records.billingNumbers[DHL_PAKET]))
    ensures Prepare(records, shipments, name, today, countryCode) == Failure(MissingBillingNumber(DHL_PAKET))
  {
  }

  /**
   * Of the errors the checks before the POST can raise, the adapter's own
   * messages are shown exactly for the past pickup date and the missing
   * billing number; the others are Python's or the framework's exceptions.
   */
  lemma PrepareErrorMessages(records: Records, shipments: map<string, Shipment>, name: string, today: Date,
                             countryCode: CountryCodes)
    requires Prepare(records, shipments, name, today, countryCode).Failure?
    ensures var e := Prepare(records, shipments, name, today, countryCode).error;
            && (UserMessage(e).Some? <==> e.PickupDateInPast? || e.MissingBillingNumber?)
            && (e.PickupDateInPast? ==> UserMessage(e) == Some("The pickup date must be after today's date"))
  {
  }
}
