/**
 * `DHLUtils`: the settings it is constructed from, the request it sends to
 * DHL's `orders` endpoint, and what it does with the answer. The framework's
 * database, error log, file store and message box are the `Site` object its
 * methods update.
 */
module DhlUtils {
  import opened Wrappers
  import opened Values
  import opened Dates
  import opened Records
  import opened Payload

  const SANDBOX_BASE_URL := "https://api-sandbox.dhl.com/parcel/de/shipping/v2/"
  const PRODUCTION_BASE_URL := "https://api-eu.dhl.com/parcel/de/shipping/v2/"

  /** The settings a constructed `DHLUtils` holds; they do not change after construction. */
  datatype Client = Client(apiKey: string, apiSecret: string, username: string, password: string, baseUrl: string)

  /** `DHLUtils()`: refuses a disabled integration, otherwise picks the sandbox or production base URL. */
  function Connect(settings: Settings): (r: Result<Client, Error>)
    ensures r.Failure? <==> !settings.enabled
    ensures r.Failure? ==> r.error == Disabled
    ensures r.Success? ==> r.value.baseUrl == (if settings.isSandbox then SANDBOX_BASE_URL else PRODUCTION_BASE_URL)
    ensures r.Success? ==> r.value.apiKey == settings.apiKey && r.value.username == settings.username
                           && r.value.password == settings.password
  {
    if !settings.enabled then Failure(Disabled)
    else
      var baseUrl := if settings.isSandbox then SANDBOX_BASE_URL else PRODUCTION_BASE_URL;
      Success(Client(settings.apiKey, settings.apiSecret, settings.username, settings.password, baseUrl))
  }

  /** An HTTP POST as the adapter issues it: URL, headers and the JSON body before serialisation. */
  datatype Request = Request(url: string, headers: map<string, string>, body: Json)

  /** `base64.b64encode`, which is not part of this model: any function from text to text. */
  type Base64Encoder = string -> string

  /**
   * The request: `{"profile": "", "shipments": [shipment]}` posted to the
   * base URL followed by `/orders`, with basic authentication from the
   * user name and password and the API key in its own header.
   */
  function BuildRequest(client: Client, prepared: Prepared, b64encode: Base64Encoder): (req: Request)
    ensures req.url == client.baseUrl + "/orders"
    ensures req.headers.Keys == {"content-type", "Authorization", "dhl-api-key"}
    ensures req.headers["content-type"] == "application/json" && req.headers["dhl-api-key"] == client.apiKey
    ensures req.headers["Authorization"] == "Basic " + b64encode(client.username + ":" + client.password)
    ensures req.body.JObj? && req.body.fields.Keys == {"profile", "shipments"}
    ensures req.body.fields["profile"] == JStr("")
    ensures req.body.fields["shipments"] == JArr([JObj(prepared.shipment)])
  {
    var token := b64encode(client.username + ":" + client.password);
    Request(
      client.baseUrl + "/orders",
      map["content-type" := "application/json", "Authorization" := "Basic " + token, "dhl-api-key" := client.apiKey],
      JObj(map["profile" := JStr(""), "shipments" := JArr([JObj(prepared.shipment)])]))
  }

  /** The orders URL keeps the base URL's trailing slash, so the path has a doubled slash before `orders`. */
  lemma OrdersUrl(settings: Settings, prepared: Prepared, b64encode: Base64Encoder)
    requires settings.enabled
    ensures BuildRequest(Connect(settings).value, prepared, b64encode).url
         == if settings.isSandbox then "https://api-sandbox.dhl.com/parcel/de/shipping/v2//orders"
            else "https://api-eu.dhl.com/parcel/de/shipping/v2//orders"
  {
  }

  /** One entry of an item's `validationMessages`. */
  datatype ValidationMessage = ValidationMessage(property: string, validationMessage: string)

  /** One entry of the response's `items`. */
  datatype Item = Item(shipmentNo: Option<string>, labelB64: Option<string>, validationMessages: seq<ValidationMessage>)

  /** A parsed response body: its `items` list, if it has one. */
  datatype Body = Body(items: Option<seq<Item>>)

  /** `content.get("items")` is truthy: present and not empty. */
  predicate HasItems(body: Body) {
    body.items.Some? && body.items.value != []
  }

  /** What the POST gives back: an exception with its text, or a status and a body (`None` when it is not JSON). */
  datatype Reply = Raised(text: string) | Replied(status: int, body: Option<Body>)

  /** A row of the error table: a property and its description. */
  datatype Row = Row(property: string, description: string)

  /** The rows of one item: one per validation message, in order. */
  function MessageRows(messages: seq<ValidationMessage>): (rows: seq<Row>)
    ensures |rows| == |messages|
    ensures forall j :: 0 <= j < |messages| ==> rows[j] == Row(messages[j].property, messages[j].validationMessage)
  {
    seq(|messages|, j requires 0 <= j < |messages| => Row(messages[j].property, messages[j].validationMessage))
  }

  /** The rows of the error table: every item's messages, item after item. */
  function Rows(items: seq<Item>): seq<Row> {
    if items == [] then [] else MessageRows(items[0].validationMessages) + Rows(items[1..])
  }

  /** The table of a list of items is the table of its first part followed by that of the rest. */
  lemma {:induction false} RowsAppend(a: seq<Item>, b: seq<Item>)
    ensures Rows(a + b) == Rows(a) + Rows(b)
  {
    if a == [] {
      assert a + b == b;
    } else {
      assert (a + b)[1..] == a[1..] + b;
      RowsAppend(a[1..], b);
    }
  }

  /** A row is in the table exactly when some message of some item gives it: nothing is lost and nothing added. */
  lemma {:induction false} RowsMembership(items: seq<Item>, row: Row)
    ensures row in Rows(items) <==>
            exists i, j :: 0 <= i < |items| && 0 <= j < |items[i].validationMessages|
                           && row == Row(items[i].validationMessages[j].property,
                                         items[i].validationMessages[j].validationMessage)
  {
    if items != [] {
      RowsMembership(items[1..], row);
      var first := items[0].validationMessages;
      if row in MessageRows(first) {
        var j :| 0 <= j < |first| && MessageRows(first)[j] == row;
        assert items[0].validationMessages[j] == first[j];
      }
      if exists i, j :: 0 <= i < |items| && 0 <= j < |items[i].validationMessages|
                        && row == Row(items[i].validationMessages[j].property,
                                      items[i].validationMessages[j].validationMessage) {
        var i, j :| 0 <= i < |items| && 0 <= j < |items[i].validationMessages|
                    && row == Row(items[i].validationMessages[j].property,
                                  items[i].validationMessages[j].validationMessage);
        if i == 0 {
          assert MessageRows(first)[j] == row;
        } else {
          assert items[1..][i - 1] == items[i];
        }
      }
    }
  }

  /** How many validation messages the items carry altogether. */
  function MessageCount(items: seq<Item>): nat {
    if items == [] then 0 else |items[0].validationMessages| + MessageCount(items[1..])
  }

  /** The table has exactly one row per validation message of every item. */
  lemma {:induction false} RowsCount(items: seq<Item>)
    ensures |Rows(items)| == MessageCount(items)
  {
    if items != [] {
      RowsCount(items[1..]);
    }
  }

  /** The template's two nested loops: one row per validation message, item by item. */
  method RenderRows(items: seq<Item>) returns (rows: seq<Row>)
    ensures rows == Rows(items)
  {
    rows := [];
    for i := 0 to |items|
      invariant rows == Rows(items[..i])
    {
      var messages := items[i].validationMessages;
      for j := 0 to |messages|
        invariant rows == Rows(items[..i]) + MessageRows(messages[..j])
      {
        assert messages[..j + 1] == messages[..j] + [messages[j]];
        rows := rows + [Row(messages[j].property, messages[j].validationMessage)];
      }
      assert messages[..|messages|] == messages;
      assert Rows([items[i]]) == MessageRows(messages) + Rows([]);
      RowsAppend(items[..i], [items[i]]);
      assert items[..i + 1] == items[..i] + [items[i]];
    }
    assert items[..|items|] == items;
  }

  /** What the user is shown after a rejected request; `log` is the position of the error-log entry it links to. */
  datatype Notice = ValidationTable(rows: seq<Row>, log: nat) | FetchError(log: nat)

  const FETCH_ERROR_TEXT := "Error while fetching order. Please view full error log "

  /** The notice for a rejected body: the table of all validation messages when it has items, else the generic text. */
  function NoticeFor(body: Body, log: nat): (n: Notice)
    ensures n.log == log
    ensures n.ValidationTable? <==> HasItems(body)
    ensures HasItems(body) ==> n.rows == Rows(body.items.value)
  {
    if HasItems(body) then ValidationTable(Rows(body.items.value), log) else FetchError(log)
  }

  /** An Error Log entry: the method label and the body that was rejected. */
  datatype ErrorLog = ErrorLog(methodName: string, error: Body)

  const DHL_ERROR := "DHL Error"

  /** A File record attached to a document. */
  datatype FileRecord = FileRecord(
    fileName: string,
    isPrivate: bool,
    folder: string,
    attachedToDoctype: string,
    attachedToName: string,
    content: Bytes)

  /** The private file holding a shipment's label, named after the shipment. */
  function LabelFile(name: string, content: Bytes): (f: FileRecord)
    ensures |f.fileName| == |name| + 10 && f.fileName[..|name|] == name && f.fileName[|name|..] == "_label.pdf"
    ensures f.isPrivate && f.attachedToDoctype == "Shipment" && f.attachedToName == name && f.content == content
  {
    FileRecord(name + "_label.pdf", true, "Home/Attachments", "Shipment", name, content)
  }

  /** `base64.b64decode`, which is not part of this model: `None` where it raises. */
  type Base64Decoder = string -> Option<Bytes>

  /** The four Shipment fields the adapter writes. */
  datatype ShipmentField = ServiceProvider | Carrier | CarrierService | ShipmentId

  function WithField(doc: Shipment, field: ShipmentField, value: Option<string>): Shipment {
    match field
    case ServiceProvider => doc.(serviceProvider := value)
    case Carrier => doc.(carrier := value)
    case CarrierService => doc.(carrierService := value)
    case ShipmentId => doc.(shipmentId := value)
  }

  /** The shipment after a successful request: carrier DHL, the product name as service, and DHL's shipment number. */
  function Booked(doc: Shipment, product: string, shipmentNo: Option<string>): Shipment {
    doc.(serviceProvider := Some("DHL"), carrier := Some("DHL"), carrierService := Some(product), shipmentId := shipmentNo)
  }

  /** Booking sets the four result fields and changes nothing the request was built from. */
  lemma BookedKeepsRequestFields(doc: Shipment, product: string, shipmentNo: Option<string>)
    ensures var booked := Booked(doc, product, shipmentNo);
            && booked.(serviceProvider := doc.serviceProvider, carrier := doc.carrier,
                       carrierService := doc.carrierService, shipmentId := doc.shipmentId) == doc
            && booked.serviceProvider == Some("DHL")
            && booked.carrier == Some("DHL") && booked.carrierService == Some(product)
            && booked.shipmentId == shipmentNo
  {
  }

  /** The framework's state as the adapter sees it: records it reads, and the stores it writes. */
  class Site {
    const records: Records
    var shipments: map<string, Shipment>
    var errorLogs: seq<ErrorLog>
    var files: seq<FileRecord>
    var notices: seq<Notice>

    constructor (records: Records, shipments: map<string, Shipment>)
      ensures this.records == records && this.shipments == shipments
      ensures errorLogs == [] && files == [] && notices == []
    {
      this.records := records;
      this.shipments := shipments;
      errorLogs := [];
      files := [];
      notices := [];
    }

    /** `frappe.db.set_value` on a Shipment: one field of one record; a missing record is left alone. */
    method SetValue(name: string, field: ShipmentField, value: Option<string>)
      modifies this
      ensures shipments == if name in old(shipments) then old(shipments)[name := WithField(old(shipments)[name], field, value)]
                           else old(shipments)
      ensures errorLogs == old(errorLogs) && files == old(files) && notices == old(notices)
    {
      if name in shipments {
        shipments := shipments[name := WithField(shipments[name], field, value)];
      }
    }

    /** `save_file`: decodes the label and attaches it to the shipment; `false` when decoding raises. */
    method SaveFile(name: string, labelContent: string, b64decode: Base64Decoder) returns (saved: bool)
      modifies this
      ensures saved <==> b64decode(labelContent).Some?
      ensures files == if saved then old(files) + [LabelFile(name, b64decode(labelContent).value)] else old(files)
      ensures shipments == old(shipments) && errorLogs == old(errorLogs) && notices == old(notices)
    {
      var content := b64decode(labelContent);
      saved := content.Some?;
      if saved {
        files := files + [LabelFile(name, content.value)];
      }
    }

    /** `post_error`: logs the rejected body, then shows its validation table or the generic text. */
    method PostError(body: Body)
      modifies this
      ensures errorLogs == old(errorLogs) + [ErrorLog(DHL_ERROR, body)]
      ensures notices == old(notices) + [NoticeFor(body, |old(errorLogs)|)]
      ensures shipments == old(shipments) && files == old(files)
    {
      var log := |errorLogs|;
      errorLogs := errorLogs + [ErrorLog(DHL_ERROR, body)];
      var notice;
      if HasItems(body) {
        var rows := RenderRows(body.items.value);
        notice := ValidationTable(rows, log);
      } else {
        notice := FetchError(log);
      }
      notices := notices + [notice];
    }

    /**
     * What an answer to the POST leaves behind, for the shipment `name` sent
     * with product name `product`: an exception or a body that is not JSON is
     * re-raised with nothing written; a 200 with items books the shipment
     * from the first item and then attaches its label (`"OK"`); a 200 without
     * items changes nothing and returns nothing; any other status adds one
     * error-log entry and one notice and leaves the shipment untouched.
     */
    twostate predicate Answered(name: string, product: string, reply: Reply, b64decode: Base64Decoder,
                                new result: Result<Option<string>, Error>)
      reads this
    {
      match reply
      case Raised(text) => result == Failure(Rethrown(TransportFailure(text))) && unchanged(this)
      case Replied(status, body) =>
        if body.None? then result == Failure(Rethrown(BodyNotJson)) && unchanged(this)
        else if status != 200 then
          && result == Success(None)
          && errorLogs == old(errorLogs) + [ErrorLog(DHL_ERROR, body.value)]
          && notices == old(notices) + [NoticeFor(body.value, |old(errorLogs)|)]
          && shipments == old(shipments) && files == old(files)
        else if !HasItems(body.value) then result == Success(None) && unchanged(this)
        else
          var item := body.value.items.value[0];
          && name in old(shipments)
          && shipments == old(shipments)[name := Booked(old(shipments)[name], product, item.shipmentNo)]
          && errorLogs == old(errorLogs) && notices == old(notices)
          && (item.labelB64.None? ==> result == Failure(Rethrown(LabelMissing)) && files == old(files))
          && (item.labelB64.Some? && b64decode(item.labelB64.value).None? ==>
                result == Failure(Rethrown(LabelNotBase64)) && files == old(files))
          && (item.labelB64.Some? && b64decode(item.labelB64.value).Some? ==>
                result == Success(Some("OK"))
                && files == old(files) + [LabelFile(name, b64decode(item.labelB64.value).value)])
    }

    /** The part of `create_shipment` after the POST: classifies the answer and acts on it. */
    method HandleReply(name: string, product: string, reply: Reply, b64decode: Base64Decoder)
      returns (result: Result<Option<string>, Error>)
      requires name in shipments
      modifies this
      ensures Answered(name, product, reply, b64decode, result)
    {
      match reply
      case Raised(text) =>
        result := Failure(Rethrown(TransportFailure(text)));
      case Replied(status, body) =>
        if body.None? {
          result := Failure(Rethrown(BodyNotJson));
        } else if status == 200 {
          if HasItems(body.value) {
            var item := body.value.items.value[0];
            SetValue(name, ServiceProvider, Some("DHL"));
            SetValue(name, Carrier, Some("DHL"));
            SetValue(name, CarrierService, Some(product));
            SetValue(name, ShipmentId, item.shipmentNo);
            if item.labelB64.None? {
              result := Failure(Rethrown(LabelMissing));
            } else {
              var saved := SaveFile(name, item.labelB64.value, b64decode);
              result := if saved then Success(Some("OK")) else Failure(Rethrown(LabelNotBase64));
            }
          } else {
            result := Success(None);
          }
        } else {
          PostError(body.value);
          result := Success(None);
        }
    }

    /**
     * `create_shipment`: the checks of Prepare, each raising before anything
     * is sent; then exactly one POST of BuildRequest's request, whose answer
     * is handled as Answered says.
     */
    method CreateShipment(client: Client, name: string, today: Date, reply: Reply, countryCode: CountryCodes,
                          b64encode: Base64Encoder, b64decode: Base64Decoder)
      returns (result: Result<Option<string>, Error>, sent: Option<Request>)
      modifies this
      ensures var prepared := Prepare(records, old(shipments), name, today, countryCode);
              && (prepared.Failure? ==> result == Failure(prepared.error) && sent == None && unchanged(this))
              && (prepared.Success? ==>
                    && sent == Some(BuildRequest(client, prepared.value, b64encode))
                    && Answered(name, prepared.value.product, reply, b64decode, result))
    {
      var prepared := Prepare(records, shipments, name, today, countryCode);
      if prepared.Failure? {
        return Failure(prepared.error), None;
      }
      sent := Some(BuildRequest(client, prepared.value, b64encode));
      result := HandleReply(name, prepared.value.product, reply, b64decode);
    }
  }
}
