# DHL shipment adapter for ERPNext, modelled in Dafny

This project models `DHLUtils`, the class in `dhl_integration/dhl_integration/doctype/dhl_settings/dhl_settings.py` that creates a DHL parcel
shipment from an ERPNext Shipment record. It covers the following steps:

- It refuses to start when the DHL integration is disabled, and picks the sandbox or production base URL.
- It loads the shipment and rejects a pickup date before today.
- It maps the delivery address and contact to the `consignee` block. The consignee's country decides the
  product: `DHLPaket` (code `V01PAK`) for Germany, `DHLPaketInternational` (code `V53WPAK`) otherwise.
- It looks up the billing number stored for the product name and rejects a missing or empty one.
- It maps the pickup address and contact person to the `shipper` block and the first parcel to `details`.
- It posts `{"profile": "", "shipments": [shipment]}` to the base URL followed by `/orders`.
- It then acts on the answer:
  - 200 with items: writes carrier, service and DHL's shipment number back onto the shipment and attaches
    `<name>_label.pdf`, returning `"OK"`.
  - 200 without items: does nothing.
  - Any other status: logs the body and shows a table of every validation message, or a generic text.
  - An exception on the way: re-raised with its text.

Files:

- `wrappers.dfy`: `Option` and `Result`.
- `values.dfy`: the JSON value of the request, plus Python's `None`, truthiness, `or ""` and f-string text.
- `dates.dfy`: dates, their order, and the `%Y-%m-%d` text with its inverse.
- `records.dfy`: the framework records that are read, and the errors.
- `payload.dfy`: product choice, the three blocks, and the ordered checks before the POST (`Prepare`).
- `dhl_utils.dfy`: construction (`Connect`), the request, the error table, and the `Site` class.
  `Site` holds the shipments, the error log, the attached files and the messages shown.
  Its methods make the writes `create_shipment`, `post_error` and `save_file` make.

The settings object never changes after construction, so it is a value (`Client`) that `Connect` returns
or refuses. The stores the adapter writes are fields of the `Site` class that its methods reassign.
The framework's records, today's date, the decrypted secrets and the HTTP answer are inputs.
So are `get_country_code` and the two base64 functions, which are left uninterpreted.

The model follows the code as written, including these details:

- The domestic test compares the country with the literal `"Germany"`.
- The sandbox host is `api-sandbox.dhl.com`.
- The base URLs end in `/`, so the posted URL ends in `v2//orders` (lemma `OrdersUrl`).

## Model

| member | source | states |
|---|---|---|
| Payload.ProductFor | dhl_integration/dhl_integration/doctype/dhl_settings/dhl_settings.py:113-141 | the product name is `DHLPaket` exactly when the consignee country is `"Germany"`, and `DHLPaketInternational` for every other country, an unset one included |
| Payload.ProductCode | dhl_integration/dhl_integration/doctype/dhl_settings/dhl_settings.py:42-47 | the code is `V01PAK` exactly for the name `DHLPaket` and `V53WPAK` for any other name |
| Payload.Shipper | dhl_integration/dhl_integration/doctype/dhl_settings/dhl_settings.py:93-111 | the shipper block has the seven fixed keys, plus `addressHouse` exactly when the second address line is non-empty; `name1`, `addressStreet`, `postalCode` and `city` are the pickup company's and address's fields copied raw, so an unset postal code becomes `null`; contact name and e-mail come from the User row, and the country from `get_country_code` |
| Payload.Consignee | dhl_integration/dhl_integration/doctype/dhl_settings/dhl_settings.py:113-143 | the consignee block has the nine fixed keys, plus `additionalAddressInformation1` exactly for a non-empty second line; postal code, state, phone and e-mail are never `null`; the phone falls back to the mobile number, then `""`; the contact name is the first name, a space, and the last name, so it ends in a space when there is no last name; `name1`, `addressStreet` and `city` are the delivery customer's and address's fields copied raw; the product is ProductFor of the address's country |
| Payload.Details | dhl_integration/dhl_integration/doctype/dhl_settings/dhl_settings.py:145-159 | `details` is absent exactly when the parcel table is empty (indexing raises); otherwise it has `dim` in `cm` and `weight` in `kg` with the first parcel's height, length, width and weight unchanged |
| Payload.DetailsFirstParcelOnly | dhl_integration/dhl_integration/doctype/dhl_settings/dhl_settings.py:145-159 | `details` depends only on the first parcel: the index argument and every later parcel make no difference |
| Payload.BillingNumber | dhl_integration/dhl_integration/doctype/dhl_settings/dhl_settings.py:49-52 | a billing number is usable exactly when the service's row exists and its number is neither unset nor empty |
| Payload.Prepare | dhl_integration/dhl_integration/doctype/dhl_settings/dhl_settings.py:34-61 | the checks run in order: missing shipment, then pickup date before today (an error exactly in that case), then delivery address and contact, then the billing number for the resolved product NAME (an error exactly when that number is unusable, naming the product), then pickup address, then the User row, then the parcel, each with its own error; the result is a success exactly when every check passes, and a passing shipment has the six keys, the product code of its name, that billing number, the formatted pickup date and the three blocks |
| Payload.PastPickupIgnoresBilling | dhl_integration/dhl_integration/doctype/dhl_settings/dhl_settings.py:38-52 | a pickup date before today fails the same way whatever the billing table holds: the table is not consulted |
| Payload.PickupTodayAccepted | dhl_integration/dhl_integration/doctype/dhl_settings/dhl_settings.py:38-40 | a pickup date equal to today does not fail the date check |
| Payload.BillingKeyedByName | dhl_integration/dhl_integration/doctype/dhl_settings/dhl_settings.py:42-52 | for every billing table, a number stored under the code `V01PAK` does not serve a German consignee when none is stored under the name `DHLPaket`: the lookup is by the name |
| Payload.PrepareErrorMessages | dhl_integration/dhl_integration/doctype/dhl_settings/dhl_settings.py:38-52 | of the errors raised before the POST, only the past pickup date and the missing billing number carry the adapter's own message; the pickup one reads "The pickup date must be after today's date" |
| Records.UserMessage | dhl_integration/dhl_integration/doctype/dhl_settings/dhl_settings.py:19-91 | the texts of the errors the adapter raises itself; the billing message names the service, and a re-raised transport error shows its own text |
| Dates.IsoDate | dhl_integration/dhl_integration/doctype/dhl_settings/dhl_settings.py:57 | `shipDate` is ten characters, four-digit year, two-digit month and day, separated by `-` |
| Dates.Pad | dhl_integration/dhl_integration/doctype/dhl_settings/dhl_settings.py:57 | a zero-filled field has exactly the requested width and only digits |
| Dates.IsoDateRoundTrip | dhl_integration/dhl_integration/doctype/dhl_settings/dhl_settings.py:57 | reading back a formatted pickup date gives the same date |
| Dates.ParseIsoDateExact | dhl_integration/dhl_integration/doctype/dhl_settings/dhl_settings.py:57 | every text that reads back as a date is that date's formatting, so the format is one-to-one |
| DhlUtils.Connect | dhl_integration/dhl_integration/doctype/dhl_settings/dhl_settings.py:18-32 | construction fails with the disabled error exactly when the integration is disabled; otherwise the base URL is the sandbox one exactly when the sandbox flag is set, and the credentials are kept |
| DhlUtils.BuildRequest | dhl_integration/dhl_integration/doctype/dhl_settings/dhl_settings.py:63-77 | the request goes to the base URL followed by `/orders` with three headers (JSON content type, basic authentication from `username:password`, the API key) and the body `{"profile": "", "shipments": [shipment]}` with the prepared shipment as the only element |
| DhlUtils.OrdersUrl | dhl_integration/dhl_integration/doctype/dhl_settings/dhl_settings.py:29-64 | the URL actually posted to ends in `shipping/v2//orders`, on the sandbox or the production host by the sandbox flag |
| DhlUtils.MessageRows | dhl_integration/dhl_integration/doctype/dhl_settings/dhl_settings.py:177-183 | one row per validation message of an item, in order, each holding its property and its message |
| DhlUtils.RowsAppend | dhl_integration/dhl_integration/doctype/dhl_settings/dhl_settings.py:177-185 | the rows of several items are those of the first part followed by those of the rest: item order is kept |
| DhlUtils.RowsMembership | dhl_integration/dhl_integration/doctype/dhl_settings/dhl_settings.py:177-185 | a row is in the table exactly when some message of some item gives it |
| DhlUtils.RowsCount | dhl_integration/dhl_integration/doctype/dhl_settings/dhl_settings.py:177-185 | the table has exactly as many rows as the items have validation messages |
| DhlUtils.RenderRows | dhl_integration/dhl_integration/doctype/dhl_settings/dhl_settings.py:170-188 | the template's two nested loops produce exactly the table Rows describes |
| DhlUtils.NoticeFor | dhl_integration/dhl_integration/doctype/dhl_settings/dhl_settings.py:169-191 | the notice is the validation table exactly when the body has a non-empty `items` list, with the rows of all items, and it links to the new error-log entry |
| DhlUtils.LabelFile | dhl_integration/dhl_integration/doctype/dhl_settings/dhl_settings.py:193-208 | the label file is named after the shipment followed by `_label.pdf`, is private, and is attached to that Shipment with the decoded content |
| DhlUtils.BookedKeepsRequestFields | dhl_integration/dhl_integration/doctype/dhl_settings/dhl_settings.py:82-85 | booking sets service provider and carrier to `DHL`, the service to the product name and the shipment id to DHL's number, and changes nothing else on the shipment |
| DhlUtils.Site.SetValue | dhl_integration/dhl_integration/doctype/dhl_settings/dhl_settings.py:82-85 | one field of one shipment is written and every other store is unchanged |
| DhlUtils.Site.SaveFile | dhl_integration/dhl_integration/doctype/dhl_settings/dhl_settings.py:193-208 | the label file is attached exactly when the label decodes; nothing else changes |
| DhlUtils.Site.PostError | dhl_integration/dhl_integration/doctype/dhl_settings/dhl_settings.py:161-191 | one error-log entry with the rejected body is appended, then one notice as NoticeFor gives it; shipments and files are unchanged |
| DhlUtils.Site.HandleReply | dhl_integration/dhl_integration/doctype/dhl_settings/dhl_settings.py:78-91 | the answer is handled as Answered states: re-raise with nothing written; book and attach (`"OK"`); no-op; or log and notify with the shipment untouched |
| DhlUtils.Site.CreateShipment | dhl_integration/dhl_integration/doctype/dhl_settings/dhl_settings.py:34-91 | when Prepare fails, that error is raised, nothing is sent and nothing changes; otherwise exactly BuildRequest's request is sent and the answer is handled as Answered states |

## Left out

- The HTTP call, JSON serialisation and parsing: the answer is an input (an exception text, or a status and a body that may not be JSON).
- The request headers are kept as a map; how `requests` encodes them is not modelled.
- Base64 encoding of the credentials and decoding of the label: uninterpreted functions given as parameters.
- `get_country_code` (`dhl_integration/utils/countries.py`) is not part of this model: any function of the country name.
- Writing the label to disk, the file path and `file_url` in `save_file`: only the attached File record is kept (name, private flag, folder, attachment, content).
- Record lookups, decrypted passwords, `now()` and its parsing: the records, the secrets and today's date are inputs.
  A User lookup with no row is modelled as its own error; Python raises a `TypeError` when unpacking it.
- `render_template`, `get_link_to_form` and `msgprint`: the notice keeps the rows and the position of the log entry it links to, not the HTML.
- The error-log text is `str(content)` in Python; the model keeps the body itself.
- A validation message's property and text are modelled as strings. Jinja's rendering of a missing or `None` one is not modelled.
- The texts of exceptions raised by Python or the framework and re-raised via `frappe.throw(str(e))`: the model keeps their cause, not their wording.
- A body whose `items` is not a list, or which is not a dictionary at all, is not modelled.
- The framework's transaction rollback after an exception. If the label is missing or undecodable, the four field writes already made stay in the model.
- `update_modified=False`: the shipment's modification timestamp is not modelled.
- Several billing-number rows for one service: the table is a map, one number per service name.
- `api_secret` is read and kept but never used, as in the source.
- The whitelisted wrapper in `dhl_integration/custom_scripts/shipment/shipment.py`, the form button, hooks and packaging.
- Records.UserMessage: the re-raised Python and framework exceptions have no modelled text, only a cause.
