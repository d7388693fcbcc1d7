# Shipment resolvers, payment QR countdown and banner carousel

This project models three pieces of the YapPerce / ShipXpress system and proves
properties about them in Dafny:

- **The shipment service's GraphQL resolvers** (`resolvers.ts`). The database is
  the class `ShipmentStore`. Its fields are the `customers`, `shipments` and
  `tracking_updates` tables, each a map from id to row, plus the serial
  sequences behind them. The three marketplace services (users, orders,
  payments) are a `Marketplace` value that holds the answers they would give.
  Each resolver returns the log of remote calls it made, so the model can state
  when a service is consulted. Modelled operations:
  - `ensureCustomerFromMarketplace`: lookup, or materialise the customer from
    the user service;
  - `createShipment`: resolve the customer, take the latest order and its
    latest payment, insert the shipment, then insert its first tracking row;
  - `updateShipment`: build the SET list from the present arguments, then run
    the UPDATE;
  - `deleteShipment`;
  - the list queries and the single-row lookups;
  - `normalizeShipmentRow`;
  - the federation reference stubs.
- **The payment QR widget** (`PaymentQR.js`). The countdown state `timeLeft` /
  `isExpired` / `qrKey` is the class `PaymentQrWidget`. One interval tick is
  `SecondElapsed` and the refresh button is `RefreshQr`. `formatTime`, the three
  colour getters and the status-message choice are pure functions.
- **The banner carousel** (`BannerCarousel.jsx`). `currentIndex` / `isVisible`
  form the class `Carousel`. Its methods are the arrow buttons, the dots, the
  five-second timer and the close button.

Files:

- `options.dfy`: `Option`.
- `decimal.dfy`: JavaScript's decimal rendering of non-negative safe integers,
  `padStart(2, '0')`, and the functions that read digits back.
- `shipment_rows.dfy`: rows, remote replies, normalisation, first-element
  selection and the tracking row's texts.
- `shipment_update.dfy`: the `updateShipment` SET-list builder and a small
  executor of the statement it builds.
- `shipment_store.dfy`: the store and the resolvers.
- `payment_qr.dfy`: the payment QR widget.
- `banner_carousel.dfy`: the banner carousel.

Modelling choices:

- `updateShipment` renames `S_type` to `S_type`, which is the identity. So every
  column is named by its argument key.
- What the UPDATE statement means is given by `ExecuteUpdate`. It binds `$k` to
  the k-th value and fails on a placeholder with no value.
  `BuiltStatementApplies` proves that the statement the loop builds writes
  exactly the present arguments into the targeted row.
- The customer row is inserted under the user service's `user_id`, not under
  the requested id (`resolvers.ts:119`). When that id already belongs to a
  stored customer, the INSERT violates the primary key. The model returns
  `DuplicateCustomer` in that case.

## Model

| member | source | states |
|---|---|---|
| Decimal.NatToString | YapPerce_IAE-main/frontend/components/PaymentQR.js:44 | the decimal text of a number is non-empty, all digits, has no leading zero, and is one character exactly below 10 |
| Decimal.DigitSpan | TUGASBESAR_IAE_SHIPMEN_KELOMPOK2_SI4708-main/services/shipment-service/src/resolvers.ts:203 | the longest digit prefix: all digits, and the next character, if any, is not a digit |
| Decimal.PadStart2 | YapPerce_IAE-main/frontend/components/PaymentQR.js:44 | `padStart(2, '0')` yields at least two characters, ends with the input and adds only zeros in front |
| Decimal.ValueOfNatToString | YapPerce_IAE-main/frontend/components/PaymentQR.js:44 | the decimal text of `n` denotes `n` |
| Decimal.ParseNatToString | TUGASBESAR_IAE_SHIPMEN_KELOMPOK2_SI4708-main/services/shipment-service/src/resolvers.ts:204 | reading back the decimal text of `n` gives `n` |
| Decimal.PadStart2Value | YapPerce_IAE-main/frontend/components/PaymentQR.js:44 | zero-padding keeps a digit string's value |
| Decimal.DigitSpanConcat | TUGASBESAR_IAE_SHIPMEN_KELOMPOK2_SI4708-main/services/shipment-service/src/resolvers.ts:203 | a number's digits followed by a non-digit separator are read as exactly those digits |
| Decimal.NatToStringLength2 | YapPerce_IAE-main/frontend/components/PaymentQR.js:42-44 | numbers below 100 have at most two digits |
| ShipmentRows.NormalizeShipmentRow | TUGASBESAR_IAE_SHIPMEN_KELOMPOK2_SI4708-main/services/shipment-service/src/resolvers.ts:11-15 | the normalised shipment keeps every column of the row and adds `S_type` equal to `s_type` |
| ShipmentRows.Latest | TUGASBESAR_IAE_SHIPMEN_KELOMPOK2_SI4708-main/services/shipment-service/src/resolvers.ts:65-69 | the latest order (or, at lines 94-98, payment) exists exactly when the reply is a non-empty list, and is its element 0 |
| ShipmentRows.OrDash | TUGASBESAR_IAE_SHIPMEN_KELOMPOK2_SI4708-main/services/shipment-service/src/resolvers.ts:122-123 | `x \|\| '-'`: a missing or empty text becomes `-`, any other text is kept; the result is never empty |
| ShipmentRows.OrNull | TUGASBESAR_IAE_SHIPMEN_KELOMPOK2_SI4708-main/services/shipment-service/src/resolvers.ts:200-202 | `x \|\| null`: the result is a text exactly when the input is a non-empty text, and then it is the input |
| ShipmentRows.MarketplaceCustomer | TUGASBESAR_IAE_SHIPMEN_KELOMPOK2_SI4708-main/services/shipment-service/src/resolvers.ts:116-126 | the materialised customer has the user's id, name and email, type `Marketplace`, and phone/address equal to the user's, or `-` when missing or empty |
| ShipmentRows.OrderSummary | TUGASBESAR_IAE_SHIPMEN_KELOMPOK2_SI4708-main/services/shipment-service/src/resolvers.ts:203 | `Order <order_id> - Total <total_amount>` reads back as exactly that order id and total |
| ShipmentRows.ParseSummaryText | TUGASBESAR_IAE_SHIPMEN_KELOMPOK2_SI4708-main/services/shipment-service/src/resolvers.ts:203 | any two digit strings placed in the summary template read back as their values |
| ShipmentRows.ParseSummaryRestText | TUGASBESAR_IAE_SHIPMEN_KELOMPOK2_SI4708-main/services/shipment-service/src/resolvers.ts:203 | the part after `Order ` reads back as the order id and the total |
| ShipmentRows.PaymentReference | TUGASBESAR_IAE_SHIPMEN_KELOMPOK2_SI4708-main/services/shipment-service/src/resolvers.ts:204 | `PAY-<payment_id>` reads back as exactly that payment id |
| ShipmentRows.ItemName | TUGASBESAR_IAE_SHIPMEN_KELOMPOK2_SI4708-main/services/shipment-service/src/resolvers.ts:203 | `item_name` is non-null exactly when there is a latest order |
| ShipmentRows.Barcode | TUGASBESAR_IAE_SHIPMEN_KELOMPOK2_SI4708-main/services/shipment-service/src/resolvers.ts:204 | `barcode` is non-null exactly when there is a latest payment |
| ShipmentRows.InitialTracking | TUGASBESAR_IAE_SHIPMEN_KELOMPOK2_SI4708-main/services/shipment-service/src/resolvers.ts:194-197 | the first tracking row carries the given tracking id and references the created shipment |
| ShipmentRows.InitialTrackingContents | TUGASBESAR_IAE_SHIPMEN_KELOMPOK2_SI4708-main/services/shipment-service/src/resolvers.ts:194-206 | the first tracking row is at `Order received` with the shipment's status and the customer's name/phone/address (empty becomes null); it names the latest order exactly when there is one, and the latest payment exactly when there is one |
| ShipmentRows.CustomerReference | TUGASBESAR_IAE_SHIPMEN_KELOMPOK2_SI4708-main/services/shipment-service/src/resolvers.ts:252-255 | `Shipment.customer` is null exactly for the falsy customer id 0, and otherwise references the row's customer |
| ShipmentRows.VehicleReference | TUGASBESAR_IAE_SHIPMEN_KELOMPOK2_SI4708-main/services/shipment-service/src/resolvers.ts:256-259 | `Shipment.vehicle` is null exactly when the vehicle id is missing or empty, and otherwise references it |
| ShipmentRows.EnrichContext | TUGASBESAR_IAE_SHIPMEN_KELOMPOK2_SI4708-main/services/shipment-service/src/resolvers.ts:181-184 | the latest order is taken from the customer's orders; without an order there is no payment; with one, the payment is the latest of that order's payments |
| ShipmentUpdate.ColumnName | TUGASBESAR_IAE_SHIPMEN_KELOMPOK2_SI4708-main/services/shipment-service/src/resolvers.ts:218 | every argument key is used as its own column name, and that name resolves back to exactly that column |
| ShipmentUpdate.Present | TUGASBESAR_IAE_SHIPMEN_KELOMPOK2_SI4708-main/services/shipment-service/src/resolvers.ts:216-217 | every argument kept has a value (is not `undefined`) |
| ShipmentUpdate.PresentApplicable | TUGASBESAR_IAE_SHIPMEN_KELOMPOK2_SI4708-main/services/shipment-service/src/resolvers.ts:216-220 | the kept arguments of a well-typed argument object name distinct columns, each with a value of its type |
| ShipmentUpdate.PresentPositions | TUGASBESAR_IAE_SHIPMEN_KELOMPOK2_SI4708-main/services/shipment-service/src/resolvers.ts:216-217 | the positions kept are increasing and are exactly those whose value is not `undefined` |
| ShipmentUpdate.PresentInOrder | TUGASBESAR_IAE_SHIPMEN_KELOMPOK2_SI4708-main/services/shipment-service/src/resolvers.ts:216-221 | the kept arguments are the arguments at those positions, in argument order, so `$k` numbers them in key order |
| ShipmentUpdate.Assign | TUGASBESAR_IAE_SHIPMEN_KELOMPOK2_SI4708-main/services/shipment-service/src/resolvers.ts:233 | one `col = value` sets that column and leaves every other column, the id and the timestamp unchanged |
| ShipmentUpdate.ApplyArgs | TUGASBESAR_IAE_SHIPMEN_KELOMPOK2_SI4708-main/services/shipment-service/src/resolvers.ts:216-235 | after the update each mentioned column holds its argument's value, every unmentioned column is unchanged, and id and timestamp are kept |
| ShipmentUpdate.Bind | TUGASBESAR_IAE_SHIPMEN_KELOMPOK2_SI4708-main/services/shipment-service/src/resolvers.ts:231-235 | `$k` is bound exactly when 1 <= k <= number of values, and then to the k-th value |
| ShipmentUpdate.BuildSetClauses | TUGASBESAR_IAE_SHIPMEN_KELOMPOK2_SI4708-main/services/shipment-service/src/resolvers.ts:212-223 | the loop emits one clause per present argument, in key order, named by the key, with placeholders `$1..$n` and the matching values; the counter ends at n+1 |
| ShipmentUpdate.ApplySetsPrefix | TUGASBESAR_IAE_SHIPMEN_KELOMPOK2_SI4708-main/services/shipment-service/src/resolvers.ts:219-235 | running the first n built clauses applies exactly the first n present arguments |
| ShipmentUpdate.BuiltStatementApplies | TUGASBESAR_IAE_SHIPMEN_KELOMPOK2_SI4708-main/services/shipment-service/src/resolvers.ts:231-237 | the built UPDATE, with the id at `$n+1`, replaces only the targeted row by the row with the present arguments applied and returns it; with no such row nothing changes and no row is returned |
| ShipmentResolvers.ResolveCustomer | TUGASBESAR_IAE_SHIPMEN_KELOMPOK2_SI4708-main/services/shipment-service/src/resolvers.ts:105-132 | a known id resolves to its stored row; failure happens only for an unknown id, and "user not found" exactly when the user service has no such user; a new customer is the materialised user row under an id not yet taken |
| ShipmentResolvers.ResolveCustomerCases | TUGASBESAR_IAE_SHIPMEN_KELOMPOK2_SI4708-main/services/shipment-service/src/resolvers.ts:105-132 | a known id gives its stored row and makes no remote call; an unknown id makes one user lookup, fails with `Marketplace user not found` when there is no user, and otherwise yields a `Marketplace` customer under the user's id |
| ShipmentResolvers.MaxKey | TUGASBESAR_IAE_SHIPMEN_KELOMPOK2_SI4708-main/services/shipment-service/src/resolvers.ts:129 | `MAX(customer_id)` is a key of the table and no key exceeds it |
| ShipmentResolvers.InsertNewestFirst | TUGASBESAR_IAE_SHIPMEN_KELOMPOK2_SI4708-main/services/shipment-service/src/resolvers.ts:138 | inserting a row into the result keeps every earlier row and adds the new one once (as multisets) |
| ShipmentResolvers.InsertKeepsNewestFirst | TUGASBESAR_IAE_SHIPMEN_KELOMPOK2_SI4708-main/services/shipment-service/src/resolvers.ts:138 | the insertion keeps the result ordered by `created_at` descending |
| ShipmentResolvers.ShipmentStore.FindShipment | TUGASBESAR_IAE_SHIPMEN_KELOMPOK2_SI4708-main/services/shipment-service/src/resolvers.ts:141-145 | `shipment(id)` (and `__resolveReference`, lines 245-251) is non-null exactly when a row has that id, and is that row normalised |
| ShipmentResolvers.ShipmentStore.SelectShipments | TUGASBESAR_IAE_SHIPMEN_KELOMPOK2_SI4708-main/services/shipment-service/src/resolvers.ts:137-166 | the list queries return every exactly-matching row once, normalised, newest first, and nothing else |
| ShipmentResolvers.ShipmentStore.EnsureCustomerFromMarketplace | TUGASBESAR_IAE_SHIPMEN_KELOMPOK2_SI4708-main/services/shipment-service/src/resolvers.ts:105-133 | the result is the customer resolution; a known id or a failure writes nothing; a materialised customer is the one row added, and the sequence is then the largest customer id |
| ShipmentResolvers.ShipmentStore.FetchContext | TUGASBESAR_IAE_SHIPMEN_KELOMPOK2_SI4708-main/services/shipment-service/src/resolvers.ts:181-184 | the latest order of the customer, then the latest payment of that order only when there is an order; the calls made are the order lookup and, only then, the payment lookup |
| ShipmentResolvers.ShipmentStore.CreateShipment | TUGASBESAR_IAE_SHIPMEN_KELOMPOK2_SI4708-main/services/shipment-service/src/resolvers.ts:169-209 | on a failed customer resolution nothing is written and only the user lookup was made; otherwise exactly one shipment row (vehicle null when not given) and exactly one tracking row referencing it are added, and the services are called in order, payments only when there is an order; a newly created customer leaves the customer sequence at the largest customer id |
| ShipmentResolvers.ShipmentStore.InsertShipment | TUGASBESAR_IAE_SHIPMEN_KELOMPOK2_SI4708-main/services/shipment-service/src/resolvers.ts:186-206 | the shipment is inserted under the next serial id, then its tracking row under the next tracking id; nothing else changes |
| ShipmentResolvers.ShipmentStore.InsertShipmentRow | TUGASBESAR_IAE_SHIPMEN_KELOMPOK2_SI4708-main/services/shipment-service/src/resolvers.ts:186-189 | the shipment row gets the next serial id, the given columns, `vehicle_id` null when missing or empty, and `created_at` now; it is the only row added |
| ShipmentResolvers.ShipmentStore.InsertTrackingRow | TUGASBESAR_IAE_SHIPMEN_KELOMPOK2_SI4708-main/services/shipment-service/src/resolvers.ts:194-206 | the tracking row built from the shipment, customer, order and payment gets the next tracking id and is the only row added |
| ShipmentResolvers.ShipmentStore.UpdateShipment | TUGASBESAR_IAE_SHIPMEN_KELOMPOK2_SI4708-main/services/shipment-service/src/resolvers.ts:210-238 | only the targeted row changes, to the row with the present arguments applied, and it is returned normalised; no row gives null; no present argument means no write |
| ShipmentResolvers.ShipmentStore.DeleteShipment | TUGASBESAR_IAE_SHIPMEN_KELOMPOK2_SI4708-main/services/shipment-service/src/resolvers.ts:239-242 | returns true exactly when the row existed; afterwards only that row is gone |
| PaymentQr.Tick | YapPerce_IAE-main/frontend/components/PaymentQR.js:15-28 | with no interval running (expired, or no time left) nothing changes; otherwise more than one second left loses exactly one second and stays unexpired, and at most one second left becomes 0 seconds, expired |
| PaymentQr.TickKeepsInv | YapPerce_IAE-main/frontend/components/PaymentQR.js:15-28 | a tick keeps `0 <= timeLeft <= 60` and "expired exactly at 0"; a running tick takes exactly one second off; with no interval running nothing changes; the tick expires the code exactly when at most one second was left |
| PaymentQr.CountdownFromFresh | YapPerce_IAE-main/frontend/components/PaymentQR.js:11-28 | from the initial 60 seconds, n ticks leave 60-n seconds unexpired, and the 60th tick expires the code |
| PaymentQr.ExpiredStays | YapPerce_IAE-main/frontend/components/PaymentQR.js:16 | an expired code stays as it is under any number of ticks |
| PaymentQr.FormatTime | YapPerce_IAE-main/frontend/components/PaymentQR.js:41-45 | the text is at least `MM:SS` long and the `:` always sits before the last two characters (the padded seconds) |
| PaymentQr.ClockText | YapPerce_IAE-main/frontend/components/PaymentQR.js:44 | padded minutes, `:` and padded seconds below 60 put the `:` before the last two characters |
| PaymentQr.FormatTimeRoundTrip | YapPerce_IAE-main/frontend/components/PaymentQR.js:41-45 | the formatted time reads back as minutes and seconds with `mins * 60 + secs == seconds` |
| PaymentQr.ClockTextRoundTrip | YapPerce_IAE-main/frontend/components/PaymentQR.js:44 | padded minutes, `:`, padded seconds read back as those minutes and seconds |
| PaymentQr.ParseJoined | YapPerce_IAE-main/frontend/components/PaymentQR.js:44 | two digit strings joined by `:` read back as their values |
| PaymentQr.FormatTimeShape | YapPerce_IAE-main/frontend/components/PaymentQR.js:41-45 | below 6000 seconds the text is exactly `MM:SS` |
| PaymentQr.ClockTextShape | YapPerce_IAE-main/frontend/components/PaymentQR.js:44 | two-digit minutes and seconds make a five-character text with `:` in the middle |
| PaymentQr.BandOf | YapPerce_IAE-main/frontend/components/PaymentQR.js:55-71 | green exactly above 45 seconds, yellow exactly from 16 to 45, red exactly at 15 or below |
| PaymentQr.WarningLevel | YapPerce_IAE-main/frontend/components/PaymentQR.js:55-59 | the panel classes are the band's green, yellow or red classes |
| PaymentQr.TimerColor | YapPerce_IAE-main/frontend/components/PaymentQR.js:61-65 | the timer text classes follow the same band |
| PaymentQr.TimerBgColor | YapPerce_IAE-main/frontend/components/PaymentQR.js:67-71 | the timer background class follows the same band |
| PaymentQr.StatusOf | YapPerce_IAE-main/frontend/components/PaymentQR.js:113-143 | the expired panel exactly when expired; otherwise the hurry panel exactly at 15 seconds or less and the active panel above; both show the formatted time |
| PaymentQr.Headline | YapPerce_IAE-main/frontend/components/PaymentQR.js:113-143 | each panel has its own headline: `QR Code Expired`, `Hurry! QR expiring soon`, `QR Code Active` |
| PaymentQr.ShowsRefreshButton | YapPerce_IAE-main/frontend/components/PaymentQR.js:146-155 | the refresh button is shown exactly when the expired panel is |
| PaymentQr.StatusAgreesWithTime | YapPerce_IAE-main/frontend/components/PaymentQR.js:113-155 | on reachable states the expired notice shows exactly at 0 seconds and exactly with the refresh button; the hurry notice shows exactly from 1 to 15 seconds, the active notice above 15; red is the band exactly when the code is not active; the notices show the formatted time; the expired headline shows exactly at 0 seconds and the hurry headline exactly from 1 to 15 |
| PaymentQr.PaymentQrWidget.constructor | YapPerce_IAE-main/frontend/components/PaymentQR.js:11-13 | the widget starts at 60 seconds, unexpired, keyed by the current time |
| PaymentQr.PaymentQrWidget.SecondElapsed | YapPerce_IAE-main/frontend/components/PaymentQR.js:15-32 | one interval second moves the state by `Tick` and keeps the invariant; `onQRExpired` fires exactly on the expiring tick, and only when given |
| PaymentQr.PaymentQrWidget.RefreshQr | YapPerce_IAE-main/frontend/components/PaymentQR.js:34-39 | from any state, back to 60 seconds, unexpired, with a new key |
| BannerCarousel.NextIndex | TUGASBESAR_IAE_SHIPMEN_KELOMPOK2_SI4708-main/frontend/src/components/BannerCarousel.jsx:40-47 | `(i + 1) % 3` stays in range and wraps 2 to 0 |
| BannerCarousel.PrevIndex | TUGASBESAR_IAE_SHIPMEN_KELOMPOK2_SI4708-main/frontend/src/components/BannerCarousel.jsx:49-51 | `(i - 1 + 3) % 3` stays in range and wraps 0 to 2 |
| BannerCarousel.PrevUndoesNext | TUGASBESAR_IAE_SHIPMEN_KELOMPOK2_SI4708-main/frontend/src/components/BannerCarousel.jsx:45-51 | previous undoes next, and next undoes previous |
| BannerCarousel.Advance | TUGASBESAR_IAE_SHIPMEN_KELOMPOK2_SI4708-main/frontend/src/components/BannerCarousel.jsx:38-43 | any number of steps forward stays in range |
| BannerCarousel.AdvanceIsModular | TUGASBESAR_IAE_SHIPMEN_KELOMPOK2_SI4708-main/frontend/src/components/BannerCarousel.jsx:40 | n steps forward land on `(i + n) % 3` |
| BannerCarousel.FullCycle | TUGASBESAR_IAE_SHIPMEN_KELOMPOK2_SI4708-main/frontend/src/components/BannerCarousel.jsx:40-47 | as many steps as there are banners return to the start |
| BannerCarousel.OneActiveDot | TUGASBESAR_IAE_SHIPMEN_KELOMPOK2_SI4708-main/frontend/src/components/BannerCarousel.jsx:112-121 | exactly one dot is active: the current one |
| BannerCarousel.Carousel.constructor | TUGASBESAR_IAE_SHIPMEN_KELOMPOK2_SI4708-main/frontend/src/components/BannerCarousel.jsx:35-36 | the carousel starts at banner 0 and visible |
| BannerCarousel.Carousel.Render | TUGASBESAR_IAE_SHIPMEN_KELOMPOK2_SI4708-main/frontend/src/components/BannerCarousel.jsx:57-59 | a dismissed carousel renders nothing, a visible one the current banner |
| BannerCarousel.Carousel.NextBanner | TUGASBESAR_IAE_SHIPMEN_KELOMPOK2_SI4708-main/frontend/src/components/BannerCarousel.jsx:45-47 | the next arrow moves to the next index, stays in range, and changes nothing else |
| BannerCarousel.Carousel.PrevBanner | TUGASBESAR_IAE_SHIPMEN_KELOMPOK2_SI4708-main/frontend/src/components/BannerCarousel.jsx:49-51 | the previous arrow moves to the previous index, stays in range, and changes nothing else |
| BannerCarousel.Carousel.AutoAdvance | TUGASBESAR_IAE_SHIPMEN_KELOMPOK2_SI4708-main/frontend/src/components/BannerCarousel.jsx:38-43 | the timer step is the same as the next arrow, whether or not the carousel is visible |
| BannerCarousel.Carousel.GoToBanner | TUGASBESAR_IAE_SHIPMEN_KELOMPOK2_SI4708-main/frontend/src/components/BannerCarousel.jsx:53-55 | a dot sets the index to exactly that dot and changes nothing else |
| BannerCarousel.Carousel.Dismiss | TUGASBESAR_IAE_SHIPMEN_KELOMPOK2_SI4708-main/frontend/src/components/BannerCarousel.jsx:64-65 | the close button hides the carousel; no method sets it visible again |

## Left out

- HTTP calls to the marketplace services (axios, GraphQL query text, `console.error`): each service is the answer it would give. Thrown errors, `errors` replies and missing lists all become "no answer".
- SQL text and Postgres specifics (`pg_get_serial_sequence`, `setval`): tables are maps and sequences are counters. The shipment and tracking serials hand out last value + 1.
- `created_at`: the clock is the `now` parameter, and the `Date` to ISO-string conversion in `normalizeShipmentRow` is not modelled. The order among rows with equal `created_at` is left open; only the descending order is stated.
- Concurrency: two concurrent requests racing to insert the same customer, and the absence of a transaction around the two INSERTs of `createShipment`. The model is sequential and each resolver runs to completion.
- Database failures other than the customer primary-key clash: an INSERT or UPDATE rejected by the database, or a lost connection.
- Foreign keys: the effect of deleting a shipment on its tracking rows (cascade or rejection) depends on the schema, which is not part of this model. `DeleteShipment` leaves `tracking_updates` alone.
- Numbers are JavaScript doubles in the source. The model assumes ids and `total_amount` are safe integers (below 2^53) that render as plain decimal. The round trips of `OrderSummary` and `PaymentReference` are stated for every natural number, which the source delivers only in that range: from 1e21 up a number renders in exponent form (`1e+21`), and above 2^53 ids are not exact.
- `weight` is a float: it is carried as an opaque `Weight` and never inspected. `total_amount` and the ids are non-negative integers; fractional amounts are not modelled.
- ShipmentResolvers.ShipmentStore.UpdateShipment: requires that argument keys are distinct and that each present value has its column's type. Both are guaranteed by JavaScript objects and the GraphQL schema. An explicit `null` for a non-nullable column, which the database would reject, is excluded by the same requirement.
- BannerCarousel.Carousel.NextBanner: requires a visible carousel because its button is drawn only then. The same holds for `PrevBanner` and `GoToBanner`.
- PaymentQr.PaymentQrWidget.SecondElapsed: one call is one second of the interval. `setInterval` timing, re-arming the effect and clearing it are not modelled.
- `formatPrice` (`Intl.NumberFormat`), toast notifications, `isRefreshing`, and all markup and icons are not modelled. `Date.now()` for `qrKey` is the `now` parameter.
- `Vehicles.jsx` and `apolloClient.js` are not part of this model (form UI and client configuration).
