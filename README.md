# WhatsApp booking intake, modelled in Dafny

This project models the booking-intake path of a WhatsApp health-product
assistant, plus its user accounts.

- **Inbound handler** (`whatsapp/client.js`): the `messages.upsert` handler
  drops events it should ignore. It reads the sender and the text, asks
  `processMessage` for a reply, and dispatches on that reply. The outcomes are
  a booking confirmation and save, a question about missing fields, the booking
  template, a product listing, or the reply itself.
- **Message processing** (`services/ai.service.js`): checks for a product
  match first, then two Gemini verdicts (booking before symptom), then
  generated text. Any failure gives an apology. `getBookingTemplate` is the
  form customers fill in.
- **Bookings** (`services/booking.service.js`): extracts fields from a
  `Label: value` text. Saves a complete booking as a `Pending` row. Finds the
  newest booking of a phone number.
- **Products** (`services/product.service.js`): the catalogue filter.
- **Accounts** (`controllers/controllers.js`): register and login against a
  users table whose emails are unique.

Files and modules:

- `js.dfy` (`Js`): the JavaScript string built-ins the code calls, and
  truthiness of values that may be `undefined`. The built-ins are `split`,
  `trim` with the ECMAScript white-space set, ASCII `toLowerCase`/`toUpperCase`,
  `includes`, `startsWith` and first-occurrence `replace`. Two more appear only
  inside the model: `join`, used only to specify `split`, and `indexOf`, the
  search that `replace` performs.
- `products.dfy` (`Products`): `findProduct` as a function over a catalogue
  parameter.
- `bookings.dfy` (`Bookings`):
  - `parseBookingMessage` as a method with a `for` loop, proved equal to a fold
    of a one-line rule;
  - the bookings table as a class with auto-increment ids;
  - `findBookingByPhone` as a function over the rows.
- `assistant.dfy` (`Assistant`): `processMessage` as a method proved equal to
  a decision function over the oracle answers, the verdict post-processing,
  and the template.
- `whatsapp.dfy` (`WhatsApp`): an `Outbox` class for `sock.sendMessage`, and
  the handler as a method. The handler runs `ProcessMessage` and
  `BookingTable.Save`, and is proved to send exactly `Replies(...)`.
- `accounts.dfy` (`Accounts`): a users-table class with `Register` and
  `Login`.

Inputs that stand for things outside the code:

- `OracleAnswers`: the text of each Gemini call, or `None` when the call
  rejects.
- `Collaborators`: `JSON.parse` of the two tagged payloads. Also the three
  helpers the handler imports but whose code is not part of this model:
  `formatBookingConfirmation`, `askForMissingFields`, `hasBookingKeywords`.
- `dbFails`: whether the database rejects its queries.
- `Crypto`: bcrypt and jsonwebtoken.

Quirks of the code that the model keeps:

- `parseBookingMessage` cuts a line at *every* colon and keeps only the piece
  between the first and the second colon, so `Time: 10:00 AM` stores `10`.
- A value of white space only passes the emptiness test and is stored as `""`.
- `saveBooking` answers `{success: false}` for incomplete data rather than
  throwing, and the handler sends its success text even then.
- The success text always reads "Booking ID: undefined", because
  `saveBooking` never returns an id.

## Model

| member | source | states |
|---|---|---|
| Js.Split | services/booking.service.js:5 | `split` on a one-character separator gives at least one piece, no piece holds the separator, and joining the pieces gives back the text |
| Js.SplitJoin | services/booking.service.js:9 | splitting undoes joining separator-free pieces |
| Js.SplitAfterPiece | services/booking.service.js:9 | a text `x` + separator + `t`, with `x` separator-free, splits into `x` followed by the pieces of `t` |
| Js.SplitNoSeparator | services/booking.service.js:9 | a text without the separator splits into itself alone |
| Js.TrimEmptyIffAllSpace | whatsapp/client.js:53 | `s.trim()` is empty exactly when every character of `s` is white space |
| Js.TrimPadded | services/ai.service.js:30 | trimming removes exactly the white space around a core that has none at its ends |
| Js.Trim | services/booking.service.js:13 | the trimmed text is empty or starts and ends with a character that is not white space |
| Js.IndexOf | whatsapp/client.js:66 | the search that `replace` performs: the first position where the pattern occurs, or none when it occurs nowhere |
| Js.ContainsIffIndexOf | services/booking.service.js:15 | `includes` holds exactly when the first-occurrence search of `replace` finds the pattern |
| Js.Truthy | services/booking.service.js:11 | definition: an optional string is truthy when it is present and not `""` |
| Js.Lower | services/booking.service.js:13 | definition: `toLowerCase` on ASCII letters, character by character; same length |
| Js.Upper | services/ai.service.js:30 | definition: `toUpperCase` on ASCII letters, character by character; same length |
| Js.Contains | services/booking.service.js:15-19 | definition: `includes`, the pattern occurs at some position |
| Js.StartsWith | whatsapp/client.js:64 | definition: `startsWith`, the text begins with the prefix |
| Js.ReplaceFirst | whatsapp/client.js:66 | definition: `replace` with a string pattern, replacing the first occurrence found by `IndexOf`, or the text unchanged |
| Js.ReplacePrefix | whatsapp/client.js:66 | `replace(tag, "")` on a text that starts with `tag` drops exactly that prefix |
| Products.FindProduct | services/product.service.js:8-15 | a product is in the result iff its lower-cased brand contains the lower-cased query or one of its keywords occurs in the lower-cased query; at most as many results as products |
| Products.FindProductAppend | services/product.service.js:11-14 | the filter keeps catalogue order: filtering a concatenation concatenates the filtered parts |
| Products.FindProductSingle | services/product.service.js:11-14 | a one-product catalogue yields that product exactly when it matches |
| Products.FindProductIgnoresQueryCase | services/product.service.js:9 | `findProduct(q) == findProduct(q.toLowerCase())` |
| Products.UpperKeywordNeverHits | services/product.service.js:13 | a keyword holding an upper-case ASCII letter never occurs in the lower-cased query |
| Products.EmptyQueryMatchesAll | services/product.service.js:12 | the empty query returns the whole catalogue |
| Bookings.ParseBookingMessage | services/booking.service.js:4-23 | the loop returns `Parsed(text)`, the fold of the line rule over the lines of the text |
| Bookings.AssignByLabel | services/booking.service.js:13-19 | the five `if`s give the same object as the five independent label tests applied in order |
| Bookings.AssignField | services/booking.service.js:15-19 | after one line a property is present iff it was present or its label test passed; it holds the new value iff its test passed, and otherwise keeps its old value |
| Bookings.FoldField | services/booking.service.js:8-20 | a property is present iff some line assigns it, and its value is the value of the last line that does |
| Bookings.FoldLastSetter | services/booking.service.js:8-20 | later lines overwrite earlier ones: when line `i` assigns a property and no later line does, the property holds line `i`'s value |
| Bookings.LinesField | services/booking.service.js:8-20 | over any sequence of lines: a property is present iff some line assigns it; it then holds the value of the last line that does, and no later line assigns it |
| Bookings.ParsedField | services/booking.service.js:4-23 | parseBookingMessage, property by property: present iff some line of the text assigns it, with the value of the last such line |
| Bookings.NoEntryParsesEmpty | services/booking.service.js:6-22 | a text in which no line yields a key and a non-empty value parses to `{}` |
| Bookings.LineEntry | services/booking.service.js:9-13 | definition: `line.split(":")`, skipped when the first or second piece is empty, otherwise the trimmed lower-cased key and the trimmed value |
| Bookings.EntryOf | services/booking.service.js:9-13 | a line `key:tail` yields the trimmed, lower-cased key and the trimmed text up to the next colon, or is skipped when that text is empty |
| Bookings.ValueCutAtNextColon | services/booking.service.js:9 | anything after a second colon is dropped, so `Time: 10:00 AM` keeps `10` |
| Bookings.NoColonSkipped | services/booking.service.js:11 | a line without a colon is skipped |
| Bookings.EmptyKeySkipped | services/booking.service.js:11 | a line that starts with a colon is skipped |
| Bookings.BlankValueStoredEmpty | services/booking.service.js:11-15 | a value of white space only passes the emptiness test and is stored as `""` |
| Bookings.DateTimeKeySetsBoth | services/booking.service.js:18-19 | the key `date/time` passes both the date and the time test and no other |
| Bookings.SaveOutcomeCases | services/booking.service.js:27-39 | saveBooking reports success iff the data is complete and the insert works; it fails with "Incomplete booking data" iff the data is incomplete; it throws iff the data is complete and the insert fails; success carries no message |
| Bookings.BlankFieldRejected | services/booking.service.js:29-31 | a property that is present but empty makes saveBooking refuse |
| Bookings.BookingTable.Save | services/booking.service.js:26-40 | ids stay increasing; the result is `SaveOutcome`; on success exactly one row with the five values and status `Pending` is appended under the next id; otherwise the table is unchanged |
| Bookings.LatestByPhone | services/booking.service.js:41-47 | none iff no row has the phone; otherwise a row with that phone whose id is the largest among such rows |
| Bookings.SavedRowIsLatest | services/booking.service.js:33-46 | right after a save, findBookingByPhone for the saved phone returns the new row |
| Assistant.VerdictPadded | services/ai.service.js:30 | a verdict is positive exactly when, stripped of surrounding white space, it spells the word in any ASCII case |
| Assistant.IsVerdict | services/ai.service.js:30 | definition: `response.text.trim().toUpperCase() === word` |
| Assistant.VerdictNeedsExactLength | services/ai.service.js:52 | under ASCII case mapping, an answer whose trimmed length differs from the word's is negative |
| Assistant.ProductReply | services/ai.service.js:59-70 | definition: the header, one line per product for the first three matches, and the footer |
| Assistant.ProcessMessage | services/ai.service.js:57-119 | the `forEach` loop and the early returns give exactly `AiReply`: product reply, then verdicts, then generated text, with the apology on every failure |
| Assistant.ProductFirst | services/ai.service.js:59-70 | with a product match the reply depends on no oracle and is the header, the first three matches and the footer |
| Assistant.ProductReplyFirstThree | services/ai.service.js:65-67 | of more than three matches only the first three are listed, in order |
| Assistant.BookingBeatsSymptom | services/ai.service.js:73-81 | with no product match and a positive booking verdict the reply is `INTENT:BOOKING`, whatever the symptom verdict |
| Assistant.FailureGivesApology | services/ai.service.js:73-118 | a failure of either verdict call, or of the generation call that is made, gives the apology |
| Assistant.ReplyShapes | services/ai.service.js:57-119 | the reply is the product reply, `INTENT:BOOKING`, the apology, or a trimmed generated text |
| Assistant.BookingTemplate | services/ai.service.js:123-135 | definition: getBookingTemplate, the template's lines joined by line breaks |
| Assistant.TemplateLinesSplit | services/ai.service.js:123-135 | the template's lines are the lines of the literal |
| Assistant.TemplateLabels | services/ai.service.js:129-133 | the template has 11 lines, and lines 5 to 9 are `Name:`, `Mobile:`, `Problem:`, `Preferred Date:`, `Preferred Time:` |
| Assistant.TemplateParsesEmpty | services/ai.service.js:123-135 | the template sent back unchanged parses to `{}` |
| Assistant.FormKeyHits | services/booking.service.js:15-19 | each template label passes exactly the label test of its own property |
| Assistant.FilledFormParsed | services/ai.service.js:129-133 | filling each label line with a colon-free, non-blank value yields all five properties with the trimmed values |
| Assistant.FilledTemplateParsed | services/ai.service.js:123-135 | the whole template sent back, greeting and instruction lines included, with each label line filled by a colon-free, non-blank value, yields all five properties with the trimmed values and is complete |
| Assistant.FilledFormSaves | services/booking.service.js:27-39 | such a reply is complete, so saveBooking succeeds |
| WhatsApp.Accepted | whatsapp/client.js:45-53 | definition: the first message of a `notify` event, when it has content, was not sent by this account and its text is not blank |
| WhatsApp.MessageText | whatsapp/client.js:52 | the text is `conversation` if truthy, else `extendedTextMessage.text` if truthy, else `""` |
| WhatsApp.JidPhone | whatsapp/client.js:50-51 | the phone holds no `@` and is a prefix of the JID |
| WhatsApp.JidPhoneOf | whatsapp/client.js:51 | the phone is exactly the part of the JID before the first `@` |
| WhatsApp.Outbox.Send | whatsapp/client.js:69-71 | one `sendMessage` appends one outbound message |
| WhatsApp.HandleUpsert | whatsapp/client.js:44-130 | the handler sends exactly `Replies(...)`, in order, and the bookings table changes only by the row `Stored(...)` names |
| WhatsApp.Respond | whatsapp/client.js:64-122 | the dispatch sends exactly `Dispatch(...)`, including the product loop over the first two matches |
| WhatsApp.HandlerProductReply | whatsapp/client.js:109-116 | definition: the handler's listing, its header, one `💊` line per product for the first two matches, and its footer |
| WhatsApp.ListProducts | whatsapp/client.js:108-118 | the loop builds the handler's listing: header, one line per match for the first two matches in order, footer |
| WhatsApp.ConfirmAndSave | whatsapp/client.js:66-85 | decode, confirm, save, then the success or error text; a row is added only for complete data and a working insert |
| WhatsApp.DispatchShape | whatsapp/client.js:64-122 | every reply goes to the sender; there are two exactly for a readable `BOOKING_DATA:` payload and one otherwise |
| WhatsApp.SilentExactlyOnGuards | whatsapp/client.js:45-53 | nothing is sent iff the event is not `notify`, has no message, has no content, is from this account, or has blank text |
| WhatsApp.OnlyFirstMessage | whatsapp/client.js:47 | later messages of an event change neither the replies nor the table |
| WhatsApp.FallbackTestIsKeywordsOnly | whatsapp/client.js:96-104 | the dispatch equals the one without the unreachable `aiResponse === "INTENT:BOOKING"` test of line 101 |
| WhatsApp.SuccessTextUnlessInsertFails | whatsapp/client.js:68-84 | the confirmation comes first; the success text follows also for incomplete data; the error text follows iff the data is complete and the insert fails |
| WhatsApp.ProductReplyUntagged | whatsapp/client.js:64-99 | processMessage's product reply matches none of the first three dispatch tests |
| WhatsApp.ApologyUntagged | whatsapp/client.js:64-99 | the apology matches none of the first three dispatch tests |
| WhatsApp.ProductReplyReplaced | whatsapp/client.js:108-118 | for a text naming products and without booking keywords, the handler sends its own listing of the first two matches, never processMessage's |
| WhatsApp.FailedCheckSendsApology | whatsapp/client.js:122 | with no product and no booking keyword, a failed intent check reaches the customer as the apology |
| WhatsApp.BookingVerdictSendsTemplate | whatsapp/client.js:96-99 | a positive booking verdict with no product match sends the template and stores nothing |
| WhatsApp.StoredIsComplete | whatsapp/client.js:74-78 | a stored booking is complete, was stored with a working insert, and is followed by the success text |
| Accounts.FirstWithEmail | controllers/controllers.js:16-18 | the lookup finds nothing iff no user has the email; otherwise a user with that email |
| Accounts.FirstWithEmailUnique | setupDatabase/setupDatabase.js:7 | with unique emails the lookup returns the one user with that email |
| Accounts.AppendKeepsDistinct | controllers/controllers.js:16-32 | inserting a user whose email was not found keeps emails unique |
| Accounts.UserTable.Register | controllers/controllers.js:8-39 | emails stay unique; the response is `RegisterResponse`; on 201 exactly one user with the hashed password is appended; otherwise the table is unchanged |
| Accounts.UserTable.Login | controllers/controllers.js:43-72 | the response is `LoginResponse`; the method changes nothing |
| Accounts.RegisterCases | controllers/controllers.js:10-34 | 201 iff all fields are present, the database works and the email is new; "User already exists" iff the email is taken; never a token |
| Accounts.LoginSucceedsIff | controllers/controllers.js:45-67 | 200 iff the fields are present, the database works, and the user with that email matches the password and can be signed, with that user's token |
| Accounts.RegisteredUserCanLogIn | controllers/controllers.js:24-67 | after registering, login with the same email and password returns 200 with the new user's token, given that bcrypt accepts a password against its own hash |
| Accounts.StoredPasswordIsHash | controllers/controllers.js:24-32 | the row stored for the new email holds the hash of the password |

## Left out

- Gemini: the prompts, the model and the network calls are not modelled.
  Each call is an `OracleAnswers` entry, and `None` stands for a rejected
  call or an answer without text. This covers `Promise.all` rejecting when
  either verdict call fails.
- WhatsApp transport: the socket, auth state, QR code and reconnect timer
  are not modelled (whatsapp/client.js:18-42). `Outbox.Send` always
  succeeds, so a rejected `sendMessage` is not modelled. Where it rejects
  decides what would follow:
  - the sends at whatsapp/client.js:69, 81, 91, 98, 103, 117 and 122 would
    reach the outer catch, which sends the apology;
  - the success-text send at line 76 sits inside the inner `try`, so its
    rejection would send the save-error text although the row is stored;
  - the apology send at line 126 is inside the outer catch, so its rejection
    would escape the handler.
- Logging: all `console.log`/`console.error` calls are omitted. The sender
  phone is only logged, so `JidPhone` is not used by the handler.
- Tagged payloads: `JSON.parse` and the helpers `formatBookingConfirmation`,
  `askForMissingFields` and `hasBookingKeywords` are given functions.
  services/ai.service.js does not export these helpers, so as written the
  import at whatsapp/client.js:6-12 would fail when the module loads; the
  model assumes they exist. The helpers are assumed not to throw.
- In the same way, routes/routes.js:3 imports `getAllBookings` and
  `createBooking`, which controllers/controllers.js does not export. So as
  written the routes module, and with it register and login, would not load.
  The model takes register and login as they are written.
- Decoded booking values are strings. Numbers, `null` or nested objects in
  the JSON payload are not modelled.
- Case mapping covers ASCII letters only; the rest of Unicode case mapping is
  not modelled.
- `Product.price` is the text JavaScript prints for the stored value;
  number formatting is not modelled.
- MySQL: the connection, the schema creation, column lengths such as
  `VARCHAR(100)`, collation (case-insensitive and trailing-space
  comparison in `WHERE email = ?` and `WHERE phone = ?`) and auto-increment
  gaps after failed inserts are not modelled. Comparisons are exact equality,
  and ids grow by one per stored row.
- Bookings.LatestByPhone: a failing lookup query is not modelled. It always
  answers from the rows, although findBookingByPhone's `await db.query`
  (services/booking.service.js:42-45) rejects when the database fails.
  Nothing in the handler calls it.
- Accounts.UserTable.Register and Accounts.UserTable.Login: each request-body
  field is a string or absent.
  Non-string JSON values are not modelled. For example, a numeric password
  makes `bcrypt.hash` (controllers/controllers.js:24) or `bcrypt.compare`
  (line 56) reject, and the catch answers 500. `Crypto.hash` and
  `Crypto.compare` never fail in the model.
- Concurrency: interleavings of two handlers, or of a register that races
  another between its SELECT and INSERT, are not modelled.
- The catalogue file read at services/product.service.js:4-6 is I/O. The
  catalogue is a value parameter, so no call can change it.
- bcrypt's salt and cost and the token expiry are inside the given `Crypto`
  functions.
- Email and OTP code, the rate limiter, the Express routes and server, and
  the prompt text of data/knowledge.js are not part of this model.
- parseBookingMessage and findBookingByPhone are imported by the handler
  (whatsapp/client.js:13) but never called there. The handler stores only
  the JSON decoded from a `BOOKING_DATA:` reply, so its path does not include
  the template lemmas (`TemplateParsesEmpty`, `FilledFormParsed`, `FilledTemplateParsed`,
  `FilledFormSaves`). They describe parseBookingMessage and saveBooking
  applied to the template text.
- Product listings: the reply is proved to list the first three (or two)
  matches via `Take`, but the lines of a longer listing are not stated one by
  one beyond the three-product case.
