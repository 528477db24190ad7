# Firewood ordering hook for Amazon Lex, in Dafny

This project models the per-turn code hook of a Lex chatbot that takes firewood orders
(`resources/Lambda/code/firewoodLambda.py`, class `LexHandler`) and proves properties of it.

A turn arrives as a Lex event. The event carries an intent name, the slot values the bot
has extracted, the invocation source (`DialogCodeHook` while the bot collects values,
`FulfillmentCodeHook` when the order is placed) and the session attributes that Lex carries
between turns. The hook answers with one of three directives:

- **Delegate**: every slot is valid; the price is stored in the session.
- **ElicitSlot**: ask again for the first invalid slot, after clearing its value.
- **Close**: confirm the order, or hand over to an agent.

The model has these parts:

- `wrappers.dfy`: `Option` (Python `None` or a value) and `Result` (a value or a raised exception).
- `text.dfy`: the Python builtins the hook uses. These are `int()` on a string, `str()` on an
  integer, `lower()`, `split(':')` and `str.format` with `{}` fields. Each comes with its
  partner: `int(str(n)) == n`, a lowered string that holds no capital and equals its input
  exactly when the input has none, split pieces that join back to the input, and format
  output equal to the pieces with the arguments spliced in order.
- `firewood.dfy`: the catalogue constants (`FIREWOOD_TYPES`, `PRICE_PER_CORD`,
  `DELIVERY_ZIP`), the six slot validators, the short-circuiting pipeline
  `__validateOrderFirewood` and the price expression.
- `validation_facts.dfy`: boundaries and characterisations of the validators, and the
  case-sensitive price key.
- `dialog.dfy`: the resolver (`__processOrderFirewood`, `__agentTransfer`) and the router
  (`respond`) as pure transitions. Each maps the handler's slots and session attributes to an
  outcome and the state it leaves behind.
- `handler.dfy`: class `LexHandler`. Its fields are the ones `__init__` sets. Its methods
  update `slots` and `sessionAttributes` in place, as the Python does, and each is proved
  equal to its transition in `dialog.dfy`. `LambdaHandler` is the entry point.
- `scenarios.dfy`: whole turns on concrete events.

The hook has two outside inputs, and both are parameters (`Firewood.Env`):

- Today's date is the day number `today`, and the date parser is a function from the slot
  text to a day number (`None` where `dateutil` raises `ValueError`).
- The address lookup is a function from (street, zip) to `Match`, `NoMatch` or
  `ProviderError`. `ProviderError` stands for the `SmartyException` that the validator catches.

Exceptions are `Firewood.Fault` values:

- `KeyError(key)` for a dict lookup on a missing key.
- `NotSubscriptable` for indexing session attributes that are `None`.
- `ValueError` for `int()` on a non-numeral.
- `UnsupportedIntent(message)` for the router's `raise`.

Quirks of the source kept as written:

- The agent flag is the string `"True"` (capital T), not `"true"`.
- `__agentTransfer` returns `None` for any source other than `FulfillmentCodeHook`.
- Any source other than `DialogCodeHook` takes the fulfilment branch. That branch does not
  revalidate. It raises when the session attributes are `None` (`NotSubscriptable`) or have
  no `Price` (`KeyError`).
- `FirewoodType` is validated case-insensitively, but the price is looked up with the raw
  text. So `"Split"` passes validation and then raises `KeyError` (`CapitalisedTypeQuirk`).
- The time check only asks for five characters that split on `:` into two integers. So
  `"9:000"` is 09:00 and the whole 17:00–17:59 hour is accepted.
- The price is recomputed and overwritten on every dialog turn where all six slots are valid,
  not only on the first such turn.
- The six slot values are read before anything else, in the order FirewoodType, NumberCords,
  DeliveryDate, DeliveryTime, DeliveryStreet, DeliveryZip. A missing key raises `KeyError` for
  the first one missing, even on a fulfilment turn.

## Model

| member | source | states |
|---|---|---|
| `Text.ParseInt` | resources/Lambda/code/firewoodLambda.py:123-124 | `int(s)`: an optional sign and ASCII digits, anything else raising `ValueError`; partnered by `Text.StrRoundTrip` and `Text.ParseTwoDigits` |
| `Text.Str` | resources/Lambda/code/firewoodLambda.py:219 | `str(n)`: a minus sign for negatives, then `Decimal`; partnered by `Text.StrRoundTrip` |
| `Text.Decimal` | resources/Lambda/code/firewoodLambda.py:219 | `str(n)` of a non-negative amount is a non-empty run of digits with no leading zero |
| `Text.DecimalValue` | resources/Lambda/code/firewoodLambda.py:219 | the digits `str(n)` produces read back as `n` (induction on `n`) |
| `Text.StrRoundTrip` | resources/Lambda/code/firewoodLambda.py:219 | `int(str(n)) == n` for every integer `n` |
| `Text.ParseTwoDigits` | resources/Lambda/code/firewoodLambda.py:123-124 | a two-digit hour or minute reads as ten times the first digit plus the second |
| `Text.Lower` | resources/Lambda/code/firewoodLambda.py:165 | `lower()` keeps the length and lowers each ASCII capital, leaving every other character; its properties are the three lemmas below |
| `Text.LowerLeavesNoCapital` | resources/Lambda/code/firewoodLambda.py:165 | no ASCII capital is left in a lowered string |
| `Text.LowerFixesLowerCase` | resources/Lambda/code/firewoodLambda.py:165 | lowering leaves a string unchanged exactly when it has no ASCII capital |
| `Text.LowerIdempotent` | resources/Lambda/code/firewoodLambda.py:165 | lowering twice is lowering once |
| `Text.Split` | resources/Lambda/code/firewoodLambda.py:122 | `s.split(sep)` has one more piece than `s` has separators; no piece holds the separator; the pieces joined by the separator give back `s` |
| `Text.SplitNone` | resources/Lambda/code/firewoodLambda.py:122 | a string without the separator splits into itself alone |
| `Text.SplitOnce` | resources/Lambda/code/firewoodLambda.py:122 | `x + ":" + y` with no other colon splits into exactly `[x, y]` |
| `Text.Format` | resources/Lambda/code/firewoodLambda.py:246-256 | `template.format(*args)` for bare `{}` fields, needing at least as many arguments as fields; characterised by `Text.FormatInterleave` |
| `Text.FormatLiteral` | resources/Lambda/code/firewoodLambda.py:246-256 | a brace-free prefix of a template passes through `format` unchanged and adds no field |
| `Text.FormatInterleave` | resources/Lambda/code/firewoodLambda.py:246-256 | formatting `p0 {} p1 {} … pn` takes exactly n arguments and substitutes them in order between the pieces |
| `Text.SpliceSnoc` | resources/Lambda/code/firewoodLambda.py:246-256 | one more argument and piece at the end of a template append to the formatted text |
| `Text.ContainsMiddle` | resources/Lambda/code/firewoodLambda.py:320 | text placed between two pieces is contained in the result |
| `Firewood.IsValidDeliveryStreet` | resources/Lambda/code/firewoodLambda.py:46-77 | `__isValidDeliveryStreet`: characterised by `ValidationFacts.StreetAcceptsMatch` and `ValidationFacts.StreetFailsClosed` |
| `Firewood.IsValidDeliveryDate` | resources/Lambda/code/firewoodLambda.py:79-105 | `__isValidDeliveryDate`: characterised by `ValidationFacts.DateWindow` and `ValidationFacts.DateRejectsUnparsed` |
| `Firewood.IsValidDeliveryTime` | resources/Lambda/code/firewoodLambda.py:107-132 | `__isValidDeliveryTime`: characterised by `ValidationFacts.TimeValidIff` and `ValidationFacts.ValidTimeShape` |
| `Firewood.IsValidDeliveryZip` | resources/Lambda/code/firewoodLambda.py:134-150 | `__isValidDeliveryZip`: characterised by `ValidationFacts.ZipValidIff` |
| `Firewood.IsValidFirewoodType` | resources/Lambda/code/firewoodLambda.py:152-168 | `__isValidFirewoodType`: characterised by `ValidationFacts.FirewoodTypeValidIff` |
| `Firewood.IsValidNumberCords` | resources/Lambda/code/firewoodLambda.py:170-193 | `__isValidNumberCords`: characterised by `ValidationFacts.CordsValidIff` |
| `Firewood.ZipMessage` | resources/Lambda/code/firewoodLambda.py:314 | the zip prompt names the one serviceable zip `80863` |
| `Firewood.StreetMessage` | resources/Lambda/code/firewoodLambda.py:318-321 | with a non-empty street the prompt is the template's first piece, the street, the second piece and the request for a street; otherwise it is the bare request |
| `Firewood.StreetMessageQuotesStreet` | resources/Lambda/code/firewoodLambda.py:319-320 | a rejected street that was given is quoted back in the prompt |
| `Firewood.FailureMessage` | resources/Lambda/code/firewoodLambda.py:297-322 | every slot's failure prompt is non-empty |
| `Firewood.FirstRejectedIsFirst` | resources/Lambda/code/firewoodLambda.py:297-324 | checking the six slots in order stops at nothing exactly when every check accepts; otherwise it stops at a rejected slot before which every check accepted |
| `Firewood.Validate` | resources/Lambda/code/firewoodLambda.py:283-324 | the slot and the message are present exactly when the order is invalid, and the message is that slot's non-empty prompt |
| `Firewood.ValidateReportsFirstFailure` | resources/Lambda/code/firewoodLambda.py:297-324 | all-valid exactly when all six validators accept; otherwise the slot named is rejected and every slot before it, in the order FirewoodType, NumberCords, DeliveryDate, DeliveryTime, DeliveryZip, DeliveryStreet, passed |
| `Firewood.Price` | resources/Lambda/code/firewoodLambda.py:219 | raises `KeyError(type)` unless the raw type is a catalogue key; succeeds exactly when the key exists and the cords parse; the price is exactly `"$" + str(unit price * cords)`, a numeral that reads back as that amount |
| `ValidationFacts.TimeValidIff` | resources/Lambda/code/firewoodLambda.py:120-132 | a five-character time with one colon is valid iff both sides are integers, hour in [9, 17] and minute in [0, 59] |
| `ValidationFacts.ValidTimeShape` | resources/Lambda/code/firewoodLambda.py:121-122 | a valid time is five characters with exactly one colon |
| `ValidationFacts.TimeNineAccepted` | resources/Lambda/code/firewoodLambda.py:125 | `"09:00"` is valid |
| `ValidationFacts.TimeBeforeNineRejected` | resources/Lambda/code/firewoodLambda.py:125 | `"08:59"` is invalid |
| `ValidationFacts.TimeSeventeenAccepted` | resources/Lambda/code/firewoodLambda.py:125 | `"17:59"` is valid: the whole 17:00 hour is accepted |
| `ValidationFacts.TimeEighteenRejected` | resources/Lambda/code/firewoodLambda.py:125 | `"18:00"` is invalid |
| `ValidationFacts.TimeWithoutColon` | resources/Lambda/code/firewoodLambda.py:121-122 | `"12345"` is invalid: it does not split into an hour and a minute |
| `ValidationFacts.TimeLooseFormat` | resources/Lambda/code/firewoodLambda.py:121-126 | `"9:000"` is accepted, as 09:00 |
| `ValidationFacts.DateWindow` | resources/Lambda/code/firewoodLambda.py:92-101 | a date parsed as `today + k` is valid iff 1 <= k <= 30 |
| `ValidationFacts.DateRejectsUnparsed` | resources/Lambda/code/firewoodLambda.py:92-105 | an absent, empty or unparsable date is invalid |
| `ValidationFacts.CordsValidIff` | resources/Lambda/code/firewoodLambda.py:183-193 | the numeral of `n` is a valid cord count iff 1 <= n <= 3 |
| `ValidationFacts.StreetFailsClosed` | resources/Lambda/code/firewoodLambda.py:61-77 | a missing street or zip, no match, or a lookup error all reject the street, and nothing is raised |
| `ValidationFacts.StreetAcceptsMatch` | resources/Lambda/code/firewoodLambda.py:61-73 | a given street and zip that the lookup matches are accepted |
| `ValidationFacts.ZipValidIff` | resources/Lambda/code/firewoodLambda.py:147-150 | a zip is valid exactly when it is the text `"80863"` |
| `ValidationFacts.FirewoodTypeValidIff` | resources/Lambda/code/firewoodLambda.py:165-168 | a type is valid exactly when it lowers to `split` or `logs` |
| `ValidationFacts.ValidTypePriceKey` | resources/Lambda/code/firewoodLambda.py:219 | a validated type has a price exactly when it is already lower case |
| `ValidationFacts.CapitalisedTypeQuirk` | resources/Lambda/code/firewoodLambda.py:219 | `"Split"` passes validation and then raises `KeyError("Split")` at the price lookup |
| `ValidationFacts.PriceExamples` | resources/Lambda/code/firewoodLambda.py:219 | split with 2 cords is `"$400"`; logs with 3 cords is `"$450"` |
| `ValidationFacts.ValidOrderPrice` | resources/Lambda/code/firewoodLambda.py:218-219 | on a fully valid order the price raises only for a type not in lower case; otherwise it is between $150 and $600 |
| `Dialog.SetAttribute` | resources/Lambda/code/firewoodLambda.py:220-223 | the key is added or overwritten, every other key keeps its value, and a missing or empty bag becomes the single entry |
| `Dialog.ReadOrder` | resources/Lambda/code/firewoodLambda.py:207-212 | succeeds iff all six slot keys are present, with their values; otherwise `KeyError` names the first missing key in read order |
| `Dialog.ConfirmationMessage` | resources/Lambda/code/firewoodLambda.py:246-256 | the confirmation holds cords, type, street, date, time and the stored price, verbatim and in that order, with `None` shown as "None" |
| `Dialog.SpliceSeven` | resources/Lambda/code/firewoodLambda.py:246-248 | a seven-piece template with six arguments formats to the pieces and arguments alternating |
| `Dialog.ConfirmationPiecesLiteral` | resources/Lambda/code/firewoodLambda.py:246-248 | the confirmation template has no braces other than its six `{}` fields |
| `Dialog.DialogTurn` | resources/Lambda/code/firewoodLambda.py:215-244 | all valid: delegate with slots unchanged and `Price` merged into the attributes, or raise with nothing changed; invalid: only the first invalid slot becomes `None`, it is elicited with the pipeline's message, and the attributes are untouched |
| `Dialog.FulfillmentTurn` | resources/Lambda/code/firewoodLambda.py:245-259 | no revalidation and no change; closes with the confirmation iff a `Price` is stored; raises on `None` attributes or a missing `Price` |
| `Dialog.OrderFirewoodTurn` | resources/Lambda/code/firewoodLambda.py:195-260 | a raised turn changes nothing; slot keys are kept; the only slot that can change is the elicited one (to `None`); attributes change only on delegation, never lose a key, and only `Price` may change |
| `Dialog.AgentTransferTurn` | resources/Lambda/code/firewoodLambda.py:262-281 | never raises; on fulfilment it sets `Agent` to `"True"`, keeps every other attribute and closes with the transfer message; on any other source it returns `None` and changes nothing |
| `Dialog.RespondTurn` | resources/Lambda/code/firewoodLambda.py:326-343 | OrderFirewood and RequestAgent go to their workflows; every other name raises `UnsupportedIntent` with a message naming the intent and changes nothing; no attribute key is ever removed |
| `Handler.LexHandler.constructor` | resources/Lambda/code/firewoodLambda.py:26-44 | the handler holds the event's intent name, user, slots, source and session attributes |
| `Handler.LexHandler.ProcessOrderFirewood` | resources/Lambda/code/firewoodLambda.py:195-260 | the in-place update of slots and session attributes, and the result, are those of `OrderFirewoodTurn` |
| `Handler.LexHandler.AgentTransfer` | resources/Lambda/code/firewoodLambda.py:262-281 | the in-place update and the result are those of `AgentTransferTurn` |
| `Handler.LexHandler.Respond` | resources/Lambda/code/firewoodLambda.py:326-343 | the in-place update and the result are those of `RespondTurn` |
| `Handler.LambdaHandler` | resources/Lambda/code/firewoodLambda.py:345-361 | a fresh handler per event answers with the router's outcome for that event |
| `Scenarios.ReadsOrder` | resources/Lambda/code/firewoodLambda.py:207-212 | the sample intent's slots are read into the six order values |
| `Scenarios.LeadingSlotsValid` | resources/Lambda/code/firewoodLambda.py:297-311 | split, 2 cords, tomorrow and 13:00 pass the first four validators |
| `Scenarios.ValidOrderDelegates` | resources/Lambda/code/firewoodLambda.py:215-230 | a valid order for tomorrow in 80863, with a matching street, delegates with the slots unchanged and stores `Price = "$400"` |
| `Scenarios.WrongZipVerdict` | resources/Lambda/code/firewoodLambda.py:297-315 | the sample order in zip 99999 passes the first four validators and is rejected at DeliveryZip with the zip prompt |
| `Scenarios.WrongZipElicits` | resources/Lambda/code/firewoodLambda.py:231-244 | the same order in zip 99999 elicits DeliveryZip with the zip prompt; only that slot is cleared |
| `Scenarios.FulfilmentCloses` | resources/Lambda/code/firewoodLambda.py:245-259 | fulfilment with `Price = "$400"` closes with the confirmation text for that order and changes nothing |
| `Scenarios.FulfilmentWithoutPriceRaises` | resources/Lambda/code/firewoodLambda.py:256 | fulfilment without a stored price raises, `NotSubscriptable` or `KeyError('Price')`, and changes nothing |
| `Scenarios.AgentTransferCloses` | resources/Lambda/code/firewoodLambda.py:262-281 | RequestAgent on fulfilment closes with the transfer message and `Agent = "True"` |
| `Scenarios.UnknownIntentRaises` | resources/Lambda/code/firewoodLambda.py:342-343 | an unknown intent raises "Intent with name Unknown not supported" and changes nothing |

## Left out

- `AWSBot.py` (building, testing and deleting the bot through boto3) is not part of this model. It is remote API calls, file and configuration loading, polling with `sleep` and logging, with no logic of its own to state.
- The SmartyStreets client (lines 62-68) is a network call. It is the `lookup` parameter, and only its three outcomes are modelled. An exception other than `SmartyException` would propagate in Python; this model does not include it.
- `dateutil.parser.parse` and `datetime.date.today()` (lines 94-95) are the `parseDate` and `today` parameters. Calendar arithmetic is day-number arithmetic. A parser exception other than `ValueError` is not modelled.
- `Text.ParseInt`: models `int()` as an optional sign followed by ASCII digits. Python also accepts surrounding whitespace, `_` between digits and non-ASCII digits. For example, the five-character times `"9: 00"` and `"9:0_0"` are valid in Python but not in this model.
- `Text.Lower`: lowers ASCII letters only. No non-ASCII character lowers to one of the letters of `split` or `logs`, so the FirewoodType check is unaffected.
- `Text.Format`: handles only the bare `{}` fields the hook uses. Numbered or named fields and `{{` escapes are not modelled.
- Aliasing: in Python the response dicts share `self.slots` and `self.sessionAttributes` with the event, so the caller's event dicts are mutated too. The model returns values. The handler's own fields are updated in place.
- `__init__` raising `KeyError` on an event missing one of its fields: `Dialog.Event` is a typed record. The stored `event` and `userId` are kept but never read, as in the source.
- The response's `contentType` is always `PlainText`. It is the `PlainText` message constructor rather than a field.
- `lambda_handler`'s `TZ`/`tzset` side effect (lines 359-360), both `__main__` blocks and the JSON serialisation of responses.
