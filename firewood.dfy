/** The OrderFirewood catalogue, the six slot validators of `LexHandler`
    and the short-circuiting validation pipeline `__validateOrderFirewood`,
    with the price computation used once every slot is valid.

    The two outside inputs of a turn are parameters: today's date as a day
    number, the date parser as a function from the slot text to a day number
    (None when it raises ValueError), and the address lookup as a function
    from (street, zip) to its outcome. */
module Firewood {
  import opened Wrappers
  import opened Text

  // ---------------------------------------------------------------- constants

  const FirewoodTypes: seq<string> := ["split", "logs"]
  const PricePerCord: map<string, int> := map["split" := 200, "logs" := 150]
  const DeliveryZipCode: string := "80863"

  /** Exceptions a turn can raise. */
  datatype Fault =
    | KeyError(key: string)             // a dict lookup on a missing key
    | NotSubscriptable                  // indexing session attributes that are None
    | ValueError                        // int() on a non-numeral
    | UnsupportedIntent(message: string)

  /** The slots of the OrderFirewood intent; `Rank` is their validation order. */
  datatype Slot = FirewoodType | NumberCords | DeliveryDate | DeliveryTime | DeliveryZip | DeliveryStreet
  {
    function Name(): string
    {
      match this
      case FirewoodType => "FirewoodType"
      case NumberCords => "NumberCords"
      case DeliveryDate => "DeliveryDate"
      case DeliveryTime => "DeliveryTime"
      case DeliveryZip => "DeliveryZip"
      case DeliveryStreet => "DeliveryStreet"
    }

    function Rank(): nat
    {
      match this
      case FirewoodType => 0
      case NumberCords => 1
      case DeliveryDate => 2
      case DeliveryTime => 3
      case DeliveryZip => 4
      case DeliveryStreet => 5
    }
  }

  /** Outcome of the address-verification call: candidates found, none found,
      or the client raised. */
  datatype LookupOutcome = Match | NoMatch | ProviderError

  datatype Env = Env(
    today: int,
    parseDate: string -> Option<int>,
    lookup: (string, string) -> LookupOutcome)

  /** The six slot values as read from the intent (None is Python's None). */
  datatype OrderSlots = OrderSlots(
    firewoodType: Option<string>,
    numberCords: Option<string>,
    deliveryDate: Option<string>,
    deliveryTime: Option<string>,
    deliveryStreet: Option<string>,
    deliveryZip: Option<string>)
  {
    function Value(slot: Slot): Option<string>
    {
      match slot
      case FirewoodType => firewoodType
      case NumberCords => numberCords
      case DeliveryDate => deliveryDate
      case DeliveryTime => deliveryTime
      case DeliveryZip => deliveryZip
      case DeliveryStreet => deliveryStreet
    }
  }

  /** Python truthiness of a slot value: not None and not empty. */
  predicate Present(v: Option<string>) { v.Some? && v.value != "" }

  // ---------------------------------------------------------------- validators

  predicate IsValidDeliveryStreet(street: Option<string>, zip: Option<string>, lookup: (string, string) -> LookupOutcome)
  {
    Present(street) && Present(zip) && lookup(street.value, zip.value) == Match
  }

  predicate IsValidDeliveryDate(date: Option<string>, today: int, parseDate: string -> Option<int>)
  {
    Present(date) &&
    match parseDate(date.value)
    case None => false
    case Some(day) => today + 1 <= day <= today + 30
  }

  predicate IsValidDeliveryTime(time: Option<string>)
  {
    time.Some? && |time.value| == 5 &&
    var parts := Split(time.value, ':');
    |parts| == 2 &&
    match (ParseInt(parts[0]), ParseInt(parts[1]))
    case (Some(hour), Some(minute)) => 9 <= hour <= 17 && 0 <= minute <= 59
    case _ => false
  }

  predicate IsValidDeliveryZip(zip: Option<string>)
  {
    zip == Some(DeliveryZipCode)
  }

  predicate IsValidFirewoodType(firewoodType: Option<string>)
  {
    Present(firewoodType) && Lower(firewoodType.value) in FirewoodTypes
  }

  predicate IsValidNumberCords(numberCords: Option<string>)
  {
    Present(numberCords) &&
    match ParseInt(numberCords.value)
    case None => false
    case Some(cords) => 1 <= cords <= 3
  }

  /** Whether the validator of `slot` accepts the order's values. */
  predicate SlotOk(slot: Slot, o: OrderSlots, env: Env)
  {
    match slot
    case FirewoodType => IsValidFirewoodType(o.firewoodType)
    case NumberCords => IsValidNumberCords(o.numberCords)
    case DeliveryDate => IsValidDeliveryDate(o.deliveryDate, env.today, env.parseDate)
    case DeliveryTime => IsValidDeliveryTime(o.deliveryTime)
    case DeliveryZip => IsValidDeliveryZip(o.deliveryZip)
    case DeliveryStreet => IsValidDeliveryStreet(o.deliveryStreet, o.deliveryZip, env.lookup)
  }

  // ---------------------------------------------------------------- messages

  const ZipPieces: seq<string> :=
    ["Delivery is available only within the ", " zip code.  What is your delivery zip code?"]
  const StreetPieces: seq<string> :=
    ["The street address you provided ", " does not appear to be valid.  "]
  const StreetPrompt: string := "Please provide a street address for delivery."
  const FirewoodTypePrompt: string :=
    "Our firewood options are split or logs.  Which type would you prefer?"
  const NumberCordsPrompt: string :=
    "Delivery quantity options are 1, 2, or 3 cords.  How many cords do you need?"
  const DeliveryDatePrompt: string :=
    "Available delivery dates are from tomorrow to a month from today.  What date would you prefer?"
  const DeliveryTimePrompt: string :=
    "Available delivery times are from 9 am to 5 pm.  What time would you prefer?"

  /** The literal pieces of the two templates hold no replacement field. */
  lemma ZipPiecesLiteral()
    ensures forall i :: 0 <= i < |ZipPieces| ==> '{' !in ZipPieces[i]
  {
  }

  lemma StreetPiecesLiteral()
    ensures forall i :: 0 <= i < |StreetPieces| ==> '{' !in StreetPieces[i]
  {
  }

  function ZipMessage(): (m: string)
    ensures m == ZipPieces[0] + DeliveryZipCode + ZipPieces[1]
  {
    ZipPiecesLiteral();
    FormatInterleave(ZipPieces, [DeliveryZipCode]);
    Format(Interleave(ZipPieces), [DeliveryZipCode])
  }

  /** With a non-empty street the prompt quotes it between the two pieces of
      the template and appends the request; otherwise it is the request alone. */
  function StreetMessage(street: Option<string>): (m: string)
    ensures Present(street) ==> m == StreetPieces[0] + street.value + (StreetPieces[1] + StreetPrompt)
    ensures !Present(street) ==> m == StreetPrompt
  {
    if Present(street) then
      StreetPiecesLiteral();
      FormatInterleave(StreetPieces, [street.value]);
      Format(Interleave(StreetPieces), [street.value]) + StreetPrompt
    else
      StreetPrompt
  }

  /** A rejected street the user did give is quoted back in the prompt. */
  lemma StreetMessageQuotesStreet(street: Option<string>)
    requires Present(street)
    ensures Contains(StreetMessage(street), street.value)
  {
    ContainsMiddle(StreetPieces[0], street.value, StreetPieces[1] + StreetPrompt);
  }

  /** The prompt the pipeline returns when `slot` is the first invalid one. */
  function FailureMessage(slot: Slot, o: OrderSlots): (m: string)
    ensures |m| > 0
  {
    match slot
    case FirewoodType => FirewoodTypePrompt
    case NumberCords => NumberCordsPrompt
    case DeliveryDate => DeliveryDatePrompt
    case DeliveryTime => DeliveryTimePrompt
    case DeliveryZip => ZipMessage()
    case DeliveryStreet => StreetMessage(o.deliveryStreet)
  }

  // ---------------------------------------------------------------- pipeline

  /** `(allValid, firstInvalidSlot, message)` as `__validateOrderFirewood` returns it. */
  datatype Verdict = Verdict(allValid: bool, firstInvalidSlot: Option<Slot>, message: Option<string>)

  /** The shape of `__validateOrderFirewood`: consult the validators in rank
      order and stop at the first that rejects. */
  function FirstRejected(accepts: Slot -> bool): Option<Slot>
  {
    if !accepts(FirewoodType) then Some(FirewoodType)
    else if !accepts(NumberCords) then Some(NumberCords)
    else if !accepts(DeliveryDate) then Some(DeliveryDate)
    else if !accepts(DeliveryTime) then Some(DeliveryTime)
    else if !accepts(DeliveryZip) then Some(DeliveryZip)
    else if !accepts(DeliveryStreet) then Some(DeliveryStreet)
    else None
  }

  /** Nothing is reported exactly when every validator accepts; a reported
      slot is rejected and every slot ranked before it accepted. */
  lemma {:induction false} FirstRejectedIsFirst(accepts: Slot -> bool)
    ensures FirstRejected(accepts).None? <==> forall slot: Slot :: accepts(slot)
    ensures FirstRejected(accepts).Some? ==>
      var bad := FirstRejected(accepts).value;
      && !accepts(bad)
      && forall slot: Slot :: slot.Rank() < bad.Rank() ==> accepts(slot)
  {
    if FirstRejected(accepts).None? {
      forall slot: Slot ensures accepts(slot) {
        match slot
        case FirewoodType =>
        case NumberCords =>
        case DeliveryDate =>
        case DeliveryTime =>
        case DeliveryZip =>
        case DeliveryStreet =>
      }
    }
  }

  /** `__validateOrderFirewood`: the first slot the six validators reject,
      with that slot's non-empty prompt, or neither when all accept. */
  function Validate(o: OrderSlots, env: Env): (v: Verdict)
    ensures v.allValid <==> v.firstInvalidSlot.None?
    ensures v.allValid <==> v.message.None?
    ensures v.firstInvalidSlot.Some? ==>
      v.message == Some(FailureMessage(v.firstInvalidSlot.value, o)) && |v.message.value| > 0
  {
    match FirstRejected(slot => SlotOk(slot, o, env))
    case None => Verdict(true, None, None)
    case Some(slot) => Verdict(false, Some(slot), Some(FailureMessage(slot, o)))
  }

  /** The order is all-valid exactly when every validator accepts it; a
      rejection names the first slot, in rank order, whose validator rejects. */
  lemma {:induction false} ValidateReportsFirstFailure(o: OrderSlots, env: Env)
    ensures Validate(o, env).allValid <==> forall slot: Slot :: SlotOk(slot, o, env)
    ensures Validate(o, env).firstInvalidSlot.Some? ==>
      var bad := Validate(o, env).firstInvalidSlot.value;
      && !SlotOk(bad, o, env)
      && forall slot: Slot :: slot.Rank() < bad.Rank() ==> SlotOk(slot, o, env)
  {
    FirstRejectedIsFirst(slot => SlotOk(slot, o, env));
  }

  // ---------------------------------------------------------------- price

  /** `'$' + str(PRICE_PER_CORD[firewoodType] * int(numberCords))`. The catalogue
      key is the raw slot text, so a type that validated case-insensitively can
      still raise KeyError here. */
  function Price(firewoodType: string, numberCords: string): (r: Result<string, Fault>)
    ensures r.Success? <==> firewoodType in PricePerCord && ParseInt(numberCords).Some?
    ensures firewoodType !in PricePerCord ==> r == Failure(KeyError(firewoodType))
    ensures r.Success? ==>
      && |r.value| > 0 && r.value[0] == '$'
      && ParseInt(r.value[1..]) == Some(PricePerCord[firewoodType] * ParseInt(numberCords).value)
    ensures r.Success? ==> r.value == "$" + Str(PricePerCord[firewoodType] * ParseInt(numberCords).value)
  {
    if firewoodType !in PricePerCord then Failure(KeyError(firewoodType))
    else
      match ParseInt(numberCords)
      case None => Failure(ValueError)
      case Some(cords) =>
        var amount := PricePerCord[firewoodType] * cords;
        StrRoundTrip(amount);
        assert ("$" + Str(amount))[1..] == Str(amount);
        Success("$" + Str(amount))
  }
}
