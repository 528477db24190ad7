/** The dialog-state resolver and intent router of `LexHandler`, as pure
    transitions: each takes the turn's slots and session attributes and
    gives the outcome (a response or a raised fault) with the slots and
    session attributes the handler holds afterwards. */
module Dialog {
  import opened Wrappers
  import opened Text
  import opened Firewood

  type Slots = map<string, Option<string>>
  type Attributes = map<string, string>

  const DialogCodeHook: string := "DialogCodeHook"
  const FulfillmentCodeHook: string := "FulfillmentCodeHook"
  const OrderFirewoodIntent: string := "OrderFirewood"
  const RequestAgentIntent: string := "RequestAgent"
  const Fulfilled: string := "Fulfilled"
  const PriceKey: string := "Price"
  const AgentKey: string := "Agent"
  const AgentFlag: string := "True"
  const TransferMessage: string := "Transferring you to an agent now."

  /** The parts of the inbound Lex event the handler reads. */
  datatype Intent = Intent(name: string, slots: Slots)
  datatype Event = Event(
    currentIntent: Intent,
    userId: string,
    invocationSource: string,
    sessionAttributes: Option<Attributes>)

  /** The outbound response; every message has content type PlainText. */
  datatype Message = PlainText(content: string)
  datatype DialogAction =
    | Delegate(slots: Slots)
    | ElicitSlot(intentName: string, slots: Slots, slotToElicit: string, message: Message)
    | Close(fulfillmentState: string, message: Message)
  datatype Response = Response(sessionAttributes: Option<Attributes>, dialogAction: DialogAction)

  /** What the handler holds between steps of one turn. */
  datatype State = State(slots: Slots, attributes: Option<Attributes>)

  /** The outcome of a handler call and the state it leaves behind. */
  datatype Turn<T> = Turn(outcome: Result<T, Fault>, next: State)

  // ---------------------------------------------------------------- session attributes

  /** The attributes as a map, None read as empty. */
  function Bag(a: Option<Attributes>): Attributes
  {
    if a.Some? then a.value else map[]
  }

  /** `attrs[key] = value` when the attributes are truthy, `{key: value}`
      otherwise: the key is added or overwritten, every other key is kept,
      and a missing or empty bag becomes the single entry. */
  function SetAttribute(a: Option<Attributes>, key: string, value: string): (r: Attributes)
    ensures key in r && r[key] == value
    ensures r.Keys == Bag(a).Keys + {key}
    ensures forall k :: k in Bag(a) && k != key ==> r[k] == Bag(a)[k]
    ensures Bag(a) == map[] ==> r == map[key := value]
  {
    if a.Some? && a.value != map[] then a.value[key := value] else map[key := value]
  }

  // ---------------------------------------------------------------- reading the slots

  /** The order in which the six slot values are read from the intent. */
  const ReadSequence: seq<Slot> :=
    [FirewoodType, NumberCords, DeliveryDate, DeliveryTime, DeliveryStreet, DeliveryZip]

  function Missing(i: nat): Result<OrderSlots, Fault>
    requires i < |ReadSequence|
  {
    Failure(KeyError(ReadSequence[i].Name()))
  }

  /** `self.slots['FirewoodType']`, ... in read order: all six keys present
      give their values, otherwise KeyError names the first key missing. */
  function ReadOrder(slots: Slots): (r: Result<OrderSlots, Fault>)
    ensures r.Success? <==> forall slot: Slot :: slot.Name() in slots
    ensures r.Success? ==> forall slot: Slot :: r.value.Value(slot) == slots[slot.Name()]
    ensures r.Failure? ==>
      exists j :: 0 <= j < |ReadSequence| && r.error == KeyError(ReadSequence[j].Name())
        && ReadSequence[j].Name() !in slots
        && forall i :: 0 <= i < j ==> ReadSequence[i].Name() in slots
  {
    if FirewoodType.Name() !in slots then Missing(0)
    else if NumberCords.Name() !in slots then Missing(1)
    else if DeliveryDate.Name() !in slots then Missing(2)
    else if DeliveryTime.Name() !in slots then Missing(3)
    else if DeliveryStreet.Name() !in slots then Missing(4)
    else if DeliveryZip.Name() !in slots then Missing(5)
    else
      assert forall slot: Slot :: slot.Name() in slots;
      Success(OrderSlots(
        slots[FirewoodType.Name()], slots[NumberCords.Name()], slots[DeliveryDate.Name()],
        slots[DeliveryTime.Name()], slots[DeliveryStreet.Name()], slots[DeliveryZip.Name()]))
  }

  // ---------------------------------------------------------------- messages

  const ConfirmationPieces: seq<string> := [
    "Thanks, your order for ", " cords of ", " firewood " + "has been placed and will be delivered to ",
    " on ", " at ", ".  We will need to collect a payment of ", " upon arrival."]

  /** Python's `'{}'.format(v)` for a slot value: None renders as "None". */
  function Show(v: Option<string>): string
  {
    if v.Some? then v.value else "None"
  }

  /** The fulfilment confirmation: cords, type, street, date, time and the
      stored price, substituted verbatim and in that order. */
  function ConfirmationMessage(o: OrderSlots, price: string): (m: string)
    ensures m ==
      "Thanks, your order for " + Show(o.numberCords) + " cords of " + Show(o.firewoodType)
      + (" firewood " + "has been placed and will be delivered to ") + Show(o.deliveryStreet)
      + " on " + Show(o.deliveryDate) + " at " + Show(o.deliveryTime)
      + ".  We will need to collect a payment of " + price + " upon arrival."
  {
    var args := [Show(o.numberCords), Show(o.firewoodType), Show(o.deliveryStreet),
                 Show(o.deliveryDate), Show(o.deliveryTime), price];
    ConfirmationPiecesLiteral();
    FormatInterleave(ConfirmationPieces, args);
    SpliceSeven(ConfirmationPieces, args);
    Format(Interleave(ConfirmationPieces), args)
  }

  lemma SpliceSeven(p: seq<string>, a: seq<string>)
    requires |p| == 7 && |a| == 6
    ensures Splice(p, a) == p[0] + a[0] + p[1] + a[1] + p[2] + a[2] + p[3] + a[3] + p[4] + a[4] + p[5] + a[5] + p[6]
  {
    assert Splice(p[..1], a[..0]) == p[0];
    forall k | 1 <= k <= 6
      ensures Splice(p[..k + 1], a[..k]) == Splice(p[..k], a[..k - 1]) + a[k - 1] + p[k]
    {
      assert p[..k + 1] == p[..k] + [p[k]];
      assert a[..k] == a[..k - 1] + [a[k - 1]];
      SpliceSnoc(p[..k], a[..k - 1], a[k - 1], p[k]);
    }
    assert p[..7] == p && a[..6] == a;
  }

  /** The confirmation template has no braces besides its six `{}` fields. */
  lemma ConfirmationPiecesLiteral()
    ensures forall i :: 0 <= i < |ConfirmationPieces| ==> '{' !in ConfirmationPieces[i]
  {
    LeadingPiecesLiteral();
    TrailingPiecesLiteral();
  }

  // The two halves are separate lemmas only to keep each literal check small
  // for the solver.
  lemma LeadingPiecesLiteral()
    ensures forall i :: 0 <= i < 3 ==> '{' !in ConfirmationPieces[i]
  {
  }

  lemma TrailingPiecesLiteral()
    ensures forall i :: 3 <= i < |ConfirmationPieces| ==> '{' !in ConfirmationPieces[i]
  {
  }

  // ---------------------------------------------------------------- resolver

  predicate Delegates(t: Turn<Response>) { t.outcome.Success? && t.outcome.value.dialogAction.Delegate? }
  predicate Elicits(t: Turn<Response>) { t.outcome.Success? && t.outcome.value.dialogAction.ElicitSlot? }

  /** The dialog branch of `__processOrderFirewood` for the order read from
      the slots: when all six slots pass it stores the price under "Price"
      and delegates with the slots unchanged; otherwise it clears only the
      first invalid slot and elicits it with the pipeline's message, leaving
      the session attributes alone. The price lookup is the only thing that
      can raise, and then nothing changes. */
  function DialogTurn(intentName: string, s: State, o: OrderSlots, env: Env): (t: Turn<Response>)
    requires forall slot: Slot :: slot.Name() in s.slots
    ensures t.outcome.Success? ==> t.outcome.value.sessionAttributes == t.next.attributes
    ensures Validate(o, env).allValid ==> o.firewoodType.Some? && o.numberCords.Some?
    ensures var v := Validate(o, env);
      v.allValid ==>
        var price := Price(o.firewoodType.value, o.numberCords.value);
        && (t.outcome.Failure? <==> price.Failure?)
        && (price.Failure? ==> t == Turn(Failure(price.error), s))
        && (price.Success? ==>
              && Delegates(t) && t.outcome.value.dialogAction.slots == s.slots
              && t.next == State(s.slots, Some(SetAttribute(s.attributes, PriceKey, price.value))))
    ensures var v := Validate(o, env);
      !v.allValid ==>
        var name := v.firstInvalidSlot.value.Name();
        && Elicits(t)
        && t.next == State(s.slots[name := None], s.attributes)
        && t.outcome.value.dialogAction == ElicitSlot(intentName, t.next.slots, name, PlainText(v.message.value))
  {
    var v := Validate(o, env);
    if v.allValid then
      assert SlotOk(FirewoodType, o, env) && SlotOk(NumberCords, o, env);
      match Price(o.firewoodType.value, o.numberCords.value)
      case Failure(f) => Turn(Failure(f), s)
      case Success(price) =>
        var attributes := Some(SetAttribute(s.attributes, PriceKey, price));
        Turn(Success(Response(attributes, Delegate(s.slots))), State(s.slots, attributes))
    else
      var name := v.firstInvalidSlot.value.Name();
      var slots := s.slots[name := None];
      Turn(Success(Response(s.attributes, ElicitSlot(intentName, slots, name, PlainText(v.message.value)))),
           State(slots, s.attributes))
  }

  /** The fulfilment branch of `__processOrderFirewood`: no revalidation; it
      closes with the confirmation built from the slots and the stored price,
      and raises when the session attributes are None or hold no "Price".
      Nothing changes either way. */
  function FulfillmentTurn(s: State, o: OrderSlots): (t: Turn<Response>)
    ensures t.next == s
    ensures t.outcome.Success? <==> PriceKey in Bag(s.attributes)
    ensures s.attributes.None? ==> t.outcome == Failure(NotSubscriptable)
    ensures s.attributes.Some? && PriceKey !in s.attributes.value ==> t.outcome == Failure(KeyError(PriceKey))
    ensures t.outcome.Success? ==>
      t.outcome.value == Response(s.attributes,
        Close(Fulfilled, PlainText(ConfirmationMessage(o, s.attributes.value[PriceKey]))))
  {
    match s.attributes
    case None => Turn(Failure(NotSubscriptable), s)
    case Some(attributes) =>
      if PriceKey !in attributes then Turn(Failure(KeyError(PriceKey)), s)
      else
        var message := ConfirmationMessage(o, attributes[PriceKey]);
        Turn(Success(Response(s.attributes, Close(Fulfilled, PlainText(message)))), s)
  }

  /** `__processOrderFirewood`: read the six slots, then the dialog branch
      for "DialogCodeHook" and the fulfilment branch for any other source.
      Across the whole turn a raised fault changes nothing, the slot keys
      stay the same, the only slot that changes is the one elicited (to
      None), and the session attributes only gain or overwrite "Price". */
  function OrderFirewoodTurn(intentName: string, source: string, s: State, env: Env): (t: Turn<Response>)
    ensures t.outcome.Failure? ==> t.next == s
    ensures t.outcome.Success? ==> t.outcome.value.sessionAttributes == t.next.attributes
    ensures t.next.slots.Keys == s.slots.Keys
    ensures forall k :: k in s.slots && t.next.slots[k] != s.slots[k] ==>
      Elicits(t) && k == t.outcome.value.dialogAction.slotToElicit && t.next.slots[k] == None
    ensures t.next.attributes != s.attributes ==> Delegates(t)
    ensures Bag(s.attributes).Keys <= Bag(t.next.attributes).Keys <= Bag(s.attributes).Keys + {PriceKey}
    ensures forall k :: k in Bag(s.attributes) && k != PriceKey ==> Bag(t.next.attributes)[k] == Bag(s.attributes)[k]
    ensures ReadOrder(s.slots).Failure? ==> t.outcome == Failure(ReadOrder(s.slots).error)
    ensures ReadOrder(s.slots).Success? ==>
      t == if source == DialogCodeHook then DialogTurn(intentName, s, ReadOrder(s.slots).value, env)
           else FulfillmentTurn(s, ReadOrder(s.slots).value)
  {
    match ReadOrder(s.slots)
    case Failure(f) => Turn(Failure(f), s)
    case Success(o) =>
      if source == DialogCodeHook then DialogTurn(intentName, s, o, env) else FulfillmentTurn(s, o)
  }

  /** `__agentTransfer`. On fulfilment it sets "Agent" to the string "True",
      keeping every other attribute, and closes with the transfer message;
      on any other source it returns None and changes nothing. It never raises. */
  function AgentTransferTurn(source: string, s: State): (t: Turn<Option<Response>>)
    ensures t.outcome.Success? && t.next.slots == s.slots
    ensures t.outcome.value.Some? <==> source == FulfillmentCodeHook
    ensures source != FulfillmentCodeHook ==> t.next == s
    ensures source == FulfillmentCodeHook ==>
      && t.next.attributes.Some?
      && AgentKey in t.next.attributes.value
      && t.next.attributes.value[AgentKey] == AgentFlag
      && t.next.attributes.value.Keys == Bag(s.attributes).Keys + {AgentKey}
      && (forall k :: k in Bag(s.attributes) && k != AgentKey ==> t.next.attributes.value[k] == Bag(s.attributes)[k])
      && t.outcome.value.value == Response(t.next.attributes, Close(Fulfilled, PlainText(TransferMessage)))
  {
    if source == FulfillmentCodeHook then
      var attributes := Some(SetAttribute(s.attributes, AgentKey, AgentFlag));
      Turn(Success(Some(Response(attributes, Close(Fulfilled, PlainText(TransferMessage))))),
           State(s.slots, attributes))
    else
      Turn(Success(None), s)
  }

  // ---------------------------------------------------------------- router

  function UnsupportedMessage(intentName: string): string
  {
    "Intent with name " + intentName + " not supported"
  }

  /** An order turn seen through the router, whose result may be None. */
  function Lift(t: Turn<Response>): Turn<Option<Response>>
  {
    match t.outcome
    case Success(r) => Turn(Success(Some(r)), t.next)
    case Failure(f) => Turn(Failure(f), t.next)
  }

  /** `respond`: OrderFirewood and RequestAgent go to their workflows; any
      other intent raises UnsupportedIntent, whose message names the intent,
      and changes nothing. No turn ever removes a session attribute. */
  function RespondTurn(intentName: string, source: string, s: State, env: Env): (t: Turn<Option<Response>>)
    ensures intentName == OrderFirewoodIntent ==> t == Lift(OrderFirewoodTurn(intentName, source, s, env))
    ensures intentName == RequestAgentIntent ==> t == AgentTransferTurn(source, s)
    ensures (t.outcome.Failure? && t.outcome.error.UnsupportedIntent?) <==>
      intentName != OrderFirewoodIntent && intentName != RequestAgentIntent
    ensures t.outcome.Failure? ==> t.next == s
    ensures t.outcome.Failure? && t.outcome.error.UnsupportedIntent? ==> Contains(t.outcome.error.message, intentName)
    ensures Bag(s.attributes).Keys <= Bag(t.next.attributes).Keys
  {
    if intentName == OrderFirewoodIntent then Lift(OrderFirewoodTurn(intentName, source, s, env))
    else if intentName == RequestAgentIntent then AgentTransferTurn(source, s)
    else
      ContainsMiddle("Intent with name ", intentName, " not supported");
      Turn(Failure(UnsupportedIntent(UnsupportedMessage(intentName))), s)
  }
}
