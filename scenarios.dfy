/** Whole turns of the hook on concrete events: an order that validates, an
    order outside the delivery zip, fulfilment, an agent transfer and an
    unknown intent. The date parser and the address lookup are left open
    except for the outcomes each turn needs. */
module Scenarios {
  import opened Wrappers
  import opened Text
  import opened Firewood
  import opened Dialog
  import opened ValidationFacts

  /** The sample order: two cords of split wood at 13:00 to one street. */
  const SampleType: string := "split"
  const SampleCords: string := "2"
  const SampleTime: string := "13:00"
  const Street: string := "900 Tamarac Pkwy"

  function OrderSlotsMap(date: string, zip: string): Slots
  {
    map[
      "FirewoodType" := Some(SampleType), "NumberCords" := Some(SampleCords),
      "DeliveryDate" := Some(date), "DeliveryTime" := Some(SampleTime),
      "DeliveryStreet" := Some(Street), "DeliveryZip" := Some(zip)]
  }

  lemma ReadsOrder(date: string, zip: string)
    ensures ReadOrder(OrderSlotsMap(date, zip)) ==
      Success(OrderSlots(Some(SampleType), Some(SampleCords), Some(date), Some(SampleTime), Some(Street), Some(zip)))
  {
  }

  /** The first four slots of the sample order pass when the date parses to tomorrow. */
  lemma LeadingSlotsValid(date: string, zip: string, env: Env)
    requires date != "" && env.parseDate(date) == Some(env.today + 1)
    ensures var o := OrderSlots(Some(SampleType), Some(SampleCords), Some(date), Some(SampleTime), Some(Street), Some(zip));
      && SlotOk(FirewoodType, o, env) && SlotOk(NumberCords, o, env)
      && SlotOk(DeliveryDate, o, env) && SlotOk(DeliveryTime, o, env)
  {
    LowerCatalogue();
    assert SampleType == "split" && SampleCords == "2" && SampleTime == "13:00";
    assert ParseInt("2") == Some(2);
    ParseTwoDigits('1', '3');
    ParseTwoDigits('0', '0');
    assert "13" + ":" + "00" == "13:00";
    TimeValidIff("13", "00");
  }

  /** A dialog turn on a fully valid order delegates with the slots as they
      were and stores the price "$400" for two cords of split wood. */
  lemma ValidOrderDelegates(date: string, attributes: Option<Attributes>, env: Env)
    requires date != "" && env.parseDate(date) == Some(env.today + 1)
    requires env.lookup(Street, DeliveryZipCode) == Match
    ensures var s := State(OrderSlotsMap(date, DeliveryZipCode), attributes);
      var t := OrderFirewoodTurn(OrderFirewoodIntent, DialogCodeHook, s, env);
      && t.outcome.Success?
      && t.outcome.value.dialogAction == Delegate(s.slots)
      && t.next.slots == s.slots
      && t.next.attributes == Some(SetAttribute(attributes, PriceKey, "$400"))
      && t.next.attributes.value[PriceKey] == "$400"
  {
    var slots := OrderSlotsMap(date, DeliveryZipCode);
    var o := OrderSlots(Some(SampleType), Some(SampleCords), Some(date), Some(SampleTime), Some(Street), Some(DeliveryZipCode));
    ReadsOrder(date, DeliveryZipCode);
    LeadingSlotsValid(date, DeliveryZipCode, env);
    assert SlotOk(DeliveryZip, o, env) && SlotOk(DeliveryStreet, o, env);
    assert Validate(o, env).allValid;
    PriceExamples();
  }

  /** The same order for zip 99999 elicits DeliveryZip with the zip message,
      clearing that slot alone and leaving the session attributes alone. */
  lemma WrongZipElicits(date: string, attributes: Option<Attributes>, env: Env)
    requires date != "" && env.parseDate(date) == Some(env.today + 1)
    ensures var s := State(OrderSlotsMap(date, "99999"), attributes);
      var t := OrderFirewoodTurn(OrderFirewoodIntent, DialogCodeHook, s, env);
      && t.outcome.Success?
      && t.outcome.value.dialogAction ==
           ElicitSlot(OrderFirewoodIntent, t.next.slots, "DeliveryZip", PlainText(ZipMessage()))
      && t.next == State(s.slots["DeliveryZip" := None], attributes)
  {
    var s := State(OrderSlotsMap(date, "99999"), attributes);
    var o := OrderSlots(Some(SampleType), Some(SampleCords), Some(date), Some(SampleTime), Some(Street), Some("99999"));
    ReadsOrder(date, "99999");
    WrongZipVerdict(date, env);
    assert OrderFirewoodTurn(OrderFirewoodIntent, DialogCodeHook, s, env) == DialogTurn(OrderFirewoodIntent, s, o, env);
  }

  lemma WrongZipVerdict(date: string, env: Env)
    requires date != "" && env.parseDate(date) == Some(env.today + 1)
    ensures var o := OrderSlots(Some(SampleType), Some(SampleCords), Some(date), Some(SampleTime), Some(Street), Some("99999"));
      Validate(o, env) == Verdict(false, Some(DeliveryZip), Some(ZipMessage()))
  {
    var o := OrderSlots(Some(SampleType), Some(SampleCords), Some(date), Some(SampleTime), Some(Street), Some("99999"));
    LeadingSlotsValid(date, "99999", env);
    assert !SlotOk(DeliveryZip, o, env);
  }

  /** Fulfilment closes with the confirmation built from the slots and the
      stored price, without validating and without changing anything. */
  lemma FulfilmentCloses(date: string, zip: string, attributes: Attributes, env: Env)
    requires PriceKey in attributes && attributes[PriceKey] == "$400"
    ensures var s := State(OrderSlotsMap(date, zip), Some(attributes));
      var t := OrderFirewoodTurn(OrderFirewoodIntent, FulfillmentCodeHook, s, env);
      && t.next == s
      && t.outcome == Success(Response(Some(attributes), Close(Fulfilled, PlainText(
           "Thanks, your order for " + SampleCords + " cords of " + SampleType
           + (" firewood " + "has been placed and will be delivered to ") + Street
           + " on " + date + " at " + SampleTime
           + ".  We will need to collect a payment of " + "$400" + " upon arrival."))))
  {
    var s := State(OrderSlotsMap(date, zip), Some(attributes));
    var o := OrderSlots(Some(SampleType), Some(SampleCords), Some(date), Some(SampleTime), Some(Street), Some(zip));
    ReadsOrder(date, zip);
    assert OrderFirewoodTurn(OrderFirewoodIntent, FulfillmentCodeHook, s, env) == FulfillmentTurn(s, o);
  }

  /** Fulfilment without a stored price raises and changes nothing. */
  lemma FulfilmentWithoutPriceRaises(date: string, zip: string, attributes: Option<Attributes>, env: Env)
    requires PriceKey !in Bag(attributes)
    ensures var s := State(OrderSlotsMap(date, zip), attributes);
      var t := OrderFirewoodTurn(OrderFirewoodIntent, FulfillmentCodeHook, s, env);
      && t.next == s
      && t.outcome == Failure(if attributes.None? then NotSubscriptable else KeyError(PriceKey))
  {
  }

  /** RequestAgent on fulfilment flags the session for an agent and closes. */
  lemma AgentTransferCloses(s: State, env: Env)
    ensures var t := RespondTurn(RequestAgentIntent, FulfillmentCodeHook, s, env);
      && t.outcome == Success(Some(Response(t.next.attributes, Close(Fulfilled, PlainText(TransferMessage)))))
      && t.next.attributes.Some? && t.next.attributes.value[AgentKey] == "True"
  {
  }

  /** An intent the router does not know raises and produces no response. */
  lemma UnknownIntentRaises(s: State, source: string, env: Env)
    ensures var t := RespondTurn("Unknown", source, s, env);
      t.outcome == Failure(UnsupportedIntent("Intent with name Unknown not supported")) && t.next == s
  {
    UnknownMessage();
    assert RespondTurn("Unknown", source, s, env) == Turn(Failure(UnsupportedIntent(UnsupportedMessage("Unknown"))), s);
  }

  lemma UnknownMessage()
    ensures UnsupportedMessage("Unknown") == "Intent with name Unknown not supported"
  {
    assert "Intent with name " + "Unknown" + " not supported" == "Intent with name Unknown not supported";
  }
}
