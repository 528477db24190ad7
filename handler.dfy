/** `LexHandler` as the object the Lambda entry point builds for each Lex
    event: its resolver methods update the handler's slots and session
    attributes in place and return the response, each proved to follow the
    transitions of module Dialog. */
module Handler {
  import opened Wrappers
  import opened Firewood
  import opened Dialog

  class LexHandler {
    const event: Event
    const name: string
    const userId: string
    const source: string
    var slots: Slots
    var sessionAttributes: Option<Attributes>

    /** The part of the handler the resolver methods change. */
    function Current(): State
      reads this
    {
      State(slots, sessionAttributes)
    }

    /** `__init__`: copies the intent name, user, slots, source and session
        attributes out of the event. */
    constructor (event: Event)
      ensures this.event == event
      ensures name == event.currentIntent.name && userId == event.userId
      ensures source == event.invocationSource
      ensures Current() == State(event.currentIntent.slots, event.sessionAttributes)
    {
      this.event := event;
      name := event.currentIntent.name;
      userId := event.userId;
      slots := event.currentIntent.slots;
      source := event.invocationSource;
      sessionAttributes := event.sessionAttributes;
    }

    /** `__processOrderFirewood`. */
    method ProcessOrderFirewood(env: Env) returns (r: Result<Response, Fault>)
      modifies this
      ensures Turn(r, Current()) == OrderFirewoodTurn(name, source, old(Current()), env)
    {
      var read := ReadOrder(slots);
      if read.Failure? {
        return Failure(read.error);
      }
      var order := read.value;
      if source == DialogCodeHook {
        var verdict := Validate(order, env);
        if verdict.allValid {
          assert SlotOk(FirewoodType, order, env) && SlotOk(NumberCords, order, env);
          var price := Price(order.firewoodType.value, order.numberCords.value);
          if price.Failure? {
            return Failure(price.error);
          }
          if sessionAttributes.Some? && sessionAttributes.value != map[] {
            sessionAttributes := Some(sessionAttributes.value[PriceKey := price.value]);
          } else {
            sessionAttributes := Some(map[PriceKey := price.value]);
          }
          r := Success(Response(sessionAttributes, Delegate(slots)));
        } else {
          var slotName := verdict.firstInvalidSlot.value.Name();
          slots := slots[slotName := None];
          r := Success(Response(sessionAttributes,
                 ElicitSlot(name, slots, slotName, PlainText(verdict.message.value))));
        }
      } else {
        if sessionAttributes.None? {
          return Failure(NotSubscriptable);
        }
        if PriceKey !in sessionAttributes.value {
          return Failure(KeyError(PriceKey));
        }
        var message := ConfirmationMessage(order, sessionAttributes.value[PriceKey]);
        r := Success(Response(sessionAttributes, Close(Fulfilled, PlainText(message))));
      }
    }

    /** `__agentTransfer`: None (Python's implicit return) unless fulfilling. */
    method AgentTransfer() returns (r: Option<Response>)
      modifies this
      ensures Turn(Success(r), Current()) == AgentTransferTurn(source, old(Current()))
    {
      r := None;
      if source == FulfillmentCodeHook {
        if sessionAttributes.Some? && sessionAttributes.value != map[] {
          sessionAttributes := Some(sessionAttributes.value[AgentKey := AgentFlag]);
        } else {
          sessionAttributes := Some(map[AgentKey := AgentFlag]);
        }
        r := Some(Response(sessionAttributes, Close(Fulfilled, PlainText(TransferMessage))));
      }
    }

    /** `respond`: dispatch on the intent name; an unknown name raises. */
    method Respond(env: Env) returns (r: Result<Option<Response>, Fault>)
      modifies this
      ensures Turn(r, Current()) == RespondTurn(name, source, old(Current()), env)
    {
      if name == OrderFirewoodIntent {
        var response := ProcessOrderFirewood(env);
        r := if response.Success? then Success(Some(response.value)) else Failure(response.error);
      } else if name == RequestAgentIntent {
        var response := AgentTransfer();
        r := Success(response);
      } else {
        r := Failure(UnsupportedIntent(UnsupportedMessage(name)));
      }
    }
  }

  /** `lambda_handler`: a fresh handler per event answers with the router's
      outcome for the event's intent, source, slots and session attributes. */
  method LambdaHandler(event: Event, env: Env) returns (r: Result<Option<Response>, Fault>)
    ensures r == RespondTurn(event.currentIntent.name, event.invocationSource,
                             State(event.currentIntent.slots, event.sessionAttributes), env).outcome
  {
    var handler := new LexHandler(event);
    r := handler.Respond(env);
  }
}
