/**
 * The checkout dialog: the classification of a payment result, and the
 * dialog's state (processing, mounted, the two modals and their message,
 * the stored session, initialising) as a class whose methods are the
 * dialog's event handlers. The payment SDK and the backend are outside the
 * model: a call into the SDK and a request to the backend are recorded in
 * the sequences `sdkCalls` and `requests`, and their answers are inputs.
 */
module CheckoutFlow {
  import opened Wrappers
  import opened JsValues
  import opened StoreTypes

  // ---------------------------------------------------------------------------
  // The messages the dialog shows, as the component writes them. The first two
  // begin with the mis-decoded bytes of an emoji, exactly as they stand there.

  const SuccessMessage := "\U{F0}\U{178}\U{17D}\U{2030} Payment successful! Thank you for your purchase."
  const ProcessingMessage := "\U{E2}\U{B3} Payment is being processed. Please wait..."
  const DeclinedMessage := "  Payment failed. Please try again."
  const ExpiredMessage := "  Payment session expired. Please try again."
  const NotReadyMessage := "  Payment form is not ready. Please wait a moment."
  const NoSdkMessage := "  Payment system not available. Please refresh the page."
  const ProcessingFailedMessage := "  Payment processing failed. Please try again."
  const FormFailedMessage := "  Failed to initialize payment form. Please try again."
  const InitFailedLead := "  Failed to initialize payment: "
  const PaymentFailedLead := "  Payment failed: "

  // ---------------------------------------------------------------------------
  // Classifying a payment result.

  datatype Outcome = Approved | Processing | NeedsAction | Declined

  function Classify(r: PaymentResult): (o: Outcome)
    ensures o == Approved <==> r.status == "SUCCEEDED" && r.subStatus == "APPROVED"
    ensures o == Processing <==> r.status == "SUCCEEDED" && r.subStatus == "PENDING"
    ensures o == NeedsAction <==>
      !(r.status == "SUCCEEDED" && (r.subStatus == "APPROVED" || r.subStatus == "PENDING")) && r.requiresAction
  {
    if r.status == "SUCCEEDED" && r.subStatus == "APPROVED" then Approved
    else if r.status == "SUCCEEDED" && r.subStatus == "PENDING" then Processing
    else if r.requiresAction then NeedsAction
    else Declined
  }

  /** The status checks come first: a succeeded result is not sent back to the SDK even when it asks for an action. */
  lemma StatusBeforeAction(r: PaymentResult)
    requires r.status == "SUCCEEDED" && (r.subStatus == "APPROVED" || r.subStatus == "PENDING")
    ensures Classify(r) == Classify(r.(requiresAction := !r.requiresAction))
    ensures Classify(r) != NeedsAction && Classify(r) != Declined
  {
  }

  /**
   * The fields of the parsed payment answer the classification reads: strict
   * equality with a string literal is false for anything but that string, so a
   * non-string status reads as ""; `requiresAction` is tested for truthiness.
   */
  function ResultOf(payload: JsValue): (r: PaymentResult)
    requires !Nullish(payload)
    ensures r.status == "SUCCEEDED" <==> Field(payload, "status") == Str("SUCCEEDED")
    ensures r.subStatus == "APPROVED" <==> Field(payload, "sub_status") == Str("APPROVED")
    ensures r.subStatus == "PENDING" <==> Field(payload, "sub_status") == Str("PENDING")
    ensures r.requiresAction == Truthy(Field(payload, "requiresAction"))
  {
    var status := Field(payload, "status");
    var sub := Field(payload, "sub_status");
    PaymentResult(
      if status.Str? then status.s else "",
      if sub.Str? then sub.s else "",
      Truthy(Field(payload, "requiresAction")))
  }

  // ---------------------------------------------------------------------------
  // What the dialog records of the world outside it.

  datatype SdkCall = StartCheckout(session: JsValue) | MountCheckout | StartPayment | ContinuePayment

  /** A line of the session request: product id and name, quantity, unit price in cents. */
  datatype SessionItem = SessionItem(id: string, name: string, quantity: int, unitAmountCents: int)

  datatype BackendRequest =
    | CreateSession(amountCents: int, items: seq<SessionItem>)
    | Pay(session: JsValue, token: JsValue, amountCents: int)

  /** A backend answer: `response.ok` and the parsed body. */
  datatype Answer = Answer(ok: bool, payload: JsValue)

  function SessionItems(cart: seq<CartItem>): (r: seq<SessionItem>)
    ensures |r| == |cart|
    ensures forall i :: 0 <= i < |cart| ==>
      r[i] == SessionItem(cart[i].product.id, cart[i].product.name, cart[i].quantity, cart[i].product.priceCents)
  {
    seq(|cart|, i requires 0 <= i < |cart| =>
      SessionItem(cart[i].product.id, cart[i].product.name, cart[i].quantity, cart[i].product.priceCents))
  }

  /**
   * What one payment attempt does, given the SDK's session argument, the
   * fallback session its callback captured and the backend's answer: the
   * message to show (None keeps the old one), which modal to open, the request
   * made and the SDK calls.
   */
  datatype Effect = Effect(message: Option<string>, success: bool, failure: bool,
                           request: Option<BackendRequest>, calls: seq<SdkCall>)

  function PaymentEffect(rt: Runtime, fallback: JsValue, sessionId: JsValue, token: JsValue,
                         totalCents: int, answer: Answer): Effect
  {
    var session := Or(sessionId, fallback);
    if !Truthy(session) then Effect(Some(ExpiredMessage), false, true, None, [])
    else
      var request := Some(Pay(session, token, totalCents));
      if !answer.ok then
        match Prop(answer.payload, "message")
        case None => Effect(Some(ProcessingFailedMessage), false, true, request, [])
        case Some(m) =>
          Effect(Some(PaymentFailedLead + ToText(rt, Or(m, Str("Unknown error")))), false, true, request, [])
      else if Nullish(answer.payload) then Effect(Some(ProcessingFailedMessage), false, true, request, [])
      else
        match Classify(ResultOf(answer.payload))
        case Approved => Effect(Some(SuccessMessage), true, false, request, [])
        case Processing => Effect(Some(ProcessingMessage), true, false, request, [])
        case NeedsAction => Effect(None, false, false, request, [ContinuePayment])
        case Declined => Effect(Some(DeclinedMessage), false, true, request, [])
  }

  /** With neither a passed nor a fallback session, the attempt fails as expired and asks the backend nothing. */
  lemma ExpiredSessionSendsNothing(rt: Runtime, fallback: JsValue, sessionId: JsValue, token: JsValue,
                                   totalCents: int, answer: Answer)
    requires !Truthy(sessionId) && !Truthy(fallback)
    ensures PaymentEffect(rt, fallback, sessionId, token, totalCents, answer)
      == Effect(Some(ExpiredMessage), false, true, None, [])
  {
  }

  /** A refused payment shows the server's message (or "Unknown error") and skips the classification. */
  lemma RefusedPaymentShowsMessage(rt: Runtime, fallback: JsValue, sessionId: JsValue, token: JsValue,
                                   totalCents: int, answer: Answer)
    requires Truthy(Or(sessionId, fallback)) && !answer.ok && !Nullish(answer.payload)
    ensures var e := PaymentEffect(rt, fallback, sessionId, token, totalCents, answer);
      && e.message == Some(PaymentFailedLead + ToText(rt, Or(Field(answer.payload, "message"), Str("Unknown error"))))
      && e.failure && !e.success && e.calls == []
      && e.request == Some(Pay(Or(sessionId, fallback), token, totalCents))
  {
  }

  /** An accepted payment's effect follows its classification; only an action request calls the SDK, exactly once. */
  lemma AcceptedPaymentFollowsClass(rt: Runtime, fallback: JsValue, sessionId: JsValue, token: JsValue,
                                    totalCents: int, answer: Answer)
    requires Truthy(Or(sessionId, fallback)) && answer.ok && !Nullish(answer.payload)
    ensures var e := PaymentEffect(rt, fallback, sessionId, token, totalCents, answer);
      var o := Classify(ResultOf(answer.payload));
      && (e.success <==> o == Approved || o == Processing)
      && (e.failure <==> o == Declined)
      && (e.calls == [ContinuePayment] <==> o == NeedsAction)
      && (o != NeedsAction ==> e.calls == [])
      && (o == Approved ==> e.message == Some(SuccessMessage))
      && (o == Processing ==> e.message == Some(ProcessingMessage))
      && (o == NeedsAction ==> e.message.None?)
  {
  }

  /** Whatever the answer, one attempt opens at most one modal, and a request is made iff there was a session. */
  lemma AttemptOpensAtMostOneModal(rt: Runtime, fallback: JsValue, sessionId: JsValue, token: JsValue,
                                   totalCents: int, answer: Answer)
    ensures var e := PaymentEffect(rt, fallback, sessionId, token, totalCents, answer);
      && !(e.success && e.failure)
      && (e.request.Some? <==> Truthy(Or(sessionId, fallback)))
      && (e.message.None? <==> e.calls == [ContinuePayment])
  {
  }

  /**
   * What initialising does after the SDK check: the text of the failure to
   * show, or the session to store. A refused answer throws an Error made from
   * its `message` (or a fixed fallback); reading a field of a null body throws
   * a TypeError.
   */
  function InitOutcome(rt: Runtime, answer: Answer): (r: Result<JsValue, string>)
    ensures !answer.ok && !Nullish(answer.payload) ==>
      r == Failure(ToText(rt, Or(Field(answer.payload, "message"), Str("Failed to create checkout session"))))
    ensures answer.ok && !Nullish(answer.payload) ==> r == Success(Field(answer.payload, "checkout_session"))
    ensures Nullish(answer.payload) ==> r.Failure?
  {
    if !answer.ok then
      match Prop(answer.payload, "message")
      case None => Failure(ErrorText(ReadOfNullish(answer.payload, "message")))
      case Some(m) => Failure(ToText(rt, Or(m, Str("Failed to create checkout session"))))
    else
      match Prop(answer.payload, "checkout_session")
      case None => Failure(ErrorText(ReadOfNullish(answer.payload, "checkout_session")))
      case Some(s) => Success(s)
  }

  // ---------------------------------------------------------------------------
  // The dialog.

  /**
   * A mount scheduled by initializePayment: the session to mount, and the value
   * of `checkoutSession` in the render whose closures the mount registers with
   * the SDK (the state before initializePayment fallback the new session).
   */
  datatype Mount = Mount(session: JsValue, captured: JsValue)

  class CheckoutView {
    /** Whether the context holds an SDK instance. */
    const hasSdk: bool
    const cart: seq<CartItem>
    /** `totalPrice * 100`. */
    const totalCents: int

    var isProcessing: bool
    var checkoutSession: JsValue
    var isYunoMounted: bool
    var showSuccessModal: bool
    var showFailureModal: bool
    var paymentMessage: string
    var isInitializing: bool
    /** The mounts scheduled on a timer, in order. */
    var scheduledMounts: seq<Mount>
    /** The `checkoutSession` the SDK's payment callback falls back on: the value captured by the last startCheckout. */
    var paymentFallback: JsValue
    /** The session the SDK's yunoCreatePayment callback passes on: the one the last startCheckout mounted. */
    var callbackSession: JsValue
    /** The two-second visibility checks scheduled after a mount and not yet run. */
    var pendingChecks: nat
    var sdkCalls: seq<SdkCall>
    var requests: seq<BackendRequest>

    /** Nothing reaches the SDK or the backend, and the form never mounts, without an SDK instance. */
    ghost predicate Valid()
      reads this
    {
      !hasSdk ==> sdkCalls == [] && requests == [] && !isYunoMounted && scheduledMounts == [] && pendingChecks == 0
    }

    constructor(hasSdk: bool, cart: seq<CartItem>, totalCents: int)
      ensures Valid()
      ensures this.hasSdk == hasSdk && this.cart == cart && this.totalCents == totalCents
      ensures !isProcessing && checkoutSession == Str("") && paymentFallback == Str("") && !isYunoMounted
      ensures callbackSession == Str("")
      ensures !showSuccessModal && !showFailureModal && paymentMessage == ""
      ensures isInitializing && scheduledMounts == [] && pendingChecks == 0 && sdkCalls == [] && requests == []
    {
      this.hasSdk := hasSdk;
      this.cart := cart;
      this.totalCents := totalCents;
      isProcessing := false;
      checkoutSession := Str("");
      paymentFallback := Str("");
      callbackSession := Str("");
      isYunoMounted := false;
      showSuccessModal := false;
      showFailureModal := false;
      paymentMessage := "";
      isInitializing := true;
      scheduledMounts := [];
      pendingChecks := 0;
      sdkCalls := [];
      requests := [];
    }

    /** Shows the failure modal with `message`. */
    method Fail(message: string)
      modifies this`paymentMessage, this`showFailureModal
      ensures paymentMessage == message && showFailureModal
    {
      paymentMessage := message;
      showFailureModal := true;
    }

    /** initializePayment, with the backend's answer to the session request as input. */
    method InitializePayment(rt: Runtime, answer: Answer)
      requires Valid()
      modifies this`isInitializing, this`paymentMessage, this`showFailureModal, this`requests,
               this`checkoutSession, this`scheduledMounts
      ensures Valid()
      ensures !isInitializing
      ensures !hasSdk ==>
        paymentMessage == NoSdkMessage && showFailureModal && requests == old(requests)
        && checkoutSession == old(checkoutSession) && scheduledMounts == old(scheduledMounts)
      ensures hasSdk ==> requests == old(requests) + [CreateSession(totalCents, SessionItems(cart))]
      ensures hasSdk ==> match InitOutcome(rt, answer)
        case Failure(text) =>
          paymentMessage == InitFailedLead + text && showFailureModal
          && checkoutSession == old(checkoutSession) && scheduledMounts == old(scheduledMounts)
        case Success(s) =>
          paymentMessage == old(paymentMessage) && showFailureModal == old(showFailureModal)
          && checkoutSession == s && scheduledMounts == old(scheduledMounts) + [Mount(s, old(checkoutSession))]
    {
      var captured := checkoutSession;
      isInitializing := true;
      if !hasSdk {
        Fail(NoSdkMessage);
        isInitializing := false;
        return;
      }
      requests := requests + [CreateSession(totalCents, SessionItems(cart))];
      match InitOutcome(rt, answer) {
        case Failure(text) =>
          Fail(InitFailedLead + text);
        case Success(s) =>
          checkoutSession := s;
          scheduledMounts := scheduledMounts + [Mount(s, captured)];
      }
      isInitializing := false;
    }

    /** The effect on `[cart, totalPrice, yunoInstance]`: it initialises only when there is an SDK instance. */
    method RunInitEffect(rt: Runtime, answer: Answer)
      requires Valid()
      modifies this`isInitializing, this`paymentMessage, this`showFailureModal, this`requests,
               this`checkoutSession, this`scheduledMounts
      ensures Valid()
      ensures !hasSdk ==> unchanged(this)
      ensures hasSdk ==> !isInitializing && requests == old(requests) + [CreateSession(totalCents, SessionItems(cart))]
    {
      if hasSdk {
        InitializePayment(rt, answer);
      }
    }

    /**
     * mountYunoCheckout, with whether startCheckout and mountCheckout throw as
     * inputs. The form is unmounted before startCheckout; a failing
     * startCheckout shows a failure; a failing mountCheckout is ignored, but
     * then no visibility check is scheduled. The callbacks handed to
     * startCheckout fall back on `captured`, the `checkoutSession` of the render
     * that scheduled the mount.
     */
    method MountYunoCheckout(session: JsValue, captured: JsValue, startThrows: bool, mountThrows: bool)
      requires Valid()
      modifies this`isYunoMounted, this`sdkCalls, this`paymentMessage, this`showFailureModal, this`pendingChecks,
               this`paymentFallback, this`callbackSession
      ensures Valid()
      ensures !hasSdk ==> unchanged(this)
      ensures hasSdk ==> !isYunoMounted && paymentFallback == captured && callbackSession == session
      ensures hasSdk && startThrows ==>
        sdkCalls == old(sdkCalls) + [StartCheckout(session)]
        && paymentMessage == FormFailedMessage && showFailureModal && pendingChecks == old(pendingChecks)
      ensures hasSdk && !startThrows ==>
        sdkCalls == old(sdkCalls) + [StartCheckout(session), MountCheckout]
        && paymentMessage == old(paymentMessage) && showFailureModal == old(showFailureModal)
        && pendingChecks == old(pendingChecks) + (if mountThrows then 0 else 1)
    {
      if !hasSdk {
        return;
      }
      isYunoMounted := false;
      paymentFallback := captured;
      callbackSession := session;
      sdkCalls := sdkCalls + [StartCheckout(session)];
      if startThrows {
        Fail(FormFailedMessage);
        return;
      }
      sdkCalls := sdkCalls + [MountCheckout];
      if !mountThrows {
        pendingChecks := pendingChecks + 1;
      }
    }

    /** The 100 ms timer set by initializePayment fires: the oldest scheduled mount runs. */
    method OnInitTimer(startThrows: bool, mountThrows: bool)
      requires Valid() && |scheduledMounts| > 0
      modifies this`scheduledMounts, this`isYunoMounted, this`sdkCalls, this`paymentMessage,
               this`showFailureModal, this`pendingChecks, this`paymentFallback, this`callbackSession
      ensures Valid()
      ensures scheduledMounts == old(scheduledMounts[1..])
      ensures hasSdk && !isYunoMounted && paymentFallback == old(scheduledMounts[0].captured)
      ensures callbackSession == old(scheduledMounts[0].session)
      ensures startThrows ==>
        sdkCalls == old(sdkCalls) + [StartCheckout(old(scheduledMounts[0].session))]
        && paymentMessage == FormFailedMessage && showFailureModal && pendingChecks == old(pendingChecks)
      ensures !startThrows ==>
        sdkCalls == old(sdkCalls) + [StartCheckout(old(scheduledMounts[0].session)), MountCheckout]
        && paymentMessage == old(paymentMessage) && showFailureModal == old(showFailureModal)
        && pendingChecks == old(pendingChecks) + (if mountThrows then 0 else 1)
    {
      var m := scheduledMounts[0];
      scheduledMounts := scheduledMounts[1..];
      MountYunoCheckout(m.session, m.captured, startThrows, mountThrows);
    }

    /** A scheduled visibility check runs: a container with children counts as mounted. */
    method OnMountTimer(hasChildren: bool)
      requires Valid() && pendingChecks > 0
      modifies this`isYunoMounted, this`pendingChecks
      ensures Valid()
      ensures isYunoMounted == (old(isYunoMounted) || hasChildren)
      ensures pendingChecks == old(pendingChecks) - 1
    {
      if hasChildren {
        isYunoMounted := true;
      }
      pendingChecks := pendingChecks - 1;
    }

    /** The SDK's onRendered callback. */
    method OnRendered()
      requires Valid() && hasSdk
      modifies this`isYunoMounted
      ensures Valid()
      ensures isYunoMounted
    {
      isYunoMounted := true;
    }

    /** The SDK's yunoError callback. */
    method OnYunoError()
      requires Valid()
      modifies this`paymentMessage, this`showFailureModal, this`isProcessing
      ensures Valid()
      ensures paymentMessage == DeclinedMessage && showFailureModal && !isProcessing
    {
      Fail(DeclinedMessage);
      isProcessing := false;
    }

    /** processPayment, called by the SDK's yunoCreatePayment callback with the backend's answer as input. */
    method ProcessPayment(rt: Runtime, token: JsValue, sessionId: JsValue, answer: Answer)
      requires Valid() && hasSdk
      modifies this`isProcessing, this`paymentMessage, this`showFailureModal, this`showSuccessModal,
               this`requests, this`sdkCalls
      ensures Valid()
      ensures !isProcessing
      ensures var e := PaymentEffect(rt, old(paymentFallback), sessionId, token, totalCents, answer);
        && paymentMessage == (if e.message.Some? then e.message.value else old(paymentMessage))
        && showSuccessModal == (old(showSuccessModal) || e.success)
        && showFailureModal == (old(showFailureModal) || e.failure)
        && requests == old(requests) + (if e.request.Some? then [e.request.value] else [])
        && sdkCalls == old(sdkCalls) + e.calls
    {
      isProcessing := true;
      var session := Or(sessionId, paymentFallback);
      if !Truthy(session) {
        Fail(ExpiredMessage);
      } else {
        requests := requests + [Pay(session, token, totalCents)];
        if !answer.ok {
          match Prop(answer.payload, "message") {
            case None =>
              Fail(ProcessingFailedMessage);
            case Some(m) =>
              Fail(PaymentFailedLead + ToText(rt, Or(m, Str("Unknown error"))));
          }
        } else if Nullish(answer.payload) {
          Fail(ProcessingFailedMessage);
        } else {
          var outcome := Classify(ResultOf(answer.payload));
          if outcome == Approved {
            paymentMessage := SuccessMessage;
            showSuccessModal := true;
          } else if outcome == Processing {
            paymentMessage := ProcessingMessage;
            showSuccessModal := true;
          } else if outcome == NeedsAction {
            sdkCalls := sdkCalls + [ContinuePayment];
          } else {
            Fail(DeclinedMessage);
          }
        }
      }
      isProcessing := false;
    }

    /** The SDK's yunoCreatePayment callback: processPayment with the token and the mounted session. */
    method OnCreatePayment(rt: Runtime, token: JsValue, answer: Answer)
      requires Valid() && hasSdk
      modifies this`isProcessing, this`paymentMessage, this`showFailureModal, this`showSuccessModal,
               this`requests, this`sdkCalls
      ensures Valid()
      ensures !isProcessing
      ensures var e := PaymentEffect(rt, old(paymentFallback), old(callbackSession), token, totalCents, answer);
        && paymentMessage == (if e.message.Some? then e.message.value else old(paymentMessage))
        && showSuccessModal == (old(showSuccessModal) || e.success)
        && showFailureModal == (old(showFailureModal) || e.failure)
        && requests == old(requests) + (if e.request.Some? then [e.request.value] else [])
        && sdkCalls == old(sdkCalls) + e.calls
    {
      ProcessPayment(rt, token, callbackSession, answer);
    }

    /** The pay button's handler. */
    method HandleStartPayment()
      requires Valid()
      modifies this`isProcessing, this`paymentMessage, this`showFailureModal, this`sdkCalls
      ensures Valid()
      ensures !old(isYunoMounted) ==>
        paymentMessage == NotReadyMessage && showFailureModal
        && isProcessing == old(isProcessing) && sdkCalls == old(sdkCalls)
      ensures old(isYunoMounted) ==>
        isProcessing && sdkCalls == old(sdkCalls) + [StartPayment]
        && paymentMessage == old(paymentMessage) && showFailureModal == old(showFailureModal)
    {
      if !isYunoMounted {
        Fail(NotReadyMessage);
        return;
      }
      isProcessing := true;
      sdkCalls := sdkCalls + [StartPayment];
    }
  }
}
