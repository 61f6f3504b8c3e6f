/** The send flow of ErrorPopup.tsx: `email`, `sending` and `sendStatus` moved through `handleSend`,
    with the delayed clear-and-close step as a transition of its own. */
module ErrorPopup {
  import opened Wrappers
  import opened Text
  import opened ErrorBoundary

  /** `sendStatus`: `"idle"`, `"success"` or `"error"`. */
  datatype SendStatus = Idle | Success | Failed

  class ErrorPopup {
    /** The provider whose log the popup shows, sends and clears. */
    const provider: ErrorProvider
    var email: string
    var sending: bool
    var sendStatus: SendStatus
    /** The parent's `isOpen`, which `onClose` resets. */
    var open: bool
    /** How many of the 2-second timers set by successful sends have not fired yet: every success
        sets its own timer, and the component stays mounted while closed, so several may be pending. */
    var pendingCloses: nat

    constructor (provider: ErrorProvider)
      ensures this.provider == provider
      ensures email == "" && !sending && sendStatus == Idle && open && pendingCloses == 0
    {
      this.provider := provider;
      email := "";
      sending := false;
      sendStatus := Idle;
      open := true;
      pendingCloses := 0;
    }

    /** The address field's `onChange`. */
    method SetEmail(value: string)
      modifies this`email
      ensures email == value
    {
      email := value;
    }

    /** The send button's `disabled` is the negation of this. The button, like the footer close
        button, is only on screen while the popup is open and the log is non-empty; this model does not
        track that, so it also answers for states the screen never offers. */
    function SendEnabled(): (r: bool)
      reads this
      ensures r <==> !sending && !IsBlank(email)
    {
      TrimEmptyIffBlank(email);
      !(sending || Trim(email) == "")
    }

    /** The footer close button's `disabled` is the negation of this. */
    function CloseEnabled(): (r: bool)
      reads this
      ensures r <==> !sending
    {
      !sending
    }

    /** The first part of `handleSend`, up to the `await`: nothing happens for a blank address;
        otherwise the popup enters the sending state with the status reset. */
    method BeginSend() returns (started: bool)
      modifies this`sending, this`sendStatus
      ensures started <==> !IsBlank(email)
      ensures started ==> sending && sendStatus == Idle
      ensures !started ==> sending == old(sending) && sendStatus == old(sendStatus)
    {
      TrimEmptyIffBlank(email);
      if Trim(email) == "" {
        return false;
      }
      sending := true;
      sendStatus := Idle;
      started := true;
    }

    /** The rest of `handleSend` once `sendErrorReport` settles with `outcome`: success sets one more
        close timer, failure is shown; in both cases sending ends. The log is left alone either way. */
    method FinishSend(outcome: Result<()>)
      modifies this`sending, this`sendStatus, this`pendingCloses
      ensures !sending
      ensures outcome.Ok? ==> sendStatus == Success && pendingCloses == old(pendingCloses) + 1
      ensures outcome.Err? ==> sendStatus == Failed && pendingCloses == old(pendingCloses)
    {
      if outcome.Ok? {
        sendStatus := Success;
        pendingCloses := pendingCloses + 1;
      } else {
        sendStatus := Failed;
      }
      sending := false;
    }

    /** The oldest pending timer fires: clear the log, close, reset status and address. Every timer
        does this, whatever has been logged or typed since its send; with none pending nothing happens. */
    method CloseTimerFires()
      modifies this, provider
      ensures old(pendingCloses) > 0 ==>
        provider.errors == [] && !open && sendStatus == Idle && email == ""
        && pendingCloses == old(pendingCloses) - 1
      ensures old(pendingCloses) == 0 ==>
        provider.errors == old(provider.errors) && open == old(open) && sendStatus == old(sendStatus)
        && email == old(email) && pendingCloses == 0
      ensures sending == old(sending)
    {
      if pendingCloses > 0 {
        provider.ClearErrors();
        open := false;
        sendStatus := Idle;
        email := "";
        pendingCloses := pendingCloses - 1;
      }
    }

    /** `handleSend` with the report delivery settling as `delivery`. The log is cleared only later, by
        the timer, and only after a success; a failure keeps it for another attempt. The send button that
        triggers it is shown only while the popup is open and the log is non-empty; the method does not
        require either, so it also covers calls the screen cannot make. */
    method HandleSend(delivery: Result<()>) returns (payload: Option<ReportPayload>)
      modifies this`sending, this`sendStatus, this`pendingCloses
      ensures IsBlank(old(email)) ==>
        payload.None? && sending == old(sending) && sendStatus == old(sendStatus)
        && pendingCloses == old(pendingCloses)
      ensures !IsBlank(old(email)) ==>
        && payload == Some(ReportPayload(email, provider.errors))
        && !sending
        && (delivery.Ok? ==> sendStatus == Success && pendingCloses == old(pendingCloses) + 1)
        && (delivery.Err? ==> sendStatus == Failed && pendingCloses == old(pendingCloses))
    {
      var started := BeginSend();
      if !started {
        return None;
      }
      var sent, outcome := provider.SendErrorReport(email, delivery);
      FinishSend(outcome);
      payload := Some(sent);
    }
  }

  /** A successful send followed by a timer firing leaves an empty log and a closed popup with a fresh
      form; a failed send, with no earlier timer pending, leaves the log as it was. */
  method SendThenWait(popup: ErrorPopup, delivery: Result<()>)
    requires !IsBlank(popup.email)
    modifies popup, popup.provider
    ensures delivery.Ok? ==>
      popup.provider.errors == [] && !popup.open && popup.sendStatus == Idle && popup.email == "" && !popup.sending
      && popup.pendingCloses == old(popup.pendingCloses)
    ensures delivery.Err? && old(popup.pendingCloses) == 0 ==>
      popup.provider.errors == old(popup.provider.errors) && popup.sendStatus == Failed && !popup.sending
      && popup.email == old(popup.email)
  {
    var _ := popup.HandleSend(delivery);
    popup.CloseTimerFires();
  }

  /** Two quick successful sends set two timers. The second timer still fires after the first has
      closed the popup, and it clears an error logged in between, before anyone has reported it. */
  method SecondTimerClearsLaterError(popup: ErrorPopup, later: ErrorReport, freshId: string, now: int)
    requires !IsBlank(popup.email) && popup.pendingCloses == 0
    modifies popup, popup.provider
    ensures popup.provider.errors == [] && popup.pendingCloses == 0
  {
    var _ := popup.HandleSend(Ok(()));
    var _ := popup.HandleSend(Ok(()));
    popup.CloseTimerFires();
    popup.provider.AddError(later, freshId, now);
    assert popup.provider.errors != [];
    popup.CloseTimerFires();
  }
}
