/**
 * The two-step PIN setup screen: enter a 4-character PIN, then enter it
 * again; a match stores it and leaves the screen, a mismatch starts over.
 */
module SetupPinScreen {
  import opened Text
  import opened AuthManager

  const PinLength: nat := 4
  const EnterPinStep := 1
  const ConfirmPinStep := 2

  const PinTooShortError: string := "PIN должен содержать 4 цифры"
  const PinMismatchError: string := "PIN-коды не совпадают"

  class SetupPinScreen {
    const auth: AuthManager
    var pin: string
    var confirmPin: string
    var step: int
    var error: string

    /**
     * The screen's invariant: the step is 1 or 2, both fields hold at most
     * four characters, and in step 2 the first PIN is complete.
     */
    ghost predicate Valid()
      reads this
    {
      && (step == EnterPinStep || step == ConfirmPinStep)
      && |pin| <= PinLength && |confirmPin| <= PinLength
      && (step == ConfirmPinStep ==> |pin| == PinLength)
    }

    constructor (auth: AuthManager)
      ensures Valid()
      ensures this.auth == auth
      ensures pin == "" && confirmPin == "" && step == EnterPinStep && error == ""
    {
      this.auth := auth;
      pin := "";
      confirmPin := "";
      step := EnterPinStep;
      error := "";
    }

    /** The text field shows the PIN in step 1 and the confirmation in step 2. */
    function FieldValue(): (v: string)
      reads this
      ensures step == EnterPinStep ==> v == pin
      ensures step != EnterPinStep ==> v == confirmPin
    {
      if step == EnterPinStep then pin else confirmPin
    }

    /**
     * The field's `onValueChange`: the text, cut to four characters, goes
     * into the current step's field, and the error is cleared.
     */
    method OnValueChange(text: string)
      requires Valid()
      modifies this
      ensures Valid()
      ensures step == old(step) && error == ""
      ensures FieldValue() == Take(text, PinLength)
      ensures old(step) == EnterPinStep ==> pin == Take(text, PinLength) && confirmPin == old(confirmPin)
      ensures old(step) != EnterPinStep ==> confirmPin == Take(text, PinLength) && pin == old(pin)
    {
      if step == EnterPinStep {
        pin := Take(text, PinLength);
      } else {
        confirmPin := Take(text, PinLength);
      }
      error := "";
    }

    /**
     * The button's `onClick`. Step 1 moves on exactly when the PIN has four
     * characters. Step 2 saves a matching PIN and reports that the screen
     * pops itself off the back stack; a mismatch clears both fields and
     * returns to step 1 with an error.
     */
    method OnButtonClick() returns (navigatedBack: bool)
      requires Valid()
      modifies this, auth
      ensures Valid()
      ensures old(step) == EnterPinStep ==>
        && !navigatedBack && auth.prefs == old(auth.prefs)
        && pin == old(pin) && confirmPin == old(confirmPin)
        && (|pin| == PinLength ==> step == ConfirmPinStep && error == old(error))
        && (|pin| != PinLength ==> step == EnterPinStep && error == PinTooShortError)
      ensures old(step) == ConfirmPinStep && old(pin) == old(confirmPin) ==>
        && navigatedBack && auth.prefs == old(auth.prefs)[PinKey := old(pin)]
        && |auth.StoredPin()| == PinLength && auth.VerifyPin(old(pin))
        && pin == old(pin) && confirmPin == old(confirmPin) && step == old(step) && error == old(error)
      ensures old(step) == ConfirmPinStep && old(pin) != old(confirmPin) ==>
        && !navigatedBack && auth.prefs == old(auth.prefs)
        && pin == "" && confirmPin == "" && step == EnterPinStep && error == PinMismatchError
    {
      navigatedBack := false;
      if step == EnterPinStep {
        if |pin| == PinLength {
          step := ConfirmPinStep;
        } else {
          error := PinTooShortError;
        }
      } else {
        if pin == confirmPin {
          auth.SavePin(pin);
          navigatedBack := true;
        } else {
          error := PinMismatchError;
          pin := "";
          confirmPin := "";
          step := EnterPinStep;
        }
      }
    }
  }

  /** Typing the same four characters twice, pressing the button after each, stores them as the PIN. */
  method SetPinTwice(auth: AuthManager, p: string) returns (navigatedBack: bool)
    requires |p| == PinLength
    modifies auth
    ensures navigatedBack
    ensures auth.prefs == old(auth.prefs)[PinKey := p]
    ensures auth.IsPinSet() && auth.VerifyPin(p)
  {
    var screen := new SetupPinScreen(auth);
    screen.OnValueChange(p);
    var back := screen.OnButtonClick();
    screen.OnValueChange(p);
    navigatedBack := screen.OnButtonClick();
  }

  /** Confirming with a different PIN stores nothing and starts over with both fields empty. */
  method MismatchStartsOver(auth: AuthManager, p: string, q: string) returns (screen: SetupPinScreen)
    requires |p| == PinLength && Take(q, PinLength) != p
    modifies auth
    ensures fresh(screen) && screen.Valid()
    ensures auth.prefs == old(auth.prefs)
    ensures screen.step == EnterPinStep && screen.pin == "" && screen.confirmPin == ""
    ensures screen.error == PinMismatchError
  {
    screen := new SetupPinScreen(auth);
    screen.OnValueChange(p);
    var back := screen.OnButtonClick();
    screen.OnValueChange(q);
    back := screen.OnButtonClick();
  }

  /** A PIN shorter than four characters never gets past step 1. */
  method ShortPinRejected(auth: AuthManager, p: string) returns (screen: SetupPinScreen)
    requires |p| < PinLength
    modifies auth
    ensures fresh(screen) && screen.Valid()
    ensures auth.prefs == old(auth.prefs)
    ensures screen.step == EnterPinStep && screen.error == PinTooShortError
  {
    screen := new SetupPinScreen(auth);
    screen.OnValueChange(p);
    var back := screen.OnButtonClick();
  }
}
