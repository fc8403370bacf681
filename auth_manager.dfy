/**
 * `AuthManager`'s PIN store: the encrypted shared preferences seen as a
 * map from key to string, under the key "user_pin".
 */
module AuthManager {

  const PinKey: string := "user_pin"

  class AuthManager {
    var prefs: map<string, string>

    /** An `AuthManager` over preferences that already hold `prefs`. */
    constructor (prefs: map<string, string>)
      ensures this.prefs == prefs
    {
      this.prefs := prefs;
    }

    /** `isPinSet()`: the store has an entry under the PIN key. */
    predicate IsPinSet()
      reads this
      ensures IsPinSet() <==> PinKey in prefs
    {
      PinKey in prefs
    }

    /** The stored PIN, or "" when there is none: `getString(PIN_KEY, "")`. */
    function StoredPin(): (pin: string)
      reads this
      ensures PinKey in prefs ==> pin == prefs[PinKey]
      ensures PinKey !in prefs ==> pin == ""
    {
      if PinKey in prefs then prefs[PinKey] else ""
    }

    /**
     * `verifyPin(pin)`: exact equality with the stored PIN. With nothing
     * stored the empty string is accepted.
     */
    predicate VerifyPin(pin: string)
      reads this
      ensures VerifyPin(pin) <==> (PinKey in prefs && prefs[PinKey] == pin) || (PinKey !in prefs && pin == "")
      ensures !IsPinSet() ==> (VerifyPin(pin) <==> pin == "")
    {
      StoredPin() == pin
    }

    /** `savePin(pin)`: the PIN entry is written, replacing any earlier one; other keys stay. */
    method SavePin(pin: string)
      modifies this
      ensures prefs == old(prefs)[PinKey := pin]
      ensures IsPinSet() && VerifyPin(pin)
      ensures forall q :: VerifyPin(q) <==> q == pin
    {
      prefs := prefs[PinKey := pin];
    }
  }

  /** Saving twice keeps only the second PIN. */
  method SaveTwice(auth: AuthManager, first: string, second: string)
    modifies auth
    ensures auth.prefs == old(auth.prefs)[PinKey := second]
    ensures auth.VerifyPin(second) && (first != second ==> !auth.VerifyPin(first))
  {
    auth.SavePin(first);
    auth.SavePin(second);
  }
}
