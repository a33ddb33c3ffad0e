/**
 * The access-lock dialog (src/components/AccessLockDialog.tsx): shown while the
 * store's lock flag is set, it asks for a five-character token; a valid one
 * lifts the lock after a short delay (the timer firing is its own step here).
 */
module AccessLockDialog {
  import opened Types
  import opened Text
  import opened StorageState
  import StorageLaws
  import Storage

  const MaxTokenLength := 5
  const InvalidToken := "Invalid token. Please try again."

  /** What the box holds after typing `text`: the box takes five characters at most, upper-cased. */
  function Entry(text: string): (r: string)
    ensures |r| == (if |text| <= MaxTokenLength then |text| else MaxTokenLength)
    ensures ToUpper(r) == r
  {
    var typed := if |text| <= MaxTokenLength then text else text[..MaxTokenLength];
    UpperTwice(typed);
    ToUpper(typed)
  }

  lemma UpperTwice(s: string)
    ensures ToUpper(ToUpper(s)) == ToUpper(s)
  {
    assert forall i :: 0 <= i < |s| ==> Upper(Upper(s[i])) == Upper(s[i]);
  }

  /**
   * The entry is at most five characters and already upper case, so it is
   * accepted exactly when it is one of the stored tokens as written.
   */
  lemma EntryLaws(text: string)
    ensures var token := Entry(text);
      && |token| <= MaxTokenLength
      && ToUpper(token) == token
      && (VerifyAccessToken(token) <==> token in AccessTokens)
  {
    UpperTwice(if |text| <= MaxTokenLength then text else text[..MaxTokenLength]);
  }

  class Dialog {
    var token: string
    var error: string
    var success: bool

    constructor ()
      ensures token == "" && error == "" && !success
    {
      token, error, success := "", "", false;
    }

    /** Typing in the box. */
    method Type(text: string)
      modifies this
      ensures token == Entry(text) && error == old(error) && success == old(success)
    {
      token := Entry(text);
    }

    /**
     * handleSubmit: a valid token shows the success screen and clears the
     * error; an invalid one shows the error and empties the box. The store is
     * not touched here.
     */
    method Submit()
      modifies this
      ensures success == (old(success) || VerifyAccessToken(old(token)))
      ensures VerifyAccessToken(old(token)) ==> error == "" && token == old(token)
      ensures !VerifyAccessToken(old(token)) ==> error == InvalidToken && token == ""
    {
      if VerifyAccessToken(token) {
        success := true;
        error := "";
      } else {
        error := InvalidToken;
        token := "";
      }
    }

    /** The delay after a success runs out: the lock flag is cleared and onUnlock runs (`true`). */
    method DelayElapsed(store: Storage.Store) returns (unlock: bool)
      requires success
      modifies store
      ensures store.State() == SetAccessLockStatus(old(store.State()), false)
      ensures unlock
    {
      store.SetAccessLockStatus(false);
      unlock := true;
    }

    /** Closing the dialog (Escape, clicking outside) does nothing. */
    method RequestClose()
      ensures token == old(token) && error == old(error) && success == old(success)
    {
    }
  }

  /** After the delay the store is unlocked and nothing else in it has changed. */
  lemma UnlockLaws(s: StoreState)
    ensures !GetAccessLockStatus(SetAccessLockStatus(s, false))
    ensures SetAccessLockStatus(s, false).(accessLocked := s.accessLocked) == s
  {
  }
}
