/**
 * The profile picker (src/components/ProfileSelector.tsx): the PIN dialog, the
 * forgot-PIN dialog and the attempt lock they share, plus profile creation and
 * the PIN-gated export and delete. The lock is a value (`AttemptLock`) whose
 * transitions are functions; the picker's state is a class whose handlers
 * update it, with the clock passed in as `now` (milliseconds since the epoch).
 */
module ProfileSelector {
  import opened Types
  import opened Text
  import opened Collections
  import StorageState
  import Storage

  datatype LockType = PinLock | SecurityLock

  /** `AttemptLock`: consecutive failures, the end of the current lockout, and what failed. */
  datatype AttemptLock = AttemptLock(count: int, lockedUntil: Option<int>, lockType: LockType)

  /** `{ count: 0, lockedUntil: null, type: 'pin' }` */
  const Unlocked := AttemptLock(0, None, PinLock)

  /** Wrong entries allowed before a lockout. */
  const MaxAttempts := 3

  /** `lockedUntil` is set (a JavaScript truthy number). */
  predicate HasDeadline(lock: AttemptLock)
  {
    lock.lockedUntil.Some? && lock.lockedUntil.value != 0
  }

  /** `attemptLock.lockedUntil && Date.now() < attemptLock.lockedUntil`: the PIN dialog refuses input. */
  predicate LockedAt(lock: AttemptLock, now: int)
  {
    HasDeadline(lock) && now < lock.lockedUntil.value
  }

  /** The forgot-PIN dialog refuses input only during a lockout caused by security words. */
  predicate SecurityBlockedAt(lock: AttemptLock, now: int)
  {
    lock.lockType == SecurityLock && LockedAt(lock, now)
  }

  /** `Math.ceil((lockedUntil - now) / 1000)` for a lockout still running. */
  function SecondsLeft(lock: AttemptLock, now: int): (seconds: int)
    requires LockedAt(lock, now)
    ensures seconds >= 1
    ensures (seconds - 1) * 1000 < lock.lockedUntil.value - now <= seconds * 1000
  {
    (lock.lockedUntil.value - now + 999) / 1000
  }

  /** The lock after a wrong PIN (handlePinSubmit). */
  function AfterWrongPin(lock: AttemptLock, now: int): (r: AttemptLock)
    ensures r.count == lock.count + 1
    ensures r.count >= MaxAttempts ==> r.lockType == PinLock && r.lockedUntil.Some? && r.lockedUntil.value > now
    ensures ValidLock(lock) ==> ValidLock(r)
  {
    var newCount := lock.count + 1;
    if newCount >= MaxAttempts then
      var lockDuration := if lock.count == 0 then 60000 else 30000;
      AttemptLock(newCount, Some(now + lockDuration), PinLock)
    else
      lock.(count := newCount)
  }

  /** The lock after a security word that recovers no PIN (handleSecurityWordSubmit). */
  function AfterWrongWord(lock: AttemptLock, now: int): (r: AttemptLock)
    ensures r.lockType == SecurityLock
    ensures r.count >= MaxAttempts <==> r.lockedUntil.Some?
    ensures r.lockedUntil.Some? ==> r.lockedUntil.value > now
    ensures ValidLock(lock) ==> ValidLock(r)
  {
    var newCount := if lock.lockType == SecurityLock then lock.count + 1 else 1;
    if newCount >= MaxAttempts then AttemptLock(newCount, Some(now + 60000), SecurityLock)
    else AttemptLock(newCount, None, SecurityLock)
  }

  /** One tick of the one-second expiry poll: a lockout that has run out is cleared, keeping its type. */
  function Expire(lock: AttemptLock, now: int): (r: AttemptLock)
    ensures r.lockType == lock.lockType
    ensures HasDeadline(r) ==> r == lock && LockedAt(r, now)
    ensures LockedAt(lock, now) ==> r == lock
  {
    if HasDeadline(lock) && now >= lock.lockedUntil.value then AttemptLock(0, None, lock.lockType) else lock
  }

  /**
   * The shape every reachable lock has: without a deadline fewer than three
   * failures are counted, with one at least three.
   */
  predicate ValidLock(lock: AttemptLock)
  {
    && (lock.lockedUntil.None? ==> 0 <= lock.count < MaxAttempts)
    && (lock.lockedUntil.Some? ==> lock.count >= MaxAttempts)
  }

  /**
   * A wrong PIN counts one more failure; the third consecutive one locks the
   * dialog, and since that needs a count of at least two before it, the
   * 60-second duration reserved for a count of zero is never chosen: every PIN
   * lockout lasts 30 seconds. Below three failures the deadline and type stay
   * and one or two attempts remain.
   */
  lemma WrongPinLaws(lock: AttemptLock, now: int)
    requires ValidLock(lock)
    ensures var r := AfterWrongPin(lock, now);
      && ValidLock(r)
      && r.count == lock.count + 1
      && (r.count >= MaxAttempts <==> r.lockedUntil.Some?)
      && (r.lockedUntil.Some? ==> r.lockedUntil.value == now + 30000 && r.lockType == PinLock)
      && (r.lockedUntil.None? ==> r.lockType == lock.lockType && 1 <= MaxAttempts - r.count <= 2)
  {
  }

  /** Every PIN lockout lasts 30 seconds, whatever the lock held before. */
  lemma PinLockoutIsThirtySeconds(lock: AttemptLock, now: int)
    ensures AfterWrongPin(lock, now).count >= MaxAttempts ==>
              AfterWrongPin(lock, now).lockedUntil == Some(now + 30000)
  {
  }

  /** From a fresh dialog, the first two wrong PINs only count and the third locks for 30 seconds. */
  lemma ThirdWrongPinLocks(t1: int, t2: int, t3: int)
    ensures AfterWrongPin(Unlocked, t1) == AttemptLock(1, None, PinLock)
    ensures AfterWrongPin(AfterWrongPin(Unlocked, t1), t2) == AttemptLock(2, None, PinLock)
    ensures AfterWrongPin(AfterWrongPin(AfterWrongPin(Unlocked, t1), t2), t3) == AttemptLock(3, Some(t3 + 30000), PinLock)
  {
  }

  /**
   * A wrong security word starts counting afresh after PIN failures and
   * continues a run of security-word failures; the third of a run locks the
   * forgot-PIN dialog for 60 seconds.
   */
  lemma WrongWordLaws(lock: AttemptLock, now: int)
    requires ValidLock(lock)
    ensures var r := AfterWrongWord(lock, now);
      && ValidLock(r)
      && r.lockType == SecurityLock
      && r.count == (if lock.lockType == SecurityLock then lock.count + 1 else 1)
      && (r.lockedUntil.Some? <==> r.count >= MaxAttempts)
      && (r.lockedUntil.Some? ==> r.lockedUntil.value == now + 60000)
  {
  }

  /** After any PIN failures, three wrong security words in a row lock recovery for 60 seconds. */
  lemma ThirdWrongWordLocks(lock: AttemptLock, t1: int, t2: int, t3: int)
    requires lock.lockType == PinLock
    ensures AfterWrongWord(lock, t1) == AttemptLock(1, None, SecurityLock)
    ensures AfterWrongWord(AfterWrongWord(lock, t1), t2) == AttemptLock(2, None, SecurityLock)
    ensures AfterWrongWord(AfterWrongWord(AfterWrongWord(lock, t1), t2), t3) == AttemptLock(3, Some(t3 + 60000), SecurityLock)
  {
  }

  /** A PIN lockout does not block the forgot-PIN dialog; only a security-word lockout does. */
  lemma PinLockoutAllowsRecovery(lock: AttemptLock, now: int)
    ensures SecurityBlockedAt(lock, now) <==> lock.lockType == SecurityLock && LockedAt(lock, now)
    ensures lock.lockType == PinLock ==> !SecurityBlockedAt(lock, now)
  {
  }

  /**
   * The poll clears a lockout exactly when its deadline has passed, keeps the
   * type, never clears a running lockout, and keeps the lock valid.
   */
  lemma ExpireLaws(lock: AttemptLock, now: int)
    ensures var r := Expire(lock, now);
      && r.lockType == lock.lockType
      && (HasDeadline(lock) && now >= lock.lockedUntil.value ==> r == AttemptLock(0, None, lock.lockType))
      && (LockedAt(lock, now) ==> r == lock)
      && (LockedAt(r, now) <==> LockedAt(lock, now))
      && (ValidLock(lock) ==> ValidLock(r))
  {
  }

  // ---------------------------------------------------------------------------
  // PIN recovery
  // ---------------------------------------------------------------------------

  /** `profile.security_word === securityWordEntry.trim()` */
  predicate WordMatches(p: Profile, entry: string)
  {
    p.securityWord == Some(Trim(entry))
  }

  /**
   * The PIN the forgot-PIN dialog reveals: the first stored profile whose
   * security word equals the trimmed entry, when that profile has a PIN.
   */
  function RecoveredPin(profiles: seq<Profile>, entry: string): (r: Option<string>)
    ensures r.Some? ==> r.value != "" && exists p :: p in profiles && WordMatches(p, entry) && p.pin == r
    ensures (forall p :: p in profiles ==> !WordMatches(p, entry)) ==> r.None?
  {
    match Find(profiles, (p: Profile) => WordMatches(p, entry))
    case None => None
    case Some(p) => if Truthy(p.pin) then p.pin else None
  }

  /**
   * Recovery succeeds exactly when the first profile with a matching word has a
   * PIN, and then reveals that profile's PIN. Nothing ties it to the profile
   * being unlocked: any stored profile's word reveals that profile's PIN.
   */
  lemma RecoveredPinLaws(profiles: seq<Profile>, entry: string)
    ensures var r := RecoveredPin(profiles, entry);
      && (r.Some? ==> r.value != "" && exists i :: 0 <= i < |profiles| && WordMatches(profiles[i], entry)
                                                 && profiles[i].pin == r)
      && ((forall i :: 0 <= i < |profiles| ==> !WordMatches(profiles[i], entry)) ==> r.None?)
      && (forall i :: 0 <= i < |profiles| && WordMatches(profiles[i], entry)
                      && (forall j :: 0 <= j < i ==> !WordMatches(profiles[j], entry)) ==>
            (r.Some? <==> Truthy(profiles[i].pin)) && (r.Some? ==> r == profiles[i].pin))
  {
    var p := (q: Profile) => WordMatches(q, entry);
    var f := Find(profiles, p);
    forall i | 0 <= i < |profiles| && WordMatches(profiles[i], entry)
                && (forall j :: 0 <= j < i ==> !WordMatches(profiles[j], entry))
      ensures f == Some(profiles[i])
    {
      IndexWhereFirst(profiles, p, i);
    }
  }

  /** Two profiles sharing a security word: the word reveals the first one's PIN, whichever was locked. */
  lemma RecoveryRevealsAnotherProfilesPin(a: Profile, b: Profile)
    requires a.securityWord == Some("blue") && a.pin == Some("1111")
    requires b.securityWord == Some("blue") && b.pin == Some("2222")
    ensures RecoveredPin([a, b], "blue") == Some("1111")
  {
    assert Trim("blue") == "blue" by {
      assert LeadingSpaces("blue") == 0;
      assert TrailingSpaces("blue") == 0;
    }
    assert WordMatches(a, "blue");
  }

  // ---------------------------------------------------------------------------
  // Creating and editing profiles
  // ---------------------------------------------------------------------------

  /**
   * The profile handleCreateProfile saves: the edited profile with the trimmed
   * name and the chosen colour, or a new profile without PIN or security word.
   */
  function ProfileToSave(editing: Option<Profile>, name: string, color: string, newId: string,
                         createdAt: string): (p: Profile)
    ensures p.name == Trim(name) && p.avatarColor == color
    ensures editing.Some? ==> p.id == editing.value.id && p.pin == editing.value.pin
                              && p.securityWord == editing.value.securityWord
    ensures editing.None? ==> p.id == newId && p.pin.None? && p.securityWord.None?
  {
    match editing
    case Some(e) => e.(name := Trim(name), avatarColor := color)
    case None => Profile(newId, Trim(name), color, None, None, false, createdAt, None, None, None)
  }

  /**
   * Editing changes only the name and colour; a new profile carries the fresh
   * id and has no PIN, security word or ads removal.
   */
  lemma ProfileToSaveLaws(editing: Option<Profile>, name: string, color: string, newId: string, createdAt: string)
    ensures var p := ProfileToSave(editing, name, color, newId, createdAt);
      && p.name == Trim(name) && p.avatarColor == color
      && (editing.Some? ==> p.(name := editing.value.name, avatarColor := editing.value.avatarColor) == editing.value)
      && (editing.None? ==> p.id == newId && p.pin.None? && p.securityWord.None? && !p.adsRemoved
                            && p.createdAt == createdAt)
  {
  }

  /** What a handler asks the application to do once it returns. */
  datatype Effect =
    | NoEffect
    | Enter(profile: Profile)          // onSelectProfile(profile)
    | Export(profileId: string)        // exportProfile(profileId): encrypt and download

  /** The toast a submit shows. */
  datatype Notice =
    | Silent
    | StillLocked(seconds: int)        // "Please wait N seconds before trying again."
    | IncorrectPin(remaining: int)     // "N attempts remaining"
    | TooManyAttempts(seconds: int)    // "Account locked for N seconds."
    | IncorrectWord(remaining: int)

  datatype PinAction = SelectAction | ExportAction | DeleteAction

  /** The picker's state: the profile list on screen, the dialogs, their entries and the lock. */
  class Selector {
    var profiles: seq<Profile>
    var pinTarget: Option<Profile>          // showPinEntry: the profile whose PIN dialog is open
    var pinAction: PinAction                // pinEntryAction
    var pinEntry: string
    var showIncorrectPin: bool
    var showForgotPin: bool
    var securityWordEntry: string
    var showPinReveal: bool
    var revealedPin: string
    var attemptLock: AttemptLock

    /** The picker as first rendered: the stored profiles, no dialog, a fresh lock. */
    constructor (store: Storage.Store)
      ensures profiles == store.profiles && pinTarget.None? && pinAction == SelectAction && pinEntry == ""
      ensures !showForgotPin && !showPinReveal && !showIncorrectPin && securityWordEntry == "" && revealedPin == ""
      ensures attemptLock == Unlocked
    {
      profiles := store.profiles;
      pinTarget := None;
      pinAction := SelectAction;
      pinEntry := "";
      showIncorrectPin := false;
      showForgotPin := false;
      securityWordEntry := "";
      showPinReveal := false;
      revealedPin := "";
      attemptLock := Unlocked;
    }

    predicate Valid()
      reads this
    {
      ValidLock(attemptLock)
    }

    /** handleSelectProfile: a profile with a PIN opens the PIN dialog on a fresh lock; one without is entered. */
    method SelectProfile(p: Profile) returns (effect: Effect)
      modifies this
      ensures Truthy(p.pin) ==>
        && effect == NoEffect && pinTarget == Some(p) && pinAction == SelectAction
        && attemptLock == Unlocked && !showIncorrectPin
        && profiles == old(profiles) && pinEntry == old(pinEntry) && showForgotPin == old(showForgotPin)
        && securityWordEntry == old(securityWordEntry) && showPinReveal == old(showPinReveal)
        && revealedPin == old(revealedPin)
      ensures !Truthy(p.pin) ==> effect == Enter(p) && unchanged(this)
      ensures old(Valid()) ==> Valid()
    {
      if Truthy(p.pin) {
        pinTarget := Some(p);
        pinAction := SelectAction;
        attemptLock := Unlocked;
        showIncorrectPin := false;
        effect := NoEffect;
      } else {
        effect := Enter(p);
      }
    }

    /**
     * handleDeleteProfile: a profile with a PIN opens the PIN dialog for deletion
     * (keeping the lock as it is); one without is deleted once confirmed.
     */
    method RequestDelete(store: Storage.Store, p: Profile, confirmed: bool)
      modifies this, store
      ensures Truthy(p.pin) ==>
        && pinTarget == Some(p) && pinAction == DeleteAction && unchanged(store)
        && profiles == old(profiles) && attemptLock == old(attemptLock)
      ensures !Truthy(p.pin) && confirmed ==>
        && store.State() == StorageState.DeleteProfile(old(store.State()), p.id)
        && profiles == store.profiles && pinTarget == old(pinTarget) && attemptLock == old(attemptLock)
      ensures !Truthy(p.pin) && !confirmed ==> unchanged(this) && unchanged(store)
    {
      if Truthy(p.pin) {
        pinTarget := Some(p);
        pinAction := DeleteAction;
      } else if confirmed {
        store.DeleteProfile(p.id);
        profiles := store.profiles;
      }
    }

    /** handleExport: only a profile with a PIN can be exported, through the PIN dialog. */
    method RequestExport(p: Profile)
      modifies this
      ensures Truthy(p.pin) ==> pinTarget == Some(p) && pinAction == ExportAction
                                && profiles == old(profiles) && attemptLock == old(attemptLock)
      ensures !Truthy(p.pin) ==> unchanged(this)
    {
      if Truthy(p.pin) {
        pinTarget := Some(p);
        pinAction := ExportAction;
      }
    }

    /**
     * handlePinSubmit, pressed at time `now`. The handler is reachable only from
     * the PIN dialog, which is rendered only while a target profile is set.
     */
    method SubmitPin(store: Storage.Store, now: int) returns (effect: Effect, notice: Notice)
      requires pinTarget.Some?
      modifies this, store
      // a running lockout: nothing changes and no attempt is used
      ensures LockedAt(old(attemptLock), now) ==>
        && unchanged(this) && unchanged(store) && effect == NoEffect
        && notice == StillLocked(SecondsLeft(old(attemptLock), now))
      // a wrong PIN: one more failure, the entry is cleared
      ensures !LockedAt(old(attemptLock), now) && old(pinTarget).value.pin != Some(old(pinEntry)) ==>
        && attemptLock == AfterWrongPin(old(attemptLock), now)
        && showIncorrectPin && pinEntry == "" && effect == NoEffect && unchanged(store)
        && profiles == old(profiles) && pinAction == old(pinAction)
        && (if attemptLock.count >= MaxAttempts then
              && notice == TooManyAttempts((attemptLock.lockedUntil.value - now) / 1000)
              && (if Truthy(old(pinTarget).value.securityWord) then showForgotPin && pinTarget.None?
                  else showForgotPin == old(showForgotPin) && pinTarget == old(pinTarget))
            else
              && notice == IncorrectPin(MaxAttempts - attemptLock.count)
              && showForgotPin == old(showForgotPin) && pinTarget == old(pinTarget))
      // the right PIN: the lock is reset and exactly the pending action runs
      ensures !LockedAt(old(attemptLock), now) && old(pinTarget).value.pin == Some(old(pinEntry)) ==>
        && attemptLock == Unlocked && notice == Silent
        && showForgotPin == old(showForgotPin) && pinAction == old(pinAction)
        && (match old(pinAction)
            case SelectAction =>
              effect == Enter(old(pinTarget).value) && unchanged(store)
              && pinTarget == old(pinTarget) && pinEntry == old(pinEntry) && profiles == old(profiles)
            case ExportAction =>
              effect == Export(old(pinTarget).value.id) && unchanged(store)
              && pinTarget.None? && pinEntry == "" && profiles == old(profiles)
            case DeleteAction =>
              && effect == NoEffect && pinTarget.None? && pinEntry == ""
              && store.State() == StorageState.DeleteProfile(old(store.State()), old(pinTarget).value.id)
              && profiles == store.profiles)
      ensures old(Valid()) ==> Valid()
    {
      var lock := attemptLock;
      if LockedAt(lock, now) {
        return NoEffect, StillLocked(SecondsLeft(lock, now));
      }
      if pinTarget.value.pin != Some(pinEntry) {
        notice := WrongPin(now);
        effect := NoEffect;
      } else {
        effect := RightPin(store);
        notice := Silent;
      }
    }

    /** The wrong-PIN branch of handlePinSubmit. */
    method WrongPin(now: int) returns (notice: Notice)
      requires pinTarget.Some?
      modifies this
      ensures attemptLock == AfterWrongPin(old(attemptLock), now)
      ensures showIncorrectPin && pinEntry == ""
      ensures profiles == old(profiles) && pinAction == old(pinAction)
      ensures if attemptLock.count >= MaxAttempts then
                && notice == TooManyAttempts((attemptLock.lockedUntil.value - now) / 1000)
                && (if Truthy(old(pinTarget).value.securityWord) then showForgotPin && pinTarget.None?
                    else showForgotPin == old(showForgotPin) && pinTarget == old(pinTarget))
              else
                && notice == IncorrectPin(MaxAttempts - attemptLock.count)
                && showForgotPin == old(showForgotPin) && pinTarget == old(pinTarget)
      ensures old(Valid()) ==> Valid()
    {
      var lock := attemptLock;
      var target := pinTarget.value;
      var newCount := lock.count + 1;
      showIncorrectPin := true;
      if newCount >= MaxAttempts {
        var lockDuration := if lock.count == 0 then 60000 else 30000;
        attemptLock := AttemptLock(newCount, Some(now + lockDuration), PinLock);
        notice := TooManyAttempts(lockDuration / 1000);
        if Truthy(target.securityWord) {
          showForgotPin := true;
          pinTarget := None;
        }
      } else {
        attemptLock := lock.(count := newCount);
        notice := IncorrectPin(MaxAttempts - newCount);
      }
      pinEntry := "";
      if ValidLock(lock) {
        WrongPinLaws(lock, now);
      }
    }

    /** The right-PIN branch of handlePinSubmit: reset the lock, then run the pending action. */
    method RightPin(store: Storage.Store) returns (effect: Effect)
      requires pinTarget.Some?
      modifies this, store
      ensures attemptLock == Unlocked && Valid()
      ensures showForgotPin == old(showForgotPin) && pinAction == old(pinAction)
      ensures match old(pinAction)
              case SelectAction =>
                effect == Enter(old(pinTarget).value) && unchanged(store)
                && pinTarget == old(pinTarget) && pinEntry == old(pinEntry) && profiles == old(profiles)
              case ExportAction =>
                effect == Export(old(pinTarget).value.id) && unchanged(store)
                && pinTarget.None? && pinEntry == "" && profiles == old(profiles)
              case DeleteAction =>
                && effect == NoEffect && pinTarget.None? && pinEntry == ""
                && store.State() == StorageState.DeleteProfile(old(store.State()), old(pinTarget).value.id)
                && profiles == store.profiles
    {
      var target := pinTarget.value;
      attemptLock := Unlocked;
      match pinAction {
        case SelectAction =>
          effect := Enter(target);
        case ExportAction =>
          effect := Export(target.id);
          pinTarget := None;
          pinEntry := "";
        case DeleteAction =>
          effect := NoEffect;
          store.DeleteProfile(target.id);
          profiles := store.profiles;
          pinTarget := None;
          pinEntry := "";
      }
    }

    /** handleSecurityWordSubmit, pressed at time `now`, checked against every stored profile. */
    method SubmitSecurityWord(now: int) returns (notice: Notice)
      modifies this
      ensures SecurityBlockedAt(old(attemptLock), now) ==>
        unchanged(this) && notice == StillLocked(SecondsLeft(old(attemptLock), now))
      ensures !SecurityBlockedAt(old(attemptLock), now) && RecoveredPin(old(profiles), old(securityWordEntry)).Some? ==>
        && revealedPin == RecoveredPin(old(profiles), old(securityWordEntry)).value
        && showPinReveal && !showForgotPin && securityWordEntry == "" && attemptLock == Unlocked
        && notice == Silent && profiles == old(profiles) && pinTarget == old(pinTarget)
      ensures !SecurityBlockedAt(old(attemptLock), now) && RecoveredPin(old(profiles), old(securityWordEntry)).None? ==>
        && attemptLock == AfterWrongWord(old(attemptLock), now)
        && notice == (if attemptLock.count >= MaxAttempts then TooManyAttempts(60)
                      else IncorrectWord(MaxAttempts - attemptLock.count))
        && securityWordEntry == old(securityWordEntry) && showPinReveal == old(showPinReveal)
        && revealedPin == old(revealedPin) && showForgotPin == old(showForgotPin)
        && profiles == old(profiles) && pinTarget == old(pinTarget)
      ensures old(Valid()) ==> Valid()
    {
      var lock := attemptLock;
      if lock.lockType == SecurityLock && LockedAt(lock, now) {
        return StillLocked(SecondsLeft(lock, now));
      }
      var entry := securityWordEntry;
      var profile := Find(profiles, (p: Profile) => WordMatches(p, entry));
      if profile.Some? && Truthy(profile.value.pin) {
        assert RecoveredPin(profiles, entry) == profile.value.pin;
        RevealPin(profile.value.pin.value);
        notice := Silent;
      } else {
        assert RecoveredPin(profiles, entry).None?;
        notice := WrongWord(now);
      }
    }

    /** The success branch of handleSecurityWordSubmit: show the recovered PIN. */
    method RevealPin(pin: string)
      modifies this
      ensures revealedPin == pin && showPinReveal && !showForgotPin && securityWordEntry == ""
      ensures attemptLock == Unlocked && Valid()
      ensures profiles == old(profiles) && pinTarget == old(pinTarget)
    {
      revealedPin := pin;
      showPinReveal := true;
      showForgotPin := false;
      securityWordEntry := "";
      attemptLock := Unlocked;
    }

    /** The failure branch of handleSecurityWordSubmit; the entry stays in the field. */
    method WrongWord(now: int) returns (notice: Notice)
      modifies this
      ensures attemptLock == AfterWrongWord(old(attemptLock), now)
      ensures notice == (if attemptLock.count >= MaxAttempts then TooManyAttempts(60)
                         else IncorrectWord(MaxAttempts - attemptLock.count))
      ensures securityWordEntry == old(securityWordEntry) && showPinReveal == old(showPinReveal)
      ensures revealedPin == old(revealedPin) && showForgotPin == old(showForgotPin)
      ensures profiles == old(profiles) && pinTarget == old(pinTarget)
      ensures old(Valid()) ==> Valid()
    {
      var lock := attemptLock;
      var newCount := if lock.lockType == SecurityLock then lock.count + 1 else 1;
      if newCount >= MaxAttempts {
        var lockDuration := 60000;
        attemptLock := AttemptLock(newCount, Some(now + lockDuration), SecurityLock);
        notice := TooManyAttempts(lockDuration / 1000);
      } else {
        attemptLock := AttemptLock(newCount, None, SecurityLock);
        notice := IncorrectWord(MaxAttempts - newCount);
      }
      if ValidLock(lock) {
        WrongWordLaws(lock, now);
      }
    }

    /** One tick of the expiry poll, at time `now`. */
    method Tick(now: int)
      modifies this
      ensures attemptLock == Expire(old(attemptLock), now)
      ensures old(Valid()) ==> Valid()
      ensures profiles == old(profiles) && pinTarget == old(pinTarget) && pinEntry == old(pinEntry)
      ensures showForgotPin == old(showForgotPin) && securityWordEntry == old(securityWordEntry)
    {
      var lock := attemptLock;
      if HasDeadline(lock) && now >= lock.lockedUntil.value {
        attemptLock := AttemptLock(0, None, lock.lockType);
      }
      ExpireLaws(lock, now);
    }

    /** The PIN dialog's close button: the dialog, its entry and the lock are reset. */
    method ClosePinDialog()
      modifies this
      ensures pinTarget.None? && pinEntry == "" && attemptLock == Unlocked && Valid()
      ensures profiles == old(profiles) && showForgotPin == old(showForgotPin)
    {
      pinTarget := None;
      pinEntry := "";
      attemptLock := Unlocked;
    }

    /**
     * "Forgot PIN?", shown only in the dialog opened to enter a profile that has
     * a security word: the PIN dialog gives way to the forgot-PIN dialog,
     * keeping the lock. Where the button is not shown nothing happens.
     */
    method ForgotPin()
      modifies this
      ensures var shown := old(pinAction) == SelectAction && old(pinTarget).Some? && Truthy(old(pinTarget).value.securityWord);
        && (shown ==> showForgotPin && pinTarget.None? && pinEntry == "")
        && (!shown ==> showForgotPin == old(showForgotPin) && pinTarget == old(pinTarget) && pinEntry == old(pinEntry))
      ensures attemptLock == old(attemptLock) && profiles == old(profiles) && pinAction == old(pinAction)
    {
      if pinAction == SelectAction && pinTarget.Some? && Truthy(pinTarget.value.securityWord) {
        showForgotPin := true;
        pinTarget := None;
        pinEntry := "";
      }
    }

    /** The forgot-PIN dialog's close button: the dialog, its entry and the lock are reset. */
    method CloseForgotPin()
      modifies this
      ensures !showForgotPin && securityWordEntry == "" && attemptLock == Unlocked && Valid()
      ensures profiles == old(profiles) && pinTarget == old(pinTarget)
    {
      showForgotPin := false;
      securityWordEntry := "";
      attemptLock := Unlocked;
    }

    /**
     * The PIN field: it holds at most four characters, and non-digits are
     * dropped from what it holds.
     */
    method TypePin(typed: string)
      modifies this
      ensures pinEntry == Filter(Take(typed, 4), IsDigit)
      ensures |pinEntry| <= 4 && forall i :: 0 <= i < |pinEntry| ==> IsDigit(pinEntry[i])
      ensures attemptLock == old(attemptLock) && pinTarget == old(pinTarget)
    {
      pinEntry := Filter(Take(typed, 4), IsDigit);
    }

    /**
     * handleCreateProfile: a blank name does nothing; otherwise the new or edited
     * profile is saved, its avatar saved or (when editing without one) deleted,
     * and the list reloaded from the store.
     */
    method CreateProfile(store: Storage.Store, editing: Option<Profile>, name: string, color: string,
                         avatar: Option<StorageState.Avatar>, newId: string, createdAt: string)
      modifies this, store
      ensures Trim(name) == [] ==> unchanged(this) && unchanged(store)
      ensures Trim(name) != [] ==>
        var p := ProfileToSave(editing, name, color, newId, createdAt);
        var saved := StorageState.SaveProfile(old(store.State()), p);
        && store.State() == (match avatar
                             case Some(a) => StorageState.SaveCustomAvatar(saved, p.id, a)
                             case None => if editing.Some? then StorageState.DeleteCustomAvatar(saved, p.id) else saved)
        && profiles == store.profiles
        && attemptLock == old(attemptLock) && pinTarget == old(pinTarget)
    {
      if Trim(name) == [] {
        return;
      }
      var p := ProfileToSave(editing, name, color, newId, createdAt);
      store.SaveProfile(p);
      if avatar.Some? {
        store.SaveCustomAvatar(p.id, avatar.value);
      } else if editing.Some? {
        store.DeleteCustomAvatar(p.id);
      }
      profiles := store.profiles;
    }
  }
}
