/**
 * The sign-in form (pages/Login.tsx): input checks, the fixed credential
 * list, the failure counter and the 30-tick lockout. The 800 ms pause
 * before the credential check is taken as part of one submission; the
 * one-second countdown is the abstract `Tick`.
 */
module Login {
  import opened Types
  import opened AppContext

  /** The form's error line. */
  datatype Message = NoMessage | EnterUsername | EnterPassword | WrongCredentials

  datatype LoginState = LoginState(
    username: string,
    pass: string,
    error: bool,
    errorMsg: Message,
    isLoading: bool,
    attemptCount: nat,
    isLocked: bool,
    lockTimeout: int
  )

  const Initial := LoginState("", "", false, NoMessage, false, 0, false, 0)

  /** Failures from this count on lock the form. */
  const MaxAttempts: nat := 3

  /** Ticks the form stays locked. */
  const LockTicks: nat := 30

  /** The fixed list of accepted name and password pairs. */
  const Credentials: seq<(string, string)> :=
    [("admin", "1234"), ("admin", "admin"), ("user", "1234"), ("user", "admin")]

  /** The credential check: the exact pair, with the name as typed (not trimmed). */
  function IsValid(username: string, pass: string): (ok: bool)
    ensures ok <==> (username, pass) in Credentials
  {
    exists i :: 0 <= i < |Credentials| && Credentials[i] == (username, pass)
  }

  /** The characters `trim` removes, restricted to ASCII. */
  predicate IsSpace(c: char)
  {
    c == ' ' || c == '\t' || c == '\n' || c == '\r' || c == '\U{B}' || c == '\U{C}'
  }

  /** The name is blank: nothing but white space. */
  predicate IsBlank(s: string)
  {
    forall i :: 0 <= i < |s| ==> IsSpace(s[i])
  }

  /** What a submission asks of the rest of the application. */
  datatype Effect =
    | NoEffect
    | SignIn(user: User)      // setUser, then the welcome page
    | ClearErrorLater         // the 2-second timer that hides the error

  datatype Submission = Submission(state: LoginState, effect: Effect)

  /** `handleLogin`, with the credential check that follows the pause folded in. */
  function Submit(s: LoginState): (r: Submission)
    ensures r.state.username == s.username
    ensures r.effect != NoEffect ==> !s.isLocked && !IsBlank(s.username) && s.pass != ""
    ensures r.state.attemptCount == s.attemptCount || r.state.attemptCount == s.attemptCount + 1
      || (r.state.attemptCount == 0 && r.effect.SignIn?)
    ensures r.state.isLocked && !s.isLocked ==> r.state.attemptCount >= MaxAttempts && r.state.lockTimeout == LockTicks
  {
    if s.isLocked then Submission(s, NoEffect)
    else if IsBlank(s.username) then Submission(s.(error := true, errorMsg := EnterUsername), NoEffect)
    else if s.pass == "" then Submission(s.(error := true, errorMsg := EnterPassword), NoEffect)
    else if IsValid(s.username, s.pass) then
      Submission(s.(isLoading := true, attemptCount := 0), SignIn(User(s.username, Operador)))
    else
      var n := s.attemptCount + 1;
      var failed := s.(attemptCount := n, error := true, errorMsg := WrongCredentials, pass := "", isLoading := false);
      if n >= MaxAttempts then Submission(failed.(isLocked := true, lockTimeout := LockTicks), NoEffect)
      else Submission(failed, ClearErrorLater)
  }

  /**
   * One second of the countdown effect while locked. The effect runs again
   * as soon as the count changes, so the second that brings the count to 0
   * also releases the lock.
   */
  function Tick(s: LoginState): (r: LoginState)
    ensures r == s.(lockTimeout := r.lockTimeout, isLocked := r.isLocked)
    ensures r.isLocked ==> s.isLocked && r.lockTimeout == s.lockTimeout - 1
    ensures !s.isLocked ==> r == s
  {
    if s.isLocked && s.lockTimeout > 1 then s.(lockTimeout := s.lockTimeout - 1)
    else if s.isLocked then s.(lockTimeout := 0, isLocked := false)
    else s
  }

  /** The timer that hides the error two seconds after a failure. */
  function ClearError(s: LoginState): LoginState
  {
    s.(error := false)
  }

  /**
   * A lock is only ever held after three failures, with between 1 and 30
   * seconds left to run.
   */
  ghost predicate Consistent(s: LoginState)
  {
    && 0 <= s.lockTimeout <= LockTicks
    && (s.isLocked ==> s.attemptCount >= MaxAttempts && s.lockTimeout >= 1)
  }

  lemma InitialConsistent()
    ensures Consistent(Initial) && !Initial.isLocked && Initial.attemptCount == 0
  {
  }

  lemma SubmitConsistent(s: LoginState)
    requires Consistent(s)
    ensures Consistent(Submit(s).state)
  {
  }

  lemma TickConsistent(s: LoginState)
    requires Consistent(s)
    ensures Consistent(Tick(s))
  {
  }

  /** While locked a submission changes nothing and signs no one in. */
  lemma LockedIgnores(s: LoginState)
    requires s.isLocked
    ensures Submit(s) == Submission(s, NoEffect)
  {
  }

  /** A blank name or an empty password only shows an error: no attempt is counted. */
  lemma MissingInput(s: LoginState)
    requires !s.isLocked && (IsBlank(s.username) || s.pass == "")
    ensures var r := Submit(s).state;
      && r.error && r.attemptCount == s.attemptCount && !r.isLocked
      && r.errorMsg == (if IsBlank(s.username) then EnterUsername else EnterPassword)
      && r.username == s.username && r.pass == s.pass
      && Submit(s).effect == NoEffect
  {
  }

  /**
   * A complete submission signs in exactly when the pair is in the list;
   * then the count goes back to 0 and the user gets the operador role.
   */
  lemma SignInIff(s: LoginState)
    requires !s.isLocked && !IsBlank(s.username) && s.pass != ""
    ensures Submit(s).effect.SignIn? <==> (s.username, s.pass) in Credentials
    ensures Submit(s).effect.SignIn? ==>
      && Submit(s).effect.user == User(s.username, Operador)
      && Submit(s).state.attemptCount == 0
  {
  }

  /**
   * A wrong pair counts one more failure and clears the password; at three
   * failures the form locks for 30 ticks, below that the error is hidden
   * again later.
   */
  lemma WrongPair(s: LoginState)
    requires !s.isLocked && !IsBlank(s.username) && s.pass != ""
    requires (s.username, s.pass) !in Credentials
    ensures var r := Submit(s).state;
      && r.attemptCount == s.attemptCount + 1
      && r.pass == "" && r.error && r.errorMsg == WrongCredentials && !r.isLoading
      && (r.isLocked <==> s.attemptCount + 1 >= MaxAttempts)
      && (r.isLocked ==> r.lockTimeout == LockTicks)
      && (Submit(s).effect == ClearErrorLater <==> !r.isLocked)
  {
  }

  /** A name with a trailing space is not blank, but it never matches the list. */
  lemma UntrimmedName()
    ensures !IsBlank("admin ") && !IsValid("admin ", "1234")
  {
    assert "admin "[0] == 'a';
    assert "admin " != "admin" && "admin " != "user";
    assert forall i :: 0 <= i < |Credentials| ==> Credentials[i].0 != "admin ";
  }

  /** `k` ticks in a row. */
  function Ticks(s: LoginState, k: nat): LoginState
    decreases k
  {
    if k == 0 then s else Ticks(Tick(s), k - 1)
  }

  /**
   * A lock with `t` seconds left is held, counting down, for the first
   * `t - 1` ticks and released by tick `t`; nothing but the lock changes.
   */
  lemma {:induction false} LockExpires(s: LoginState, t: nat)
    requires s.isLocked && s.lockTimeout == t && t >= 1
    ensures Ticks(s, t) == s.(lockTimeout := 0, isLocked := false)
    ensures forall k :: 0 <= k < t ==> Ticks(s, k) == s.(lockTimeout := t - k)
    decreases t
  {
    var next := Tick(s);
    if t > 1 {
      assert next == s.(lockTimeout := t - 1);
      LockExpires(next, t - 1);
      forall k | 0 < k < t ensures Ticks(s, k) == s.(lockTimeout := t - k) {
        assert Ticks(s, k) == Ticks(next, k - 1);
      }
    } else {
      assert Ticks(s, 1) == Ticks(next, 0);
    }
    assert Ticks(s, 0) == s.(lockTimeout := t - 0);
  }

  /**
   * The count is kept when the lock expires, so once three failures have
   * been counted, the next wrong pair locks the form again at once.
   */
  lemma RelocksAtOnce(s: LoginState)
    requires Consistent(s) && s.isLocked
    requires var free := Ticks(s, s.lockTimeout);
      !IsBlank(free.username) && free.pass != "" && (free.username, free.pass) !in Credentials
    ensures var free := Ticks(s, s.lockTimeout);
      && !free.isLocked
      && Submit(free).state.isLocked
      && Submit(free).state.lockTimeout == LockTicks
  {
    LockExpires(s, s.lockTimeout);
  }

  /** The form's state fields. */
  class LoginForm {
    var username: string
    var pass: string
    var error: bool
    var errorMsg: Message
    var isLoading: bool
    var attemptCount: nat
    var isLocked: bool
    var lockTimeout: int

    function State(): LoginState
      reads this
    {
      LoginState(username, pass, error, errorMsg, isLoading, attemptCount, isLocked, lockTimeout)
    }

    constructor ()
      ensures State() == Initial
    {
      username := "";
      pass := "";
      error := false;
      errorMsg := NoMessage;
      isLoading := false;
      attemptCount := 0;
      isLocked := false;
      lockTimeout := 0;
    }

    /** Typing in the name field, which is disabled while loading or locked. */
    method EditUsername(text: string)
      requires !isLoading && !isLocked
      modifies this`username
      ensures username == text
    {
      username := text;
    }

    /** Typing in the password field, which is disabled while loading or locked. */
    method EditPassword(text: string)
      requires !isLoading && !isLocked
      modifies this`pass
      ensures pass == text
    {
      pass := text;
    }

    method HandleLogin() returns (effect: Effect)
      modifies this
      ensures State() == Submit(old(State())).state
      ensures effect == Submit(old(State())).effect
    {
      effect := NoEffect;
      if isLocked {
        return;
      }
      if IsBlank(username) {
        error := true;
        errorMsg := EnterUsername;
        return;
      }
      if pass == "" {
        error := true;
        errorMsg := EnterPassword;
        return;
      }
      isLoading := true;
      if IsValid(username, pass) {
        attemptCount := 0;
        effect := SignIn(User(username, Operador));
      } else {
        var newAttemptCount := attemptCount + 1;
        attemptCount := newAttemptCount;
        error := true;
        errorMsg := WrongCredentials;
        pass := "";
        isLoading := false;
        if newAttemptCount >= MaxAttempts {
          isLocked := true;
          lockTimeout := LockTicks;
        } else {
          effect := ClearErrorLater;
        }
      }
    }

    method OnTick()
      modifies this
      ensures State() == Tick(old(State()))
    {
      if isLocked && lockTimeout > 1 {
        lockTimeout := lockTimeout - 1;
      } else if isLocked {
        lockTimeout := 0;
        isLocked := false;
      }
    }

    method OnErrorTimer()
      modifies this`error
      ensures State() == ClearError(old(State()))
    {
      error := false;
    }
  }
}
