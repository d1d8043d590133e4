// The state of the App component (App.tsx) and the handlers that change it.
// Each React state variable is a field; each handler is a method. The effect
// that reruns generation and scoring after a change of length or options is
// the explicit method Refresh.
module App {
  import opened Options
  import opened Strength
  import opened Generator

  /** The guard of handleCopyToClipboard: a non-empty password that is not
      the sentinel. */
  predicate IsCopyable(password: string)
  {
    password != "" && password != Sentinel
  }

  /** After generation, the password can be copied exactly when some class
      is enabled and the length is positive. */
  lemma OutcomeCopyable(password: string, length: int, o: PasswordOptions)
    requires PossibleOutcome(password, length, o)
    ensures IsCopyable(password) <==> Pool(o) != "" && length > 0
  {
    if Pool(o) != "" {
      DrawnNeverSentinel(o, password);
    }
  }

  class PasswordGenerator {
    var password: string
    var length: int
    var options: PasswordOptions
    var strength: StrengthLevel
    var copied: bool

    /** The initial values of the useState hooks. */
    constructor ()
      ensures password == "" && length == 16 && !copied
      ensures options == PasswordOptions(true, true, true, false)
      ensures strength == TooWeak
    {
      password := "";
      length := 16;
      options := PasswordOptions(true, true, true, false);
      strength := TooWeak;
      copied := false;
    }

    /** Password and strength agree with the current length and options. */
    predicate Settled()
      reads this
    {
      strength == StrengthOf(length, options) && PossibleOutcome(password, length, options)
    }

    /** The length slider's onChange: setLength. */
    method SetLength(n: int)
      modifies this`length
      ensures length == n
    {
      length := n;
    }

    /** handleOptionChange: flip one class switch. */
    method HandleOptionChange(option: OptionKey)
      modifies this`options
      ensures options == Toggle(old(options), option)
    {
      options := Toggle(options, option);
    }

    /** The Generate Password button: a new password for the same
      configuration; the strength is not recomputed. */
    method Regenerate(draws: seq<nat>)
      requires ValidDraws(options, length, draws)
      modifies this`password
      ensures Generated(password, length, options, draws)
      ensures old(Settled()) ==> Settled()
    {
      password := GeneratePassword(length, options, draws);
      GeneratedIsPossible(password, length, options, draws);
    }

    /** The effect run after a change of length or options: generate, then
      recompute the strength. */
    method Refresh(draws: seq<nat>)
      requires ValidDraws(options, length, draws)
      modifies this`password, this`strength
      ensures Generated(password, length, options, draws)
      ensures strength == StrengthOf(length, options)
      ensures Settled()
    {
      password := GeneratePassword(length, options, draws);
      GeneratedIsPossible(password, length, options, draws);
      strength := CalculateStrength(length, options);
    }

    /** handleCopyToClipboard: set `copied` only for a real password. */
    method HandleCopyToClipboard()
      modifies this`copied
      ensures copied == (old(copied) || IsCopyable(password))
    {
      if IsCopyable(password) {
        copied := true;
      }
    }
  }

  /** A session: the first render's effect, a toggle with its effect, and a
      copy. With symbols added to the default classes the level is Strong
      and the copy succeeds. */
  method ToggleSymbolsAndCopy(first: seq<nat>, second: seq<nat>) returns (app: PasswordGenerator)
    requires |first| >= 16 && forall i :: 0 <= i < |first| ==> first[i] < 62
    requires |second| >= 16 && forall i :: 0 <= i < |second| ==> second[i] < 88
    ensures app.Settled() && app.strength == Strong && app.copied
    ensures |app.password| == 16
  {
    app := new PasswordGenerator();
    app.Refresh(first);
    app.HandleOptionChange(Symbols);
    app.Refresh(second);
    OutcomeCopyable(app.password, app.length, app.options);
    app.HandleCopyToClipboard();
  }
}
