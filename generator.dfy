// generatePassword (App.tsx): build the character pool from the enabled
// classes, then draw `length` characters from it. The random draws of
// Math.floor(Math.random() * charset.length) are an input: `draws[i]` is
// the index drawn in iteration i.
module Generator {
  import opened Options
  import Charsets

  /** What generatePassword writes when no class is enabled. */
  const Sentinel: string := "Select options"

  /** An alphabet if its class is enabled, nothing otherwise. */
  function Block(enabled: bool, alphabet: string): string
  {
    if enabled then alphabet else ""
  }

  /** The enabled alphabets concatenated in the order uppercase, lowercase,
      numbers, symbols. */
  function Pool(o: PasswordOptions): (pool: string)
    ensures |pool| == (if o.uppercase then 26 else 0) + (if o.lowercase then 26 else 0) +
                      (if o.numbers then 10 else 0) + (if o.symbols then 26 else 0)
  {
    Charsets.CharsetSizes();
    Block(o.uppercase, Charsets.Uppercase) + Block(o.lowercase, Charsets.Lowercase) +
    Block(o.numbers, Charsets.Numbers) + Block(o.symbols, Charsets.Symbols)
  }

  /** A character is in the pool exactly when its class is enabled. */
  lemma PoolMembers(o: PasswordOptions, c: char)
    ensures c in Pool(o) <==>
              (o.uppercase && Charsets.IsUpper(c)) || (o.lowercase && Charsets.IsLower(c)) ||
              (o.numbers && Charsets.IsDigit(c)) || (o.symbols && c in Charsets.Symbols)
  {
    Charsets.UppercaseClass(c);
    Charsets.LowercaseClass(c);
    Charsets.NumbersClass(c);
    if c in Charsets.Symbols {
      Charsets.SymbolsClass(c);
    }
  }

  /** The pool is empty exactly when no class is enabled. */
  lemma PoolEmpty(o: PasswordOptions)
    ensures Pool(o) == "" <==> Enabled(o) == {}
  {
  }

  /** The pool never holds a space. */
  lemma PoolHasNoSpace(o: PasswordOptions)
    ensures ' ' !in Pool(o)
  {
    PoolMembers(o, ' ');
  }

  /** In four concatenated blocks of increasing class rank, the rank of
      the character at position k is that of the block k falls in. */
  lemma ConcatRankAt(u: string, l: string, n: string, s: string, k: int)
    requires Charsets.Classed(u, 0) && Charsets.Classed(l, 1) && Charsets.Classed(n, 2) && Charsets.Classed(s, 3)
    requires 0 <= k < |u + l + n + s|
    ensures Charsets.ClassRank((u + l + n + s)[k]) ==
              if k < |u| then 0 else if k < |u| + |l| then 1 else if k < |u| + |l| + |n| then 2 else 3
  {
  }

  /** Each block of the pool is of one class. */
  lemma BlocksClassed(o: PasswordOptions)
    ensures Charsets.Classed(Block(o.uppercase, Charsets.Uppercase), 0)
    ensures Charsets.Classed(Block(o.lowercase, Charsets.Lowercase), 1)
    ensures Charsets.Classed(Block(o.numbers, Charsets.Numbers), 2)
    ensures Charsets.Classed(Block(o.symbols, Charsets.Symbols), 3)
  {
    Charsets.CharsetsClassed();
  }

  /** The pool is grouped by class in the fixed order: no character comes
      after a character of a later class. */
  lemma PoolOrdered(o: PasswordOptions, i: int, j: int)
    requires 0 <= i <= j < |Pool(o)|
    ensures Charsets.ClassRank(Pool(o)[i]) <= Charsets.ClassRank(Pool(o)[j])
  {
    BlocksClassed(o);
    var u, l, n, s := Block(o.uppercase, Charsets.Uppercase), Block(o.lowercase, Charsets.Lowercase),
                      Block(o.numbers, Charsets.Numbers), Block(o.symbols, Charsets.Symbols);
    ConcatRankAt(u, l, n, s, i);
    ConcatRankAt(u, l, n, s, j);
  }

  /** A string drawn only from the pool is never the sentinel, since the
      sentinel holds a space and the pool does not. */
  lemma DrawnNeverSentinel(o: PasswordOptions, password: string)
    requires forall i :: 0 <= i < |password| ==> password[i] in Pool(o)
    ensures password != Sentinel
  {
    PoolHasNoSpace(o);
    assert Sentinel[6] == ' ';
  }

  /** The number of iterations of `for (let i = 0; i < length; i++)`. */
  function Iterations(length: int): nat
  {
    if length < 0 then 0 else length
  }

  /** The draws are what Math.floor(Math.random() * n) can produce for a
      pool of size n > 0, one per iteration; with an empty pool nothing is drawn. */
  predicate ValidDraws(o: PasswordOptions, length: int, draws: seq<nat>)
  {
    Pool(o) != "" ==>
      Iterations(length) <= |draws| && forall i :: 0 <= i < |draws| ==> draws[i] < |Pool(o)|
  }

  /** `password` is what generatePassword produces from the draws: the
      sentinel for an empty pool, and otherwise one pool character per
      iteration, the one at the drawn index. */
  predicate Generated(password: string, length: int, o: PasswordOptions, draws: seq<nat>)
  {
    if Pool(o) == "" then password == Sentinel
    else
      |password| == Iterations(length) &&
      forall i :: 0 <= i < |password| ==>
        i < |draws| && draws[i] < |Pool(o)| && password[i] == Pool(o)[draws[i]]
  }

  /** `password` is a possible result of generatePassword for the
      configuration, whatever the draws. */
  predicate PossibleOutcome(password: string, length: int, o: PasswordOptions)
  {
    if Pool(o) == "" then password == Sentinel
    else |password| == Iterations(length) && forall i :: 0 <= i < |password| ==> password[i] in Pool(o)
  }

  /** Every generated password is a possible outcome. */
  lemma GeneratedIsPossible(password: string, length: int, o: PasswordOptions, draws: seq<nat>)
    requires Generated(password, length, o, draws)
    ensures PossibleOutcome(password, length, o)
  {
  }

  /** Every possible outcome comes from some draws. */
  lemma PossibleIsGenerated(password: string, length: int, o: PasswordOptions)
    requires PossibleOutcome(password, length, o)
    ensures exists draws :: ValidDraws(o, length, draws) && Generated(password, length, o, draws)
  {
    var pool := Pool(o);
    if pool == "" {
      assert ValidDraws(o, length, []) && Generated(password, length, o, []);
    } else {
      var draws := seq(|password|, i requires 0 <= i < |password| => IndexOf(pool, password[i]));
      assert ValidDraws(o, length, draws);
      assert Generated(password, length, o, draws);
    }
  }

  /** The position of a character that occurs in a string. */
  function IndexOf(s: string, c: char): (k: nat)
    requires c in s
    ensures k < |s| && s[k] == c
  {
    if s[0] == c then 0 else 1 + IndexOf(s[1..], c)
  }

  /** The first half of generatePassword: `charset += CHARSETS.x` for each
      enabled class in turn. */
  method BuildCharset(options: PasswordOptions) returns (charset: string)
    ensures charset == Pool(options)
  {
    charset := "";
    if options.uppercase { charset := charset + Charsets.Uppercase; }
    assert charset == Block(options.uppercase, Charsets.Uppercase);
    if options.lowercase { charset := charset + Charsets.Lowercase; }
    assert charset == Block(options.uppercase, Charsets.Uppercase) + Block(options.lowercase, Charsets.Lowercase);
    if options.numbers { charset := charset + Charsets.Numbers; }
    if options.symbols { charset := charset + Charsets.Symbols; }
  }

  /** generatePassword, with the value it passes to setPassword returned. */
  method GeneratePassword(length: int, options: PasswordOptions, draws: seq<nat>) returns (password: string)
    requires ValidDraws(options, length, draws)
    ensures Generated(password, length, options, draws)
    ensures Pool(options) == "" <==> password == Sentinel
    ensures length <= 0 && Pool(options) != "" ==> password == ""
  {
    var charset := BuildCharset(options);
    if charset == "" {
      password := Sentinel;
      return;
    }

    var newPassword := "";
    var i := 0;
    while i < length
      invariant 0 <= i <= Iterations(length)
      invariant |newPassword| == i
      invariant forall k :: 0 <= k < i ==> newPassword[k] == charset[draws[k]]
    {
      var randomIndex := draws[i];
      newPassword := newPassword + [charset[randomIndex]];
      i := i + 1;
    }
    password := newPassword;
    GeneratedIsPossible(password, length, options, draws);
    DrawnNeverSentinel(options, password);
  }
}
