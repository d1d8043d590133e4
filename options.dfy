// The four character-class switches of the generator (PasswordOptions in
// types.ts) and the toggle the form applies to one of them.
module Options {

  /** Which character classes the password may draw from. */
  datatype PasswordOptions = PasswordOptions(uppercase: bool, lowercase: bool, numbers: bool, symbols: bool)

  /** The name of one switch: `keyof PasswordOptions`. */
  datatype OptionKey = Uppercase | Lowercase | Numbers | Symbols

  /** The value of switch `k` in `o`: `o[k]`. */
  function Get(o: PasswordOptions, k: OptionKey): bool
  {
    match k
    case Uppercase => o.uppercase
    case Lowercase => o.lowercase
    case Numbers => o.numbers
    case Symbols => o.symbols
  }

  /** The switches that are on, as a set. */
  function Enabled(o: PasswordOptions): (e: set<OptionKey>)
    ensures forall k: OptionKey :: k in e <==> Get(o, k)
  {
    var e1: set<OptionKey> := if o.uppercase then {Uppercase} else {};
    var e2 := if o.lowercase then e1 + {Lowercase} else e1;
    var e3 := if o.numbers then e2 + {Numbers} else e2;
    if o.symbols then e3 + {Symbols} else e3
  }

  /** The number of switches that are on, counted one switch at a time as
      calculateStrength does. */
  function EnabledCount(o: PasswordOptions): (n: nat)
  {
    (if o.uppercase then 1 else 0) + (if o.lowercase then 1 else 0) +
    (if o.numbers then 1 else 0) + (if o.symbols then 1 else 0)
  }

  /** Counting switch by switch gives the size of the enabled set. */
  lemma EnabledCountIsCardinality(o: PasswordOptions)
    ensures EnabledCount(o) == |Enabled(o)| <= 4
  {
  }

  /** Pointwise order on switches: every class on in `a` is on in `b`. */
  predicate Weaker(a: PasswordOptions, b: PasswordOptions)
  {
    forall k: OptionKey :: Get(a, k) ==> Get(b, k)
  }

  /** handleOptionChange: flip switch `k` and keep the other three. */
  function Toggle(o: PasswordOptions, k: OptionKey): (r: PasswordOptions)
    ensures Get(r, k) == !Get(o, k)
    ensures forall j: OptionKey :: j != k ==> Get(r, j) == Get(o, j)
  {
    match k
    case Uppercase => o.(uppercase := !o.uppercase)
    case Lowercase => o.(lowercase := !o.lowercase)
    case Numbers => o.(numbers := !o.numbers)
    case Symbols => o.(symbols := !o.symbols)
  }

  /** Toggling the same switch twice restores the options. */
  lemma ToggleTwice(o: PasswordOptions, k: OptionKey)
    ensures Toggle(Toggle(o, k), k) == o
  {
  }

  /** Toggling adds `k` to the enabled set or removes it, and nothing else. */
  lemma ToggleEnabled(o: PasswordOptions, k: OptionKey)
    ensures Enabled(Toggle(o, k)) == if Get(o, k) then Enabled(o) - {k} else Enabled(o) + {k}
    ensures EnabledCount(Toggle(o, k)) == if Get(o, k) then EnabledCount(o) - 1 else EnabledCount(o) + 1
  {
  }
}
