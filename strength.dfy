// The strength estimate of calculateStrength (App.tsx): a score made of
// length points and class points, mapped to one of four levels.
module Strength {
  import opened Options

  /** StrengthLevel in types.ts: 'Too Weak' | 'Weak' | 'Medium' | 'Strong'. */
  datatype StrengthLevel = TooWeak | Weak | Medium | Strong

  /** The position of a level, weakest first. */
  function Rank(l: StrengthLevel): nat
  {
    match l
    case TooWeak => 0
    case Weak => 1
    case Medium => 2
    case Strong => 3
  }

  /** The length thresholds that each earn one point. */
  const LengthThresholds: set<int> := {8, 12, 16}

  /** The smallest scores of the levels Weak, Medium and Strong. */
  const LevelBoundaries: set<int> := {3, 5, 6}

  /** One point for each of length >= 8, >= 12 and >= 16. */
  function LengthPoints(length: int): nat
  {
    (if length >= 8 then 1 else 0) + (if length >= 12 then 1 else 0) + (if length >= 16 then 1 else 0)
  }

  /** The score: length points plus one point per enabled class. */
  function Score(length: int, o: PasswordOptions): (score: nat)
    ensures score <= 7
  {
    EnabledCountIsCardinality(o);
    LengthPoints(length) + EnabledCount(o)
  }

  /** The level a score falls in. */
  function Level(score: int): StrengthLevel
  {
    if score <= 2 then TooWeak
    else if score <= 4 then Weak
    else if score <= 5 then Medium
    else Strong
  }

  /** The level calculateStrength reports for a configuration. */
  function StrengthOf(length: int, o: PasswordOptions): StrengthLevel
  {
    Level(Score(length, o))
  }

  /** The score is the number of length thresholds met plus the number of
      enabled classes. */
  lemma ScoreCountsThresholds(length: int, o: PasswordOptions)
    ensures Score(length, o) == |set t | t in LengthThresholds && t <= length| + |Enabled(o)|
  {
    var met := set t | t in LengthThresholds && t <= length;
    if length < 8 {
      assert met == {};
    } else if length < 12 {
      assert met == {8};
    } else if length < 16 {
      assert met == {8, 12};
    } else {
      assert met == LengthThresholds;
    }
    EnabledCountIsCardinality(o);
  }

  /** The rank of the level is the number of level boundaries the score
      reaches: Too Weak up to 2, Weak for 3 and 4, Medium for 5, Strong from 6. */
  lemma LevelCountsBoundaries(score: int)
    ensures Rank(Level(score)) == |set b | b in LevelBoundaries && b <= score|
  {
    var reached := set b | b in LevelBoundaries && b <= score;
    if score < 3 {
      assert reached == {};
    } else if score < 5 {
      assert reached == {3};
    } else if score < 6 {
      assert reached == {3, 5};
    } else {
      assert reached == LevelBoundaries;
    }
  }

  /** A higher score never gives a lower level. */
  lemma LevelMonotone(s1: int, s2: int)
    requires s1 <= s2
    ensures Rank(Level(s1)) <= Rank(Level(s2))
  {
  }

  /** Enabling more classes never lowers the class points. */
  lemma EnabledCountMonotone(o1: PasswordOptions, o2: PasswordOptions)
    requires Weaker(o1, o2)
    ensures EnabledCount(o1) <= EnabledCount(o2)
  {
    assert Get(o1, Uppercase) ==> Get(o2, Uppercase);
    assert Get(o1, Lowercase) ==> Get(o2, Lowercase);
    assert Get(o1, Numbers) ==> Get(o2, Numbers);
    assert Get(o1, Symbols) ==> Get(o2, Symbols);
  }

  /** A longer password or more enabled classes never lower the level. */
  lemma StrengthMonotone(length1: int, o1: PasswordOptions, length2: int, o2: PasswordOptions)
    requires length1 <= length2 && Weaker(o1, o2)
    ensures Score(length1, o1) <= Score(length2, o2)
    ensures Rank(StrengthOf(length1, o1)) <= Rank(StrengthOf(length2, o2))
  {
    EnabledCountMonotone(o1, o2);
    LevelMonotone(Score(length1, o1), Score(length2, o2));
  }

  /** Worked cases of the scoring rule. */
  lemma StrengthExamples()
    ensures StrengthOf(16, PasswordOptions(true, true, true, true)) == Strong
    ensures StrengthOf(8, PasswordOptions(false, true, false, false)) == TooWeak
    ensures StrengthOf(12, PasswordOptions(true, true, true, false)) == Medium
    ensures StrengthOf(16, PasswordOptions(true, true, false, false)) == Medium
    ensures StrengthOf(32, PasswordOptions(false, false, false, false)) == Weak
  {
  }

  /** calculateStrength: the score is accumulated step by step in `score`
      and `charTypes`, then mapped to a level. */
  method CalculateStrength(length: int, options: PasswordOptions) returns (level: StrengthLevel)
    ensures level == StrengthOf(length, options)
    ensures Rank(level) == |set b | b in LevelBoundaries && b <= Score(length, options)|
  {
    var score := 0;
    if length >= 8 { score := score + 1; }
    if length >= 12 { score := score + 1; }
    if length >= 16 { score := score + 1; }

    var charTypes := 0;
    if options.uppercase { charTypes := charTypes + 1; }
    if options.lowercase { charTypes := charTypes + 1; }
    if options.numbers { charTypes := charTypes + 1; }
    if options.symbols { charTypes := charTypes + 1; }

    score := score + charTypes;

    if score <= 2 { level := TooWeak; }
    else if score <= 4 { level := Weak; }
    else if score <= 5 { level := Medium; }
    else { level := Strong; }
    LevelCountsBoundaries(score);
  }
}
