// The four fixed alphabets of CHARSETS (App.tsx) and what is known about them.
module Charsets {

  const Uppercase: string := "ABCDEFGHIJKLMNOPQRSTUVWXYZ"
  const Lowercase: string := "abcdefghijklmnopqrstuvwxyz"
  const Numbers: string := "0123456789"
  const Symbols: string := "!@#$%^&*()_+-=[]{}|;:,.<>?"

  predicate IsUpper(c: char) { 'A' <= c <= 'Z' }
  predicate IsLower(c: char) { 'a' <= c <= 'z' }
  predicate IsDigit(c: char) { '0' <= c <= '9' }

  /** The position of a character's class in the order uppercase,
      lowercase, digits, everything else. */
  function ClassRank(c: char): nat
  {
    if IsUpper(c) then 0
    else if IsLower(c) then 1
    else if IsDigit(c) then 2
    else 3
  }

  /** Every character of `s` has class rank `rank`. */
  predicate Classed(s: string, rank: nat)
  {
    forall i :: 0 <= i < |s| ==> ClassRank(s[i]) == rank
  }

  /** The alphabets hold 26, 26, 10 and 26 characters. */
  lemma CharsetSizes()
    ensures |Uppercase| == 26 && |Lowercase| == 26 && |Numbers| == 10 && |Symbols| == 26
  {
  }

  /** The uppercase alphabet is exactly the letters A to Z. */
  lemma UppercaseClass(c: char)
    ensures c in Uppercase <==> IsUpper(c)
  {
  }

  /** The lowercase alphabet is exactly the letters a to z. */
  lemma LowercaseClass(c: char)
    ensures c in Lowercase <==> IsLower(c)
  {
  }

  /** The numbers alphabet is exactly the digits 0 to 9. */
  lemma NumbersClass(c: char)
    ensures c in Numbers <==> IsDigit(c)
  {
  }

  /** A symbol is neither a letter nor a digit nor a space. */
  lemma SymbolsClass(c: char)
    requires c in Symbols
    ensures !IsUpper(c) && !IsLower(c) && !IsDigit(c) && c != ' '
  {
  }

  /** Each alphabet lies wholly in its own class. */
  lemma CharsetsClassed()
    ensures Classed(Uppercase, 0) && Classed(Lowercase, 1) && Classed(Numbers, 2) && Classed(Symbols, 3)
  {
  }
}
