/** ASCII models of the Python `str` operations the bot applies to chat text:
    `lower`, `isdigit`, `isalnum`, `startswith`, `split()` and `int` on a digit string. */
module Strings {

  /** The separators of `str.split()` with no argument, restricted to ASCII:
      tab, line feed, vertical tab, form feed, carriage return, the four
      information separators 0x1C..0x1F and the space. */
  predicate IsSpace(c: char) {
    c == ' ' || ('\t' <= c <= '\r') || (0x1C <= c as int <= 0x1F)
  }

  predicate IsUpper(c: char) { 'A' <= c <= 'Z' }

  predicate IsDigitChar(c: char) { '0' <= c <= '9' }

  predicate IsAlnumChar(c: char) { IsDigitChar(c) || IsUpper(c) || ('a' <= c <= 'z') }

  function LowerChar(c: char): char {
    if IsUpper(c) then (c as int + 32) as char else c
  }

  /** `str.lower()`: every upper-case letter mapped to its lower-case form, nothing else touched. */
  function Lower(s: string): (r: string)
    ensures |r| == |s|
    ensures forall i :: 0 <= i < |s| ==> r[i] == LowerChar(s[i])
  {
    if s == [] then [] else [LowerChar(s[0])] + Lower(s[1..])
  }

  /** Lower-casing leaves no upper-case letter, so doing it twice changes nothing. */
  lemma LowerIsIdempotent(s: string)
    ensures forall i :: 0 <= i < |s| ==> !IsUpper(Lower(s)[i])
    ensures Lower(Lower(s)) == Lower(s)
  {
  }

  /** `str.isdigit()`: non-empty and made of digits only. */
  predicate IsDigits(s: string) {
    |s| > 0 && forall i :: 0 <= i < |s| ==> IsDigitChar(s[i])
  }

  /** `str.isalnum()`: non-empty and made of letters and digits only. */
  predicate IsAlnum(s: string) {
    |s| > 0 && forall i :: 0 <= i < |s| ==> IsAlnumChar(s[i])
  }

  /** `s.startswith(prefix)`; every string starts with the empty prefix. */
  predicate StartsWith(s: string, prefix: string) {
    |prefix| <= |s| && s[..|prefix|] == prefix
  }

  /** `int(s)` for a string of decimal digits. */
  function DecimalValue(s: string): nat
    requires forall i :: 0 <= i < |s| ==> IsDigitChar(s[i])
  {
    if s == [] then 0
    else
      assert IsDigitChar(s[|s| - 1]);
      DecimalValue(s[..|s| - 1]) * 10 + (s[|s| - 1] as int - '0' as int)
  }

  /** A token of `str.split()`: a non-empty run of non-separators. */
  predicate IsWord(t: string) {
    |t| > 0 && forall i :: 0 <= i < |t| ==> !IsSpace(t[i])
  }

  /** The longest prefix of `s` that holds no separator. */
  function Word(s: string): (w: string)
    ensures |w| <= |s| && w == s[..|w|]
    ensures forall i :: 0 <= i < |w| ==> !IsSpace(w[i])
    ensures |w| == |s| || IsSpace(s[|w|])
  {
    if s == [] || IsSpace(s[0]) then [] else [s[0]] + Word(s[1..])
  }

  /** `str.split()` with no argument: the maximal runs of non-separators, in order. */
  function Split(s: string): (tokens: seq<string>)
    ensures forall k :: 0 <= k < |tokens| ==> IsWord(tokens[k])
    decreases |s|
  {
    if s == [] then []
    else if IsSpace(s[0]) then Split(s[1..])
    else
      var w := Word(s);
      [w] + Split(s[|w|..])
  }

  /** `' '.join(tokens)`, the inverse that `Split` is checked against. */
  function JoinSpaced(tokens: seq<string>): string {
    if tokens == [] then ""
    else if |tokens| == 1 then tokens[0]
    else tokens[0] + " " + JoinSpaced(tokens[1..])
  }

  lemma {:induction false} WordOfWordThenSeparator(w: string, tail: string)
    requires IsWord(w)
    requires tail == [] || IsSpace(tail[0])
    ensures Word(w + tail) == w
    decreases |w|
  {
    var s := w + tail;
    assert s[0] == w[0];
    if |w| > 1 {
      assert IsWord(w[1..]);
      assert s[1..] == w[1..] + tail;
      WordOfWordThenSeparator(w[1..], tail);
      assert Word(s) == [w[0]] + w[1..];
    } else {
      assert s[1..] == tail;
      if tail != [] { assert IsSpace(s[1..][0]); }
      assert Word(s[1..]) == [];
    }
  }

  /** Splitting the space-joined words gives the words back. */
  lemma {:induction false} SplitJoinSpaced(tokens: seq<string>)
    requires forall k :: 0 <= k < |tokens| ==> IsWord(tokens[k])
    ensures Split(JoinSpaced(tokens)) == tokens
    decreases |tokens|
  {
    if tokens == [] {
    } else {
      var w := tokens[0];
      var tail := if |tokens| == 1 then "" else " " + JoinSpaced(tokens[1..]);
      var s := JoinSpaced(tokens);
      assert s == w + tail;
      WordOfWordThenSeparator(w, tail);
      assert s[0] == w[0];
      assert s[|w|..] == tail;
      if |tokens| == 1 {
        assert Split(s) == [w] + Split("");
      } else {
        assert tail[0] == ' ';
        assert tail[1..] == JoinSpaced(tokens[1..]);
        SplitJoinSpaced(tokens[1..]);
        assert Split(tail) == Split(tail[1..]);
        assert Split(s) == [w] + tokens[1..];
      }
    }
  }
}
