/**
 * Identifier helpers: `generateId`, which draws characters from a fixed
 * 62-symbol alphabet, and `toId`, which strips hyphens from a source id.
 */
module Ids {

  /**
   * The alphabet generateId draws from: A-Z, then a-z, then 0-9, built
   * from the three ranges (AlphabetSpelling shows it is the script's literal).
   */
  const Alphabet: string := seq(62, i requires 0 <= i < 62 => Symbol(i))

  /** One value of `Math.floor(Math.random() * 62)`: an index into Alphabet. */
  type Draw = d: int | 0 <= d < 62

  /**
   * The random source, as an endless tape of draws read left to right.
   * Only the shape of the draws is modelled, not their distribution.
   */
  type Tape = nat -> Draw

  predicate IsAlphanumeric(c: char) {
    'A' <= c <= 'Z' || 'a' <= c <= 'z' || '0' <= c <= '9'
  }

  /** `prefix` followed by `length` letters or digits: the shape of every generated id. */
  predicate PrefixedId(id: string, prefix: string, length: nat) {
    |id| == |prefix| + length && id[..|prefix|] == prefix &&
    forall i :: |prefix| <= i < |id| ==> IsAlphanumeric(id[i])
  }

  /**
   * The id that `length` draws read from position `start` of the tape
   * spell: exactly `length` characters, all letters or digits.
   */
  function IdFromTape(tape: Tape, start: nat, length: nat): (id: string)
    ensures |id| == length
    ensures forall i :: 0 <= i < length ==> IsAlphanumeric(id[i])
  {
    AlphabetIsAlphanumeric();
    seq(length, i requires 0 <= i < length => Alphabet[tape(start + i)])
  }

  /** The symbol at position `i` of the alphabet, computed from its range. */
  function Symbol(i: int): char
    requires 0 <= i < 62
  {
    if i < 26 then ('A' as int + i) as char
    else if i < 52 then ('a' as int + (i - 26)) as char
    else ('0' as int + (i - 52)) as char
  }

  /**
   * The alphabet is the 62-character literal of generateId, spelled here
   * in its three runs: upper-case letters, lower-case letters, digits.
   */
  lemma AlphabetSpelling()
    ensures |Alphabet| == 62
    ensures Alphabet[..26] == "ABCDEFGHIJKLMNOPQRSTUVWXYZ"
    ensures Alphabet[26..52] == "abcdefghijklmnopqrstuvwxyz"
    ensures Alphabet[52..] == "0123456789"
  {
    assert Alphabet[..13] == "ABCDEFGHIJKLM";
    assert Alphabet[13..26] == "NOPQRSTUVWXYZ";
    assert Alphabet[..26] == Alphabet[..13] + Alphabet[13..26];
    LowerCaseSpelling();
  }

  lemma LowerCaseSpelling()
    ensures Alphabet[26..52] == "abcdefghijklmnopqrstuvwxyz"
  {
    assert Alphabet[26..39] == "abcdefghijklm";
    assert Alphabet[39..52] == "nopqrstuvwxyz";
    assert Alphabet[26..52] == Alphabet[26..39] + Alphabet[39..52];
  }

  /**
   * The alphabet has 62 distinct symbols, and they are exactly the ASCII
   * letters and digits.
   */
  lemma AlphabetIsAlphanumeric()
    ensures |Alphabet| == 62
    ensures forall i :: 0 <= i < |Alphabet| ==> IsAlphanumeric(Alphabet[i])
    ensures forall c :: IsAlphanumeric(c) ==> c in Alphabet
    ensures forall i, j :: 0 <= i < j < |Alphabet| ==> Alphabet[i] != Alphabet[j]
  {
    forall c | IsAlphanumeric(c)
      ensures c in Alphabet
    {
      var k := if c <= '9' then c as int - '0' as int + 52
               else if c <= 'Z' then c as int - 'A' as int
               else c as int - 'a' as int + 26;
      assert Alphabet[k] == c;
    }
  }

  /**
   * generateId(length): appends one alphabet symbol per draw, `length` times.
   * The draws come from the tape, starting at position `start`.
   */
  method GenerateId(tape: Tape, start: nat, length: nat) returns (id: string)
    ensures id == IdFromTape(tape, start, length)
    ensures |id| == length
    ensures forall i :: 0 <= i < |id| ==> IsAlphanumeric(id[i])
  {
    AlphabetIsAlphanumeric();
    id := "";
    var i := 0;
    while i < length
      invariant 0 <= i <= length
      invariant |id| == i
      invariant forall k :: 0 <= k < i ==> id[k] == Alphabet[tape(start + k)]
    {
      id := id + [Alphabet[tape(start + i)]];
      i := i + 1;
    }
  }

  /**
   * toId: the string with every '-' removed. The result has no hyphen and
   * is no longer than `s`.
   */
  function ToId(s: string): (r: string)
    ensures '-' !in r
    ensures |r| <= |s|
  {
    if s == [] then [] else if s[0] == '-' then ToId(s[1..]) else [s[0]] + ToId(s[1..])
  }

  /** toId drops the hyphens and nothing else: every other character is kept as often as in `s`. */
  lemma {:induction false} ToIdCounts(s: string)
    ensures multiset(ToId(s)) == multiset(s)['-' := 0]
  {
    if s != [] {
      assert s == [s[0]] + s[1..];
      ToIdCounts(s[1..]);
    }
  }

  /** toId works character by character: it distributes over concatenation, so order is kept. */
  lemma {:induction false} ToIdAppend(a: string, b: string)
    ensures ToId(a + b) == ToId(a) + ToId(b)
  {
    if a == [] {
      assert a + b == b;
    } else {
      assert (a + b)[1..] == a[1..] + b;
      ToIdAppend(a[1..], b);
    }
  }

  /** A string without hyphens is its own toId; in particular toId is idempotent. */
  lemma {:induction false} ToIdFixesHyphenFree(s: string)
    requires '-' !in s
    ensures ToId(s) == s
  {
    if s != [] {
      ToIdFixesHyphenFree(s[1..]);
    }
  }

  lemma ToIdIdempotent(s: string)
    ensures ToId(ToId(s)) == ToId(s)
  {
    ToIdFixesHyphenFree(ToId(s));
  }
}
