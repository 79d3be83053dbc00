/**
 Shared vocabulary of the account manager: an option type, one line of console
 input as the program's parsers see it, the messages the program writes, and
 the ASCII upper-casing used to match operation names case-insensitively.
 */
module Common {

  datatype Option<+T> = None | Some(value: T)

  /** One line typed at a prompt. `asInt` is what `int` makes of the stripped
      text and `asDecimal` what `Decimal` makes of it, `None` where that parser
      rejects the text. `CtrlC` is a keyboard interrupt raised while the
      program waits at the prompt. Running out of lines stands for end of
      input. */
  datatype Line =
    | Typed(asInt: Option<int>, asDecimal: Option<real>)
    | CtrlC

  /** Everything the program prints, minus the menu banner and the `:.2f`
      rendering of amounts. */
  datatype Msg =
    | CurrentBalance(balance: real)
    | Credited(newBalance: real)
    | Debited(newBalance: real)
    | InvalidAmount
    | InsufficientFunds
    | InvalidAmountFormat
    | InvalidOperation(name: string)
    | InvalidChoice
    | InvalidInput
    | ExitGoodbye
    | InterruptGoodbye

  predicate IsLowerLetter(c: char) {
    'a' <= c <= 'z'
  }

  predicate IsUpperLetter(c: char) {
    'A' <= c <= 'Z'
  }

  function UpperChar(c: char): char {
    if IsLowerLetter(c) then (c as int - 32) as char else c
  }

  /** `str.upper()` restricted to ASCII letters. */
  function Upper(s: string): string {
    if s == [] then [] else [UpperChar(s[0])] + Upper(s[1..])
  }

  /** `s` spells `key` letter by letter, each letter in either case. This is
      the independent reading of "matches case-insensitively" that `Upper`
      is checked against. */
  predicate MatchesIgnoringCase(s: string, key: string) {
    && |s| == |key|
    && forall i :: 0 <= i < |s| ==>
         s[i] == key[i] || (IsUpperLetter(key[i]) && s[i] as int == key[i] as int + 32)
  }

  /** No lower-case ASCII letter occurs in `key`: the shape of the literal
      names the program compares against. */
  predicate NoLowerLetter(key: string) {
    forall i :: 0 <= i < |key| ==> !IsLowerLetter(key[i])
  }

  lemma {:induction false} UpperLength(s: string)
    ensures |Upper(s)| == |s|
  {
    if s != [] {
      UpperLength(s[1..]);
    }
  }

  /** Upper-casing is the same as matching letter by letter ignoring case,
      for every key without lower-case letters, in both directions. */
  lemma {:induction false} UpperMatchesIgnoringCase(s: string, key: string)
    requires NoLowerLetter(key)
    ensures Upper(s) == key <==> MatchesIgnoringCase(s, key)
  {
    if s == [] {
    } else if key == [] {
      UpperLength(s);
    } else {
      var k := key[1..];
      assert NoLowerLetter(k) by {
        forall i | 0 <= i < |k| ensures !IsLowerLetter(k[i]) {
          assert k[i] == key[i + 1];
        }
      }
      UpperMatchesIgnoringCase(s[1..], k);
      assert Upper(s) == [UpperChar(s[0])] + Upper(s[1..]);
      if Upper(s) == key {
        assert UpperChar(s[0]) == key[0];
        assert Upper(s[1..]) == k;
        forall i | 0 <= i < |s| ensures s[i] == key[i] || (IsUpperLetter(key[i]) && s[i] as int == key[i] as int + 32) {
          if i > 0 {
            assert s[i] == s[1..][i - 1] && key[i] == k[i - 1];
          }
        }
      }
      if MatchesIgnoringCase(s, key) {
        assert MatchesIgnoringCase(s[1..], k) by {
          forall i | 0 <= i < |s[1..]| ensures s[1..][i] == k[i] || (IsUpperLetter(k[i]) && s[1..][i] as int == k[i] as int + 32) {
            assert s[1..][i] == s[i + 1] && k[i] == key[i + 1];
          }
        }
        assert !IsLowerLetter(key[0]);
        assert UpperChar(s[0]) == key[0];
        assert key == [key[0]] + k;
      }
    }
  }
}
