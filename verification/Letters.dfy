/** The letters and digits of ASCII, by list and by code. */
module Letters {
  const UPPER := "ABCDEFGHIJKLMNOPQRSTUVWXYZ"
  const LOWER := "abcdefghijklmnopqrstuvwxyz"
  const DIGITS := "0123456789"

  lemma Places()
    ensures |UPPER| == 26 && |LOWER| == 26 && |DIGITS| == 10
    ensures forall k | 0 <= k < 26 :: UPPER[k] as int == 65 + k && LOWER[k] as int == 97 + k
    ensures forall k | 0 <= k < 10 :: DIGITS[k] as int == 48 + k
  {
  }

  lemma LettersAndDigits(c: char)
    ensures c in LOWER <==> 'a' <= c <= 'z'
    ensures c in DIGITS <==> '0' <= c <= '9'
  {
    Places();
    MembersByPlace(LOWER, 97, c);
    MembersByPlace(DIGITS, 48, c);
  }

  lemma MembersByPlace(letters: string, first: nat, c: char)
    requires forall k | 0 <= k < |letters| :: letters[k] as int == first + k
    ensures c in letters <==> first <= c as int < first + |letters|
  {
    if first <= c as int < first + |letters| {
      assert letters[c as int - first] == c;
    }
  }
}
