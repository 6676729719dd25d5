/** Function names: `^[a-z][a-z0-9-]{0,62}$`, and not starting with the reserved `_cf`. */
module Names {
  import opened Letters

  const NAME_MAX_LEN := 63
  const RESERVED_PREFIX := "_cf"

  predicate Lower(c: char) {
    'a' <= c <= 'z'
  }

  predicate NameChar(c: char) {
    Lower(c) || '0' <= c <= '9' || c == '-'
  }

  predicate ValidName(s: string) {
    && s != ""
    && |s| <= NAME_MAX_LEN
    && Lower(s[0])
    && (forall i | 0 <= i < |s| :: NameChar(s[i]))
    && !(RESERVED_PREFIX <= s)
  }

  // A name is valid exactly if it matches the pattern: no such name starts with the reserved prefix.
  lemma NamePattern(s: string)
    ensures ValidName(s) <==>
              && 1 <= |s| <= 63
              && s[0] in LOWER
              && forall i | 1 <= i < |s| :: s[i] in LOWER || s[i] in DIGITS || s[i] == '-'
  {
    forall i | 0 <= i < |s| {
      LettersAndDigits(s[i]);
    }
    assert s != "" && Lower(s[0]) ==> !(RESERVED_PREFIX <= s) by {
      assert RESERVED_PREFIX[0] == '_';
    }
  }
}
