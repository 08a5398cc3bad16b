/** The three e-mail shape patterns of the code base, each as a string predicate:
    the front end's anchored `/^[^\s@]+@[^\s@]+\.[^\s@]+$/`, the api user schema's
    `/.+@.+\..+/` and the older user schema's `/\S+@\S+\.\S+/` (both unanchored). */
module EmailPatterns {
  import opened Js

  /** A character of the class `[^\s@]`. */
  predicate AddressChar(c: char) {
    !IsSpace(c) && c != '@'
  }

  /** Every character of `s[lo..hi]` is in `[^\s@]`. */
  predicate AddressRun(s: string, lo: int, hi: int)
    requires 0 <= lo <= hi <= |s|
  {
    forall k :: lo <= k < hi ==> AddressChar(s[k])
  }

  /** `s` splits as `s[..i]`, '@', `s[i+1..j]`, '.', `s[j+1..]`, each part a non-empty
      run of `[^\s@]`. */
  predicate StrictSplit(s: string, i: int, j: int) {
    && 0 < i && i + 1 < j && j + 1 < |s|
    && s[i] == '@' && s[j] == '.'
    && AddressRun(s, 0, i) && AddressRun(s, i + 1, j) && AddressRun(s, j + 1, |s|)
  }

  /** `/^[^\s@]+@[^\s@]+\.[^\s@]+$/.test(s)`: the whole string is a non-empty run of
      `[^\s@]`, '@', a run, '.', and a last run. */
  predicate StrictEmail(s: string) {
    exists i, j :: 0 <= i < |s| && 0 <= j < |s| && StrictSplit(s, i, j)
  }

  /** Between the '@' at `i` and the '.' at `j`, with one character before and one after,
      every character satisfies `allowed`. */
  predicate AroundSplit(s: string, i: int, j: int, allowed: char -> bool) {
    && 0 < i && i + 1 < j && j + 1 < |s|
    && s[i] == '@' && s[j] == '.'
    && allowed(s[i - 1]) && allowed(s[j + 1])
    && forall k :: i < k < j ==> allowed(s[k])
  }

  predicate NotLineTerminator(c: char) {
    !IsLineTerminator(c)
  }

  predicate NotSpace(c: char) {
    !IsSpace(c)
  }

  /** `/.+@.+\..+/.test(s)`: some substring is a non-empty run of non-line-terminators,
      '@', a run, '.', a run. Shrinking the outer runs to one character each, this is:
      an '@' at `i` and a later '.' at `j`, an allowed character before `i`, only allowed
      characters strictly between them, and one after `j`. */
  predicate LooseEmail(s: string) {
    exists i, j :: 0 <= i < |s| && 0 <= j < |s| && AroundSplit(s, i, j, NotLineTerminator)
  }

  /** `/\S+@\S+\.\S+/.test(s)`: as `LooseEmail`, with `\S` (no white space) for `.`. */
  predicate NonSpaceEmail(s: string) {
    exists i, j :: 0 <= i < |s| && 0 <= j < |s| && AroundSplit(s, i, j, NotSpace)
  }

  /** An address the front end accepts holds exactly one '@' and no white space. */
  lemma StrictEmailShape(s: string)
    requires StrictEmail(s)
    ensures forall k :: 0 <= k < |s| ==> !IsSpace(s[k])
    ensures exists i :: 0 < i < |s| - 1 && s[i] == '@' && forall k :: 0 <= k < |s| && k != i ==> s[k] != '@'
  {
    var i, j :| 0 <= i < |s| && 0 <= j < |s| && StrictSplit(s, i, j);
    assert forall k :: 0 <= k < |s| && k != i ==> AddressChar(s[k]);
  }

  /** Every address the front end accepts passes the older schema's pattern. */
  lemma StrictIsNonSpace(s: string)
    requires StrictEmail(s)
    ensures NonSpaceEmail(s)
  {
    var i, j :| 0 <= i < |s| && 0 <= j < |s| && StrictSplit(s, i, j);
    assert AddressChar(s[i - 1]) && AddressChar(s[j + 1]);
    assert AroundSplit(s, i, j, NotSpace);
  }

  /** Every address the front end accepts still matches the api schema's pattern once
      the schema's `lowercase` and `trim` setters have run on it. */
  lemma StrictIsLooseAfterNormalize(s: string)
    requires StrictEmail(s)
    ensures LooseEmail(Normalize(s))
  {
    var i, j :| 0 <= i < |s| && 0 <= j < |s| && StrictSplit(s, i, j);
    StrictEmailShape(s);
    var l := ToLower(s);
    forall k | 0 <= k < |s| ensures !IsSpace(l[k]) && !IsLineTerminator(l[k]) {
      LowerKeepsSpace(s[k]);
      LineTerminatorIsSpace(l[k]);
    }
    TrimUnpadded(l);
    assert Normalize(s) == l;
    assert l[i] == '@' && l[j] == '.';
    assert AroundSplit(l, i, j, NotLineTerminator);
  }

  /** The converse fails: the api schema accepts a second '@', the front end does not. */
  lemma LooseAcceptsTwoAts()
    ensures LooseEmail("a@b@c.d") && !StrictEmail("a@b@c.d")
  {
    var s := "a@b@c.d";
    assert s[3] == '@' && s[5] == '.' && s[4] == 'c';
    assert AroundSplit(s, 3, 5, NotLineTerminator);
    forall i, j | 0 <= i < |s| && 0 <= j < |s| ensures !StrictSplit(s, i, j) {
      // whichever '@' is taken, the other one lies inside a run of `[^\s@]`
      if i == 1 {
        assert !AddressChar(s[3]);
      } else {
        assert !AddressChar(s[1]);
      }
    }
  }
}
