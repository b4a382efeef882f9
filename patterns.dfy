/** The regular expressions of the storefront, each written out as a predicate:
    the schema email pattern of the user model, the strict and the loose email patterns
    of the sign-in pages, and the phone-number pattern. */
module Patterns {
  import opened JsStrings

  /** `/^\S+@\S+\.\S+$/`: no white space anywhere, and an `@` and a later `.` that cut the
      string into three non-empty parts (the first two may themselves hold `@` or `.`). */
  predicate SchemaEmail(s: string) {
    NoSpace(s)
    && exists i, j :: 0 < i && i + 1 < j && j + 1 < |s| && s[i] == '@' && s[j] == '.'
  }

  /** The only `@` of `s` is at position `i`. */
  predicate OnlyAt(s: string, i: int) {
    forall k :: 0 <= k < |s| && k != i ==> s[k] != '@'
  }

  /** `/^[^\s@]+@[^\s@]+\.[^\s@]+$/`: like the schema pattern, but the `@` is the only
      one in the string. */
  predicate StrictEmail(s: string) {
    NoSpace(s)
    && exists i :: 0 < i < |s| && s[i] == '@' && OnlyAt(s, i)
         && exists j :: i + 1 < j < |s| - 1 && s[j] == '.'
  }

  /** `/\S+@\S+\.\S+/` with no anchors: SOME substring has the shape of a schema email,
      so text and white space may surround it. */
  predicate LooseEmail(s: string) {
    exists i, j | 0 <= i < |s| && 0 <= j < |s| :: LooseAt(s, i, j)
  }

  /** The unanchored pattern matches with its `@` at `i` and its `.` at `j`. */
  predicate LooseAt(s: string, i: int, j: int) {
    0 < i && i + 1 < j && j + 1 < |s| && s[i] == '@' && s[j] == '.'
    && !IsSpace(s[i - 1]) && !IsSpace(s[j + 1])
    && NoSpace(s[i + 1..j])
  }

  /** `/^[0-9]{10,11}$/`. */
  predicate PhoneDigits(s: string) {
    (|s| == 10 || |s| == 11) && forall i :: 0 <= i < |s| ==> IsDigit(s[i])
  }

  /** The strict pattern accepts only what the schema accepts... */
  lemma StrictIsSchema(s: string)
    requires StrictEmail(s)
    ensures SchemaEmail(s)
  {
    var i :| 0 < i < |s| && s[i] == '@' && OnlyAt(s, i) && exists j :: i + 1 < j < |s| - 1 && s[j] == '.';
    var j :| i + 1 < j < |s| - 1 && s[j] == '.';
    assert i + 1 < j && j + 1 < |s| && s[i] == '@' && s[j] == '.';
  }

  /** ...and the schema pattern only what the loose one accepts. */
  lemma SchemaIsLoose(s: string)
    requires SchemaEmail(s)
    ensures LooseEmail(s)
  {
    var i, j :| 0 < i && i + 1 < j && j + 1 < |s| && s[i] == '@' && s[j] == '.';
    var middle := s[i + 1..j];
    assert NoSpace(middle) by {
      forall k | 0 <= k < |middle| ensures !IsSpace(middle[k]) {
        assert middle[k] == s[i + 1 + k];
      }
    }
    assert !IsSpace(s[i - 1]) && !IsSpace(s[j + 1]);
    assert LooseAt(s, i, j);
  }

  /** The inclusions are strict: a second `@` passes the schema but not the strict
      pattern... */
  lemma SchemaNotStrict()
    ensures SchemaEmail("a@b@c.d") && !StrictEmail("a@b@c.d")
  {
    var s := "a@b@c.d";
    assert s[1] == '@' && s[5] == '.';
    forall i | 0 < i < |s| && s[i] == '@'
      ensures !OnlyAt(s, i)
    {
      if i == 1 { assert s[3] == '@'; } else { assert s[1] == '@'; }
    }
  }

  /** ...and the loose pattern still finds an address with any text before and after
      it... */
  lemma LooseInContext(s: string, a: string, b: string)
    requires LooseEmail(s)
    ensures LooseEmail(a + s + b)
  {
    var i, j :| 0 <= i < |s| && 0 <= j < |s| && LooseAt(s, i, j);
    var x := a + s + b;
    var k := |a|;
    forall m | 0 <= m < |s| ensures x[k + m] == s[m] { }
    assert x[k + i + 1..k + j] == s[i + 1..j];
    assert LooseAt(x, k + i, k + j);
  }

  /** ...but the schema refuses a word, a space and an address, even after its
      lower-casing and trimming. */
  lemma SchemaRejectsPrefix(w: string, s: string)
    requires w != [] && !IsSpace(w[0])
    requires s != [] && !IsSpace(s[0])
    ensures !SchemaEmail(Trim(ToLower(w + " " + s)))
  {
    var x := ToLower(w + " " + s);
    var n := |w|;
    assert !IsSpace(x[0]) && IsSpace(x[n]) && !IsSpace(x[n + 1]);
    var r := TrimStart(x);
    assert r == x;
    var t := TrimEnd(r);
    assert |t| > n + 1;
    assert t[n] == x[n];
  }

  lemma TrimNoSpaceEnds(s: string)
    requires s != [] && !IsSpace(s[0]) && !IsSpace(s[|s| - 1])
    ensures Trim(s) == s
  {
  }

  /** White space around an address makes the strict pattern fail. */
  lemma PaddedNotStrict(s: string)
    requires s != [] && (IsSpace(s[0]) || IsSpace(s[|s| - 1]))
    ensures !StrictEmail(s)
  {
  }
}
