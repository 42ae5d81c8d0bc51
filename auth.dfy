/** The token extraction of `verify_auth_header`: the Authorization header
    with every "Bearer " and then every "JWT " deleted, as Python's
    `str.replace(pattern, '')` deletes them. */
module Auth {

  const BEARER := "Bearer "
  const JWT := "JWT "

  /** pat occurs in s starting at position i. */
  predicate OccursAt(s: string, pat: string, i: nat)
  {
    i <= |s| && pat <= s[i..]
  }

  predicate Occurs(s: string, pat: string)
  {
    exists i: nat | i <= |s| :: OccursAt(s, pat, i)
  }

  /** `s.replace(pat, '')`: deletes every occurrence of pat that one
      left-to-right scan finds; text that a deletion joins together is not
      scanned again. */
  function RemoveAll(s: string, pat: string): (r: string)
    requires pat != []
    ensures |r| <= |s|
    decreases |s|
  {
    if s == [] then []
    else if pat <= s then RemoveAll(s[|pat|..], pat)
    else [s[0]] + RemoveAll(s[1..], pat)
  }

  /** The string verify_auth_header looks up in the token table. */
  function Token(header: string): (t: string)
    ensures |t| <= |header|
  {
    RemoveAll(RemoveAll(header, BEARER), JWT)
  }

  /** An occurrence after the first character is an occurrence in the tail. */
  lemma OccursAtTail(s: string, pat: string, i: nat)
    requires s != [] && i >= 1
    ensures OccursAt(s, pat, i) <==> OccursAt(s[1..], pat, i - 1)
  {
    if i <= |s| {
      assert s[i..] == s[1..][i - 1..];
    }
  }

  /** No occurrence starts at a character that differs from pat's first. */
  lemma NotAtMismatch(s: string, pat: string, i: nat)
    requires pat != [] && i < |s| && s[i] != pat[0]
    ensures !OccursAt(s, pat, i)
  {
    assert s[i..][0] == s[i];
  }

  /** A string without pat's first character does not hold pat. */
  lemma NotOccursWithoutFirst(s: string, pat: string)
    requires pat != []
    requires forall i :: 0 <= i < |s| ==> s[i] != pat[0]
    ensures !Occurs(s, pat)
  {
    forall i: nat | i <= |s|
      ensures !OccursAt(s, pat, i)
    {
      if i < |s| {
        NotAtMismatch(s, pat, i);
      }
    }
  }

  /** Removal leaves s as it is exactly when pat does not occur in s. */
  lemma {:induction false} RemoveAllIdentity(s: string, pat: string)
    requires pat != []
    ensures RemoveAll(s, pat) == s <==> !Occurs(s, pat)
    decreases |s|
  {
    if s == [] {
      assert !OccursAt(s, pat, 0);
    } else if pat <= s {
      assert OccursAt(s, pat, 0);
    } else {
      var t := s[1..];
      RemoveAllIdentity(t, pat);
      assert !OccursAt(s, pat, 0);
      forall i: nat | 1 <= i
        ensures OccursAt(s, pat, i) <==> OccursAt(t, pat, i - 1)
      {
        OccursAtTail(s, pat, i);
      }
      assert Occurs(t, pat) ==> Occurs(s, pat) by {
        if Occurs(t, pat) {
          var j: nat :| j <= |t| && OccursAt(t, pat, j);
          assert OccursAt(s, pat, j + 1);
        }
      }
      assert Occurs(s, pat) ==> Occurs(t, pat) by {
        if Occurs(s, pat) {
          var j: nat :| j <= |s| && OccursAt(s, pat, j);
          assert OccursAt(t, pat, j - 1);
        }
      }
      assert s == [s[0]] + t;
    }
  }

  /** A prefix in which no occurrence starts passes through untouched. */
  lemma {:induction false} RemoveAllSkips(a: string, b: string, pat: string)
    requires pat != []
    requires forall i: nat :: i < |a| ==> !OccursAt(a + b, pat, i)
    ensures RemoveAll(a + b, pat) == a + RemoveAll(b, pat)
    decreases |a|
  {
    if a != [] {
      var s := a + b;
      assert !OccursAt(s, pat, 0);
      assert s[1..] == a[1..] + b;
      forall i: nat | i < |a[1..]|
        ensures !OccursAt(a[1..] + b, pat, i)
      {
        OccursAtTail(s, pat, i + 1);
      }
      RemoveAllSkips(a[1..], b, pat);
      assert a == [a[0]] + a[1..];
    }
  }

  /** A header "Bearer t", "JWT t" or plain "t" yields t, for a token t that
      holds neither pattern (a uuid4 text never does). */
  lemma TokenOfPlainHeader(t: string)
    requires !Occurs(t, BEARER) && !Occurs(t, JWT)
    ensures Token(BEARER + t) == t
    ensures Token(JWT + t) == t
    ensures Token(t) == t
  {
    RemoveAllIdentity(t, BEARER);
    RemoveAllIdentity(t, JWT);
    assert (BEARER + t)[|BEARER|..] == t;
    forall i: nat | i < |JWT|
      ensures !OccursAt(JWT + t, BEARER, i)
    {
      NotAtMismatch(JWT + t, BEARER, i);
    }
    RemoveAllSkips(JWT, t, BEARER);
    assert (JWT + t)[|JWT|..] == t;
  }

  /** A string shorter than pat holds no occurrence of it. */
  lemma {:induction false} ShortIsUntouched(t: string, pat: string)
    requires pat != [] && |t| < |pat|
    ensures RemoveAll(t, pat) == t
    decreases |t|
  {
    if t != [] {
      ShortIsUntouched(t[1..], pat);
      assert t == [t[0]] + t[1..];
    }
  }

  /** A string without pat's first character passes through untouched. */
  lemma NoFirstCharIsUntouched(t: string, pat: string)
    requires pat != []
    requires forall i :: 0 <= i < |t| ==> t[i] != pat[0]
    ensures RemoveAll(t, pat) == t
  {
    NotOccursWithoutFirst(t, pat);
    RemoveAllIdentity(t, pat);
  }

  /** Neither pattern can start anywhere in s. */
  predicate Plain(s: string)
  {
    forall i :: 0 <= i < |s| ==> s[i] != 'B' && s[i] != 'J'
  }

  /** One occurrence of pat after a stretch without pat's first character
      is deleted, and the scan goes on after it. */
  lemma DeleteAfterPlain(a: string, b: string, pat: string)
    requires pat != []
    requires forall i :: 0 <= i < |a| ==> a[i] != pat[0]
    ensures RemoveAll(a + pat + b, pat) == a + RemoveAll(b, pat)
  {
    var s := a + (pat + b);
    assert a + pat + b == s;
    forall i: nat | i < |a|
      ensures !OccursAt(s, pat, i)
    {
      NotAtMismatch(s, pat, i);
    }
    RemoveAllSkips(a, pat + b, pat);
    assert (pat + b)[|pat|..] == b;
  }

  /** "Bearer " is deleted wherever it stands, not only as a prefix:
      "abcBearer def" yields "abcdef". */
  lemma TokenDeletesInside(a: string, b: string)
    requires Plain(a) && Plain(b)
    ensures Token(a + BEARER + b) == a + b
  {
    DeleteAfterPlain(a, b, BEARER);
    NoFirstCharIsUntouched(b, BEARER);
    NoFirstCharIsUntouched(a + b, JWT);
  }

  /** The two passes interact: deleting "Bearer " from "JWBearer T " joins
      up a "JWT " that the second pass then deletes. */
  lemma TokenJoinsPasses(t: string)
    requires Plain(t)
    ensures Token(JWT[..2] + BEARER + JWT[2..] + t) == t
  {
    var rest := JWT[2..] + t;
    assert JWT[..2] + BEARER + JWT[2..] + t == JWT[..2] + BEARER + rest;
    DeleteAfterPlain(JWT[..2], rest, BEARER);
    NoFirstCharIsUntouched(rest, BEARER);
    assert JWT[..2] + rest == [] + JWT + t;
    DeleteAfterPlain([], t, JWT);
    NoFirstCharIsUntouched(t, JWT);
  }

  /** The pattern followed by a remnant too short to hold it. */
  lemma PatternThenShort(pat: string, rest: string)
    requires pat != [] && |rest| < |pat|
    ensures RemoveAll(pat + rest, pat) == rest
  {
    DeleteAfterPlain([], rest, pat);
    assert [] + pat + rest == pat + rest;
    ShortIsUntouched(rest, pat);
  }

  /** Within one pass nothing is rescanned: deleting the pattern can leave
      the pattern behind. For "Bearer " the header "BBearer earer " comes out
      of the first pass as "Bearer ". */
  lemma RemoveAllIsOnePass(pat: string)
    requires |pat| >= 2 && pat[1] != pat[0]
    ensures RemoveAll([pat[0]] + pat + pat[1..], pat) == pat
  {
    var a, b := [pat[0]], pat + pat[1..];
    assert [pat[0]] + pat + pat[1..] == a + b;
    assert !OccursAt(a + b, pat, 0) by {
      assert (a + b)[1] != pat[1];
    }
    RemoveAllSkips(a, b, pat);
    PatternThenShort(pat, pat[1..]);
    assert a + pat[1..] == pat;
  }
}
