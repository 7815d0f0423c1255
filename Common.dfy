/**
 * Types shared by the view models: the optional latest value of an input
 * subject, the API client's opaque success/failure outcome, and small
 * facts about output traces (counting events, "nothing of one kind after
 * another").
 */
module Common {

  datatype Option<+T> = None | Some(value: T)

  /** The server's error body; only its display message is observable. */
  datatype ErrorEnvelope = ErrorEnvelope(errorMessage: string)

  /** What one API request produces: a single value, or an API error. */
  datatype ApiResult<+T> = Ok(value: T) | ApiError(error: ErrorEnvelope)

  /** The signed-in user as returned by the API (its fields are not used here). */
  datatype User = User(id: int, name: string)

  /** The signup response: the new user and their access token. */
  datatype AccessTokenEnvelope = AccessTokenEnvelope(user: User, accessToken: string)

  /** Number of events in `s` that satisfy `p`. */
  function Count<T>(s: seq<T>, p: T -> bool): (n: nat)
    ensures n <= |s|
  {
    if s == [] then 0
    else (if p(s[|s| - 1]) then 1 else 0) + Count(s[..|s| - 1], p)
  }

  lemma {:induction false} CountConcat<T>(s: seq<T>, t: seq<T>, p: T -> bool)
    ensures Count(s + t, p) == Count(s, p) + Count(t, p)
    decreases |t|
  {
    if t == [] {
      assert s + t == s;
    } else {
      assert (s + t)[..|s + t| - 1] == s + t[..|t| - 1];
      CountConcat(s, t[..|t| - 1], p);
    }
  }

  lemma CountSnoc<T>(s: seq<T>, x: T, p: T -> bool)
    ensures Count(s + [x], p) == Count(s, p) + (if p(x) then 1 else 0)
  {
    assert (s + [x])[..|s|] == s;
  }

  /** No event satisfying `late` comes after an event satisfying `early`. */
  ghost predicate NoneAfter<T>(s: seq<T>, early: T -> bool, late: T -> bool)
  {
    forall i, j :: 0 <= i < j < |s| && early(s[i]) ==> !late(s[j])
  }

  /** Some event of `s` satisfies `p`. */
  predicate Occurs<T>(s: seq<T>, p: T -> bool)
  {
    exists i :: 0 <= i < |s| && p(s[i])
  }

  lemma OccursConcat<T>(s: seq<T>, t: seq<T>, p: T -> bool)
    ensures Occurs(s + t, p) <==> Occurs(s, p) || Occurs(t, p)
  {
    if Occurs(s + t, p) {
      var i :| 0 <= i < |s + t| && p((s + t)[i]);
      if i >= |s| { assert p(t[i - |s|]); } else { assert p(s[i]); }
    }
    if Occurs(s, p) {
      var i :| 0 <= i < |s| && p(s[i]);
      assert p((s + t)[i]);
    }
    if Occurs(t, p) {
      var i :| 0 <= i < |t| && p(t[i]);
      assert p((s + t)[|s| + i]);
    }
  }

  /**
   * Appending `t` keeps the "nothing late after early" order as long as `t`
   * holds no late event whenever an early one has occurred, and has no late
   * event after one of its own early events.
   */
  lemma AppendKeepsNoneAfter<T>(s: seq<T>, t: seq<T>, early: T -> bool, late: T -> bool)
    requires NoneAfter(s, early, late) && NoneAfter(t, early, late)
    requires Occurs(s, early) ==> !Occurs(t, late)
    ensures NoneAfter(s + t, early, late)
  {
    forall i, j | 0 <= i < j < |s + t| && early((s + t)[i])
      ensures !late((s + t)[j])
    {
      if j >= |s| && i < |s| {
        assert Occurs(s, early) by { assert early(s[i]); }
        assert t[j - |s|] == (s + t)[j];
        assert !late(t[j - |s|]);
      }
    }
  }
}
