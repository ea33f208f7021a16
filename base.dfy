/** Value types shared by every part of the model: nullable values, the outcome of a
    Java call that may throw, the exceptions themselves, JSON-like response bodies,
    and the two stream idioms the source uses (filter + findFirst, filter + collect). */
module Base {

  /** A Java reference that may be null (`Long`, `String`, `Optional<T>`). */
  datatype Option<+T> = None | Some(value: T)

  /** A Java exception, reduced to what the code reads of it:
      `getClass().getSimpleName()` and `getMessage()` (which may be null). */
  datatype Exception = Exception(simpleName: string, message: Option<string>)

  /** What `java.util.Map.of` throws on a null key or value: an NPE without a message. */
  const NullPointer: Exception := Exception("NullPointerException", None)

  /** The result of a Java call that either returns a value or throws. */
  datatype Outcome<+T> = Returned(value: T) | Raised(error: Exception)

  /** A `Map<String, Object>` response body, as serialised to JSON. */
  datatype Json =
    | JNull
    | JString(str: string)
    | JNumber(num: int)
    | JBool(flag: bool)
    | JObject(fields: map<string, Json>)

  /** A Java string put into a body map: JSON null for a null reference. */
  function TextOrNull(s: Option<string>): (j: Json)
    ensures j == JNull <==> s.None?
  {
    match s
    case None => JNull
    case Some(t) => JString(t)
  }

  /** `stream().filter(p).findFirst()`, as the index of the first element satisfying `p`. */
  function FirstIndex<T>(s: seq<T>, p: T -> bool): (r: Option<nat>)
    ensures r.Some? ==> r.value < |s| && p(s[r.value])
    ensures r.Some? ==> forall j :: 0 <= j < r.value ==> !p(s[j])
    ensures r.None? <==> forall j :: 0 <= j < |s| ==> !p(s[j])
  {
    if |s| == 0 then None
    else if p(s[0]) then Some(0)
    else match FirstIndex(s[1..], p)
      case None => None
      case Some(k) => Some(k + 1)
  }

  /** `stream().filter(p).collect(toList())`: the elements satisfying `p`, in order. */
  function Filter<T>(s: seq<T>, p: T -> bool): (r: seq<T>)
    ensures |r| <= |s|
    ensures forall i :: 0 <= i < |r| ==> r[i] in s && p(r[i])
  {
    if |s| == 0 then []
    else
      assert s == [s[0]] + s[1..];
      (if p(s[0]) then [s[0]] else []) + Filter(s[1..], p)
  }

  /** Every element that passes is kept, as many times as it occurs. */
  lemma {:induction false} FilterKeepsMatches<T>(s: seq<T>, p: T -> bool)
    ensures forall i :: 0 <= i < |s| && p(s[i]) ==> s[i] in Filter(s, p)
    ensures forall i :: 0 <= i < |s| && p(s[i]) ==>
              multiset(Filter(s, p))[s[i]] == multiset(s)[s[i]]
  {
    if |s| > 0 {
      var tail := s[1..];
      FilterKeepsMatches(tail, p);
      var r := Filter(s, p);
      var rest := Filter(tail, p);
      assert s == [s[0]] + tail;
      assert r == (if p(s[0]) then [s[0]] else []) + rest;
      assert multiset(s) == multiset([s[0]]) + multiset(tail);
      assert multiset(r) == multiset(if p(s[0]) then [s[0]] else []) + multiset(rest);
      forall i | 0 <= i < |s| && p(s[i])
        ensures s[i] in r && multiset(r)[s[i]] == multiset(s)[s[i]]
      {
        if s[i] !in tail {
          assert s[i] !in rest;
        } else {
          var j :| 0 <= j < |tail| && tail[j] == s[i];
          assert p(tail[j]);
        }
      }
    }
  }

  /** Filtering a concatenation filters each part and keeps them in order: the filter
      never reorders elements. */
  lemma {:induction false} FilterAppend<T>(a: seq<T>, b: seq<T>, p: T -> bool)
    ensures Filter(a + b, p) == Filter(a, p) + Filter(b, p)
  {
    if |a| == 0 {
      assert a + b == b;
    } else {
      assert (a + b)[0] == a[0];
      assert (a + b)[1..] == a[1..] + b;
      FilterAppend(a[1..], b, p);
    }
  }

  /** Filtering removes something exactly when some element fails the predicate. */
  lemma {:induction false} FilterShrinks<T>(s: seq<T>, p: T -> bool)
    ensures |Filter(s, p)| < |s| <==> exists i :: 0 <= i < |s| && !p(s[i])
  {
    if |s| > 0 {
      FilterShrinks(s[1..], p);
      if !p(s[0]) {
        assert !p(s[0]);
      } else {
        assert (exists i :: 0 <= i < |s| && !p(s[i])) <==> (exists i :: 0 <= i < |s[1..]| && !p(s[1..][i])) by {
          if exists i :: 0 <= i < |s| && !p(s[i]) {
            var i :| 0 <= i < |s| && !p(s[i]);
            assert i > 0 && !p(s[1..][i - 1]);
          }
          if exists i :: 0 <= i < |s[1..]| && !p(s[1..][i]) {
            var i :| 0 <= i < |s[1..]| && !p(s[1..][i]);
            assert !p(s[i + 1]);
          }
        }
      }
    }
  }
}
