/**
 * `generate_cache_key` of `commons_falcon/cache.py`: the response-cache key
 * `path:METHOD:name:v1,v2:name:v1` built from the request path (one
 * trailing `/` dropped), the upper-cased method and the query parameters in
 * name order.
 */
module CacheKey {
  import opened Wrappers
  import opened Falcon

  // ---------------------------------------------------------------------
  // Python's string order: lexicographic by code point.

  predicate StrLeq(a: string, b: string) {
    |a| == 0 || (|b| > 0 && (a[0] < b[0] || (a[0] == b[0] && StrLeq(a[1..], b[1..]))))
  }

  lemma {:induction false} StrLeqTotal(a: string, b: string)
    ensures StrLeq(a, b) || StrLeq(b, a)
  {
    if |a| > 0 && |b| > 0 && a[0] == b[0] {
      StrLeqTotal(a[1..], b[1..]);
    }
  }

  lemma {:induction false} StrLeqAntisymmetric(a: string, b: string)
    requires StrLeq(a, b) && StrLeq(b, a)
    ensures a == b
  {
    if |a| > 0 && |b| > 0 {
      StrLeqAntisymmetric(a[1..], b[1..]);
      assert a == [a[0]] + a[1..] && b == [b[0]] + b[1..];
    }
  }

  lemma {:induction false} StrLeqTransitive(a: string, b: string, c: string)
    requires StrLeq(a, b) && StrLeq(b, c)
    ensures StrLeq(a, c)
  {
    if |a| > 0 && a[0] == b[0] && b[0] == c[0] {
      StrLeqTransitive(a[1..], b[1..], c[1..]);
    }
  }

  ghost predicate SortedStrings(s: seq<string>) {
    forall p, q :: 0 <= p < q < |s| ==> StrLeq(s[p], s[q])
  }

  // ---------------------------------------------------------------------
  // `param_keys.sort()` as a specification: insertion sort on sequences.

  function Insert(x: string, s: seq<string>): seq<string> {
    if |s| == 0 || StrLeq(x, s[0]) then [x] + s else [s[0]] + Insert(x, s[1..])
  }

  lemma {:induction false} InsertPermutes(x: string, s: seq<string>)
    ensures multiset(Insert(x, s)) == multiset(s) + multiset{x}
  {
    if |s| > 0 && !StrLeq(x, s[0]) {
      InsertPermutes(x, s[1..]);
      assert s == [s[0]] + s[1..];
    }
  }

  lemma {:induction false} InsertSorted(x: string, s: seq<string>)
    requires SortedStrings(s)
    ensures SortedStrings(Insert(x, s))
  {
    if |s| > 0 {
      if StrLeq(x, s[0]) {
        forall q | 0 < q < |s|
          ensures StrLeq(x, s[q])
        {
          StrLeqTransitive(x, s[0], s[q]);
        }
      } else {
        StrLeqTotal(x, s[0]);
        var tail := Insert(x, s[1..]);
        InsertSorted(x, s[1..]);
        InsertPermutes(x, s[1..]);
        forall q | 0 <= q < |tail|
          ensures StrLeq(s[0], tail[q])
        {
          assert tail[q] in multiset(tail);
          if tail[q] != x {
            assert tail[q] in multiset(s[1..]);
            var p :| 0 <= p < |s[1..]| && s[1..][p] == tail[q];
            assert s[p + 1] == tail[q];
          }
        }
      }
    }
  }

  /** The parameter names in the order `list.sort()` leaves them. */
  function SortStrings(s: seq<string>): (r: seq<string>)
    ensures SortedStrings(r) && multiset(r) == multiset(s)
  {
    if |s| == 0 then []
    else
      var rest := SortStrings(s[1..]);
      InsertPermutes(s[0], rest);
      InsertSorted(s[0], rest);
      assert s == [s[0]] + s[1..];
      Insert(s[0], rest)
  }

  /** The first element of a sorted sequence is below every member. */
  lemma HeadIsLeast(s: seq<string>, x: string)
    requires SortedStrings(s) && x in multiset(s)
    ensures StrLeq(s[0], x)
  {
    var i :| 0 <= i < |s| && s[i] == x;
    if i == 0 {
      StrLeqTotal(x, x);
    }
  }

  lemma TailSorted(s: seq<string>)
    requires |s| > 0 && SortedStrings(s)
    ensures SortedStrings(s[1..])
  {
  }

  /** Removing the same first element from two permutations leaves permutations. */
  lemma TailsPermute(a: seq<string>, b: seq<string>)
    requires |a| > 0 && |b| > 0 && a[0] == b[0] && multiset(a) == multiset(b)
    ensures multiset(a[1..]) == multiset(b[1..])
  {
    assert a == [a[0]] + a[1..] && b == [b[0]] + b[1..];
    calc {
      multiset(a[1..]);
      multiset(a) - multiset{a[0]};
      multiset(b) - multiset{b[0]};
      multiset(b[1..]);
    }
  }

  /** A sorted arrangement of a multiset of strings is unique. */
  lemma {:induction false} SortedUnique(a: seq<string>, b: seq<string>)
    requires SortedStrings(a) && SortedStrings(b) && multiset(a) == multiset(b)
    ensures a == b
  {
    if |a| > 0 {
      assert |b| > 0 by { assert a[0] in multiset(b); }
      HeadIsLeast(b, a[0]);
      HeadIsLeast(a, b[0]);
      StrLeqAntisymmetric(a[0], b[0]);
      TailsPermute(a, b);
      TailSorted(a);
      TailSorted(b);
      SortedUnique(a[1..], b[1..]);
      assert a == [a[0]] + a[1..] && b == [b[0]] + b[1..];
    } else {
      assert |b| == |multiset(b)| == 0;
    }
  }

  /** Rearranging a sequence keeps its members. */
  lemma SameMembers(a: seq<string>, b: seq<string>)
    requires multiset(a) == multiset(b)
    ensures forall k :: k in a <==> k in b
  {
    forall k
      ensures k in a <==> k in b
    {
      assert k in a <==> k in multiset(a);
      assert k in b <==> k in multiset(b);
    }
  }

  // ---------------------------------------------------------------------
  // The pieces of the key.

  /** `path[:-1]` when the path ends with `/`. */
  function StripSlash(path: string): (p: string)
    ensures path == p || path == p + "/"
    ensures |path| > 0 && path[|path| - 1] == '/' <==> path == p + "/"
  {
    if |path| > 0 && path[|path| - 1] == '/' then path[..|path| - 1] else path
  }

  /** `str.upper()` on ASCII letters; other characters are kept. */
  function UpperChar(c: char): (u: char)
    ensures !('a' <= u <= 'z')
    ensures 'a' <= c <= 'z' ==> 'A' <= u <= 'Z' && u as int - 'A' as int == c as int - 'a' as int
    ensures !('a' <= c <= 'z') ==> u == c
  {
    if 'a' <= c <= 'z' then (c as int - 32) as char else c
  }

  function Upper(s: string): (r: string)
    ensures |r| == |s| && forall i :: 0 <= i < |s| ==> r[i] == UpperChar(s[i])
  {
    if |s| == 0 then "" else [UpperChar(s[0])] + Upper(s[1..])
  }

  /** `sep.join(parts)`. */
  function Join(sep: string, parts: seq<string>): string {
    if |parts| == 0 then ""
    else if |parts| == 1 then parts[0]
    else parts[0] + sep + Join(sep, parts[1..])
  }

  /** The method `generate_cache_key` puts in the key: the argument when truthy, else the request's. */
  function ChosenMethod(verb: Option<string>, requestMethod: string): string {
    if verb.Some? && verb.value != "" then verb.value else requestMethod
  }

  /** One `name:v1,v2` segment per parameter name, in the given order. */
  function Segments(names: seq<string>, params: map<string, seq<string>>): (r: seq<string>)
    requires forall k :: k in names ==> k in params
    ensures |r| == |names|
    ensures forall i :: 0 <= i < |names| ==> r[i] == names[i] + ":" + Join(",", params[names[i]])
  {
    if |names| == 0 then [] else Segments(names[..|names| - 1], params) + [names[|names| - 1] + ":" + Join(",", params[names[|names| - 1]])]
  }

  /** The key for a request with the given path, method and parameters. */
  function CacheKeyOf(path: string, verb: Option<string>, requestMethod: string, paramKeys: seq<string>,
                      params: map<string, seq<string>>): (key: string)
    requires forall k :: k in paramKeys ==> k in params
    ensures var prefix := StripSlash(path) + ":" + Upper(ChosenMethod(verb, requestMethod)) + ":";
            |prefix| <= |key| && key[..|prefix|] == prefix
  {
    var names := SortStrings(paramKeys);
    SameMembers(names, paramKeys);
    StripSlash(path) + ":" + Upper(ChosenMethod(verb, requestMethod)) + ":" + Join(":", Segments(names, params))
  }

  // ---------------------------------------------------------------------
  // Properties of the key.

  /** The key does not depend on the order in which the request yields its parameter names. */
  lemma KeyIgnoresParameterOrder(path: string, verb: Option<string>, requestMethod: string,
                                 keys1: seq<string>, keys2: seq<string>, params: map<string, seq<string>>)
    requires forall k :: k in keys1 ==> k in params
    requires multiset(keys1) == multiset(keys2)
    ensures forall k :: k in keys2 ==> k in params
    ensures CacheKeyOf(path, verb, requestMethod, keys1, params) == CacheKeyOf(path, verb, requestMethod, keys2, params)
  {
    SameMembers(keys1, keys2);
    SortedUnique(SortStrings(keys1), SortStrings(keys2));
  }

  /** Without parameters the key is `path:METHOD:`. */
  lemma NoParametersEndsWithColon(path: string, verb: Option<string>, requestMethod: string,
                                  params: map<string, seq<string>>)
    ensures var key := CacheKeyOf(path, verb, requestMethod, [], params);
            && key == StripSlash(path) + ":" + Upper(ChosenMethod(verb, requestMethod)) + ":"
            && key[|key| - 1] == ':'
  {
  }

  /**
   * The key starts with the path less at most one trailing `/`, then `:`,
   * then the chosen method in upper case, then `:`.
   */
  lemma KeyPrefix(path: string, verb: Option<string>, requestMethod: string, paramKeys: seq<string>,
                  params: map<string, seq<string>>)
    requires forall k :: k in paramKeys ==> k in params
    ensures var key := CacheKeyOf(path, verb, requestMethod, paramKeys, params);
            var m := if verb.Some? && verb.value != "" then verb.value else requestMethod;
            exists p, q :: (p == path || p + "/" == path) && key == p + ":" + Upper(m) + ":" + q
  {
    var p := StripSlash(path);
    var names := SortStrings(paramKeys);
    SameMembers(names, paramKeys);
    var q := Join(":", Segments(names, params));
    assert CacheKeyOf(path, verb, requestMethod, paramKeys, params)
           == p + ":" + Upper(ChosenMethod(verb, requestMethod)) + ":" + q;
  }

  // ---------------------------------------------------------------------
  // The code, step by step.

  /** The first `n` elements of `a` are in Python string order. */
  ghost predicate SortedPrefix(a: array<string>, n: int)
    reads a
    requires 0 <= n <= a.Length
  {
    forall p, q :: 0 <= p < q < n ==> StrLeq(a[p], a[q])
  }

  /** One pass of insertion sort: moves `a[i]` down into the sorted prefix `a[..i]`. */
  method InsertIntoPrefix(a: array<string>, i: int)
    requires 0 <= i < a.Length && SortedPrefix(a, i)
    modifies a
    ensures SortedPrefix(a, i + 1)
    ensures multiset(a[..]) == multiset(old(a[..]))
  {
    var j := i;
    while j > 0 && !StrLeq(a[j - 1], a[j])
      invariant 0 <= j <= i
      invariant forall p, q :: 0 <= p < q <= i && p != j && q != j ==> StrLeq(a[p], a[q])
      invariant forall q :: j < q <= i ==> StrLeq(a[j], a[q])
      invariant multiset(a[..]) == multiset(old(a[..]))
    {
      StrLeqTotal(a[j - 1], a[j]);
      ghost var before := a[..];
      a[j - 1], a[j] := a[j], a[j - 1];
      assert a[..] == before[j - 1 := before[j]][j := before[j - 1]];
      j := j - 1;
    }
    forall p | 0 <= p < j
      ensures StrLeq(a[p], a[j])
    {
      if p < j - 1 {
        StrLeqTransitive(a[p], a[j - 1], a[j]);
      }
    }
  }

  /** `param_keys.sort()`: sorts the array in place. */
  method SortInPlace(a: array<string>)
    modifies a
    ensures SortedStrings(a[..]) && multiset(a[..]) == multiset(old(a[..]))
  {
    for i := 0 to a.Length
      invariant SortedPrefix(a, i)
      invariant multiset(a[..]) == multiset(old(a[..]))
    {
      InsertIntoPrefix(a, i);
    }
  }

  /** `list(req.params.keys())` followed by `param_keys.sort()`. */
  method SortedParamKeys(names: seq<string>) returns (paramKeys: array<string>)
    ensures fresh(paramKeys) && paramKeys[..] == SortStrings(names)
  {
    paramKeys := new string[|names|];
    forall i | 0 <= i < paramKeys.Length {
      paramKeys[i] := names[i];
    }
    assert paramKeys[..] == names;
    SortInPlace(paramKeys);
    SortedUnique(paramKeys[..], SortStrings(names));
  }

  /** The `for` loop that appends one `name:v1,v2` segment per parameter name. */
  method QueryKeys(paramKeys: array<string>, params: map<string, seq<string>>) returns (queryKeys: seq<string>)
    requires forall k :: k in paramKeys[..] ==> k in params
    ensures queryKeys == Segments(paramKeys[..], params)
  {
    queryKeys := [];
    for i := 0 to paramKeys.Length
      invariant queryKeys == Segments(paramKeys[..i], params)
    {
      assert paramKeys[i] in paramKeys[..];
      var value := Join(",", params[paramKeys[i]]);
      assert paramKeys[..i + 1][..i] == paramKeys[..i];
      queryKeys := queryKeys + [paramKeys[i] + ":" + value];
    }
    assert paramKeys[..paramKeys.Length] == paramKeys[..];
  }

  /** `generate_cache_key(req, method)`. */
  method GenerateCacheKey(req: Request, verb: Option<string>) returns (key: string)
    requires forall k :: k in req.paramKeys ==> k in req.params
    ensures key == CacheKeyOf(req.path, verb, req.httpMethod, req.paramKeys, req.params)
  {
    var path := req.path;
    if |path| > 0 && path[|path| - 1] == '/' {
      path := path[..|path| - 1];
    }
    var m := req.httpMethod;
    if verb.Some? && verb.value != "" {
      m := verb.value;
    }

    var paramKeys := SortedParamKeys(req.paramKeys);
    SameMembers(paramKeys[..], req.paramKeys);
    var queryKeys := QueryKeys(paramKeys, req.params);
    key := path + ":" + Upper(m) + ":" + Join(":", queryKeys);
  }
}
