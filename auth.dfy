/**
 * The authentication utilities of `falcon_utils/auth.py`: the scheme,
 * access-level and verification-error enumerations, the time-boxed memo
 * table of `timed_lru_cache`, and the JWT verification service that reads
 * its key set through that table.
 */
module Auth {
  import opened Wrappers
  import opened Json

  /** The ways a request can have been authorized. */
  datatype AuthorizationScheme = Jwt | ExemptedPath | IpWhitelist | ApiKey | ClientSecret | AccessToken {
    /** The enum member's string value. */
    function Value(): string {
      match this
      case Jwt => "jwt"
      case ExemptedPath => "exempted_path"
      case IpWhitelist => "ip_whitelist"
      case ApiKey => "api_key"
      case ClientSecret => "client_secret"
      case AccessToken => "access_token"
    }
  }

  /** Whose identities a payload-level check accepts. */
  datatype AccessLevel = Self | Dependant | SelfAndDependant {
    function Value(): string {
      match this
      case Self => "self"
      case Dependant => "dependant"
      case SelfAndDependant => "self_and_dependant"
    }
  }

  /** Why a JWT failed verification. */
  datatype JWTVerificationError = Expired | Invalid | Internal {
    function Value(): string {
      match this
      case Expired => "expired"
      case Invalid => "invalid"
      case Internal => "internal"
    }
  }

  /** `AuthorizationScheme(v)`: the member whose value is `v`, if any. */
  function SchemeFromValue(v: string): (r: Option<AuthorizationScheme>)
    ensures r.Some? ==> r.value.Value() == v
    ensures r.None? ==> forall s: AuthorizationScheme :: s.Value() != v
  {
    if v == "jwt" then Some(Jwt)
    else if v == "exempted_path" then Some(ExemptedPath)
    else if v == "ip_whitelist" then Some(IpWhitelist)
    else if v == "api_key" then Some(ApiKey)
    else if v == "client_secret" then Some(ClientSecret)
    else if v == "access_token" then Some(AccessToken)
    else None
  }

  /** `AccessLevel(v)`: the member whose value is `v`, if any. */
  function AccessLevelFromValue(v: string): (r: Option<AccessLevel>)
    ensures r.Some? ==> r.value.Value() == v
    ensures r.None? ==> forall l: AccessLevel :: l.Value() != v
  {
    if v == "self" then Some(Self)
    else if v == "dependant" then Some(Dependant)
    else if v == "self_and_dependant" then Some(SelfAndDependant)
    else None
  }

  /** `JWTVerificationError(v)`: the member whose value is `v`, if any. */
  function VerificationErrorFromValue(v: string): (r: Option<JWTVerificationError>)
    ensures r.Some? ==> r.value.Value() == v
    ensures r.None? ==> forall e: JWTVerificationError :: e.Value() != v
  {
    if v == "expired" then Some(Expired)
    else if v == "invalid" then Some(Invalid)
    else if v == "internal" then Some(Internal)
    else None
  }

  /** Every member is found again from its value, so the values are pairwise distinct. */
  lemma EnumValuesRoundTrip(s: AuthorizationScheme, l: AccessLevel, e: JWTVerificationError)
    ensures SchemeFromValue(s.Value()) == Some(s)
    ensures AccessLevelFromValue(l.Value()) == Some(l)
    ensures VerificationErrorFromValue(e.Value()) == Some(e)
  {
  }

  // ---------------------------------------------------------------------
  // timed_lru_cache
  // ---------------------------------------------------------------------

  /** What a call of the wrapped function does: return a value or raise. */
  datatype CallOutcome<V> = Returned(value: V) | Raised

  /**
   * The state behind one decorated function: the single expiration instant
   * shared by all arguments, and the `lru_cache` table as (arguments, result)
   * pairs from least to most recently used.
   */
  datatype MemoState<K, V> = MemoState(expiration: int, entries: seq<(K, V)>)

  /** One call: the new state, what the caller gets, and whether the wrapped function ran. */
  datatype CallRecord<K, V> = CallRecord(state: MemoState<K, V>, result: CallOutcome<V>, invoked: bool)

  ghost predicate DistinctKeys<K, V>(entries: seq<(K, V)>) {
    forall i, j :: 0 <= i < j < |entries| ==> entries[i].0 != entries[j].0
  }

  /** The table holds each argument tuple at most once and never more than `maxsize` of them. */
  ghost predicate ValidMemo<K, V>(s: MemoState<K, V>, maxsize: nat) {
    DistinctKeys(s.entries) && |s.entries| <= maxsize
  }

  /** The position of `key` in the table, or -1 when it is not memoised. */
  function Find<K(==), V>(entries: seq<(K, V)>, key: K): (i: int)
    ensures -1 <= i < |entries|
    ensures i >= 0 ==> entries[i].0 == key
    ensures i < 0 ==> forall j :: 0 <= j < |entries| ==> entries[j].0 != key
  {
    if |entries| == 0 then -1
    else if entries[|entries| - 1].0 == key then |entries| - 1
    else Find(entries[..|entries| - 1], key)
  }

  /** The argument tuples the table holds. */
  ghost function Keys<K, V>(entries: seq<(K, V)>): set<K> {
    set i | 0 <= i < |entries| :: entries[i].0
  }

  /** What the table answers for `key`: the memoised value, or `None` when the arguments are not memoised. */
  function Memo<K(==), V>(entries: seq<(K, V)>, key: K): (m: Option<V>)
    ensures m.Some? <==> key in Keys(entries)
  {
    var i := Find(entries, key);
    if i >= 0 then Some(entries[i].1) else None
  }

  /** `lru_cache`'s store after a miss: nothing when `maxsize` is 0, else evict the oldest entry if full. */
  function Store<K, V>(entries: seq<(K, V)>, maxsize: nat, e: (K, V)): (r: seq<(K, V)>)
    ensures maxsize == 0 ==> r == entries
    ensures maxsize > 0 ==> |r| > 0 && r[|r| - 1] == e
    ensures |entries| <= maxsize ==> |r| <= maxsize
  {
    if maxsize == 0 then entries
    else if |entries| >= maxsize then entries[1..] + [e]
    else entries + [e]
  }

  /**
   * One call of the `lru_cache`-wrapped function with arguments `key`: a hit
   * answers from the table and makes the entry the most recently used; a
   * miss runs the function (`computed`) and stores a returned value.
   */
  function LruStep<K(==), V>(s: MemoState<K, V>, maxsize: nat, key: K, computed: CallOutcome<V>)
    : (r: CallRecord<K, V>)
    ensures ValidMemo(s, maxsize) ==> ValidMemo(r.state, maxsize)
    ensures r.state.expiration == s.expiration
    ensures r.invoked <==> Find(s.entries, key) < 0
    ensures r.invoked ==> r.result == computed
    ensures !r.invoked ==> r.result == Returned(s.entries[Find(s.entries, key)].1)
    ensures r.result.Returned? && (maxsize > 0 || !r.invoked) ==>
              |r.state.entries| > 0 && r.state.entries[|r.state.entries| - 1] == (key, r.result.value)
    ensures r.result.Returned? && (maxsize > 0 || !r.invoked) ==> Memo(r.state.entries, key) == Some(r.result.value)
    ensures forall k :: k in Keys(s.entries) && k != key &&
                        !(r.invoked && r.result.Returned? && maxsize > 0 && |s.entries| >= maxsize && s.entries[0].0 == k) ==>
              Memo(r.state.entries, k) == Memo(s.entries, k)
    ensures Keys(r.state.entries) <= Keys(s.entries) + {key}
    ensures r.result.Raised? ==> r.state.entries == s.entries
  {
    var i := Find(s.entries, key);
    if i >= 0 then
      var hit := s.entries[i];
      var moved := s.entries[..i] + s.entries[i + 1..] + [hit];
      MoveToEndKeepsDistinct(s.entries, i);
      MoveToEndKeepsMemo(s.entries, i);
      CallRecord(MemoState(s.expiration, moved), Returned(hit.1), false)
    else
      match computed
      case Raised => CallRecord(s, Raised, true)
      case Returned(v) =>
        StoreKeepsDistinct(s.entries, maxsize, (key, v));
        StoreKeepsMemo(s.entries, maxsize, (key, v));
        CallRecord(MemoState(s.expiration, Store(s.entries, maxsize, (key, v))), computed, true)
  }

  /**
   * One call of the decorated function with arguments `key` at clock
   * reading `now`; `computed` is what the wrapped function would do if
   * invoked.
   * An expired window clears the table and restarts the window from `now`.
   */
  function Step<K(==), V>(s: MemoState<K, V>, lifetime: int, maxsize: nat, key: K, now: int, computed: CallOutcome<V>)
    : (r: CallRecord<K, V>)
    ensures ValidMemo(s, maxsize) ==> ValidMemo(r.state, maxsize)
    ensures r.state.expiration == if now >= s.expiration then now + lifetime else s.expiration
    ensures r.invoked <==> now >= s.expiration || Find(s.entries, key) < 0
    ensures r.invoked ==> r.result == computed
    ensures !r.invoked ==> r.result == Returned(s.entries[Find(s.entries, key)].1)
    ensures r.result.Returned? && (maxsize > 0 || !r.invoked) ==>
              |r.state.entries| > 0 && r.state.entries[|r.state.entries| - 1] == (key, r.result.value)
    ensures r.result.Returned? && (maxsize > 0 || !r.invoked) ==> Memo(r.state.entries, key) == Some(r.result.value)
    ensures now < s.expiration ==>
              forall k :: k in Keys(s.entries) && k != key &&
                          !(r.invoked && r.result.Returned? && maxsize > 0 && |s.entries| >= maxsize && s.entries[0].0 == k) ==>
                Memo(r.state.entries, k) == Memo(s.entries, k)
    ensures now >= s.expiration ==> Keys(r.state.entries) <= {key}
    ensures r.result.Raised? ==> r.state.entries == if now >= s.expiration then [] else s.entries
    ensures Keys(r.state.entries) <= Keys(s.entries) + {key}
  {
    var base: MemoState<K, V> := if now >= s.expiration then MemoState(now + lifetime, []) else s;
    assert now >= s.expiration ==> ValidMemo(base, maxsize) && Find(base.entries, key) < 0 && Keys(base.entries) == {};
    LruStep(base, maxsize, key, computed)
  }

  lemma MoveToEndKeepsDistinct<K, V>(entries: seq<(K, V)>, i: nat)
    requires i < |entries|
    ensures var moved := entries[..i] + entries[i + 1..] + [entries[i]];
            |moved| == |entries| && (DistinctKeys(entries) ==> DistinctKeys(moved))
  {
    var moved := entries[..i] + entries[i + 1..] + [entries[i]];
    if DistinctKeys(entries) {
      forall a, b | 0 <= a < b < |moved| ensures moved[a].0 != moved[b].0 {
        var a' := if a < i then a else a + 1;
        var b' := if b == |moved| - 1 then i else if b < i then b else b + 1;
        assert moved[a] == entries[a'] && moved[b] == entries[b'];
      }
    }
  }

  lemma StoreKeepsDistinct<K, V>(entries: seq<(K, V)>, maxsize: nat, e: (K, V))
    requires forall j :: 0 <= j < |entries| ==> entries[j].0 != e.0
    ensures var stored := Store(entries, maxsize, e);
            (DistinctKeys(entries) ==> DistinctKeys(stored)) && (|entries| <= maxsize ==> |stored| <= maxsize)
  {
    var stored := Store(entries, maxsize, e);
    if DistinctKeys(entries) && maxsize > 0 {
      var kept := if |entries| >= maxsize then entries[1..] else entries;
      assert stored == kept + [e];
      forall a, b | 0 <= a < b < |stored| ensures stored[a].0 != stored[b].0 {
        var off := if |entries| >= maxsize then 1 else 0;
        if b == |stored| - 1 {
          assert stored[a] == entries[a + off];
        } else {
          assert stored[a] == entries[a + off] && stored[b] == entries[b + off];
        }
      }
    }
  }

  /** A lookup in `a + b` finds the most recent entry: in `b` if it holds the key, else in `a`. */
  lemma {:induction false} MemoConcat<K, V>(a: seq<(K, V)>, b: seq<(K, V)>, k: K)
    ensures Memo(a + b, k) == if Memo(b, k).Some? then Memo(b, k) else Memo(a, k)
    decreases |b|
  {
    if |b| == 0 {
      assert a + b == a;
    } else if b[|b| - 1].0 != k {
      assert (a + b)[..|a + b| - 1] == a + b[..|b| - 1];
      MemoConcat(a, b[..|b| - 1], k);
    }
  }

  /** Moving one entry to the most recent end leaves every other key's answer unchanged. */
  lemma MoveToEndKeepsMemo<K, V>(entries: seq<(K, V)>, i: nat)
    requires i < |entries|
    ensures var moved := entries[..i] + entries[i + 1..] + [entries[i]];
            forall k :: k != entries[i].0 ==> Memo(moved, k) == Memo(entries, k)
    ensures Keys(entries[..i] + entries[i + 1..] + [entries[i]]) <= Keys(entries)
  {
    var moved := entries[..i] + entries[i + 1..] + [entries[i]];
    forall k | k != entries[i].0
      ensures Memo(moved, k) == Memo(entries, k)
    {
      MemoConcat(entries[..i] + entries[i + 1..], [entries[i]], k);
      MemoConcat(entries[..i], entries[i + 1..], k);
      assert entries == entries[..i] + [entries[i]] + entries[i + 1..];
      MemoConcat(entries[..i] + [entries[i]], entries[i + 1..], k);
      MemoConcat(entries[..i], [entries[i]], k);
    }
    forall x | x in Keys(moved) ensures x in Keys(entries) {
      var j :| 0 <= j < |moved| && moved[j].0 == x;
      var j' := if j == |moved| - 1 then i else if j < i then j else j + 1;
      assert moved[j] == entries[j'];
    }
  }

  /** A store keeps every other key's answer, except the oldest entry's when a full table evicts it. */
  lemma StoreKeepsMemo<K, V>(entries: seq<(K, V)>, maxsize: nat, e: (K, V))
    ensures forall k :: k != e.0 && !(maxsize > 0 && |entries| >= maxsize && entries[0].0 == k) ==>
              Memo(Store(entries, maxsize, e), k) == Memo(entries, k)
    ensures Keys(Store(entries, maxsize, e)) <= Keys(entries) + {e.0}
  {
    forall k | k != e.0 && !(maxsize > 0 && |entries| >= maxsize && entries[0].0 == k)
      ensures Memo(Store(entries, maxsize, e), k) == Memo(entries, k)
    {
      StoreKeepsOtherMemo(entries, maxsize, e, k);
    }
    StoreAddsOnlyItsKey(entries, maxsize, e);
  }

  lemma StoreKeepsOtherMemo<K, V>(entries: seq<(K, V)>, maxsize: nat, e: (K, V), k: K)
    requires k != e.0 && !(maxsize > 0 && |entries| >= maxsize && entries[0].0 == k)
    ensures Memo(Store(entries, maxsize, e), k) == Memo(entries, k)
  {
    if maxsize > 0 {
      var kept := if |entries| >= maxsize then entries[1..] else entries;
      assert Store(entries, maxsize, e) == kept + [e];
      MemoConcat(kept, [e], k);
      if |entries| >= maxsize {
        assert entries == [entries[0]] + entries[1..];
        MemoConcat([entries[0]], entries[1..], k);
      }
    }
  }

  lemma StoreAddsOnlyItsKey<K, V>(entries: seq<(K, V)>, maxsize: nat, e: (K, V))
    ensures Keys(Store(entries, maxsize, e)) <= Keys(entries) + {e.0}
  {
    var stored := Store(entries, maxsize, e);
    if maxsize > 0 {
      var off := if |entries| >= maxsize then 1 else 0;
      assert stored == entries[off..] + [e];
      forall x | x in Keys(stored) ensures x in Keys(entries) + {e.0} {
        var j :| 0 <= j < |stored| && stored[j].0 == x;
        if j < |stored| - 1 {
          assert stored[j] == entries[j + off];
        }
      }
    }
  }

  /** The keys of a non-empty table are those of all but its last entry, and the last entry's. */
  lemma KeysOfInit<K, V>(entries: seq<(K, V)>)
    requires |entries| > 0
    ensures Keys(entries) == Keys(entries[..|entries| - 1]) + {entries[|entries| - 1].0}
  {
    var init := entries[..|entries| - 1];
    forall x | x in Keys(entries) ensures x in Keys(init) + {entries[|entries| - 1].0} {
      var j :| 0 <= j < |entries| && entries[j].0 == x;
      if j < |entries| - 1 {
        assert init[j] == entries[j];
      }
    }
    forall x | x in Keys(init) ensures x in Keys(entries) {
      var j :| 0 <= j < |init| && init[j].0 == x;
      assert entries[j] == init[j];
    }
  }

  /** Without duplicates, all but the last entry are duplicate-free and do not hold the last key. */
  lemma DistinctInit<K, V>(entries: seq<(K, V)>)
    requires |entries| > 0 && DistinctKeys(entries)
    ensures DistinctKeys(entries[..|entries| - 1])
    ensures entries[|entries| - 1].0 !in Keys(entries[..|entries| - 1])
  {
    var init := entries[..|entries| - 1];
    forall i, j | 0 <= i < j < |init| ensures init[i].0 != init[j].0 {
      assert init[i] == entries[i] && init[j] == entries[j];
    }
    forall j | 0 <= j < |init| ensures init[j].0 != entries[|entries| - 1].0 {
      assert init[j] == entries[j];
    }
  }

  /** Distinct keys: the table holds as many argument tuples as entries. */
  lemma {:induction false} KeysCount<K, V>(entries: seq<(K, V)>)
    requires DistinctKeys(entries)
    ensures |Keys(entries)| == |entries|
  {
    if |entries| > 0 {
      var init := entries[..|entries| - 1];
      DistinctInit(entries);
      KeysCount(init);
      KeysOfInit(entries);
    }
  }

  lemma SubsetCard<T>(a: set<T>, b: set<T>)
    requires a <= b
    ensures |a| <= |b|
  {
    assert b == a + (b - a);
    assert a * (b - a) == {};
  }

  /** A call of the decorated function: its arguments, the clock reading, and what the function would do. */
  datatype Invocation<K, V> = Invocation(key: K, now: int, computed: CallOutcome<V>)

  /** The state after a sequence of calls, in order. */
  function Run<K(==), V>(s: MemoState<K, V>, lifetime: int, maxsize: nat, calls: seq<Invocation<K, V>>)
    : MemoState<K, V>
    decreases |calls|
  {
    if |calls| == 0 then s
    else Run(Step(s, lifetime, maxsize, calls[0].key, calls[0].now, calls[0].computed).state,
             lifetime, maxsize, calls[1..])
  }

  /** The argument tuples a sequence of calls uses. */
  ghost function CallKeys<K, V>(calls: seq<Invocation<K, V>>): set<K> {
    set i | 0 <= i < |calls| :: calls[i].key
  }

  /**
   * One call inside the window, when the table and the call's arguments fit
   * in a budget of at most `maxsize` tuples: nothing is evicted, so a
   * memoised key keeps its answer.
   */
  lemma StepWithinBudget<K, V>(
    s: MemoState<K, V>, lifetime: int, maxsize: nat, c: Invocation<K, V>, budget: set<K>, k: K)
    requires ValidMemo(s, maxsize) && Memo(s.entries, k).Some? && c.now < s.expiration
    requires Keys(s.entries) + {c.key} <= budget && |budget| <= maxsize
    ensures var r := Step(s, lifetime, maxsize, c.key, c.now, c.computed);
            && ValidMemo(r.state, maxsize) && r.state.expiration == s.expiration
            && Memo(r.state.entries, k) == Memo(s.entries, k)
            && Keys(r.state.entries) <= Keys(s.entries) + {c.key}
  {
    var r := Step(s, lifetime, maxsize, c.key, c.now, c.computed);
    if r.invoked {
      assert Memo(s.entries, c.key).None?;
      KeysCount(s.entries);
      assert |Keys(s.entries) + {c.key}| == |s.entries| + 1;
      SubsetCard(Keys(s.entries) + {c.key}, budget);
    }
  }

  lemma CallKeysOfTail<K, V>(calls: seq<Invocation<K, V>>)
    requires |calls| > 0
    ensures CallKeys(calls[1..]) <= CallKeys(calls)
  {
    forall x | x in CallKeys(calls[1..]) ensures x in CallKeys(calls) {
      var j :| 0 <= j < |calls[1..]| && calls[1..][j].key == x;
      assert calls[j + 1] == calls[1..][j];
    }
  }

  lemma {:induction false} KeptWithinBudget<K, V>(
    s: MemoState<K, V>, lifetime: int, maxsize: nat, calls: seq<Invocation<K, V>>, budget: set<K>, k: K)
    requires ValidMemo(s, maxsize) && Memo(s.entries, k).Some?
    requires forall i :: 0 <= i < |calls| ==> calls[i].now < s.expiration
    requires Keys(s.entries) + CallKeys(calls) <= budget && |budget| <= maxsize
    ensures var t := Run(s, lifetime, maxsize, calls);
            && ValidMemo(t, maxsize) && t.expiration == s.expiration
            && Memo(t.entries, k) == Memo(s.entries, k)
            && Keys(t.entries) <= budget
    decreases |calls|
  {
    if |calls| > 0 {
      var c := calls[0];
      assert c.key in CallKeys(calls);
      StepWithinBudget(s, lifetime, maxsize, c, budget, k);
      var next := Step(s, lifetime, maxsize, c.key, c.now, c.computed).state;
      CallKeysOfTail(calls);
      KeptWithinBudget(next, lifetime, maxsize, calls[1..], budget, k);
      assert Run(s, lifetime, maxsize, calls) == Run(next, lifetime, maxsize, calls[1..]);
    }
  }

  /**
   * Inside one window, a memoised key keeps its answer through any calls,
   * with the same or other arguments, as long as the table and the calls
   * use at most `maxsize` distinct argument tuples: nothing is evicted.
   */
  lemma MemoisedThroughoutWindow<K, V>(
    s: MemoState<K, V>, lifetime: int, maxsize: nat, calls: seq<Invocation<K, V>>, k: K)
    requires ValidMemo(s, maxsize) && Memo(s.entries, k).Some?
    requires forall i :: 0 <= i < |calls| ==> calls[i].now < s.expiration
    requires |Keys(s.entries) + CallKeys(calls)| <= maxsize
    ensures var t := Run(s, lifetime, maxsize, calls);
            && ValidMemo(t, maxsize) && t.expiration == s.expiration
            && Memo(t.entries, k) == Memo(s.entries, k)
            && Keys(t.entries) <= Keys(s.entries) + CallKeys(calls)
  {
    KeptWithinBudget(s, lifetime, maxsize, calls, Keys(s.entries) + CallKeys(calls), k);
  }

  /**
   * Within one window, a repeat call with the same arguments is answered
   * from the table and the wrapped function does not run, whatever calls
   * come in between, provided they and the table use at most `maxsize`
   * distinct argument tuples: at most one invocation per argument tuple per
   * window.
   */
  lemma RepeatWithinWindowIsMemoised<K, V>(
    s: MemoState<K, V>, lifetime: int, maxsize: nat, key: K, t1: int, f1: CallOutcome<V>,
    calls: seq<Invocation<K, V>>, t2: int, f2: CallOutcome<V>)
    requires ValidMemo(s, maxsize)
    requires Step(s, lifetime, maxsize, key, t1, f1).result.Returned?
    requires var window := Step(s, lifetime, maxsize, key, t1, f1).state.expiration;
             (forall i :: 0 <= i < |calls| ==> calls[i].now < window) && t2 < window
    requires |Keys(s.entries) + {key} + CallKeys(calls)| <= maxsize
    ensures var first := Step(s, lifetime, maxsize, key, t1, f1);
            var second := Step(Run(first.state, lifetime, maxsize, calls), lifetime, maxsize, key, t2, f2);
            !second.invoked && second.result == first.result
  {
    var first := Step(s, lifetime, maxsize, key, t1, f1);
    var all := Keys(s.entries) + {key} + CallKeys(calls);
    assert key in all;
    assert maxsize > 0;
    SubsetCard(Keys(first.state.entries) + CallKeys(calls), all);
    MemoisedThroughoutWindow(first.state, lifetime, maxsize, calls, key);
  }

  /** The wrapped function always runs once the window has expired, and the window restarts. */
  lemma ExpiredWindowInvokes<K, V>(
    s: MemoState<K, V>, lifetime: int, maxsize: nat, key: K, now: int, computed: CallOutcome<V>)
    requires now >= s.expiration
    ensures var r := Step(s, lifetime, maxsize, key, now, computed);
            r.invoked && r.result == computed && r.state.expiration == now + lifetime
            && |r.state.entries| <= 1
  {
  }

  /**
   * The state of `timed_lru_cache(seconds, maxsize)` around one function:
   * the function's `lifetime` and `expiration` attributes and its
   * `lru_cache` table.
   */
  class TimedLruCache<K(==), V> {
    const lifetime: int
    const maxsize: nat
    var expiration: int
    var entries: seq<(K, V)>

    function State(): MemoState<K, V>
      reads this
    {
      MemoState(expiration, entries)
    }

    ghost predicate Valid()
      reads this
    {
      ValidMemo(State(), maxsize)
    }

    /** Decoration at clock reading `now`: the first window starts here, not at the first call. */
    constructor(seconds: int, maxsize: nat, now: int)
      ensures Valid()
      ensures lifetime == seconds && this.maxsize == maxsize
      ensures expiration == now + seconds && entries == []
    {
      lifetime := seconds;
      this.maxsize := maxsize;
      expiration := now + seconds;
      entries := [];
    }

    /** `wrapped_func(*args)` with arguments `key` at clock reading `now`. */
    method Call(key: K, now: int, computed: CallOutcome<V>) returns (result: CallOutcome<V>, invoked: bool)
      requires Valid()
      modifies this
      ensures Valid()
      ensures CallRecord(State(), result, invoked) == Step(old(State()), lifetime, maxsize, key, now, computed)
    {
      if now >= expiration {
        entries := [];
        expiration := now + lifetime;
      }
      result, invoked := LruCall(key, computed);
    }

    /** `func(*args)`: the `lru_cache`-wrapped function on the current table. */
    method LruCall(key: K, computed: CallOutcome<V>) returns (result: CallOutcome<V>, invoked: bool)
      requires Valid()
      modifies this
      ensures Valid()
      ensures CallRecord(State(), result, invoked) == LruStep(old(State()), maxsize, key, computed)
    {
      var i := Find(entries, key);
      if i >= 0 {
        var hit := entries[i];
        MoveToEndKeepsDistinct(entries, i);
        entries := entries[..i] + entries[i + 1..] + [hit];
        result, invoked := Returned(hit.1), false;
      } else {
        result, invoked := computed, true;
        if computed.Returned? && maxsize > 0 {
          StoreKeepsDistinct(entries, maxsize, (key, computed.value));
          if |entries| >= maxsize {
            entries := entries[1..];
          }
          entries := entries + [(key, computed.value)];
        }
      }
    }
  }

  // ---------------------------------------------------------------------
  // JWTVerifyService
  // ---------------------------------------------------------------------

  /** `fetch_jwk` is decorated with `timed_lru_cache(3600)`, whose `maxsize` defaults to 128. */
  const FETCH_JWK_LIFETIME: int := 3600
  const DEFAULT_MAXSIZE: nat := 128

  /** The reply of the key endpoint: its status code and its body parsed as JSON (`None` if it is not JSON). */
  datatype HttpReply = HttpReply(status: int, body: Option<Json>)

  /**
   * `fetch_jwk`: asks `url` for the key set with header `X-Api-Version: v1`;
   * a status other than 200 gives `None`, a 200 body that is not JSON makes
   * `response.json()` raise a `ValueError`.
   */
  function FetchJwk(url: string, get: (string, map<string, string>) -> HttpReply): (r: CallOutcome<Json>)
    ensures get(url, map["X-Api-Version" := "v1"]).status != 200 ==> r == Returned(JNull)
    ensures get(url, map["X-Api-Version" := "v1"]).status == 200 ==>
              (r.Raised? <==> get(url, map["X-Api-Version" := "v1"]).body.None?)
    ensures r.Returned? && get(url, map["X-Api-Version" := "v1"]).status == 200 ==>
              Some(r.value) == get(url, map["X-Api-Version" := "v1"]).body
  {
    var reply := get(url, map["X-Api-Version" := "v1"]);
    if reply.status != 200 then Returned(JNull)
    else match reply.body
      case None => Raised
      case Some(doc) => Returned(doc)
  }

  /**
   * What `jwk.JWKSet.from_json` followed by `jwt.JWT(key=..., jwt=token)` and
   * `json.loads(claims)` do: yield the claims, raise `JWTExpired`, fail to
   * read the key set, or raise another `JWException` or `ValueError`.
   */
  datatype DecodeOutcome = Decoded(claims: Json) | ExpiredToken | MalformedKeySet | RejectedToken

  /** The `(error, claims)` pair `verify` returns; `JNull` stands for `None`. */
  datatype VerifyResult = VerifyResult(error: Option<JWTVerificationError>, claims: Json)

  /** `verify`'s mapping from what `fetch_jwk` gave and how decoding went to its result. */
  function VerifyOutcome(fetched: CallOutcome<Json>, decode: (Json, string) -> DecodeOutcome, token: string)
    : (r: VerifyResult)
    ensures r.error.Some? ==> r.claims == JNull
    ensures r.error == Some(Internal) <==> fetched.Returned? && !Truthy(fetched.value)
    ensures r.error.None? <==> fetched.Returned? && Truthy(fetched.value) && decode(fetched.value, token).Decoded?
    ensures r.error.None? ==> r.claims == decode(fetched.value, token).claims
  {
    match fetched
    case Raised => VerifyResult(Some(Invalid), JNull)
    case Returned(keys) =>
      if !Truthy(keys) then VerifyResult(Some(Internal), JNull)
      else match decode(keys, token)
        case Decoded(claims) => VerifyResult(None, claims)
        case ExpiredToken => VerifyResult(Some(Expired), JNull)
        case MalformedKeySet => VerifyResult(Some(Invalid), JNull)
        case RejectedToken => VerifyResult(Some(Invalid), JNull)
  }

  /**
   * Exactly one of the two components is set, unless the token's claims are
   * the JSON literal `null`: then both read as `None`.
   */
  lemma VerifySetsExactlyOne(fetched: CallOutcome<Json>, decode: (Json, string) -> DecodeOutcome, token: string)
    requires fetched.Returned? && Truthy(fetched.value) ==> decode(fetched.value, token) != Decoded(JNull)
    ensures var r := VerifyOutcome(fetched, decode, token);
            r.error.Some? <==> r.claims == JNull
  {
  }

  /** Expiry is the only failure reported as `EXPIRED`; a malformed key set is `INVALID`, not `INTERNAL`. */
  lemma VerifyErrorKinds(fetched: CallOutcome<Json>, decode: (Json, string) -> DecodeOutcome, token: string)
    ensures var r := VerifyOutcome(fetched, decode, token);
            && (r.error == Some(Expired) <==>
                  fetched.Returned? && Truthy(fetched.value) && decode(fetched.value, token) == ExpiredToken)
            && (fetched.Returned? && Truthy(fetched.value) && decode(fetched.value, token) == MalformedKeySet ==>
                  r.error == Some(Invalid))
            && (fetched.Raised? ==> r.error == Some(Invalid))
  {
  }

  /**
   * A non-200 key response is memoised like any other result: until the
   * window that fetched it expires, every verification fails with
   * `INTERNAL` and the key endpoint is not asked again, whatever other
   * fetches come in between (within `maxsize` distinct services).
   */
  lemma FailedKeyFetchIsMemoised<K>(
    s: MemoState<K, Json>, maxsize: nat, key: K, url: string,
    t1: int, get1: (string, map<string, string>) -> HttpReply, calls: seq<Invocation<K, Json>>,
    t2: int, get2: (string, map<string, string>) -> HttpReply,
    decode: (Json, string) -> DecodeOutcome, token: string)
    requires ValidMemo(s, maxsize)
    requires get1(url, map["X-Api-Version" := "v1"]).status != 200
    requires Step(s, FETCH_JWK_LIFETIME, maxsize, key, t1, FetchJwk(url, get1)).invoked
    requires var window := Step(s, FETCH_JWK_LIFETIME, maxsize, key, t1, FetchJwk(url, get1)).state.expiration;
             (forall i :: 0 <= i < |calls| ==> calls[i].now < window) && t2 < window
    requires |Keys(s.entries) + {key} + CallKeys(calls)| <= maxsize
    ensures var first := Step(s, FETCH_JWK_LIFETIME, maxsize, key, t1, FetchJwk(url, get1));
            var second := Step(Run(first.state, FETCH_JWK_LIFETIME, maxsize, calls), FETCH_JWK_LIFETIME, maxsize,
                               key, t2, FetchJwk(url, get2));
            && VerifyOutcome(first.result, decode, token) == VerifyResult(Some(Internal), JNull)
            && !second.invoked
            && VerifyOutcome(second.result, decode, token) == VerifyResult(Some(Internal), JNull)
  {
    RepeatWithinWindowIsMemoised(s, FETCH_JWK_LIFETIME, maxsize, key, t1, FetchJwk(url, get1),
                                 calls, t2, FetchJwk(url, get2));
  }

  /**
   * A key endpoint that answers 200 with a body that is not JSON makes
   * `fetch_jwk` raise, so `verify` reports `INVALID`; nothing is memoised,
   * and the next call fetches again, even inside the same window.
   */
  lemma RaisedKeyFetchIsRetried<K>(
    s: MemoState<K, Json>, maxsize: nat, key: K, url: string,
    t1: int, get1: (string, map<string, string>) -> HttpReply,
    t2: int, next: CallOutcome<Json>,
    decode: (Json, string) -> DecodeOutcome, token: string)
    requires get1(url, map["X-Api-Version" := "v1"]).status == 200
    requires get1(url, map["X-Api-Version" := "v1"]).body.None?
    requires Step(s, FETCH_JWK_LIFETIME, maxsize, key, t1, FetchJwk(url, get1)).invoked
    ensures var first := Step(s, FETCH_JWK_LIFETIME, maxsize, key, t1, FetchJwk(url, get1));
            && VerifyOutcome(first.result, decode, token) == VerifyResult(Some(Invalid), JNull)
            && Step(first.state, FETCH_JWK_LIFETIME, maxsize, key, t2, next).invoked
  {
    var first := Step(s, FETCH_JWK_LIFETIME, maxsize, key, t1, FetchJwk(url, get1));
    assert first.result == Raised;
    if t1 < s.expiration {
      assert Find(first.state.entries, key) < 0;
    } else {
      assert first.state.entries == [];
    }
  }

  /**
   * `fetch_jwk`'s table is shared by every service: when one service's call
   * finds the window expired, the table is cleared, so no other service's
   * entry survives it.
   */
  lemma ExpiryClearsOtherServices(
    s: MemoState<JWTVerifyService, Json>, maxsize: nat, a: JWTVerifyService, b: JWTVerifyService,
    now: int, computed: CallOutcome<Json>)
    requires now >= s.expiration && a != b
    ensures Memo(Step(s, FETCH_JWK_LIFETIME, maxsize, a, now, computed).state.entries, b).None?
  {
  }

  /** A JWT verification service bound to one key endpoint. */
  class JWTVerifyService {
    const serviceUrl: string
    /** The `timed_lru_cache` state around `fetch_jwk`: one table, keyed by instance, shared by all instances. */
    const fetchJwkCache: TimedLruCache<JWTVerifyService, Json>

    /**
     * `__init__`; `fetchJwkCache` must be the one table the decorator built
     * when the class was defined, the same for every service.
     */
    constructor(url: string, fetchJwkCache: TimedLruCache<JWTVerifyService, Json>)
      requires fetchJwkCache.lifetime == FETCH_JWK_LIFETIME && fetchJwkCache.maxsize == DEFAULT_MAXSIZE
      ensures serviceUrl == url && this.fetchJwkCache == fetchJwkCache
    {
      serviceUrl := url;
      this.fetchJwkCache := fetchJwkCache;
    }

    /**
     * `verify(token)` at clock reading `now`; `get` is how the key endpoint
     * would answer if it were asked now, and `decode` stands for the JOSE
     * library.
     */
    method Verify(token: string, now: int, get: (string, map<string, string>) -> HttpReply,
                  decode: (Json, string) -> DecodeOutcome)
      returns (r: VerifyResult)
      requires fetchJwkCache.Valid()
      modifies fetchJwkCache
      ensures fetchJwkCache.Valid()
      ensures var call := Step(old(fetchJwkCache.State()), fetchJwkCache.lifetime, fetchJwkCache.maxsize,
                               this, now, FetchJwk(serviceUrl, get));
              fetchJwkCache.State() == call.state && r == VerifyOutcome(call.result, decode, token)
    {
      var response, _ := fetchJwkCache.Call(this, now, FetchJwk(serviceUrl, get));
      r := VerifyOutcome(response, decode, token);
    }
  }
}
