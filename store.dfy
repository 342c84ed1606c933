/**
  The Redis lists the listener fills and the aggregation task drains: one list
  per key, LPUSH at the head, LTRIM to positions 0..cap, LRANGE of the whole
  list, DEL of the key. A missing key reads as the empty list.
 */
module Store {
  import opened Common

  type Lists = map<string, seq<Trade>>

  /** The list stored under `key`; Redis answers an absent key with []. */
  function Lookup(lists: Lists, key: string): (l: seq<Trade>)
    ensures key !in lists ==> l == []
  {
    if key in lists then lists[key] else []
  }

  /** `LTRIM key 0 cap`: keep positions 0..cap inclusive. */
  function Trim(l: seq<Trade>, cap: nat): (r: seq<Trade>)
    ensures |r| == if |l| <= cap + 1 then |l| else cap + 1
    ensures r <= l
  {
    if |l| <= cap + 1 then l else l[..cap + 1]
  }

  /** LPUSH of `t` under `key` followed by `LTRIM key 0 cap`. */
  function Pushed(lists: Lists, key: string, t: Trade, cap: nat): (r: Lists)
    ensures r.Keys == lists.Keys + {key}
    ensures forall k :: k in lists && k != key ==> r[k] == lists[k]
    ensures 1 <= |r[key]| <= cap + 1 && r[key][0] == t
    ensures r[key][1..] <= Lookup(lists, key)
    ensures |Lookup(lists, key)| <= cap ==> r[key] == [t] + Lookup(lists, key)
    ensures |r[key]| == if |Lookup(lists, key)| <= cap then |Lookup(lists, key)| + 1 else cap + 1
  {
    lists[key := Trim([t] + Lookup(lists, key), cap)]
  }

  /** The trades of `ts` (oldest first) in the order LPUSH leaves them: newest first. */
  function NewestFirst(ts: seq<Trade>): (r: seq<Trade>)
    ensures |r| == |ts|
    ensures forall i :: 0 <= i < |ts| ==> r[i] == ts[|ts| - 1 - i]
  {
    if ts == [] then [] else [ts[|ts| - 1]] + NewestFirst(ts[..|ts| - 1])
  }

  /** The list after pushing each of `ts`, oldest first, onto `l`. */
  function PushAll(l: seq<Trade>, ts: seq<Trade>, cap: nat): seq<Trade>
    decreases |ts|
  {
    if ts == [] then l else PushAll(Trim([ts[0]] + l, cap), ts[1..], cap)
  }

  /** Pushing two runs of trades is pushing their concatenation. */
  lemma {:induction false} PushAllConcat(l: seq<Trade>, a: seq<Trade>, b: seq<Trade>, cap: nat)
    ensures PushAll(PushAll(l, a, cap), b, cap) == PushAll(l, a + b, cap)
    decreases |a|
  {
    if a == [] {
      assert a + b == b;
    } else {
      assert (a + b)[0] == a[0] && (a + b)[1..] == a[1..] + b;
      PushAllConcat(Trim([a[0]] + l, cap), a[1..], b, cap);
    }
  }

  /** Trimming the older part first does not change what a later trim keeps. */
  lemma TrimOfTrimmedTail(a: seq<Trade>, b: seq<Trade>, cap: nat)
    ensures Trim(a + Trim(b, cap), cap) == Trim(a + b, cap)
  {
    if |b| > cap + 1 {
      var n := if |a| + cap + 1 <= cap + 1 then |a| + cap + 1 else cap + 1;
      assert Trim(a + Trim(b, cap), cap) == (a + b[..cap + 1])[..n];
      assert (a + b[..cap + 1])[..n] == (a + b)[..n];
    }
  }

  /** The first trade pushed ends up last. */
  lemma {:induction false} NewestFirstCons(ts: seq<Trade>)
    requires ts != []
    ensures NewestFirst(ts) == NewestFirst(ts[1..]) + [ts[0]]
    decreases |ts|
  {
    var n := |ts|;
    if n == 1 {
      assert ts[1..] == [];
    } else {
      var init := ts[..n - 1];
      NewestFirstCons(init);
      assert ts[1..][..n - 2] == init[1..];
      assert ts[1..][n - 2] == ts[n - 1];
      AppendAssoc([ts[n - 1]], NewestFirst(init[1..]), [ts[0]]);
    }
  }

  /** A buffer that already respects the cap keeps, after any run of pushes,
      exactly the newest `cap + 1` of everything pushed onto it, newest first. */
  lemma {:induction false} PushAllKeepsNewest(l: seq<Trade>, ts: seq<Trade>, cap: nat)
    requires |l| <= cap + 1
    ensures PushAll(l, ts, cap) == Trim(NewestFirst(ts) + l, cap)
    decreases |ts|
  {
    if ts == [] {
    } else {
      var l' := Trim([ts[0]] + l, cap);
      PushAllKeepsNewest(l', ts[1..], cap);
      TrimOfTrimmedTail(NewestFirst(ts[1..]), [ts[0]] + l, cap);
      NewestFirstCons(ts);
      AppendAssoc(NewestFirst(ts[1..]), [ts[0]], l);
    }
  }

  /** Starting from an empty buffer, the list holds min(|ts|, cap + 1) trades,
      and position i holds the i-th newest trade pushed. */
  lemma PushAllFromEmpty(ts: seq<Trade>, cap: nat)
    ensures var r := PushAll([], ts, cap);
      && |r| == (if |ts| <= cap + 1 then |ts| else cap + 1)
      && forall i :: 0 <= i < |r| ==> r[i] == ts[|ts| - 1 - i]
  {
    PushAllKeepsNewest([], ts, cap);
    assert NewestFirst(ts) + [] == NewestFirst(ts);
  }

  /** Redis deletes a list that becomes empty, so no key maps to []. */
  ghost predicate NoEmptyList(lists: Lists)
  {
    forall k :: k in lists ==> lists[k] != []
  }

  /** The Redis server's lists. */
  class TradeStore {
    var lists: Lists

    ghost predicate Valid()
      reads this
    {
      NoEmptyList(lists)
    }

    constructor ()
      ensures Valid() && lists == map[]
    {
      lists := map[];
    }

    /** `LPUSH key t`: the new trade goes to the head; other keys are untouched. */
    method LPush(key: string, t: Trade)
      requires Valid()
      modifies this
      ensures Valid()
      ensures lists == old(lists)[key := [t] + Lookup(old(lists), key)]
    {
      lists := lists[key := [t] + Lookup(lists, key)];
    }

    /** `LTRIM key 0 stop`: keep positions 0..stop; an absent key stays absent. */
    method LTrim(key: string, stop: nat)
      requires Valid()
      modifies this
      ensures Valid()
      ensures lists == if key in old(lists) then old(lists)[key := Trim(old(lists)[key], stop)] else old(lists)
    {
      if key in lists {
        lists := lists[key := Trim(lists[key], stop)];
      }
    }

    /** `LRANGE key 0 -1`: the whole list, head first. */
    method LRange(key: string) returns (l: seq<Trade>)
      ensures l == Lookup(lists, key)
    {
      l := Lookup(lists, key);
    }

    /** `DEL key`. */
    method Delete(key: string)
      requires Valid()
      modifies this
      ensures Valid()
      ensures lists == old(lists) - {key}
    {
      lists := lists - {key};
    }
  }
}
