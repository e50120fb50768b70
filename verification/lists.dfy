/** The two list operations the screens apply to server records by their `_id`:
    `list.filter(x => x._id !== id)` and `list.find(x => x._id === id)`. */
module Lists {
  import opened Common

  /** `s.filter(x => idOf(x) !== id)`. */
  function RemoveById<T(!new)>(s: seq<T>, idOf: T -> string, id: string): (r: seq<T>)
    ensures |r| <= |s|
    ensures forall x :: x in r <==> x in s && idOf(x) != id
  {
    if s == [] then []
    else if idOf(s[0]) == id then RemoveById(s[1..], idOf, id)
    else [s[0]] + RemoveById(s[1..], idOf, id)
  }

  /** `s.find(x => idOf(x) === id)`: the first record with that id, if any. */
  function FindById<T>(s: seq<T>, idOf: T -> string, id: string): (r: Option<T>)
    ensures r.None? <==> forall i :: 0 <= i < |s| ==> idOf(s[i]) != id
    ensures r.Some? ==> exists i :: 0 <= i < |s| && s[i] == r.value && idOf(s[i]) == id
                                  && forall j :: 0 <= j < i ==> idOf(s[j]) != id
  {
    if s == [] then None
    else if idOf(s[0]) == id then Some(s[0])
    else
      var r := FindById(s[1..], idOf, id);
      FirstMatchInTail(s, idOf, id, r);
      r
  }

  /** A first match in the tail is a first match in the whole list, the head having another id. */
  lemma FirstMatchInTail<T>(s: seq<T>, idOf: T -> string, id: string, r: Option<T>)
    requires s != [] && idOf(s[0]) != id
    requires r.None? <==> forall i :: 0 <= i < |s[1..]| ==> idOf(s[1..][i]) != id
    requires r.Some? ==> exists i :: 0 <= i < |s[1..]| && s[1..][i] == r.value && idOf(s[1..][i]) == id
                                     && forall j :: 0 <= j < i ==> idOf(s[1..][j]) != id
    ensures r.None? <==> forall i :: 0 <= i < |s| ==> idOf(s[i]) != id
    ensures r.Some? ==> exists i :: 0 <= i < |s| && s[i] == r.value && idOf(s[i]) == id
                                  && forall j :: 0 <= j < i ==> idOf(s[j]) != id
  {
    if r.Some? {
      var k :| 0 <= k < |s[1..]| && s[1..][k] == r.value && idOf(s[1..][k]) == id
               && forall j :: 0 <= j < k ==> idOf(s[1..][j]) != id;
      assert s[k + 1] == r.value && idOf(s[k + 1]) == id;
      assert forall j :: 0 <= j < k + 1 ==> idOf(s[j]) != id by {
        forall j | 0 <= j < k + 1 ensures idOf(s[j]) != id {
          if j > 0 { assert s[j] == s[1..][j - 1]; }
        }
      }
    } else {
      forall i | 0 <= i < |s| ensures idOf(s[i]) != id {
        if i > 0 { assert s[i] == s[1..][i - 1]; }
      }
    }
  }

  /** Filtering distributes over concatenation: the records that remain keep
      their relative order. */
  lemma {:induction false} RemoveByIdConcat<T(!new)>(a: seq<T>, b: seq<T>, idOf: T -> string, id: string)
    ensures RemoveById(a + b, idOf, id) == RemoveById(a, idOf, id) + RemoveById(b, idOf, id)
  {
    if a == [] {
      assert a + b == b;
    } else {
      assert (a + b)[0] == a[0];
      assert (a + b)[1..] == a[1..] + b;
      RemoveByIdConcat(a[1..], b, idOf, id);
    }
  }

  /** Removing an id that no record carries leaves the list as it was. */
  lemma {:induction false} RemoveAbsentId<T(!new)>(s: seq<T>, idOf: T -> string, id: string)
    requires forall i :: 0 <= i < |s| ==> idOf(s[i]) != id
    ensures RemoveById(s, idOf, id) == s
  {
    if s != [] {
      assert forall i :: 0 <= i < |s[1..]| ==> idOf(s[1..][i]) != id by {
        forall i | 0 <= i < |s[1..]| ensures idOf(s[1..][i]) != id {
          assert s[1..][i] == s[i + 1];
        }
      }
      RemoveAbsentId(s[1..], idOf, id);
      assert s == [s[0]] + s[1..];
    }
  }

  /** Filtering the same id twice removes nothing more. */
  lemma RemoveByIdIdempotent<T(!new)>(s: seq<T>, idOf: T -> string, id: string)
    ensures RemoveById(RemoveById(s, idOf, id), idOf, id) == RemoveById(s, idOf, id)
  {
    var r := RemoveById(s, idOf, id);
    assert forall i :: 0 <= i < |r| ==> r[i] in r;
    RemoveAbsentId(r, idOf, id);
  }

  /** No two records share an id. */
  predicate UniqueIds<T>(s: seq<T>, idOf: T -> string) {
    forall i, j :: 0 <= i < j < |s| ==> idOf(s[i]) != idOf(s[j])
  }

  /** When ids are unique, removing the id of a listed record removes exactly one record. */
  lemma {:induction false} RemoveUniqueId<T(!new)>(s: seq<T>, idOf: T -> string, k: nat)
    requires UniqueIds(s, idOf) && k < |s|
    ensures |RemoveById(s, idOf, idOf(s[k]))| == |s| - 1
  {
    var id := idOf(s[k]);
    assert forall i :: 1 <= i < |s| ==> s[1..][i - 1] == s[i];
    if k == 0 {
      RemoveAbsentId(s[1..], idOf, id);
    } else {
      RemoveUniqueId(s[1..], idOf, k - 1);
    }
  }
}
