/** The bookmark store the report-detail and bookmark presenters share
    (the `Database` module they import): records kept under their `id`, read
    one at a time or all together, replaced on a second put and deleted by id. */
module BookmarkStore {
  import opened Js

  const KeyPathMessage: string := "Evaluating the object store's key path did not yield a value."
  const NoKeyMessage: string := "No key or key range specified."

  function DataError(message: string): Exception {
    Exception("DataError", message)
  }

  /** The keys the store accepts: strings and numbers. */
  predicate ValidKey(k: Value) {
    k.Str? || k.Num?
  }

  /** The key a record is stored under: its `id`, when it is an object whose `id` is a valid key. */
  function KeyOf(record: Value): (k: Option<Value>)
    ensures k.Some? <==> record.Obj? && ValidKey(Prop(record, "id"))
    ensures k.Some? ==> k.value == Prop(record, "id")
  {
    if record.Obj? && ValidKey(Prop(record, "id")) then Some(Prop(record, "id")) else None
  }

  /** Every stored record has a key, and no two records share one. */
  predicate Consistent(s: seq<Value>) {
    && (forall i :: 0 <= i < |s| ==> KeyOf(s[i]).Some?)
    && (forall i, j :: 0 <= i < j < |s| ==> KeyOf(s[i]) != KeyOf(s[j]))
  }

  /** The record stored under `k`, or `undefined` when there is none. */
  function Lookup(s: seq<Value>, k: Value): (v: Value)
    ensures v != Undefined <==> exists i :: 0 <= i < |s| && KeyOf(s[i]) == Some(k)
    ensures v != Undefined ==> v in s && KeyOf(v) == Some(k)
  {
    if |s| == 0 then Undefined
    else if KeyOf(s[0]) == Some(k) then s[0]
    else Lookup(s[1..], k)
  }

  /** `put`: the record replaces the one stored under its key, or is appended. */
  function Upserted(s: seq<Value>, r: Value, k: Value): seq<Value> {
    if |s| == 0 then [r]
    else if KeyOf(s[0]) == Some(k) then [r] + s[1..]
    else [s[0]] + Upserted(s[1..], r, k)
  }

  /** `delete`: the record stored under `k`, if any, is dropped. */
  function Removed(s: seq<Value>, k: Value): seq<Value> {
    if |s| == 0 then []
    else (if KeyOf(s[0]) == Some(k) then [] else [s[0]]) + Removed(s[1..], k)
  }

  lemma LookupHead(x: Value, t: seq<Value>, k: Value)
    ensures Lookup([x] + t, k) == if KeyOf(x) == Some(k) then x else Lookup(t, k)
  {
    assert ([x] + t)[0] == x && ([x] + t)[1..] == t;
  }

  /** A consistent store holds no second record under its first record's key. */
  lemma TailLacksHeadKey(s: seq<Value>)
    requires Consistent(s) && |s| > 0
    ensures Consistent(s[1..]) && Lookup(s[1..], KeyOf(s[0]).value) == Undefined
  {
    var t := s[1..];
    forall i | 0 <= i < |t| ensures KeyOf(t[i]) != KeyOf(s[0]) {
      assert t[i] == s[i + 1];
    }
  }

  /** `put` makes its key find the record and does not change which record other keys find. */
  lemma {:induction false} UpsertedLookup(s: seq<Value>, r: Value, k: Value, j: Value)
    requires KeyOf(r) == Some(k)
    ensures Lookup(Upserted(s, r, k), j) == if j == k then r else Lookup(s, j)
  {
    if |s| == 0 {
      LookupHead(r, [], j);
      assert Upserted(s, r, k) == [r] + [];
    } else {
      var t := s[1..];
      assert s == [s[0]] + t;
      LookupHead(s[0], t, j);
      if KeyOf(s[0]) == Some(k) {
        LookupHead(r, t, j);
      } else {
        UpsertedLookup(t, r, k, j);
        LookupHead(s[0], Upserted(t, r, k), j);
      }
    }
  }

  /** `put` only keeps records or adds the new one. */
  lemma {:induction false} UpsertedFrom(s: seq<Value>, r: Value, k: Value)
    ensures forall i :: 0 <= i < |Upserted(s, r, k)| ==> Upserted(s, r, k)[i] in s || Upserted(s, r, k)[i] == r
  {
    if |s| > 0 && KeyOf(s[0]) != Some(k) {
      var t := s[1..];
      UpsertedFrom(t, r, k);
      var u, ut := Upserted(s, r, k), Upserted(t, r, k);
      forall i | 0 <= i < |u| ensures u[i] in s || u[i] == r {
        if i > 0 {
          assert u[i] == ut[i - 1];
          assert ut[i - 1] in t || ut[i - 1] == r;
        }
      }
    }
  }

  /** Prepending a keyed record whose key the rest lacks keeps a store consistent. */
  lemma ConsConsistent(x: Value, t: seq<Value>)
    requires Consistent(t) && KeyOf(x).Some?
    requires forall i :: 0 <= i < |t| ==> KeyOf(t[i]) != KeyOf(x)
    ensures Consistent([x] + t)
  {
    var u := [x] + t;
    forall i, j | 0 <= i < j < |u| ensures KeyOf(u[i]) != KeyOf(u[j]) {
      assert u[j] == t[j - 1];
      if i > 0 {
        assert u[i] == t[i - 1];
      }
    }
  }

  lemma {:induction false} UpsertedConsistent(s: seq<Value>, r: Value, k: Value)
    requires Consistent(s) && KeyOf(r) == Some(k)
    ensures Consistent(Upserted(s, r, k))
  {
    if |s| == 0 {
      assert Upserted(s, r, k) == [r];
    } else {
      var t := s[1..];
      TailLacksHeadKey(s);
      if KeyOf(s[0]) == Some(k) {
        forall i | 0 <= i < |t| ensures KeyOf(t[i]) != KeyOf(r) {
          assert t[i] == s[i + 1];
        }
        ConsConsistent(r, t);
      } else {
        UpsertedConsistent(t, r, k);
        UpsertedFrom(t, r, k);
        var ut := Upserted(t, r, k);
        forall i | 0 <= i < |ut| ensures KeyOf(ut[i]) != KeyOf(s[0]) {
          assert ut[i] in t || ut[i] == r;
        }
        ConsConsistent(s[0], ut);
      }
    }
  }

  /** `put` grows the store by one exactly when its key was new. */
  lemma {:induction false} UpsertedSize(s: seq<Value>, r: Value, k: Value)
    ensures |Upserted(s, r, k)| == (if Lookup(s, k) == Undefined then |s| + 1 else |s|)
  {
    if |s| > 0 {
      var t := s[1..];
      assert s == [s[0]] + t;
      LookupHead(s[0], t, k);
      if KeyOf(s[0]) != Some(k) {
        UpsertedSize(t, r, k);
      }
    }
  }

  /** Putting a keyed record: afterwards a read of its key finds it, reads of
      every other key are unchanged, the store stays consistent, and it grows
      by one exactly when the key was new. */
  lemma {:induction false} PutThenGet(s: seq<Value>, r: Value)
    requires Consistent(s) && KeyOf(r).Some?
    ensures var k := KeyOf(r).value;
            var u := Upserted(s, r, k);
            && Consistent(u)
            && Lookup(u, k) == r
            && (forall j :: j != k ==> Lookup(u, j) == Lookup(s, j))
            && |u| == (if Lookup(s, k) == Undefined then |s| + 1 else |s|)
  {
    var k := KeyOf(r).value;
    UpsertedConsistent(s, r, k);
    UpsertedSize(s, r, k);
    forall j ensures Lookup(Upserted(s, r, k), j) == if j == k then r else Lookup(s, j) {
      UpsertedLookup(s, r, k, j);
    }
  }

  /** `delete` does not change which record other keys find, and leaves none under its own key. */
  lemma {:induction false} RemovedLookup(s: seq<Value>, k: Value, j: Value)
    ensures Lookup(Removed(s, k), j) == if j == k then Undefined else Lookup(s, j)
  {
    if |s| > 0 {
      var t := s[1..];
      RemovedLookup(t, k, j);
      assert s == [s[0]] + t;
      LookupHead(s[0], t, j);
      if KeyOf(s[0]) == Some(k) {
        assert Removed(s, k) == Removed(t, k);
      } else {
        assert Removed(s, k) == [s[0]] + Removed(t, k);
        LookupHead(s[0], Removed(t, k), j);
      }
    }
  }

  /** `delete` only drops records. */
  lemma {:induction false} RemovedFrom(s: seq<Value>, k: Value)
    ensures forall i :: 0 <= i < |Removed(s, k)| ==> Removed(s, k)[i] in s
  {
    if |s| > 0 {
      var t := s[1..];
      RemovedFrom(t, k);
      var d, dt := Removed(s, k), Removed(t, k);
      assert d == (if KeyOf(s[0]) == Some(k) then [] else [s[0]]) + dt;
      forall i | 0 <= i < |d| ensures d[i] in s {
        if KeyOf(s[0]) != Some(k) && i == 0 {
          assert d[0] == s[0];
        } else {
          var o := if KeyOf(s[0]) == Some(k) then 0 else 1;
          assert d[i] == dt[i - o];
          assert dt[i - o] in t;
        }
      }
    }
  }

  lemma {:induction false} RemovedConsistent(s: seq<Value>, k: Value)
    requires Consistent(s)
    ensures Consistent(Removed(s, k))
  {
    if |s| > 0 {
      var t := s[1..];
      TailLacksHeadKey(s);
      RemovedConsistent(t, k);
      var d, dt := Removed(s, k), Removed(t, k);
      if KeyOf(s[0]) == Some(k) {
        assert d == dt;
      } else {
        assert d == [s[0]] + dt;
        RemovedFrom(t, k);
        forall i | 0 <= i < |dt| ensures KeyOf(dt[i]) != KeyOf(s[0]) {
          assert dt[i] in t;
        }
        ConsConsistent(s[0], dt);
      }
    }
  }

  /** `delete` shrinks a consistent store by one exactly when the key is present, and otherwise changes nothing. */
  lemma {:induction false} RemovedSize(s: seq<Value>, k: Value)
    requires Consistent(s)
    ensures Lookup(s, k) == Undefined ==> Removed(s, k) == s
    ensures |Removed(s, k)| == (if Lookup(s, k) == Undefined then |s| else |s| - 1)
  {
    if |s| > 0 {
      var t := s[1..];
      TailLacksHeadKey(s);
      RemovedSize(t, k);
      assert s == [s[0]] + t;
      LookupHead(s[0], t, k);
      if KeyOf(s[0]) == Some(k) {
        assert Removed(s, k) == Removed(t, k);
      } else {
        assert Removed(s, k) == [s[0]] + Removed(t, k);
      }
    }
  }

  /** Deleting a key: afterwards a read of it finds nothing, reads of every
      other key are unchanged, the store stays consistent, and it shrinks by
      one exactly when the key was present (otherwise nothing changes). */
  lemma {:induction false} RemoveThenGet(s: seq<Value>, k: Value)
    requires Consistent(s)
    ensures var d := Removed(s, k);
            && Consistent(d)
            && Lookup(d, k) == Undefined
            && (forall j :: j != k ==> Lookup(d, j) == Lookup(s, j))
            && (Lookup(s, k) == Undefined ==> d == s)
            && |d| == (if Lookup(s, k) == Undefined then |s| else |s| - 1)
  {
    RemovedConsistent(s, k);
    RemovedSize(s, k);
    forall j ensures Lookup(Removed(s, k), j) == if j == k then Undefined else Lookup(s, j) {
      RemovedLookup(s, k, j);
    }
  }

  /** `getStoryById(id)`: a store fault, a key error for an invalid id, or the record (`undefined` when absent). */
  function Read(s: seq<Value>, id: Value, fault: Option<Exception>): (r: Completion<Value>)
    ensures fault.Some? ==> r == Abrupt(fault.value)
    ensures fault.None? && !ValidKey(id) ==> r == Abrupt(DataError(NoKeyMessage))
    ensures fault.None? && ValidKey(id) ==> r == Normal(Lookup(s, id))
  {
    if fault.Some? then Abrupt(fault.value)
    else if !ValidKey(id) then Abrupt(DataError(NoKeyMessage))
    else Normal(Lookup(s, id))
  }

  /** `getAllStory()`: a store fault, or every record. */
  function ReadAll(s: seq<Value>, fault: Option<Exception>): Completion<Value> {
    if fault.Some? then Abrupt(fault.value) else Normal(Arr(s))
  }

  /** `putStory(record)`: its outcome (the key, or the error) and the new records;
      a fault or a record without a key leaves the records as they were. */
  function Put(s: seq<Value>, record: Value, fault: Option<Exception>): (p: (Completion<Value>, seq<Value>))
    ensures fault.Some? ==> p == (Abrupt(fault.value), s)
    ensures fault.None? && KeyOf(record).None? ==> p == (Abrupt(DataError(KeyPathMessage)), s)
    ensures fault.None? && KeyOf(record).Some? ==>
              p == (Normal(KeyOf(record).value), Upserted(s, record, KeyOf(record).value))
  {
    if fault.Some? then (Abrupt(fault.value), s)
    else match KeyOf(record)
      case None => (Abrupt(DataError(KeyPathMessage)), s)
      case Some(k) => (Normal(k), Upserted(s, record, k))
  }

  /** `removeStory(id)`: its outcome and the new records; a fault or an
      invalid id leaves the records as they were. */
  function Delete(s: seq<Value>, id: Value, fault: Option<Exception>): (p: (Completion<Value>, seq<Value>))
    ensures fault.Some? ==> p == (Abrupt(fault.value), s)
    ensures fault.None? && !ValidKey(id) ==> p == (Abrupt(DataError(NoKeyMessage)), s)
    ensures fault.None? && ValidKey(id) ==> p == (Normal(Undefined), Removed(s, id))
  {
    if fault.Some? then (Abrupt(fault.value), s)
    else if !ValidKey(id) then (Abrupt(DataError(NoKeyMessage)), s)
    else (Normal(Undefined), Removed(s, id))
  }

  class Database {
    var stories: seq<Value>

    constructor ()
      ensures stories == []
    {
      stories := [];
    }

    predicate Valid()
      reads this
    {
      Consistent(stories)
    }

    function GetStoryById(id: Value, fault: Option<Exception>): Completion<Value>
      reads this
    {
      Read(stories, id, fault)
    }

    function GetAllStory(fault: Option<Exception>): Completion<Value>
      reads this
    {
      ReadAll(stories, fault)
    }

    method PutStory(record: Value, fault: Option<Exception>) returns (r: Completion<Value>)
      requires Valid()
      modifies this
      ensures Valid()
      ensures (r, stories) == Put(old(stories), record, fault)
    {
      var p := Put(stories, record, fault);
      if p.0.Normal? {
        PutThenGet(stories, record);
      }
      r, stories := p.0, p.1;
    }

    method RemoveStory(id: Value, fault: Option<Exception>) returns (r: Completion<Value>)
      requires Valid()
      modifies this
      ensures Valid()
      ensures (r, stories) == Delete(old(stories), id, fault)
    {
      var p := Delete(stories, id, fault);
      RemoveThenGet(stories, id);
      r, stories := p.0, p.1;
    }
  }
}
