/** The two list traversals the application performs on JavaScript arrays:
    a filtering pass that builds one output per kept element (`reduce` or
    `forEach` with a guard), and an `Array.prototype.map` whose callback
    reads a property of each element and so throws on the first nullish one. */
module Lists {
  import opened Js

  /** Index of the first nullish element, or `|s|` when there is none. */
  function FirstNullish(s: seq<Value>): (k: nat)
    ensures k <= |s|
    ensures forall j :: 0 <= j < k ==> !Nullish(s[j])
    ensures k < |s| ==> Nullish(s[k])
  {
    if |s| == 0 then 0
    else if Nullish(s[0]) then 0
    else 1 + FirstNullish(s[1..])
  }

  /** Keep the elements `f` maps to `Some`, in order. Defined from the end of
      the sequence, the way a left-to-right loop extends its accumulator. */
  function FilterMap<T, U>(s: seq<T>, f: T -> Option<U>): seq<U> {
    if |s| == 0 then []
    else FilterMap(s[..|s| - 1], f) + Kept(f(s[|s| - 1]))
  }

  function Kept<U>(o: Option<U>): seq<U> {
    match o
    case Some(u) => [u]
    case None => []
  }

  /** The positions of `s` that `f` keeps, in increasing order. */
  function KeptIndices<T, U>(s: seq<T>, f: T -> Option<U>): seq<nat> {
    if |s| == 0 then []
    else KeptIndices(s[..|s| - 1], f) + (if f(s[|s| - 1]).Some? then [|s| - 1] else [])
  }

  /** One output per kept input, in input order, and nothing else:
      the k-th output is the image of the k-th kept position, those positions
      increase, and a position is kept exactly when `f` keeps its element. */
  lemma {:induction false} FilterMapExact<T, U>(s: seq<T>, f: T -> Option<U>)
    ensures |FilterMap(s, f)| == |KeptIndices(s, f)|
    ensures forall k :: 0 <= k < |KeptIndices(s, f)| ==>
              KeptIndices(s, f)[k] < |s| && f(s[KeptIndices(s, f)[k]]) == Some(FilterMap(s, f)[k])
    ensures forall k, l :: 0 <= k < l < |KeptIndices(s, f)| ==> KeptIndices(s, f)[k] < KeptIndices(s, f)[l]
    ensures forall j :: 0 <= j < |s| ==> (f(s[j]).Some? <==> j in KeptIndices(s, f))
  {
    if |s| > 0 {
      var p := s[..|s| - 1];
      var last := |s| - 1;
      FilterMapExact(p, f);
      var out, ks := FilterMap(s, f), KeptIndices(s, f);
      var pout, pks := FilterMap(p, f), KeptIndices(p, f);
      assert out == pout + Kept(f(s[last]));
      assert ks == pks + (if f(s[last]).Some? then [last] else []);
      forall j | 0 <= j < |p| ensures p[j] == s[j] { }
      forall k | 0 <= k < |ks| ensures ks[k] < |s| && f(s[ks[k]]) == Some(out[k]) {
        if k < |pks| {
          assert ks[k] == pks[k] && out[k] == pout[k];
        }
      }
      forall j | 0 <= j < |s| ensures f(s[j]).Some? <==> j in ks {
        if j < last {
          assert j in ks <==> j in pks;
        }
      }
    }
  }

  /** When `f` keeps every element, nothing is dropped and the order is kept. */
  lemma {:induction false} FilterMapAllKept<T, U>(s: seq<T>, f: T -> Option<U>)
    requires forall j :: 0 <= j < |s| ==> f(s[j]).Some?
    ensures |FilterMap(s, f)| == |s|
    ensures forall j :: 0 <= j < |s| ==> FilterMap(s, f)[j] == f(s[j]).value
  {
    if |s| > 0 {
      var p := s[..|s| - 1];
      forall j | 0 <= j < |p| ensures p[j] == s[j] { }
      FilterMapAllKept(p, f);
      assert FilterMap(s, f) == FilterMap(p, f) + [f(s[|s| - 1]).value];
    }
  }

  /** When `f` keeps no element, nothing is produced. */
  lemma {:induction false} FilterMapNoneKept<T, U>(s: seq<T>, f: T -> Option<U>)
    requires forall j :: 0 <= j < |s| ==> f(s[j]).None?
    ensures FilterMap(s, f) == []
  {
    if |s| > 0 {
      var p := s[..|s| - 1];
      forall j | 0 <= j < |p| ensures p[j] == s[j] { }
      FilterMapNoneKept(p, f);
    }
  }

  /** `s.map(f)` where `f` first reads property `key` of its argument: the
      read error of the first nullish element, or every image in order. */
  function MapOrThrow<U>(s: seq<Value>, key: string, f: Value -> U): (r: Completion<seq<U>>)
    ensures r.Normal? <==> FirstNullish(s) == |s|
    ensures r.Normal? ==> |r.value| == |s| && forall i :: 0 <= i < |s| ==> r.value[i] == f(s[i])
    ensures r.Abrupt? ==> FirstNullish(s) < |s| && r.exc == ReadError(s[FirstNullish(s)], key)
  {
    if |s| == 0 then Normal([])
    else if Nullish(s[0]) then Abrupt(ReadError(s[0], key))
    else
      match MapOrThrow(s[1..], key, f)
      case Normal(rest) => Normal([f(s[0])] + rest)
      case Abrupt(e) => Abrupt(e)
  }
}
