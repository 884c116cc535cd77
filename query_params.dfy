/** `URLSearchParams` as the services use it: a list of key/value pairs that
    `append` extends at the end, and the truthiness tests that decide whether
    a filter is appended at all. Percent-encoding is not modelled: keys and
    values are kept as they are. */
module QueryParams {
  import opened Common
  import opened Text

  type Param = (string, string)

  /** The value a numeric filter contributes: its decimal text, unless it is
      missing or 0 (both falsy). */
  function NumberParam(v: Option<int>): (r: Option<string>)
    ensures r.Some? <==> v.Some? && v.value != 0
    ensures r.Some? ==> r.value == IntToString(v.value)
  {
    if v.Some? && v.value != 0 then Some(IntToString(v.value)) else None
  }

  /** The value a text filter contributes: itself, unless it is missing or
      empty. */
  function TextParam(v: Option<string>): (r: Option<string>)
    ensures r.Some? <==> v.Some? && v.value != ""
    ensures r.Some? ==> r.value == v.value
  {
    if v.Some? && v.value != "" then v else None
  }

  /** A run of `if (v) params.append(key, v)` lines: the keys whose value is
      present, in the order of the lines. */
  function Pick(keys: seq<string>, vals: seq<Option<string>>): (r: seq<Param>)
    requires |keys| == |vals|
    ensures |r| <= |keys|
    ensures forall i :: 0 <= i < |r| ==> r[i].0 in keys
  {
    if keys == [] then []
    else
      var n := |keys| - 1;
      Pick(keys[..n], vals[..n]) + (if vals[n].Some? then [(keys[n], vals[n].value)] else [])
  }

  /** The pair one line appends: none when the value is absent. */
  function Line(key: string, v: Option<string>): (r: seq<Param>)
    ensures v.Some? ==> r == [(key, v.value)]
    ensures v.None? ==> r == []
  {
    if v.Some? then [(key, v.value)] else []
  }

  /** One `if (v) params.append(key, v)` line, with the truthiness test
      already folded into `v` (see `NumberParam` and `TextParam`). */
  method AppendIfPresent(params: seq<Param>, key: string, v: Option<string>) returns (r: seq<Param>)
    ensures r == params + Line(key, v)
  {
    r := params;
    if v.Some? {
      r := r + [(key, v.value)];
    }
  }

  function KeysOf(ps: seq<Param>): (ks: seq<string>)
    ensures |ks| == |ps| && forall i :: 0 <= i < |ps| ==> ks[i] == ps[i].0
  {
    seq(|ps|, i requires 0 <= i < |ps| => ps[i].0)
  }

  predicate Distinct(ks: seq<string>)
  {
    forall i, j :: 0 <= i < j < |ks| ==> ks[i] != ks[j]
  }

  /** Where `k` sits in `keys`. */
  function IndexOf(keys: seq<string>, k: string): (i: nat)
    requires k in keys
    ensures i < |keys| && keys[i] == k
    ensures forall j :: 0 <= j < i ==> keys[j] != k
  {
    if keys[0] == k then 0 else 1 + IndexOf(keys[1..], k)
  }

  /** One more line: the lines so far, then the new line's pair if its value
      is present. */
  lemma PickSnoc(keys: seq<string>, vals: seq<Option<string>>, key: string, v: Option<string>)
    requires |keys| == |vals|
    ensures Pick(keys + [key], vals + [v]) == Pick(keys, vals) + Line(key, v)
  {
    assert (keys + [key])[..|keys|] == keys;
    assert (vals + [v])[..|vals|] == vals;
  }

  /** A key found in a prefix sits at the same place in the whole list. */
  lemma IndexOfPrefix(keys: seq<string>, n: nat, k: string)
    requires n <= |keys| && k in keys[..n]
    ensures IndexOf(keys, k) == IndexOf(keys[..n], k)
  {
    assert keys[IndexOf(keys[..n], k)] == k;
  }

  /** The parameters keep the order of the lines. */
  lemma {:induction false} PickOrdered(keys: seq<string>, vals: seq<Option<string>>)
    requires |keys| == |vals| && Distinct(keys)
    ensures forall i, j :: 0 <= i < j < |Pick(keys, vals)| ==>
      IndexOf(keys, Pick(keys, vals)[i].0) < IndexOf(keys, Pick(keys, vals)[j].0)
  {
    if keys != [] {
      var n := |keys| - 1;
      var init := keys[..n];
      PickOrdered(init, vals[..n]);
      var p := Pick(init, vals[..n]);
      var r := Pick(keys, vals);
      assert r == p + (if vals[n].Some? then [(keys[n], vals[n].value)] else []);
      forall i | 0 <= i < |p|
        ensures IndexOf(keys, p[i].0) == IndexOf(init, p[i].0) < n
      {
        IndexOfPrefix(keys, n, p[i].0);
      }
      assert IndexOf(keys, keys[n]) == n;
      forall i, j | 0 <= i < j < |r|
        ensures IndexOf(keys, r[i].0) < IndexOf(keys, r[j].0)
      {
        assert r[i] == p[i];
        if j < |p| {
          assert r[j] == p[j];
          assert IndexOf(init, p[i].0) < IndexOf(init, p[j].0);
        } else {
          assert r[j].0 == keys[n];
        }
      }
    }
  }

  /** So, with distinct keys, no key is appended twice. */
  lemma PickDistinct(keys: seq<string>, vals: seq<Option<string>>)
    requires |keys| == |vals| && Distinct(keys)
    ensures Distinct(KeysOf(Pick(keys, vals)))
  {
    PickOrdered(keys, vals);
  }

  /** With distinct keys, a key is present exactly when its line's value is,
      and then with that value. */
  lemma {:induction false} PickPresence(keys: seq<string>, vals: seq<Option<string>>, j: nat)
    requires |keys| == |vals| && Distinct(keys) && j < |keys|
    ensures keys[j] in KeysOf(Pick(keys, vals)) <==> vals[j].Some?
    ensures vals[j].Some? ==> (keys[j], vals[j].value) in Pick(keys, vals)
  {
    var n := |keys| - 1;
    var init, vinit := keys[..n], vals[..n];
    var p := Pick(init, vinit);
    var tail := if vals[n].Some? then [(keys[n], vals[n].value)] else [];
    assert Pick(keys, vals) == p + tail;
    if j < n {
      PickPresence(init, vinit, j);
      assert keys[j] != keys[n];
      assert KeysOf(p + tail) == KeysOf(p) + KeysOf(tail);
    } else {
      assert keys[n] !in init;
      assert keys[n] !in KeysOf(p);
      assert KeysOf(tail) == if vals[n].Some? then [keys[n]] else [];
      assert KeysOf(p + tail) == KeysOf(p) + KeysOf(tail);
    }
  }

  /** No present value, no parameters. */
  lemma {:induction false} PickNothing(keys: seq<string>, vals: seq<Option<string>>)
    requires |keys| == |vals|
    requires forall i :: 0 <= i < |vals| ==> vals[i].None?
    ensures Pick(keys, vals) == []
  {
    if keys != [] {
      PickNothing(keys[..|keys| - 1], vals[..|vals| - 1]);
    }
  }

  /** `params.toString()` without percent-encoding: `key=value` pairs joined
      by `&`. */
  function QueryString(ps: seq<Param>): string
  {
    Join(seq(|ps|, i requires 0 <= i < |ps| => ps[i].0 + "=" + ps[i].1), "&")
  }

  /** The keys of the statistics queries, which send an optional date
      range. */
  const DateRangeKeys: seq<string> := ["startDate", "endDate"]

  /** A statistics query carries at most the two dates, start before end,
      each exactly when it is given and non-empty. */
  lemma DateRangeShape(startDate: Option<string>, endDate: Option<string>)
    ensures var ps := Pick(DateRangeKeys, [TextParam(startDate), TextParam(endDate)]);
      && |ps| <= 2
      && (startDate.Some? && startDate.value != "" ==> |ps| >= 1 && ps[0] == ("startDate", startDate.value))
      && (endDate.Some? && endDate.value != "" ==> |ps| >= 1 && ps[|ps| - 1] == ("endDate", endDate.value))
      && (TextParam(startDate).None? && TextParam(endDate).None? ==> ps == [])
  {
    PickSnoc([], [], "startDate", TextParam(startDate));
    PickSnoc(["startDate"], [TextParam(startDate)], "endDate", TextParam(endDate));
  }
}
