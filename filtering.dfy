/**
 * `CMClient._search`: the client-side filter applied to list-shaped bodies.
 *
 * The source scans every record and, inside that, every (key, value) pair of the
 * filter in the dict's insertion order. A record is appended once for EACH pair
 * it matches, so a filter with several keys gives an OR with repetitions, not an
 * AND. A record that lacks any filter key aborts the whole scan with
 * `(False, None)`, and so does an empty result.
 */
module Filtering {
  import opened Wrappers
  import opened Values

  /** A filter dict, as its (key, value) items in insertion order. */
  type Filter = seq<(string, Json)>

  /** Whether record `d` matches the filter pair `p`: the key is present and `d[key] == val`. */
  predicate PairMatches(d: Record, p: (string, Json))
  {
    p.0 in d && PyEq(d[p.0], p.1)
  }

  /** How many pairs of `f` record `d` matches. */
  function MatchCount(d: Record, f: Filter): nat
  {
    if f == [] then 0
    else MatchCount(d, f[..|f| - 1]) + (if PairMatches(d, f[|f| - 1]) then 1 else 0)
  }

  /** `n` copies of `d`. */
  function Repeat(d: Record, n: nat): (r: seq<Record>)
    ensures |r| == n && forall k :: 0 <= k < n ==> r[k] == d
  {
    if n == 0 then [] else Repeat(d, n - 1) + [d]
  }

  /** What the scan appends when no key is missing: each record, once per pair it matches, in input order. */
  function Matches(rs: seq<Record>, f: Filter): seq<Record>
  {
    if rs == [] then [] else Matches(rs[..|rs| - 1], f) + Repeat(rs[|rs| - 1], MatchCount(rs[|rs| - 1], f))
  }

  /** Every record holds every filter key, so the scan never hits a `KeyError`. */
  predicate AllHaveKeys(rs: seq<Record>, f: Filter)
  {
    forall i, j :: 0 <= i < |rs| && 0 <= j < |f| ==> f[j].0 in rs[i]
  }

  /** The outcome of `_search`: `None` for `(False, None)`, `Some(xs)` for `(True, xs)`. */
  function Search(rs: seq<Record>, f: Filter): Option<seq<Record>>
  {
    if AllHaveKeys(rs, f) && Matches(rs, f) != [] then Some(Matches(rs, f)) else None
  }

  /** `_search` as the source runs it: nested loops, appending matches, returning early on a missing key. */
  method SearchRecords(dictionary: seq<Record>, filterdict: Filter) returns (res: Option<seq<Record>>)
    ensures res.Some? <==> AllHaveKeys(dictionary, filterdict) && Matches(dictionary, filterdict) != []
    ensures res.Some? ==> res.value == Matches(dictionary, filterdict)
  {
    var results: seq<Record> := [];
    var i := 0;
    while i < |dictionary|
      invariant 0 <= i <= |dictionary|
      invariant AllHaveKeys(dictionary[..i], filterdict)
      invariant results == Matches(dictionary[..i], filterdict)
    {
      var d := dictionary[i];
      var j := 0;
      while j < |filterdict|
        invariant 0 <= j <= |filterdict|
        invariant forall m :: 0 <= m < j ==> filterdict[m].0 in d
        invariant results == Matches(dictionary[..i], filterdict) + Repeat(d, MatchCount(d, filterdict[..j]))
      {
        var (key, val) := filterdict[j];
        if key !in d {
          return None;
        }
        if PyEq(d[key], val) {
          results := results + [d];
        }
        assert filterdict[..j + 1][..j] == filterdict[..j];
        j := j + 1;
      }
      assert filterdict[..j] == filterdict;
      assert dictionary[..i + 1][..i] == dictionary[..i];
      i := i + 1;
    }
    assert dictionary[..i] == dictionary;
    if results != [] {
      return Some(results);
    } else {
      return None;
    }
  }

  lemma {:induction false} RepeatCount(d: Record, n: nat, r: Record)
    ensures multiset(Repeat(d, n))[r] == if d == r then n else 0
  {
    if n > 0 {
      RepeatCount(d, n - 1, r);
    }
  }

  /** Each record occurs in the matches once per filter pair it matches, times its occurrences in the input. */
  lemma {:induction false} MatchesMultiplicity(rs: seq<Record>, f: Filter, r: Record)
    ensures multiset(Matches(rs, f))[r] == multiset(rs)[r] * MatchCount(r, f)
  {
    if rs != [] {
      var init, last := rs[..|rs| - 1], rs[|rs| - 1];
      MatchesMultiplicity(init, f, r);
      RepeatCount(last, MatchCount(last, f), r);
      assert rs == init + [last];
      var a := multiset(init)[r];
      if last == r {
        assert multiset(rs)[r] == a + 1;
        assert (a + 1) * MatchCount(r, f) == a * MatchCount(r, f) + MatchCount(r, f);
      } else {
        assert multiset(rs)[r] == a;
      }
    }
  }

  /** A record matches at least one pair exactly when its count is positive. */
  lemma {:induction false} MatchCountPositive(d: Record, f: Filter)
    ensures MatchCount(d, f) > 0 <==> exists j :: 0 <= j < |f| && PairMatches(d, f[j])
  {
    if f != [] {
      var init := f[..|f| - 1];
      MatchCountPositive(d, init);
      if exists j :: 0 <= j < |init| && PairMatches(d, init[j]) {
        var j :| 0 <= j < |init| && PairMatches(d, init[j]);
        assert f[j] == init[j];
      }
      if exists j :: 0 <= j < |f| && PairMatches(d, f[j]) {
        var j :| 0 <= j < |f| && PairMatches(d, f[j]);
        if j < |init| {
          assert init[j] == f[j];
        }
      }
    }
  }

  /** Every match is an input record that meets at least one filter pair, and every such record is a match. */
  lemma MatchesMembership(rs: seq<Record>, f: Filter, r: Record)
    ensures r in Matches(rs, f) <==> r in rs && exists j :: 0 <= j < |f| && PairMatches(r, f[j])
  {
    MatchesMultiplicity(rs, f, r);
    MatchCountPositive(r, f);
    assert r in Matches(rs, f) <==> multiset(Matches(rs, f))[r] > 0;
    assert r in rs <==> multiset(rs)[r] > 0;
  }

  /**
   * The result of `_search`: `(True, xs)` exactly when no record lacks a filter
   * key and something matched, and then `xs` holds each input record once per
   * filter pair it matches.
   */
  lemma SearchCharacterization(rs: seq<Record>, f: Filter)
    ensures Search(rs, f).Some? <==>
      AllHaveKeys(rs, f) && exists i, j :: 0 <= i < |rs| && 0 <= j < |f| && PairMatches(rs[i], f[j])
    ensures Search(rs, f).Some? ==>
      (Search(rs, f).value != [] &&
       forall r :: multiset(Search(rs, f).value)[r] == multiset(rs)[r] * MatchCount(r, f))
  {
    if exists i, j :: 0 <= i < |rs| && 0 <= j < |f| && PairMatches(rs[i], f[j]) {
      var i, j :| 0 <= i < |rs| && 0 <= j < |f| && PairMatches(rs[i], f[j]);
      MatchesMembership(rs, f, rs[i]);
    }
    if Matches(rs, f) != [] {
      var r := Matches(rs, f)[0];
      MatchesMembership(rs, f, r);
      var i :| 0 <= i < |rs| && rs[i] == r;
    }
    forall r ensures multiset(Matches(rs, f))[r] == multiset(rs)[r] * MatchCount(r, f) {
      MatchesMultiplicity(rs, f, r);
    }
  }

  /** A record lacking any filter key makes the whole search fail, whatever earlier records matched. */
  lemma MissingKeyAborts(rs: seq<Record>, f: Filter, i: nat, j: nat)
    requires i < |rs| && j < |f| && f[j].0 !in rs[i]
    ensures Search(rs, f) == None
  {
  }

  /** An empty filter dict, or an empty list of records, gives `(False, None)`. */
  lemma {:induction false} EmptyFilterOrInputFails(rs: seq<Record>, f: Filter)
    requires rs == [] || f == []
    ensures Search(rs, f) == None
  {
    if rs != [] {
      MatchesEmptyFilter(rs);
    }
  }

  lemma {:induction false} MatchesEmptyFilter(rs: seq<Record>)
    ensures Matches(rs, []) == []
  {
    if rs != [] {
      MatchesEmptyFilter(rs[..|rs| - 1]);
    }
  }

  /** The records with `d[key] == val`, in input order: the reference for a one-key filter. */
  function KeepWhere(rs: seq<Record>, key: string, val: Json): (r: seq<Record>)
    ensures |r| <= |rs|
  {
    if rs == [] then []
    else if key in rs[0] && PyEq(rs[0][key], val) then [rs[0]] + KeepWhere(rs[1..], key, val)
    else KeepWhere(rs[1..], key, val)
  }

  lemma {:induction false} KeepWhereSnoc(rs: seq<Record>, d: Record, key: string, val: Json)
    ensures KeepWhere(rs + [d], key, val) ==
      KeepWhere(rs, key, val) + (if key in d && PyEq(d[key], val) then [d] else [])
  {
    if rs != [] {
      assert (rs + [d])[1..] == rs[1..] + [d];
      KeepWhereSnoc(rs[1..], d, key, val);
    }
  }

  /** With one filter key, the matches are exactly the records whose value at that key equals the filter value. */
  lemma {:induction false} MatchesOneKey(rs: seq<Record>, key: string, val: Json)
    ensures Matches(rs, [(key, val)]) == KeepWhere(rs, key, val)
  {
    if rs != [] {
      var init, last := rs[..|rs| - 1], rs[|rs| - 1];
      MatchesOneKey(init, key, val);
      assert [(key, val)][..0] == [];
      assert MatchCount(last, [(key, val)]) == if key in last && PyEq(last[key], val) then 1 else 0;
      assert Repeat(last, 1) == [last];
      assert rs == init + [last];
      KeepWhereSnoc(init, last, key, val);
    }
  }

  /** `_search(records, {key: val})`: the records with `d[key] == val` in input order, unless one lacks `key`. */
  lemma OneKeySearch(rs: seq<Record>, key: string, val: Json)
    ensures Search(rs, [(key, val)]) ==
      if (forall i :: 0 <= i < |rs| ==> key in rs[i]) && KeepWhere(rs, key, val) != []
      then Some(KeepWhere(rs, key, val)) else None
  {
    MatchesOneKey(rs, key, val);
    if forall i :: 0 <= i < |rs| ==> key in rs[i] {
      assert AllHaveKeys(rs, [(key, val)]);
    }
  }

  /**
   * Several keys give an OR with repetitions: a record meeting only one of two pairs
   * is returned, and a record meeting both is returned twice.
   */
  lemma TwoKeysAreOrWithRepeats()
    ensures var f := [("pair", JStr("BTCEUR")), ("side", JStr("buy"))];
      var one := map["pair" := JStr("BTCEUR"), "side" := JStr("sell")];
      var both := map["pair" := JStr("BTCEUR"), "side" := JStr("buy")];
      Search([one], f) == Some([one]) && Search([both], f) == Some([both, both])
  {
    var f := [("pair", JStr("BTCEUR")), ("side", JStr("buy"))];
    var one := map["pair" := JStr("BTCEUR"), "side" := JStr("sell")];
    var both := map["pair" := JStr("BTCEUR"), "side" := JStr("buy")];
    SingleRecordSearch(one, f);
    SingleRecordSearch(both, f);
    TwoPairCount(one, f);
    TwoPairCount(both, f);
    assert Repeat(one, 1) == [one];
    assert Repeat(both, 2) == [both, both];
  }

  lemma SingleRecordSearch(d: Record, f: Filter)
    requires forall j :: 0 <= j < |f| ==> f[j].0 in d
    requires MatchCount(d, f) > 0
    ensures Search([d], f) == Some(Repeat(d, MatchCount(d, f)))
  {
    assert [d][..0] == [];
    assert Matches([d], f) == Repeat(d, MatchCount(d, f));
  }

  lemma TwoPairCount(d: Record, f: Filter)
    requires |f| == 2
    ensures MatchCount(d, f) == (if PairMatches(d, f[0]) then 1 else 0) + (if PairMatches(d, f[1]) then 1 else 0)
  {
    assert f[..1] == [f[0]] && [f[0]][..0] == [];
    assert f[..|f| - 1] == [f[0]] && f[|f| - 1] == f[1];
    assert MatchCount(d, [f[0]]) == 0 + (if PairMatches(d, f[0]) then 1 else 0);
  }
}
