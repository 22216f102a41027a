/**
 * Text helpers for the request bodies and paths the client builds: splitting on a
 * separator, joining with one, and `key=value&key=value` form strings.
 */
module Forms {

  /** The position of the first `c` in `s`. */
  function IndexOf(s: string, c: char): (i: nat)
    requires c in s
    ensures i < |s| && s[i] == c && c !in s[..i]
  {
    if s[0] == c then 0 else 1 + IndexOf(s[1..], c)
  }

  lemma {:induction false} IndexOfAfter(a: string, c: char, b: string)
    requires c !in a
    ensures c in a + [c] + b && IndexOf(a + [c] + b, c) == |a|
  {
    var s := a + [c] + b;
    assert s[|a|] == c;
    if a != [] {
      assert s[1..] == a[1..] + [c] + b;
      IndexOfAfter(a[1..], c, b);
    }
  }

  /** `s.split(sep)`: the pieces between the separators, in order. */
  function Split(s: string, sep: char): (parts: seq<string>)
    ensures |parts| > 0
    ensures forall k :: 0 <= k < |parts| ==> sep !in parts[k]
    decreases |s|
  {
    if sep !in s then [s]
    else
      var i := IndexOf(s, sep);
      [s[..i]] + Split(s[i + 1..], sep)
  }

  /** `sep.join(parts)`. */
  function Join(parts: seq<string>, sep: char): string
    requires |parts| > 0
  {
    if |parts| == 1 then parts[0] else parts[0] + [sep] + Join(parts[1..], sep)
  }

  lemma JoinCons(a: string, rest: seq<string>, sep: char)
    requires |rest| > 0
    ensures Join([a] + rest, sep) == a + [sep] + Join(rest, sep)
  {
    assert ([a] + rest)[1..] == rest;
  }

  lemma Join4(a: string, b: string, c: string, d: string, sep: char)
    ensures Join([a, b, c, d], sep) == a + [sep] + b + [sep] + c + [sep] + d
  {
    JoinCons(c, [d], sep);
    assert [c, d] == [c] + [d];
    JoinCons(b, [c, d], sep);
    assert [b, c, d] == [b] + [c, d];
    JoinCons(a, [b, c, d], sep);
    assert [a, b, c, d] == [a] + [b, c, d];
  }

  lemma Join8(a: string, b: string, c: string, d: string, e: string, f: string, g: string, h: string, sep: char)
    ensures Join([a, b, c, d, e, f, g, h], sep) ==
      a + [sep] + b + [sep] + c + [sep] + d + [sep] + e + [sep] + f + [sep] + g + [sep] + h
  {
    var s := [sep];
    Join4(e, f, g, h, sep);
    var j4 := e + s + f + s + g + s + h;
    JoinCons(d, [e, f, g, h], sep);
    assert [d, e, f, g, h] == [d] + [e, f, g, h];
    assert Join([d, e, f, g, h], sep) == d + s + j4;
    JoinCons(c, [d, e, f, g, h], sep);
    assert [c, d, e, f, g, h] == [c] + [d, e, f, g, h];
    assert Join([c, d, e, f, g, h], sep) == c + s + (d + s + j4);
    JoinCons(b, [c, d, e, f, g, h], sep);
    assert [b, c, d, e, f, g, h] == [b] + [c, d, e, f, g, h];
    assert Join([b, c, d, e, f, g, h], sep) == b + s + (c + s + (d + s + j4));
    JoinCons(a, [b, c, d, e, f, g, h], sep);
    assert [a, b, c, d, e, f, g, h] == [a] + [b, c, d, e, f, g, h];
    assert Join([a, b, c, d, e, f, g, h], sep) == a + s + (b + s + (c + s + (d + s + j4)));
    assert a + s + (b + s + (c + s + (d + s + j4))) == a + s + b + s + c + s + d + s + j4;
    assert a + s + b + s + c + s + d + s + j4 == a + s + b + s + c + s + d + s + e + s + f + s + g + s + h;
  }

  lemma {:induction false} SplitJoin(parts: seq<string>, sep: char)
    requires |parts| > 0
    requires forall k :: 0 <= k < |parts| ==> sep !in parts[k]
    ensures Split(Join(parts, sep), sep) == parts
  {
    if |parts| > 1 {
      var rest := Join(parts[1..], sep);
      IndexOfAfter(parts[0], sep, rest);
      var s := parts[0] + [sep] + rest;
      assert s[..|parts[0]|] == parts[0];
      assert s[|parts[0]| + 1..] == rest;
      SplitJoin(parts[1..], sep);
    }
  }

  lemma {:induction false} JoinSplit(s: string, sep: char)
    ensures Join(Split(s, sep), sep) == s
    decreases |s|
  {
    if sep in s {
      var i := IndexOf(s, sep);
      JoinSplit(s[i + 1..], sep);
      assert s == s[..i] + [sep] + s[i + 1..];
    }
  }

  type Field = (string, string)

  /** `key=value`. */
  function Pair(f: Field): string
  {
    f.0 + "=" + f.1
  }

  /** A form-encoded body without percent-encoding, as an f-string of `key=value` joined by `&` builds it. */
  function FormString(fields: seq<Field>): string
    requires |fields| > 0
  {
    Join(seq(|fields|, k requires 0 <= k < |fields| => Pair(fields[k])), '&')
  }

  /** `&key=value` for each field: what successive `payload += f"&{key}={value}"` appends. */
  function Suffix(fields: seq<Field>): string
  {
    if fields == [] then "" else Suffix(fields[..|fields| - 1]) + "&" + Pair(fields[|fields| - 1])
  }

  /** Reads one `key=value` back: the key ends at the first `=`. */
  function ParsePair(s: string): Field
  {
    if '=' in s then var i := IndexOf(s, '='); (s[..i], s[i + 1..]) else (s, "")
  }

  /** Reads a form body back into its fields, in order. */
  function ParseForm(s: string): seq<Field>
  {
    var parts := Split(s, '&');
    seq(|parts|, k requires 0 <= k < |parts| => ParsePair(parts[k]))
  }

  /** A field survives the round trip when its key holds no `=` or `&` and its value no `&`. */
  predicate Clean(f: Field)
  {
    '=' !in f.0 && '&' !in f.0 && '&' !in f.1
  }

  predicate AllClean(fields: seq<Field>)
  {
    forall k :: 0 <= k < |fields| ==> Clean(fields[k])
  }

  lemma ParsePairOfPair(f: Field)
    requires Clean(f)
    ensures ParsePair(Pair(f)) == f
  {
    IndexOfAfter(f.0, '=', f.1);
    var s := f.0 + ['='] + f.1;
    assert Pair(f) == s;
    assert s[..|f.0|] == f.0;
    assert s[|f.0| + 1..] == f.1;
  }

  lemma FormRoundTrip(fields: seq<Field>)
    requires |fields| > 0 && AllClean(fields)
    ensures ParseForm(FormString(fields)) == fields
  {
    var pairs := seq(|fields|, k requires 0 <= k < |fields| => Pair(fields[k]));
    forall k | 0 <= k < |pairs| ensures '&' !in pairs[k] {
      assert pairs[k] == fields[k].0 + "=" + fields[k].1;
    }
    SplitJoin(pairs, '&');
    forall k | 0 <= k < |fields| ensures ParsePair(pairs[k]) == fields[k] {
      ParsePairOfPair(fields[k]);
    }
  }

  lemma FormString4(f1: Field, f2: Field, f3: Field, f4: Field)
    ensures FormString([f1, f2, f3, f4]) == Pair(f1) + "&" + Pair(f2) + "&" + Pair(f3) + "&" + Pair(f4)
  {
    var fs := [f1, f2, f3, f4];
    assert seq(|fs|, k requires 0 <= k < |fs| => Pair(fs[k])) == [Pair(f1), Pair(f2), Pair(f3), Pair(f4)];
    Join4(Pair(f1), Pair(f2), Pair(f3), Pair(f4), '&');
  }

  lemma {:induction false} FormStringThenSuffix(fields: seq<Field>, more: seq<Field>)
    requires |fields| > 0
    ensures FormString(fields) + Suffix(more) == FormString(fields + more)
    decreases |more|
  {
    if more == [] {
      assert fields + more == fields;
    } else {
      var init := more[..|more| - 1];
      FormStringThenSuffix(fields, init);
      assert fields + more == (fields + init) + [more[|more| - 1]];
      FormStringSnoc(fields + init, more[|more| - 1]);
    }
  }

  lemma FormStringSnoc(fields: seq<Field>, f: Field)
    requires |fields| > 0
    ensures FormString(fields) + "&" + Pair(f) == FormString(fields + [f])
  {
    var all := fields + [f];
    var pairs := seq(|fields|, k requires 0 <= k < |fields| => Pair(fields[k]));
    var pairsAll := seq(|all|, k requires 0 <= k < |all| => Pair(all[k]));
    assert pairsAll == pairs + [Pair(f)];
    JoinSnoc(pairs, Pair(f), '&');
  }

  lemma {:induction false} JoinSnoc(parts: seq<string>, p: string, sep: char)
    requires |parts| > 0
    ensures Join(parts + [p], sep) == Join(parts, sep) + [sep] + p
    decreases |parts|
  {
    if |parts| > 1 {
      JoinSnoc(parts[1..], p, sep);
      assert (parts + [p])[1..] == parts[1..] + [p];
    }
  }
}
