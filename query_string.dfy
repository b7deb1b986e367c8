/** A reference reading of URL query strings: the query is what follows the
    first '?', parameters are separated by '&', and a parameter's key ends at
    its first '='. It is the partner of the URL construction in Upstream:
    reading a built URL back shows which parameters it carries. No
    percent-decoding is done, matching the URLs built without encoding. */
module QueryString {
  import opened Wrappers

  type Param = (string, string)

  /** Position of the first `c` in `s`, or |s| when `c` does not occur. */
  function IndexOf(s: string, c: char): (i: nat)
    ensures i <= |s|
    ensures i < |s| ==> s[i] == c
    ensures forall j :: 0 <= j < i ==> s[j] != c
  {
    if s == [] then 0
    else if s[0] == c then 0
    else 1 + IndexOf(s[1..], c)
  }

  /** The pieces of `s` between occurrences of `sep`. */
  function Split(s: string, sep: char): (parts: seq<string>)
    ensures |parts| >= 1
    ensures forall k :: 0 <= k < |parts| ==> sep !in parts[k]
    decreases |s|
  {
    var i := IndexOf(s, sep);
    if i == |s| then [s] else [s[..i]] + Split(s[i + 1..], sep)
  }

  /** One `key=value` piece; a piece without '=' has the empty value. */
  function KeyValue(piece: string): (p: Param)
    ensures '=' !in p.0
    ensures '=' in piece ==> |p.0| + 1 + |p.1| == |piece|
  {
    var i := IndexOf(piece, '=');
    if i == |piece| then (piece, "") else (piece[..i], piece[i + 1..])
  }

  function Decode(pieces: seq<string>): (ps: seq<Param>)
    ensures |ps| == |pieces|
  {
    if pieces == [] then [] else [KeyValue(pieces[0])] + Decode(pieces[1..])
  }

  /** The parameters of a query string, in order. */
  function Params(query: string): (ps: seq<Param>)
    ensures |ps| >= 1
  {
    Decode(Split(query, '&'))
  }

  /** The query of a URL: everything after its first '?'. */
  function QueryOf(url: string): (q: string)
    ensures |q| <= |url|
  {
    var i := IndexOf(url, '?');
    if i == |url| then "" else url[i + 1..]
  }

  /** The value of the first parameter named `key`. */
  function Get(ps: seq<Param>, key: string): (v: Option<string>)
    ensures v.Some? <==> exists k :: 0 <= k < |ps| && ps[k].0 == key
    ensures v.Some? ==> exists k :: 0 <= k < |ps| && ps[k] == (key, v.value)
                                    && forall j :: 0 <= j < k ==> ps[j].0 != key
  {
    if ps == [] then None
    else if ps[0].0 == key then Some(ps[0].1)
    else Get(ps[1..], key)
  }

  /** `key=value`. */
  function Pair(p: Param): string {
    p.0 + "=" + p.1
  }

  /** The query string of a parameter list, joined with '&'. */
  function Join(ps: seq<Param>): (q: string)
    requires |ps| >= 1
  {
    if |ps| == 1 then Pair(ps[0]) else Pair(ps[0]) + "&" + Join(ps[1..])
  }

  /** Parameters that survive a round trip: no key holds '=' or '&', no
      value holds '&'. */
  predicate Plain(ps: seq<Param>) {
    forall k :: 0 <= k < |ps| ==> '=' !in ps[k].0 && '&' !in ps[k].0 && '&' !in ps[k].1
  }

  /** The first `c` after a prefix free of `c` is the one the prefix ends at. */
  lemma IndexOfAfter(a: string, c: char, b: string)
    requires c !in a
    ensures IndexOf(a + [c] + b, c) == |a|
  {
    var s := a + [c] + b;
    assert s[|a|] == c;
  }

  /** Splitting at the first separator. */
  lemma SplitAt(a: string, sep: char, b: string)
    requires sep !in a
    ensures Split(a + [sep] + b, sep) == [a] + Split(b, sep)
  {
    var s := a + [sep] + b;
    IndexOfAfter(a, sep, b);
    assert s[..|a|] == a;
    assert s[|a| + 1..] == b;
  }

  lemma KeyValuePair(p: Param)
    requires '=' !in p.0
    ensures KeyValue(Pair(p)) == p
  {
    assert Pair(p) == p.0 + ['='] + p.1;
    IndexOfAfter(p.0, '=', p.1);
    assert Pair(p)[..|p.0|] == p.0;
    assert Pair(p)[|p.0| + 1..] == p.1;
  }

  /** Reading a joined parameter list back gives the list itself. */
  lemma {:induction false} ParamsJoin(ps: seq<Param>)
    requires |ps| >= 1 && Plain(ps)
    ensures Params(Join(ps)) == ps
  {
    var p := ps[0];
    PlainPair(ps);
    KeyValuePair(p);
    if |ps| == 1 {
      assert Split(Pair(p), '&') == [Pair(p)] by {
        assert IndexOf(Pair(p), '&') == |Pair(p)|;
      }
    } else {
      var rest := ps[1..];
      PlainTail(ps);
      ParamsJoin(rest);
      assert Join(ps) == Pair(p) + ['&'] + Join(rest);
      ParamsCons(Pair(p), Join(rest));
      assert ps == [p] + rest;
    }
  }

  /** A first piece without '&' is read as the first parameter. */
  lemma ParamsCons(piece: string, rest: string)
    requires '&' !in piece
    ensures Params(piece + ['&'] + rest) == [KeyValue(piece)] + Params(rest)
  {
    SplitAt(piece, '&', rest);
    DecodeCons(piece, Split(rest, '&'));
  }

  /** The first parameter of a plain list joins to a piece without '&'. */
  lemma PlainPair(ps: seq<Param>)
    requires |ps| >= 1 && Plain(ps)
    ensures '&' !in Pair(ps[0]) && '=' !in ps[0].0
  {
    assert Pair(ps[0]) == ps[0].0 + ['='] + ps[0].1;
  }

  lemma PlainTail(ps: seq<Param>)
    requires |ps| >= 1 && Plain(ps)
    ensures Plain(ps[1..])
  {
    forall k | 0 <= k < |ps| - 1
      ensures '=' !in ps[1..][k].0 && '&' !in ps[1..][k].0 && '&' !in ps[1..][k].1
    {
      assert ps[1..][k] == ps[k + 1];
    }
  }

  lemma DecodeCons(piece: string, pieces: seq<string>)
    ensures Decode([piece] + pieces) == [KeyValue(piece)] + Decode(pieces)
  {
    assert ([piece] + pieces)[1..] == pieces;
  }

  /** A first parameter whose value is `a` followed by '&' is read back with
      the value `a`. */
  lemma FirstValueCut(key: string, a: string, rest: string)
    requires '=' !in key && '&' !in key && '&' !in a
    ensures Get(Params(Pair((key, a)) + "&" + rest), key) == Some(a)
  {
    var first := Pair((key, a));
    assert first == key + ['='] + a;
    assert '&' !in first;
    SplitAt(first, '&', rest);
    KeyValuePair((key, a));
  }

  /** The query of `base?query`, when `base` holds no '?'. */
  lemma QueryOfUrl(base: string, query: string)
    requires '?' !in base
    ensures QueryOf(base + "?" + query) == query
  {
    assert base + "?" + query == base + ['?'] + query;
    IndexOfAfter(base, '?', query);
    assert (base + ['?'] + query)[|base| + 1..] == query;
  }
}
