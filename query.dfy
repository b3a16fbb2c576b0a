/** Query strings as the three `toQueryParams` copies build them: every entry
    of a Go `map[string]string` rendered as `key=value&`, in the map's
    iteration order, which Go leaves unspecified. */
module Query {
  import opened Wrappers
  import opened Text

  type Pair = (string, string)

  /** The text one entry contributes: `fmt.Sprintf("%s=%s&", k, v)`. */
  function PairText(p: Pair): string { p.0 + "=" + p.1 + "&" }

  /** The query string for entries taken in the order given. */
  function Encode(ps: seq<Pair>): string
  {
    if ps == [] then "" else PairText(ps[0]) + Encode(ps[1..])
  }

  /** The entries of `m` in the iteration order `order`. */
  function Pairs(order: seq<string>, m: map<string, string>): (ps: seq<Pair>)
    requires forall k :: k in order ==> k in m
    ensures |ps| == |order|
    ensures forall i :: 0 <= i < |ps| ==> ps[i] == (order[i], m[order[i]])
  {
    if order == [] then [] else [(order[0], m[order[0]])] + Pairs(order[1..], m)
  }

  function KeysOf(ps: seq<Pair>): (ks: seq<string>)
    ensures |ks| == |ps| && forall i :: 0 <= i < |ps| ==> ks[i] == ps[i].0
  {
    if ps == [] then [] else [ps[0].0] + KeysOf(ps[1..])
  }

  /** A reference reader for query strings: split on `&`, drop empty pieces,
      cut each piece at its first `=` (a piece without one is a key with an
      empty value). */
  function ParseQuery(s: string): seq<Pair>
  {
    ParseSegments(Split(s, '&'))
  }

  function ParseSegments(segs: seq<string>): seq<Pair>
  {
    if segs == [] then []
    else (if segs[0] == "" then [] else [Cut(segs[0])]) + ParseSegments(segs[1..])
  }

  function Cut(seg: string): Pair
  {
    var i := IndexOf(seg, '=');
    if i == |seg| then (seg, "") else (seg[..i], seg[i + 1..])
  }

  /** The value of the first entry with key `k`. */
  function Lookup(ps: seq<Pair>, k: string): Option<string>
  {
    if ps == [] then None else if ps[0].0 == k then Some(ps[0].1) else Lookup(ps[1..], k)
  }

  /** Reads a number back from a decoded query: present and a valid `int`. */
  function IntField(ps: seq<Pair>, k: string): Option<Int>
  {
    match Lookup(ps, k)
    case None => None
    case Some(v) => if Atoi(v).Success? then Some(Atoi(v).value) else None
  }

  lemma IntFieldReadBack(ps: seq<Pair>, k: string, n: Int)
    requires Lookup(ps, k) == Some(Itoa(n))
    ensures IntField(ps, k) == Some(n)
  {
    AtoiItoa(n);
  }

  /** Keys that survive the round trip: non-empty, without `=` or `&`. */
  predicate GoodKey(k: string) { k != "" && '=' !in k && '&' !in k }

  /** A map whose rendering reads back: good keys, and no `&` in a value. */
  predicate Renderable(m: map<string, string>)
  {
    forall k :: k in m ==> GoodKey(k) && '&' !in m[k]
  }

  lemma {:induction false} EncodeSnoc(ps: seq<Pair>, p: Pair)
    ensures Encode(ps + [p]) == Encode(ps) + PairText(p)
  {
    if ps == [] {
      assert [p][1..] == [];
    } else {
      assert (ps + [p])[1..] == ps[1..] + [p];
      EncodeSnoc(ps[1..], p);
    }
  }

  function Segments(ps: seq<Pair>): (segs: seq<string>)
    ensures |segs| == |ps|
    ensures forall i :: 0 <= i < |ps| ==> segs[i] == ps[i].0 + "=" + ps[i].1
  {
    if ps == [] then [] else [ps[0].0 + "=" + ps[0].1] + Segments(ps[1..])
  }

  /** The rendering is the entries joined by `&`, with one `&` more at the end. */
  lemma {:induction false} EncodeAsJoin(ps: seq<Pair>)
    ensures Encode(ps) == Join(Segments(ps) + [""], "&")
  {
    if ps != [] {
      var segs := Segments(ps) + [""];
      assert segs[1..] == Segments(ps[1..]) + [""];
      EncodeAsJoin(ps[1..]);
    }
  }

  lemma CutSegment(k: string, v: string)
    requires '=' !in k
    ensures Cut(k + "=" + v) == (k, v)
  {
    var seg := k + "=" + v;
    assert seg[|k|] == '=';
    assert seg[..IndexOf(seg, '=')] == k;
  }

  lemma {:induction false} ParseSegmentsOf(ps: seq<Pair>)
    requires forall i :: 0 <= i < |ps| ==> GoodKey(ps[i].0)
    ensures ParseSegments(Segments(ps) + [""]) == ps
  {
    var segs := Segments(ps) + [""];
    if ps == [] {
      assert segs[1..] == [];
    } else {
      assert segs[0] != "";
      CutSegment(ps[0].0, ps[0].1);
      assert segs[1..] == Segments(ps[1..]) + [""];
      ParseSegmentsOf(ps[1..]);
    }
  }

  lemma NoAmpInSegment(k: string, v: string)
    requires '&' !in k && '&' !in v
    ensures '&' !in k + "=" + v
  {
  }

  /** Reading a rendered query string gives back exactly the rendered entries,
      in order, as long as keys and values keep clear of the separators. */
  lemma ParseEncode(ps: seq<Pair>)
    requires forall i :: 0 <= i < |ps| ==> GoodKey(ps[i].0) && '&' !in ps[i].1
    ensures ParseQuery(Encode(ps)) == ps
  {
    var segs := Segments(ps) + [""];
    assert Split(Encode(ps), '&') == segs by {
      EncodeAsJoin(ps);
      SegmentsClear(ps);
      SplitJoin(segs, '&');
    }
    ParseSegmentsOf(ps);
  }

  lemma SegmentsClear(ps: seq<Pair>)
    requires forall i :: 0 <= i < |ps| ==> '&' !in ps[i].0 && '&' !in ps[i].1
    ensures forall i :: 0 <= i < |Segments(ps) + [""]| ==> '&' !in (Segments(ps) + [""])[i]
  {
    var segs := Segments(ps) + [""];
    forall i | 0 <= i < |segs| ensures '&' !in segs[i] {
      if i < |ps| {
        NoAmpInSegment(ps[i].0, ps[i].1);
      }
    }
  }

  lemma {:induction false} LookupPairs(order: seq<string>, m: map<string, string>, k: string)
    requires forall x :: x in order ==> x in m
    ensures Lookup(Pairs(order, m), k) == if k in order then Some(m[k]) else None
  {
    if order != [] {
      assert Pairs(order, m)[1..] == Pairs(order[1..], m);
      LookupPairs(order[1..], m, k);
    }
  }

  /** Renders `m` as `key=value&` pairs in an order the runtime picks: Go
      randomises map iteration, so the order is chosen nondeterministically and
      handed back (as a ghost) only to state that it lists every key once. */
  method Render(m: map<string, string>) returns (qs: string, ghost order: seq<string>)
    ensures multiset(order) == multiset(m.Keys)
    ensures forall k :: k in order ==> k in m
    ensures qs == Encode(Pairs(order, m))
  {
    qs, order := "", [];
    var rest := m.Keys;
    while rest != {}
      invariant rest <= m.Keys
      invariant multiset(order) + multiset(rest) == multiset(m.Keys)
      invariant forall k :: k in order ==> k in m
      invariant qs == Encode(Pairs(order, m))
      decreases |rest|
    {
      var k :| k in rest;
      qs := qs + PairText((k, m[k]));
      assert multiset(rest - {k}) == multiset(rest) - multiset{k};
      assert Pairs(order + [k], m) == Pairs(order, m) + [(k, m[k])];
      EncodeSnoc(Pairs(order, m), (k, m[k]));
      order := order + [k];
      rest := rest - {k};
    }
  }

  /** Whatever the iteration order, the rendered string reads back as one
      entry per key of `m`, each with its value, and lookups find `m`. */
  lemma RenderedReadsBack(order: seq<string>, m: map<string, string>)
    requires multiset(order) == multiset(m.Keys)
    requires forall k :: k in order ==> k in m
    requires Renderable(m)
    ensures var ps := ParseQuery(Encode(Pairs(order, m)));
      && multiset(KeysOf(ps)) == multiset(m.Keys)
      && (forall i :: 0 <= i < |ps| ==> ps[i].0 in m && ps[i].1 == m[ps[i].0])
      && (forall k :: Lookup(ps, k) == if k in m then Some(m[k]) else None)
  {
    var ps := Pairs(order, m);
    ParseEncode(ps);
    assert KeysOf(ps) == order;
    forall k ensures Lookup(ParseQuery(Encode(ps)), k) == if k in m then Some(m[k]) else None {
      RenderedLookup(order, m, k);
    }
  }

  /** One key's lookup in a rendered string. */
  lemma RenderedLookup(order: seq<string>, m: map<string, string>, k: string)
    requires multiset(order) == multiset(m.Keys)
    requires forall k :: k in order ==> k in m
    requires Renderable(m)
    ensures Lookup(ParseQuery(Encode(Pairs(order, m))), k) == if k in m then Some(m[k]) else None
  {
    ParseEncode(Pairs(order, m));
    LookupPairs(order, m, k);
    assert k in order <==> k in multiset(order);
  }
}
