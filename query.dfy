/**
  URL query strings: composing `base?k1=v1&k2=v2...` without any encoding,
  the way the callback URLs are built, and a literal reader that takes the
  parameters back out of such a URL.
 */
module Query {
  import opened Wrappers
  import opened Text

  function Param(p: (string, string)): string {
    p.0 + "=" + p.1
  }

  function Params(ps: seq<(string, string)>): (r: seq<string>)
    ensures |r| == |ps|
    decreases |ps|
  {
    if ps == [] then [] else [Param(ps[0])] + Params(ps[1..])
  }

  /** base + "?" + the pairs as key=value joined by '&'. */
  function WithQuery(base: string, ps: seq<(string, string)>): string
    requires |ps| >= 1
  {
    base + "?" + Join(Params(ps), '&')
  }

  lemma QueryOfOne(p: (string, string))
    ensures Join(Params([p]), '&') == Param(p)
  {
  }

  lemma {:induction false} QueryOfCons(p: (string, string), rest: seq<(string, string)>)
    requires |rest| >= 1
    ensures Join(Params([p] + rest), '&') == Param(p) + ['&'] + Join(Params(rest), '&')
  {
    assert ([p] + rest)[1..] == rest;
  }

  /** A piece `key=value` cut at its first '='; a piece without '=' is a key with an empty value. */
  function KeyValue(piece: string): (string, string) {
    match BreakAt(piece, '=')
    case Some(kv) => kv
    case None => (piece, "")
  }

  function KeyValues(pieces: seq<string>): (r: seq<(string, string)>)
    ensures |r| == |pieces|
    decreases |pieces|
  {
    if pieces == [] then [] else [KeyValue(pieces[0])] + KeyValues(pieces[1..])
  }

  /**
    The parameters of url: the text after its first '?', cut at every '&',
    each piece cut at its first '='. No percent-decoding is applied.
   */
  function QueryParams(url: string): Option<seq<(string, string)>> {
    match BreakAt(url, '?')
    case None => None
    case Some((_, q)) => Some(KeyValues(Split(q, '&')))
  }

  /** Pairs that survive the round trip: keys without '=' or '&', values without '&'. */
  predicate Unambiguous(ps: seq<(string, string)>) {
    forall i :: 0 <= i < |ps| ==> '=' !in ps[i].0 && '&' !in ps[i].0 && '&' !in ps[i].1
  }

  lemma {:induction false} KeyValuesParams(ps: seq<(string, string)>)
    requires Unambiguous(ps)
    ensures KeyValues(Params(ps)) == ps
    decreases |ps|
  {
    if ps != [] {
      BreakAtFirst(ps[0].0, '=', ps[0].1);
      assert Param(ps[0]) == ps[0].0 + ['='] + ps[0].1;
      assert Unambiguous(ps[1..]) by {
        forall i | 0 <= i < |ps[1..]|
          ensures '=' !in ps[1..][i].0 && '&' !in ps[1..][i].0 && '&' !in ps[1..][i].1
        {
          assert ps[1..][i] == ps[i + 1];
        }
      }
      KeyValuesParams(ps[1..]);
      assert Params(ps)[1..] == Params(ps[1..]);
    }
  }

  /** Reading the query back out of a composed URL gives exactly the pairs it was composed from. */
  lemma {:induction false} QueryRoundTrip(base: string, ps: seq<(string, string)>)
    requires |ps| >= 1
    requires '?' !in base
    requires Unambiguous(ps)
    ensures QueryParams(WithQuery(base, ps)) == Some(ps)
  {
    var pieces := Params(ps);
    BreakAtFirst(base, '?', Join(pieces, '&'));
    assert WithQuery(base, ps) == base + ['?'] + Join(pieces, '&');
    assert forall i :: 0 <= i < |pieces| ==> '&' !in pieces[i] by {
      forall i | 0 <= i < |pieces| ensures '&' !in pieces[i] {
        ParamsAt(ps, i);
      }
    }
    SplitJoin(pieces, '&');
    KeyValuesParams(ps);
  }

  lemma {:induction false} ParamsAt(ps: seq<(string, string)>, i: nat)
    requires i < |ps|
    ensures Params(ps)[i] == Param(ps[i])
    decreases i
  {
    if i > 0 {
      ParamsAt(ps[1..], i - 1);
    }
  }
}
