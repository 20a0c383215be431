/**
 * Query strings as the handler writes them: `k=v` pieces joined with `&`, in the order of
 * the parameters, with nothing escaped.
 */
module Query {
  import opened Wrappers
  import opened Strings
  import opened Dicts

  /** The `f"{k}={v}"` pieces, one per parameter, in order. */
  function Pieces(params: Dict<string>): (r: seq<string>)
    ensures |r| == |params|
  {
    seq(|params|, i requires 0 <= i < |params| => params[i].0 + "=" + params[i].1)
  }

  /** `"&".join([f"{k}={v}" for k, v in params.items()])`. */
  function QueryString(params: Dict<string>): string
  {
    Join("&", Pieces(params))
  }

  /** Reads `k=v` pieces back, splitting each at its first `=`. */
  function ParsePieces(pieces: seq<string>): Option<Dict<string>>
  {
    if pieces == [] then Some([])
    else match (SplitOnce(pieces[0], '='), ParsePieces(pieces[1..]))
      case (Some(kv), Some(rest)) => Some([kv] + rest)
      case _ => None
  }

  /** Reads a query string back into its parameters, in order. */
  function ParseQuery(qs: string): Option<Dict<string>>
  {
    if qs == "" then Some([]) else ParsePieces(Split(qs, '&'))
  }

  /** Names without `&` or `=` and values without `&`: what survives the unescaped join. */
  predicate Plain(params: Dict<string>)
  {
    forall i :: 0 <= i < |params| ==>
      '&' !in params[i].0 && '=' !in params[i].0 && '&' !in params[i].1
  }

  /** Reading `k=v` pieces back gives the parameters when no name holds `=`. */
  lemma {:induction false} ParsePiecesOfPieces(params: Dict<string>)
    requires forall i :: 0 <= i < |params| ==> '=' !in params[i].0
    ensures ParsePieces(Pieces(params)) == Some(params)
  {
    if params != [] {
      var p := params[0];
      assert Pieces(params)[0] == p.0 + ['='] + p.1;
      SplitOnceAt(p.0, p.1, '=');
      assert Pieces(params)[1..] == Pieces(params[1..]);
      ParsePiecesOfPieces(params[1..]);
      assert [p] + params[1..] == params;
    }
  }

  /** Reading the query string the handler builds gives back its parameters, in order. */
  lemma {:induction false} QueryRoundTrip(params: Dict<string>)
    requires Plain(params)
    ensures ParseQuery(QueryString(params)) == Some(params)
  {
    if params != [] {
      var ps := Pieces(params);
      forall i | 0 <= i < |ps| ensures '&' !in ps[i] {
        assert ps[i] == params[i].0 + "=" + params[i].1;
      }
      SplitJoin(ps, '&');
      assert ps[0] == params[0].0 + "=" + params[0].1;
      JoinNonEmpty(ps);
      ParsePiecesOfPieces(params);
    }
  }

  /** A join of pieces whose first piece holds `=` is not empty. */
  lemma JoinNonEmpty(ps: seq<string>)
    requires |ps| >= 1 && '=' in ps[0]
    ensures Join("&", ps) != ""
  {
    if |ps| > 1 {
      assert Join("&", ps) == ps[0] + "&" + Join("&", ps[1..]);
    }
  }
}
