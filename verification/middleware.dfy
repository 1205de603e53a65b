/** The mapper pipelines shared by the query client and the transaction builder: a list of
    middlewares, each turning a value into a new value or an error, run in list order. A
    middleware is named by a handle; what it does is the `apply` parameter. */
module Middleware {
  import opened Wrappers

  /** Each middleware in turn on the previous one's output; the first error stops the run. */
  function RunMappers<H, T(!new), E>(hs: seq<H>, apply: (H, T) -> Result<T, E>, x: T): (r: Result<T, E>)
    ensures hs == [] ==> r == Ok(x)
    ensures r.Err? ==> exists i, y :: 0 <= i < |hs| && apply(hs[i], y) == Err(r.error)
    decreases |hs|
  {
    if |hs| == 0 then Ok(x)
    else
      match apply(hs[0], x)
      case Err(e) => Err(e)
      case Ok(y) =>
        var r := RunMappers(hs[1..], apply, y);
        assert r.Err? ==> exists i, z :: 0 <= i < |hs| && apply(hs[i], z) == Err(r.error) by {
          if r.Err? {
            var i, z :| 0 <= i < |hs[1..]| && apply(hs[1..][i], z) == Err(r.error);
            assert hs[i + 1] == hs[1..][i];
          }
        }
        r
  }

  /** Running two lists one after the other is running their concatenation: once the first
      list fails, the second never runs. */
  lemma {:induction false} RunMappersAppend<H, T(!new), E>(hs1: seq<H>, hs2: seq<H>, apply: (H, T) -> Result<T, E>, x: T)
    ensures RunMappers(hs1 + hs2, apply, x)
            == (match RunMappers(hs1, apply, x)
                case Err(e) => Err(e)
                case Ok(y) => RunMappers(hs2, apply, y))
    decreases |hs1|
  {
    if |hs1| == 0 {
      assert hs1 + hs2 == hs2;
    } else {
      assert (hs1 + hs2)[0] == hs1[0];
      assert (hs1 + hs2)[1..] == hs1[1..] + hs2;
      match apply(hs1[0], x)
      case Err(_) =>
      case Ok(y) => RunMappersAppend(hs1[1..], hs2, apply, y);
    }
  }

  /** A list whose every middleware passes its input through unchanged leaves the value as it
      was. */
  lemma {:induction false} RunMappersIdentity<H, T(!new), E>(hs: seq<H>, apply: (H, T) -> Result<T, E>, x: T)
    requires forall i :: 0 <= i < |hs| ==> apply(hs[i], x) == Ok(x)
    ensures RunMappers(hs, apply, x) == Ok(x)
    decreases |hs|
  {
    if |hs| > 0 {
      assert forall i :: 0 <= i < |hs[1..]| ==> hs[1..][i] == hs[i + 1];
      RunMappersIdentity(hs[1..], apply, x);
    }
  }
}
