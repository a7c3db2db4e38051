/** Capture of a request's query string as one bounded `k=v&k=v` attribute. */
module RequestParameters {
  import opened Wrappers
  import opened Http
  import opened StringUtils

  /** Appended once, in place of every parameter after the total limit is passed. */
  const Ellipsis: string := "..."

  /** One `key=value` entry: key and first value each bounded by `drop`; a parameter
      without a value gives `key=`. */
  function Entry(p: QueryParam, eachLimit: nat): string {
    Drop(p.key, eachLimit) + "=" + (if p.first.Some? then Drop(p.first.value, eachLimit) else "")
  }

  /** The entries of `ps`, in order, joined by single `&`s, without any limit. */
  function Joined(ps: seq<QueryParam>, eachLimit: nat): string {
    if |ps| == 0 then ""
    else if |ps| == 1 then Entry(ps[0], eachLimit)
    else Joined(ps[..|ps| - 1], eachLimit) + "&" + Entry(ps[|ps| - 1], eachLimit)
  }

  /** Before the entry at index `k` is appended, the text so far (with its `&`) is already
      longer than the total limit. */
  ghost predicate Overflows(ps: seq<QueryParam>, k: nat, eachLimit: nat, totalLimit: nat)
    requires k <= |ps|
  {
    |Joined(ps[..k], eachLimit)| + 1 > totalLimit
  }

  /** The loop of `getRequestParameter` from text `acc` over the remaining parameters. */
  function AppendParameters(acc: string, ps: seq<QueryParam>, eachLimit: nat, totalLimit: nat): string
    decreases |ps|
  {
    if |ps| == 0 then acc
    else
      var separated := if |acc| != 0 then acc + "&" else acc;
      if |separated| > totalLimit then separated + Ellipsis
      else AppendParameters(separated + Entry(ps[0], eachLimit), ps[1..], eachLimit, totalLimit)
  }

  /** The attribute `getRequestParameter(request, eachLimit, totalLimit)` returns. */
  function RequestParameter(ps: seq<QueryParam>, eachLimit: nat, totalLimit: nat): string {
    AppendParameters("", ps, eachLimit, totalLimit)
  }

  /** One turn of the loop at index `i`, unfolded. */
  lemma AppendParametersStep(acc: string, ps: seq<QueryParam>, i: nat, eachLimit: nat, totalLimit: nat)
    requires i < |ps|
    ensures var separated := if |acc| != 0 then acc + "&" else acc;
            AppendParameters(acc, ps[i..], eachLimit, totalLimit)
            == if |separated| > totalLimit then separated + Ellipsis
               else AppendParameters(separated + Entry(ps[i], eachLimit), ps[i + 1..], eachLimit, totalLimit)
  {
    assert ps[i..][0] == ps[i] && ps[i..][1..] == ps[i + 1..];
  }

  /** `getRequestParameter`: appends the entries to a buffer in place, stopping with a
      single ellipsis once the buffer has grown past `totalLimit`. */
  method GetRequestParameter(ps: seq<QueryParam>, eachLimit: nat, totalLimit: nat) returns (r: string)
    ensures r == RequestParameter(ps, eachLimit, totalLimit)
  {
    var params := "";
    var i := 0;
    ghost var target := RequestParameter(ps, eachLimit, totalLimit);
    while i < |ps|
      invariant 0 <= i <= |ps|
      invariant AppendParameters(params, ps[i..], eachLimit, totalLimit) == target
    {
      AppendParametersStep(params, ps, i, eachLimit, totalLimit);
      if |params| != 0 {
        params := params + "&";
      }
      if |params| > totalLimit {
        params := params + Ellipsis;
        return params;
      }
      ghost var separated := params;
      var key := Drop(ps[i].key, eachLimit);
      params := params + key;
      params := params + "=";
      var value := ps[i].first;
      var valueText := "";
      if value.Some? {
        valueText := Drop(value.value, eachLimit);
        params := params + valueText;
      }
      AppendEntry(separated, key, valueText);
      assert params == separated + key + "=" + valueText;
      assert params == separated + Entry(ps[i], eachLimit);
      i := i + 1;
    }
    r := params;
  }

  /** Appending an entry piece by piece appends the whole entry. */
  lemma AppendEntry(buffer: string, key: string, value: string)
    ensures buffer + key + "=" + value == buffer + (key + "=" + value)
  {
  }

  /** One turn of the loop from the first `i` entries joined: the separator is added
      exactly when something was appended before, and appending the next entry gives the
      first `i + 1` entries joined. */
  lemma JoinedStep(ps: seq<QueryParam>, i: nat, eachLimit: nat)
    requires i < |ps|
    ensures var acc := Joined(ps[..i], eachLimit);
            var separated := if |acc| != 0 then acc + "&" else acc;
            && (i == 0 ==> separated == "")
            && (i > 0 ==> separated == acc + "&")
            && separated + Entry(ps[i], eachLimit) == Joined(ps[..i + 1], eachLimit)
  {
    assert ps[..i + 1][..i] == ps[..i];
    if i > 0 {
      assert ps[..i][..i - 1] == ps[..i - 1];
      assert |Entry(ps[i - 1], eachLimit)| > 0;
    }
  }

  /** One turn of the loop once the first `i` entries are joined: at a check that does not
      overflow it goes on from the first `i + 1` entries joined; at one that does it stops. */
  lemma AppendStep(ps: seq<QueryParam>, i: nat, eachLimit: nat, totalLimit: nat)
    requires i < |ps|
    ensures (i == 0 || !Overflows(ps, i, eachLimit, totalLimit)) ==>
              AppendParameters(Joined(ps[..i], eachLimit), ps[i..], eachLimit, totalLimit)
              == AppendParameters(Joined(ps[..i + 1], eachLimit), ps[i + 1..], eachLimit, totalLimit)
    ensures i > 0 && Overflows(ps, i, eachLimit, totalLimit) ==>
              AppendParameters(Joined(ps[..i], eachLimit), ps[i..], eachLimit, totalLimit)
              == Joined(ps[..i], eachLimit) + "&" + Ellipsis
  {
    var acc := Joined(ps[..i], eachLimit);
    var separated := if |acc| != 0 then acc + "&" else acc;
    JoinedStep(ps, i, eachLimit);
    AppendParametersStep(acc, ps, i, eachLimit, totalLimit);
  }

  /** Without an overflow at any check, the loop joins every entry. */
  lemma {:induction false} AppendWithoutOverflow(ps: seq<QueryParam>, i: nat, eachLimit: nat, totalLimit: nat)
    requires i <= |ps|
    requires forall k :: 1 <= k < |ps| ==> !Overflows(ps, k, eachLimit, totalLimit)
    ensures AppendParameters(Joined(ps[..i], eachLimit), ps[i..], eachLimit, totalLimit) == Joined(ps, eachLimit)
    decreases |ps| - i
  {
    if i == |ps| {
      assert ps[..i] == ps;
    } else {
      AppendStep(ps, i, eachLimit, totalLimit);
      AppendWithoutOverflow(ps, i + 1, eachLimit, totalLimit);
    }
  }

  /** With the first overflow at check `k`, the loop stops there with `&...`. */
  lemma {:induction false} AppendUntilOverflow(ps: seq<QueryParam>, i: nat, k: nat, eachLimit: nat, totalLimit: nat)
    requires i <= k < |ps| && 1 <= k
    requires Overflows(ps, k, eachLimit, totalLimit)
    requires forall j :: 1 <= j < k ==> !Overflows(ps, j, eachLimit, totalLimit)
    ensures AppendParameters(Joined(ps[..i], eachLimit), ps[i..], eachLimit, totalLimit)
            == Joined(ps[..k], eachLimit) + "&" + Ellipsis
    decreases k - i
  {
    AppendStep(ps, i, eachLimit, totalLimit);
    if i < k {
      AppendUntilOverflow(ps, i + 1, k, eachLimit, totalLimit);
    }
  }

  /** What `getRequestParameter` returns: the entries joined by `&` when the limit is never
      passed; otherwise the entries before the first check that finds the text longer than
      `totalLimit`, then `&...`, and nothing more. No parameters give the empty string. */
  lemma RequestParameterShape(ps: seq<QueryParam>, eachLimit: nat, totalLimit: nat)
    ensures ps == [] ==> RequestParameter(ps, eachLimit, totalLimit) == ""
    ensures (forall k :: 1 <= k < |ps| ==> !Overflows(ps, k, eachLimit, totalLimit)) ==>
              RequestParameter(ps, eachLimit, totalLimit) == Joined(ps, eachLimit)
    ensures forall k :: 1 <= k < |ps| && Overflows(ps, k, eachLimit, totalLimit) &&
                        (forall j :: 1 <= j < k ==> !Overflows(ps, j, eachLimit, totalLimit)) ==>
              RequestParameter(ps, eachLimit, totalLimit) == Joined(ps[..k], eachLimit) + "&" + Ellipsis
  {
    assert ps[..0] == [] && ps[0..] == ps;
    if forall k :: 1 <= k < |ps| ==> !Overflows(ps, k, eachLimit, totalLimit) {
      AppendWithoutOverflow(ps, 0, eachLimit, totalLimit);
    }
    forall k | 1 <= k < |ps| && Overflows(ps, k, eachLimit, totalLimit) &&
               (forall j :: 1 <= j < k ==> !Overflows(ps, j, eachLimit, totalLimit))
      ensures RequestParameter(ps, eachLimit, totalLimit) == Joined(ps[..k], eachLimit) + "&" + Ellipsis
    {
      AppendUntilOverflow(ps, 0, k, eachLimit, totalLimit);
    }
  }
}
