/** The agent's StringUtils.drop, which bounds a string before it is recorded. */
module StringUtils {
  import NumberUtils

  /** `StringUtils.drop(str, limit)`: `str` itself when it fits in `limit` characters;
      otherwise its first `limit` characters followed by a drop marker `...(<length>)`. */
  function Drop(str: string, limit: nat): (r: string)
    ensures |str| <= limit ==> r == str
    ensures |str| > limit ==> |r| > limit && r[..limit] == str[..limit]
  {
    if |str| > limit then str[..limit] + "...(" + NumberUtils.ShowNat(|str|) + ")"
    else str
  }
}
