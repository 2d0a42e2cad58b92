/** The pieces of `java.lang.String` the controller relies on: `trim()` and
    the blank-input test built on it.

    A Java string is modelled as a `string`, one `char` per UTF-16 code unit,
    for texts of Basic Multilingual Plane characters only: a Dafny `char`
    cannot hold a surrogate. */
module JavaText {
  import opened Options

  /** `String.trim()` removes every char whose code is at most U+0020 from both
      ends: ASCII controls as well as the space. */
  predicate IsTrimmable(c: char) {
    c <= ' '
  }

  /** Every char of `s` would be removed by `trim()`. */
  predicate AllTrimmable(s: string) {
    forall i :: 0 <= i < |s| ==> IsTrimmable(s[i])
  }

  /** The first loop of `String.trim()`: from position `st`, skips the
      removable chars and stops at the first one that is not, or at the end. */
  function TrimStart(s: string, st: nat): (a: nat)
    requires st <= |s|
    ensures st <= a <= |s|
    ensures forall i :: st <= i < a ==> IsTrimmable(s[i])
    ensures a < |s| ==> !IsTrimmable(s[a])
    decreases |s| - st
  {
    if st < |s| && IsTrimmable(s[st]) then TrimStart(s, st + 1) else st
  }

  /** The second loop of `String.trim()`: lowers the end `len` while the char
      before it is removable, never going below `st`. */
  function TrimEnd(s: string, st: nat, len: nat): (b: nat)
    requires st <= len <= |s|
    ensures st <= b <= len
    ensures forall i :: b <= i < len ==> IsTrimmable(s[i])
    ensures st < b ==> !IsTrimmable(s[b - 1])
    decreases len
  {
    if st < len && IsTrimmable(s[len - 1]) then TrimEnd(s, st, len - 1) else len
  }

  /** `String.trim()`: the slice of `s` left once removable chars are cut from
      both ends. Everything cut away is removable, the slice neither starts
      nor ends with a removable char, and it is empty exactly when every char
      of `s` is removable. */
  function Trim(s: string): (r: string)
    ensures exists a, b ::
              && 0 <= a <= b <= |s| && r == s[a..b]
              && forall i :: 0 <= i < |s| && (i < a || b <= i) ==> IsTrimmable(s[i])
    ensures |r| > 0 ==> !IsTrimmable(r[0]) && !IsTrimmable(r[|r| - 1])
    ensures |r| == 0 <==> AllTrimmable(s)
  {
    var a := TrimStart(s, 0);
    var b := TrimEnd(s, a, |s|);
    s[a..b]
  }

  /** The guard of the rewrite request, `text == null || text.trim().isEmpty()`:
      it holds exactly when the text is null or every one of its chars is at
      most U+0020, so in particular for the empty string. */
  predicate IsBlank(text: Option<string>)
    ensures IsBlank(text) <==> text.None? || AllTrimmable(text.value)
  {
    text.None? || |Trim(text.value)| == 0
  }

  /** Trimming twice trims no more than trimming once. */
  lemma TrimIdempotent(s: string)
    ensures Trim(Trim(s)) == Trim(s)
  {
  }
}
