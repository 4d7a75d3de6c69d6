/**
 * String helpers the handlers rely on: Python's `str.strip()` on form fields,
 * `str.lower()` and `str.rsplit('.', 1)` on upload names, and the upload
 * extension check `allowed_file` (app.py:11, app.py:53-54).
 */
module Text {
  import opened Wrappers

  /** The extensions an uploaded image may carry (app.py:11). */
  const AllowedExtensions: set<string> := {"png", "jpg", "jpeg", "gif"}

  /** The characters Python's `str.isspace()` accepts, i.e. what `strip()` removes. */
  predicate IsSpace(c: char) {
    || ('\t' <= c <= '\U{0D}')          // \t \n \v \f \r
    || ('\U{1C}' <= c <= '\U{1F}')      // file, group, record and unit separators
    || c == ' ' || c == '\U{85}' || c == '\U{A0}' || c == '\U{1680}'
    || ('\U{2000}' <= c <= '\U{200A}')
    || c == '\U{2028}' || c == '\U{2029}' || c == '\U{202F}' || c == '\U{205F}' || c == '\U{3000}'
  }

  predicate AllSpace(s: string) {
    forall k :: 0 <= k < |s| ==> IsSpace(s[k])
  }

  /** The first index at or after `i` that does not hold whitespace. */
  function SkipLeading(s: string, i: nat): (k: nat)
    requires i <= |s|
    ensures i <= k <= |s|
    ensures forall m :: i <= m < k ==> IsSpace(s[m])
    ensures k < |s| ==> !IsSpace(s[k])
    decreases |s| - i
  {
    if i < |s| && IsSpace(s[i]) then SkipLeading(s, i + 1) else i
  }

  /** The end of `s[lo..j]` once its trailing whitespace is dropped. */
  function SkipTrailing(s: string, lo: nat, j: nat): (k: nat)
    requires lo <= j <= |s|
    ensures lo <= k <= j
    ensures forall m :: k <= m < j ==> IsSpace(s[m])
    ensures lo < k ==> !IsSpace(s[k - 1])
    decreases j
  {
    if lo < j && IsSpace(s[j - 1]) then SkipTrailing(s, lo, j - 1) else j
  }

  /** Python's `s.strip()`: `s` without its leading and trailing whitespace. */
  function Strip(s: string): (r: string)
    ensures |r| <= |s|
    ensures r != [] ==> !IsSpace(r[0]) && !IsSpace(r[|r| - 1])
    ensures r == [] ==> AllSpace(s)
  {
    var i := SkipLeading(s, 0);
    var j := SkipTrailing(s, i, |s|);
    s[i..j]
  }

  /**
   * Strip is determined by what it keeps: padding any text that neither starts
   * nor ends with whitespace by whitespace on both sides strips back to it.
   */
  lemma StripPadded(pre: string, mid: string, post: string)
    requires AllSpace(pre) && AllSpace(post)
    requires mid != [] ==> !IsSpace(mid[0]) && !IsSpace(mid[|mid| - 1])
    ensures Strip(pre + mid + post) == mid
  {
    var s := pre + mid + post;
    var i := SkipLeading(s, 0);
    var j := SkipTrailing(s, i, |s|);
    if mid == [] {
      assert AllSpace(s) by {
        forall k | 0 <= k < |s| ensures IsSpace(s[k]) {
          if k < |pre| { assert s[k] == pre[k]; } else { assert s[k] == post[k - |pre|]; }
        }
      }
      assert i == |s|;
    } else {
      assert s[|pre|] == mid[0];
      assert i <= |pre|;
      assert i == |pre|;
      var e := |pre| + |mid|;
      assert s[e - 1] == mid[|mid| - 1];
      assert j >= e;
      assert j == e;
      assert s[i..j] == mid;
    }
  }

  /** Stripping twice is stripping once. */
  lemma StripIdempotent(s: string)
    ensures Strip(Strip(s)) == Strip(s)
  {
    var r := Strip(s);
    StripPadded([], r, []);
    assert [] + r + [] == r;
  }

  /** ASCII case folding; see README for why this agrees with `str.lower()` here. */
  function LowerChar(c: char): char {
    if 'A' <= c <= 'Z' then (c as int + 32) as char else c
  }

  function Lower(s: string): (r: string)
    ensures |r| == |s|
    ensures forall k :: 0 <= k < |r| ==> !('A' <= r[k] <= 'Z')
    ensures forall k :: 0 <= k < |s| && !('A' <= s[k] <= 'Z') ==> r[k] == s[k]
    ensures forall k :: 0 <= k < |s| && 'A' <= s[k] <= 'Z' ==> r[k] as int == s[k] as int + 32
  {
    seq(|s|, k requires 0 <= k < |s| => LowerChar(s[k]))
  }

  /** `a` is `b`, or `b` is a lower-case ASCII letter and `a` its upper-case form. */
  predicate SameIgnoringCase(a: char, b: char) {
    a == b || ('a' <= b <= 'z' && a as int == b as int - 32)
  }

  /**
   * Lower-casing a text gives a lower-case word exactly when the text spells
   * that word with any mix of ASCII capitals, which is all `allowed_file`
   * asks of `.lower()`.
   */
  lemma LowerMatchesIgnoringCase(t: string, e: string)
    requires forall k :: 0 <= k < |e| ==> !('A' <= e[k] <= 'Z')
    ensures Lower(t) == e <==> |t| == |e| && forall k :: 0 <= k < |t| ==> SameIgnoringCase(t[k], e[k])
  {
    if |t| == |e| && forall k :: 0 <= k < |t| ==> SameIgnoringCase(t[k], e[k]) {
      assert forall k :: 0 <= k < |t| ==> Lower(t)[k] == e[k];
    }
  }

  /** The position of the last occurrence of `c` in `s`, if any. */
  function LastIndexOf(s: string, c: char): (r: Option<nat>)
    ensures r.None? <==> c !in s
    ensures r.Some? ==> r.value < |s| && s[r.value] == c && c !in s[r.value + 1..]
  {
    if s == [] then None
    else if s[|s| - 1] == c then Some(|s| - 1)
    else
      var r := LastIndexOf(s[..|s| - 1], c);
      assert s == s[..|s| - 1] + [s[|s| - 1]];
      if r.Some? then
        assert s[r.value + 1..] == s[..|s| - 1][r.value + 1..] + [s[|s| - 1]];
        r
      else r
  }

  /** Python's `s.rsplit('.', 1)` on a string that contains a dot. */
  function RSplitDot(s: string): (parts: (string, string))
    requires '.' in s
    ensures parts.0 + "." + parts.1 == s
    ensures '.' !in parts.1
  {
    var i := LastIndexOf(s, '.').value;
    assert s == s[..i] + "." + s[i + 1..];
    (s[..i], s[i + 1..])
  }

  /** Position `i` holds a dot and no dot follows it. */
  predicate IsLastDot(s: string, i: int) {
    0 <= i < |s| && s[i] == '.' && '.' !in s[i + 1..]
  }

  /** RSplitDot splits at the last dot, and there is only one last dot. */
  lemma LastDotUnique(s: string)
    requires '.' in s
    ensures IsLastDot(s, |RSplitDot(s).0|)
    ensures forall i :: IsLastDot(s, i) ==> i == |RSplitDot(s).0|
  {
    var (head, tail) := RSplitDot(s);
    var h := |head|;
    assert s[h] == '.' && s[h + 1..] == tail;
  }

  /** Position `i` holds the last dot of `s`, and what follows it, lower-cased, is allowed. */
  predicate LastDotBeforeAllowed(s: string, i: int) {
    IsLastDot(s, i) && Lower(s[i + 1..]) in AllowedExtensions
  }

  /**
   * `allowed_file`: the name contains a dot and the text after its last dot,
   * lower-cased, is one of the allowed extensions.
   */
  function AllowedFile(filename: string): (ok: bool)
    ensures ok <==> exists i :: LastDotBeforeAllowed(filename, i)
  {
    if '.' in filename then
      var (head, tail) := RSplitDot(filename);
      LastDotUnique(filename);
      assert filename[|head| + 1..] == tail by {
        assert filename == head + "." + tail;
      }
      assert LastDotBeforeAllowed(filename, |head|) == (Lower(tail) in AllowedExtensions);
      Lower(tail) in AllowedExtensions
    else
      false
  }

  /** Upper-case extensions are accepted. */
  lemma AllowedFileIgnoresCase()
    ensures AllowedFile("photo.JPG")
  {
    assert "photo.JPG"[5] == '.' && "photo.JPG"[6..] == "JPG" && Lower("JPG") == "jpg";
    assert LastDotBeforeAllowed("photo.JPG", 5);
  }
}
