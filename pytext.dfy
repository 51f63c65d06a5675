/**
 * Python's `str.split()` with no separator: the maximal runs of non-whitespace
 * characters, whitespace being what `str.isspace()` accepts.
 */
module PyText {

  /** The characters Python treats as whitespace when splitting. */
  predicate IsSpace(c: char) {
    var n := c as int;
    || 0x09 <= n <= 0x0D || 0x1C <= n <= 0x20
    || n == 0x85 || n == 0xA0 || n == 0x1680 || 0x2000 <= n <= 0x200A
    || n == 0x2028 || n == 0x2029 || n == 0x202F || n == 0x205F || n == 0x3000
  }

  predicate NoSpace(w: string) {
    forall i :: 0 <= i < |w| ==> !IsSpace(w[i])
  }

  predicate AllSpace(s: string) {
    forall i :: 0 <= i < |s| ==> IsSpace(s[i])
  }

  /** The length of the run of non-whitespace at the front of s. */
  function WordLength(s: string): (n: nat)
    ensures n <= |s|
    ensures NoSpace(s[..n])
    ensures n < |s| ==> IsSpace(s[n])
  {
    if s == [] || IsSpace(s[0]) then 0
    else
      var n := 1 + WordLength(s[1..]);
      assert s[..n] == [s[0]] + s[1..][..n - 1];
      n
  }

  /** The words of s, in order. */
  function Split(s: string): seq<string>
    decreases |s|
  {
    if s == [] then []
    else if IsSpace(s[0]) then Split(s[1..])
    else
      var n := WordLength(s);
      [s[..n]] + Split(s[n..])
  }

  /** Every word split returns is non-empty and free of whitespace. */
  lemma {:induction false} SplitWordsAreWords(s: string)
    ensures forall w :: w in Split(s) ==> w != [] && NoSpace(w)
    decreases |s|
  {
    if s != [] {
      if IsSpace(s[0]) {
        SplitWordsAreWords(s[1..]);
      } else {
        var n := WordLength(s);
        SplitWordsAreWords(s[n..]);
      }
    }
  }

  /**
   * The number of maximal non-whitespace runs, counted in one scan from the left: a run
   * begins at each non-whitespace character that comes first or right after whitespace.
   * `afterSpace` says whether the previous character was whitespace (or there was none).
   */
  function Runs(s: string, afterSpace: bool): nat {
    if s == [] then 0
    else if IsSpace(s[0]) then Runs(s[1..], true)
    else (if afterSpace then 1 else 0) + Runs(s[1..], false)
  }

  function RunCount(s: string): nat {
    Runs(s, true)
  }

  /** Scanning through non-whitespace starts no run. */
  lemma {:induction false} RunsSkipWord(s: string, k: nat)
    requires k <= |s| && NoSpace(s[..k])
    ensures Runs(s, false) == Runs(s[k..], false)
  {
    if k > 0 {
      assert !IsSpace(s[..k][0]);
      assert s[1..][..k - 1] == s[..k][1..];
      RunsSkipWord(s[1..], k - 1);
      assert s[1..][k - 1..] == s[k..];
    }
  }

  /** The number of words split finds is the number of maximal non-whitespace runs. */
  lemma {:induction false} SplitCountsRuns(s: string)
    ensures |Split(s)| == RunCount(s)
    decreases |s|
  {
    if s != [] {
      if IsSpace(s[0]) {
        SplitCountsRuns(s[1..]);
      } else {
        var n := WordLength(s);
        var rest := s[n..];
        assert |Split(s)| == 1 + |Split(rest)|;
        assert s[1..][..n - 1] == s[..n][1..];
        RunsSkipWord(s[1..], n - 1);
        assert s[1..][n - 1..] == rest;
        SplitCountsRuns(rest);
        if rest != [] {
          assert IsSpace(rest[0]);
        }
      }
    }
  }

  /** Split finds no word exactly when the text is empty or all whitespace. */
  lemma {:induction false} SplitEmptyIffBlank(s: string)
    ensures Split(s) == [] <==> AllSpace(s)
    decreases |s|
  {
    if s != [] {
      if IsSpace(s[0]) {
        SplitEmptyIffBlank(s[1..]);
        if AllSpace(s[1..]) {
          forall i | 0 <= i < |s| ensures IsSpace(s[i]) {
            if i > 0 {
              assert s[i] == s[1..][i - 1];
            }
          }
        } else {
          var i :| 0 <= i < |s[1..]| && !IsSpace(s[1..][i]);
          assert !IsSpace(s[i + 1]);
        }
      }
    }
  }
}
