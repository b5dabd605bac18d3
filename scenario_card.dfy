/** The title rule of components/scenario-card.tsx (and, with limit 50, of the detail view). */
module ScenarioCard {

  /** `s.length > n ? `${s.substring(0, n)}...` : s`. */
  function Truncate(s: string, n: nat): (r: string)
    ensures |s| <= n ==> r == s
    ensures |s| > n ==> |r| == n + 3 && r[..n] == s[..n] && r[n..] == "..."
  {
    if |s| > n then s[..n] + "..." else s
  }

  /** The card's title: the summary cut at 30 characters. */
  function ShortTitle(summary: string): (r: string)
    ensures |summary| <= 30 ==> r == summary
    ensures |summary| > 30 ==> |r| == 33 && r[..30] == summary[..30] && r[30..] == "..."
  {
    Truncate(summary, 30)
  }

  /** A summary that fits is shown unchanged. */
  lemma TruncateFits(s: string, n: nat)
    requires |s| <= n
    ensures Truncate(s, n) == s
  {
  }

  /** A summary that does not fit keeps exactly its first `n` characters, then "...". */
  lemma TruncateLong(s: string, n: nat)
    requires |s| > n
    ensures |Truncate(s, n)| == n + 3
    ensures Truncate(s, n)[..n] == s[..n] && Truncate(s, n)[n..] == "..."
  {
  }

  /** The title never exceeds `n + 3` characters, and always starts as the summary does. */
  lemma TruncateBound(s: string, n: nat)
    ensures |Truncate(s, n)| <= n + 3
    ensures |s| <= n ==> |Truncate(s, n)| == |s|
    ensures var k := if |s| < n then |s| else n; Truncate(s, n)[..k] == s[..k]
  {
  }

  /** Truncating a title again changes nothing. */
  lemma {:induction false} TruncateIdempotent(s: string, n: nat)
    ensures Truncate(Truncate(s, n), n) == Truncate(s, n)
  {
    if |s| > n {
      var t := s[..n] + "...";
      assert t[..n] == s[..n];
    }
  }

  /**
   * The title equals the summary exactly when the summary fits, or when it
   * is already of the truncated shape: n characters followed by "...".
   */
  lemma {:induction false} TruncateUnchangedIff(s: string, n: nat)
    ensures Truncate(s, n) == s <==> |s| <= n || (|s| == n + 3 && s[n..] == "...")
  {
    if |s| > n {
      var t := s[..n] + "...";
      if |s| == n + 3 && s[n..] == "..." {
        assert s == s[..n] + s[n..];
      }
      if t == s {
        assert |s| == n + 3;
        assert s[n..] == t[n..];
      }
    }
  }

  /** The card's threshold is strict: 30 characters are kept, 31 are cut. */
  lemma CardThreshold(s: string)
    ensures |s| == 30 ==> ShortTitle(s) == s
    ensures |s| == 31 ==> ShortTitle(s) == s[..30] + "..." && ShortTitle(s) != s
    ensures |ShortTitle(s)| <= 33
  {
  }
}
