/** The audit trail of channels called for one request (internal/router/dispatcher.go). */
module Trail {
  import opened Common
  import Limits

  const ARROW: char := '\U{2192}'
  const ELLIPSIS: char := '\U{2026}'
  const MAX_TRAIL: nat := 128

  function Join(hops: seq<string>): string {
    if hops == [] then ""
    else if |hops| == 1 then hops[0]
    else hops[0] + [ARROW] + Join(hops[1..])
  }

  /** What keeping hops from the most recent backwards yields, `i` hops being still ahead. */
  function KeepRecent(all: seq<string>, i: nat, out: string): string
    requires i <= |all|
  {
    if i == 0 then out
    else
      var candidate := if out == "" then all[i - 1] else all[i - 1] + [ARROW] + out;
      if |candidate| + 1 > MAX_TRAIL then out else KeepRecent(all, i - 1, candidate)
  }

  function LastPart(s: string, keep: nat): string {
    if |s| > keep then s[|s| - keep..] else s
  }

  function Format(all: seq<string>): string
    requires all != []
  {
    if |Join(all)| <= MAX_TRAIL then Join(all)
    else
      var out := KeepRecent(all, |all|, "");
      [ELLIPSIS] + if out == "" then LastPart(all[|all| - 1], MAX_TRAIL - 1) else out
  }

  method FormatChannelTrail(prior: seq<string>, attempted: seq<string>, final: string) returns (s: string)
    ensures s == Format(prior + attempted + [final])
  {
    var all := prior + attempted + [final];
    var joined := Join(all);
    if |joined| <= MAX_TRAIL {
      return joined;
    }
    var out := "";
    var i := |all|;
    while i > 0
      invariant 0 <= i <= |all|
      invariant KeepRecent(all, |all|, "") == KeepRecent(all, i, out)
    {
      var candidate := all[i - 1];
      if out != "" {
        candidate := candidate + [ARROW] + out;
      }
      if |candidate| + 1 > MAX_TRAIL {
        break;
      }
      out := candidate;
      i := i - 1;
    }
    assert KeepRecent(all, |all|, "") == out;
    if out == "" {
      var r := all[|all| - 1];
      if |r| > MAX_TRAIL - 1 {
        r := r[|r| - (MAX_TRAIL - 1)..];
      }
      return [ELLIPSIS] + r;
    }
    return [ELLIPSIS] + out;
  }

  // ---- What the trail says ----

  lemma {:induction false} KeepRecentFits(all: seq<string>, i: nat, out: string)
    requires i <= |all| && |out| < MAX_TRAIL
    ensures |KeepRecent(all, i, out)| < MAX_TRAIL
  {
    if i > 0 {
      var candidate := if out == "" then all[i - 1] else all[i - 1] + [ARROW] + out;
      if |candidate| + 1 <= MAX_TRAIL {
        KeepRecentFits(all, i - 1, candidate);
      }
    }
  }

  /** Whatever the names, the trail fits its column, so storage writes it unchanged. */
  lemma TrailIsStoredWhole(all: seq<string>)
    requires all != []
    ensures |Format(all)| <= 128
    ensures Limits.ClampRunes(Format(all), 128) == Format(all)
  {
    KeepRecentFits(all, |all|, "");
  }

  lemma JoinTail(all: seq<string>, i: nat)
    requires 0 < i < |all|
    ensures Join(all[i - 1..]) == all[i - 1] + [ARROW] + Join(all[i..])
  {
    assert all[i - 1..][1..] == all[i..];
  }

  /** Hops are joined by arrows, however they are grouped. */
  lemma {:induction false} HopsAreJoined(a: seq<string>, b: seq<string>)
    ensures Join(a + b) == if a == [] then Join(b) else if b == [] then Join(a) else Join(a) + "\U{2192}" + Join(b)
    ensures forall hop :: Join([hop]) == hop
  {
    if a == [] {
      assert a + b == b;
    } else if b == [] {
      assert a + b == a;
    } else {
      assert (a + b)[1..] == a[1..] + b && (a + b)[0] == a[0];
      HopsAreJoined(a[1..], b);
    }
  }

  /** `j` is where the longest suffix of hops that leaves room for the ellipsis starts. */
  predicate LongestFit(all: seq<string>, j: nat) {
    && 0 < j < |all|
    && |Join(all[j..])| < 128
    && |Join(all[j - 1..])| >= 128
  }

  lemma {:induction false} KeepRecentIsLongestFit(all: seq<string>, i: nat)
    requires 0 < i < |all| && Join(all[i..]) != ""
    requires |Join(all[i..])| < MAX_TRAIL && |Join(all)| >= MAX_TRAIL
    ensures exists j: nat :: LongestFit(all, j) && Join(all[j..]) != "" && KeepRecent(all, i, Join(all[i..])) == Join(all[j..])
  {
    JoinTail(all, i);
    assert all[0..] == all;
    if |Join(all[i - 1..])| >= MAX_TRAIL {
      assert LongestFit(all, i);
    } else {
      KeepRecentIsLongestFit(all, i - 1);
    }
  }

  lemma ServingHop(all: seq<string>)
    requires all != []
    ensures var n := |all| - 1;
            && KeepRecent(all, |all|, "") == (if |all[n]| >= MAX_TRAIL then "" else KeepRecent(all, n, all[n]))
            && Join(all[n..]) == all[n] && (n == 0 ==> Join(all) == all[n])
  {
    assert all[|all| - 1..] == [all[|all| - 1]];
  }

  /** Past a named serving channel the longest run of hops is kept, and it is not empty. */
  lemma EarlierHops(all: seq<string>)
    requires all != [] && all[|all| - 1] != "" && |Join(all)| > MAX_TRAIL && |all[|all| - 1]| < MAX_TRAIL
    ensures KeepRecent(all, |all|, "") != ""
    ensures exists j: nat :: LongestFit(all, j) && KeepRecent(all, |all|, "") == Join(all[j..])
  {
    hide Join, KeepRecent;
    ServingHop(all);
    KeepRecentIsLongestFit(all, |all| - 1);
  }

  /**
   * With a named serving channel, whatever the other names: the whole chain when it fits, else an ellipsis
   * before the longest run of most recent hops that fits, else an ellipsis before the end of the serving
   * channel's name.
   */
  lemma TrailKeepsMostRecentHops(all: seq<string>)
    requires all != [] && all[|all| - 1] != ""
    ensures var last := all[|all| - 1];
            if |Join(all)| <= 128 then Format(all) == Join(all)
            else if |last| >= 128 then Format(all) == "\U{2026}" + last[|last| - 127..]
            else exists j: nat :: LongestFit(all, j) && Format(all) == "\U{2026}" + Join(all[j..])
  {
    hide Join, LongestFit, KeepRecent;
    ServingHop(all);
    if |Join(all)| > MAX_TRAIL && |all[|all| - 1]| < MAX_TRAIL {
      EarlierHops(all);
    }
  }

  // ---- When nothing is left but the ellipsis ----

  /** The hops from `h` up to `n` are unnamed, and the one before them, if there is one, does not fit. */
  predicate HiddenUpTo(all: seq<string>, n: nat, h: nat) {
    && h <= n <= |all|
    && (forall k :: h <= k < n ==> all[k] == "")
    && (h == 0 || |all[h - 1]| >= MAX_TRAIL)
  }

  lemma {:induction false} KeepRecentKeepsText(all: seq<string>, i: nat, out: string)
    requires i <= |all| && out != ""
    ensures KeepRecent(all, i, out) != ""
  {
    if i > 0 {
      var candidate := all[i - 1] + [ARROW] + out;
      if |candidate| + 1 <= MAX_TRAIL {
        KeepRecentKeepsText(all, i - 1, candidate);
      }
    }
  }

  /** Walking back from `n` keeps nothing exactly when only unnamed hops come before one that does not fit. */
  lemma {:induction false} KeepsNothingIff(all: seq<string>, n: nat)
    requires n <= |all|
    ensures KeepRecent(all, n, "") == "" <==> exists h: nat :: HiddenUpTo(all, n, h)
  {
    if n == 0 {
      assert HiddenUpTo(all, 0, 0);
    } else if all[n - 1] == "" {
      var m: nat := n - 1;
      KeepsNothingIff(all, m);
      if h: nat :| HiddenUpTo(all, m, h) {
        assert HiddenUpTo(all, n, h);
      }
      if h: nat :| HiddenUpTo(all, n, h) {
        assert h < n && HiddenUpTo(all, m, h);
      }
    } else if |all[n - 1]| >= MAX_TRAIL {
      assert HiddenUpTo(all, n, n);
    } else {
      KeepRecentKeepsText(all, n - 1, all[n - 1]);
    }
  }

  /**
   * Exactly when a chain too long to be shown whole leaves a bare ellipsis: the serving channel is unnamed,
   * and so is every hop back to one that does not fit, or to the start.
   */
  lemma BareEllipsisIff(all: seq<string>)
    requires all != [] && |Join(all)| > MAX_TRAIL
    ensures Format(all) == [ELLIPSIS] <==> all[|all| - 1] == "" && exists h: nat :: HiddenUpTo(all, |all|, h)
  {
    hide Join, KeepRecent;
    KeepsNothingIff(all, |all|);
    var out := KeepRecent(all, |all|, "");
    var shown := if out == "" then LastPart(all[|all| - 1], MAX_TRAIL - 1) else out;
    assert Format(all) == [ELLIPSIS] + shown;
    assert |[ELLIPSIS] + shown| == 1 + |shown|;
  }

  /** So an unnamed serving channel behind one whose name does not fit leaves a bare ellipsis. */
  lemma UnnamedChannelLeavesBareEllipsis(long: string)
    requires |long| >= MAX_TRAIL
    ensures Format([long, ""]) == [ELLIPSIS]
  {
    assert Join([long, ""]) == long + [ARROW] + Join([""]);
    assert HiddenUpTo([long, ""], 2, 1);
    BareEllipsisIff([long, ""]);
  }
}
