/** `get_termcmds`: `re.search(r'(?!\d*\:)([\s\S]*)', name).group()` on the terminal buffer's
    name. The search returns the suffix that starts at the first position where the negative
    lookahead holds, i.e. where the text does not begin with a run of digits and a colon. */
module TermCmds {

  predicate IsDigit(c: char)
  {
    '0' <= c <= '9'
  }

  /** The lookahead `\d*\:` matches at the start of s (so `(?!\d*\:)` fails there). `\d*`
      backtracks, so any digit run followed by ':' will do. */
  predicate Blocked(s: string)
    decreases |s|
  {
    |s| > 0 && (s[0] == ':' || (IsDigit(s[0]) && Blocked(s[1..])))
  }

  /** Reference reading of the lookahead: a colon preceded only by digits. */
  ghost predicate DigitsThenColon(s: string, k: int)
  {
    0 <= k < |s| && s[k] == ':' && forall j :: 0 <= j < k ==> IsDigit(s[j])
  }

  lemma {:induction false} BlockedIff(s: string)
    ensures Blocked(s) <==> exists k :: DigitsThenColon(s, k)
    decreases |s|
  {
    if |s| > 0 {
      BlockedIff(s[1..]);
      if s[0] == ':' {
        assert DigitsThenColon(s, 0);
      } else if Blocked(s) {
        var k :| DigitsThenColon(s[1..], k);
        assert DigitsThenColon(s, k + 1);
      } else if IsDigit(s[0]) {
        forall k | DigitsThenColon(s, k) ensures false {
          assert DigitsThenColon(s[1..], k - 1);
        }
      }
    }
  }

  /** The string the search returns. `[\s\S]*` also matches the empty suffix, where the
      lookahead cannot fail, so the search always succeeds and the `''` fallback is dead. */
  function TermCmds(s: string): (r: string)
    ensures |r| <= |s| && r == s[|s| - |r|..]
    ensures !Blocked(r)
    ensures forall i :: 0 <= i < |s| - |r| ==> Blocked(s[i..])
    decreases |s|
  {
    if !Blocked(s) then s
    else
      var r := TermCmds(s[1..]);
      assert forall i :: 1 <= i <= |s| ==> s[i..] == s[1..][i - 1..];
      r
  }

  /** A colon is needed to block the lookahead. */
  lemma {:induction false} BlockedHasColon(s: string)
    requires Blocked(s)
    ensures ':' in s
    decreases |s|
  {
    if s[0] != ':' {
      BlockedHasColon(s[1..]);
    }
  }

  /** A command line without a colon comes back whole. */
  lemma NoColonKept(s: string)
    requires ':' !in s
    ensures TermCmds(s) == s
  {
    if Blocked(s) {
      BlockedHasColon(s);
    }
  }

  /** Neovim-style names such as "12345:bash" lose the job number and its colon. */
  lemma {:induction false} JobPrefixDropped(job: string, cmd: string)
    requires forall j :: 0 <= j < |job| ==> IsDigit(job[j])
    requires !Blocked(cmd)
    ensures TermCmds(job + ":" + cmd) == cmd
    decreases |job|
  {
    var s := job + ":" + cmd;
    if job == [] {
      assert s[1..] == cmd;
    } else {
      assert s[1..] == job[1..] + ":" + cmd;
      JobPrefixDropped(job[1..], cmd);
      BlockedIff(s);
      assert DigitsThenColon(s, |job|);
    }
  }

  lemma JobPrefixExample()
    ensures TermCmds("12345:bash") == "bash"
  {
    assert "12345:bash" == "12345" + ":" + "bash";
    JobPrefixDropped("12345", "bash");
  }
}
