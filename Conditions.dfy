/**
 * Topic conditions: a pattern such as "%s && (%s || %s)" whose placeholders are
 * filled, left to right, with one "'<topic>' in topics" clause per topic.
 * Only the "%s" conversion of vsprintf is modelled.
 */
module Conditions {

  /** `substr_count($s, '%s')`: the non-overlapping occurrences of "%s", scanned left to right. */
  function CountPlaceholders(s: string): (n: nat)
    ensures 2 * n <= |s|
  {
    if |s| < 2 then 0
    else if s[0] == '%' && s[1] == 's' then 1 + CountPlaceholders(s[2..])
    else CountPlaceholders(s[1..])
  }

  /** Every '%' of the pattern starts a "%s", so vsprintf reads exactly the placeholders. */
  predicate PercentOnlyInPlaceholders(s: string) {
    forall i :: 0 <= i < |s| && s[i] == '%' ==> i + 1 < |s| && s[i + 1] == 's'
  }

  /** `vsprintf($pattern, $args)` for a pattern whose only conversions are "%s". */
  function Substitute(pattern: string, args: seq<string>): string
    requires PercentOnlyInPlaceholders(pattern)
    requires |args| == CountPlaceholders(pattern)
    decreases |pattern|
  {
    if |pattern| < 2 then pattern
    else if pattern[0] == '%' && pattern[1] == 's' then
      assert PercentOnlyInPlaceholders(pattern[2..]) by {
        forall i | 0 <= i < |pattern[2..]| && pattern[2..][i] == '%'
          ensures i + 1 < |pattern[2..]| && pattern[2..][i + 1] == 's'
        {
          assert pattern[i + 2] == '%';
        }
      }
      args[0] + Substitute(pattern[2..], args[1..])
    else
      assert PercentOnlyInPlaceholders(pattern[1..]) by {
        forall i | 0 <= i < |pattern[1..]| && pattern[1..][i] == '%'
          ensures i + 1 < |pattern[1..]| && pattern[1..][i + 1] == 's'
        {
          assert pattern[i + 1] == '%';
        }
      }
      [pattern[0]] + Substitute(pattern[1..], args)
  }

  /** The clause a topic contributes to a condition. */
  function InTopics(name: string): string {
    "'" + name + "' in topics"
  }

  /**
   * Reference reading of a filled pattern: the literal pieces lits[0], ...,
   * lits[n] with holes[i] placed between lits[i] and lits[i + 1].
   */
  function Fill(lits: seq<string>, holes: seq<string>): string
    requires |lits| == |holes| + 1
    decreases |holes|
  {
    if holes == [] then lits[0] else lits[0] + holes[0] + Fill(lits[1..], holes[1..])
  }

  function Placeholders(n: nat): (ps: seq<string>)
    ensures |ps| == n && forall i :: 0 <= i < n ==> ps[i] == "%s"
  {
    if n == 0 then [] else ["%s"] + Placeholders(n - 1)
  }

  predicate NoPercent(s: string) {
    forall i :: 0 <= i < |s| ==> s[i] != '%'
  }

  /** A piece of literal text passes through the scan unchanged. */
  lemma {:induction false} LiteralPrefix(l: string, s: string, args: seq<string>)
    requires NoPercent(l)
    requires PercentOnlyInPlaceholders(s) && |args| == CountPlaceholders(s)
    ensures PercentOnlyInPlaceholders(l + s)
    ensures CountPlaceholders(l + s) == CountPlaceholders(s)
    ensures Substitute(l + s, args) == l + Substitute(s, args)
    decreases |l|
  {
    if l != [] {
      LiteralPrefix(l[1..], s, args);
      assert (l + s)[1..] == l[1..] + s;
      forall i | 0 <= i < |l + s| && (l + s)[i] == '%'
        ensures i + 1 < |l + s| && (l + s)[i + 1] == 's'
      {
        assert i > 0;
        assert (l[1..] + s)[i - 1] == (l + s)[i];
      }
      if |l + s| >= 2 {
        assert (l + s)[0] == l[0] != '%';
        assert Substitute(l + s, args) == [l[0]] + Substitute(l[1..] + s, args);
        assert l == [l[0]] + l[1..];
      } else {
        assert s == [] && l == [l[0]];
      }
    } else {
      assert l + s == s;
    }
  }

  /**
   * Filling the pattern lits[0] %s lits[1] %s ... lits[n] by Substitute puts
   * the i-th argument in the i-th hole: placeholders are consumed in order, and
   * their count is what substr_count reports.
   */
  lemma {:induction false} SubstituteFillsInOrder(lits: seq<string>, args: seq<string>)
    requires |lits| == |args| + 1
    requires forall i :: 0 <= i < |lits| ==> NoPercent(lits[i])
    ensures PercentOnlyInPlaceholders(Fill(lits, Placeholders(|args|)))
    ensures CountPlaceholders(Fill(lits, Placeholders(|args|))) == |args|
    ensures Substitute(Fill(lits, Placeholders(|args|)), args) == Fill(lits, args)
    decreases |args|
  {
    var ps := Placeholders(|args|);
    if args == [] {
      LiteralPrefix(lits[0], "", []);
      assert lits[0] + "" == lits[0];
    } else {
      assert ps[1..] == Placeholders(|args| - 1);
      SubstituteFillsInOrder(lits[1..], args[1..]);
      var tail := Fill(lits[1..], ps[1..]);
      var rest := "%s" + tail;
      assert rest[2..] == tail;
      assert PercentOnlyInPlaceholders(rest) by {
        forall i | 0 <= i < |rest| && rest[i] == '%'
          ensures i + 1 < |rest| && rest[i + 1] == 's'
        {
          if i >= 2 { assert tail[i - 2] == '%'; }
        }
      }
      LiteralPrefix(lits[0], rest, args);
      assert Fill(lits, ps) == lits[0] + rest;
      assert Fill(lits, args) == lits[0] + (args[0] + Fill(lits[1..], args[1..]));
    }
  }
}
