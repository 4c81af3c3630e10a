/** The SQL data access layer's test for an exception caused by the connection rather than
    by the statement: an SQL state of class `08`, or a lower-cased message that mentions
    one of six network failure phrases. The exception itself is reduced to its two
    nullable strings. */
module SqlDaoUtils {
  import opened Wrappers

  /** `s` begins with `prefix`, by recursion over both. */
  predicate StartsWith(s: string, prefix: string)
    decreases prefix
  {
    |prefix| == 0 || (|s| > 0 && s[0] == prefix[0] && StartsWith(s[1..], prefix[1..]))
  }

  /** `StartsWith` is agreement on the first `|prefix|` characters. */
  lemma {:induction false} StartsWithSlice(s: string, prefix: string)
    ensures StartsWith(s, prefix) <==> |prefix| <= |s| && s[..|prefix|] == prefix
    decreases prefix
  {
    if |prefix| > 0 && |s| > 0 {
      StartsWithSlice(s[1..], prefix[1..]);
      if s[0] == prefix[0] && |prefix| <= |s| && s[..|prefix|] == prefix {
        assert s[1..][..|prefix| - 1] == s[..|prefix|][1..];
      }
      if StartsWith(s, prefix) {
        assert s[..|prefix|] == [s[0]] + s[1..][..|prefix| - 1];
        assert prefix == [prefix[0]] + prefix[1..];
      }
    }
  }

  /** `s` has `sub` at some position, trying each start in turn. */
  predicate Contains(s: string, sub: string)
    decreases |s|
  {
    StartsWith(s, sub) || (|s| > 0 && Contains(s[1..], sub))
  }

  /** `sub` occurs in `s` starting at index `i`. */
  predicate OccursAt(s: string, sub: string, i: int)
  {
    0 <= i <= |s| - |sub| && s[i..i + |sub|] == sub
  }

  /** A window of `s` is the same window, one place earlier, of `s` without its head. */
  lemma DropOne(s: string, i: int, n: int)
    requires 1 <= i && 0 <= n && i + n <= |s|
    ensures s[1..][i - 1..i - 1 + n] == s[i..i + n]
  {
  }

  /** `Contains` is an occurrence at some index. */
  lemma {:induction false} ContainsAt(s: string, sub: string)
    ensures Contains(s, sub) <==> exists i :: OccursAt(s, sub, i)
    decreases |s|
  {
    StartsWithSlice(s, sub);
    if |s| > 0 {
      ContainsAt(s[1..], sub);
      if StartsWith(s, sub) {
        assert OccursAt(s, sub, 0);
      } else if Contains(s[1..], sub) {
        var i :| OccursAt(s[1..], sub, i);
        DropOne(s, i + 1, |sub|);
        assert OccursAt(s, sub, i + 1);
      }
      if exists i :: OccursAt(s, sub, i) {
        var i :| OccursAt(s, sub, i);
        if i > 0 {
          DropOne(s, i, |sub|);
          assert OccursAt(s[1..], sub, i - 1);
        }
      }
    } else if StartsWith(s, sub) {
      assert OccursAt(s, sub, 0);
    }
  }

  /** Lower-case one character; only the ASCII capitals change. */
  function LowerChar(c: char): char
  {
    if 'A' <= c <= 'Z' then (c as int - 'A' as int + 'a' as int) as char else c
  }

  /** `toLowerCase`, restricted to ASCII capitals. */
  function ToLower(s: string): (r: string)
    ensures |r| == |s|
    ensures forall i | 0 <= i < |s| :: r[i] == LowerChar(s[i])
  {
    seq(|s|, i requires 0 <= i < |s| => LowerChar(s[i]))
  }

  /** Lower-casing leaves no capital behind, so doing it twice is doing it once. */
  lemma ToLowerIdempotent(s: string)
    ensures ToLower(ToLower(s)) == ToLower(s)
    ensures forall i | 0 <= i < |s| :: !('A' <= ToLower(s)[i] <= 'Z')
  {
  }

  /** The message fragments that mark a network failure, in lower case. */
  const ConnectionPhrases: seq<string> := [
    "communications link failure",
    "connection refused",
    "connection timed out",
    "cannot create poolableconnectionfactory",
    "unknown host",
    "network is unreachable"
  ]

  /** The message a null `getMessage` stands for. */
  function NormalMessage(message: Option<string>): (r: string)
    ensures message.None? ==> r == ""
    ensures message.Some? ==> r == ToLower(message.value)
  {
    if message.None? then "" else ToLower(message.value)
  }

  /** Some connection phrase occurs in the lower-cased message. */
  predicate MentionsNetwork(message: string)
  {
    exists k | 0 <= k < |ConnectionPhrases| :: Contains(message, ConnectionPhrases[k])
  }

  /** `isConnectionIssue`: a state of class 08 answers true before the message is looked
      at; otherwise the lower-cased message (empty when null) must contain one of the
      phrases. */
  function IsConnectionIssue(sqlState: Option<string>, message: Option<string>): (r: bool)
    ensures r <==> (sqlState.Some? && |sqlState.value| >= 2 && sqlState.value[..2] == "08")
                   || (exists k, i | 0 <= k < |ConnectionPhrases| ::
                         OccursAt(NormalMessage(message), ConnectionPhrases[k], i))
  {
    StartsWithSlice(if sqlState.Some? then sqlState.value else "", "08");
    ContainsPhrases(NormalMessage(message));
    (sqlState.Some? && StartsWith(sqlState.value, "08")) || MentionsNetwork(NormalMessage(message))
  }

  /** `MentionsNetwork` is an occurrence of some phrase. */
  lemma ContainsPhrases(message: string)
    ensures MentionsNetwork(message) <==>
              exists k, i | 0 <= k < |ConnectionPhrases| :: OccursAt(message, ConnectionPhrases[k], i)
  {
    forall k | 0 <= k < |ConnectionPhrases|
      ensures Contains(message, ConnectionPhrases[k]) <==> exists i :: OccursAt(message, ConnectionPhrases[k], i)
    {
      ContainsAt(message, ConnectionPhrases[k]);
    }
  }

  /** Without a state, a missing message is never a connection issue; a state of class 08
      is one whatever the message; and the test does not depend on the message's case. */
  lemma ConnectionIssueCases(sqlState: Option<string>, message: string)
    ensures !IsConnectionIssue(None, None)
    ensures IsConnectionIssue(Some("08S01"), Some(message))
    ensures IsConnectionIssue(sqlState, Some(ToLower(message))) == IsConnectionIssue(sqlState, Some(message))
  {
    ToLowerIdempotent(message);
    assert "08S01"[..2] == "08";
    assert NormalMessage(Some(ToLower(message))) == NormalMessage(Some(message));
  }
}
