/** Subjects, patterns and matching (src/broker.ts): the code's index loops against a declarative
    reading of `*` and a trailing `>`. */
module Subjects {
  import opened Text

  /** value.split('.') */
  function Split(value: string): (tokens: seq<string>)
    ensures tokens != []
  {
    if value == [] then [[]]
    else if value[0] == '.' then [[]] + Split(value[1..])
    else
      var rest := Split(value[1..]);
      [[value[0]] + rest[0]] + rest[1..]
  }

  function Join(tokens: seq<string>): string
    requires tokens != []
  {
    if |tokens| == 1 then tokens[0] else tokens[0] + "." + Join(tokens[1..])
  }

  /** Putting a character before the first token puts it before the whole. */
  lemma JoinFirst(c: char, tokens: seq<string>)
    requires tokens != []
    ensures Join([[c] + tokens[0]] + tokens[1..]) == [c] + Join(tokens)
  {
    var more := [[c] + tokens[0]] + tokens[1..];
    assert more[1..] == tokens[1..];
    if |tokens| > 1 { assert [c] + tokens[0] + "." + Join(tokens[1..]) == [c] + (tokens[0] + "." + Join(tokens[1..])); }
  }

  lemma {:induction false} JoinSplit(value: string)
    ensures Join(Split(value)) == value
  {
    if value != [] {
      var rest, tokens := Split(value[1..]), Split(value);
      JoinSplit(value[1..]);
      assert value == [value[0]] + value[1..];
      if value[0] == '.' {
        assert tokens[1..] == rest;
      } else {
        JoinFirst(value[0], rest);
      }
    }
  }

  lemma {:induction false} SplitOf(head: string, tail: string)
    requires '.' !in head
    ensures Split(head + "." + tail) == [head] + Split(tail)
    ensures Split(head) == [head]
  {
    if head == [] {
      assert ("." + tail)[1..] == tail;
      assert head + "." + tail == "." + tail;
    } else {
      assert (head + "." + tail)[1..] == head[1..] + "." + tail;
      assert head[0] in head;
      SplitOf(head[1..], tail);
      assert [head[0]] + head[1..] == head;
    }
  }

  /** Splitting undoes joining: subjects and token lists are two forms of the same thing. */
  lemma {:induction false} SplitJoin(tokens: seq<string>)
    requires tokens != [] && forall t | t in tokens :: '.' !in t
    ensures Split(Join(tokens)) == tokens
  {
    if |tokens| == 1 {
      SplitOf(tokens[0], "");
    } else {
      SplitOf(tokens[0], Join(tokens[1..]));
      SplitJoin(tokens[1..]);
    }
  }

  /** A token without wildcard characters or white space. */
  ghost predicate Literal(token: string) {
    token != "" && forall c | c in token :: c != '*' && c != '>' && !IsSpace(c)
  }

  /** What token i of n may be: a literal or, in a pattern, `*` anywhere and `>` at the end. */
  ghost predicate TokenOk(token: string, last: bool, wildcards: bool) {
    Literal(token) || (wildcards && token == "*") || (wildcards && token == ">" && last)
  }

  ghost predicate Valid(value: string, wildcards: bool) {
    var tokens := Split(value);
    forall i | 0 <= i < |tokens| :: TokenOk(tokens[i], i == |tokens| - 1, wildcards)
  }

  /** /[*>\s]/.test(token) */
  method HasForbidden(token: string) returns (found: bool)
    ensures found <==> exists c :: c in token && (c == '*' || c == '>' || IsSpace(c))
  {
    for i := 0 to |token|
      invariant forall j | 0 <= j < i :: token[j] != '*' && token[j] != '>' && !IsSpace(token[j])
    {
      if token[i] == '*' || token[i] == '>' || IsSpace(token[i]) { assert token[i] in token; return true; }
    }
    return false;
  }

  method ValidSubject(value: string, wildcards: bool) returns (ok: bool)
    ensures ok <==> Valid(value, wildcards)
  {
    var tokens := Split(value);
    if value == "" { assert !TokenOk(tokens[0], true, wildcards); return false; }
    for i := 0 to |tokens|
      invariant forall j | 0 <= j < i :: TokenOk(tokens[j], j == |tokens| - 1, wildcards)
    {
      var tok := tokens[i];
      if tok == "" { assert !TokenOk(tok, i == |tokens| - 1, wildcards); return false; }
      if tok == ">" {
        assert !Literal(tok) by { assert tok[0] in tok; }
        assert TokenOk(tok, i == |tokens| - 1, wildcards) <==> wildcards && i == |tokens| - 1;
        return wildcards && i == |tokens| - 1;
      }
      if tok == "*" {
        if !wildcards {
          assert !TokenOk(tok, i == |tokens| - 1, wildcards) by { assert tok[0] in tok; }
          return false;
        }
        continue;
      }
      var bad := HasForbidden(tok);
      if bad { assert !TokenOk(tok, i == |tokens| - 1, wildcards); return false; }
    }
    return true;
  }

  /** `*` stands for one token, `>` for one or more. */
  predicate Matches(s: seq<string>, p: seq<string>) {
    if p == [] then s == []
    else if p[0] == ">" then s != []
    else s != [] && (p[0] == "*" || p[0] == s[0]) && Matches(s[1..], p[1..])
  }

  ghost predicate Match(subject: string, pattern: string) {
    Valid(subject, false) && Valid(pattern, true) && Matches(Split(subject), Split(pattern))
  }

  method MatchSubject(subject: string, pattern: string) returns (ok: bool)
    ensures ok <==> Match(subject, pattern)
  {
    ok := ValidSubject(subject, false);
    if !ok { return; }
    ok := ValidSubject(pattern, true);
    if !ok { return; }
    var s, p := Split(subject), Split(pattern);
    var i := 0;
    for k := 0 to |p|
      invariant i == k && i <= |s|
      invariant Matches(s, p) <==> Matches(s[i..], p[k..])
    {
      var tok := p[k];
      if tok == ">" { return i < |s|; }
      if i >= |s| || (tok != "*" && tok != s[i]) { return false; }
      assert s[i..][1..] == s[i + 1..] && p[k..][1..] == p[k + 1..];
      i := i + 1;
    }
    return i == |s|;
  }

  ghost predicate Agree(s: seq<string>, p: seq<string>, n: nat)
    requires n <= |s| && n <= |p|
  {
    forall i | 0 <= i < n :: p[i] == "*" || p[i] == s[i]
  }

  /** Matching, read off the two token lists: position by position, with a trailing `>` covering
      at least one token. */
  lemma {:induction false} MatchesIff(s: seq<string>, p: seq<string>)
    requires p != [] && forall i | 0 <= i < |p| - 1 :: p[i] != ">"
    ensures Matches(s, p) <==>
            if p[|p| - 1] == ">" then |s| >= |p| && Agree(s, p, |p| - 1)
            else |s| == |p| && Agree(s, p, |p|)
    decreases |p|
  {
    if s != [] && |p| > 1 {
      MatchesIff(s[1..], p[1..]);
      var n := if p[|p| - 1] == ">" then |p| - 1 else |p|;
      if |s| >= n {
        assert Agree(s, p, n) <==> (p[0] == "*" || p[0] == s[0]) && Agree(s[1..], p[1..], n - 1) by {
          assert forall i | 1 <= i < n :: p[i] == p[1..][i - 1] && s[i] == s[1..][i - 1];
          assert forall i | 0 <= i < n - 1 :: p[1..][i] == p[i + 1] && s[1..][i] == s[i + 1];
        }
      }
    }
  }

  /** A valid subject is a valid pattern, and as one it accepts itself and nothing else. */
  lemma LiteralMatchesItself(subject: string, other: string)
    requires Valid(subject, false) && Valid(other, false)
    ensures Valid(subject, true) && (Match(other, subject) <==> other == subject)
  {
    var s, p := Split(other), Split(subject);
    forall i | 0 <= i < |p| ensures TokenOk(p[i], i == |p| - 1, true) && p[i] != "*" && p[i] != ">" {
      assert TokenOk(p[i], i == |p| - 1, false);
      assert p[i] != [] && p[i][0] in p[i];
    }
    MatchesIff(s, p);
    JoinSplit(subject);
    JoinSplit(other);
    if Match(other, subject) { assert s == p; }
  }
}
