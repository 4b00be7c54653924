/** How the pick and remove commands read the words after the command:
    the duration loop of pick, and the name-resolution loops of pick and
    remove. Each loop is a method proved against a function that states
    what it computes. */
module Arguments {
  import opened Strings
  import opened Lists
  import opened Fuzzy
  import opened Chat

  // ---------------------------------------------------------------------
  // Pick: the duration loop

  /** `for s in parts: if s.isdigit(): parts.remove(s); timer_duration = s`,
      run from iterator position `i` with current duration `d`. Python's
      list iterator walks an index over the live list, so removing an
      element skips the one after it, and `remove` deletes the first equal
      element, which need not be the one being visited. */
  function Stripped(parts: seq<string>, i: nat, d: Duration): (seq<string>, Duration)
    decreases |parts| - i
  {
    if i >= |parts| then (parts, d)
    else if IsDigits(parts[i]) then Stripped(RemoveFirst(parts, parts[i]), i + 1, Typed(parts[i]))
    else Stripped(parts, i + 1, d)
  }

  /** The duration loop as the pick branch runs it, from the start of the tokens. */
  method StripDurations(tokens: seq<string>) returns (parts: seq<string>, duration: Duration)
    ensures (parts, duration) == Stripped(tokens, 0, DefaultDuration)
  {
    parts, duration := tokens, DefaultDuration;
    var i: nat := 0;
    while i < |parts|
      invariant Stripped(parts, i, duration) == Stripped(tokens, 0, DefaultDuration)
      decreases |parts| - i
    {
      var s := parts[i];
      i := i + 1;
      if IsDigits(s) {
        parts := RemoveFirst(parts, s);
        duration := Typed(s);
      }
    }
  }

  /** The loop keeps the duration it started with exactly when no digit
      token lies at or after position `i`; otherwise it ends with a digit
      token that it stripped. */
  lemma {:induction false} StrippedDuration(parts: seq<string>, i: nat, d: Duration)
    ensures var d' := Stripped(parts, i, d).1;
      d' == d || (d'.Typed? && IsDigits(d'.digits) && d'.digits in parts)
    ensures (forall k :: i <= k < |parts| ==> !IsDigits(parts[k])) ==> Stripped(parts, i, d) == (parts, d)
    ensures (exists k :: i <= k < |parts| && IsDigits(parts[k])) ==> Stripped(parts, i, d).1.Typed?
    decreases |parts| - i
  {
    if i >= |parts| {
    } else if IsDigits(parts[i]) {
      var p := RemoveFirst(parts, parts[i]);
      assert Stripped(parts, i, d) == Stripped(p, i + 1, Typed(parts[i]));
      StrippedDuration(p, i + 1, Typed(parts[i]));
      RemoveFirstMultiset(parts, parts[i]);
    } else {
      if exists k :: i <= k < |parts| && IsDigits(parts[k]) {
        var k :| i <= k < |parts| && IsDigits(parts[k]);
        assert k != i;
      }
      assert Stripped(parts, i, d) == Stripped(parts, i + 1, d);
      StrippedDuration(parts, i + 1, d);
    }
  }

  /** Only digit tokens are removed: every other token keeps its count. */
  lemma {:induction false} StrippedRemovesOnlyDigits(parts: seq<string>, i: nat, d: Duration)
    ensures forall t :: !IsDigits(t) ==> multiset(Stripped(parts, i, d).0)[t] == multiset(parts)[t]
    decreases |parts| - i
  {
    if i < |parts| && IsDigits(parts[i]) {
      var x := parts[i];
      var p := RemoveFirst(parts, x);
      RemoveFirstMultiset(parts, x);
      StrippedRemovesOnlyDigits(p, i + 1, Typed(x));
    } else if i < |parts| {
      StrippedRemovesOnlyDigits(parts, i + 1, d);
    }
  }

  /** A prefix of non-digit tokens (the command words) stays in place. */
  lemma {:induction false} StrippedKeepsWordPrefix(parts: seq<string>, i: nat, d: Duration, n: nat)
    requires n <= |parts|
    requires forall k :: 0 <= k < n ==> !IsDigits(parts[k])
    ensures n <= |Stripped(parts, i, d).0| && Stripped(parts, i, d).0[..n] == parts[..n]
    decreases |parts| - i
  {
    if i < |parts| && IsDigits(parts[i]) {
      var x := parts[i];
      var p := RemoveFirst(parts, x);
      assert x !in parts[..n] by {
        forall k | 0 <= k < n ensures parts[..n][k] != x { assert !IsDigits(parts[k]); }
      }
      assert Stripped(parts, i, d) == Stripped(p, i + 1, Typed(x));
      RemoveFirstKeepsPrefix(parts, x, n);
      assert forall k :: 0 <= k < n ==> !IsDigits(p[k]) by {
        forall k | 0 <= k < n ensures !IsDigits(p[k]) { assert p[k] == p[..n][k] == parts[k]; }
      }
      StrippedKeepsWordPrefix(p, i + 1, Typed(x), n);
    } else if i < |parts| {
      StrippedKeepsWordPrefix(parts, i + 1, d, n);
    }
  }

  /** The tokens the duration loop takes out, in the order it takes them. */
  function StrippedTokens(parts: seq<string>, i: nat): seq<string>
    decreases |parts| - i
  {
    if i >= |parts| then []
    else if IsDigits(parts[i]) then [parts[i]] + StrippedTokens(RemoveFirst(parts, parts[i]), i + 1)
    else StrippedTokens(parts, i + 1)
  }

  /** The loop only moves tokens from the words to the removed list. */
  lemma {:induction false} StrippedMovesTokens(parts: seq<string>, i: nat, d: Duration)
    ensures multiset(parts) == multiset(Stripped(parts, i, d).0) + multiset(StrippedTokens(parts, i))
    decreases |parts| - i
  {
    if i < |parts| && IsDigits(parts[i]) {
      var x := parts[i];
      var p := RemoveFirst(parts, x);
      RemoveFirstMultiset(parts, x);
      StrippedMovesTokens(p, i + 1, Typed(x));
      var rest := StrippedTokens(p, i + 1);
      assert Stripped(parts, i, d) == Stripped(p, i + 1, Typed(x));
      assert StrippedTokens(parts, i) == [x] + rest;
      assert multiset([x] + rest) == multiset{x} + multiset(rest);
    } else if i < |parts| {
      StrippedMovesTokens(parts, i + 1, d);
    }
  }

  /** Every removed token is a digit token, and the duration the loop ends
      with is the last token it removed, or the one it started with when it
      removed none. */
  lemma {:induction false} StrippedDurationIsLastRemoved(parts: seq<string>, i: nat, d: Duration)
    ensures var removed := StrippedTokens(parts, i);
      && (forall k :: 0 <= k < |removed| ==> IsDigits(removed[k]))
      && Stripped(parts, i, d).1 == (if removed == [] then d else Typed(removed[|removed| - 1]))
    decreases |parts| - i
  {
    if i < |parts| && IsDigits(parts[i]) {
      var x := parts[i];
      StrippedDurationIsLastRemoved(RemoveFirst(parts, x), i + 1, Typed(x));
    } else if i < |parts| {
      StrippedDurationIsLastRemoved(parts, i + 1, d);
    }
  }

  /** The first digit token at or after the iterator position is always
      the first one removed. */
  lemma {:induction false} StrippedTakesFirstDigit(parts: seq<string>, i: nat, k: nat)
    requires i <= k < |parts| && IsDigits(parts[k])
    requires forall j :: i <= j < k ==> !IsDigits(parts[j])
    ensures StrippedTokens(parts, i) != [] && StrippedTokens(parts, i)[0] == parts[k]
    decreases k - i
  {
    if k > i {
      StrippedTakesFirstDigit(parts, i + 1, k);
    }
  }

  /** Two digit tokens in a row: the second is skipped by the iterator, stays
      among the words, and the first sets the duration. */
  lemma AdjacentDurationsExample()
    ensures Stripped(["!q", "pick", "5", "10"], 0, DefaultDuration) == (["!q", "pick", "10"], Typed("5"))
    ensures StrippedTokens(["!q", "pick", "5", "10"], 0) == ["5"]
  {
    var p := ["!q", "pick", "5", "10"];
    assert p[0][0] == '!' && p[1][0] == 'p';
    assert !IsDigits(p[0]) && !IsDigits(p[1]) && IsDigits(p[2]);
    assert RemoveFirst(p, "5") == ["!q", "pick", "10"];
  }

  // ---------------------------------------------------------------------
  // Pick: the name loop

  /** One pass of the pick name loop: the fuzzy match when it scores at
      least the threshold, else the raw token. */
  function PickCandidate(m: Matcher, queue: seq<string>, token: string): (name: string)
    requires |queue| > 0
    ensures name == token || name in queue
    ensures ExtractOne(m, token, queue).score >= Threshold ==> name == ExtractOne(m, token, queue).name
    ensures ExtractOne(m, token, queue).score < Threshold ==> name == token
  {
    if ExtractOne(m, token, queue).score < Threshold then token
    else ExtractOne(m, token, queue).name
  }

  /** The name a pick ends with: every token after the command words
      overwrites the previous one, so the last token decides; with no such
      token the name stays empty. */
  function PickName(m: Matcher, queue: seq<string>, parts: seq<string>): string
    requires |queue| > 0
  {
    if |parts| > 2 then PickCandidate(m, queue, parts[|parts| - 1]) else ""
  }

  method ResolvePickName(m: Matcher, queue: seq<string>, parts: seq<string>) returns (name: string)
    requires |queue| > 0
    ensures name == PickName(m, queue, parts)
  {
    name := "";
    if |parts| > 2 {
      var rest := parts[2..];
      for i := 0 to |rest|
        invariant i > 0 ==> name == PickCandidate(m, queue, rest[i - 1])
      {
        var s := rest[i];
        name := ExtractOne(m, s, queue).name;
        if ExtractOne(m, s, queue).score < Threshold {
          name := s;
        }
      }
    }
  }

  // ---------------------------------------------------------------------
  // Remove: the name loop

  /** A fuzzy resolution in the remove loop: the match when it scores at
      least the threshold, else the empty name (and an invalid-name notice). */
  function RemoveCandidate(m: Matcher, queue: seq<string>, token: string): (name: string)
    requires |queue| > 0
    ensures name == "" || name in queue
    ensures ExtractOne(m, token, queue).score >= Threshold ==> name == ExtractOne(m, token, queue).name
    ensures ExtractOne(m, token, queue).score < Threshold ==> name == ""
  {
    if ExtractOne(m, token, queue).score < Threshold then ""
    else ExtractOne(m, token, queue).name
  }

  /** A remove token that sets the target: one that starts with `@` (kept
      literally) or an alphanumeric one (fuzzy matched). Any other token
      leaves the target as it was. */
  predicate SetsTarget(token: string) {
    StartsWith(token, "@") || IsAlnum(token)
  }

  /** An alphanumeric token whose fuzzy match is rejected. */
  predicate IsInvalid(m: Matcher, queue: seq<string>, token: string)
    requires |queue| > 0
  {
    !StartsWith(token, "@") && IsAlnum(token) && ExtractOne(m, token, queue).score < Threshold
  }

  /** The target after the remove loop over `tokens`, starting from
      `initial`: decided by the last token that sets a target. */
  function RemoveTarget(m: Matcher, queue: seq<string>, tokens: seq<string>, initial: string): string
    requires |queue| > 0
    decreases |tokens|
  {
    if tokens == [] then initial
    else
      var s := tokens[|tokens| - 1];
      if StartsWith(s, "@") then s
      else if IsAlnum(s) then RemoveCandidate(m, queue, s)
      else RemoveTarget(m, queue, tokens[..|tokens| - 1], initial)
  }

  /** The invalid-name notices the remove loop sends, one per invalid token, in order. */
  function InvalidNotices(m: Matcher, queue: seq<string>, tokens: seq<string>): seq<Response>
    requires |queue| > 0
    decreases |tokens|
  {
    if tokens == [] then []
    else
      InvalidNotices(m, queue, tokens[..|tokens| - 1])
      + (if IsInvalid(m, queue, tokens[|tokens| - 1]) then [InvalidName] else [])
  }

  method ResolveRemoveTarget(m: Matcher, queue: seq<string>, tokens: seq<string>, initial: string)
    returns (name: string, notices: seq<Response>)
    requires |queue| > 0
    ensures name == RemoveTarget(m, queue, tokens, initial)
    ensures notices == InvalidNotices(m, queue, tokens)
  {
    name, notices := initial, [];
    for i := 0 to |tokens|
      invariant name == RemoveTarget(m, queue, tokens[..i], initial)
      invariant notices == InvalidNotices(m, queue, tokens[..i])
    {
      var s := tokens[i];
      assert tokens[..i + 1][..i] == tokens[..i];
      if StartsWith(s, "@") {
        name := s;
      } else if IsAlnum(s) {
        name := ExtractOne(m, s, queue).name;
        if ExtractOne(m, s, queue).score < Threshold {
          name := "";
          notices := notices + [InvalidName];
        }
      }
    }
    assert tokens[..|tokens|] == tokens;
  }

  /** With no token that sets a target, the remove target stays the initial one. */
  lemma {:induction false} RemoveTargetKeepsInitial(m: Matcher, queue: seq<string>, tokens: seq<string>, initial: string)
    requires |queue| > 0
    requires forall k :: 0 <= k < |tokens| ==> !SetsTarget(tokens[k])
    ensures RemoveTarget(m, queue, tokens, initial) == initial
    decreases |tokens|
  {
    if tokens != [] {
      var front := tokens[..|tokens| - 1];
      assert forall k :: 0 <= k < |front| ==> front[k] == tokens[k];
      RemoveTargetKeepsInitial(m, queue, front, initial);
    }
  }

  /** The remove target is the initial value, an `@` token typed in the
      message, a queue member, or empty after a rejected fuzzy match. */
  lemma {:induction false} RemoveTargetOrigin(m: Matcher, queue: seq<string>, tokens: seq<string>, initial: string)
    requires |queue| > 0
    ensures var t := RemoveTarget(m, queue, tokens, initial);
      t == initial || t == "" || t in queue || (t in tokens && StartsWith(t, "@"))
    decreases |tokens|
  {
    if tokens != [] {
      var front := tokens[..|tokens| - 1];
      RemoveTargetOrigin(m, queue, front, initial);
      assert forall t :: t in front ==> t in tokens;
    }
  }

  /** The remove loop sends nothing but invalid-name notices, and none at
      all when every token starts with `@` or has a match at or above the threshold. */
  lemma {:induction false} InvalidNoticesSpec(m: Matcher, queue: seq<string>, tokens: seq<string>)
    requires |queue| > 0
    ensures forall k :: 0 <= k < |InvalidNotices(m, queue, tokens)| ==> InvalidNotices(m, queue, tokens)[k] == InvalidName
    ensures |InvalidNotices(m, queue, tokens)| <= |tokens|
    ensures (forall k :: 0 <= k < |tokens| ==> !IsInvalid(m, queue, tokens[k])) ==> InvalidNotices(m, queue, tokens) == []
    decreases |tokens|
  {
    if tokens != [] {
      var front := tokens[..|tokens| - 1];
      assert forall k :: 0 <= k < |front| ==> front[k] == tokens[k];
      InvalidNoticesSpec(m, queue, front);
    }
  }
}
