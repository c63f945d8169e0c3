/** The cache key of a list request and the invalidation pattern of a team. */
module CacheKeys {
  import opened Text
  import opened Domain

  const ALL := "all"

  function TeamPart(f: Filter): string {
    if f.team.Some? then UuidText(f.team.value) else ALL
  }

  function StatusPart(f: Filter): string {
    if f.status.Some? then f.status.value else ALL
  }

  function AssigneePart(f: Filter): string {
    if f.assignee.Some? then UuidText(f.assignee.value) else ALL
  }

  function KeyTail(f: Filter): string {
    StatusPart(f) + ":" + AssigneePart(f) + ":" + ("p" + DecInt(f.page)) + ":" + ("l" + DecInt(f.limit))
  }

  function CacheKey(f: Filter): string {
    "tasks:" + (TeamPart(f) + ":" + KeyTail(f))
  }

  function CachePattern(team: Uuid): string {
    "tasks:" + UuidText(team) + ":*"
  }

  // ---- splitting a string at its first or last colon ----

  lemma SplitFirst(x: string, r: string, y: string, s: string)
    requires x + ":" + r == y + ":" + s && ':' !in x && ':' !in y
    ensures x == y && r == s
  {
    var a := x + ":" + r;
    assert a == y + ":" + s && a[|x|] == ':' && a[|y|] == ':';
    assert forall i :: 0 <= i < |x| ==> a[i] == x[i];
    assert forall i :: 0 <= i < |y| ==> a[i] == y[i];
    assert |x| == |y|;
    CutInjective(x + ":", r, y + ":", s);
    CutInjective(x, ":", y, ":");
  }

  lemma SplitLast(r: string, x: string, s: string, y: string)
    requires r + ":" + x == s + ":" + y && ':' !in x && ':' !in y
    ensures x == y && r == s
  {
    var a := r + ":" + x;
    assert a == s + ":" + y && a[|r|] == ':' && a[|s|] == ':';
    assert forall i :: |r| < i < |a| ==> a[i] == x[i - |r| - 1];
    assert forall i :: |s| < i < |a| ==> a[i] == y[i - |s| - 1];
    assert |r| == |s|;
    CutInjective(r + ":", x, s + ":", y);
    CutInjective(r, ":", s, ":");
  }

  /** A status filter spelled "all" reads like no status filter at all. */
  function Canon(f: Filter): Filter {
    if f.status == Some(ALL) then f.(status := None) else f
  }

  lemma PartsAreColonFree(f: Filter)
    ensures ':' !in TeamPart(f) && ':' !in AssigneePart(f)
    ensures ':' !in "p" + DecInt(f.page) && ':' !in "l" + DecInt(f.limit)
  {
    if f.team.Some? { UuidTextAlphabet(f.team.value); }
    if f.assignee.Some? { UuidTextAlphabet(f.assignee.value); }
    DecIntHasNoColon(f.page);
    DecIntHasNoColon(f.limit);
  }

  lemma UuidOrAllInjective(x: Option<Uuid>, y: Option<Uuid>)
    requires (if x.Some? then UuidText(x.value) else ALL) == (if y.Some? then UuidText(y.value) else ALL)
    ensures x == y
  {
    if x.Some? { UuidTextAlphabet(x.value); }
    if y.Some? { UuidTextAlphabet(y.value); }
    if x.Some? && y.Some? { UuidTextInjective(x.value, y.value); }
  }

  /**
   * Which requests share a cache slot: exactly those that differ at most in writing "all" for the
   * absent status. A status may contain colons; the key is still unambiguous.
   */
  lemma KeysCollideIff(f: Filter, g: Filter)
    ensures CacheKey(f) == CacheKey(g) <==> Canon(f) == Canon(g)
  {
    if CacheKey(f) == CacheKey(g) {
      PartsAreColonFree(f);
      PartsAreColonFree(g);
      var fp, gp := "p" + DecInt(f.page), "p" + DecInt(g.page);
      var fl, gl := "l" + DecInt(f.limit), "l" + DecInt(g.limit);
      var f2, g2 := StatusPart(f) + ":" + AssigneePart(f), StatusPart(g) + ":" + AssigneePart(g);
      var f1, g1 := f2 + ":" + fp, g2 + ":" + gp;
      CutInjective("tasks:", TeamPart(f) + ":" + KeyTail(f), "tasks:", TeamPart(g) + ":" + KeyTail(g));
      SplitFirst(TeamPart(f), f1 + ":" + fl, TeamPart(g), g1 + ":" + gl);
      SplitLast(f1, fl, g1, gl);
      SplitLast(f2, fp, g2, gp);
      SplitLast(StatusPart(f), AssigneePart(f), StatusPart(g), AssigneePart(g));
      UuidOrAllInjective(f.team, g.team);
      UuidOrAllInjective(f.assignee, g.assignee);
      assert DecInt(f.page) == fp[1..] == gp[1..] == DecInt(g.page);
      assert DecInt(f.limit) == fl[1..] == gl[1..] == DecInt(g.limit);
      DecIntInjective(f.page, g.page);
      DecIntInjective(f.limit, g.limit);
    }
  }

  // ---- Redis glob matching ----

  /** Glob matching with '*', '?' and the escape '\'; bracket classes never occur in these patterns. */
  predicate Glob(pattern: string, s: string)
    decreases |pattern| + |s|
  {
    if pattern == "" then s == ""
    else if pattern[0] == '*' then Glob(pattern[1..], s) || (s != "" && Glob(pattern, s[1..]))
    else if s == "" then false
    else if pattern[0] == '?' then Glob(pattern[1..], s[1..])
    else if pattern[0] == '\\' && |pattern| > 1 then pattern[1] == s[0] && Glob(pattern[2..], s[1..])
    else pattern[0] == s[0] && Glob(pattern[1..], s[1..])
  }

  const SPECIAL := {'*', '?', '[', '\\'}

  lemma {:induction false} StarMatchesAll(s: string)
    ensures Glob("*", s)
  {
    if s != "" { StarMatchesAll(s[1..]); }
  }

  /** A pattern that is a literal prefix and a final star selects exactly the strings with that prefix. */
  lemma {:induction false} PrefixGlob(prefix: string, s: string)
    requires forall c :: c in prefix ==> c !in SPECIAL
    ensures Glob(prefix + "*", s) <==> prefix <= s
  {
    if prefix == "" {
      assert prefix + "*" == "*";
      StarMatchesAll(s);
    } else {
      var p := prefix + "*";
      assert prefix[0] in prefix;
      assert p[0] == prefix[0] && p[1..] == prefix[1..] + "*";
      if s != "" {
        PrefixGlob(prefix[1..], s[1..]);
        assert s == [s[0]] + s[1..] && prefix == [prefix[0]] + prefix[1..];
      }
    }
  }

  lemma TeamPrefixIff(team: Uuid, f: Filter)
    ensures "tasks:" + (UuidText(team) + ":") <= CacheKey(f) <==> f.team == Some(team)
  {
    var own := UuidText(team) + ":";
    var prefix := "tasks:" + own;
    PartsAreColonFree(f);
    UuidTextAlphabet(team);
    if prefix <= CacheKey(f) {
      var tail := CacheKey(f)[|prefix|..];
      assert CacheKey(f) == prefix + tail == "tasks:" + (own + tail);
      CutInjective("tasks:", own + tail, "tasks:", TeamPart(f) + ":" + KeyTail(f));
      SplitFirst(UuidText(team), tail, TeamPart(f), KeyTail(f));
      UuidOrAllInjective(Some(team), f.team);
    }
    if f.team == Some(team) {
      assert CacheKey(f) == prefix + KeyTail(f);
    }
  }

  /** The pattern of a team selects a list key exactly when the request was for that team. */
  lemma PatternSelectsTeam(team: Uuid, f: Filter)
    ensures Glob(CachePattern(team), CacheKey(f)) <==> f.team == Some(team)
  {
    var prefix := "tasks:" + (UuidText(team) + ":");
    assert CachePattern(team) == prefix + "*";
    PrefixIsLiteral(team);
    PrefixGlob(prefix, CacheKey(f));
    TeamPrefixIff(team, f);
  }

  lemma PrefixIsLiteral(team: Uuid)
    ensures forall c :: c in "tasks:" + (UuidText(team) + ":") ==> c !in SPECIAL
  {
    UuidTextAlphabet(team);
  }
}
