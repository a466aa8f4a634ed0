/** `str.strip` and `str.lower`, over any table of white space and lower-case mappings that is
    lawful in the sense below. A character may map to several, as in Unicode. */
module Text {

  datatype CaseRules = CaseRules(isSpace: char -> bool, lower: char -> string)

  /** What Unicode's tables satisfy: a lower-case mapping is never empty and is itself in lower
      case; white space maps to itself and nothing else maps to white space. */
  ghost predicate Lawful(rules: CaseRules) {
    && (forall c :: rules.lower(c) != [])
    && (forall c, i :: 0 <= i < |rules.lower(c)| ==>
          rules.lower(rules.lower(c)[i]) == [rules.lower(c)[i]])
    && (forall c :: rules.isSpace(c) ==> rules.lower(c) == [c])
    && (forall c, i :: !rules.isSpace(c) && 0 <= i < |rules.lower(c)| ==>
          !rules.isSpace(rules.lower(c)[i]))
  }

  /** The smallest lawful tables: one blank, and no letter case. */
  const PLAIN_RULES := CaseRules(c => c == ' ', c => [c])

  function StripLeft(rules: CaseRules, s: string): string {
    if s != [] && rules.isSpace(s[0]) then StripLeft(rules, s[1..]) else s
  }

  function StripRight(rules: CaseRules, s: string): string {
    if s != [] && rules.isSpace(s[|s| - 1]) then StripRight(rules, s[..|s| - 1]) else s
  }

  function Strip(rules: CaseRules, s: string): string {
    StripRight(rules, StripLeft(rules, s))
  }

  function Lower(rules: CaseRules, s: string): string {
    if s == [] then [] else rules.lower(s[0]) + Lower(rules, s[1..])
  }

  ghost predicate Stripped(rules: CaseRules, s: string) {
    s == [] || (!rules.isSpace(s[0]) && !rules.isSpace(s[|s| - 1]))
  }

  ghost predicate LowerCase(rules: CaseRules, s: string) {
    forall i :: 0 <= i < |s| ==> rules.lower(s[i]) == [s[i]]
  }

  lemma {:induction false} StripLeftEnds(rules: CaseRules, s: string)
    ensures var t := StripLeft(rules, s);
      && |t| <= |s|
      && t == s[|s| - |t|..]
      && (t == [] || !rules.isSpace(t[0]))
      && (forall i :: 0 <= i < |s| - |t| ==> rules.isSpace(s[i]))
  {
    if s != [] && rules.isSpace(s[0]) {
      StripLeftEnds(rules, s[1..]);
    }
  }

  lemma {:induction false} StripRightEnds(rules: CaseRules, s: string)
    ensures var t := StripRight(rules, s);
      && |t| <= |s|
      && t == s[..|t|]
      && (t == [] || !rules.isSpace(t[|t| - 1]))
      && (forall i :: |t| <= i < |s| ==> rules.isSpace(s[i]))
  {
    if s != [] && rules.isSpace(s[|s| - 1]) {
      StripRightEnds(rules, s[..|s| - 1]);
    }
  }

  /** Stripping keeps one contiguous piece whose ends are not white space, and what it drops on
      either side is white space only. */
  lemma StripKeepsMiddle(rules: CaseRules, s: string) returns (lo: nat, hi: nat)
    ensures lo <= hi <= |s| && Strip(rules, s) == s[lo..hi]
    ensures Stripped(rules, Strip(rules, s))
    ensures forall i :: (0 <= i < lo || hi <= i < |s|) ==> rules.isSpace(s[i])
  {
    StripLeftEnds(rules, s);
    var t := StripLeft(rules, s);
    StripRightEnds(rules, t);
    lo := |s| - |t|;
    hi := lo + |StripRight(rules, t)|;
    assert forall i :: hi <= i < |s| ==> s[i] == t[i - lo];
  }

  lemma StripFixes(rules: CaseRules, s: string)
    requires Stripped(rules, s)
    ensures Strip(rules, s) == s
  {
  }

  lemma {:induction false} LowerIsLowerCase(rules: CaseRules, s: string)
    requires Lawful(rules)
    ensures LowerCase(rules, Lower(rules, s))
  {
    if s != [] {
      LowerIsLowerCase(rules, s[1..]);
    }
  }

  lemma {:induction false} LowerFixes(rules: CaseRules, s: string)
    requires LowerCase(rules, s)
    ensures Lower(rules, s) == s
  {
    if s == [] {
    } else {
      LowerFixes(rules, s[1..]);
    }
  }

  lemma {:induction false} LowerAppend(rules: CaseRules, s: string, t: string)
    ensures Lower(rules, s + t) == Lower(rules, s) + Lower(rules, t)
  {
    if s == [] {
      assert s + t == t;
    } else {
      assert (s + t)[1..] == s[1..] + t;
      LowerAppend(rules, s[1..], t);
    }
  }

  /** Lower-casing a stripped string leaves it stripped, so the two can be done in one pass. */
  lemma LowerKeepsStripped(rules: CaseRules, s: string)
    requires Lawful(rules) && Stripped(rules, s)
    ensures Stripped(rules, Lower(rules, s))
  {
    if s != [] {
      var last := s[|s| - 1];
      assert s == s[..|s| - 1] + [last];
      LowerAppend(rules, s[..|s| - 1], [last]);
      assert Lower(rules, [last]) == rules.lower(last) + Lower(rules, []);
    }
  }

  lemma {:induction false} StripLeftOfLower(rules: CaseRules, s: string)
    requires Lawful(rules)
    ensures StripLeft(rules, Lower(rules, s)) == Lower(rules, StripLeft(rules, s))
  {
    if s != [] {
      var low := Lower(rules, s);
      if rules.isSpace(s[0]) {
        StripLeftOfLower(rules, s[1..]);
        assert low[1..] == Lower(rules, s[1..]);
      } else {
        assert low[0] == rules.lower(s[0])[0];
      }
    }
  }

  lemma {:induction false} StripRightOfLower(rules: CaseRules, s: string)
    requires Lawful(rules)
    ensures StripRight(rules, Lower(rules, s)) == Lower(rules, StripRight(rules, s))
  {
    if s != [] {
      var front, last := s[..|s| - 1], s[|s| - 1];
      assert s == front + [last];
      LowerAppend(rules, front, [last]);
      var low := Lower(rules, s);
      assert Lower(rules, [last]) == rules.lower(last);
      assert low == Lower(rules, front) + rules.lower(last);
      if rules.isSpace(last) {
        StripRightOfLower(rules, front);
        assert low[..|low| - 1] == Lower(rules, front);
      } else {
        assert low[|low| - 1] == rules.lower(last)[|rules.lower(last)| - 1];
      }
    }
  }

  /** Stripping and lower-casing commute. */
  lemma StripOfLower(rules: CaseRules, s: string)
    requires Lawful(rules)
    ensures Strip(rules, Lower(rules, s)) == Lower(rules, Strip(rules, s))
  {
    StripLeftOfLower(rules, s);
    StripRightOfLower(rules, StripLeft(rules, s));
  }

  /** Stripping leaves nothing exactly when there is white space only. */
  lemma StripEmptyIff(rules: CaseRules, s: string)
    ensures Strip(rules, s) == [] <==> forall i :: 0 <= i < |s| ==> rules.isSpace(s[i])
  {
    StripLeftEnds(rules, s);
    var left := StripLeft(rules, s);
    StripRightEnds(rules, left);
    if left != [] {
      assert left[0] == s[|s| - |left|];
    }
  }
}
