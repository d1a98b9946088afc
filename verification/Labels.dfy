/**
 resolveLinkGroupName: matching a free-text group label against the configured
 groups, case-insensitively, by key or by display name. The function ranges over
 a map, so when several groups match, any of them may be the answer.
 */
module Labels {
  import opened Text
  import opened Boards

  type Details = map<string, LinkGroup>

  predicate Matches(fold: char -> char, details: Details, key: string, name: string) {
    && key in details
    && (EqualFold(fold, TrimSpace(details[key].displayName), name) || EqualFold(fold, key, name))
  }

  /** r is a possible answer for the label raw. */
  ghost predicate Resolves(fold: char -> char, raw: string, details: Details, r: string) {
    var name := TrimSpace(raw);
    if name == "" then r == "" else
    if name in details then r == name else
    if exists k :: Matches(fold, details, k, name) then Matches(fold, details, r, name) else r == name
  }

  /** The group goes by this name: its key or its trimmed display name is the same word
      once both are folded. */
  predicate GoesBy(fold: char -> char, details: Details, key: string, name: string) {
    && key in details
    && (Folded(fold, key) == Folded(fold, name) || Folded(fold, TrimSpace(details[key].displayName)) == Folded(fold, name))
  }

  /** A blank label has no answer but the blank, a key is its own answer, and any other
      label is answered by a group that goes by it, or by itself if none does. */
  ghost predicate PossibleAnswer(fold: char -> char, raw: string, details: Details, r: string) {
    var name := TrimSpace(raw);
    if Blank(raw) then r == "" else if name in details then r == name else
      GoesBy(fold, details, r, name) || (r == name && forall k :: !GoesBy(fold, details, k, name))
  }

  lemma ResolvesIff(fold: char -> char, raw: string, details: Details, r: string)
    ensures Resolves(fold, raw, details, r) <==> PossibleAnswer(fold, raw, details, r)
  {
    hide TrimSpace, Trimmed, Blank, EqualFold, Folded;
    BlankTrims(raw);
    forall k ensures GoesBy(fold, details, k, TrimSpace(raw)) <==> Matches(fold, details, k, TrimSpace(raw)) {
      EqualFoldIff(fold, k, TrimSpace(raw));
      if k in details {
        EqualFoldIff(fold, TrimSpace(details[k].displayName), TrimSpace(raw));
      }
    }
  }

  lemma ResolvesIffAll(fold: char -> char, raw: string, details: Details)
    ensures forall r :: Resolves(fold, raw, details, r) <==> PossibleAnswer(fold, raw, details, r)
  {
    hide Resolves, PossibleAnswer;
    forall r ensures Resolves(fold, raw, details, r) <==> PossibleAnswer(fold, raw, details, r) {
      ResolvesIff(fold, raw, details, r);
    }
  }

  method ResolveLinkGroupName(fold: char -> char, raw: string, details: Details) returns (r: string)
    ensures Resolves(fold, raw, details, r)
    ensures PossibleAnswer(fold, raw, details, r)
  {
    ResolvesIffAll(fold, raw, details);
    hide PossibleAnswer;
    var name := TrimSpace(raw);
    if name == "" {
      return "";
    }
    if name in details {
      return name;
    }
    var unseen := details.Keys;
    while unseen != {}
      invariant unseen <= details.Keys
      invariant forall k :: k in details.Keys - unseen ==> !Matches(fold, details, k, name)
      decreases unseen
    {
      var key :| key in unseen;
      if EqualFold(fold, TrimSpace(details[key].displayName), name) || EqualFold(fold, key, name) {
        assert Matches(fold, details, key, name);
        return key;
      }
      unseen := unseen - {key};
    }
    return name;
  }

  /** No label names two groups. */
  ghost predicate Unambiguous(fold: char -> char, details: Details) {
    forall name, k1, k2 :: Matches(fold, details, k1, name) && Matches(fold, details, k2, name) ==> k1 == k2
  }

  ghost predicate KeysTrimmed(details: Details) {
    forall k :: k in details ==> k != "" && Trimmed(k)
  }

  /** A trimmed label that is no key itself and matches the groups k1 and k2. */
  ghost predicate ContestedBy(fold: char -> char, details: Details, name: string, k1: string, k2: string) {
    && name != "" && Trimmed(name) && name !in details
    && Matches(fold, details, k1, name) && Matches(fold, details, k2, name)
  }

  /** No such label matches two groups. */
  ghost predicate Uncontested(fold: char -> char, details: Details) {
    forall name, k1, k2 :: ContestedBy(fold, details, name, k1, k2) ==> k1 == k2
  }

  /** The answer does not depend on the map's enumeration order, for any label,
      exactly when no trimmed label that is not itself a key matches two groups. */
  lemma ResolveDeterministic(fold: char -> char, details: Details)
    ensures (forall raw, r1, r2 :: Resolves(fold, raw, details, r1) && Resolves(fold, raw, details, r2) ==> r1 == r2)
       <==> Uncontested(fold, details)
  {
    if forall raw, r1, r2 :: Resolves(fold, raw, details, r1) && Resolves(fold, raw, details, r2) ==> r1 == r2 {
      forall name, k1, k2 | ContestedBy(fold, details, name, k1, k2) ensures k1 == k2 {
        TrimFixed(name);
        assert Resolves(fold, name, details, k1) && Resolves(fold, name, details, k2);
      }
    } else {
      var raw, r1, r2 :| Resolves(fold, raw, details, r1) && Resolves(fold, raw, details, r2) && r1 != r2;
      assert ContestedBy(fold, details, TrimSpace(raw), r1, r2);
    }
  }

  /** key is the only group that matches name, and name is no key. */
  ghost predicate OnlyMatch(fold: char -> char, details: Details, key: string, name: string) {
    name != "" && name !in details && forall k :: Matches(fold, details, k, name) <==> k == key
  }

  /** Resolving an answer again gives it back exactly when the answer has no outer
      whitespace, which only a key can have, or is all that its trimming matches. */
  lemma ResolveIdempotent(fold: char -> char, raw: string, details: Details, r: string)
    requires Resolves(fold, raw, details, r)
    ensures (forall again :: Resolves(fold, r, details, again) ==> again == r)
       <==> Trimmed(r) || OnlyMatch(fold, details, r, TrimSpace(r))
    ensures Trimmed(r) || r in details
  {
    var name := TrimSpace(r);
    if Trimmed(r) {
      TrimFixed(r);
    } else if name == "" || name in details {
      assert Resolves(fold, r, details, name);
    } else if exists k :: Matches(fold, details, k, name) {
      var k :| Matches(fold, details, k, name);
      assert Resolves(fold, r, details, k);
      assert forall again :: Resolves(fold, r, details, again) <==> Matches(fold, details, again, name);
    } else {
      assert Resolves(fold, r, details, name) && !Matches(fold, details, r, name);
    }
  }

  lemma EqualFoldTransitive(fold: char -> char, a: string, b: string, c: string)
    requires EqualFold(fold, a, b) && EqualFold(fold, b, c)
    ensures EqualFold(fold, a, c)
  {
  }

  /** A key or trimmed display name of one group folds to one of the other. */
  predicate ShareName(fold: char -> char, details: Details, k1: string, k2: string)
    requires k1 in details && k2 in details
  {
    var d1, d2 := TrimSpace(details[k1].displayName), TrimSpace(details[k2].displayName);
    EqualFold(fold, k1, k2) || EqualFold(fold, k1, d2) || EqualFold(fold, d1, k2) || EqualFold(fold, d1, d2)
  }

  /** Labels are unambiguous exactly when no two groups share a name, which is a
      check over the pairs of configured groups. */
  lemma UnambiguousIff(fold: char -> char, details: Details)
    ensures Unambiguous(fold, details)
       <==> forall k1, k2 :: k1 in details && k2 in details && k1 != k2 ==> !ShareName(fold, details, k1, k2)
  {
    if Unambiguous(fold, details) {
      forall k1, k2 | k1 in details && k2 in details && ShareName(fold, details, k1, k2) ensures k1 == k2 {
        var d2 := TrimSpace(details[k2].displayName);
        assert Matches(fold, details, k2, k2) && Matches(fold, details, k2, d2);
        assert Matches(fold, details, k1, k2) || Matches(fold, details, k1, d2);
      }
    } else {
      var name, k1, k2 :| Matches(fold, details, k1, name) && Matches(fold, details, k2, name) && k1 != k2;
      assert ShareName(fold, details, k1, k2);
    }
  }

  /** A group that matches a label matches every label that folds to the same. */
  lemma MatchesFolded(fold: char -> char, details: Details, key: string, a: string, b: string)
    requires Matches(fold, details, key, a) && EqualFold(fold, a, b)
    ensures Matches(fold, details, key, b)
  {
    if EqualFold(fold, key, a) {
      EqualFoldTransitive(fold, key, a, b);
    } else {
      EqualFoldTransitive(fold, TrimSpace(details[key].displayName), a, b);
    }
  }

  /** The group a label resolved to, once ensured, matches that label. */
  lemma EnsuredMatches(fold: char -> char, raw: string, b: Board, r: string)
    requires Resolves(fold, raw, b.details, r) && r != ""
    ensures Matches(fold, Ensure(b, r).details, r, TrimSpace(raw))
  {
  }

  /** No other group matches a label that matches the group just ensured. */
  lemma NewGroupAlone(fold: char -> char, raw: string, b: Board, r: string, name: string, k: string)
    requires Resolves(fold, raw, b.details, r) && r != "" && r !in b.details
    requires Matches(fold, Ensure(b, r).details, r, name)
    ensures !Matches(fold, b.details, k, name)
  {
    TrimFixed(r);
    assert EqualFold(fold, name, r);
    if Matches(fold, b.details, k, name) {
      MatchesFolded(fold, b.details, k, name, r);
    }
  }

  lemma MatchesBefore(fold: char -> char, b: Board, r: string, name: string, k: string)
    requires Matches(fold, Ensure(b, r).details, k, name)
    ensures Matches(fold, b.details, k, name) || (k == r && r !in b.details)
  {
  }

  /** Ensuring the group a label resolved to keeps labels unambiguous. */
  lemma EnsureUnambiguous(fold: char -> char, raw: string, b: Board, r: string)
    requires Unambiguous(fold, b.details) && Resolves(fold, raw, b.details, r) && r != ""
    ensures Unambiguous(fold, Ensure(b, r).details)
  {
    var d := Ensure(b, r).details;
    forall name, k1, k2 | Matches(fold, d, k1, name) && Matches(fold, d, k2, name) ensures k1 == k2 {
      EnsureAddsNoMatch(fold, raw, b, r, name, k1, k2);
    }
  }

  /** Two groups that match a label after the group another label resolved to was ensured
      did so before, unless they are the same. */
  lemma EnsureAddsNoMatch(fold: char -> char, raw: string, b: Board, r: string, name: string, k1: string, k2: string)
    requires Resolves(fold, raw, b.details, r) && r != ""
    requires Matches(fold, Ensure(b, r).details, k1, name) && Matches(fold, Ensure(b, r).details, k2, name)
    ensures k1 == k2 || (Matches(fold, b.details, k1, name) && Matches(fold, b.details, k2, name))
  {
    hide Matches, Resolves;
    MatchesBefore(fold, b, r, name, k1);
    MatchesBefore(fold, b, r, name, k2);
    if k1 == r && r !in b.details {
      NewGroupAlone(fold, raw, b, r, name, k2);
    } else if k2 == r && r !in b.details {
      NewGroupAlone(fold, raw, b, r, name, k1);
    }
  }

  /** Ensuring the group a label resolved to makes no label newly contested. */
  lemma EnsureContestsNothing(fold: char -> char, raw: string, b: Board, r: string, name: string, k1: string, k2: string)
    requires Resolves(fold, raw, b.details, r) && r != ""
    requires ContestedBy(fold, Ensure(b, r).details, name, k1, k2) && k1 != k2
    ensures ContestedBy(fold, b.details, name, k1, k2)
  {
    EnsureAddsNoMatch(fold, raw, b, r, name, k1, k2);
  }

  lemma EnsureUncontested(fold: char -> char, raw: string, b: Board, r: string)
    requires Uncontested(fold, b.details) && Resolves(fold, raw, b.details, r) && r != ""
    ensures Uncontested(fold, Ensure(b, r).details)
  {
    var d := Ensure(b, r).details;
    forall name, k1, k2 | ContestedBy(fold, d, name, k1, k2) ensures k1 == k2 {
      if k1 != k2 {
        EnsureContestsNothing(fold, raw, b, r, name, k1, k2);
      }
    }
  }

  /** Where a ForecastleApp whose label resolves to key lands: nowhere under a blank key. */
  function Landing(key: string): string {
    if TrimSpace(key) == "" then "" else key
  }

  /** No trimmed label that is no key has two places to land in. */
  ghost predicate Decided(fold: char -> char, details: Details) {
    forall name, k1, k2 :: ContestedBy(fold, details, name, k1, k2) ==> Landing(k1) == Landing(k2)
  }

  lemma EnsureDecided(fold: char -> char, raw: string, b: Board, r: string)
    requires Decided(fold, b.details) && Resolves(fold, raw, b.details, r) && r != ""
    ensures Decided(fold, Ensure(b, r).details)
  {
    var d := Ensure(b, r).details;
    forall name, k1, k2 | ContestedBy(fold, d, name, k1, k2) ensures Landing(k1) == Landing(k2) {
      if k1 != k2 {
        EnsureContestsNothing(fold, raw, b, r, name, k1, k2);
      }
    }
  }

  lemma ResolveLanding(fold: char -> char, raw: string, details: Details, r1: string, r2: string)
    requires Decided(fold, details)
    requires Resolves(fold, raw, details, r1) && Resolves(fold, raw, details, r2)
    ensures Landing(r1) == Landing(r2)
  {
    if r1 != r2 {
      assert ContestedBy(fold, details, TrimSpace(raw), r1, r2);
    }
  }

  /** Ensuring it adds no key with outer whitespace. */
  lemma EnsureTrimmed(fold: char -> char, raw: string, b: Board, r: string)
    requires KeysTrimmed(b.details) && Resolves(fold, raw, b.details, r) && r != ""
    ensures KeysTrimmed(Ensure(b, r).details)
  {
  }

  /** With unambiguous labels, a group that matches a label is its answer. */
  lemma ResolvesToMatch(fold: char -> char, raw: string, details: Details, key: string, r: string)
    requires Unambiguous(fold, details) && TrimSpace(raw) != ""
    requires Matches(fold, details, key, TrimSpace(raw)) && Resolves(fold, raw, details, r)
    ensures r == key
  {
    var name := TrimSpace(raw);
    if name in details {
      assert Matches(fold, details, name, name);
    } else {
      assert Matches(fold, details, r, name);
    }
  }

  /** With labels uncontested there is one answer. */
  lemma ResolveUnique(fold: char -> char, raw: string, details: Details, r1: string, r2: string)
    requires Uncontested(fold, details)
    requires Resolves(fold, raw, details, r1) && Resolves(fold, raw, details, r2)
    ensures r1 == r2
  {
    ResolveDeterministic(fold, details);
  }

  /** Two answers to one label are equal or both groups already there. */
  lemma AnswersKnown(fold: char -> char, raw: string, details: Details, r1: string, r2: string)
    requires Resolves(fold, raw, details, r1) && Resolves(fold, raw, details, r2)
    ensures r1 == r2 || (r1 in details && r2 in details)
  {
  }

  /** Some possible answer. */
  ghost function Answer(fold: char -> char, raw: string, details: Details): (r: string)
    ensures Resolves(fold, raw, details, r)
  {
    var name := TrimSpace(raw);
    if name != "" && name !in details && exists k :: Matches(fold, details, k, name) then
      var k :| Matches(fold, details, k, name);
      k
    else name
  }

  /** The group is a possible answer, and the only one. */
  ghost predicate OnlyAnswer(fold: char -> char, raw: string, details: Details, key: string) {
    Resolves(fold, raw, details, key) && forall r :: Resolves(fold, raw, details, r) ==> r == key
  }

  /** Some possible answer, and another than the key wherever there is another. */
  ghost function AnswerBut(fold: char -> char, raw: string, details: Details, key: string): (r: string)
    ensures Resolves(fold, raw, details, r)
    ensures r == key ==> OnlyAnswer(fold, raw, details, key)
  {
    if exists r :: Resolves(fold, raw, details, r) && r != key then
      var r :| Resolves(fold, raw, details, r) && r != key;
      r
    else Answer(fold, raw, details)
  }

  // ------------------------------------------------- checks over pairs of groups

  /** A name of the group, its key or its trimmed display name. */
  predicate NamedBy(details: Details, key: string, name: string) {
    key in details && (name == key || name == TrimSpace(details[key].displayName))
  }

  /** Some variant of the name in case is a label that is no key. */
  ghost predicate OpenVariant(fold: char -> char, details: Details, name: string) {
    exists word :: word != "" && Trimmed(word) && word !in details && EqualFold(fold, name, word)
  }

  /** Two groups have names that differ in case alone, and not every variant is taken by a key. */
  ghost predicate Contest(fold: char -> char, details: Details, k1: string, k2: string) {
    exists a, b :: NamedBy(details, k1, a) && NamedBy(details, k2, b) && EqualFold(fold, a, b) && OpenVariant(fold, details, a)
  }

  lemma ContestIff(fold: char -> char, details: Details, k1: string, k2: string)
    ensures Contest(fold, details, k1, k2) <==> exists name :: ContestedBy(fold, details, name, k1, k2)
  {
    if Contest(fold, details, k1, k2) {
      var a, b :| NamedBy(details, k1, a) && NamedBy(details, k2, b) && EqualFold(fold, a, b) && OpenVariant(fold, details, a);
      var word :| word != "" && Trimmed(word) && word !in details && EqualFold(fold, a, word);
      assert ContestedBy(fold, details, word, k1, k2);
    }
    forall name | ContestedBy(fold, details, name, k1, k2) ensures Contest(fold, details, k1, k2) {
      var a := if EqualFold(fold, k1, name) then k1 else TrimSpace(details[k1].displayName);
      var b := if EqualFold(fold, k2, name) then k2 else TrimSpace(details[k2].displayName);
      assert NamedBy(details, k1, a) && NamedBy(details, k2, b) && EqualFold(fold, a, b);
      assert OpenVariant(fold, details, a);
    }
  }

  /** No label is contested exactly when no pair of different groups is in a contest. */
  lemma UncontestedIff(fold: char -> char, details: Details)
    ensures Uncontested(fold, details)
       <==> forall k1, k2 :: k1 in details && k2 in details && k1 != k2 ==> !Contest(fold, details, k1, k2)
  {
    hide Contest;
    forall k1, k2 ensures Contest(fold, details, k1, k2) <==> exists name :: ContestedBy(fold, details, name, k1, k2) {
      ContestIff(fold, details, k1, k2);
    }
  }

  /** Every label has one place to land in exactly when no pair of groups with
      different landings is in a contest. */
  lemma DecidedIff(fold: char -> char, details: Details)
    ensures Decided(fold, details)
       <==> forall k1, k2 :: k1 in details && k2 in details && Landing(k1) != Landing(k2) ==> !Contest(fold, details, k1, k2)
  {
    hide Contest, Landing;
    forall k1, k2 ensures Contest(fold, details, k1, k2) <==> exists name :: ContestedBy(fold, details, name, k1, k2) {
      ContestIff(fold, details, k1, k2);
    }
  }
}
