/**
 normalizedGroups (web/auth.go): the groups named by a user-info claim, a link's
 annotation or a configured link.
 */
module GroupClaims {
  import opened Text
  import opened Wrappers

  /** A claim as Go holds it. Decoding JSON never yields Texts: a JSON array becomes a List. */
  datatype Claim = Texts(texts: seq<string>) | List(items: seq<Claim>) | Text(text: string) | Other(json: string)

  /** The string members of a JSON array, in order. */
  function TextsIn(items: seq<Claim>): seq<string> {
    if items == [] then [] else
      var n := |items| - 1;
      TextsIn(items[..n]) + if items[n].Text? then [items[n].text] else []
  }

  /** Members that are no strings are passed over. */
  lemma OtherClaimsSkipped(front: seq<Claim>, claim: Claim)
    ensures TextsIn(front + [claim]) == TextsIn(front) + if claim.Text? then [claim.text] else []
  {
    assert (front + [claim])[..|front|] == front;
  }

  /** What the user belongs to, for each form the claim may take. */
  function GroupsOf(claim: Option<Claim>): (r: seq<string>)
    ensures NoDuplicates(r) && forall g :: g in r ==> g != "" && Trimmed(g)
  {
    match claim
    case None => []
    case Some(Texts(texts)) => Normalized(texts)
    case Some(List(items)) => Normalized(TextsIn(items))
    case Some(Text(text)) => Normalized(Split(text, ','))
    case Some(Other(_)) => []
  }

  /** The closure `add` of normalizedGroups. */
  method AddGroup(seen: set<string>, groups: seq<string>, group: string, ghost xs: seq<string>)
    returns (seen': set<string>, groups': seq<string>)
    requires groups == Normalized(xs) && seen == (set g | g in groups)
    ensures groups' == Normalized(xs + [group]) && seen' == (set g | g in groups')
  {
    NormalizedSnoc(xs, group);
    seen', groups' := seen, groups;
    var name := TrimSpace(group);
    if name == "" || name in seen {
      return;
    }
    seen', groups' := seen + {name}, groups + [name];
  }

  method AddGroups(texts: seq<string>) returns (groups: seq<string>)
    ensures groups == Normalized(texts)
  {
    var seen: set<string> := {};
    groups := [];
    for i := 0 to |texts|
      invariant groups == Normalized(texts[..i]) && seen == (set g | g in groups)
    {
      seen, groups := AddGroup(seen, groups, texts[i], texts[..i]);
      assert texts[..i] + [texts[i]] == texts[..i + 1];
    }
    assert texts[..|texts|] == texts;
  }

  /** normalizedGroups */
  method NormalizedGroups(raw: Option<Claim>) returns (groups: seq<string>)
    ensures groups == GroupsOf(raw)
  {
    groups := [];
    match raw
    case None =>
    case Some(Texts(texts)) =>
      groups := AddGroups(texts);
    case Some(List(items)) =>
      var seen: set<string> := {};
      for i := 0 to |items|
        invariant groups == Normalized(TextsIn(items[..i])) && seen == (set g | g in groups)
      {
        assert items[..i + 1][..i] == items[..i];
        if items[i].Text? {
          seen, groups := AddGroup(seen, groups, items[i].text, TextsIn(items[..i]));
        } else {
          assert TextsIn(items[..i + 1]) == TextsIn(items[..i]);
        }
      }
      assert items[..|items|] == items;
    case Some(Text(text)) =>
      groups := AddGroups(Split(text, ','));
    case Some(Other(_)) =>
  }

  function AsItems(texts: seq<string>): (items: seq<Claim>)
  {
    seq(|texts|, i requires 0 <= i < |texts| => Text(texts[i]))
  }

  lemma {:induction false} TextsInItems(texts: seq<string>)
    ensures TextsIn(AsItems(texts)) == texts
  {
    if texts != [] {
      var n := |texts| - 1;
      TextsInItems(texts[..n]);
      assert AsItems(texts)[..n] == AsItems(texts[..n]);
      assert texts == texts[..n] + [texts[n]];
    }
  }

  /** A list of strings, a JSON array and a comma-separated string name the same groups. */
  lemma ClaimFormsAgree(texts: seq<string>)
    requires texts != [] && forall i :: 0 <= i < |texts| ==> ',' !in texts[i]
    ensures GroupsOf(Some(Text(Join(texts, ',')))) == GroupsOf(Some(Texts(texts))) == GroupsOf(Some(List(AsItems(texts))))
  {
    SplitJoin(texts, ',');
    TextsInItems(texts);
  }
}
