/** The posting-rule table, used as a singleton: `create` overwrites the
    one existing row rather than inserting, and the analytics reports read
    that first row. */
module PostingRules {
  import opened Common
  import opened Entities
  import Analytics

  const RuleNotFound: string := "Rule not found"
  const InitialRuleMissing: string := "Initial posting rule not found in DB"
  const Updated: string := "Posting rule updated successfully"
  const Deleted: string := "Posting rule deleted"

  /** `text || ''`. */
  function TextOr(text: Option<string>): (r: string)
    ensures text.Some? ==> r == text.value
    ensures text.None? ==> r == ""
  {
    if text.Some? then text.value else ""
  }

  /** A partial update: `None` for a field the request leaves out. */
  datatype RuleUpdate = RuleUpdate(
    storiesPerWeek: Option<int>,
    postsPerWeek: Option<int>,
    reelsPerWeek: Option<int>,
    rulesText: Option<string>)

  /** What `create` writes into the existing row. */
  function ApplyCreate(rule: PostingRule, stories: int, posts: int, reels: int, rulesText: Option<string>): (r: PostingRule)
    ensures r.id == rule.id
  {
    rule.(storiesPerWeek := stories, postsPerWeek := posts, reelsPerWeek := reels, rulesText := Some(TextOr(rulesText)))
  }

  /** `Object.assign(rule, dto)`: the fields the request carries, and only
      those, are overwritten. */
  function ApplyUpdate(rule: PostingRule, dto: RuleUpdate): (r: PostingRule)
    ensures r.id == rule.id
    ensures r.storiesPerWeek == (if dto.storiesPerWeek.Some? then dto.storiesPerWeek.value else rule.storiesPerWeek)
    ensures r.postsPerWeek == (if dto.postsPerWeek.Some? then dto.postsPerWeek.value else rule.postsPerWeek)
    ensures r.reelsPerWeek == (if dto.reelsPerWeek.Some? then dto.reelsPerWeek.value else rule.reelsPerWeek)
    ensures r.rulesText == (if dto.rulesText.Some? then dto.rulesText else rule.rulesText)
  {
    PostingRule(
      rule.id,
      if dto.storiesPerWeek.Some? then dto.storiesPerWeek.value else rule.storiesPerWeek,
      if dto.postsPerWeek.Some? then dto.postsPerWeek.value else rule.postsPerWeek,
      if dto.reelsPerWeek.Some? then dto.reelsPerWeek.value else rule.reelsPerWeek,
      if dto.rulesText.Some? then dto.rulesText else rule.rulesText)
  }

  /** An empty update changes nothing, and applying an update twice is
      applying it once. */
  lemma UpdateLaws(rule: PostingRule, dto: RuleUpdate)
    ensures ApplyUpdate(rule, RuleUpdate(None, None, None, None)) == rule
    ensures ApplyUpdate(ApplyUpdate(rule, dto), dto) == ApplyUpdate(rule, dto)
  {
  }

  /** After `create` the reports expect exactly the quotas it was given. */
  lemma CreateSetsExpectedQuotas(rule: PostingRule, stories: int, posts: int, reels: int, rulesText: Option<string>)
    ensures Analytics.Expected(Some(ApplyCreate(rule, stories, posts, reels, rulesText))) ==
            Analytics.Counts(stories, posts, reels)
  {
  }

  /** A row as the list endpoint shows it: a null text becomes `''`. */
  datatype RuleView = RuleView(id: nat, storiesPerWeek: int, postsPerWeek: int, reelsPerWeek: int, rulesText: string)

  function ViewOf(rule: PostingRule): (r: RuleView)
    ensures r.id == rule.id && r.rulesText == TextOr(rule.rulesText)
    ensures r.storiesPerWeek == rule.storiesPerWeek && r.postsPerWeek == rule.postsPerWeek
    ensures r.reelsPerWeek == rule.reelsPerWeek
  {
    RuleView(rule.id, rule.storiesPerWeek, rule.postsPerWeek, rule.reelsPerWeek, TextOr(rule.rulesText))
  }

  /** The listed text after `create` is the one given, or `''`. */
  lemma CreateThenListShowsText(rule: PostingRule, stories: int, posts: int, reels: int, rulesText: Option<string>)
    ensures ViewOf(ApplyCreate(rule, stories, posts, reels, rulesText)).rulesText == TextOr(rulesText)
  {
  }

  /** The position of the row with the given id, if any. */
  function IndexOfRule(rules: seq<PostingRule>, id: nat): (r: Option<nat>)
    ensures r.Some? ==> r.value < |rules| && rules[r.value].id == id &&
                        forall k :: 0 <= k < r.value ==> rules[k].id != id
    ensures r.None? <==> forall k :: 0 <= k < |rules| ==> rules[k].id != id
  {
    if rules == [] then None
    else if rules[0].id == id then Some(0)
    else match IndexOfRule(rules[1..], id)
      case None => None
      case Some(k) => Some(k + 1)
  }

  predicate RuleIdsDistinct(rules: seq<PostingRule>) {
    forall i, j :: 0 <= i < j < |rules| ==> rules[i].id != rules[j].id
  }

  /** With distinct ids, cutting out row `i` deletes exactly the rows with
      its id. */
  lemma RemoveDeletesExactlyThatRow(rules: seq<PostingRule>, i: nat)
    requires RuleIdsDistinct(rules) && i < |rules|
    ensures forall r :: r in rules[..i] + rules[i + 1..] <==> r in rules && r.id != rules[i].id
  {
    var before, after := rules[..i], rules[i + 1..];
    assert rules == before + [rules[i]] + after;
    forall r | r in before ensures r.id != rules[i].id {
      var k :| 0 <= k < |before| && before[k] == r;
      assert rules[k] == r;
    }
    forall r | r in after ensures r.id != rules[i].id {
      var k :| 0 <= k < |after| && after[k] == r;
      assert rules[i + 1 + k] == r;
    }
  }

  class PostingRulesService {
    /** The posting-rule table, in store order. */
    var rules: seq<PostingRule>

    /** Rule ids are primary keys. */
    ghost predicate Valid()
      reads this
    {
      RuleIdsDistinct(rules)
    }

    constructor(rules: seq<PostingRule>)
      requires RuleIdsDistinct(rules)
      ensures Valid()
      ensures this.rules == rules
    {
      this.rules := rules;
    }

    /** Overwrites the quotas and text of the first row; NotFound when the
      table is empty. Never inserts. */
    method Create(stories: int, posts: int, reels: int, rulesText: Option<string>) returns (r: Result<string>)
      requires Valid()
      modifies this
      ensures Valid()
      ensures old(rules) == [] ==> r == Err(NotFound(InitialRuleMissing)) && rules == old(rules)
      ensures old(rules) != [] ==>
                r == Ok(Updated) &&
                rules == old(rules)[0 := ApplyCreate(old(rules)[0], stories, posts, reels, rulesText)]
      ensures |rules| == |old(rules)|
    {
      if rules == [] {
        return Err(NotFound(InitialRuleMissing));
      }
      var rule := rules[0];
      rules := rules[0 := ApplyCreate(rule, stories, posts, reels, rulesText)];
      r := Ok(Updated);
    }

    /** Every row, with a null text shown as `''`. */
    function FindAll(): (r: seq<RuleView>)
      reads this
      ensures |r| == |rules|
      ensures forall k :: 0 <= k < |r| ==> r[k] == ViewOf(rules[k])
    {
      seq(|rules|, k requires 0 <= k < |rules| reads this => ViewOf(rules[k]))
    }

    /** The row with the id; NotFound otherwise. */
    function FindOne(id: nat): (r: Result<PostingRule>)
      reads this
      ensures r.Err? <==> forall k :: 0 <= k < |rules| ==> rules[k].id != id
      ensures r.Err? ==> r.error == NotFound(RuleNotFound)
      ensures r.Ok? ==> r.value in rules && r.value.id == id
    {
      match IndexOfRule(rules, id)
      case None => Err(NotFound(RuleNotFound))
      case Some(i) => Ok(rules[i])
    }

    /** Overwrites the fields the request carries in the row with the id;
      NotFound otherwise. */
    method Update(id: nat, dto: RuleUpdate) returns (r: Result<string>)
      requires Valid()
      modifies this
      ensures Valid()
      ensures IndexOfRule(old(rules), id).None? ==> r == Err(NotFound(RuleNotFound)) && rules == old(rules)
      ensures IndexOfRule(old(rules), id).Some? ==>
                var i := IndexOfRule(old(rules), id).value;
                r == Ok(Updated) && rules == old(rules)[i := ApplyUpdate(old(rules)[i], dto)]
    {
      var found := IndexOfRule(rules, id);
      if found.None? {
        return Err(NotFound(RuleNotFound));
      }
      var i := found.value;
      rules := rules[i := ApplyUpdate(rules[i], dto)];
      r := Ok(Updated);
    }

    /** Deletes the row with the id; NotFound otherwise. */
    method Remove(id: nat) returns (r: Result<string>)
      requires Valid()
      modifies this
      ensures Valid()
      ensures forall x :: x in rules <==> x in old(rules) && x.id != id
      ensures IndexOfRule(old(rules), id).None? ==> r == Err(NotFound(RuleNotFound)) && rules == old(rules)
      ensures IndexOfRule(old(rules), id).Some? ==>
                var i := IndexOfRule(old(rules), id).value;
                r == Ok(Deleted) && rules == old(rules)[..i] + old(rules)[i + 1..]
    {
      var found := IndexOfRule(rules, id);
      if found.None? {
        return Err(NotFound(RuleNotFound));
      }
      var i := found.value;
      RemoveDeletesExactlyThatRow(rules, i);
      ghost var before := rules;
      rules := rules[..i] + rules[i + 1..];
      forall a, b | 0 <= a < b < |rules| ensures rules[a].id != rules[b].id {
        var a', b' := if a < i then a else a + 1, if b < i then b else b + 1;
        assert rules[a] == before[a'] && rules[b] == before[b'];
      }
      r := Ok(Deleted);
    }
  }
}
