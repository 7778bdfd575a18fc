/** The in-memory repository of pkg/repository: subscriptions indexed three
    ways (by id, by user, and the older per-symbol entries), the alert log
    with its history window, and the seed detection rules. The three
    subscription indexes are kept consistent by save, update and delete; the
    repository stores subscriptions by value here, where Go stores pointers
    shared between the id index and the user lists. */
module MemoryRepository {
  import opened Model
  import RuleEngine

  /** The older per-symbol subscription entry. */
  datatype LegacySubscription = LegacySubscription(
    userId: string,
    symbol: string,
    rules: seq<DetectionRule>,
    createdAt: int)

  /** Go's `m[k]` on a map of slices: nil when the key is absent. */
  function Get<V>(m: map<string, seq<V>>, k: string): seq<V>
  {
    if k in m then m[k] else []
  }

  // ---------------------------------------------------------------------
  // Seed rules

  /** LoadActiveRules: a global price rule at 5 %, a global volume rule at
      1,000,000, and a price rule at 3 % for 000001.SZ; every other field at
      its zero value, so the rules are not enabled. */
  function LoadActiveRules(): (rules: map<string, seq<DetectionRule>>)
    ensures rules.Keys == {"*", "000001.SZ"}
    ensures |rules["*"]| == 2 && |rules["000001.SZ"]| == 1
    ensures forall k, i :: k in rules && 0 <= i < |rules[k]| ==> !rules[k][i].enabled && rules[k][i].threshold > 0.0
  {
    map[
      "*" := [
        DetectionRule("", PriceVolatility, 5.0, false, "", 0, 0),
        DetectionRule("", VolumeSpike, 1000000.0, false, "", 0, 0)],
      "000001.SZ" := [
        DetectionRule("", PriceVolatility, 3.0, false, "", 0, 0)]]
  }

  // ---------------------------------------------------------------------
  // The per-symbol index

  /** One entry appended per symbol, in symbol order. */
  function AppendLegacy(m: map<string, seq<LegacySubscription>>, userId: string, symbols: seq<string>,
                        rules: seq<DetectionRule>, createdAt: int): map<string, seq<LegacySubscription>>
    decreases |symbols|
  {
    if |symbols| == 0 then m
    else
      var prev := AppendLegacy(m, userId, symbols[..|symbols| - 1], rules, createdAt);
      var s := symbols[|symbols| - 1];
      prev[s := Get(prev, s) + [LegacySubscription(userId, s, rules, createdAt)]]
  }

  /** A symbol's list keeps its old entries and gains one entry per
      occurrence of the symbol, carrying the given user and rules. */
  lemma {:induction false} AppendLegacyList(m: map<string, seq<LegacySubscription>>, userId: string,
                                            symbols: seq<string>, rules: seq<DetectionRule>, createdAt: int, s: string)
    ensures Get(AppendLegacy(m, userId, symbols, rules, createdAt), s)
         == Get(m, s) + RuleEngine.Repeat(LegacySubscription(userId, s, rules, createdAt), RuleEngine.Occurrences(symbols, s))
    decreases |symbols|
  {
    if |symbols| > 0 {
      var init := symbols[..|symbols| - 1];
      AppendLegacyList(m, userId, init, rules, createdAt, s);
      var e := LegacySubscription(userId, s, rules, createdAt);
      var k := RuleEngine.Occurrences(init, s);
      if symbols[|symbols| - 1] == s {
        assert RuleEngine.Repeat(e, k + 1) == RuleEngine.Repeat(e, k) + [e];
      }
    }
  }

  /** First position in a per-symbol list of an entry of the user. */
  function IndexOfUser(list: seq<LegacySubscription>, userId: string): (r: Option<nat>)
    ensures r.Some? ==> r.value < |list| && list[r.value].userId == userId
    ensures r.Some? ==> forall j :: 0 <= j < r.value ==> list[j].userId != userId
    ensures r.None? ==> forall j :: 0 <= j < |list| ==> list[j].userId != userId
    decreases |list|
  {
    if |list| == 0 then None
    else if list[0].userId == userId then Some(0)
    else
      var rest := IndexOfUser(list[1..], userId);
      if rest.Some? then Some(rest.value + 1) else None
  }

  /** Per symbol of a deleted subscription, the first entry of its user
      leaves that symbol's list. */
  function DropLegacy(m: map<string, seq<LegacySubscription>>, userId: string, symbols: seq<string>)
    : map<string, seq<LegacySubscription>>
    decreases |symbols|
  {
    if |symbols| == 0 then m
    else
      var prev := DropLegacy(m, userId, symbols[..|symbols| - 1]);
      var s := symbols[|symbols| - 1];
      var list := Get(prev, s);
      var found := IndexOfUser(list, userId);
      if found.Some? then prev[s := list[..found.value] + list[found.value + 1..]] else prev
  }

  /** Deletion only removes entries. */
  lemma {:induction false} DropLegacyShrinks(m: map<string, seq<LegacySubscription>>, userId: string,
                                             symbols: seq<string>, s: string)
    ensures multiset(Get(DropLegacy(m, userId, symbols), s)) <= multiset(Get(m, s))
    decreases |symbols|
  {
    if |symbols| > 0 {
      var init := symbols[..|symbols| - 1];
      DropLegacyShrinks(m, userId, init, s);
      var prev := DropLegacy(m, userId, init);
      var symbol := symbols[|symbols| - 1];
      var list := Get(prev, symbol);
      var found := IndexOfUser(list, userId);
      if found.Some? && symbol == s {
        RemoveOneShrinks(list, found.value);
        assert Get(DropLegacy(m, userId, symbols), s) == list[..found.value] + list[found.value + 1..];
      } else {
        assert Get(DropLegacy(m, userId, symbols), s) == Get(prev, s);
      }
    }
  }

  lemma RemoveOneShrinks<T>(list: seq<T>, i: nat)
    requires i < |list|
    ensures multiset(list[..i] + list[i + 1..]) <= multiset(list)
  {
    assert list == list[..i] + [list[i]] + list[i + 1..];
  }

  /** Deletion leaves the lists of other symbols alone. */
  lemma {:induction false} DropLegacyOthers(m: map<string, seq<LegacySubscription>>, userId: string,
                                            symbols: seq<string>, s: string)
    requires s !in symbols
    ensures Get(DropLegacy(m, userId, symbols), s) == Get(m, s)
    decreases |symbols|
  {
    if |symbols| > 0 {
      var init := symbols[..|symbols| - 1];
      assert s !in init;
      DropLegacyOthers(m, userId, init, s);
    }
  }

  // ---------------------------------------------------------------------
  // Rule conversion

  /** The alert-type switch of SaveSubscriptionModel: the three known names
      keep their type, every other name becomes price_volatility. */
  function LegacyType(t: AlertType): (r: AlertType)
    ensures r == PriceVolatility || r == VolumeSpike || r == NewsImpact
    ensures t == VolumeSpike || t == NewsImpact ==> r == t
  {
    if t.Name() == "price_volatility" then PriceVolatility
    else if t.Name() == "volume_spike" then VolumeSpike
    else if t.Name() == "news_alert" then NewsImpact
    else PriceVolatility
  }

  /** The converted rule sets only its type and threshold. */
  function LegacyRule(rule: AlertRule): DetectionRule
  {
    DetectionRule("", LegacyType(rule.ruleType), rule.threshold, false, "", 0, 0)
  }

  /** The enabled rules of a subscription, converted, in order. */
  function LegacyRules(rules: seq<AlertRule>): (r: seq<DetectionRule>)
    ensures |r| <= |rules|
    decreases |rules|
  {
    if |rules| == 0 then []
    else
      var prev := LegacyRules(rules[..|rules| - 1]);
      var last := rules[|rules| - 1];
      if last.enabled then prev + [LegacyRule(last)] else prev
  }

  /** Each converted rule comes from an enabled rule. */
  lemma {:induction false} LegacyRulesFromEnabled(rules: seq<AlertRule>, d: DetectionRule)
    requires d in LegacyRules(rules)
    ensures exists j :: 0 <= j < |rules| && rules[j].enabled && d == LegacyRule(rules[j])
    decreases |rules|
  {
    var init := rules[..|rules| - 1];
    var last := |rules| - 1;
    if d in LegacyRules(init) {
      LegacyRulesFromEnabled(init, d);
      var j :| 0 <= j < |init| && init[j].enabled && d == LegacyRule(init[j]);
      assert rules[j] == init[j];
    } else {
      assert rules[last].enabled && d == LegacyRule(rules[last]);
    }
  }

  /** Each enabled rule is converted. */
  lemma {:induction false} LegacyRulesOfEnabled(rules: seq<AlertRule>, j: nat)
    requires j < |rules| && rules[j].enabled
    ensures LegacyRule(rules[j]) in LegacyRules(rules)
    decreases |rules|
  {
    var init := rules[..|rules| - 1];
    if j < |init| {
      assert init[j] == rules[j];
      LegacyRulesOfEnabled(init, j);
    } else {
      assert LegacyRules(rules) == LegacyRules(init) + [LegacyRule(rules[j])];
    }
  }

  // ---------------------------------------------------------------------
  // The id and user indexes

  /** First position in a user list of the subscription with this id: the
      search IndexOfUser makes over a per-symbol list, keyed by id here. */
  function IndexOfId(list: seq<Subscription>, id: string): (r: Option<nat>)
    ensures r.Some? ==> r.value < |list| && list[r.value].id == id
    ensures r.Some? ==> forall j :: 0 <= j < r.value ==> list[j].id != id
    ensures r.None? ==> forall j :: 0 <= j < |list| ==> list[j].id != id
    decreases |list|
  {
    if |list| == 0 then None
    else if list[0].id == id then Some(0)
    else
      var rest := IndexOfId(list[1..], id);
      if rest.Some? then Some(rest.value + 1) else None
  }

  /** A user list: its subscriptions belong to the user, are the ones the id
      index holds, and have distinct ids. */
  ghost predicate ListIndexed(byId: map<string, Subscription>, u: string, list: seq<Subscription>)
  {
    && (forall i :: 0 <= i < |list| ==> list[i].userId == u && list[i].id in byId && byId[list[i].id] == list[i])
    && (forall i, j :: 0 <= i < j < |list| ==> list[i].id != list[j].id)
  }

  /** Every stored subscription sits under its id and in its owner's list. */
  ghost predicate IdsListed(byId: map<string, Subscription>, byUser: map<string, seq<Subscription>>)
  {
    forall id :: id in byId ==> byId[id].id == id && byId[id] in Get(byUser, byId[id].userId)
  }

  ghost predicate ListsIndexed(byId: map<string, Subscription>, byUser: map<string, seq<Subscription>>)
  {
    forall u :: u in byUser ==> ListIndexed(byId, u, byUser[u])
  }

  /** The id index and the user lists describe the same subscriptions. */
  ghost predicate Indexed(byId: map<string, Subscription>, byUser: map<string, seq<Subscription>>)
  {
    IdsListed(byId, byUser) && ListsIndexed(byId, byUser)
  }

  /** SaveSubscriptionModel's append to the user list. */
  function AppendToUser(byUser: map<string, seq<Subscription>>, s: Subscription): map<string, seq<Subscription>>
  {
    byUser[s.userId := Get(byUser, s.userId) + [s]]
  }

  /** The removal from a user list (when the id is in it). */
  function RemoveFromUser(byUser: map<string, seq<Subscription>>, userId: string, id: string): map<string, seq<Subscription>>
  {
    var list := Get(byUser, userId);
    var found := IndexOfId(list, id);
    if found.Some? then byUser[userId := list[..found.value] + list[found.value + 1..]] else byUser
  }

  /** UpdateSubscription's user-list step as written: the list of the NEW
      owner is searched for the id and its first match replaced. */
  function ReplaceInUserAsWritten(byUser: map<string, seq<Subscription>>, s: Subscription): map<string, seq<Subscription>>
  {
    var list := Get(byUser, s.userId);
    var found := IndexOfId(list, s.id);
    if found.Some? then byUser[s.userId := list[found.value := s]] else byUser
  }

  /** The user-list step with an owner change handled: the entry moves from
      the old owner's list to the end of the new owner's. */
  function ReplaceInUser(byUser: map<string, seq<Subscription>>, previous: Subscription, s: Subscription)
    : map<string, seq<Subscription>>
  {
    if s.userId == previous.userId then ReplaceInUserAsWritten(byUser, s)
    else AppendToUser(RemoveFromUser(byUser, previous.userId, s.id), s)
  }

  /** No list of a consistent index holds an id the index lacks, and a
      stored subscription is the only entry with its id. */
  lemma ListedIdsStored(byId: map<string, Subscription>, byUser: map<string, seq<Subscription>>, u: string, id: string)
    requires ListsIndexed(byId, byUser)
    ensures id !in byId ==> forall k :: 0 <= k < |Get(byUser, u)| ==> Get(byUser, u)[k].id != id
    ensures id in byId && u != byId[id].userId ==> forall k :: 0 <= k < |Get(byUser, u)| ==> Get(byUser, u)[k].id != id
  {
    if u in byUser {
      assert ListIndexed(byId, u, byUser[u]);
    }
  }

  lemma SaveKeepsIds(byId: map<string, Subscription>, byUser: map<string, seq<Subscription>>, s: Subscription)
    requires IdsListed(byId, byUser)
    ensures IdsListed(byId[s.id := s], AppendToUser(byUser, s))
  {
    var byUser' := AppendToUser(byUser, s);
    forall id | id in byId && id != s.id
      ensures byId[id] in Get(byUser', byId[id].userId)
    {
      var e := byId[id];
      assert e in Get(byUser, e.userId);
      if e.userId == s.userId {
        assert Get(byUser', e.userId) == Get(byUser, e.userId) + [s];
      }
    }
  }

  lemma SaveKeepsLists(byId: map<string, Subscription>, byUser: map<string, seq<Subscription>>, s: Subscription)
    requires ListsIndexed(byId, byUser) && s.id !in byId
    ensures ListsIndexed(byId[s.id := s], AppendToUser(byUser, s))
  {
    var byId' := byId[s.id := s];
    var byUser' := AppendToUser(byUser, s);
    forall u | u in byUser'
      ensures ListIndexed(byId', u, byUser'[u])
    {
      var list := Get(byUser, u);
      ListedIdsStored(byId, byUser, u, s.id);
      assert ListIndexed(byId, u, list) by {
        if u in byUser {
          assert ListIndexed(byId, u, byUser[u]);
        }
      }
      if u == s.userId {
        assert byUser'[u] == list + [s];
      }
    }
  }

  /** Saving a subscription under a new id keeps the indexes consistent. */
  lemma IndexedAfterSave(byId: map<string, Subscription>, byUser: map<string, seq<Subscription>>, s: Subscription)
    ensures Indexed(byId, byUser) && s.id !in byId ==> Indexed(byId[s.id := s], AppendToUser(byUser, s))
  {
    if Indexed(byId, byUser) && s.id !in byId {
      SaveKeepsIds(byId, byUser, s);
      SaveKeepsLists(byId, byUser, s);
    }
  }

  /** The stored subscription with this id is the i-th entry of its
      owner's list, and the first one there with its id. */
  ghost predicate StoredAt(byId: map<string, Subscription>, byUser: map<string, seq<Subscription>>, id: string, i: nat)
  {
    && id in byId && byId[id].userId in byUser
    && var list := byUser[byId[id].userId];
       i < |list| && list[i] == byId[id] && IndexOfId(list, id) == Some(i)
  }

  /** Where the stored subscription with this id sits in its owner's list. */
  lemma StoredPosition(byId: map<string, Subscription>, byUser: map<string, seq<Subscription>>, id: string) returns (i: nat)
    requires Indexed(byId, byUser) && id in byId
    ensures StoredAt(byId, byUser, id, i)
  {
    var e := byId[id];
    var list := Get(byUser, e.userId);
    assert e in list;
    assert ListIndexed(byId, e.userId, byUser[e.userId]);
    var found := IndexOfId(list, id);
    i := found.value;
    var k :| 0 <= k < |list| && list[k] == e;
    assert !(k < i) && !(k > i);
  }

  /** An entry other than the one taken out stays in the list. */
  lemma RemovedKeepsOthers<T>(list: seq<T>, i: nat, x: T)
    requires i < |list| && x in list && x != list[i]
    ensures x in list[..i] + list[i + 1..]
  {
    var k :| 0 <= k < |list| && list[k] == x;
    if k < i {
      assert (list[..i] + list[i + 1..])[k] == x;
    } else {
      assert (list[..i] + list[i + 1..])[k - 1] == x;
    }
  }

  /** An entry other than the one replaced stays in the list. */
  lemma ReplacedKeepsOthers<T>(list: seq<T>, i: nat, y: T, x: T)
    requires i < |list| && x in list && x != list[i]
    ensures x in list[i := y]
  {
    var k :| 0 <= k < |list| && list[k] == x;
    assert list[i := y][k] == x;
  }

  lemma DeleteKeepsIds(byId: map<string, Subscription>, byUser: map<string, seq<Subscription>>, id: string, i: nat)
    requires IdsListed(byId, byUser) && StoredAt(byId, byUser, id, i)
    ensures IdsListed(byId - {id}, RemoveFromUser(byUser, byId[id].userId, id))
  {
    var u := byId[id].userId;
    var list := byUser[u];
    var byUser' := byUser[u := list[..i] + list[i + 1..]];
    assert RemoveFromUser(byUser, u, id) == byUser';
    forall id2 | id2 in byId && id2 != id
      ensures byId[id2] in Get(byUser', byId[id2].userId)
    {
      var e2 := byId[id2];
      assert e2.id == id2 && e2 in Get(byUser, e2.userId);
      if e2.userId == u {
        RemovedKeepsOthers(list, i, e2);
      }
    }
  }

  /** Taking one entry out of a consistent list leaves a consistent list
      for the index without that entry. */
  lemma RemovedListIndexed(byId: map<string, Subscription>, u: string, list: seq<Subscription>, i: nat)
    requires ListIndexed(byId, u, list) && i < |list|
    ensures ListIndexed(byId - {list[i].id}, u, list[..i] + list[i + 1..])
  {
    var list' := list[..i] + list[i + 1..];
    assert forall k :: 0 <= k < |list'| ==> list'[k] == (if k < i then list[k] else list[k + 1]);
  }

  /** A list without the id stays consistent when the id leaves the index. */
  lemma UntouchedListIndexed(byId: map<string, Subscription>, u: string, list: seq<Subscription>, id: string)
    requires ListIndexed(byId, u, list)
    requires forall k :: 0 <= k < |list| ==> list[k].id != id
    ensures ListIndexed(byId - {id}, u, list)
  {
  }

  /** Taking the i-th entry out of user u's list keeps every list
      consistent for the index without that entry's id. */
  lemma RemovedListsIndexed(byId: map<string, Subscription>, byUser: map<string, seq<Subscription>>, u: string, i: nat)
    requires ListsIndexed(byId, byUser) && u in byUser && i < |byUser[u]|
    ensures var list := byUser[u];
      ListsIndexed(byId - {list[i].id}, byUser[u := list[..i] + list[i + 1..]])
  {
    var list := byUser[u];
    var id := list[i].id;
    assert ListIndexed(byId, u, list);
    RemovedListIndexed(byId, u, list, i);
    var byUser' := byUser[u := list[..i] + list[i + 1..]];
    forall u2 | u2 in byUser' && u2 != u
      ensures ListIndexed(byId - {id}, u2, byUser'[u2])
    {
      ListedIdsStored(byId, byUser, u2, id);
      assert ListIndexed(byId, u2, byUser[u2]);
      UntouchedListIndexed(byId, u2, byUser[u2], id);
    }
  }

  lemma DeleteKeepsLists(byId: map<string, Subscription>, byUser: map<string, seq<Subscription>>, id: string, i: nat)
    requires ListsIndexed(byId, byUser) && StoredAt(byId, byUser, id, i)
    ensures ListsIndexed(byId - {id}, RemoveFromUser(byUser, byId[id].userId, id))
  {
    var u := byId[id].userId;
    var list := byUser[u];
    assert list[i].id == id;
    RemovedListsIndexed(byId, byUser, u, i);
    assert RemoveFromUser(byUser, u, id) == byUser[u := list[..i] + list[i + 1..]];
  }

  /** Deleting a stored subscription keeps the indexes consistent. */
  lemma IndexedAfterDelete(byId: map<string, Subscription>, byUser: map<string, seq<Subscription>>, id: string)
    requires id in byId
    ensures Indexed(byId, byUser) ==> Indexed(byId - {id}, RemoveFromUser(byUser, byId[id].userId, id))
  {
    if Indexed(byId, byUser) {
      var i := StoredPosition(byId, byUser, id);
      DeleteKeepsIds(byId, byUser, id, i);
      DeleteKeepsLists(byId, byUser, id, i);
    }
  }

  lemma ReplaceKeepsIds(byId: map<string, Subscription>, byUser: map<string, seq<Subscription>>, s: Subscription, i: nat)
    requires IdsListed(byId, byUser) && StoredAt(byId, byUser, s.id, i) && byId[s.id].userId == s.userId
    ensures IdsListed(byId[s.id := s], ReplaceInUserAsWritten(byUser, s))
  {
    var list := byUser[s.userId];
    var byUser' := byUser[s.userId := list[i := s]];
    assert ReplaceInUserAsWritten(byUser, s) == byUser';
    forall id2 | id2 in byId && id2 != s.id
      ensures byId[id2] in Get(byUser', byId[id2].userId)
    {
      var e2 := byId[id2];
      assert e2.id == id2 && e2 in Get(byUser, e2.userId);
      if e2.userId == s.userId {
        ReplacedKeepsOthers(list, i, s, e2);
      }
    }
    assert list[i := s][i] == s;
  }

  /** Replacing the entry of a consistent list by one with the same id and
      owner gives a consistent list for the index holding the new entry. */
  lemma ReplacedListIndexed(byId: map<string, Subscription>, u: string, list: seq<Subscription>, i: nat, s: Subscription)
    requires ListIndexed(byId, u, list) && i < |list| && list[i].id == s.id && s.userId == u
    ensures ListIndexed(byId[s.id := s], u, list[i := s])
  {
  }

  lemma ReplaceKeepsLists(byId: map<string, Subscription>, byUser: map<string, seq<Subscription>>, s: Subscription, i: nat)
    requires ListsIndexed(byId, byUser) && StoredAt(byId, byUser, s.id, i) && byId[s.id].userId == s.userId
    ensures ListsIndexed(byId[s.id := s], ReplaceInUserAsWritten(byUser, s))
  {
    var list := byUser[s.userId];
    var byId' := byId[s.id := s];
    var byUser' := byUser[s.userId := list[i := s]];
    assert ReplaceInUserAsWritten(byUser, s) == byUser';
    assert ListIndexed(byId, s.userId, list);
    ReplacedListIndexed(byId, s.userId, list, i, s);
    forall u | u in byUser' && u != s.userId
      ensures ListIndexed(byId', u, byUser'[u])
    {
      ListedIdsStored(byId, byUser, u, s.id);
      assert ListIndexed(byId, u, byUser[u]);
    }
  }

  /** Replacing a subscription in its own user's list keeps the indexes
      consistent. */
  lemma IndexedAfterReplace(byId: map<string, Subscription>, byUser: map<string, seq<Subscription>>, s: Subscription)
    requires Indexed(byId, byUser) && s.id in byId && byId[s.id].userId == s.userId
    ensures Indexed(byId[s.id := s], ReplaceInUserAsWritten(byUser, s))
  {
    var i := StoredPosition(byId, byUser, s.id);
    ReplaceKeepsIds(byId, byUser, s, i);
    ReplaceKeepsLists(byId, byUser, s, i);
  }

  /** The corrected update keeps the indexes consistent whether or not the
      owner changes. */
  lemma IndexedAfterUpdate(byId: map<string, Subscription>, byUser: map<string, seq<Subscription>>, s: Subscription)
    requires s.id in byId
    ensures Indexed(byId, byUser) ==> Indexed(byId[s.id := s], ReplaceInUser(byUser, byId[s.id], s))
  {
    if Indexed(byId, byUser) {
      if s.userId == byId[s.id].userId {
        IndexedAfterReplace(byId, byUser, s);
      } else {
        IndexedAfterMove(byId, byUser, s);
      }
    }
  }

  /** An update that changes the owner is a delete followed by a save. */
  lemma IndexedAfterMove(byId: map<string, Subscription>, byUser: map<string, seq<Subscription>>, s: Subscription)
    requires Indexed(byId, byUser) && s.id in byId && byId[s.id].userId != s.userId
    ensures Indexed(byId[s.id := s], ReplaceInUser(byUser, byId[s.id], s))
  {
    var i := StoredPosition(byId, byUser, s.id);
    MoveKeepsIds(byId, byUser, s, i);
    MoveKeepsLists(byId, byUser, s, i);
  }

  lemma MoveKeepsIds(byId: map<string, Subscription>, byUser: map<string, seq<Subscription>>, s: Subscription, i: nat)
    requires IdsListed(byId, byUser) && StoredAt(byId, byUser, s.id, i) && byId[s.id].userId != s.userId
    ensures IdsListed(byId[s.id := s], ReplaceInUser(byUser, byId[s.id], s))
  {
    var byId1 := byId - {s.id};
    var byUser1 := RemoveFromUser(byUser, byId[s.id].userId, s.id);
    DeleteKeepsIds(byId, byUser, s.id, i);
    SaveKeepsIds(byId1, byUser1, s);
    assert byId1[s.id := s] == byId[s.id := s];
  }

  lemma MoveKeepsLists(byId: map<string, Subscription>, byUser: map<string, seq<Subscription>>, s: Subscription, i: nat)
    requires ListsIndexed(byId, byUser) && StoredAt(byId, byUser, s.id, i) && byId[s.id].userId != s.userId
    ensures ListsIndexed(byId[s.id := s], ReplaceInUser(byUser, byId[s.id], s))
  {
    var byId1 := byId - {s.id};
    var byUser1 := RemoveFromUser(byUser, byId[s.id].userId, s.id);
    DeleteKeepsLists(byId, byUser, s.id, i);
    SaveKeepsLists(byId1, byUser1, s);
    assert byId1[s.id := s] == byId[s.id := s];
  }

  /** As written, an update that changes the owner leaves the stale entry in
      the old owner's list and never reaches the new owner's list. */
  lemma UpdateAsWrittenLosesOwnerChange(byId: map<string, Subscription>, byUser: map<string, seq<Subscription>>, s: Subscription)
    requires Indexed(byId, byUser) && s.id in byId && byId[s.id].userId != s.userId
    ensures byId[s.id] in Get(ReplaceInUserAsWritten(byUser, s), byId[s.id].userId)
    ensures s !in Get(ReplaceInUserAsWritten(byUser, s), s.userId)
    ensures !Indexed(byId[s.id := s], ReplaceInUserAsWritten(byUser, s))
  {
    var e := byId[s.id];
    var list := Get(byUser, s.userId);
    ListedIdsStored(byId, byUser, s.userId, s.id);
    assert IndexOfId(list, s.id).None?;
    var after := ReplaceInUserAsWritten(byUser, s);
    assert after == byUser;
    var i := StoredPosition(byId, byUser, s.id);
    assert !ListIndexed(byId[s.id := s], e.userId, after[e.userId]) by {
      assert after[e.userId][i] == e;
      assert byId[s.id := s][e.id] == s != e;
    }
  }

  // ---------------------------------------------------------------------
  // Alert history

  /** The backward walk of GetAlertHistory: newest alerts of the symbol
      first, at most `limit` of them. */
  function NewestMatching(alerts: seq<AlertEvent>, symbol: string, limit: int): seq<AlertEvent>
    decreases |alerts|
  {
    if |alerts| == 0 || limit <= 0 then []
    else
      var last := alerts[|alerts| - 1];
      var rest := alerts[..|alerts| - 1];
      if last.symbol == symbol then [last] + NewestMatching(rest, symbol, limit - 1)
      else NewestMatching(rest, symbol, limit)
  }

  /** The symbol's alerts in insertion order. */
  function Matching(alerts: seq<AlertEvent>, symbol: string): seq<AlertEvent>
    decreases |alerts|
  {
    if |alerts| == 0 then []
    else
      var prev := Matching(alerts[..|alerts| - 1], symbol);
      if alerts[|alerts| - 1].symbol == symbol then prev + [alerts[|alerts| - 1]] else prev
  }

  /** Matching keeps exactly the alerts of the symbol. */
  lemma {:induction false} MatchingMembers(alerts: seq<AlertEvent>, symbol: string)
    ensures forall a :: a in Matching(alerts, symbol) <==> a in alerts && a.symbol == symbol
    decreases |alerts|
  {
    if |alerts| > 0 {
      MatchingMembers(alerts[..|alerts| - 1], symbol);
      assert alerts == alerts[..|alerts| - 1] + [alerts[|alerts| - 1]];
    }
  }

  function Reverse<T>(s: seq<T>): (r: seq<T>)
    ensures |r| == |s|
    decreases |s|
  {
    if |s| == 0 then [] else [s[|s| - 1]] + Reverse(s[..|s| - 1])
  }

  /** The walk returns the symbol's alerts newest first, cut to `limit`. */
  lemma {:induction false} NewestMatchingIsReversed(alerts: seq<AlertEvent>, symbol: string, limit: int)
    requires limit >= 0
    ensures var all := Reverse(Matching(alerts, symbol));
      NewestMatching(alerts, symbol, limit) == all[..if limit < |all| then limit else |all|]
    decreases |alerts|
  {
    if |alerts| > 0 && limit > 0 {
      var rest := alerts[..|alerts| - 1];
      var last := alerts[|alerts| - 1];
      var prev := Matching(rest, symbol);
      if last.symbol == symbol {
        NewestMatchingIsReversed(rest, symbol, limit - 1);
        NewestMatchingHit(alerts, symbol, limit);
      } else {
        NewestMatchingIsReversed(rest, symbol, limit);
        assert Matching(alerts, symbol) == prev;
      }
    }
  }

  /** The step of the walk that meets an alert of the symbol. */
  lemma NewestMatchingHit(alerts: seq<AlertEvent>, symbol: string, limit: int)
    requires |alerts| > 0 && limit > 0 && alerts[|alerts| - 1].symbol == symbol
    requires var all := Reverse(Matching(alerts[..|alerts| - 1], symbol));
      NewestMatching(alerts[..|alerts| - 1], symbol, limit - 1) == all[..if limit - 1 < |all| then limit - 1 else |all|]
    ensures var all := Reverse(Matching(alerts, symbol));
      NewestMatching(alerts, symbol, limit) == all[..if limit < |all| then limit else |all|]
  {
    var last := alerts[|alerts| - 1];
    var prev := Matching(alerts[..|alerts| - 1], symbol);
    assert Matching(alerts, symbol) == prev + [last];
    ReverseSnoc(prev, last);
    var r := Reverse(prev);
    var n := if limit - 1 < |r| then limit - 1 else |r|;
    assert ([last] + r)[..n + 1] == [last] + r[..n];
  }

  lemma ReverseSnoc<T>(s: seq<T>, x: T)
    ensures Reverse(s + [x]) == [x] + Reverse(s)
  {
    assert (s + [x])[..|s|] == s;
  }

  /** Every alert returned is of the symbol, and no more than `limit`. */
  lemma {:induction false} NewestMatchingBounds(alerts: seq<AlertEvent>, symbol: string, limit: int)
    ensures |NewestMatching(alerts, symbol, limit)| <= if limit < 0 then 0 else limit
    ensures forall a :: a in NewestMatching(alerts, symbol, limit) ==> a in alerts && a.symbol == symbol
    decreases |alerts|
  {
    if |alerts| > 0 && limit > 0 {
      var rest := alerts[..|alerts| - 1];
      NewestMatchingBounds(rest, symbol, limit - 1);
      NewestMatchingBounds(rest, symbol, limit);
      assert alerts == rest + [alerts[|alerts| - 1]];
    }
  }

  // ---------------------------------------------------------------------
  // The repository

  class Repository {
    /** The per-symbol entries. */
    var subscriptions: map<string, seq<LegacySubscription>>
    var userSubscriptions: map<string, seq<Subscription>>
    var subscriptionById: map<string, Subscription>
    var alerts: seq<AlertEvent>

    ghost predicate Valid()
      reads this`subscriptionById, this`userSubscriptions
    {
      Indexed(subscriptionById, userSubscriptions)
    }

    constructor ()
      ensures Valid()
      ensures subscriptions == map[] && userSubscriptions == map[] && subscriptionById == map[] && alerts == []
    {
      subscriptions := map[];
      userSubscriptions := map[];
      subscriptionById := map[];
      alerts := [];
    }

    /** SaveSubscription: one entry per symbol, appended to that symbol's
        list; it never fails. */
    method SaveSubscription(userId: string, symbols: seq<string>, rules: seq<DetectionRule>, now: int)
      returns (result: Outcome)
      modifies this`subscriptions
      ensures result == Pass
      ensures subscriptions == AppendLegacy(old(subscriptions), userId, symbols, rules, now)
    {
      for i := 0 to |symbols|
        invariant subscriptions == AppendLegacy(old(subscriptions), userId, symbols[..i], rules, now)
      {
        assert symbols[..i + 1][..i] == symbols[..i];
        var symbol := symbols[i];
        var sub := LegacySubscription(userId, symbol, rules, now);
        subscriptions := subscriptions[symbol := Get(subscriptions, symbol) + [sub]];
      }
      assert symbols[..|symbols|] == symbols;
      return Pass;
    }

    /** GetSubscriptions: the entries of one symbol. */
    method GetSubscriptions(symbol: string) returns (entries: seq<LegacySubscription>)
      ensures entries == Get(subscriptions, symbol)
    {
      entries := if symbol in subscriptions then subscriptions[symbol] else [];
    }

    /** SaveAlert appends exactly one alert and never fails. */
    method SaveAlert(alert: AlertEvent) returns (result: Outcome)
      modifies this`alerts
      ensures result == Pass && alerts == old(alerts) + [alert]
    {
      alerts := alerts + [alert];
      return Pass;
    }

    /** GetAlertHistory. Without a symbol: the last `limit` alerts in
        insertion order (all of them when there are no more than `limit`);
        a negative limit there slices out of range, so it is excluded. With
        a symbol: the newest alerts of that symbol, at most `limit`. */
    method GetAlertHistory(symbol: string, limit: int) returns (history: seq<AlertEvent>, result: Outcome)
      requires symbol != "" || limit >= 0
      ensures result == Pass
      ensures symbol == "" ==>
        |history| == (if |alerts| <= limit then |alerts| else limit) && history == alerts[|alerts| - |history|..]
      ensures symbol != "" ==> history == NewestMatching(alerts, symbol, limit)
    {
      if symbol == "" {
        if |alerts| <= limit {
          return alerts, Pass;
        }
        return alerts[|alerts| - limit..], Pass;
      }
      history := [];
      var i := |alerts| - 1;
      assert alerts[..i + 1] == alerts;
      while i >= 0 && |history| < limit
        invariant -1 <= i < |alerts|
        invariant history + NewestMatching(alerts[..i + 1], symbol, limit - |history|)
               == NewestMatching(alerts, symbol, limit)
        decreases i
      {
        assert alerts[..i + 1][..i] == alerts[..i];
        if alerts[i].symbol == symbol {
          history := history + [alerts[i]];
        }
        i := i - 1;
      }
      return history, Pass;
    }

    /** SaveSubscriptionModel: an empty id is replaced by `newId` (the uuid
        the call draws); the subscription joins its user's list and the id
        index, and one per-symbol entry per symbol carries its enabled rules.
        Saved under an id not yet stored, the indexes stay consistent. */
    method SaveSubscriptionModel(subscription: Subscription, newId: string) returns (saved: Subscription, result: Outcome)
      modifies this`subscriptions, this`userSubscriptions, this`subscriptionById
      ensures saved == if subscription.id == "" then subscription.(id := newId) else subscription
      ensures result == Pass
      ensures userSubscriptions == AppendToUser(old(userSubscriptions), saved)
      ensures subscriptionById == old(subscriptionById)[saved.id := saved]
      ensures subscriptions == AppendLegacy(old(subscriptions), saved.userId, saved.symbols,
                                            LegacyRules(saved.alertRules), saved.createdAt)
      ensures old(Valid()) && saved.id !in old(subscriptionById) ==> Valid()
    {
      saved := subscription;
      if saved.id == "" {
        saved := saved.(id := newId);
      }
      var users := userSubscriptions[saved.userId := Get(userSubscriptions, saved.userId) + [saved]];
      var byId := subscriptionById[saved.id := saved];
      IndexedAfterSave(subscriptionById, userSubscriptions, saved);
      userSubscriptions, subscriptionById := users, byId;
      SaveLegacyEntries(saved);
      return saved, Pass;
    }

    /** GetUserSubscriptions: the user's list, every entry of which belongs
        to the user while the indexes are consistent. */
    method GetUserSubscriptions(userId: string) returns (subs: seq<Subscription>, result: Outcome)
      requires Valid()
      ensures result == Pass && subs == Get(userSubscriptions, userId)
      ensures forall i :: 0 <= i < |subs| ==> subs[i].userId == userId && subscriptionById[subs[i].id] == subs[i]
    {
      subs := if userId in userSubscriptions then userSubscriptions[userId] else [];
      if userId in userSubscriptions {
        assert ListIndexed(subscriptionById, userId, userSubscriptions[userId]);
      }
      return subs, Pass;
    }

    /** UpdateSubscription as written: an unknown id fails; otherwise the
        stored creation time is kept, the id index is replaced, and the first
        entry with the id in the NEW owner's list is replaced. The per-symbol
        entries are not touched. */
    method UpdateSubscriptionAsWritten(subscription: Subscription) returns (result: Outcome)
      modifies this`userSubscriptions, this`subscriptionById
      ensures subscription.id !in old(subscriptionById) ==>
        result == Fail("订阅不存在") && subscriptionById == old(subscriptionById) && userSubscriptions == old(userSubscriptions)
      ensures subscription.id in old(subscriptionById) ==>
        && result == Pass
        && var s := subscription.(createdAt := old(subscriptionById)[subscription.id].createdAt);
           && subscriptionById == old(subscriptionById)[s.id := s]
           && userSubscriptions == ReplaceInUserAsWritten(old(userSubscriptions), s)
    {
      if subscription.id !in subscriptionById {
        return Fail("订阅不存在");
      }
      var s := subscription.(createdAt := subscriptionById[subscription.id].createdAt);
      subscriptionById := subscriptionById[s.id := s];
      userSubscriptions := ReplaceUserEntry(userSubscriptions, s);
      return Pass;
    }

    /** UpdateSubscription with the owner change handled: an unknown id
        fails; otherwise the stored creation time is kept and the entry is
        replaced in place, or moved to the new owner's list when the owner
        changed. The indexes stay consistent. */
    method UpdateSubscription(subscription: Subscription) returns (result: Outcome)
      modifies this`userSubscriptions, this`subscriptionById
      ensures subscription.id !in old(subscriptionById) ==>
        result == Fail("订阅不存在") && subscriptionById == old(subscriptionById) && userSubscriptions == old(userSubscriptions)
      ensures subscription.id in old(subscriptionById) ==>
        && result == Pass
        && var previous := old(subscriptionById)[subscription.id];
           var s := subscription.(createdAt := previous.createdAt);
           && subscriptionById == old(subscriptionById)[s.id := s]
           && userSubscriptions == ReplaceInUser(old(userSubscriptions), previous, s)
      ensures old(Valid()) ==> Valid()
    {
      if subscription.id !in subscriptionById {
        return Fail("订阅不存在");
      }
      var previous := subscriptionById[subscription.id];
      var s := subscription.(createdAt := previous.createdAt);
      var users: map<string, seq<Subscription>>;
      if s.userId == previous.userId {
        users := ReplaceUserEntry(userSubscriptions, s);
      } else {
        users := RemoveUserEntry(userSubscriptions, previous.userId, s.id);
        users := users[s.userId := Get(users, s.userId) + [s]];
      }
      assert users == ReplaceInUser(userSubscriptions, previous, s);
      IndexedAfterUpdate(subscriptionById, userSubscriptions, s);
      subscriptionById, userSubscriptions := subscriptionById[s.id := s], users;
      return Pass;
    }

    /** DeleteSubscription: an unknown id fails; otherwise the id leaves the
        id index and its owner's list, and per symbol the first entry of the
        owner leaves that symbol's list. The indexes stay consistent. */
    method DeleteSubscription(subscriptionId: string) returns (result: Outcome)
      modifies this`subscriptions, this`userSubscriptions, this`subscriptionById
      ensures subscriptionId !in old(subscriptionById) ==>
        && result == Fail("订阅不存在")
        && subscriptionById == old(subscriptionById) && userSubscriptions == old(userSubscriptions)
        && subscriptions == old(subscriptions)
      ensures subscriptionId in old(subscriptionById) ==>
        && result == Pass
        && var e := old(subscriptionById)[subscriptionId];
           && subscriptionById == old(subscriptionById) - {subscriptionId}
           && userSubscriptions == RemoveFromUser(old(userSubscriptions), e.userId, subscriptionId)
           && subscriptions == DropLegacy(old(subscriptions), e.userId, e.symbols)
      ensures old(Valid()) ==> Valid()
    {
      if subscriptionId !in subscriptionById {
        return Fail("订阅不存在");
      }
      var e := subscriptionById[subscriptionId];
      var users := RemoveUserEntry(userSubscriptions, e.userId, subscriptionId);
      IndexedAfterDelete(subscriptionById, userSubscriptions, subscriptionId);
      subscriptionById, userSubscriptions := subscriptionById - {subscriptionId}, users;
      DropLegacyEntries(e.userId, e.symbols);
      return Pass;
    }

    /** The per-symbol loop of SaveSubscriptionModel. */
    method SaveLegacyEntries(saved: Subscription)
      modifies this`subscriptions
      ensures subscriptions == AppendLegacy(old(subscriptions), saved.userId, saved.symbols,
                                            LegacyRules(saved.alertRules), saved.createdAt)
    {
      for i := 0 to |saved.symbols|
        invariant subscriptions == AppendLegacy(old(subscriptions), saved.userId, saved.symbols[..i],
                                                LegacyRules(saved.alertRules), saved.createdAt)
      {
        assert saved.symbols[..i + 1][..i] == saved.symbols[..i];
        var rules := ConvertRules(saved.alertRules);
        var sub := LegacySubscription(saved.userId, saved.symbols[i], rules, saved.createdAt);
        subscriptions := subscriptions[saved.symbols[i] := Get(subscriptions, saved.symbols[i]) + [sub]];
      }
      assert saved.symbols[..|saved.symbols|] == saved.symbols;
    }

    /** The per-symbol loop of DeleteSubscription. */
    method DropLegacyEntries(userId: string, symbols: seq<string>)
      modifies this`subscriptions
      ensures subscriptions == DropLegacy(old(subscriptions), userId, symbols)
    {
      for i := 0 to |symbols|
        invariant subscriptions == DropLegacy(old(subscriptions), userId, symbols[..i])
      {
        assert symbols[..i + 1][..i] == symbols[..i];
        var symbolSubs := Get(subscriptions, symbols[i]);
        var at := FindUser(symbolSubs, userId);
        if at.Some? {
          subscriptions := subscriptions[symbols[i] := symbolSubs[..at.value] + symbolSubs[at.value + 1..]];
        }
      }
      assert symbols[..|symbols|] == symbols;
    }
  }

  /** The rule-conversion loop of SaveSubscriptionModel. */
  method ConvertRules(alertRules: seq<AlertRule>) returns (rules: seq<DetectionRule>)
    ensures rules == LegacyRules(alertRules)
  {
    rules := [];
    for i := 0 to |alertRules|
      invariant rules == LegacyRules(alertRules[..i])
    {
      assert alertRules[..i + 1][..i] == alertRules[..i];
      var alertType: AlertType;
      var name := alertRules[i].ruleType.Name();
      if name == "price_volatility" {
        alertType := PriceVolatility;
      } else if name == "volume_spike" {
        alertType := VolumeSpike;
      } else if name == "news_alert" {
        alertType := NewsImpact;
      } else {
        alertType := PriceVolatility;
      }
      assert alertType == LegacyType(alertRules[i].ruleType);
      if alertRules[i].enabled {
        rules := rules + [DetectionRule("", alertType, alertRules[i].threshold, false, "", 0, 0)];
      }
    }
    assert alertRules[..|alertRules|] == alertRules;
  }

  /** The user-list removal of DeleteSubscription and UpdateSubscription. */
  method RemoveUserEntry(byUser: map<string, seq<Subscription>>, userId: string, id: string)
    returns (r: map<string, seq<Subscription>>)
    ensures r == RemoveFromUser(byUser, userId, id)
  {
    var list := Get(byUser, userId);
    var found := FindId(list, id);
    r := byUser;
    if found.Some? {
      r := byUser[userId := list[..found.value] + list[found.value + 1..]];
    }
  }

  /** The user-list replacement of UpdateSubscription. */
  method ReplaceUserEntry(byUser: map<string, seq<Subscription>>, s: Subscription)
    returns (r: map<string, seq<Subscription>>)
    ensures r == ReplaceInUserAsWritten(byUser, s)
  {
    var list := Get(byUser, s.userId);
    var found := FindId(list, s.id);
    r := byUser;
    if found.Some? {
      r := byUser[s.userId := list[found.value := s]];
    }
  }

  /** The search loop over a user list. */
  method FindId(list: seq<Subscription>, id: string) returns (found: Option<nat>)
    ensures found == IndexOfId(list, id)
  {
    for i := 0 to |list|
      invariant forall j :: 0 <= j < i ==> list[j].id != id
    {
      if list[i].id == id {
        IndexOfIdFirst(list, id, i);
        return Some(i);
      }
    }
    return None;
  }

  /** The search loop over a per-symbol list. */
  method FindUser(list: seq<LegacySubscription>, userId: string) returns (found: Option<nat>)
    ensures found == IndexOfUser(list, userId)
  {
    for i := 0 to |list|
      invariant forall j :: 0 <= j < i ==> list[j].userId != userId
    {
      if list[i].userId == userId {
        IndexOfUserFirst(list, userId, i);
        return Some(i);
      }
    }
    return None;
  }

  lemma {:induction false} IndexOfIdFirst(list: seq<Subscription>, id: string, i: nat)
    requires i < |list| && list[i].id == id && forall j :: 0 <= j < i ==> list[j].id != id
    ensures IndexOfId(list, id) == Some(i)
  {
    var r := IndexOfId(list, id);
    assert r.Some?;
    assert !(r.value < i) && !(r.value > i);
  }

  lemma {:induction false} IndexOfUserFirst(list: seq<LegacySubscription>, userId: string, i: nat)
    requires i < |list| && list[i].userId == userId && forall j :: 0 <= j < i ==> list[j].userId != userId
    ensures IndexOfUser(list, userId) == Some(i)
  {
    var r := IndexOfUser(list, userId);
    assert r.Some?;
    assert !(r.value < i) && !(r.value > i);
  }
}
