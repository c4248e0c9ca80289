/** What a merge keeps: every publish that worked, every row, every subscription, every pack and every count. */
module AccountMerge {
  import opened AccountModel

  // ---------------------------------------------------------------- topics

  /** The unique index on (account, name), and how a hash is made. */
  ghost predicate TopicsOk(topics: map<TopicId, Topic>) {
    && (forall t :: t in topics ==>
          IsTopicName(topics[t].name) && topics[t].hash == HashOf(topics[t].baseUrl, topics[t].name))
    && (forall s, t :: s in topics && t in topics && s != t && topics[s].account == topics[t].account ==>
        topics[s].name != topics[t].name)
  }

  /** A name holds no slash, so the last slash of what is hashed stands right before it. */
  lemma LastSlash(baseUrl: string, name: string)
    requires IsTopicName(name)
    ensures HashOf(baseUrl, name)[|baseUrl|] == '/'
    ensures forall i :: |baseUrl| < i < |HashOf(baseUrl, name)| ==> HashOf(baseUrl, name)[i] != '/'
  {
  }

  /** Equal hashes mean equal names, and equal base URLs. */
  lemma HashFixesName(baseUrl: string, name: string, baseUrl': string, name': string)
    requires IsTopicName(name) && IsTopicName(name') && HashOf(baseUrl, name) == HashOf(baseUrl', name')
    ensures name == name' && baseUrl == baseUrl'
  {
    var text := HashOf(baseUrl, name);
    LastSlash(baseUrl, name);
    LastSlash(baseUrl', name');
    assert |baseUrl| == |baseUrl'|;
    assert name == text[|baseUrl| + 1..] && name' == text[|baseUrl'| + 1..];
    assert baseUrl == text[..|baseUrl|] && baseUrl' == text[..|baseUrl'|];
  }

  /** Hashes are unique in an account because names are. */
  lemma HashesAreUnique(topics: map<TopicId, Topic>, s: TopicId, t: TopicId)
    requires TopicsOk(topics) && s in topics && t in topics && s != t && topics[s].account == topics[t].account
    ensures topics[s].hash != topics[t].hash
  {
    if topics[s].hash == topics[t].hash {
      HashFixesName(topics[s].baseUrl, topics[s].name, topics[t].baseUrl, topics[t].name);
    }
  }

  lemma TakerHasName(topics: map<TopicId, Topic>, target: AccountId, t: TopicId, s: TopicId)
    requires TopicsOk(topics) && t in topics && Takes(topics, target, t, s)
    ensures topics[s].name == topics[t].name
  {
    if topics[s].hash == topics[t].hash {
      HashFixesName(topics[s].baseUrl, topics[s].name, topics[t].baseUrl, topics[t].name);
    }
  }

  /** Hash or name, at most one topic of the target takes a topic of the source. */
  lemma OneTaker(topics: map<TopicId, Topic>, target: AccountId, t: TopicId, r: TopicId, s: TopicId)
    requires TopicsOk(topics) && t in topics && Takes(topics, target, t, r) && Takes(topics, target, t, s)
    ensures r == s
  {
    TakerHasName(topics, target, t, r);
    TakerHasName(topics, target, t, s);
  }

  /** Topics of the source alone are being folded. */
  ghost predicate FoldsFrom(topics: map<TopicId, Topic>, source: AccountId, target: AccountId, done: set<TopicId>) {
    source != target && forall t :: t in done ==> t in topics && topics[t].account == source
  }

  lemma HeirKeepsName(topics: map<TopicId, Topic>, source: AccountId, target: AccountId, done: set<TopicId>, t: TopicId)
    requires TopicsOk(topics) && FoldsFrom(topics, source, target, done) && t in topics
    ensures var heir, after := Heir(topics, target, done, t), FoldedTopics(topics, target, done);
            heir in after && after[heir].name == topics[t].name
    ensures var heir, after := Heir(topics, target, done, t), FoldedTopics(topics, target, done);
            after[heir].account == if t in done then target else topics[t].account
  {
    var heir := Heir(topics, target, done, t);
    if t in done && Folds(topics, target, t) {
      TakerHasName(topics, target, t, heir);
      assert heir !in done;
    }
  }

  lemma FoldingKeepsTopics(topics: map<TopicId, Topic>, source: AccountId, target: AccountId, done: set<TopicId>)
    requires TopicsOk(topics) && FoldsFrom(topics, source, target, done)
    ensures TopicsOk(FoldedTopics(topics, target, done))
  {
  }

  // ---------------------------------------------------------------- what publishing needs

  /** The tables that hang on topics, and the topics. */
  datatype Hanging = Hanging(
    topics: map<TopicId, Topic>,
    tokens: map<TokenHash, TopicId>,
    incidents: map<IncidentId, Incident>,
    messages: map<MessageId, TopicId>)

  function HangingOf(db: Db): Hanging {
    Hanging(db.topics, db.tokens, db.incidents, db.messages)
  }

  /** Foreign keys of tokens, incidents and messages, and the keys of topics. */
  ghost predicate RowsOk(rows: Hanging) {
    && TopicsOk(rows.topics)
    && (forall h :: h in rows.tokens ==> rows.tokens[h] in rows.topics)
    && (forall i :: i in rows.incidents ==> rows.incidents[i].topic in rows.topics)
    && (forall m :: m in rows.messages ==> rows.messages[m] in rows.topics)
  }

  /** A token opens exactly the topic names it opened before the merge. */
  lemma MergeKeepsPublishing(db: Db, source: AccountId, target: AccountId, token: TokenHash, name: string)
    requires source in db.accounts && target in db.accounts && source != target
    requires RowsOk(HangingOf(db))
    ensures Authenticates(MergeInto(db, source, target), token, name) <==> Authenticates(db, token, name)
  {
    FoldKeepsPublishing(db, source, target, token, name);
  }

  lemma FoldKeepsPublishing(db: Db, source: AccountId, target: AccountId, token: TokenHash, name: string)
    requires source != target && RowsOk(HangingOf(db))
    ensures Authenticates(FoldTopics(db, target, TopicsOf(db, source)), token, name) <==> Authenticates(db, token, name)
  {
    if token in db.tokens {
      HeirKeepsName(db.topics, source, target, TopicsOf(db, source), db.tokens[token]);
    }
  }

  /** `heir` has the name `t` had, and is the target's if `t` was the source's. */
  predicate StandsIn(before: map<TopicId, Topic>, after: map<TopicId, Topic>, source: AccountId, target: AccountId,
                     t: TopicId, heir: TopicId) {
    && t in before && heir in after && after[heir].name == before[t].name
    && after[heir].account == if before[t].account == source then target else before[t].account
  }

  /** No token, incident or message went, and each hangs on a topic that stands in for the one it hung on. */
  ghost predicate TokensKept(rows: Hanging, rows': Hanging, source: AccountId, target: AccountId) {
    && rows'.tokens.Keys == rows.tokens.Keys
    && forall h :: h in rows.tokens ==>
        StandsIn(rows.topics, rows'.topics, source, target, rows.tokens[h], rows'.tokens[h])
  }

  ghost predicate MessagesKept(rows: Hanging, rows': Hanging, source: AccountId, target: AccountId) {
    && rows'.messages.Keys == rows.messages.Keys
    && forall m :: m in rows.messages ==>
        StandsIn(rows.topics, rows'.topics, source, target, rows.messages[m], rows'.messages[m])
  }

  ghost predicate IncidentsKept(rows: Hanging, rows': Hanging, source: AccountId, target: AccountId) {
    && rows'.incidents.Keys == rows.incidents.Keys
    && forall i :: i in rows.incidents ==>
         rows'.incidents[i].active == rows.incidents[i].active
         && StandsIn(rows.topics, rows'.topics, source, target, rows.incidents[i].topic, rows'.incidents[i].topic)
  }

  /** Names stay unique in every account and no topic is left behind. */
  ghost predicate TopicsMoved(topics: map<TopicId, Topic>, source: AccountId) {
    TopicsOk(topics) && forall t :: t in topics ==> topics[t].account != source
  }

  ghost predicate LosesNothing(rows: Hanging, rows': Hanging, source: AccountId, target: AccountId) {
    && TopicsMoved(rows'.topics, source)
    && TokensKept(rows, rows', source, target)
    && MessagesKept(rows, rows', source, target)
    && IncidentsKept(rows, rows', source, target)
  }

  lemma MergeLosesNothing(db: Db, source: AccountId, target: AccountId)
    requires source in db.accounts && target in db.accounts && source != target
    requires RowsOk(HangingOf(db))
    ensures LosesNothing(HangingOf(db), HangingOf(MergeInto(db, source, target)), source, target)
  {
    FoldLosesNothing(db, source, target);
  }

  lemma FoldLosesNothing(db: Db, source: AccountId, target: AccountId)
    requires source != target && RowsOk(HangingOf(db))
    ensures LosesNothing(HangingOf(db), HangingOf(FoldTopics(db, target, TopicsOf(db, source))), source, target)
  {
    FoldKeepsTokens(db, source, target);
    FoldKeepsMessages(db, source, target);
    FoldKeepsIncidents(db, source, target);
  }

  lemma FoldKeepsTokens(db: Db, source: AccountId, target: AccountId)
    requires source != target && RowsOk(HangingOf(db))
    ensures TokensKept(HangingOf(db), HangingOf(FoldTopics(db, target, TopicsOf(db, source))), source, target)
  {
    forall h | h in db.tokens
      ensures StandsIn(db.topics, FoldTopics(db, target, TopicsOf(db, source)).topics, source, target,
                       db.tokens[h], Heir(db.topics, target, TopicsOf(db, source), db.tokens[h])) {
      HeirStandsIn(db, source, target, db.tokens[h]);
    }
  }

  lemma FoldKeepsMessages(db: Db, source: AccountId, target: AccountId)
    requires source != target && RowsOk(HangingOf(db))
    ensures MessagesKept(HangingOf(db), HangingOf(FoldTopics(db, target, TopicsOf(db, source))), source, target)
  {
    forall m | m in db.messages
      ensures StandsIn(db.topics, FoldTopics(db, target, TopicsOf(db, source)).topics, source, target,
                       db.messages[m], Heir(db.topics, target, TopicsOf(db, source), db.messages[m])) {
      HeirStandsIn(db, source, target, db.messages[m]);
    }
  }

  lemma FoldKeepsIncidents(db: Db, source: AccountId, target: AccountId)
    requires source != target && RowsOk(HangingOf(db))
    ensures IncidentsKept(HangingOf(db), HangingOf(FoldTopics(db, target, TopicsOf(db, source))), source, target)
  {
    forall i | i in db.incidents
      ensures StandsIn(db.topics, FoldTopics(db, target, TopicsOf(db, source)).topics, source, target,
                       db.incidents[i].topic, Heir(db.topics, target, TopicsOf(db, source), db.incidents[i].topic)) {
      HeirStandsIn(db, source, target, db.incidents[i].topic);
    }
  }

  lemma HeirStandsIn(db: Db, source: AccountId, target: AccountId, t: TopicId)
    requires source != target && TopicsOk(db.topics) && t in db.topics
    ensures var done := TopicsOf(db, source);
            StandsIn(db.topics, FoldTopics(db, target, done).topics, source, target, t,
                     Heir(db.topics, target, done, t))
  {
    HeirKeepsName(db.topics, source, target, TopicsOf(db, source), t);
  }

  // ---------------------------------------------------------------- one active incident per topic

  ghost predicate OneActive(db: Db) {
    forall i, j ::
      i in db.incidents && j in db.incidents && i != j && db.incidents[i].active && db.incidents[j].active ==>
        db.incidents[i].topic != db.incidents[j].topic
  }

  ghost predicate NoneActive(db: Db, account: AccountId) {
    forall i :: i in db.incidents && db.incidents[i].active && db.incidents[i].topic in db.topics ==>
                  db.topics[db.incidents[i].topic].account != account
  }

  /** With nothing ringing or waiting on either side, folding two topics never gives one topic two active incidents. */
  lemma MergeKeepsOneActive(db: Db, source: AccountId, target: AccountId)
    requires source in db.accounts && target in db.accounts && source != target
    requires RowsOk(HangingOf(db)) && OneActive(db) && NoneActive(db, source) && NoneActive(db, target)
    ensures OneActive(MergeInto(db, source, target))
  {
    var done := TopicsOf(db, source);
    forall i | i in db.incidents && db.incidents[i].active
      ensures Heir(db.topics, target, done, db.incidents[i].topic) == db.incidents[i].topic {
      assert db.incidents[i].topic !in done;
    }
  }

  /** The check before a merge is at least what that needs. */
  lemma RefusalCoversBoth(db: Db, source: AccountId, target: AccountId)
    requires !exists i :: ActiveOn(db, i, FamilyOf(db, source) + FamilyOf(db, target))
    ensures NoneActive(db, source) && NoneActive(db, target)
  {
    forall i | i in db.incidents && db.incidents[i].active && db.incidents[i].topic in db.topics
      ensures db.topics[db.incidents[i].topic].account != source && db.topics[db.incidents[i].topic].account != target {
      assert !ActiveOn(db, i, FamilyOf(db, source) + FamilyOf(db, target));
    }
  }

  // ---------------------------------------------------------------- subscriptions

  ghost predicate Covered(db: Db, account: AccountId) {
    forall d, t :: d in db.devices && db.devices[d] == account && t in db.topics && db.topics[t].account == account ==>
                     (d, db.topics[t].hash) in db.subs
  }

  /** If every device of the target rang for every topic of the target, every device of both rings for all of them. */
  lemma MergeCovers(db: Db, source: AccountId, target: AccountId)
    requires source in db.accounts && target in db.accounts && source != target
    requires Covered(db, target)
    ensures Covered(MergeInto(db, source, target), target)
  {
  }
}
