/**
 The data migration `alembic/versions/0016_fix_saved_chat_isolation.py`: what it promises.

 Every user gets one private "saved" conversation holding exactly the saved messages they sent.
 */
module SavedChats {
  import opened Wrappers

  type UserId = int
  type ConvId = int
  type MessageId = int

  const SAVED := "saved"
  const TITLE := "Избранное"
  const OWNER := "owner"

  datatype Conversation = Conversation(kind: string, title: Option<string>, owner: UserId)
  datatype Member = Member(role: string, pinned: bool, muted: bool, lastRead: Option<MessageId>)
  datatype Message = Message(conversation: ConvId, sender: UserId, replyTo: Option<MessageId>, content: string)

  type Conversations = map<ConvId, Conversation>
  type Members = map<(ConvId, UserId), Member>
  type Messages = map<MessageId, Message>
  type Canonical = map<UserId, ConvId>

  datatype Db = Db(conversations: Conversations, members: Members, messages: Messages)

  /** Foreign keys. */
  ghost predicate WellFormed(db: Db) {
    && (forall m :: m in db.messages ==> db.messages[m].conversation in db.conversations)
    && (forall c, u :: (c, u) in db.members ==> c in db.conversations)
  }

  predicate IsSaved(convs: Conversations, c: ConvId) {
    c in convs && convs[c].kind == SAVED
  }

  predicate IsSavedMessage(db: Db, m: MessageId) {
    m in db.messages && IsSaved(db.conversations, db.messages[m].conversation)
  }

  predicate Owns(convs: Conversations, user: UserId, c: ConvId) {
    IsSaved(convs, c) && convs[c].owner == user
  }

  ghost predicate HasSaved(convs: Conversations, user: UserId) {
    exists c :: Owns(convs, user, c)
  }

  /** Users with a saved conversation or a saved message. */
  ghost predicate IsOwner(db: Db, user: UserId) {
    HasSaved(db.conversations, user) || exists m :: IsSavedMessage(db, m) && db.messages[m].sender == user
  }

  /** One conversation per owner: their oldest saved one, or a new one. */
  ghost predicate CanonicalFor(db: Db, can: Canonical) {
    && (forall user :: user in can <==> IsOwner(db, user))
    && (forall user :: user in can && HasSaved(db.conversations, user) ==> Oldest(db.conversations, user, can[user]))
    && (forall user :: user in can && !HasSaved(db.conversations, user) ==> can[user] !in db.conversations)
    && Injective(can)
  }

  ghost predicate Oldest(convs: Conversations, user: UserId, c: ConvId) {
    Owns(convs, user, c) && forall d :: Owns(convs, user, d) ==> c <= d
  }

  ghost predicate Injective(can: Canonical) {
    forall u, v :: u in can && v in can && u != v ==> can[u] != can[v]
  }

  predicate IsCanonical(can: Canonical, c: ConvId) {
    exists user :: user in can && can[user] == c
  }

  // The result, table by table.

  /** A reply survives when its target is a saved message of the same sender. */
  function KeptReply(db: Db, m: MessageId): Option<MessageId>
    requires m in db.messages
  {
    var target := db.messages[m].replyTo;
    if target.Some? && IsSavedMessage(db, target.value) && db.messages[target.value].sender == db.messages[m].sender
    then target else None
  }

  ghost predicate MessagesMigrated(db: Db, can: Canonical, messages: Messages) {
    && messages.Keys == db.messages.Keys
    && forall m | m in db.messages ::
         if IsSavedMessage(db, m) then
           && db.messages[m].sender in can
           && messages[m] == db.messages[m].(conversation := can[db.messages[m].sender], replyTo := KeptReply(db, m))
         else messages[m] == db.messages[m]
  }

  ghost predicate ConversationsMigrated(db: Db, can: Canonical, convs: Conversations) {
    && (forall c :: c in convs <==> (c in db.conversations && !IsSaved(db.conversations, c)) || IsCanonical(can, c))
    && (forall c :: c in db.conversations && !IsSaved(db.conversations, c) ==> convs[c] == db.conversations[c])
    && (forall user :: user in can ==> convs[can[user]] == Conversation(SAVED, Some(TITLE), user))
  }

  ghost predicate Flagged(db: Db, user: UserId, flag: Member -> bool) {
    exists c :: Owns(db.conversations, user, c) && (c, user) in db.members && flag(db.members[(c, user)])
  }

  function PinnedFlag(m: Member): bool { m.pinned }
  function MutedFlag(m: Member): bool { m.muted }

  ghost predicate MembersMigrated(db: Db, can: Canonical, members: Members) {
    && (forall c, user :: (c, user) in members <==>
          ((c, user) in db.members && !IsSaved(db.conversations, c)) || (user in can && can[user] == c))
    && (forall c, user :: (c, user) in db.members && !IsSaved(db.conversations, c) ==>
          (c, user) in members && members[(c, user)] == db.members[(c, user)])
    && (forall user :: user in can ==>
          && (can[user], user) in members
          && members[(can[user], user)] ==
               Member(OWNER, Flagged(db, user, PinnedFlag), Flagged(db, user, MutedFlag), None))
  }

  ghost predicate Migrated(db: Db, can: Canonical, db': Db) {
    && ConversationsMigrated(db, can, db'.conversations)
    && MessagesMigrated(db, can, db'.messages)
    && MembersMigrated(db, can, db'.members)
  }

  // What that means.

  /** No saved message is lost, and each ends in a saved conversation created by its sender. */
  lemma SavedMessagesAreIsolated(db: Db, can: Canonical, db': Db, m: MessageId)
    requires Migrated(db, can, db') && IsSavedMessage(db, m)
    ensures m in db'.messages && db'.messages[m].sender == db.messages[m].sender
    ensures db'.messages[m].content == db.messages[m].content
    ensures Owns(db'.conversations, db.messages[m].sender, db'.messages[m].conversation)
    ensures db'.conversations[db'.messages[m].conversation] ==
            Conversation("saved", Some("Избранное"), db.messages[m].sender)
  {
    assert IsCanonical(can, can[db.messages[m].sender]);
  }

  /** Everybody who should have a saved conversation has exactly one: the oldest they had, if any. */
  lemma OneSavedConversation(db: Db, can: Canonical, db': Db, user: UserId)
    requires CanonicalFor(db, can) && Migrated(db, can, db')
    ensures (exists c :: Owns(db'.conversations, user, c)) <==>
            (exists c :: Owns(db.conversations, user, c)) ||
            exists m :: IsSavedMessage(db, m) && db.messages[m].sender == user
    ensures forall c :: Owns(db'.conversations, user, c) ==> user in can && c == can[user]
    ensures forall c :: Owns(db'.conversations, user, c) ==>
              db'.conversations[c] == Conversation("saved", Some("Избранное"), user)
    ensures forall c, d :: Owns(db'.conversations, user, c) && Owns(db.conversations, user, d) ==>
              Owns(db.conversations, user, c) && c <= d
  {
    if IsOwner(db, user) {
      assert IsCanonical(can, can[user]);
      assert Owns(db'.conversations, user, can[user]);
    }
    forall c | Owns(db'.conversations, user, c) ensures user in can && c == can[user] {
      assert IsCanonical(can, c);
    }
  }

  /** The unique index the migration creates on (created_by_id) WHERE type = 'saved' fits. */
  lemma SavedOwnersAreUnique(db: Db, can: Canonical, db': Db)
    requires CanonicalFor(db, can) && Migrated(db, can, db')
    ensures forall c, d :: IsSaved(db'.conversations, c) && IsSaved(db'.conversations, d) && c != d ==>
              db'.conversations[c].owner != db'.conversations[d].owner
  {
    forall c, d | IsSaved(db'.conversations, c) && IsSaved(db'.conversations, d) && c != d
      ensures db'.conversations[c].owner != db'.conversations[d].owner
    {
      OneSavedConversation(db, can, db', db'.conversations[c].owner);
      OneSavedConversation(db, can, db', db'.conversations[d].owner);
    }
  }

  lemma CanonicalIsSavedOrNew(db: Db, can: Canonical, user: UserId)
    requires CanonicalFor(db, can) && user in can
    ensures can[user] in db.conversations ==> Owns(db.conversations, user, can[user])
  {
    if HasSaved(db.conversations, user) { assert Oldest(db.conversations, user, can[user]); }
  }

  /** Nothing outside saved conversations changes. */
  lemma OthersUntouched(db: Db, can: Canonical, db': Db)
    requires CanonicalFor(db, can) && Migrated(db, can, db') && WellFormed(db)
    ensures forall c :: c in db.conversations && !IsSaved(db.conversations, c) ==>
              c in db'.conversations && db'.conversations[c] == db.conversations[c]
    ensures forall m :: m in db.messages && !IsSavedMessage(db, m) ==>
              m in db'.messages && db'.messages[m] == db.messages[m]
    ensures forall c, u :: c in db.conversations && !IsSaved(db.conversations, c) ==>
              ((c, u) in db'.members <==> (c, u) in db.members)
  {
    forall u | u in can ensures can[u] in db.conversations ==> IsSaved(db.conversations, can[u]) {
      CanonicalIsSavedOrNew(db, can, u);
    }
  }

  /** A saved message keeps its reply link exactly when the target was saved by the same sender. */
  lemma RepliesStayPrivate(db: Db, can: Canonical, db': Db, m: MessageId, t: MessageId)
    requires Migrated(db, can, db') && IsSavedMessage(db, m) && db.messages[m].replyTo == Some(t)
    ensures db'.messages[m].replyTo == Some(t) <==>
            IsSavedMessage(db, t) && db.messages[t].sender == db.messages[m].sender
    ensures db'.messages[m].replyTo == Some(t) ==>
              t in db'.messages && db'.messages[t].conversation == db'.messages[m].conversation
    ensures db'.messages[m].replyTo == Some(t) || db'.messages[m].replyTo == None
  {
  }

  /** The two flags are the columns of those names. */
  lemma FlagColumns(db: Db, user: UserId)
    ensures Flagged(db, user, PinnedFlag) <==>
            exists d :: Owns(db.conversations, user, d) && (d, user) in db.members && db.members[(d, user)].pinned
    ensures Flagged(db, user, MutedFlag) <==>
            exists d :: Owns(db.conversations, user, d) && (d, user) in db.members && db.members[(d, user)].muted
  {
  }

  /** A saved conversation has its owner as its only member, flagged as any of the owner's old memberships was. */
  lemma OwnerIsOnlyMember(db: Db, can: Canonical, db': Db, c: ConvId)
    requires WellFormed(db) && CanonicalFor(db, can) && Migrated(db, can, db') && IsSaved(db'.conversations, c)
    ensures var owner := db'.conversations[c].owner;
            && (forall u :: (c, u) in db'.members <==> u == owner)
            && db'.members[(c, owner)].role == "owner" && db'.members[(c, owner)].lastRead == None
            && (db'.members[(c, owner)].pinned <==>
                  exists d ::
                    Owns(db.conversations, owner, d) && (d, owner) in db.members && db.members[(d, owner)].pinned)
            && (db'.members[(c, owner)].muted <==>
                  exists d ::
                    Owns(db.conversations, owner, d) && (d, owner) in db.members && db.members[(d, owner)].muted)
  {
    FlagColumns(db, db'.conversations[c].owner);
    assert IsCanonical(can, c);
    var user :| user in can && can[user] == c;
    CanonicalIsSavedOrNew(db, can, user);
  }

  /** Foreign keys survive, the cascading delete included. */
  lemma StaysWellFormed(db: Db, can: Canonical, db': Db)
    requires WellFormed(db) && CanonicalFor(db, can) && Migrated(db, can, db')
    ensures WellFormed(db')
  {
    forall m | m in db'.messages ensures db'.messages[m].conversation in db'.conversations {
      if IsSavedMessage(db, m) { SavedMessagesAreIsolated(db, can, db', m); }
    }
    forall c, u | (c, u) in db'.members ensures c in db'.conversations {
      if u in can && can[u] == c { assert IsCanonical(can, c); }
    }
  }

  // Running it twice.

  lemma SecondCanonical(db: Db, can: Canonical, db': Db, can': Canonical)
    requires WellFormed(db) && CanonicalFor(db, can) && Migrated(db, can, db') && CanonicalFor(db', can')
    ensures can' == can
  {
    forall user ensures IsOwner(db', user) <==> IsOwner(db, user) {
      OneSavedConversation(db, can, db', user);
      forall m | IsSavedMessage(db', m) && db'.messages[m].sender == user ensures IsOwner(db, user) {
        SavedStaysSaved(db, can, db', m);
        assert IsSavedMessage(db, m) && db.messages[m].sender == user;
      }
    }
    assert forall user :: user in can' <==> user in can;
    forall user | user in can ensures can'[user] == can[user] {
      assert IsOwner(db, user);
      OneSavedConversation(db, can, db', user);
      assert Oldest(db'.conversations, user, can'[user]);
    }
  }

  /** The saved messages are the same ones before and after. */
  lemma SavedStaysSaved(db: Db, can: Canonical, db': Db, m: MessageId)
    requires WellFormed(db) && CanonicalFor(db, can) && Migrated(db, can, db')
    ensures IsSavedMessage(db', m) <==> IsSavedMessage(db, m)
  {
    if IsSavedMessage(db, m) {
      SavedMessagesAreIsolated(db, can, db', m);
    } else if m in db.messages {
      OthersUntouched(db, can, db');
    }
  }

  /** A second run changes no conversation, no membership and no message. */
  lemma SecondRunChangesNothing(db: Db, can: Canonical, db': Db, can': Canonical, db'': Db)
    requires WellFormed(db) && CanonicalFor(db, can) && Migrated(db, can, db')
    requires CanonicalFor(db', can') && Migrated(db', can', db'')
    ensures db'' == db'
  {
    SecondCanonical(db, can, db', can');
    SameConversations(db, can, db', db'');
    SameMessages(db, can, db', db'');
    SameMembers(db, can, db', db'');
  }

  lemma SameConversations(db: Db, can: Canonical, db': Db, db'': Db)
    requires CanonicalFor(db', can) && ConversationsMigrated(db, can, db'.conversations)
    requires ConversationsMigrated(db', can, db''.conversations)
    ensures db''.conversations == db'.conversations
  {
    forall c | IsCanonical(can, c)
      ensures c in db'.conversations && c in db''.conversations && db''.conversations[c] == db'.conversations[c]
    {
      var user :| user in can && can[user] == c;
    }
    forall c | c in db'.conversations && !IsCanonical(can, c) ensures !IsSaved(db'.conversations, c) {}
    forall c ensures c in db''.conversations <==> c in db'.conversations {}
    forall c | c in db'.conversations ensures db''.conversations[c] == db'.conversations[c] {
      if !IsCanonical(can, c) { assert !IsSaved(db'.conversations, c); }
    }
  }

  lemma SameMessages(db: Db, can: Canonical, db': Db, db'': Db)
    requires WellFormed(db) && CanonicalFor(db, can) && Migrated(db, can, db') &&
             MessagesMigrated(db', can, db''.messages)
    ensures db''.messages == db'.messages
  {
    forall m | m in db'.messages ensures db''.messages[m] == db'.messages[m] {
      SavedStaysSaved(db, can, db', m);
      if IsSavedMessage(db, m) && db'.messages[m].replyTo.Some? {
        SavedStaysSaved(db, can, db', db'.messages[m].replyTo.value);
      }
    }
  }

  lemma SameMembers(db: Db, can: Canonical, db': Db, db'': Db)
    requires WellFormed(db) && CanonicalFor(db, can) && Migrated(db, can, db')
    requires CanonicalFor(db', can) && MembersMigrated(db', can, db''.members)
    ensures db''.members == db'.members
  {
    forall k: (ConvId, UserId) ensures k in db''.members <==> k in db'.members {
      var (c, user) := k;
      MemberCases(db, can, db', c, user);
    }
    forall k: (ConvId, UserId) | k in db'.members ensures db''.members[k] == db'.members[k] {
      var (c, user) := k;
      MemberCases(db, can, db', c, user);
      if user in can && can[user] == c { SameFlags(db, can, db', user); }
    }
  }

  lemma MemberCases(db: Db, can: Canonical, db': Db, c: ConvId, user: UserId)
    requires WellFormed(db) && CanonicalFor(db, can) && Migrated(db, can, db')
    ensures (c, user) in db'.members && IsSaved(db'.conversations, c) ==> user in can && can[user] == c
    ensures user in can && can[user] == c ==> (c, user) in db'.members
  {
    if IsSaved(db'.conversations, c) {
      assert IsCanonical(can, c);
      OwnerIsOnlyMember(db, can, db', c);
    }
  }

  lemma SameFlags(db: Db, can: Canonical, db': Db, user: UserId)
    requires WellFormed(db) && CanonicalFor(db, can) && Migrated(db, can, db') && user in can
    ensures Flagged(db', user, PinnedFlag) == Flagged(db, user, PinnedFlag)
    ensures Flagged(db', user, MutedFlag) == Flagged(db, user, MutedFlag)
  {
    assert IsCanonical(can, can[user]);
    assert Owns(db'.conversations, user, can[user]);
    OneSavedConversation(db, can, db', user);
    OwnerIsOnlyMember(db, can, db', can[user]);
  }
}
