/**
 The passes of `upgrade` in `alembic/versions/0016_fix_saved_chat_isolation.py`, in order, each
 rewriting the tables in place, and the proof that together they do the migration.
 */
module SavedChatsUpgrade {
  import opened Wrappers
  import opened Rows
  import opened SavedChats

  function SavedIds(convs: Conversations): set<ConvId> {
    set c | c in convs && convs[c].kind == SAVED
  }

  function SavedMessageIds(db: Db): set<MessageId> {
    set m | m in db.messages && IsSaved(db.conversations, db.messages[m].conversation)
  }

  /** ORDER BY created_by_id, id. */
  ghost predicate ByOwnerThenId(convs: Conversations, rows: seq<ConvId>) {
    && (forall i :: 0 <= i < |rows| ==> rows[i] in convs)
    && forall i, j :: 0 <= i < j < |rows| ==>
         convs[rows[i]].owner < convs[rows[j]].owner ||
         (convs[rows[i]].owner == convs[rows[j]].owner && rows[i] < rows[j])
  }

  /** What creating the missing conversations did. */
  ghost predicate Created(convs0: Conversations, can0: Canonical, convs: Conversations, can: Canonical,
                          next0: ConvId, next: ConvId) {
    && next0 <= next
    && (forall c :: c in convs0 ==> c in convs && convs[c] == convs0[c])
    && (forall c :: c in convs && c !in convs0 ==> next0 <= c < next && IsCanonical(can, c))
    && (forall u :: u in can0 ==> u in can && can[u] == can0[u])
    && (forall u :: u in can && u !in can0 ==>
          next0 <= can[u] < next && can[u] in convs && convs[can[u]] == Conversation(SAVED, Some(TITLE), u))
    && (forall u, v :: u in can && u !in can0 && v in can && v !in can0 && u != v ==> can[u] != can[v])
  }

  ghost predicate Retitled(convs: Conversations, can: Canonical, convs': Conversations) {
    && (forall c :: c in convs' <==> c in convs)
    && (forall c :: c in convs && !IsCanonical(can, c) ==> convs'[c] == convs[c])
    && (forall user :: user in can && can[user] in convs ==>
          convs'[can[user]] == Conversation(SAVED, Some(TITLE), user))
  }

  ghost predicate Moved(messages: Messages, rows: set<MessageId>, can: Canonical, messages': Messages) {
    && messages'.Keys == messages.Keys
    && forall m | m in messages ::
         if m in rows then
           && messages[m].sender in can
           && messages'[m] == messages[m].(conversation := can[messages[m].sender])
         else messages'[m] == messages[m]
  }

  function Located(convs: Conversations, messages: Messages): map<MessageId, ConvId> {
    map m | m in messages && IsSaved(convs, messages[m].conversation) :: messages[m].conversation
  }

  /** A located message keeps its reply when the target is located in the same conversation. */
  predicate ReplyStays(places: map<MessageId, ConvId>, msg: Message) {
    msg.replyTo.Some? && msg.replyTo.value in places && places[msg.replyTo.value] == msg.conversation
  }

  ghost predicate Repaired(places: map<MessageId, ConvId>, messages: Messages, messages': Messages,
                           rows: set<MessageId>) {
    && messages'.Keys == messages.Keys
    && forall m | m in messages ::
         messages'[m] ==
           if m in rows && !ReplyStays(places, messages[m]) then messages[m].(replyTo := None) else messages[m]
  }

  /** The owners in `users` have been inserted as members, and nothing else has changed. */
  ghost predicate OwnersAdded(kept: Members, can: Canonical, users: seq<UserId>,
                              pinned: map<UserId, bool>, muted: map<UserId, bool>, members: Members) {
    && (forall c, user :: (c, user) in members <==>
        (c, user) in kept || (user in users && user in can && can[user] == c))
    && (forall c, user :: (c, user) in kept && !(user in users && user in can && can[user] == c) ==>
          members[(c, user)] == kept[(c, user)])
    && (forall user :: user in users && user in can ==>
          && (can[user], user) in members
          && members[(can[user], user)] ==
               Member(OWNER, user in pinned && pinned[user], user in muted && muted[user], None))
  }

  predicate Deleted(convs: Conversations, convs': Conversations, c: ConvId) {
    c in convs && c !in convs'
  }

  /** Saved conversations have their owners as members, as flagged, and no one else. */
  ghost predicate Rebuilt(convs: Conversations, before: Members, can: Canonical,
                          pinned: map<UserId, bool>, muted: map<UserId, bool>, members: Members) {
    && (forall c, user :: (c, user) in members <==>
          ((c, user) in before && !IsSaved(convs, c)) || (user in can && can[user] == c))
    && (forall c, user :: (c, user) in before && !IsSaved(convs, c) && !(user in can && can[user] == c) ==>
          members[(c, user)] == before[(c, user)])
    && (forall user :: user in can ==>
          && (can[user], user) in members
          && members[(can[user], user)] ==
               Member(OWNER, user in pinned && pinned[user], user in muted && muted[user], None))
  }

  /** Exactly the saved conversations that are not canonical went, and what hung on them with them. */
  ghost predicate LeftoversDeleted(db: Db, can: Canonical, db': Db) {
    && (forall c :: c in db'.conversations <==>
        c in db.conversations && (!IsSaved(db.conversations, c) || IsCanonical(can, c)))
    && (forall c :: c in db'.conversations ==> db'.conversations[c] == db.conversations[c])
    && (forall k :: k in db'.members <==> k in db.members && !Deleted(db.conversations, db'.conversations, k.0))
    && (forall k :: k in db'.members ==> db'.members[k] == db.members[k])
    && (forall m :: m in db'.messages <==>
          m in db.messages && !Deleted(db.conversations, db'.conversations, db.messages[m].conversation))
    && (forall m :: m in db'.messages ==> db'.messages[m] == db.messages[m])
  }

  // From the passes to the migration.

  lemma CreatedIsCanonical(db: Db, can0: Canonical, convs: Conversations, can: Canonical, next0: ConvId, next: ConvId)
    requires WellFormed(db) && forall c :: c in db.conversations ==> c < next0
    requires forall u :: u in can0 <==> HasSaved(db.conversations, u)
    requires forall u :: u in can0 ==> Oldest(db.conversations, u, can0[u])
    requires Created(db.conversations, can0, convs, can, next0, next)
    requires forall u :: u in can <==> IsOwner(db, u)
    ensures CanonicalFor(db, can)
    ensures forall u :: u in can ==> can[u] in convs
  {
    forall u | u in can && u in can0 ensures Oldest(db.conversations, u, can[u]) {
      assert Oldest(db.conversations, u, can0[u]);
    }
  }

  lemma SavedAfterRetitle(db: Db, can: Canonical, convs: Conversations, convs': Conversations, can0: Canonical,
                          next0: ConvId, next: ConvId, c: ConvId)
    requires CanonicalFor(db, can) && Created(db.conversations, can0, convs, can, next0, next)
    requires Retitled(convs, can, convs') && forall u :: u in can ==> can[u] in convs
    ensures IsSaved(convs', c) <==> IsSaved(db.conversations, c) || IsCanonical(can, c)
    ensures IsCanonical(can, c) && c in db.conversations ==> IsSaved(db.conversations, c)
  {
    if IsCanonical(can, c) {
      var u :| u in can && can[u] == c;
      CanonicalIsSavedOrNew(db, can, u);
    }
  }

  /** The second message pass looks at exactly the messages the first one moved. */
  lemma RepairedIsMigrated(db: Db, can: Canonical, convs: Conversations, moved: Messages, repaired: Messages)
    requires WellFormed(db) && CanonicalFor(db, can)
    requires SavedAre(db, can, convs)
    requires Moved(db.messages, SavedMessageIds(db), can, moved)
    requires Repaired(Located(convs, moved), moved, repaired, Located(convs, moved).Keys)
    ensures MessagesMigrated(db, can, repaired)
  {
    var places := Located(convs, moved);
    forall m | m in db.messages
      ensures m in places <==> IsSavedMessage(db, m)
      ensures IsSavedMessage(db, m) ==> places[m] == can[db.messages[m].sender]
    {
      if IsSavedMessage(db, m) { assert IsCanonical(can, can[db.messages[m].sender]); }
    }
    forall m | IsSavedMessage(db, m)
      ensures repaired[m] == db.messages[m].(conversation := can[db.messages[m].sender], replyTo := KeptReply(db, m))
    {
      var reply := db.messages[m].replyTo;
      if reply.Some? && IsSavedMessage(db, reply.value) {
        assert places[reply.value] == places[m] <==> db.messages[reply.value].sender == db.messages[m].sender;
      }
    }
  }

  lemma RetitledSaved(db: Db, can: Canonical, convs: Conversations, convs': Conversations, can0: Canonical,
                      next0: ConvId, next: ConvId)
    requires CanonicalFor(db, can) && Created(db.conversations, can0, convs, can, next0, next)
    requires Retitled(convs, can, convs') && forall u :: u in can ==> can[u] in convs
    ensures SavedAre(db, can, convs')
    ensures RetitledFrom(db, can, convs')
  {
    forall c
      ensures IsSaved(convs', c) <==> IsSaved(db.conversations, c) || IsCanonical(can, c)
      ensures IsCanonical(can, c) && c in db.conversations ==> IsSaved(db.conversations, c)
    {
      SavedAfterRetitle(db, can, convs, convs', can0, next0, next, c);
    }
  }

  /** Saved now: saved before, or canonical; and only saved conversations became canonical. */
  ghost predicate SavedAre(db: Db, can: Canonical, convs: Conversations) {
    && (forall c :: IsSaved(convs, c) <==> IsSaved(db.conversations, c) || IsCanonical(can, c))
    && (forall c :: IsCanonical(can, c) && c in db.conversations ==> IsSaved(db.conversations, c))
  }

  ghost predicate RetitledFrom(db: Db, can: Canonical, convs: Conversations) {
    && (forall c :: c in convs <==> c in db.conversations || IsCanonical(can, c))
    && (forall c :: c in db.conversations && !IsCanonical(can, c) ==> convs[c] == db.conversations[c])
    && (forall user :: user in can ==> can[user] in convs && convs[can[user]] == Conversation(SAVED, Some(TITLE), user))
  }

  /** The last pass deletes conversations that hold nothing any more. */
  lemma DeleteFinishes(db: Db, can: Canonical, before: Db, after: Db)
    requires WellFormed(db)
    requires SavedAre(db, can, before.conversations) && RetitledFrom(db, can, before.conversations)
    requires MessagesMigrated(db, can, before.messages) && LeftoversDeleted(before, can, after)
    ensures ConversationsMigrated(db, can, after.conversations) && MessagesMigrated(db, can, after.messages)
  {
    forall user | user in can ensures after.conversations[can[user]] == Conversation(SAVED, Some(TITLE), user) {
      assert IsCanonical(can, can[user]);
    }
    forall m | m in before.messages ensures m in after.messages {
      if IsSavedMessage(db, m) {
        assert IsCanonical(can, can[db.messages[m].sender]);
      } else {
        assert !IsSaved(before.conversations, db.messages[m].conversation);
      }
    }
    assert forall m :: m in after.messages <==> m in before.messages;
    SameKeys(before.messages, after.messages);
  }

  lemma MembersFinish(db: Db, can: Canonical, pinned: map<UserId, bool>, muted: map<UserId, bool>, before: Db,
                      after: Db)
    requires WellFormed(db) && SavedAre(db, can, before.conversations)
    requires Rebuilt(before.conversations, db.members, can, pinned, muted, before.members)
    requires LeftoversDeleted(before, can, after)
    requires forall user :: (user in pinned && pinned[user]) <==> Flagged(db, user, PinnedFlag)
    requires forall user :: (user in muted && muted[user]) <==> Flagged(db, user, MutedFlag)
    ensures MembersMigrated(db, can, after.members)
  {
    forall user | user in can ensures IsCanonical(can, can[user]) && (can[user], user) in after.members {
      assert IsCanonical(can, can[user]);
    }
    forall c, user | (c, user) in db.members && !IsSaved(db.conversations, c)
      ensures !IsCanonical(can, c) && (c, user) in after.members
    {
      assert c in db.conversations;
    }
    forall c, user ensures (c, user) in after.members <==>
          ((c, user) in db.members && !IsSaved(db.conversations, c)) || (user in can && can[user] == c)
    {
      if (c, user) in after.members && !(user in can && can[user] == c) {
        assert (c, user) in db.members;
      }
    }
  }

  lemma SameKeys<K(!new), V>(q: map<K, V>, r: map<K, V>)
    requires forall k :: k in q <==> k in r
    ensures q.Keys == r.Keys
  {
  }

  ghost predicate FlagIn(convs: Conversations, members: Members, rows: seq<ConvId>, user: UserId,
                         flag: Member -> bool) {
    exists k :: 0 <= k < |rows| && Owns(convs, user, rows[k]) && (rows[k], user) in members &&
        flag(members[(rows[k], user)])
  }

  lemma FlagNext(convs: Conversations, members: Members, rows: seq<ConvId>, i: nat, flag: Member -> bool)
    requires i < |rows| && IsSaved(convs, rows[i]) && (rows[i], convs[rows[i]].owner) in members
    ensures forall user :: FlagIn(convs, members, rows[..i + 1], user, flag) <==>
              FlagIn(convs, members, rows[..i], user, flag) ||
              (user == convs[rows[i]].owner && flag(members[(rows[i], user)]))
  {
    var init, more := rows[..i], rows[..i + 1];
    forall user
      ensures FlagIn(convs, members, more, user, flag) <==>
              FlagIn(convs, members, init, user, flag) ||
              (user == convs[rows[i]].owner && flag(members[(rows[i], user)]))
    {
      if FlagIn(convs, members, more, user, flag) {
        var k :| 0 <= k < |more| && Owns(convs, user, more[k]) && (more[k], user) in members &&
            flag(members[(more[k], user)]);
        if k < i { assert Owns(convs, user, init[k]); }
      }
      if FlagIn(convs, members, init, user, flag) {
        var k :| 0 <= k < |init| && Owns(convs, user, init[k]) && (init[k], user) in members &&
            flag(members[(init[k], user)]);
        assert Owns(convs, user, more[k]);
      }
      assert user == convs[rows[i]].owner ==> Owns(convs, user, more[i]);
    }
  }

  lemma FlagAll(db: Db, rows: seq<ConvId>, flag: Member -> bool)
    requires Lists(rows, set c | c in SavedIds(db.conversations) && (c, db.conversations[c].owner) in db.members)
    ensures forall user :: FlagIn(db.conversations, db.members, rows[..|rows|], user, flag) <==> Flagged(db, user, flag)
  {
    assert rows[..|rows|] == rows;
    forall user | Flagged(db, user, flag) ensures FlagIn(db.conversations, db.members, rows, user, flag) {
      var c :| Owns(db.conversations, user, c) && (c, user) in db.members && flag(db.members[(c, user)]);
      assert c in SavedIds(db.conversations);
      assert c in rows;
      var k :| 0 <= k < |rows| && rows[k] == c;
      assert Owns(db.conversations, user, rows[k]);
    }
  }

  lemma FlagRows(convs: Conversations, members: Members, rows: seq<ConvId>)
    requires Lists(rows, set c | c in SavedIds(convs) && (c, convs[c].owner) in members)
    ensures forall k :: 0 <= k < |rows| ==> IsSaved(convs, rows[k]) && (rows[k], convs[rows[k]].owner) in members
  {
    forall k | 0 <= k < |rows| ensures IsSaved(convs, rows[k]) && (rows[k], convs[rows[k]].owner) in members {
      var c := rows[k];
      assert c in rows;
    }
  }

  class ChatDb {
    var conversations: Conversations
    var members: Members
    var messages: Messages
    var nextConversation: ConvId  // the serial behind conversations.id

    ghost function View(): Db
      reads this
    {
      Db(conversations, members, messages)
    }

    ghost predicate Valid()
      reads this
    {
      WellFormed(View()) && forall c :: c in conversations ==> c < nextConversation
    }

    constructor (conversations: Conversations, members: Members, messages: Messages, nextConversation: ConvId)
      ensures View() == Db(conversations, members, messages) && this.nextConversation == nextConversation
    {
      this.conversations, this.members, this.messages := conversations, members, messages;
      this.nextConversation := nextConversation;
    }

    /** The first query: saved conversations by owner and id. */
    method SelectSavedConversations() returns (rows: seq<ConvId>)
      ensures forall c :: c in rows <==> IsSaved(conversations, c)
      ensures ByOwnerThenId(conversations, rows)
    {
      var saved := SavedIds(conversations);
      var owners := Sort(set c | c in saved :: conversations[c].owner);
      rows := [];
      for i := 0 to |owners|
        invariant forall c :: c in rows <==> IsSaved(conversations, c) && conversations[c].owner in owners[..i]
        invariant ByOwnerThenId(conversations, rows)
      {
        var ids := Sort(set c | c in saved && conversations[c].owner == owners[i]);
        AppendGroup(conversations, rows, ids, owners, i);
        rows := rows + ids;
      }
      assert owners[..|owners|] == owners;
    }

    /** `setdefault` over the rows: the first row of each owner. */
    method OldestByOwner(rows: seq<ConvId>) returns (can: Canonical)
      requires forall c :: c in rows <==> IsSaved(conversations, c)
      requires ByOwnerThenId(conversations, rows)
      ensures forall user :: user in can <==> HasSaved(conversations, user)
      ensures forall user :: user in can ==> Oldest(conversations, user, can[user])
    {
      can := map[];
      for i := 0 to |rows|
        invariant forall k :: 0 <= k < i ==> conversations[rows[k]].owner in can
        invariant forall user :: user in can ==>
                    Owns(conversations, user, can[user]) &&
                    forall k :: 0 <= k < |rows| && conversations[rows[k]].owner == user ==> can[user] <= rows[k]
      {
        var owner := conversations[rows[i]].owner;
        assert rows[i] in rows;
        if owner !in can {
          can := can[owner := rows[i]];
        }
      }
      forall user | HasSaved(conversations, user) ensures user in can {
        var c :| Owns(conversations, user, c);
        assert c in rows;
      }
      forall user, d | user in can && Owns(conversations, user, d) ensures can[user] <= d {
        assert d in rows;
      }
    }

    /** A new conversation for each sender of a saved message who has none. */
    method CreateMissing(rows: seq<MessageId>, can0: Canonical) returns (can: Canonical)
      requires AllIn(rows, messages)
      requires forall c :: c in conversations ==> c < nextConversation
      modifies this`conversations, this`nextConversation
      ensures Created(old(conversations), can0, conversations, can, old(nextConversation), nextConversation)
      ensures forall c :: c in conversations ==> c < nextConversation
      ensures forall user :: user in can <==> user in can0 || SentOne(rows, messages, user)
    {
      can := can0;
      for i := 0 to |rows|
        invariant Created(old(conversations), can0, conversations, can, old(nextConversation), nextConversation)
        invariant forall c :: c in conversations ==> c < nextConversation
        invariant forall user :: user in can <==> user in can0 || SentOne(rows[..i], messages, user)
      {
        var sender := messages[rows[i]].sender;
        SentMore(rows, messages, i);
        if sender !in can {
          CreateOne(old(conversations), can0, conversations, can, old(nextConversation), nextConversation, sender);
          conversations := conversations[nextConversation := Conversation(SAVED, Some(TITLE), sender)];
          can := can[sender := nextConversation];
          nextConversation := nextConversation + 1;
        }
      }
      assert rows[..|rows|] == rows;
    }

    /** OR of a flag over the owner's memberships in their own saved conversations. */
    method CollectFlag(flag: Member -> bool) returns (flags: map<UserId, bool>)
      ensures forall user :: (user in flags && flags[user]) <==> Flagged(View(), user, flag)
    {
      flags := map[];
      var rows := Enumerate(set c | c in SavedIds(conversations) && (c, conversations[c].owner) in members);
      FlagRows(conversations, members, rows);
      for i := 0 to |rows|
        invariant forall user :: (user in flags && flags[user]) <==>
                  FlagIn(conversations, members, rows[..i], user, flag)
      {
        FlagNext(conversations, members, rows, i, flag);
        var owner := conversations[rows[i]].owner;
        flags := flags[owner := (owner in flags && flags[owner]) || flag(members[(rows[i], owner)])];
      }
      FlagAll(View(), rows, flag);
    }

    /** UPDATE each canonical conversation's type, title and owner. */
    method Retitle(can: Canonical)
      requires Injective(can) && forall user :: user in can ==> can[user] in conversations
      modifies this`conversations
      ensures Retitled(old(conversations), can, conversations)
    {
      var users := Enumerate(can.Keys);
      for i := 0 to |users|
        invariant forall c :: c in conversations <==> c in old(conversations)
        invariant forall c :: c in old(conversations) && !IsCanonical(can, c) ==>
                    conversations[c] == old(conversations)[c]
        invariant forall user :: user in users[..i] ==>
                    user in can && can[user] in conversations &&
                    conversations[can[user]] == Conversation(SAVED, Some(TITLE), user)
      {
        var user := users[i];
        assert user in users && users[..i + 1] == users[..i] + [user];
        assert IsCanonical(can, can[user]);
        conversations := conversations[can[user] := Conversation(SAVED, Some(TITLE), user)];
      }
      assert users[..|users|] == users;
    }

    /** Move each saved message to its sender's conversation, unless it is there already. */
    method MoveMessages(rows: seq<MessageId>, can: Canonical)
      requires Distinct(rows) && AllIn(rows, messages)
      requires forall i :: 0 <= i < |rows| ==> messages[rows[i]].sender in can
      modifies this`messages
      ensures Moved(old(messages), Elements(rows), can, messages)
    {
      for i := 0 to |rows|
        invariant Moved(old(messages), Elements(rows[..i]), can, messages)
      {
        var id := rows[i];
        assert id in old(messages) && id !in rows[..i];
        assert old(messages)[rows[i]].sender in can && messages[id] == old(messages)[id];
        var target := can[messages[id].sender];
        if messages[id].conversation != target {
          messages := messages[id := messages[id].(conversation := target)];
        }
        assert rows[..i + 1] == rows[..i] + [rows[i]];
      }
      assert rows[..|rows|] == rows;
    }

    /** Clear the replies of saved messages that point outside their conversation. */
    method RepairReplies()
      modifies this`messages
      ensures Repaired(Located(conversations, old(messages)), old(messages), messages,
                       Located(conversations, old(messages)).Keys)
    {
      var places := Located(conversations, messages);
      var rows := Enumerate(places.Keys);
      for i := 0 to |rows|
        invariant Repaired(places, old(messages), messages, Elements(rows[..i]))
      {
        var id := rows[i];
        assert id in places && id !in rows[..i];
        var row := messages[id];
        if row.replyTo.Some? && !(row.replyTo.value in places && places[row.replyTo.value] == row.conversation) {
          messages := messages[id := row.(replyTo := None)];
        }
        assert rows[..i + 1] == rows[..i] + [rows[i]];
      }
      assert rows[..|rows|] == rows;
      assert Elements(rows) == places.Keys;
    }

    /** Drop every membership of a saved conversation, then add the owners. */
    method RebuildMembers(can: Canonical, pinned: map<UserId, bool>, muted: map<UserId, bool>)
      requires forall user :: user in can ==> IsSaved(conversations, can[user])
      modifies this`members
      ensures Rebuilt(conversations, old(members), can, pinned, muted, members)
    {
      members := map k | k in members && !IsSaved(conversations, k.0) :: members[k];
      ghost var kept := members;
      var users := Enumerate(can.Keys);
      for i := 0 to |users|
        invariant OwnersAdded(kept, can, users[..i], pinned, muted, members)
      {
        var user := users[i];
        assert user in users && users[..i + 1] == users[..i] + [user];
        members := members[(can[user], user) :=
          Member(OWNER, user in pinned && pinned[user], user in muted && muted[user], None)];
      }
      assert users[..|users|] == users;
    }

    /** DELETE the saved conversations that are nobody's canonical one; memberships and messages cascade. */
    method DeleteLeftovers(can: Canonical)
      modifies this`conversations, this`members, this`messages
      ensures LeftoversDeleted(old(View()), can, View())
    {
      var leftovers := set c | c in SavedIds(conversations) && !IsCanonical(can, c);
      conversations := conversations - leftovers;
      members := map k | k in members && k.0 !in leftovers :: members[k];
      messages := map m | m in messages && messages[m].conversation !in leftovers :: messages[m];
    }

    /** The passes that settle who owns which saved conversation, up to the UPDATE of conversations. */
    method SettleConversations()
      returns (can: Canonical, savedMessages: seq<MessageId>, pinned: map<UserId, bool>, muted: map<UserId, bool>)
      requires Valid()
      modifies this`conversations, this`nextConversation
      ensures Lists(savedMessages, SavedMessageIds(old(View())))
      ensures CanonicalFor(old(View()), can)
      ensures SavedAre(old(View()), can, conversations) && RetitledFrom(old(View()), can, conversations)
      ensures forall user :: (user in pinned && pinned[user]) <==> Flagged(old(View()), user, PinnedFlag)
      ensures forall user :: (user in muted && muted[user]) <==> Flagged(old(View()), user, MutedFlag)
      ensures forall c :: c in conversations ==> c < nextConversation
    {
      ghost var db, next := View(), nextConversation;
      var saved := SelectSavedConversations();
      var oldest := OldestByOwner(saved);
      savedMessages := Sort(SavedMessageIds(Db(conversations, members, messages)));
      SavedRows(db, savedMessages);
      can := CreateMissing(savedMessages, oldest);
      ghost var created := conversations;
      CreatedIsCanonical(db, oldest, created, can, next, nextConversation);
      pinned := CollectFlag(PinnedFlag);
      muted := CollectFlag(MutedFlag);
      FlagsUnmoved(db, View(), oldest, can, next, nextConversation);
      Retitle(can);
      RetitledSaved(db, can, created, conversations, oldest, next, nextConversation);
    }

    /** The whole migration. */
    method Upgrade() returns (can: Canonical)
      requires Valid()
      modifies this
      ensures CanonicalFor(old(View()), can)
      ensures Migrated(old(View()), can, View())
      ensures Valid()
    {
      ghost var db := View();
      var savedMessages, pinned, muted;
      can, savedMessages, pinned, muted := SettleConversations();
      SavedRows(db, savedMessages);
      SendersHaveCanonical(db, can, savedMessages);
      MoveMessages(savedMessages, can);
      ghost var moved := messages;
      RepairReplies();
      RepairedIsMigrated(db, can, conversations, moved, messages);
      CanonicalAreSaved(can, conversations);
      RebuildMembers(can, pinned, muted);
      ghost var rebuilt := View();
      DeleteLeftovers(can);
      DeleteFinishes(db, can, rebuilt, View());
      MembersFinish(db, can, pinned, muted, rebuilt, View());
      StaysWellFormed(db, can, View());
    }
  }

  ghost predicate AllIn(rows: seq<MessageId>, messages: Messages) {
    forall i :: 0 <= i < |rows| ==> rows[i] in messages
  }

  ghost predicate SentOne(rows: seq<MessageId>, messages: Messages, user: UserId)
    requires AllIn(rows, messages)
  {
    exists i :: 0 <= i < |rows| && messages[rows[i]].sender == user
  }

  lemma SentMore(rows: seq<MessageId>, messages: Messages, i: nat)
    requires i < |rows| && AllIn(rows, messages)
    ensures forall user ::
              SentOne(rows[..i + 1], messages, user) <==>
              SentOne(rows[..i], messages, user) || messages[rows[i]].sender == user
  {
    var init, more := rows[..i], rows[..i + 1];
    forall user | SentOne(more, messages, user) && messages[rows[i]].sender != user
      ensures SentOne(init, messages, user)
    {
      var k :| 0 <= k < |more| && messages[more[k]].sender == user;
      assert messages[init[k]].sender == user;
    }
    forall user | SentOne(init, messages, user) ensures SentOne(more, messages, user) {
      var k :| 0 <= k < |init| && messages[init[k]].sender == user;
      assert messages[more[k]].sender == user;
    }
    assert messages[more[i]].sender == messages[rows[i]].sender;
  }

  lemma AppendGroup(convs: Conversations, rows: seq<ConvId>, ids: seq<ConvId>, owners: seq<UserId>, i: nat)
    requires i < |owners| && Ascending(owners) && ByOwnerThenId(convs, rows) && Ascending(ids)
    requires forall c :: c in rows <==> IsSaved(convs, c) && convs[c].owner in owners[..i]
    requires forall c :: c in ids <==> IsSaved(convs, c) && convs[c].owner == owners[i]
    ensures ByOwnerThenId(convs, rows + ids)
    ensures forall c :: c in rows + ids <==> IsSaved(convs, c) && convs[c].owner in owners[..i + 1]
  {
    assert owners[..i + 1] == owners[..i] + [owners[i]];
    forall k | 0 <= k < |rows| ensures rows[k] in convs && convs[rows[k]].owner < owners[i] {
      assert rows[k] in rows;
      var j :| 0 <= j < i && owners[..i][j] == convs[rows[k]].owner;
      assert owners[j] < owners[i];
    }
    forall k | 0 <= k < |ids| ensures ids[k] in convs && convs[ids[k]].owner == owners[i] {
      assert ids[k] in ids;
    }
  }

  lemma SavedRows(db: Db, rows: seq<MessageId>)
    requires Lists(rows, SavedMessageIds(db))
    ensures AllIn(rows, db.messages) && Elements(rows) == SavedMessageIds(db)
    ensures forall user :: SentOne(rows, db.messages, user) <==>
            exists m :: IsSavedMessage(db, m) && db.messages[m].sender == user
  {
    forall i | 0 <= i < |rows| ensures rows[i] in db.messages && IsSavedMessage(db, rows[i]) {
      var m := rows[i];
      assert m in rows;
    }
    forall user, m | IsSavedMessage(db, m) && db.messages[m].sender == user ensures SentOne(rows, db.messages, user) {
      assert m in SavedMessageIds(db);
      assert m in rows;
      var i :| 0 <= i < |rows| && rows[i] == m;
      assert db.messages[rows[i]].sender == user;
    }
  }

  /** Conversations created on the way have no members yet, so they carry no flag. */
  lemma FlagsUnmoved(db: Db, created: Db, can0: Canonical, can: Canonical, next0: ConvId, next: ConvId)
    requires WellFormed(db) && created.members == db.members
    requires Created(db.conversations, can0, created.conversations, can, next0, next)
    ensures forall user, flag :: Flagged(created, user, flag) <==> Flagged(db, user, flag)
  {
    forall user, flag ensures Flagged(created, user, flag) <==> Flagged(db, user, flag) {
      if Flagged(created, user, flag) {
        var c :| Owns(created.conversations, user, c) && (c, user) in db.members && flag(db.members[(c, user)]);
        assert Owns(db.conversations, user, c);
      }
      if Flagged(db, user, flag) {
        var c :| Owns(db.conversations, user, c) && (c, user) in db.members && flag(db.members[(c, user)]);
        assert Owns(created.conversations, user, c);
      }
    }
  }

  lemma SendersHaveCanonical(db: Db, can: Canonical, rows: seq<MessageId>)
    requires CanonicalFor(db, can) && Lists(rows, SavedMessageIds(db)) && AllIn(rows, db.messages)
    ensures forall i :: 0 <= i < |rows| ==> db.messages[rows[i]].sender in can
  {
    forall i | 0 <= i < |rows| ensures db.messages[rows[i]].sender in can {
      var m := rows[i];
      assert m in rows && IsSavedMessage(db, m);
    }
  }

  lemma CanonicalAreSaved(can: Canonical, convs: Conversations)
    requires forall user :: user in can ==>
               can[user] in convs && convs[can[user]] == Conversation(SAVED, Some(TITLE), user)
    ensures forall user :: user in can ==> IsSaved(convs, can[user])
  {
  }

  lemma CreateOne(convs0: Conversations, can0: Canonical, convs: Conversations, can: Canonical,
                  next0: ConvId, next: ConvId, sender: UserId)
    requires Created(convs0, can0, convs, can, next0, next) && sender !in can
    requires forall c :: c in convs ==> c < next
    ensures Created(convs0, can0, convs[next := Conversation(SAVED, Some(TITLE), sender)], can[sender := next],
                    next0, next + 1)
  {
    CanonicalGrows(can, can[sender := next]);
    assert IsCanonical(can[sender := next], next) by { assert can[sender := next][sender] == next; }
  }

  lemma CanonicalGrows(can: Canonical, can': Canonical)
    requires forall u :: u in can ==> u in can' && can'[u] == can[u]
    ensures forall c :: IsCanonical(can, c) ==> IsCanonical(can', c)
  {
  }
}
