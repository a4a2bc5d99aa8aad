/** The seeker's messages page (src/sections/ExpatMessages.tsx): the user's messages grouped
    into conversations by the other party, the choice of the open conversation, the
    messages shown in it and sending a new one. The other party's profile and the listing
    of each conversation come from seed data and are not modelled. */
module Conversations {
  import opened Wrappers
  import opened Seqs
  import opened Text
  import opened Types
  import opened Store

  // ---------------------------------------------------------------- grouping, specified

  /** `m.senderId === user?.id || m.receiverId === user?.id`; with no user nothing matches. */
  predicate Involves(m: Message, me: Option<string>) {
    me.Some? && (m.senderId == me.value || m.receiverId == me.value)
  }

  function InvolvesUser(me: Option<string>): Message -> bool {
    (m: Message) => Involves(m, me)
  }

  /** userMessages: the messages the user sent or received, in store order. */
  function UserMessages(ms: seq<Message>, me: Option<string>): (r: seq<Message>)
    ensures IsSublist(r, ms)
    ensures forall i :: 0 <= i < |r| ==> Involves(r[i], me)
    ensures forall i :: 0 <= i < |ms| && Involves(ms[i], me) ==> ms[i] in r
    ensures me.None? ==> r == []
    ensures forall m :: multiset(r)[m] == if Involves(m, me) then multiset(ms)[m] else 0
  {
    FilterIsSublist(ms, InvolvesUser(me));
    FilterMultiset(ms, InvolvesUser(me));
    FilterEmptyWhenNonePass(ms, InvolvesUser(me));
    Filter(ms, InvolvesUser(me))
  }

  /** The other party of a message: the receiver of what the user sent, else the sender. */
  function Other(m: Message, me: string): (party: string)
    ensures party == m.senderId || party == m.receiverId
    ensures (m.senderId == me) != (m.receiverId == me) ==> party != me
  {
    if m.senderId == me then m.receiverId else m.senderId
  }

  function WithParty(me: string, party: string): Message -> bool {
    (m: Message) => Other(m, me) == party
  }

  function UnreadBy(me: string): Message -> bool {
    (m: Message) => m.receiverId == me && !m.read
  }

  /** The keys of the grouping in the order `Object.entries` lists them: each other party
      once, in the order of its first message. */
  function Parties(us: seq<Message>, me: string): (r: seq<string>)
    ensures |r| <= |us|
    ensures forall i :: 0 <= i < |us| ==> Other(us[i], me) in r
    decreases |us|
  {
    if us == [] then []
    else
      var earlier := Parties(us[..|us| - 1], me);
      var party := Other(us[|us| - 1], me);
      if party in earlier then earlier else earlier + [party]
  }

  /** The position of the group's lastMessage: a message with the greatest `createdAt`, the
      first such, because a later message replaces it only when strictly newer. */
  function LatestIndex(s: seq<Message>): (i: nat)
    requires s != []
    ensures i < |s|
    ensures forall j :: 0 <= j < |s| ==> s[j].createdAt <= s[i].createdAt
    ensures forall j :: 0 <= j < i ==> s[j].createdAt < s[i].createdAt
    decreases |s|
  {
    if |s| == 1 then 0
    else
      var best := LatestIndex(s[..|s| - 1]);
      if s[|s| - 1].createdAt > s[best].createdAt then |s| - 1 else best
  }

  /** The messages of one party, in order. */
  function GroupOf(us: seq<Message>, me: string, party: string): (r: seq<Message>)
    ensures |r| <= |us|
    ensures forall i :: 0 <= i < |r| ==> Other(r[i], me) == party
    decreases |us|
  {
    if us == [] then []
    else GroupOf(us[..|us| - 1], me, party) + (if Other(us[|us| - 1], me) == party then [us[|us| - 1]] else [])
  }

  /** How many messages of a list the user received and has not read. */
  function UnreadIn(s: seq<Message>, me: string): (n: nat)
    ensures n <= |s|
    ensures (forall i :: 0 <= i < |s| ==> s[i].read || s[i].receiverId != me) ==> n == 0
    decreases |s|
  {
    if s == [] then 0
    else UnreadIn(s[..|s| - 1], me) + (if s[|s| - 1].receiverId == me && !s[|s| - 1].read then 1 else 0)
  }

  datatype Conversation = Conversation(messages: seq<Message>, lastMessage: Message, unreadCount: nat)

  /** What the grouping holds for one party: its messages in order, the newest of them
      (the first on ties), and how many of them the user received and has not read. */
  function Summary(us: seq<Message>, me: string, party: string): (c: Conversation)
    requires GroupOf(us, me, party) != []
    ensures c.lastMessage in c.messages
  {
    var group := GroupOf(us, me, party);
    Conversation(group, group[LatestIndex(group)], UnreadIn(group, me))
  }

  // ---------------------------------------------------------------- lemmas

  /** A party's conversation holds exactly the user's messages with that party, in order,
      so every message lands in the conversation of its other party and in no other. */
  lemma {:induction false} GroupIsFilter(us: seq<Message>, me: string, party: string)
    ensures GroupOf(us, me, party) == Filter(us, WithParty(me, party))
    decreases |us|
  {
    if us != [] {
      var front, last := us[..|us| - 1], us[|us| - 1];
      assert us == front + [last];
      GroupIsFilter(front, me, party);
      FilterSnoc(front, last, WithParty(me, party));
    }
  }

  /** The unread counter counts the messages the user received and has not read. */
  lemma {:induction false} UnreadIsCount(s: seq<Message>, me: string)
    ensures UnreadIn(s, me) == Count(s, UnreadBy(me))
    decreases |s|
  {
    if s != [] {
      var front, last := s[..|s| - 1], s[|s| - 1];
      assert s == front + [last];
      UnreadIsCount(front, me);
      FilterSnoc(front, last, UnreadBy(me));
    }
  }

  /** What a conversation means: the user's messages with that party in their order, the
      unread counter counting those the user received and has not read, and the last
      message the newest of them. */
  lemma SummaryMeaning(us: seq<Message>, me: string, party: string)
    requires GroupOf(us, me, party) != []
    ensures Summary(us, me, party).messages == Filter(us, WithParty(me, party))
    ensures Summary(us, me, party).unreadCount == Count(Summary(us, me, party).messages, UnreadBy(me))
    ensures forall m :: m in Summary(us, me, party).messages ==>
              m.createdAt <= Summary(us, me, party).lastMessage.createdAt
  {
    GroupIsFilter(us, me, party);
    UnreadIsCount(GroupOf(us, me, party), me);
  }

  /** The parties are distinct, and a party is listed exactly when it has a message. */
  lemma {:induction false} PartiesExact(us: seq<Message>, me: string)
    ensures NoDuplicates(Parties(us, me))
    ensures forall k :: k in Parties(us, me) <==> GroupOf(us, me, k) != []
    decreases |us|
  {
    if us != [] {
      PartiesExact(us[..|us| - 1], me);
    }
  }

  /** The first conversation is the one of the earliest message involving the user. */
  lemma {:induction false} FirstPartyIsEarliest(us: seq<Message>, me: string)
    requires us != []
    ensures Parties(us, me) != [] && Parties(us, me)[0] == Other(us[0], me)
    decreases |us|
  {
    var front := us[..|us| - 1];
    if front != [] {
      FirstPartyIsEarliest(front, me);
      assert front[0] == us[0];
    }
  }

  // ---------------------------------------------------------------- the reduce

  /** The reduce callback: finds or creates the group of the message's other party, pushes
      the message, counts it when it is unread and addressed to the user, and keeps it as
      lastMessage when it is strictly newer. */
  method AddToGroups(parties: seq<string>, groups: map<string, Conversation>, message: Message,
                     me: string, ghost done: seq<Message>)
      returns (parties': seq<string>, groups': map<string, Conversation>)
    requires parties == Parties(done, me)
    requires forall k :: k in groups <==> k in parties
    requires forall k :: k in groups ==> GroupOf(done, me, k) != [] && groups[k] == Summary(done, me, k)
    ensures parties' == Parties(done + [message], me)
    ensures forall k :: k in groups' <==> k in parties'
    ensures forall k :: k in groups' ==>
              GroupOf(done + [message], me, k) != [] && groups'[k] == Summary(done + [message], me, k)
  {
    var otherUserId := if message.senderId == me then message.receiverId else message.senderId;
    assert otherUserId == Other(message, me);
    var start := if otherUserId in groups then groups[otherUserId] else Conversation([], message, 0);
    parties' := if otherUserId in groups then parties else parties + [otherUserId];
    var g := start.(messages := start.messages + [message]);
    if message.receiverId == me && !message.read {
      g := g.(unreadCount := g.unreadCount + 1);
    }
    if message.createdAt > g.lastMessage.createdAt {
      g := g.(lastMessage := message);
    }
    groups' := groups[otherUserId := g];
    GroupedStep(parties, groups, message, me, done, start, g, parties', groups');
  }

  /** One step of the reduce keeps the conversations equal to their summaries. */
  lemma GroupedStep(parties: seq<string>, groups: map<string, Conversation>, message: Message,
                    me: string, done: seq<Message>, start: Conversation, g: Conversation,
                    parties': seq<string>, groups': map<string, Conversation>)
    requires parties == Parties(done, me)
    requires forall k :: k in groups <==> k in parties
    requires forall k :: k in groups ==> GroupOf(done, me, k) != [] && groups[k] == Summary(done, me, k)
    requires start == if Other(message, me) in groups then groups[Other(message, me)] else Conversation([], message, 0)
    requires parties' == if Other(message, me) in groups then parties else parties + [Other(message, me)]
    requires g.messages == start.messages + [message]
    requires g.unreadCount == start.unreadCount + (if message.receiverId == me && !message.read then 1 else 0)
    requires message.createdAt > start.lastMessage.createdAt ==> g.lastMessage == message
    requires !(message.createdAt > start.lastMessage.createdAt) ==> g.lastMessage == start.lastMessage
    requires groups' == groups[Other(message, me) := g]
    ensures parties' == Parties(done + [message], me)
    ensures forall k :: k in groups' <==> k in parties'
    ensures forall k :: k in groups' ==>
              GroupOf(done + [message], me, k) != [] && groups'[k] == Summary(done + [message], me, k)
  {
    var party := Other(message, me);
    PartiesStep(done, message, me);
    PartyListed(done, me, party);
    StepSummary(done, message, me, party, start, g);
    forall k | k in groups' && k != party
      ensures GroupOf(done + [message], me, k) != [] && groups'[k] == Summary(done + [message], me, k)
    {
      SummaryKept(done, message, me, k);
    }
  }

  /** The reduce adds a party on its first message and keeps the list otherwise. */
  lemma PartiesStep(done: seq<Message>, message: Message, me: string)
    ensures Parties(done + [message], me) ==
              if Other(message, me) in Parties(done, me) then Parties(done, me)
              else Parties(done, me) + [Other(message, me)]
  {
    var after := done + [message];
    assert after[..|after| - 1] == done && after[|after| - 1] == message;
  }

  /** A party is listed exactly when it has a message. */
  lemma PartyListed(us: seq<Message>, me: string, k: string)
    ensures k in Parties(us, me) <==> GroupOf(us, me, k) != []
  {
    PartiesExact(us, me);
  }

  /** A message leaves the conversations of the other parties as they were. */
  lemma SummaryKept(done: seq<Message>, message: Message, me: string, k: string)
    requires Other(message, me) != k && GroupOf(done, me, k) != []
    ensures GroupOf(done + [message], me, k) == GroupOf(done, me, k)
    ensures Summary(done + [message], me, k) == Summary(done, me, k)
  {
    var after := done + [message];
    assert after[..|after| - 1] == done && after[|after| - 1] == message;
  }

  /** The group that receives the message equals its summary afterwards. */
  lemma StepSummary(done: seq<Message>, message: Message, me: string, party: string,
                    start: Conversation, g: Conversation)
    requires Other(message, me) == party
    requires GroupOf(done, me, party) == [] ==> start == Conversation([], message, 0)
    requires GroupOf(done, me, party) != [] ==> start == Summary(done, me, party)
    requires g.messages == start.messages + [message]
    requires g.unreadCount == start.unreadCount + (if message.receiverId == me && !message.read then 1 else 0)
    requires message.createdAt > start.lastMessage.createdAt ==> g.lastMessage == message
    requires !(message.createdAt > start.lastMessage.createdAt) ==> g.lastMessage == start.lastMessage
    ensures GroupOf(done + [message], me, party) != []
    ensures g == Summary(done + [message], me, party)
  {
    var after := done + [message];
    assert after[..|after| - 1] == done && after[|after| - 1] == message;
    var before := GroupOf(done, me, party);
    var group := GroupOf(after, me, party);
    assert group == before + [message];
    assert group[..|group| - 1] == before;
    if before == [] {
      assert group == [message];
      assert LatestIndex(group) == 0;
      assert UnreadIn(group, me) == UnreadIn([], me) + (if message.receiverId == me && !message.read then 1 else 0);
      assert g.lastMessage == message;
      assert g == Conversation(group, message, UnreadIn(group, me));
    } else {
      assert group[LatestIndex(before)] == before[LatestIndex(before)];
    }
  }

  /** The `useEffect` that builds the conversations: the user's messages folded into a
      record keyed by the other party. */
  method GroupConversations(messages: seq<Message>, me: Option<string>)
      returns (parties: seq<string>, groups: map<string, Conversation>)
    ensures me.None? ==> parties == [] && groups == map[]
    ensures me.Some? ==> parties == Parties(UserMessages(messages, me), me.value)
    ensures NoDuplicates(parties)
    ensures forall k :: k in groups <==> k in parties
    ensures forall k :: k in groups ==>
              GroupOf(UserMessages(messages, me), me.value, k) != [] &&
              groups[k] == Summary(UserMessages(messages, me), me.value, k)
  {
    parties := [];
    groups := map[];
    if me.None? {
      return;
    }
    var id := me.value;
    var us := Filter(messages, InvolvesUser(me));
    var i := 0;
    while i < |us|
      invariant 0 <= i <= |us|
      invariant parties == Parties(us[..i], id)
      invariant forall k :: k in groups <==> k in parties
      invariant forall k :: k in groups ==> GroupOf(us[..i], id, k) != [] && groups[k] == Summary(us[..i], id, k)
    {
      TakeSnoc(us, i);
      parties, groups := AddToGroups(parties, groups, us[i], id, us[..i]);
      i := i + 1;
    }
    assert us[..i] == us;
    PartiesExact(us, id);
  }

  // ---------------------------------------------------------------- selection and display

  /** The conversation opened after grouping: the store's active conversation when one is
      set; otherwise the first conversation, but only when none is open yet. */
  function SelectedAfterGrouping(active: Option<string>, parties: seq<string>,
                                 selected: Option<string>): (r: Option<string>)
    ensures Filled(active) ==> r == active
    ensures !Filled(active) && parties != [] && !Filled(selected) ==> r == Some(parties[0])
    ensures !Filled(active) && (parties == [] || Filled(selected)) ==> r == selected
  {
    if Filled(active) then active
    else if |parties| > 0 && !Filled(selected) then Some(parties[0])
    else selected
  }

  /** Running the selection again changes nothing. */
  lemma SelectionSettles(active: Option<string>, parties: seq<string>, selected: Option<string>)
    requires parties != [] ==> parties[0] != ""
    ensures SelectedAfterGrouping(active, parties, SelectedAfterGrouping(active, parties, selected)) ==
              SelectedAfterGrouping(active, parties, selected)
  {
  }

  predicate Between(m: Message, me: Option<string>, party: string) {
    me.Some? &&
    ((m.senderId == me.value && m.receiverId == party) || (m.senderId == party && m.receiverId == me.value))
  }

  function BetweenUsers(me: Option<string>, party: string): Message -> bool {
    (m: Message) => Between(m, me, party)
  }

  /** conversationMessages: the messages between the user and the open party, either way,
      in store order; nothing when no party is open. */
  function ConversationMessages(ms: seq<Message>, me: Option<string>, selected: Option<string>): (r: seq<Message>)
    ensures !Filled(selected) ==> r == []
    ensures IsSublist(r, ms)
    ensures Filled(selected) ==> forall i :: 0 <= i < |r| ==> Between(r[i], me, selected.value)
    ensures Filled(selected) ==> forall i :: 0 <= i < |ms| && Between(ms[i], me, selected.value) ==> ms[i] in r
    ensures Filled(selected) ==>
              forall m :: multiset(r)[m] == if Between(m, me, selected.value) then multiset(ms)[m] else 0
  {
    if Filled(selected) then
      FilterIsSublist(ms, BetweenUsers(me, selected.value));
      FilterMultiset(ms, BetweenUsers(me, selected.value));
      Filter(ms, BetweenUsers(me, selected.value))
    else []
  }

  /** The open conversation shows exactly the messages the grouping put in that party's
      conversation. */
  lemma ShownMessagesAreTheGroup(ms: seq<Message>, me: string, party: string)
    requires party != ""
    ensures ConversationMessages(ms, Some(me), Some(party)) ==
              Filter(UserMessages(ms, Some(me)), WithParty(me, party))
  {
    FilterTwice(ms, InvolvesUser(Some(me)), WithParty(me, party), BetweenUsers(Some(me), party));
  }

  /** A message the user sends to the open party shows up last in the conversation. */
  lemma SentMessageShownLast(ms: seq<Message>, me: string, party: string, m: Message)
    requires party != "" && m.senderId == me && m.receiverId == party
    ensures ConversationMessages(ms + [m], Some(me), Some(party)) ==
              ConversationMessages(ms, Some(me), Some(party)) + [m]
  {
    FilterSnoc(ms, m, BetweenUsers(Some(me), party));
  }

  /** The message handleSendMessage builds, with the clock reading passed in. */
  function NewMessage(now: nat, content: string, sender: string, receiver: string, propertyId: string): (m: Message)
    ensures m.senderId == sender && m.receiverId == receiver && !m.read
    ensures m.content == content && m.propertyId == propertyId && m.createdAt == now
    ensures "msg-" <= m.id
  {
    Message("msg-" + ShowNat(now), content, sender, receiver, propertyId, now, false)
  }

  /** handleSendMessage: nothing without an open party or a signed-in user; otherwise one
      unread message from the user to the party is appended. `propertyId` is the open
      conversation's listing id, or "" when it has none. */
  method SendMessage(store: MessagesStore, user: Option<User>, selected: Option<string>,
                     content: string, now: nat, propertyId: string)
    modifies store
    ensures !Filled(selected) || user.None? ==> store.messages == old(store.messages)
    ensures Filled(selected) && user.Some? ==>
              store.messages == old(store.messages) +
                                [NewMessage(now, content, user.value.id, selected.value, propertyId)]
    ensures store.activeConversation == old(store.activeConversation)
  {
    if !Filled(selected) || user.None? {
      return;
    }
    store.AddMessage(NewMessage(now, content, user.value.id, selected.value, propertyId));
  }
}
