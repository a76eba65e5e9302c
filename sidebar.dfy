/**
 * The sidebar's conversation list: the case-insensitive title search, the
 * message shown for an empty list, the title fallback and the navigation
 * that follows a deletion.
 */
module Sidebar {
  import opened Wrappers
  import opened Types
  import opened Strings
  import Seqs
  import ChatStore

  /** The search predicate: the lower-cased title contains the lower-cased query. */
  predicate Matches(c: Conversation, query: string)
  {
    Contains(ToLower(c.title), ToLower(query))
  }

  /** `filteredConversations`. */
  function FilterConversations(cs: seq<Conversation>, query: string): (r: seq<Conversation>)
    ensures forall i :: 0 <= i < |r| ==> r[i] in cs && Matches(r[i], query)
    ensures forall i :: 0 <= i < |cs| && Matches(cs[i], query) ==> cs[i] in r
  {
    Seqs.Filter(cs, (c: Conversation) => Matches(c, query))
  }

  /** An empty query keeps every conversation, in order. */
  lemma EmptyQueryKeepsAll(cs: seq<Conversation>)
    ensures FilterConversations(cs, "") == cs
  {
    forall c | c in cs ensures Matches(c, "") {
      ContainsEmpty(ToLower(c.title));
    }
    Seqs.FilterKeepsAll(cs, (c: Conversation) => Matches(c, ""));
  }

  /** A conversation is kept iff the lower-cased query occurs somewhere in its lower-cased title. */
  lemma KeptIff(cs: seq<Conversation>, query: string, c: Conversation)
    requires c in cs
    ensures c in FilterConversations(cs, query) <==> exists i :: OccursAt(ToLower(c.title), ToLower(query), i)
  {
    ContainsIffOccurs(ToLower(c.title), ToLower(query));
    var r := FilterConversations(cs, query);
    if c in r {
      var k :| 0 <= k < |r| && r[k] == c;
      assert Matches(c, query);
      assert Contains(ToLower(c.title), ToLower(query));
      assert exists i :: OccursAt(ToLower(c.title), ToLower(query), i);
    } else {
      var k :| 0 <= k < |cs| && cs[k] == c;
      assert !Matches(c, query);
    }
  }

  /** Lower-casing twice is lower-casing once. */
  lemma {:induction false} ToLowerIdempotent(s: string)
    ensures ToLower(ToLower(s)) == ToLower(s)
  {
    forall k | 0 <= k < |s| ensures ToLower(ToLower(s))[k] == ToLower(s)[k] {
      var c := s[k];
      assert LowerChar(LowerChar(c)) == LowerChar(c);
    }
  }

  /** The search ignores the case of the query. */
  lemma QueryCaseIgnored(cs: seq<Conversation>, query: string)
    ensures FilterConversations(cs, query) == FilterConversations(cs, ToLower(query))
  {
    ToLowerIdempotent(query);
    Seqs.FilterCongruent(cs, (c: Conversation) => Matches(c, query), (c: Conversation) => Matches(c, ToLower(query)));
  }

  /** The note under an empty list, hidden while the sidebar is collapsed. */
  function EmptyListMessage(filteredCount: nat, query: string, isCollapsed: bool): (m: Option<string>)
    ensures m.Some? <==> filteredCount == 0 && !isCollapsed
    ensures m.Some? && query != "" ==> m.value == "No conversations found"
    ensures m.Some? && query == "" ==> m.value == "No conversations yet"
  {
    if filteredCount == 0 && !isCollapsed then
      Some(if query != "" then "No conversations found" else "No conversations yet")
    else None
  }

  /** An untitled conversation is listed as `New Chat`. */
  function DisplayTitle(title: string): (t: string)
    ensures t != ""
    ensures title != "" ==> t == title
    ensures title == "" ==> t == "New Chat"
  {
    if title != "" then title else "New Chat"
  }

  /**
   * `handleDeleteConversation`: the store's delete, then navigation to the
   * chat root iff the conversation selected when the click happened is the
   * one deleted. The store swallows a failed delete, so the navigation
   * happens on failure too.
   */
  method HandleDeleteConversation(store: ChatStore.Store, id: string, failure: Option<string>) returns (navigates: bool)
    modifies store`conversations, store`currentConversation, store`messages, store`error
    ensures navigates <==> old(store.currentConversation).Some? && old(store.currentConversation).value.id == id
    ensures failure.None? ==> store.conversations == ChatStore.WithoutConversation(old(store.conversations), id)
    ensures failure.None? && navigates ==> store.currentConversation == None && store.messages == []
    ensures failure.Some? ==> store.conversations == old(store.conversations)
                              && store.currentConversation == old(store.currentConversation)
  {
    var current := store.currentConversation;
    store.DeleteConversationResolve(id, failure);
    navigates := current.Some? && current.value.id == id;
  }
}
