/** `src/components/SessionManagement.tsx`: the saved-sessions dialog's list,
    its case-insensitive search and deletion by id. */
module SessionManagement {
  import opened Wrappers
  import opened Text
  import opened Seqs
  import opened Api

  /** The search test: the lower-cased title or id contains the lower-cased query.
      The empty query matches every session. */
  predicate Matches(query: string, s: ChatSession): (b: bool)
    ensures query == "" ==> b
  {
    ContainsEmpty(Lower(s.id));
    assert query == "" ==> Lower(query) == "";
    (s.title.Some? && Contains(Lower(s.title.value), Lower(query))) || Contains(Lower(s.id), Lower(query))
  }

  /** The filter effect's result. */
  function SearchFilter(sessions: seq<ChatSession>, query: string): (r: seq<ChatSession>)
    ensures IsSubsequence(r, sessions)
    ensures forall i :: 0 <= i < |r| ==> Matches(query, r[i])
  {
    var r := Filter(sessions, (s: ChatSession) => Matches(query, s));
    FilterIsSubsequence(sessions, (s: ChatSession) => Matches(query, s));
    forall i | 0 <= i < |r| ensures Matches(query, r[i]) {
      FilterMembership(sessions, (s: ChatSession) => Matches(query, s), r[i]);
    }
    r
  }

  /** A session is listed exactly when it is loaded and matches. */
  lemma SearchKeepsExactly(sessions: seq<ChatSession>, query: string, s: ChatSession)
    ensures s in SearchFilter(sessions, query) <==> s in sessions && Matches(query, s)
  {
    FilterMembership(sessions, (x: ChatSession) => Matches(query, x), s);
  }

  /** An empty query lists every session, untitled ones included, through the id test. */
  lemma EmptyQueryKeepsAll(sessions: seq<ChatSession>)
    ensures SearchFilter(sessions, "") == sessions
  {
    forall i | 0 <= i < |sessions| ensures Matches("", sessions[i]) {
      ContainsEmpty(Lower(sessions[i].id));
      assert Lower("") == "";
    }
    FilterKeepsAll(sessions, (s: ChatSession) => Matches("", s));
  }

  /** The search ignores ASCII case in the query. */
  lemma SearchIgnoresCase(sessions: seq<ChatSession>, query: string)
    ensures SearchFilter(sessions, Lower(query)) == SearchFilter(sessions, query)
  {
    LowerIdempotent(query);
    FilterCongruent(sessions, (s: ChatSession) => Matches(Lower(query), s), (s: ChatSession) => Matches(query, s));
  }

  lemma LowerIdempotent(s: string)
    ensures Lower(Lower(s)) == Lower(s)
  {
    forall i | 0 <= i < |s| ensures Lower(Lower(s))[i] == Lower(s)[i] {
      var c := s[i];
      assert Lower(s)[i] == LowerChar(c);
    }
  }

  /** The list after a successful delete. */
  function WithoutId(sessions: seq<ChatSession>, id: string): (r: seq<ChatSession>)
    ensures IsSubsequence(r, sessions)
    ensures forall i :: 0 <= i < |r| ==> r[i].id != id
  {
    var r := Filter(sessions, (s: ChatSession) => s.id != id);
    FilterIsSubsequence(sessions, (s: ChatSession) => s.id != id);
    forall i | 0 <= i < |r| ensures r[i].id != id {
      FilterMembership(sessions, (s: ChatSession) => s.id != id, r[i]);
    }
    r
  }

  /** Deleting removes exactly the sessions with that id. */
  lemma WithoutIdKeepsOthers(sessions: seq<ChatSession>, id: string, s: ChatSession)
    ensures s in WithoutId(sessions, id) <==> s in sessions && s.id != id
  {
    FilterMembership(sessions, (x: ChatSession) => x.id != id, s);
  }

  /** The card heading: the title, or `Session ` and the first eight characters of the id. */
  function DisplayTitle(s: ChatSession): (r: string)
    ensures r != ""
    ensures s.title.Some? && s.title.value != "" ==> r == s.title.value
    ensures s.title.None? || s.title.value == "" ==> r == "Session " + Take(s.id, 8)
  {
    OrElse(s.title, "Session " + Take(s.id, 8))
  }

  class SessionList {
    var sessions: seq<ChatSession>
    var filteredSessions: seq<ChatSession>
    var searchQuery: string

    /** The filter effect has run for the current list and query. */
    predicate Valid()
      reads this
    {
      filteredSessions == SearchFilter(sessions, searchQuery)
    }

    constructor ()
      ensures Valid() && sessions == [] && searchQuery == ""
    {
      sessions := [];
      searchQuery := "";
      filteredSessions := [];
    }

    /** The search box, followed by the filter effect. */
    method SetQuery(query: string)
      modifies this
      ensures Valid() && searchQuery == query && sessions == old(sessions)
    {
      searchQuery := query;
      filteredSessions := SearchFilter(sessions, searchQuery);
    }

    /** `loadSessions`: the fetched list replaces the loaded one; on failure
        (a toast) nothing changes. */
    method LoadSessions(fetched: Option<seq<ChatSession>>)
      requires Valid()
      modifies this
      ensures Valid() && searchQuery == old(searchQuery)
      ensures fetched.Some? ==> sessions == fetched.value
      ensures fetched.None? ==> sessions == old(sessions) && filteredSessions == old(filteredSessions)
    {
      if fetched.Some? {
        sessions := fetched.value;
        filteredSessions := SearchFilter(sessions, searchQuery);
      }
    }

    /** `handleSessionDelete`: after `onSessionDelete` succeeds the sessions
        with that id leave the list; when it throws the list stays as it was. */
    method HandleSessionDelete(id: string, deleteSucceeds: bool)
      requires Valid()
      modifies this
      ensures Valid() && searchQuery == old(searchQuery)
      ensures deleteSucceeds ==> sessions == WithoutId(old(sessions), id)
      ensures !deleteSucceeds ==> sessions == old(sessions) && filteredSessions == old(filteredSessions)
    {
      if deleteSucceeds {
        sessions := WithoutId(sessions, id);
        filteredSessions := SearchFilter(sessions, searchQuery);
      }
    }
  }
}
