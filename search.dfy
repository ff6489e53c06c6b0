/** The search page (app/search/page.tsx): the profile results of the
    current query and the list of recent searches — most recent first, each
    username once, at most ten. Reading and writing the list to local
    storage is outside the model. */
module Search {
  import opened Common
  import opened Types

  const MaxRecent := 10

  function OtherThan(username: string): string -> bool {
    (s: string) => s != username
  }

  /** `saveSearch`'s new list: the username first, followed by the earlier
      entries other than it, cut to ten entries. */
  function SaveSearch(recent: seq<string>, username: string): (r: seq<string>)
    ensures r != [] && r[0] == username
    ensures |r| <= MaxRecent
    ensures multiset(r)[username] == 1
    ensures var rest := Filter(OtherThan(username), recent);
      |r| == if |rest| + 1 <= MaxRecent then |rest| + 1 else MaxRecent
    ensures r[1..] == Filter(OtherThan(username), recent)[..|r| - 1]
  {
    var rest := Filter(OtherThan(username), recent);
    var r := ([username] + rest)[..if |rest| + 1 <= MaxRecent then |rest| + 1 else MaxRecent];
    assert r[1..] == rest[..|r| - 1];
    assert multiset(r) == multiset{username} + multiset(r[1..]) by {
      assert r == [username] + r[1..];
    }
    assert username !in r[1..];
    r
  }

  /** The remove button's list: every entry equal to the search goes, the
      others stay in order. */
  function RemoveRecent(recent: seq<string>, search: string): (r: seq<string>)
    ensures search !in r
    ensures forall i :: 0 <= i < |recent| && recent[i] != search ==> recent[i] in r
    ensures forall x :: x in r ==> x in recent
  {
    Filter(OtherThan(search), recent)
  }

  /** Removing keeps the number of occurrences of every other entry. */
  lemma RemoveRecentCounts(recent: seq<string>, search: string, x: string)
    ensures multiset(RemoveRecent(recent, search))[x] == if x == search then 0 else multiset(recent)[x]
  {
    FilterMultiset(OtherThan(search), recent, x);
  }

  /** Removing works entry by entry: the entries of a list split in two are
      filtered apiece, so the kept entries stay in their order. */
  lemma RemoveRecentAppend(a: seq<string>, b: seq<string>, search: string)
    ensures RemoveRecent(a + b, search) == RemoveRecent(a, search) + RemoveRecent(b, search)
  {
    FilterAppend(OtherThan(search), a, b);
  }

  /** Removing an entry that was just saved gives the earlier entries other
      than it, up to the cut. */
  lemma RemoveAfterSave(recent: seq<string>, username: string)
    ensures var r := SaveSearch(recent, username);
      RemoveRecent(r, username) == r[1..]
  {
    var r := SaveSearch(recent, username);
    var tail := r[1..];
    var rest := Filter(OtherThan(username), recent);
    forall i | 0 <= i < |tail| ensures OtherThan(username)(tail[i]) {
      assert tail[i] == rest[i];
    }
    FilterKeepsAll(OtherThan(username), tail);
    assert r == [username] + tail;
    FilterSkipsDropped(OtherThan(username), username, tail);
  }

  /** Saving the same username again changes nothing. */
  lemma SaveSearchIdempotent(recent: seq<string>, username: string)
    ensures SaveSearch(SaveSearch(recent, username), username) == SaveSearch(recent, username)
  {
    var once := SaveSearch(recent, username);
    RemoveAfterSave(recent, username);
    assert Filter(OtherThan(username), once) == once[1..];
    assert [username] + once[1..] == once;
  }

  /** The query effect searches exactly when the trimmed query is not
      empty, that is when the query is not all white space. */
  function TriggersSearch(query: string): (r: bool)
    ensures r <==> !AllSpace(query)
  {
    TrimEmptyIff(query);
    |Trim(query)| > 0
  }

  /** `searchUsers`' effect on the results: the rows when data comes back,
      [] for null data, and the previous results when the query fails (the
      error is thrown, caught and only logged). */
  function SearchResults(previous: seq<Profile>, reply: Reply<seq<Profile>>): (r: seq<Profile>)
    ensures reply.Data? ==> r == reply.value
    ensures reply.NullData? ==> r == []
    ensures reply.Failure? ==> r == previous
  {
    match reply
    case Data(rows) => rows
    case NullData => []
    case Failure(_) => previous
  }

  class Page {
    var query: string
    var results: seq<Profile>
    var loading: bool
    var recent: seq<string>

    constructor (stored: seq<string>)
      ensures query == "" && results == [] && !loading && recent == stored
    {
      query := "";
      results := [];
      loading := false;
      recent := stored;
    }

    /** A query change and the effect it triggers. `reply` is what the
        profile query returns; the result says whether it was asked. */
    method SetQuery(q: string, reply: Reply<seq<Profile>>) returns (searched: bool)
      modifies this`query, this`results, this`loading
      ensures query == q && !loading
      ensures searched <==> !AllSpace(q)
      ensures results == if searched then SearchResults(old(results), reply) else []
    {
      query := q;
      searched := TriggersSearch(q);
      if searched {
        loading := true;
        results := SearchResults(results, reply);
        loading := false;
      } else {
        results := [];
        loading := false;
      }
    }

    /** `saveSearch`. */
    method Save(username: string)
      modifies this`recent
      ensures recent == SaveSearch(old(recent), username)
    {
      recent := SaveSearch(recent, username);
    }

    /** The remove button of one recent entry. */
    method Remove(search: string)
      modifies this`recent
      ensures recent == RemoveRecent(old(recent), search)
    {
      recent := RemoveRecent(recent, search);
    }

    /** `clearRecentSearches`. */
    method ClearRecent()
      modifies this`recent
      ensures recent == []
    {
      recent := [];
    }
  }
}
