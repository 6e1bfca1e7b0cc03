/**
 * Conversation histories per session: the in-memory repository, and the
 * two pure parts of the file-system repository (the file name a session is
 * stored under and how session ids are read back from a directory listing).
 * Reading and writing the files is not part of this model.
 */
module ConversationRepository {
  import opened Wrappers
  import opened Text
  import opened Messages

  type History = seq<Message>

  // ---- in memory --------------------------------------------------------------

  /** Session ids in the order the dictionary keeps them: new keys go last, deleted keys leave. */
  function SaveOrder(order: seq<string>, sessionId: string): (r: seq<string>)
    ensures forall s :: s in r <==> s in order || s == sessionId
    ensures |order| <= |r| && r[..|order|] == order
    ensures Distinct(order) ==> Distinct(r)
  {
    if sessionId in order then order else order + [sessionId]
  }

  function ClearOrder(order: seq<string>, sessionId: string): (r: seq<string>)
    ensures forall s :: s in r <==> s in order && s != sessionId
    ensures |r| <= |order|
  {
    if order == [] then []
    else if order[0] == sessionId then ClearOrder(order[1..], sessionId)
    else [order[0]] + ClearOrder(order[1..], sessionId)
  }

  predicate Distinct(order: seq<string>) {
    forall i, j :: 0 <= i < j < |order| ==> order[i] != order[j]
  }

  /** The listed sessions are exactly the stored ones, each once. */
  ghost predicate Listed(conversations: map<string, History>, order: seq<string>) {
    Distinct(order) && forall s :: s in order <==> s in conversations
  }

  /** `get_history`: a copy of the stored history, or nothing when it is missing or empty. */
  function Lookup(conversations: map<string, History>, sessionId: string): (r: Option<History>)
    ensures r.Some? <==> sessionId in conversations && conversations[sessionId] != []
    ensures r.Some? ==> r.value == conversations[sessionId]
  {
    if sessionId in conversations && conversations[sessionId] != [] then Some(conversations[sessionId]) else None
  }

  /** A saved non-empty history is read back as it was saved; a saved empty one reads as nothing. */
  lemma GetAfterSave(conversations: map<string, History>, sessionId: string, history: History, other: string)
    ensures history != [] ==> Lookup(conversations[sessionId := history], sessionId) == Some(history)
    ensures history == [] ==> Lookup(conversations[sessionId := history], sessionId).None?
    ensures other != sessionId ==> Lookup(conversations[sessionId := history], other) == Lookup(conversations, other)
  {
  }

  /** Saving and clearing keep the listing exact. */
  lemma {:induction false} ClearOrderDistinct(order: seq<string>, sessionId: string)
    requires Distinct(order)
    ensures Distinct(ClearOrder(order, sessionId))
    decreases |order|
  {
    if order != [] {
      ClearOrderDistinct(order[1..], sessionId);
      var rest := ClearOrder(order[1..], sessionId);
      if order[0] != sessionId {
        assert order[0] !in order[1..];
        var r := [order[0]] + rest;
        forall i, j | 0 <= i < j < |r|
          ensures r[i] != r[j]
        {
          if i == 0 {
            assert r[j] == rest[j - 1];
          } else {
            assert r[i] == rest[i - 1] && r[j] == rest[j - 1];
          }
        }
      }
    }
  }

  lemma ListedAfterSave(conversations: map<string, History>, order: seq<string>, sessionId: string, history: History)
    requires Listed(conversations, order)
    ensures Listed(conversations[sessionId := history], SaveOrder(order, sessionId))
  {
  }

  lemma ListedAfterClear(conversations: map<string, History>, order: seq<string>, sessionId: string)
    requires Listed(conversations, order)
    ensures Listed(conversations - {sessionId}, ClearOrder(order, sessionId))
  {
    ClearOrderDistinct(order, sessionId);
  }

  class InMemoryConversationRepository {
    var conversations: map<string, History>
    /** The key order of the dictionary, which `list_sessions` returns. */
    var order: seq<string>

    ghost predicate Valid()
      reads this
    {
      Listed(conversations, order)
    }

    constructor()
      ensures conversations == map[] && order == []
      ensures Valid()
    {
      conversations := map[];
      order := [];
    }

    /** `save_history`: stores a copy of the history and reports success. */
    method SaveHistory(sessionId: string, history: History) returns (ok: bool)
      requires Valid()
      modifies this
      ensures ok
      ensures conversations == old(conversations)[sessionId := history]
      ensures order == SaveOrder(old(order), sessionId)
      ensures Valid()
    {
      ListedAfterSave(conversations, order, sessionId, history);
      conversations := conversations[sessionId := history];
      order := SaveOrder(order, sessionId);
      ok := true;
    }

    function GetHistory(sessionId: string): (r: Option<History>)
      reads this
      ensures r == Lookup(conversations, sessionId)
    {
      var history := if sessionId in conversations then Some(conversations[sessionId]) else None;
      if history.Some? && history.value != [] then history else None
    }

    /** `clear_history`: removes the session and reports whether it was there. */
    method ClearHistory(sessionId: string) returns (found: bool)
      requires Valid()
      modifies this
      ensures found <==> sessionId in old(conversations)
      ensures conversations == old(conversations) - {sessionId}
      ensures found ==> order == ClearOrder(old(order), sessionId)
      ensures !found ==> order == old(order)
      ensures Valid()
    {
      if sessionId in conversations {
        ListedAfterClear(conversations, order, sessionId);
        conversations := conversations - {sessionId};
        order := ClearOrder(order, sessionId);
        return true;
      }
      return false;
    }

    /** `list_sessions`: every stored session id, once each. */
    function ListSessions(): (r: seq<string>)
      reads this
      requires Valid()
      ensures Distinct(r) && forall s :: s in r <==> s in conversations
    {
      order
    }
  }

  // ---- file system -------------------------------------------------------------

  /** `_get_file_path`'s sanitiser: every non-alphanumeric character becomes `_`. */
  function SafeId(sessionId: string): (r: string)
    ensures |r| == |sessionId|
    ensures forall i :: 0 <= i < |r| ==> (if IsAlnum(sessionId[i]) then r[i] == sessionId[i] else r[i] == '_')
  {
    seq(|sessionId|, i requires 0 <= i < |sessionId| => if IsAlnum(sessionId[i]) then sessionId[i] else '_')
  }

  /** Only letters, digits and `_` remain, and sanitising twice changes nothing. */
  lemma SafeIdIdempotent(sessionId: string)
    ensures forall i :: 0 <= i < |SafeId(sessionId)| ==> IsAlnum(SafeId(sessionId)[i]) || SafeId(sessionId)[i] == '_'
    ensures SafeId(SafeId(sessionId)) == SafeId(sessionId)
  {
  }

  /** The sanitiser is not injective: two sessions can share a file. */
  lemma SafeIdCollides()
    ensures "a.b" != "a_b" && SafeId("a.b") == SafeId("a_b")
  {
    assert SafeId("a.b")[1] == '_';
    assert SafeId("a_b") == "a_b";
  }

  /** `os.path.join(directory, name)` for a relative `name`. */
  function Join(directory: string, name: string): string {
    if directory == [] || EndsWith(directory, "/") then directory + name else directory + "/" + name
  }

  function GetFilePath(storageDir: string, sessionId: string): (r: string)
    ensures EndsWith(r, SafeId(sessionId) + ".json")
    ensures StartsWith(r, storageDir)
  {
    var name := SafeId(sessionId) + ".json";
    if storageDir == [] || EndsWith(storageDir, "/") then
      assert (storageDir + name)[..|storageDir|] == storageDir;
      Join(storageDir, name)
    else
      assert (storageDir + "/" + name)[..|storageDir|] == storageDir;
      Join(storageDir, name)
  }

  /** The session ids `list_sessions` reads from the file names of a listing. */
  function SessionsOf(listing: seq<string>): (r: seq<string>)
    ensures forall k :: 0 <= k < |r| ==> r[k] + ".json" in listing
  {
    if listing == [] then []
    else
      var f := listing[|listing| - 1];
      assert forall x :: x in listing[..|listing| - 1] ==> x in listing;
      assert EndsWith(f, ".json") ==> f[..|f| - 5] + ".json" == f;
      SessionsOf(listing[..|listing| - 1]) + (if EndsWith(f, ".json") then [f[..|f| - 5]] else [])
  }

  /** `list_sessions` over the directory listing; an unreadable directory lists nothing. */
  method ListSessions(listing: Option<seq<string>>) returns (sessions: seq<string>)
    ensures listing.None? ==> sessions == []
    ensures listing.Some? ==> sessions == SessionsOf(listing.value)
  {
    sessions := [];
    if listing.Some? {
      var files := listing.value;
      var k := 0;
      while k < |files|
        invariant 0 <= k <= |files|
        invariant sessions == SessionsOf(files[..k])
      {
        assert files[..k + 1][..k] == files[..k];
        var filename := files[k];
        if EndsWith(filename, ".json") {
          sessions := sessions + [filename[..|filename| - 5]];
        }
        k := k + 1;
      }
      assert files[..|files|] == files;
    }
  }

  /** Files that do not end in `.json` are ignored, and each `.json` file gives one session. */
  lemma {:induction false} SessionsOfCount(listing: seq<string>)
    ensures |SessionsOf(listing)| == |set i | 0 <= i < |listing| && EndsWith(listing[i], ".json")|
    decreases |listing|
  {
    if listing != [] {
      var n := |listing| - 1;
      SessionsOfCount(listing[..n]);
      var before := set i | 0 <= i < n && EndsWith(listing[..n][i], ".json");
      var after := set i | 0 <= i < |listing| && EndsWith(listing[i], ".json");
      if EndsWith(listing[n], ".json") {
        assert after == before + {n};
      } else {
        assert after == before;
      }
    }
  }

  /** The file a session is saved to lists back as the session's sanitised id. */
  lemma SessionRoundTrip(storageDir: string, sessionId: string)
    ensures SessionsOf([SafeId(sessionId) + ".json"]) == [SafeId(sessionId)]
    ensures SafeId(sessionId) == sessionId ==> SessionsOf([SafeId(sessionId) + ".json"]) == [sessionId]
  {
    var f := SafeId(sessionId) + ".json";
    assert EndsWith(f, ".json");
    assert f[..|f| - 5] == SafeId(sessionId);
    assert [f][..0] == SessionsOf([]);
  }
}
