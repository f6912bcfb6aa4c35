/** The session view: one conversation's message thread, a per-session cache of
    thread state, optimistic sends, polling for the other party's messages and
    "load more" pagination. Each network callback is its own method that receives
    the response (or is the failure branch); requests are returned as values. */
module SessionView {
  import opened Wrappers
  import opened JsBuiltins

  /** Page size of every history fetch. */
  const InitialGetCount: nat := 50
  /** `sessionMessageTypeId` of a text message and of an attachment message. */
  const TextMessage: int := 1
  const AttachmentMessage: int := 2

  /** A conversation as the hosting page hands it in. */
  datatype Session = Session(id: int, recipientName: string)

  /** A message of the thread. A locally built message has no server id yet;
      `fileName` is its attachment's file name (absent for text messages). */
  datatype Message = Message(
    id: Option<int>,
    sessionId: int,
    text: Option<string>,
    createDate: int,
    mine: bool,
    typeId: int,
    fileName: Option<string>)

  /** A history request: session id, page size and page number. */
  datatype PageRequest = PageRequest(sessionId: int, count: nat, page: int)

  /** What the attachment uploader reports to the view. */
  datatype UploadEvent =
    | Pending(filename: string)
    | Uploaded(message: Message)
    | UploadFailed(errorMsg: string, filename: string)
    | OtherStatus

  /** The state of one session kept while another session is shown. The avatar
      style is an opaque value computed outside the view. */
  datatype CacheEntry = CacheEntry(
    id: int,
    messages: seq<Message>,
    sessionEmpty: bool,
    initialGetMaxedOut: bool,
    messagesPage: int,
    noMoreToLoad: bool,
    recipientAbbrev: string,
    avatarStyle: string,
    messageText: string)

  // ---------------------------------------------------------------------------
  // The cache as a sequence of entries
  // ---------------------------------------------------------------------------

  predicate HasId(cache: seq<CacheEntry>, id: int) {
    exists j :: 0 <= j < |cache| && cache[j].id == id
  }

  /** At most one entry per session id. */
  ghost predicate IdsUnique(cache: seq<CacheEntry>) {
    forall i, j :: 0 <= i < j < |cache| ==> cache[i].id != cache[j].id
  }

  /** `cache.findIndex(x => x.id == id)`: the first index holding `id`, or -1. */
  function FindEntry(cache: seq<CacheEntry>, id: int): (i: int)
    ensures -1 <= i < |cache|
    ensures i == -1 <==> !HasId(cache, id)
    ensures 0 <= i ==> cache[i].id == id && forall j :: 0 <= j < i ==> cache[j].id != id
  {
    if cache == [] then -1
    else if cache[0].id == id then 0
    else
      var k := FindEntry(cache[1..], id);
      if k == -1 then -1 else k + 1
  }

  /** `cache.filter(x => x.id == id)`: empty exactly when no entry holds `id`. */
  function EntriesWithId(cache: seq<CacheEntry>, id: int): (r: seq<CacheEntry>)
    ensures |r| <= |cache|
    ensures r == [] <==> forall j :: 0 <= j < |cache| ==> cache[j].id != id
  {
    if cache == [] then []
    else
      var rest := EntriesWithId(cache[1..], id);
      assert forall j :: 1 <= j < |cache| ==> cache[j] == cache[1..][j - 1];
      if cache[0].id == id then [cache[0]] + rest else rest
  }

  /** The filter keeps exactly the entries holding `id`. */
  lemma {:induction false} EntriesWithIdMembers(cache: seq<CacheEntry>, id: int)
    ensures forall e :: e in EntriesWithId(cache, id) <==> e in cache && e.id == id
  {
    if cache != [] {
      EntriesWithIdMembers(cache[1..], id);
      assert forall e :: e in cache <==> e == cache[0] || e in cache[1..];
    }
  }

  /** Filtering commutes with concatenation, so the kept entries stay in cache order. */
  lemma {:induction false} EntriesWithIdAppend(a: seq<CacheEntry>, b: seq<CacheEntry>, id: int)
    ensures EntriesWithId(a + b, id) == EntriesWithId(a, id) + EntriesWithId(b, id)
  {
    if a == [] {
      assert a + b == b;
    } else {
      var ab := a + b;
      assert ab[0] == a[0] && ab[1..] == a[1..] + b;
      EntriesWithIdAppend(a[1..], b, id);
      var x, y := EntriesWithId(a[1..], id), EntriesWithId(b, id);
      if a[0].id == id {
        assert EntriesWithId(ab, id) == [a[0]] + (x + y);
        assert [a[0]] + (x + y) == ([a[0]] + x) + y;
      } else {
        assert EntriesWithId(ab, id) == x + y;
      }
    }
  }

  /** `cache.filter(x => x.id == id)[0]`: the entry for `id`, if any. */
  function Lookup(cache: seq<CacheEntry>, id: int): (r: Option<CacheEntry>)
    ensures r.None? <==> !HasId(cache, id)
    ensures r.Some? ==> r.value in cache && r.value.id == id
  {
    var found := EntriesWithId(cache, id);
    EntriesWithIdMembers(cache, id);
    if found == [] then None else Some(found[0])
  }

  /** The filter-based lookup and the findIndex-based search agree: both pick the first entry holding `id`. */
  lemma {:induction false} LookupIsFirstMatch(cache: seq<CacheEntry>, id: int)
    ensures var i := FindEntry(cache, id);
            Lookup(cache, id) == if i < 0 then None else Some(cache[i])
  {
    if cache != [] && cache[0].id != id {
      LookupIsFirstMatch(cache[1..], id);
    }
  }

  /** Find-then-replace-or-append, keyed by the entry's session id. */
  function Upsert(cache: seq<CacheEntry>, e: CacheEntry): (r: seq<CacheEntry>)
    ensures |r| == (if HasId(cache, e.id) then |cache| else |cache| + 1)
    ensures e in r
    ensures forall x :: x in r ==> x == e || x in cache
  {
    var i := FindEntry(cache, e.id);
    if i > -1 then
      assert cache[i := e][i] == e;
      cache[i := e]
    else
      assert (cache + [e])[|cache|] == e;
      cache + [e]
  }

  /** After an upsert the new entry is what a lookup of its id returns: caching then loading is a round trip. */
  lemma UpsertThenLookup(cache: seq<CacheEntry>, e: CacheEntry)
    ensures Lookup(Upsert(cache, e), e.id) == Some(e)
  {
    var r := Upsert(cache, e);
    var i := FindEntry(cache, e.id);
    LookupIsFirstMatch(r, e.id);
    if i < 0 {
      assert r[|cache|] == e;
    } else {
      assert r[i] == e;
    }
  }

  /** An upsert leaves the lookup of every other id as it was. */
  lemma UpsertKeepsOtherLookups(cache: seq<CacheEntry>, e: CacheEntry, id: int)
    requires id != e.id
    ensures Lookup(Upsert(cache, e), id) == Lookup(cache, id)
  {
    var r := Upsert(cache, e);
    LookupIsFirstMatch(r, id);
    LookupIsFirstMatch(cache, id);
    var k := FindEntry(cache, id);
    if k >= 0 {
      assert r[k] == cache[k];
      var kr := FindEntry(r, id);
      assert kr == k by {
        assert HasId(r, id);
      }
    } else {
      assert forall j :: 0 <= j < |r| ==> r[j].id != id by {
        forall j | 0 <= j < |r| ensures r[j].id != id {
          if j < |cache| && r[j] != e { assert r[j] == cache[j]; }
        }
      }
    }
  }

  /** The shape of an upsert: an existing entry is replaced at its own index, a new
      one is appended, and entries of other sessions stay where they were. */
  lemma UpsertShape(cache: seq<CacheEntry>, e: CacheEntry)
    ensures var r := Upsert(cache, e);
            && (HasId(cache, e.id) ==> r[FindEntry(cache, e.id)] == e)
            && (forall j :: 0 <= j < |cache| && cache[j].id != e.id ==> r[j] == cache[j])
            && (!HasId(cache, e.id) ==> r[|cache|] == e)
  {
  }

  /** An upsert keeps at most one entry per id, and the upserted id has exactly one. */
  lemma UpsertKeepsIdsUnique(cache: seq<CacheEntry>, e: CacheEntry)
    requires IdsUnique(cache)
    ensures IdsUnique(Upsert(cache, e))
    ensures forall j :: 0 <= j < |Upsert(cache, e)| && Upsert(cache, e)[j].id == e.id ==> Upsert(cache, e)[j] == e
  {
    var r := Upsert(cache, e);
    var i := FindEntry(cache, e.id);
    if i > -1 {
      forall a, b | 0 <= a < b < |r| ensures r[a].id != r[b].id {
        if a != i && b != i {
          assert r[a] == cache[a] && r[b] == cache[b];
        }
      }
    }
  }

  // ---------------------------------------------------------------------------
  // Message list helpers
  // ---------------------------------------------------------------------------

  /** `response.filter(x => !x.mine)`: the other party's messages, in order. */
  function FromRecipient(s: seq<Message>): (r: seq<Message>)
    ensures |r| <= |s|
    ensures forall i :: 0 <= i < |r| ==> !r[i].mine
  {
    if s == [] then []
    else (if s[0].mine then [] else [s[0]]) + FromRecipient(s[1..])
  }

  /** The filter keeps exactly the messages of `s` that are not `mine`. */
  lemma {:induction false} FromRecipientMembers(s: seq<Message>)
    ensures forall m :: m in FromRecipient(s) <==> m in s && !m.mine
  {
    if s != [] {
      FromRecipientMembers(s[1..]);
      assert forall m :: m in s <==> m == s[0] || m in s[1..];
    }
  }

  /** Filtering commutes with concatenation, so the filtered messages keep their relative order. */
  lemma {:induction false} FromRecipientAppend(a: seq<Message>, b: seq<Message>)
    ensures FromRecipient(a + b) == FromRecipient(a) + FromRecipient(b)
  {
    if a != [] {
      var ab := a + b;
      assert ab[0] == a[0] && ab[1..] == a[1..] + b;
      FromRecipientAppend(a[1..], b);
      var x, y := FromRecipient(a[1..]), FromRecipient(b);
      if a[0].mine {
        assert FromRecipient(ab) == x + y;
      } else {
        assert FromRecipient(ab) == [a[0]] + (x + y);
        assert [a[0]] + (x + y) == ([a[0]] + x) + y;
      }
    } else {
      assert a + b == b;
    }
  }

  /** A response holding only the other party's messages passes the filter whole. */
  lemma {:induction false} FromRecipientKeepsTheirs(s: seq<Message>)
    requires forall m :: m in s ==> !m.mine
    ensures FromRecipient(s) == s
  {
    if s != [] {
      FromRecipientKeepsTheirs(s[1..]);
    }
  }

  /** `recipName.substring(0, recipName.length < 2 ? 1 : 2).toUpperCase()`. */
  function GetRecipientAbbrev(recipName: string): (r: string)
    ensures |r| == (if |recipName| < 2 then |recipName| else 2)
    ensures forall i :: 0 <= i < |r| ==> r[i] == ToUpperChar(recipName[i])
  {
    ToUpperCase(Substring(recipName, 0, if |recipName| < 2 then 1 else 2))
  }

  /** The text after the last '.' of the attachment's file name is one of jpeg, jpg, png (case-sensitive). */
  function AttachmentIsImage(fileName: string): (b: bool)
    ensures b <==> HasExtension(fileName, "jpeg") || HasExtension(fileName, "jpg") || HasExtension(fileName, "png")
  {
    AfterLastDotIsExtension(fileName, "jpeg");
    AfterLastDotIsExtension(fileName, "jpg");
    AfterLastDotIsExtension(fileName, "png");
    var ext := AfterLastDot(fileName);
    ext == "jpeg" || ext == "jpg" || ext == "png"
  }

  // ---------------------------------------------------------------------------
  // The failed-send rollback: as written, and by identity
  // ---------------------------------------------------------------------------

  /** The send-failure rollback as written: `splice(0, 1)` drops whatever is at the head. */
  function DropHead(s: seq<Message>): (r: seq<Message>)
    ensures |r| == (if s == [] then 0 else |s| - 1)
    ensures forall j :: 0 <= j < |r| ==> r[j] == s[j + 1]
  {
    if s == [] then [] else s[1..]
  }

  /** When a poll prepended the other party's messages between the send and its failure,
      the head removal drops one of theirs and keeps the failed message. */
  lemma HeadRollbackDropsIncoming(before: seq<Message>, sent: Message, incoming: seq<Message>)
    requires sent.mine && incoming != [] && forall m :: m in incoming ==> !m.mine
    ensures var after := DropHead(incoming + [sent] + before);
            && multiset(after)[sent] == multiset(incoming + [sent] + before)[sent]
            && after != incoming + before
  {
    var s := incoming + [sent] + before;
    var after := DropHead(s);
    assert s == [incoming[0]] + after;
    assert multiset(s) == multiset{incoming[0]} + multiset(after);
    assert after[|incoming| - 1] == sent;
    assert (incoming + before)[|incoming| - 1] == incoming[|incoming| - 1];
  }

  /** Rolling back by identity: remove the first occurrence of the failed message. */
  function RemoveSent(s: seq<Message>, sent: Message): (r: seq<Message>)
    ensures sent in s ==> multiset(r) == multiset(s) - multiset{sent}
    ensures sent in s ==>
              exists k :: 0 <= k < |s| && s[k] == sent && sent !in s[..k] && r == s[..k] + s[k + 1..]
    ensures sent !in s ==> r == s
  {
    var i := IndexOf(s, sent);
    if i < 0 then s
    else
      assert s == s[..i] + [s[i]] + s[i + 1..];
      RemoveAt(s, i)
  }

  /** Removing by identity undoes exactly the optimistic insert, whatever was prepended since
      (the other party's messages or further sends of mine), as long as that is not the failed
      message itself. */
  lemma RemoveSentUndoesInsert(before: seq<Message>, sent: Message, incoming: seq<Message>)
    requires sent !in incoming
    ensures RemoveSent(incoming + [sent] + before, sent) == incoming + before
  {
    var s := incoming + [sent] + before;
    assert s[..|incoming|] == incoming;
    assert s[|incoming|] == sent;
    assert IndexOf(s, sent) == |incoming|;
    assert s[|incoming| + 1..] == before;
  }

  /** When a second message of mine was sent before the first one failed, the head removal
      drops the second message, which has not failed, and keeps the failed one; removing
      by identity drops the failed one. */
  lemma HeadRollbackDropsPendingSend(before: seq<Message>, failed: Message, pending: Message)
    requires failed != pending
    ensures DropHead([pending, failed] + before) == [failed] + before
    ensures RemoveSent([pending, failed] + before, failed) == [pending] + before
  {
    assert [pending, failed] + before == [pending] + [failed] + before;
    RemoveSentUndoesInsert(before, failed, [pending]);
  }

  // ---------------------------------------------------------------------------
  // The component
  // ---------------------------------------------------------------------------

  class SessionComponent {
    var session: Option<Session>
    var sessionMessages: seq<Message>
    var sessionMessageCache: seq<CacheEntry>
    var sessionEmpty: bool
    var recipientAbbrev: string
    var avatarStyle: string
    var messageText: string
    var loading: bool
    var messagesPage: int
    var noMoreToLoad: bool
    var initialGetMaxedOut: bool
    /** Whether the new-message timer is subscribed. */
    var polling: bool
    /** The optimistic attachment message awaiting its upload result. */
    var sessionMessageAttachment: Option<Message>

    ghost predicate Valid()
      reads this
    {
      IdsUnique(sessionMessageCache)
    }

    /** The current thread state, as `cacheSession` records it. */
    function Snapshot(): (e: CacheEntry)
      reads this
      requires session.Some?
      ensures e.id == session.value.id && e.messages == sessionMessages && e.messageText == messageText
      ensures e.messagesPage == messagesPage && e.noMoreToLoad == noMoreToLoad
    {
      CacheEntry(session.value.id, sessionMessages, sessionEmpty, initialGetMaxedOut,
                 messagesPage, noMoreToLoad, recipientAbbrev, avatarStyle, messageText)
    }

    constructor ()
      ensures Valid() && session.None? && sessionMessageCache == [] && !polling
      ensures sessionMessages == [] && messageText == "" && !loading && messagesPage == 1
      ensures !noMoreToLoad && initialGetMaxedOut && !sessionEmpty
    {
      session := None;
      sessionMessageCache := [];
      recipientAbbrev := "";
      avatarStyle := "";
      polling := false;
      sessionMessageAttachment := None;
      new;
      InitProperties();
    }

    /** The defaults of a freshly shown session. */
    method InitProperties()
      modifies this`sessionMessages, this`messageText, this`loading, this`messagesPage,
               this`noMoreToLoad, this`initialGetMaxedOut, this`sessionEmpty
      ensures sessionMessages == [] && messageText == "" && !loading && messagesPage == 1
      ensures !noMoreToLoad && initialGetMaxedOut && !sessionEmpty
    {
      sessionMessages := [];
      messageText := "";
      loading := false;
      messagesPage := 1;
      noMoreToLoad := false;
      initialGetMaxedOut := true;
      sessionEmpty := false;
    }

    /** The `session` input setter: cache the session being left, then show the new one. */
    method SetSession(value: Option<Session>, avatarStyleFor: string) returns (request: Option<PageRequest>)
      requires Valid()
      modifies this`session, this`sessionMessages, this`sessionMessageCache, this`sessionEmpty,
               this`recipientAbbrev, this`avatarStyle, this`messageText, this`loading,
               this`messagesPage, this`noMoreToLoad, this`initialGetMaxedOut, this`polling
      ensures Valid() && session == value
      ensures old(session).Some? ==> sessionMessageCache == Upsert(old(sessionMessageCache), old(Snapshot()))
      ensures old(session).None? ==> sessionMessageCache == old(sessionMessageCache)
      ensures value.Some? && HasId(sessionMessageCache, value.value.id) ==>
                Snapshot() == Lookup(sessionMessageCache, value.value.id).value
                && !loading && polling && request.None?
      ensures value.Some? && !HasId(sessionMessageCache, value.value.id) ==>
                sessionMessages == [] && messageText == "" && loading && messagesPage == 1
                && !noMoreToLoad && initialGetMaxedOut && !sessionEmpty
                && recipientAbbrev == GetRecipientAbbrev(value.value.recipientName)
                && avatarStyle == avatarStyleFor
                && polling == (old(polling) && old(session).None?)
                && request == Some(PageRequest(value.value.id, InitialGetCount, 1))
      ensures value.None? ==> request.None? && polling == (old(polling) && old(session).None?)
      ensures value.None? ==>
                sessionMessages == old(sessionMessages) && messageText == old(messageText)
                && loading == old(loading) && messagesPage == old(messagesPage)
                && noMoreToLoad == old(noMoreToLoad) && initialGetMaxedOut == old(initialGetMaxedOut)
                && sessionEmpty == old(sessionEmpty) && recipientAbbrev == old(recipientAbbrev)
                && avatarStyle == old(avatarStyle)
    {
      if session.Some? {
        UnloadSession();
      }
      session := value;
      request := None;
      if session.Some? {
        request := InitiateSession(avatarStyleFor);
      }
    }

    /** Stop polling and cache the session being left. */
    method UnloadSession()
      requires Valid() && session.Some?
      modifies this`polling, this`sessionMessageCache
      ensures Valid() && !polling
      ensures sessionMessageCache == Upsert(old(sessionMessageCache), Snapshot())
    {
      polling := false;
      CacheSession();
    }

    /** Record the current state under the session id, replacing an existing entry in place. */
    method CacheSession()
      requires Valid() && session.Some?
      modifies this`sessionMessageCache
      ensures Valid()
      ensures sessionMessageCache == Upsert(old(sessionMessageCache), Snapshot())
      ensures Lookup(sessionMessageCache, session.value.id) == Some(Snapshot())
    {
      var entry := Snapshot();
      var existingEntryIndex := FindEntry(sessionMessageCache, session.value.id);
      if existingEntryIndex > -1 {
        sessionMessageCache := sessionMessageCache[existingEntryIndex := entry];
      } else {
        sessionMessageCache := sessionMessageCache + [entry];
      }
      UpsertKeepsIdsUnique(old(sessionMessageCache), entry);
      UpsertThenLookup(old(sessionMessageCache), entry);
    }

    /** Reset, then restore from the cache or request the first page. */
    method InitiateSession(avatarStyleFor: string) returns (request: Option<PageRequest>)
      requires session.Some?
      modifies this`sessionMessages, this`messageText, this`loading, this`messagesPage,
               this`noMoreToLoad, this`initialGetMaxedOut, this`sessionEmpty,
               this`recipientAbbrev, this`avatarStyle, this`polling
      ensures HasId(sessionMessageCache, session.value.id) ==>
                Snapshot() == Lookup(sessionMessageCache, session.value.id).value
                && !loading && polling && request.None?
      ensures !HasId(sessionMessageCache, session.value.id) ==>
                sessionMessages == [] && messageText == "" && loading && messagesPage == 1
                && !noMoreToLoad && initialGetMaxedOut && !sessionEmpty
                && recipientAbbrev == GetRecipientAbbrev(session.value.recipientName)
                && avatarStyle == avatarStyleFor && polling == old(polling)
                && request == Some(PageRequest(session.value.id, InitialGetCount, messagesPage))
    {
      InitProperties();
      var found := LoadFromCache();
      if !found {
        loading := true;
        avatarStyle := avatarStyleFor;
        recipientAbbrev := GetRecipientAbbrev(session.value.recipientName);
        request := Some(PageRequest(session.value.id, InitialGetCount, messagesPage));
      } else {
        polling := true;
        request := None;
      }
    }

    /** Success callback of the first-page fetch. */
    method OnInitialMessages(response: seq<Message>)
      modifies this`loading, this`sessionMessages, this`sessionEmpty, this`initialGetMaxedOut, this`polling
      ensures !loading && sessionMessages == response && polling
      ensures sessionEmpty == (|response| == 0 || old(sessionEmpty))
      ensures initialGetMaxedOut == (|response| >= InitialGetCount && old(initialGetMaxedOut))
    {
      loading := false;
      sessionMessages := response;
      if |sessionMessages| == 0 {
        sessionEmpty := true;
        initialGetMaxedOut := false;
      } else if |sessionMessages| < InitialGetCount {
        initialGetMaxedOut := false;
      }
      polling := true;
    }

    /** Failure callback of the first-page fetch: only the spinner stops. */
    method OnInitialMessagesFailed()
      modifies this`loading
      ensures !loading
    {
      loading := false;
    }

    /** Restore the cached state of the current session, if there is one. */
    method LoadFromCache() returns (found: bool)
      requires session.Some?
      modifies this`sessionMessages, this`sessionEmpty, this`initialGetMaxedOut, this`messagesPage,
               this`noMoreToLoad, this`recipientAbbrev, this`avatarStyle, this`messageText
      ensures found <==> HasId(sessionMessageCache, session.value.id)
      ensures found ==> Snapshot() == Lookup(sessionMessageCache, session.value.id).value
      ensures !found ==> unchanged(this)
    {
      var existingEntry := Lookup(sessionMessageCache, session.value.id);
      if existingEntry.Some? {
        var e := existingEntry.value;
        sessionMessages := e.messages;
        sessionEmpty := e.sessionEmpty;
        initialGetMaxedOut := e.initialGetMaxedOut;
        messagesPage := e.messagesPage;
        noMoreToLoad := e.noMoreToLoad;
        recipientAbbrev := e.recipientAbbrev;
        avatarStyle := e.avatarStyle;
        messageText := e.messageText;
        found := true;
      } else {
        found := false;
      }
    }

    /** The cached message list of the current session, if it has been cached. */
    function GetSessionMessageCache(): (r: Option<seq<Message>>)
      reads this
      requires session.Some?
      ensures r.Some? <==> HasId(sessionMessageCache, session.value.id)
      ensures r.Some? ==> exists e :: e in sessionMessageCache && e.id == session.value.id && e.messages == r.value
    {
      var e := Lookup(sessionMessageCache, session.value.id);
      if e.Some? then Some(e.value.messages) else None
    }

    /** Send the typed text: trim it and, unless empty, insert it optimistically at the head. */
    method CreateMessage(now: int) returns (sent: Option<Message>)
      requires Trim(messageText) != [] ==> session.Some?
      modifies this`messageText, this`sessionMessages
      ensures var text := Trim(old(messageText));
              if text == [] then
                messageText == text && sessionMessages == old(sessionMessages) && sent.None?
              else
                && sent == Some(Message(None, session.value.id, Some(text), now, true, TextMessage, None))
                && sessionMessages == [sent.value] + old(sessionMessages)
                && messageText == ""
    {
      messageText := Trim(messageText);
      if |messageText| == 0 {
        sent := None;
        return;
      }
      var newMessage := InsertMessage(TextMessage, Some(messageText), None, now);
      messageText := "";
      sent := Some(newMessage);
    }

    /** Build a message of mine for the current session and put it at the head of the thread. */
    method InsertMessage(messageType: int, text: Option<string>, fileName: Option<string>, now: int)
      returns (m: Message)
      requires session.Some?
      modifies this`sessionMessages
      ensures m == Message(None, session.value.id, text, now, true, messageType, fileName)
      ensures sessionMessages == [m] + old(sessionMessages)
    {
      m := Message(None, session.value.id, text, now, true, messageType, fileName);
      sessionMessages := [m] + sessionMessages;
    }

    /** Success callback of a send: the confirmed message takes the optimistic one's place. */
    method OnMessageCreated(sent: Message, response: Message)
      requires sent in sessionMessages
      modifies this`sessionMessages
      ensures var i := IndexOf(old(sessionMessages), sent);
              && |sessionMessages| == |old(sessionMessages)|
              && sessionMessages[i] == response
              && forall j :: 0 <= j < |sessionMessages| && j != i ==> sessionMessages[j] == old(sessionMessages)[j]
    {
      sessionMessages := sessionMessages[IndexOf(sessionMessages, sent) := response];
    }

    /** Failure callback of a send: drop the head of the thread and put the text back in the input. */
    method OnMessageCreateFailed(sent: Message)
      requires sent.text.Some?
      modifies this`sessionMessages, this`messageText
      ensures sessionMessages == DropHead(old(sessionMessages))
      ensures messageText == sent.text.value
    {
      if |sessionMessages| > 0 {
        sessionMessages := sessionMessages[1..];
      }
      messageText := sent.text.value;
    }

    /** Poll callback: prepend the other party's new messages and report how many arrived. */
    method OnNewMessages(response: seq<Message>) returns (emitted: Option<nat>)
      modifies this`sessionMessages
      ensures FromRecipient(response) != [] ==>
                sessionMessages == FromRecipient(response) + old(sessionMessages)
                && emitted == Some(|FromRecipient(response)|)
      ensures FromRecipient(response) == [] ==> sessionMessages == old(sessionMessages) && emitted.None?
    {
      var onlyRecipMessages := FromRecipient(response);
      if |onlyRecipMessages| > 0 {
        sessionMessages := onlyRecipMessages + sessionMessages;
        emitted := Some(|onlyRecipMessages|);
      } else {
        emitted := None;
      }
    }

    /** The component is destroyed: stop polling. */
    method OnDestroy()
      modifies this`polling
      ensures !polling
    {
      polling := false;
    }

    /** "Load more": advance the page counter before asking for that page. */
    method LoadPreviousMessages() returns (request: PageRequest)
      requires session.Some?
      modifies this`loading, this`messagesPage
      ensures loading && messagesPage == old(messagesPage) + 1
      ensures request == PageRequest(session.value.id, InitialGetCount, messagesPage)
    {
      loading := true;
      messagesPage := messagesPage + 1;
      request := PageRequest(session.value.id, InitialGetCount, messagesPage);
    }

    /** Success callback of "load more": older messages go to the tail; a short page ends pagination. */
    method OnPreviousMessages(response: seq<Message>)
      modifies this`loading, this`noMoreToLoad, this`sessionMessages
      ensures !loading
      ensures noMoreToLoad == (old(noMoreToLoad) || |response| < InitialGetCount)
      ensures sessionMessages == old(sessionMessages) + response
    {
      loading := false;
      if |response| < InitialGetCount {
        noMoreToLoad := true;
      }
      sessionMessages := sessionMessages + response;
    }

    /** Failure callback of "load more": the page is not consumed. */
    method OnPreviousMessagesFailed()
      modifies this`loading, this`messagesPage
      ensures !loading && messagesPage == old(messagesPage) - 1
    {
      loading := false;
      messagesPage := messagesPage - 1;
    }

    /** Attachment upload status: optimistic insert, in-place confirmation, or removal and a toast. */
    method HandleFileUpload(event: UploadEvent, now: int) returns (toast: Option<string>)
      requires event.Pending? ==> session.Some?
      requires event.Uploaded? || event.UploadFailed? ==>
                 sessionMessageAttachment.Some? && sessionMessageAttachment.value in sessionMessages
      modifies this`sessionMessages, this`sessionMessageAttachment
      ensures event.Pending? ==>
                && sessionMessageAttachment == Some(Message(None, session.value.id, None, now, true, AttachmentMessage, Some(event.filename)))
                && sessionMessages == [sessionMessageAttachment.value] + old(sessionMessages)
                && toast.None?
      ensures event.Uploaded? ==>
                var i := IndexOf(old(sessionMessages), old(sessionMessageAttachment.value));
                && sessionMessages == old(sessionMessages)[i := event.message]
                && sessionMessageAttachment == old(sessionMessageAttachment) && toast.None?
      ensures event.UploadFailed? ==>
                var i := IndexOf(old(sessionMessages), old(sessionMessageAttachment.value));
                && sessionMessages == RemoveAt(old(sessionMessages), i)
                && sessionMessageAttachment == old(sessionMessageAttachment)
                && toast == Some(event.errorMsg)
      ensures event.OtherStatus? ==> unchanged(this) && toast.None?
    {
      toast := None;
      match event
      case Pending(filename) =>
        var m := InsertMessage(AttachmentMessage, None, Some(filename), now);
        sessionMessageAttachment := Some(m);
      case Uploaded(message) =>
        sessionMessages := sessionMessages[IndexOf(sessionMessages, sessionMessageAttachment.value) := message];
      case UploadFailed(errorMsg, _) =>
        sessionMessages := RemoveAt(sessionMessages, IndexOf(sessionMessages, sessionMessageAttachment.value));
        toast := Some(errorMsg);
      case OtherStatus =>
    }
  }

  // ---------------------------------------------------------------------------
  // Scenarios: what a caller can conclude from the contracts alone
  // ---------------------------------------------------------------------------

  /** Showing a session for the first time and receiving its first page applies the
      initial-fetch policy: empty iff no messages, maxed out iff a full page of 50. */
  method FirstOpen(c: SessionComponent, s: Session, style: string, response: seq<Message>)
    requires c.Valid() && !HasId(c.sessionMessageCache, s.id)
    requires c.session.Some? ==> c.session.value.id != s.id
    modifies c
    ensures c.Valid() && c.session == Some(s) && c.sessionMessages == response && !c.loading && c.polling
    ensures c.sessionEmpty <==> |response| == 0
    ensures c.initialGetMaxedOut <==> |response| >= InitialGetCount
    ensures c.messagesPage == 1 && !c.noMoreToLoad
  {
    if c.session.Some? {
      UpsertKeepsOtherLookups(c.sessionMessageCache, c.Snapshot(), s.id);
    }
    var request := c.SetSession(Some(s), style);
    c.OnInitialMessages(response);
  }

  /** Leaving session `a` for `b` and coming back to `a` restores `a`'s thread,
      pagination flags, abbreviation, avatar style and draft text. */
  method SwitchAwayAndBack(c: SessionComponent, a: Session, b: Session, styleA: string, styleB: string)
    requires c.Valid() && c.session == Some(a) && a.id != b.id
    modifies c
    ensures c.Valid() && c.session == Some(a) && c.polling && !c.loading
    ensures c.Snapshot() == old(c.Snapshot())
  {
    ghost var left := c.Snapshot();
    var r1 := c.SetSession(Some(b), styleB);
    UpsertThenLookup(old(c.sessionMessageCache), left);
    ghost var mid, shown := c.sessionMessageCache, c.Snapshot();
    var r2 := c.SetSession(Some(a), styleA);
    UpsertKeepsOtherLookups(mid, shown, a.id);
  }

  /** A "load more" whose request fails leaves the page counter as it was and changes
      nothing else but the spinner. */
  method LoadMoreFails(c: SessionComponent)
    requires c.session.Some?
    modifies c`loading, c`messagesPage
    ensures !c.loading
    ensures c.messagesPage == old(c.messagesPage) && c.sessionMessages == old(c.sessionMessages)
    ensures c.noMoreToLoad == old(c.noMoreToLoad) && c.sessionMessageCache == old(c.sessionMessageCache)
  {
    var request := c.LoadPreviousMessages();
    c.OnPreviousMessagesFailed();
  }
}
