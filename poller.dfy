/**
 * SnapWrap/snapchat.py: the polling engine, class Snapchat, built on the client of
 * SnapWrap/client/__init__.py. The server's answers (the login response, the update
 * response, the decrypted blobs, the friend lists) are parameters; one turn of the endless
 * loop of begin is one call of Begin.
 */
module Poller {
  import opened Common
  import Client
  import Snaps
  import Cycle

  /** `map(lambda fr: fr['name'], entries)`: every entry's 'name', in order; the first that cannot be read raises. */
  function NamesFrom(entries: seq<Value>): Result<seq<Value>>
  {
    if entries == [] then Ok([])
    else
      var name :- Get(entries[0], "name");
      var rest :- NamesFrom(entries[1..]);
      Ok([name] + rest)
  }

  /** Entries that each carry a 'name' give those names, one per entry and in order. */
  lemma {:induction false} NamesInOrder(entries: seq<Value>)
    requires forall i :: 0 <= i < |entries| ==> Get(entries[i], "name").Ok?
    ensures NamesFrom(entries).Ok? && |NamesFrom(entries).value| == |entries|
    ensures forall i :: 0 <= i < |entries| ==> NamesFrom(entries).value[i] == Get(entries[i], "name").value
  {
    if entries != [] {
      var rest := entries[1..];
      assert forall i :: 0 <= i < |rest| ==> rest[i] == entries[i + 1];
      NamesInOrder(rest);
    }
  }

  /**
   * The names under `key` of a friends section: a list is mapped entry by entry; any other
   * value gives no name when empty and otherwise raises TypeError, since it cannot be
   * iterated or its first element is a string that `fr['name']` cannot subscript. Names that
   * are not strings are outside the model and reported as TypeError.
   */
  function NamesOf(section: Value, key: string): Result<seq<string>>
  {
    var entries :- Get(section, key);
    var listed :- if entries.List? then Ok(entries.items)
                  else if IteratesNothing(entries) then Ok([])
                  else Err(TypeError);
    var names :- NamesFrom(listed);
    match Cycle.Strings(names)
    case None => Err(TypeError)
    case Some(strings) => Ok(strings)
  }

  /** What get_friends or get_added_me returns or raises for one update answer. */
  function FriendNames(answer: Value, key: string): Result<seq<string>>
  {
    var section :- Client.FriendsSection(answer);
    NamesOf(section, key)
  }

  /**
   * What __init__ ends with after the login check: the friends and the "added me" names of
   * the two update answers, or the exception that stops it.
   */
  function StartOutcome(loginResponse: Value, friendsAnswer: Value, addedAnswer: Value): Result<(seq<string>, seq<string>)>
  {
    match Cycle.StartError(loginResponse)
    case Some(e) => Err(e)
    case None =>
      var friends :- FriendNames(friendsAnswer, "friends");
      var addedMe :- FriendNames(addedAnswer, "added_friends");
      Ok((friends, addedMe))
  }

  class Snapchat {
    const username: Value
    const password: Value
    const client: Client.Snapchat
    /** The hooks the subclass defines. */
    const hooks: Cycle.Hooks
    var currentFriends: seq<string>
    /** The retained snapshot of the names that added the user. */
    var addedMe: seq<string>

    constructor (username: Value, password: Value, client: Client.Snapchat, friends: seq<string>, addedMe: seq<string>, hooks: Cycle.Hooks)
      ensures this.username == username && this.password == password && this.client == client
      ensures this.currentFriends == friends && this.addedMe == addedMe && this.hooks == hooks
    {
      this.username := username;
      this.password := password;
      this.client := client;
      this.currentFriends := friends;
      this.addedMe := addedMe;
      this.hooks := hooks;
    }

    /**
     * __init__: log in with a fresh client; a client left without user name and token ends
     * the program. Then get_friends and get_added_me each fetch an update answer, whose token
     * the client adopts, and read the names out of it.
     */
    static method Start(username: Value, password: Value, loginResponse: Value,
                        friendsAnswer: Value, addedAnswer: Value, hooks: Cycle.Hooks)
      returns (r: Result<Snapchat>)
      ensures r.Err? <==> StartOutcome(loginResponse, friendsAnswer, addedAnswer).Err?
      ensures r.Err? ==> r.error == StartOutcome(loginResponse, friendsAnswer, addedAnswer).error
      ensures r.Ok? ==> fresh(r.value) && fresh(r.value.client)
      ensures r.Ok? ==> r.value.username == username && r.value.password == password && r.value.hooks == hooks
      ensures r.Ok? ==> r.value.currentFriends == StartOutcome(loginResponse, friendsAnswer, addedAnswer).value.0
      ensures r.Ok? ==> r.value.addedMe == StartOutcome(loginResponse, friendsAnswer, addedAnswer).value.1
      ensures r.Ok? ==> r.value.client.username == Client.LoginOutcome(loginResponse).0.username
      ensures r.Ok? ==>
                var afterLogin := Client.LoginOutcome(loginResponse).0.authToken;
                r.value.client.authToken == Client.UpdatesOutcome(Client.UpdatesOutcome(afterLogin, friendsAnswer).0, addedAnswer).0
    {
      var client := new Client.Snapchat();
      var info := client.Login(loginResponse);
      if info.Err? {
        return Err(info.error);
      }
      var failed := Cycle.LoginCheck(Client.Session(client.username, client.authToken), info.value);
      if failed.Some? {
        return Err(failed.value);
      }
      var friends := Names(client, friendsAnswer, "friends");
      if friends.Err? {
        return Err(friends.error);
      }
      var addedMe := Names(client, addedAnswer, "added_friends");
      if addedMe.Err? {
        return Err(addedMe.error);
      }
      var engine := new Snapchat(username, password, client, friends.value, addedMe.value, hooks);
      r := Ok(engine);
    }

    /** get_friends (key "friends") or get_added_me (key "added_friends") on the given client. */
    static method Names(client: Client.Snapchat, answer: Value, key: string) returns (r: Result<seq<string>>)
      modifies client`authToken
      ensures client.authToken == Client.UpdatesOutcome(old(client.authToken), answer).0
      ensures r == FriendNames(answer, key)
    {
      var section := client.GetFriends(answer);
      if section.Err? {
        return Err(section.error);
      }
      r := NamesOf(section.value, key);
    }

    /**
     * get_snaps, given the update response and what decrypt makes of each snap's blob: the
     * client's records run through the shared pipeline, marking as the three flags say.
     */
    method GetSnaps(response: Value, decrypted: Value -> Bytes, markViewed: bool, markScreenshotted: bool,
                    markReplayed: bool, tempStem: nat -> string)
      returns (r: Result<seq<Snaps.Snap>>, calls: seq<Cycle.Call>)
      modifies client`authToken
      ensures client.authToken == Client.UpdatesOutcome(old(client.authToken), response).0
      ensures var fetched := Client.SnapsOutcome(old(client.authToken), response);
        && (fetched.Err? ==> r == Err(fetched.error) && calls == [])
        && (fetched.Ok? ==> r.Ok? && Cycle.AllReadable(fetched.value))
        && (fetched.Ok? ==>
              var policy := Cycle.ClientMarks(markViewed, markScreenshotted, markReplayed);
              calls == Cycle.PipelineCalls(fetched.value, Client.GetBlob(decrypted), policy) &&
              Cycle.Holds(r.value, Cycle.Kept(fetched.value, Client.GetBlob(decrypted)), tempStem))
    {
      var records := client.GetSnaps(response);
      if records.Err? {
        return Err(records.error), [];
      }
      Cycle.MappedReadable(records.value);
      var snaps;
      snaps, calls := Cycle.CollectSnaps(records.value, Client.GetBlob(decrypted),
                                         Cycle.ClientMarks(markViewed, markScreenshotted, markReplayed), tempStem);
      r := Ok(snaps);
    }

    /**
     * One turn of begin: collect the snaps and run on_snap for each, then get_added_me on
     * the update answer `addedAnswer`, diff the names against the retained snapshot, replace
     * the snapshot, and run on_friend_add and on_friend_delete for the names of each diff
     * set, in the order returned. `r` is the exception that ends begin, if any: one from
     * get_snaps ends the turn before anything else happens.
     */
    method Begin(response: Value, decrypted: Value -> Bytes, markViewed: bool, markScreenshotted: bool,
                 markReplayed: bool, tempStem: nat -> string, addedAnswer: Value)
      returns (r: Option<Error>, snaps: seq<Snaps.Snap>, calls: seq<Cycle.Call>,
               addedOrder: seq<string>, deletedOrder: seq<string>)
      modifies client`authToken, this`addedMe
      ensures var fetched := Client.SnapsOutcome(old(client.authToken), response);
              var token := Client.UpdatesOutcome(old(client.authToken), response).0;
        && (fetched.Err? ==> r == Some(fetched.error) && calls == [] && addedMe == old(addedMe) && client.authToken == token)
        && (fetched.Ok? ==> Cycle.AllReadable(fetched.value) && client.authToken == Client.UpdatesOutcome(token, addedAnswer).0)
        && (fetched.Ok? ==>
              var current := FriendNames(addedAnswer, "added_friends");
              && (current.Err? ==> r == Some(current.error) && addedMe == old(addedMe))
              && (current.Ok? ==> r.None? && addedMe == current.value))
        && (fetched.Ok? ==>
              var blob := Client.GetBlob(decrypted);
              var kept := Cycle.Kept(fetched.value, blob);
              Cycle.Holds(snaps, kept, tempStem) &&
              calls == Cycle.PipelineCalls(fetched.value, blob, Cycle.ClientMarks(markViewed, markScreenshotted, markReplayed))
                       + (if hooks.onSnap then Cycle.SnapHookCalls(kept, snaps) else [])
                       + (if r.None? then Cycle.FriendHookCalls(hooks, addedOrder, deletedOrder, addedMe) else []))
      ensures r.None? ==> (forall x :: x in addedOrder <==> x in addedMe && x !in old(addedMe)) && Cycle.Distinct(addedOrder)
      ensures r.None? ==> (forall x :: x in deletedOrder <==> x in old(addedMe) && x !in addedMe) && Cycle.Distinct(deletedOrder)
    {
      var fetched, snapCalls := SnapTurn(response, decrypted, markViewed, markScreenshotted, markReplayed, tempStem);
      if fetched.Err? {
        return Some(fetched.error), [], [], [], [];
      }
      snaps := fetched.value;
      var onFriends;
      r, addedOrder, deletedOrder, onFriends := FriendTurn(addedAnswer);
      calls := snapCalls + onFriends;
    }

    /** The snap half of a turn of begin: get_snaps, then on_snap for each snap it returns. */
    method SnapTurn(response: Value, decrypted: Value -> Bytes, markViewed: bool, markScreenshotted: bool,
                    markReplayed: bool, tempStem: nat -> string)
      returns (r: Result<seq<Snaps.Snap>>, calls: seq<Cycle.Call>)
      modifies client`authToken
      ensures client.authToken == Client.UpdatesOutcome(old(client.authToken), response).0
      ensures var fetched := Client.SnapsOutcome(old(client.authToken), response);
        && (fetched.Err? ==> r == Err(fetched.error) && calls == [])
        && (fetched.Ok? ==> r.Ok? && Cycle.AllReadable(fetched.value))
        && (fetched.Ok? ==>
              var blob := Client.GetBlob(decrypted);
              var kept := Cycle.Kept(fetched.value, blob);
              Cycle.Holds(r.value, kept, tempStem) &&
              calls == Cycle.PipelineCalls(fetched.value, blob, Cycle.ClientMarks(markViewed, markScreenshotted, markReplayed))
                       + (if hooks.onSnap then Cycle.SnapHookCalls(kept, r.value) else []))
    {
      var pipeline;
      r, pipeline := GetSnaps(response, decrypted, markViewed, markScreenshotted, markReplayed, tempStem);
      if r.Err? {
        return r, [];
      }
      ghost var kept := Cycle.Kept(Client.SnapsOutcome(old(client.authToken), response).value, Client.GetBlob(decrypted));
      var onSnap := [];
      if hooks.onSnap {
        onSnap := Cycle.DispatchSnapHooks(kept, r.value, tempStem);
      }
      calls := pipeline + onSnap;
    }

    /**
     * The friend half of a turn of begin: get_added_me, the diff of its names against the
     * retained snapshot, the snapshot replaced, then the hooks for each name of each diff
     * set. The hooks therefore see the new snapshot.
     */
    method FriendTurn(addedAnswer: Value)
      returns (err: Option<Error>, addedOrder: seq<string>, deletedOrder: seq<string>, calls: seq<Cycle.Call>)
      modifies client`authToken, this`addedMe
      ensures client.authToken == Client.UpdatesOutcome(old(client.authToken), addedAnswer).0
      ensures var current := FriendNames(addedAnswer, "added_friends");
        && (current.Err? ==> err == Some(current.error) && addedMe == old(addedMe) && calls == [])
        && (current.Ok? ==> err.None? && addedMe == current.value)
      ensures err.None? ==> (forall x :: x in addedOrder <==> x in addedMe && x !in old(addedMe)) && Cycle.Distinct(addedOrder)
      ensures err.None? ==> (forall x :: x in deletedOrder <==> x in old(addedMe) && x !in addedMe) && Cycle.Distinct(deletedOrder)
      ensures err.None? ==> calls == Cycle.FriendHookCalls(hooks, addedOrder, deletedOrder, addedMe)
    {
      var current := Names(client, addedAnswer, "added_friends");
      if current.Err? {
        return Some(current.error), [], [], [];
      }
      var diff := Cycle.FriendDiff(addedMe, current.value);
      addedMe := current.value;
      addedOrder, deletedOrder, calls := Cycle.FriendHooks(diff, hooks, addedMe);
      err := None;
    }

    /**
     * post_story: upload first unless uploaded, then the client's send_to_story, which reads
     * the snap's sender for the caption before it sends the request, and the story id out
     * of its answer. Everything after the upload sits in a try that swallows every
     * exception, so a snap without a sender sends nothing, and a failed answer or an
     * unreadable id leaves story_id alone.
     */
    method PostStory(snap: Snaps.Snap, uploadOutcome: Result<Value>, answer: Result<Value>)
      returns (err: Option<Error>, calls: seq<Cycle.Call>)
      requires snap.Valid()
      modifies snap
      ensures snap.Valid()
      ensures err.Some? <==> !old(snap.uploaded) && uploadOutcome.Err?
      ensures err.Some? ==> err == Some(uploadOutcome.error) && calls == [] && snap.State() == old(snap.State())
      ensures err.None? ==> snap.uploaded
      ensures err.None? && !old(snap.uploaded) ==> snap.mediaId == Some(uploadOutcome.value)
      ensures err.None? && old(snap.uploaded) ==> snap.mediaId == old(snap.mediaId)
      ensures err.None? && snap.sender.None? ==> calls == [] && snap.storyId == old(snap.storyId)
      ensures err.None? && snap.sender.Some? ==>
                && calls == [Cycle.PostToStory(snap.sender.value, snap.mediaId.value, snap.duration, snap.mediaType)]
                && snap.storyId == (if answer.Ok? && Cycle.StoryIdFrom(answer.value).Ok?
                                    then Cycle.StoryIdFrom(answer.value).value else old(snap.storyId))
      ensures err.None? ==> snap.State().(uploaded := false, mediaId := None, storyId := Null)
                            == old(snap.State()).(uploaded := false, mediaId := None, storyId := Null)
    {
      calls := [];
      if !snap.uploaded {
        err := snap.Upload(uploadOutcome);
        if err.Some? {
          return;
        }
      }
      err := None;
      if snap.sender.None? {
        return;
      }
      calls := [Cycle.PostToStory(snap.sender.value, snap.mediaId.value, snap.duration, snap.mediaType)];
      if answer.Ok? {
        var id := Cycle.StoryIdFrom(answer.value);
        if id.Ok? {
          snap.storyId := id.value;
        }
      }
    }

    /**
     * delete_story hands the story id to the client's delete_story, which returns at once
     * for None and otherwise reaches for an attribute the client does not have.
     */
    method DeleteStory(snap: Snaps.Snap) returns (err: Option<Error>)
      ensures err.None? <==> snap.storyId == Null
      ensures err.Some? ==> err.value == AttributeError
    {
      if snap.storyId == Null {
        return None;
      }
      err := Some(AttributeError);
    }
  }
}
