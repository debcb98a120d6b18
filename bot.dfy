/**
 * SnapWrap/bot.py: the bot engine, class SnapchatBot. Its client comes from a package that
 * is not part of this model, so what that client answers (its session after login, the
 * records of get_snaps, the blobs, the upload and story answers, the friend lists) is given
 * as parameters. One turn of the endless loop of listen is one call of Listen.
 */
module Bot {
  import opened Common
  import Client
  import Snaps
  import Cycle

  class SnapchatBot {
    const username: Value
    const password: Value
    /** The hooks the subclass defines. */
    const hooks: Cycle.Hooks
    var currentFriends: seq<string>
    /** The retained snapshot of the names that added the bot. */
    var addedMe: seq<string>

    constructor (username: Value, password: Value, friends: seq<string>, addedMe: seq<string>, hooks: Cycle.Hooks)
      ensures this.username == username && this.password == password && this.hooks == hooks
      ensures this.currentFriends == friends && this.addedMe == addedMe
    {
      this.username := username;
      this.password := password;
      this.currentFriends := friends;
      this.addedMe := addedMe;
      this.hooks := hooks;
    }

    /**
     * __init__, given the client's user name and token after its login and the result the
     * login returned: a client left with neither ends the program.
     */
    static method Start(username: Value, password: Value, session: Client.Session, result: Value,
                        friends: seq<string>, addedMe: seq<string>, hooks: Cycle.Hooks)
      returns (r: Result<SnapchatBot>)
      ensures r.Err? <==> session.username == Null && session.authToken == Null
      ensures r.Err? ==> r.error == Cycle.LoginCheck(session, result).value
      ensures r.Ok? ==> fresh(r.value)
      ensures r.Ok? ==> r.value.username == username && r.value.password == password && r.value.hooks == hooks
      ensures r.Ok? ==> r.value.currentFriends == friends && r.value.addedMe == addedMe
    {
      var failed := Cycle.LoginCheck(session, result);
      if failed.Some? {
        return Err(failed.value);
      }
      var bot := new SnapchatBot(username, password, friends, addedMe, hooks);
      r := Ok(bot);
    }

    /**
     * get_snaps, given the client's records and its get_blob answers: the shared pipeline,
     * each kept snap marked viewed through the bot's own mark_viewed when the flag is set.
     */
    method GetSnaps(records: seq<Client.Record>, blob: Value -> Option<Bytes>, markViewed: bool, tempStem: nat -> string)
      returns (snaps: seq<Snaps.Snap>, calls: seq<Cycle.Call>)
      requires Cycle.AllReadable(records)
      ensures calls == Cycle.PipelineCalls(records, blob, Cycle.BotMarks(markViewed))
      ensures Cycle.Holds(snaps, Cycle.Kept(records, blob), tempStem)
    {
      snaps, calls := Cycle.CollectSnaps(records, blob, Cycle.BotMarks(markViewed), tempStem);
    }

    /**
     * One turn of listen: get_snaps with marking on, on_snap for each snap, then the friend
     * diff against the retained snapshot, the snapshot replaced, and the friend hooks.
     */
    method Listen(records: seq<Client.Record>, blob: Value -> Option<Bytes>, tempStem: nat -> string, current: seq<string>)
      returns (snaps: seq<Snaps.Snap>, calls: seq<Cycle.Call>, addedOrder: seq<string>, deletedOrder: seq<string>)
      requires Cycle.AllReadable(records)
      modifies this`addedMe
      ensures addedMe == current
      ensures Cycle.Holds(snaps, Cycle.Kept(records, blob), tempStem)
      ensures calls == Cycle.PipelineCalls(records, blob, Cycle.BotMarks(true))
                       + (if hooks.onSnap then Cycle.SnapHookCalls(Cycle.Kept(records, blob), snaps) else [])
                       + Cycle.FriendHookCalls(hooks, addedOrder, deletedOrder, current)
      ensures (forall x :: x in addedOrder <==> x in current && x !in old(addedMe)) && Cycle.Distinct(addedOrder)
      ensures (forall x :: x in deletedOrder <==> x in old(addedMe) && x !in current) && Cycle.Distinct(deletedOrder)
    {
      snaps, calls := GetSnaps(records, blob, true, tempStem);
      var onSnap := [];
      if hooks.onSnap {
        onSnap := Cycle.DispatchSnapHooks(Cycle.Kept(records, blob), snaps, tempStem);
      }
      calls := calls + onSnap;
      var onFriends;
      addedOrder, deletedOrder, onFriends := FriendTurn(current);
      calls := calls + onFriends;
    }

    /** The friend half of a turn of listen: the snapshot is replaced before the hooks run. */
    method FriendTurn(current: seq<string>) returns (addedOrder: seq<string>, deletedOrder: seq<string>, calls: seq<Cycle.Call>)
      modifies this`addedMe
      ensures addedMe == current
      ensures (forall x :: x in addedOrder <==> x in current && x !in old(addedMe)) && Cycle.Distinct(addedOrder)
      ensures (forall x :: x in deletedOrder <==> x in old(addedMe) && x !in current) && Cycle.Distinct(deletedOrder)
      ensures calls == Cycle.FriendHookCalls(hooks, addedOrder, deletedOrder, current)
    {
      var diff := Cycle.FriendDiff(addedMe, current);
      addedMe := current;
      addedOrder, deletedOrder, calls := Cycle.FriendHooks(diff, hooks, addedMe);
    }

    /**
     * post_story: upload first unless uploaded, then send_to_story with the media id,
     * duration and media type, whose exception stops it; only reading the story id out of
     * the answer sits in a try that swallows every exception.
     */
    method PostStory(snap: Snaps.Snap, uploadOutcome: Result<Value>, answer: Result<Value>)
      returns (err: Option<Error>, calls: seq<Cycle.Call>)
      requires snap.Valid()
      modifies snap
      ensures snap.Valid()
      ensures !old(snap.uploaded) && uploadOutcome.Err? ==>
                err == Some(uploadOutcome.error) && calls == [] && snap.State() == old(snap.State())
      ensures old(snap.uploaded) || uploadOutcome.Ok? ==>
                snap.uploaded && calls == [Cycle.SendToStory(snap.mediaId.value, snap.duration, snap.mediaType)]
      ensures !old(snap.uploaded) && uploadOutcome.Ok? ==> snap.mediaId == Some(uploadOutcome.value)
      ensures old(snap.uploaded) ==> snap.mediaId == old(snap.mediaId)
      ensures (old(snap.uploaded) || uploadOutcome.Ok?) && answer.Err? ==>
                err == Some(answer.error) && snap.storyId == old(snap.storyId)
      ensures (old(snap.uploaded) || uploadOutcome.Ok?) && answer.Ok? ==>
                err.None? &&
                snap.storyId == (if Cycle.StoryIdFrom(answer.value).Ok? then Cycle.StoryIdFrom(answer.value).value else old(snap.storyId))
      ensures snap.State().(uploaded := false, mediaId := None, storyId := Null)
              == old(snap.State()).(uploaded := false, mediaId := None, storyId := Null)
    {
      calls := [];
      if !snap.uploaded {
        err := snap.Upload(uploadOutcome);
        if err.Some? {
          return;
        }
      }
      calls := [Cycle.SendToStory(snap.mediaId.value, snap.duration, snap.mediaType)];
      if answer.Err? {
        return Some(answer.error), calls;
      }
      err := None;
      var id := Cycle.StoryIdFrom(answer.value);
      if id.Ok? {
        snap.storyId := id.value;
      }
    }

    /** delete_story: nothing for a snap without a story id, otherwise the delete_story request. */
    method DeleteStory(snap: Snaps.Snap) returns (calls: seq<Cycle.Call>)
      ensures snap.storyId == Null ==> calls == []
      ensures snap.storyId != Null ==> calls == [Cycle.DeleteStory(username, snap.storyId)]
    {
      if snap.storyId == Null {
        return [];
      }
      calls := [Cycle.DeleteStory(username, snap.storyId)];
    }
  }
}
