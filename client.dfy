/**
 * The low-level client of SnapWrap/client/__init__.py: payload sniffing, the mapping of
 * transport records, the validity rule for downloaded blobs, the upload result rule, and the
 * session object whose auth token is adopted from responses. Network responses, the
 * decryption of blobs and the generated media ids are parameters.
 */
module Client {
  import opened Common

  // ---------------------------------------------------------------------------------------
  // Payload sniffing

  /** A video container starts with the bytes 00 00. */
  predicate IsVideo(data: Bytes)
  {
    |data| > 1 && data[..2] == [0x00, 0x00]
  }

  /** A JPEG image starts with the bytes FF D8. */
  predicate IsImage(data: Bytes)
  {
    |data| > 1 && data[..2] == [0xFF, 0xD8]
  }

  /** A zip archive starts with the bytes 'P' 'K'. */
  predicate IsZip(data: Bytes)
  {
    |data| > 1 && data[..2] == [0x50, 0x4B]
  }

  /** The three markers differ pairwise, so no payload is of two kinds. */
  lemma SniffersExclusive(data: Bytes)
    ensures !(IsVideo(data) && IsImage(data))
    ensures !(IsVideo(data) && IsZip(data))
    ensures !(IsImage(data) && IsZip(data))
  {
  }

  /** Each sniffer looks at exactly the first two bytes; shorter payloads are of no kind. */
  lemma SniffersReadTwoBytes(data: Bytes)
    ensures IsVideo(data) <==> |data| >= 2 && data[0] == 0x00 && data[1] == 0x00
    ensures IsImage(data) <==> |data| >= 2 && data[0] == 0xFF && data[1] == 0xD8
    ensures IsZip(data) <==> |data| >= 2 && data[0] == 0x50 && data[1] == 0x4B
    ensures |data| < 2 ==> !IsVideo(data) && !IsImage(data) && !IsZip(data)
  {
    if |data| >= 2 {
      assert data[..2] == [data[0], data[1]];
    }
  }

  /** The media type of a payload: video is tried first, then image; a zip has none. */
  function GetMediaType(data: Bytes): (r: Option<int>)
    ensures r == Some(MediaTypeVideo) <==> IsVideo(data)
    ensures r == Some(MediaTypeImage) <==> IsImage(data)
    ensures r == None <==> !IsVideo(data) && !IsImage(data)
    ensures IsZip(data) ==> r == None
  {
    if IsVideo(data) then Some(MediaTypeVideo)
    else if IsImage(data) then Some(MediaTypeImage)
    else None
  }

  /** The extension (without a dot) under which a media type is stored. */
  function GetFileExtension(mediaType: Value): (r: string)
    ensures r == "mp4" <==> PyEq(mediaType, MediaTypeVideo) || PyEq(mediaType, MediaTypeVideoNoAudio)
    ensures r == "jpg" <==> PyEq(mediaType, MediaTypeImage)
    ensures r == "" <==> !PyEq(mediaType, MediaTypeVideo) && !PyEq(mediaType, MediaTypeVideoNoAudio)
                         && !PyEq(mediaType, MediaTypeImage)
  {
    if PyEq(mediaType, MediaTypeVideo) || PyEq(mediaType, MediaTypeVideoNoAudio) then "mp4"
    else if PyEq(mediaType, MediaTypeImage) then "jpg"
    else ""
  }

  /**
   * What get_blob and get_story_blob return for the decrypted payload: the payload itself
   * when it is a video, an image or a zip, and None otherwise.
   */
  function AcceptBlob(decrypted: Bytes): (r: Option<Bytes>)
    ensures r.Some? <==> IsImage(decrypted) || IsVideo(decrypted) || IsZip(decrypted)
    ensures r.Some? ==> r.value == decrypted && |r.value| >= 2
  {
    if IsImage(decrypted) || IsVideo(decrypted) || IsZip(decrypted) then Some(decrypted) else None
  }

  /** get_blob as a function of the snap id, given what decrypt makes of each id's payload. */
  function GetBlob(decrypted: Value -> Bytes): Value -> Option<Bytes>
  {
    id => AcceptBlob(decrypted(id))
  }

  /** An accepted blob is either a payload with a media type or a zip archive, never both. */
  lemma AcceptedBlobKinds(decrypted: Bytes)
    requires AcceptBlob(decrypted).Some?
    ensures GetMediaType(decrypted).Some? != IsZip(decrypted)
  {
  }

  /**
   * What `upload` returns: ValueError when the file does not exist or its contents have no
   * media type (a zip included); otherwise the generated media id when the server answered
   * with an empty body, and None when it answered with anything else.
   */
  function UploadResult(pathExists: bool, data: Bytes, mediaId: string, responseBody: Bytes): (r: Result<Value>)
    ensures r.Err? <==> !pathExists || GetMediaType(data).None?
    ensures r.Err? ==> r.error == ValueError
    ensures r.Ok? ==> (r.value == Str(mediaId) <==> |responseBody| == 0)
    ensures r.Ok? && |responseBody| != 0 ==> r.value == Null
  {
    if !pathExists then Err(ValueError)
    else if GetMediaType(data).None? then Err(ValueError)
    else if |responseBody| == 0 then Ok(Str(mediaId))
    else Ok(Null)
  }

  /** A zip archive is never uploaded. */
  lemma ZipNeverUploads(pathExists: bool, data: Bytes, mediaId: string, responseBody: Bytes)
    requires IsZip(data)
    ensures UploadResult(pathExists, data, mediaId, responseBody) == Err(ValueError)
  {
  }

  // ---------------------------------------------------------------------------------------
  // Record mapping

  type Record = map<string, Value>

  /** The transport alias each mapped key is read from, for every key but recipient. */
  const Aliases: map<string, string> :=
    map["id" := "id", "media_id" := "c_id", "media_type" := "m", "time" := "t", "sender" := "sn",
        "status" := "st", "screenshot_count" := "c", "sent" := "sts", "opened" := "ts"]

  /** The ten keys of a mapped record. */
  const RecordKeys: set<string> := Aliases.Keys + {"recipient"}

  /** `snap[key] if key in snap else None`. */
  function Lookup(snap: Record, key: string): Value
  {
    if key in snap then snap[key] else Null
  }

  /**
   * _map_keys: every alias present is copied, every alias missing becomes None. The recipient
   * is guarded by the empty key: it is None unless '' is present, and then 'rp' must be
   * present too, or the lookup raises KeyError.
   */
  function MapKeys(snap: Record): (r: Result<Record>)
    ensures r.Err? <==> "" in snap && "rp" !in snap
    ensures r.Err? ==> r.error == KeyError(Str("rp"))
    ensures r.Ok? ==> r.value.Keys == RecordKeys
    ensures r.Ok? ==> forall k :: k in Aliases ==> r.value[k] == Lookup(snap, Aliases[k])
    ensures r.Ok? ==> r.value["recipient"] == (if "" in snap then snap["rp"] else Null)
  {
    if "" in snap && "rp" !in snap then Err(KeyError(Str("rp")))
    else
      var copied := map k | k in Aliases :: Lookup(snap, Aliases[k]);
      Ok(copied["recipient" := if "" in snap then snap["rp"] else Null])
  }

  /** A record carrying 'rp' but not the empty key gets no recipient. */
  lemma RecipientIgnoresRp(snap: Record)
    requires "rp" in snap && "" !in snap
    ensures MapKeys(snap).Ok? && MapKeys(snap).value["recipient"] == Null
  {
  }

  /** The pending records that have no 'c_id', in their original order. */
  function Unclaimed(pending: seq<Record>): (r: seq<Record>)
    ensures |r| <= |pending|
    ensures forall i :: 0 <= i < |r| ==> "c_id" !in r[i] && r[i] in pending
    ensures forall i :: 0 <= i < |pending| && "c_id" !in pending[i] ==> pending[i] in r
  {
    if pending == [] then []
    else if "c_id" in pending[0] then Unclaimed(pending[1..])
    else [pending[0]] + Unclaimed(pending[1..])
  }

  /**
   * The filter keeps the records in their original order, once each: it distributes over
   * concatenation and keeps a single record exactly when that record has no 'c_id'.
   */
  lemma {:induction false} UnclaimedInOrder(a: seq<Record>, b: seq<Record>, rec: Record)
    ensures Unclaimed(a + b) == Unclaimed(a) + Unclaimed(b)
    ensures Unclaimed([rec]) == if "c_id" in rec then [] else [rec]
    decreases |a|
  {
    if a == [] {
      assert a + b == b;
    } else {
      assert (a + b)[1..] == a[1..] + b;
      UnclaimedInOrder(a[1..], b, rec);
    }
    assert [rec][1..] == [];
  }

  /**
   * The comprehension in get_snaps: _map_keys over the pending records without 'c_id', in
   * order; the first record whose mapping raises makes the whole call raise.
   */
  function MapPending(pending: seq<Record>): (r: Result<seq<Record>>)
    ensures r.Ok? ==> |r.value| <= |pending|
    ensures r.Ok? ==> forall i :: 0 <= i < |r.value| ==>
                        r.value[i].Keys == RecordKeys && r.value[i]["media_id"] == Null
  {
    if pending == [] then Ok([])
    else if "c_id" in pending[0] then MapPending(pending[1..])
    else
      var head :- MapKeys(pending[0]);
      var tail :- MapPending(pending[1..]);
      Ok([head] + tail)
  }

  /** _map_keys over every record, in order; the first record whose mapping raises wins. */
  function MapAll(records: seq<Record>): Result<seq<Record>>
  {
    if records == [] then Ok([])
    else
      var head :- MapKeys(records[0]);
      var tail :- MapAll(records[1..]);
      Ok([head] + tail)
  }

  /** get_snaps first drops the records with 'c_id', then maps the others. */
  lemma {:induction false} MapPendingFiltersThenMaps(pending: seq<Record>)
    ensures MapPending(pending) == MapAll(Unclaimed(pending))
  {
    if pending != [] {
      MapPendingFiltersThenMaps(pending[1..]);
      if "c_id" !in pending[0] {
        assert Unclaimed(pending)[0] == pending[0];
        assert Unclaimed(pending)[1..] == Unclaimed(pending[1..]);
      }
    }
  }

  /** Mapping succeeds exactly when every record maps. */
  lemma {:induction false} MapAllSucceeds(records: seq<Record>)
    ensures MapAll(records).Ok? <==> forall i :: 0 <= i < |records| ==> MapKeys(records[i]).Ok?
  {
    if records != [] {
      var tail := records[1..];
      MapAllSucceeds(tail);
      assert forall i :: 0 <= i < |tail| ==> tail[i] == records[i + 1];
      assert records == [records[0]] + tail;
    }
  }

  /** A successful mapping maps the records one to one and in order. */
  lemma {:induction false} MapAllPointwise(records: seq<Record>)
    ensures MapAll(records).Ok? ==>
              |MapAll(records).value| == |records| &&
              forall i :: 0 <= i < |records| ==> MapKeys(records[i]).Ok? && MapAll(records).value[i] == MapKeys(records[i]).value
  {
    if records != [] && MapAll(records).Ok? {
      var tail := records[1..];
      MapAllPointwise(tail);
      assert MapAll(records).value == [MapKeys(records[0]).value] + MapAll(tail).value;
      assert forall i :: 0 <= i < |tail| ==> tail[i] == records[i + 1];
    }
  }

  // ---------------------------------------------------------------------------------------
  // Responses

  /** `if key in container: current = container[key]`. */
  function Adopt(current: Value, container: Value, key: string): Result<Value>
  {
    match Contains(container, key)
    case Err(e) => Err(e)
    case Ok(present) => if present then Get(container, key) else Ok(current)
  }

  /** The session fields of the client. */
  datatype Session = Session(username: Value, authToken: Value)

  /**
   * login after the request: both fields are reset first; a response carrying "status" is
   * returned as it is; otherwise the token and then the user name of updates_response are
   * adopted when present.
   */
  function LoginOutcome(response: Value): (Session, Result<Value>)
  {
    var reset := Session(Null, Null);
    match Contains(response, "status")
    case Err(e) => (reset, Err(e))
    case Ok(failed) =>
      if failed then (reset, Ok(response))
      else match Get(response, "updates_response")
        case Err(e) => (reset, Err(e))
        case Ok(updates) =>
          match Adopt(Null, updates, "auth_token")
          case Err(e) => (reset, Err(e))
          case Ok(token) =>
            match Adopt(Null, updates, "username")
            case Err(e) => (Session(Null, token), Err(e))
            case Ok(user) => (Session(user, token), Ok(response))
  }

  /** A login response with "status" leaves the session reset and is handed back. */
  lemma LoginStatusLeavesReset(response: Value)
    requires response.Object? && "status" in response.fields
    ensures LoginOutcome(response) == (Session(Null, Null), Ok(response))
  {
  }

  /** A successful login adopts exactly the token and user name the response carries. */
  lemma LoginAdopts(response: Value, updates: map<string, Value>)
    requires response.Object? && "status" !in response.fields
    requires "updates_response" in response.fields && response.fields["updates_response"] == Object(updates)
    ensures LoginOutcome(response).1 == Ok(response)
    ensures LoginOutcome(response).0.authToken == Lookup(updates, "auth_token")
    ensures LoginOutcome(response).0.username == Lookup(updates, "username")
  {
  }

  /** get_updates after the request: the token of updates_response replaces the old one when present. */
  function UpdatesOutcome(token: Value, response: Value): (Value, Result<Value>)
  {
    match Get(response, "updates_response")
    case Err(e) => (token, Err(e))
    case Ok(updates) =>
      match Adopt(token, updates, "auth_token")
      case Err(e) => (token, Err(e))
      case Ok(t) => (t, Ok(response))
  }

  /** The token changes only when updates_response carries one, and then becomes that one. */
  lemma UpdatesTokenRule(token: Value, response: Value, updates: map<string, Value>)
    requires response.Object? && "updates_response" in response.fields
    requires response.fields["updates_response"] == Object(updates)
    ensures UpdatesOutcome(token, response).1 == Ok(response)
    ensures "auth_token" in updates ==> UpdatesOutcome(token, response).0 == updates["auth_token"]
    ensures "auth_token" !in updates ==> UpdatesOutcome(token, response).0 == token
  {
  }

  /**
   * What get_friends returns or raises for one update response: the exception of get_updates,
   * otherwise the response's 'friends_response'. Which of the two it is does not depend on
   * the token held before.
   */
  function FriendsSection(response: Value): (r: Result<Value>)
    ensures forall token :: UpdatesOutcome(token, response).1.Err? ==> r == Err(UpdatesOutcome(token, response).1.error)
    ensures forall token :: UpdatesOutcome(token, response).1.Ok? ==> r == Get(response, "friends_response")
  {
    var updates :- Get(response, "updates_response");
    var adopted :- Adopt(Null, updates, "auth_token");
    Get(response, "friends_response")
  }

  /**
   * response['conversations_response'][0]['pending_received_snaps'], as a list of records:
   * an empty string or dict iterates nothing, and a list of dicts gives their records.
   */
  function PendingRecords(response: Value): Result<seq<Record>>
  {
    var conversations :- Get(response, "conversations_response");
    var first :- At(conversations, 0);
    var pending :- Get(first, "pending_received_snaps");
    if pending.List? && forall i :: 0 <= i < |pending.items| ==> pending.items[i].Object? then
      Ok(seq(|pending.items|, i requires 0 <= i < |pending.items| => pending.items[i].fields))
    else if IteratesNothing(pending) then Ok([])
    else Err(TypeError)
  }

  /**
   * What get_snaps returns or raises for one update response: the exception of get_updates,
   * of reaching the pending list or of mapping a record, otherwise the mapped pending records.
   */
  function SnapsOutcome(token: Value, response: Value): (r: Result<seq<Record>>)
    ensures UpdatesOutcome(token, response).1.Err? ==> r == Err(UpdatesOutcome(token, response).1.error)
    ensures UpdatesOutcome(token, response).1.Ok? && PendingRecords(response).Err? ==> r == Err(PendingRecords(response).error)
    ensures r.Ok? ==> forall i :: 0 <= i < |r.value| ==> r.value[i].Keys == RecordKeys && r.value[i]["media_id"] == Null
  {
    match UpdatesOutcome(token, response).1
    case Err(e) => Err(e)
    case Ok(_) =>
      match PendingRecords(response)
      case Err(e) => Err(e)
      case Ok(pending) => MapPending(pending)
  }

  // ---------------------------------------------------------------------------------------
  // Stories

  /**
   * The inner loop of get_friend_stories, from the stories still to visit: each story's
   * 'story' object gets the friend's user name as 'sender' and is appended.
   */
  function TaggedFrom(friend: Value, acc: seq<Value>, stories: seq<Value>): Result<seq<Value>>
    decreases |stories|
  {
    if stories == [] then Ok(acc)
    else
      var obj :- Get(stories[0], "story");
      var name :- Get(friend, "username");
      if obj.Object? then TaggedFrom(friend, acc + [Object(obj.fields["sender" := name])], stories[1..])
      else Err(TypeError)
  }

  /**
   * The inner loop over friend['stories']: a list's stories are tagged in order; any other
   * value gives no story when empty, and otherwise raises TypeError, since it cannot be
   * iterated or its first element is a string that `story['story']` cannot subscript.
   */
  function TaggedOf(friend: Value, stories: Value): Result<seq<Value>>
  {
    if stories.List? then TaggedFrom(friend, [], stories.items)
    else if IteratesNothing(stories) then Ok([])
    else Err(TypeError)
  }

  /** One friend of the outer loop: its user name and its tagged stories. */
  function FriendEntry(friend: Value): Result<(Value, seq<Value>)>
  {
    var stories :- Get(friend, "stories");
    var tagged :- TaggedOf(friend, stories);
    var name :- Get(friend, "username");
    if Hashable(name) then Ok((name, tagged)) else Err(TypeError)
  }

  /** The outer loop of get_friend_stories, from the friends still to visit. */
  function StoriesFrom(acc: map<Value, seq<Value>>, friends: seq<Value>): Result<map<Value, seq<Value>>>
    decreases |friends|
  {
    if friends == [] then Ok(acc)
    else
      var entry :- FriendEntry(friends[0]);
      StoriesFrom(acc[entry.0 := entry.1], friends[1..])
  }

  /**
   * get_friend_stories over the decoded 'friend_stories' value: a list is grouped friend by
   * friend; any other value gives the empty dict when empty and otherwise raises TypeError,
   * for the same reason as in TaggedOf.
   */
  function FriendStories(friendStories: Value): Result<map<Value, seq<Value>>>
  {
    if friendStories.List? then StoriesFrom(map[], friendStories.items)
    else if IteratesNothing(friendStories) then Ok(map[])
    else Err(TypeError)
  }

  /** `out` is the 'story' object of `story` with the friend's user name set as 'sender'. */
  predicate IsTagged(friend: Value, story: Value, out: Value)
  {
    && friend.Object? && "username" in friend.fields
    && story.Object? && "story" in story.fields && story.fields["story"].Object?
    && out == Object(story.fields["story"].fields["sender" := friend.fields["username"]])
  }

  /** The tagged stories keep the order of the stories, and each is its story tagged with the sender. */
  lemma {:induction false} TaggedShape(friend: Value, acc: seq<Value>, stories: seq<Value>)
    requires TaggedFrom(friend, acc, stories).Ok?
    ensures var t := TaggedFrom(friend, acc, stories).value;
      && |t| == |acc| + |stories|
      && t[..|acc|] == acc
      && forall j :: 0 <= j < |stories| ==> IsTagged(friend, stories[j], t[|acc| + j])
    decreases |stories|
  {
    if stories != [] {
      var obj := Get(stories[0], "story").value;
      var name := Get(friend, "username").value;
      var acc' := acc + [Object(obj.fields["sender" := name])];
      TaggedShape(friend, acc', stories[1..]);
      var t := TaggedFrom(friend, acc, stories).value;
      assert t == TaggedFrom(friend, acc', stories[1..]).value;
      assert t[..|acc|] == t[..|acc'|][..|acc|];
      forall j | 0 <= j < |stories|
        ensures IsTagged(friend, stories[j], t[|acc| + j])
      {
        if j > 0 {
          assert stories[j] == stories[1..][j - 1];
          assert |acc| + j == |acc'| + (j - 1);
        } else {
          assert t[|acc|] == t[..|acc'|][|acc|];
        }
      }
    }
  }

  /** Every story listed under a friend carries that friend's name as its sender. */
  ghost predicate AllTagged(all: map<Value, seq<Value>>)
  {
    forall u, j :: u in all && 0 <= j < |all[u]| ==>
      all[u][j].Object? && "sender" in all[u][j].fields && all[u][j].fields["sender"] == u
  }

  /** A friend's entry is keyed by its user name and lists its stories, each tagged with that name. */
  lemma FriendEntryShape(friend: Value)
    requires FriendEntry(friend).Ok?
    ensures var e := FriendEntry(friend).value;
      && friend.Object? && "username" in friend.fields && e.0 == friend.fields["username"]
      && "stories" in friend.fields
      && (!friend.fields["stories"].List? ==> e.1 == [])
      && (friend.fields["stories"].List? ==>
            && |e.1| == |friend.fields["stories"].items|
            && forall j :: 0 <= j < |e.1| ==>
                 IsTagged(friend, friend.fields["stories"].items[j], e.1[j]))
  {
    if friend.fields["stories"].List? {
      TaggedShape(friend, [], friend.fields["stories"].items);
    }
  }

  /** get_friend_stories tags every story with the name it is listed under. */
  lemma {:induction false} StoriesAreTagged(acc: map<Value, seq<Value>>, friends: seq<Value>)
    requires AllTagged(acc)
    requires StoriesFrom(acc, friends).Ok?
    ensures AllTagged(StoriesFrom(acc, friends).value)
    decreases |friends|
  {
    if friends != [] {
      var e := FriendEntry(friends[0]).value;
      FriendEntryShape(friends[0]);
      var acc': map<Value, seq<Value>> := acc[e.0 := e.1];
      forall u: Value, j: int | u in acc' && 0 <= j < |acc'[u]|
        ensures acc'[u][j].Object? && "sender" in acc'[u][j].fields && acc'[u][j].fields["sender"] == u
      {
        if u == e.0 {
          assert IsTagged(friends[0], friends[0].fields["stories"].items[j], e.1[j]);
        }
      }
      StoriesAreTagged(acc', friends[1..]);
    }
  }

  /** The user name of every friend becomes a key, and nothing else is added. */
  lemma {:induction false} StoriesKeys(acc: map<Value, seq<Value>>, friends: seq<Value>)
    requires StoriesFrom(acc, friends).Ok?
    ensures forall i :: 0 <= i < |friends| ==> FriendEntry(friends[i]).Ok?
    ensures StoriesFrom(acc, friends).value.Keys ==
              acc.Keys + set i | 0 <= i < |friends| :: FriendEntry(friends[i]).value.0
    decreases |friends|
  {
    if friends != [] {
      var e := FriendEntry(friends[0]).value;
      StoriesKeys(acc[e.0 := e.1], friends[1..]);
      forall i | 0 <= i < |friends| ensures FriendEntry(friends[i]).Ok? {
        if i > 0 { assert friends[i] == friends[1..][i - 1]; }
      }
      var rest := set i | 0 <= i < |friends[1..]| :: FriendEntry(friends[1..][i]).value.0;
      var whole := set i | 0 <= i < |friends| :: FriendEntry(friends[i]).value.0;
      assert whole == {e.0} + rest by {
        forall x | x in whole ensures x in {e.0} + rest {
          var i :| 0 <= i < |friends| && FriendEntry(friends[i]).value.0 == x;
          if i > 0 { assert friends[i] == friends[1..][i - 1]; }
        }
        forall x | x in rest ensures x in whole {
          var i :| 0 <= i < |friends[1..]| && FriendEntry(friends[1..][i]).value.0 == x;
          assert friends[1..][i] == friends[i + 1];
        }
      }
    }
  }

  /** When a user name occurs more than once, the last friend with that name wins. */
  lemma {:induction false} StoriesLastWins(acc: map<Value, seq<Value>>, friends: seq<Value>, i: nat)
    requires StoriesFrom(acc, friends).Ok?
    requires i < |friends|
    requires FriendEntry(friends[i]).Ok?
    requires forall k :: i < k < |friends| && FriendEntry(friends[k]).Ok? ==>
               FriendEntry(friends[k]).value.0 != FriendEntry(friends[i]).value.0
    ensures var e := FriendEntry(friends[i]).value;
      e.0 in StoriesFrom(acc, friends).value && StoriesFrom(acc, friends).value[e.0] == e.1
    decreases |friends|
  {
    var e0 := FriendEntry(friends[0]).value;
    var acc' := acc[e0.0 := e0.1];
    if i == 0 {
      StoriesKeep(acc', friends[1..], e0.0);
    } else {
      forall k | i - 1 < k < |friends[1..]| && FriendEntry(friends[1..][k]).Ok?
        ensures FriendEntry(friends[1..][k]).value.0 != FriendEntry(friends[1..][i - 1]).value.0
      {
        assert friends[1..][k] == friends[k + 1];
      }
      StoriesLastWins(acc', friends[1..], i - 1);
    }
  }

  /** A key that no remaining friend names keeps its value. */
  lemma {:induction false} StoriesKeep(acc: map<Value, seq<Value>>, friends: seq<Value>, u: Value)
    requires StoriesFrom(acc, friends).Ok?
    requires u in acc
    requires forall k :: 0 <= k < |friends| && FriendEntry(friends[k]).Ok? ==> FriendEntry(friends[k]).value.0 != u
    ensures u in StoriesFrom(acc, friends).value && StoriesFrom(acc, friends).value[u] == acc[u]
    decreases |friends|
  {
    if friends != [] {
      var e := FriendEntry(friends[0]).value;
      forall k | 0 <= k < |friends[1..]| && FriendEntry(friends[1..][k]).Ok?
        ensures FriendEntry(friends[1..][k]).value.0 != u
      {
        assert friends[1..][k] == friends[k + 1];
      }
      StoriesKeep(acc[e.0 := e.1], friends[1..], u);
    }
  }

  /**
   * The loops of get_friend_stories over the decoded 'friend_stories' value, visiting what
   * Python's `for` visits. The story objects are values here, so the copy in the response is
   * not updated as the source's is.
   */
  method CollectFriendStories(friendStories: Value) returns (r: Result<map<Value, seq<Value>>>)
    ensures friendStories.List? ==> r == StoriesFrom(map[], friendStories.items)
    ensures !friendStories.List? && IteratesNothing(friendStories) ==> r == Ok(map[])
    ensures !friendStories.List? && !IteratesNothing(friendStories) ==> r == Err(TypeError)
  {
    var visited := Visit(friendStories);
    if visited.Err? {
      return Err(visited.error);
    }
    var friends := visited.value;
    if !friendStories.List? {
      VisitNonList(friendStories, friends, "stories");
    }
    ghost var outcome := StoriesFrom(map[], friends);
    assert outcome == FriendStories(friendStories);
    var all: map<Value, seq<Value>> := map[];
    var i := 0;
    while i < |friends|
      invariant 0 <= i <= |friends|
      invariant StoriesFrom(all, friends[i..]) == outcome
    {
      var friend := friends[i];
      assert friends[i..][0] == friend && friends[i..][1..] == friends[i + 1..];
      var storiesValue := Get(friend, "stories");
      if storiesValue.Err? {
        return Err(storiesValue.error);
      }
      var stories;
      stories := TagStories(friend, storiesValue.value);
      if stories.Err? {
        return Err(stories.error);
      }
      var name := Get(friend, "username");
      if name.Err? {
        return Err(name.error);
      }
      if !Hashable(name.value) {
        return Err(TypeError);
      }
      all := all[name.value := stories.value];
      i := i + 1;
    }
    r := Ok(all);
  }

  /** The inner loop of get_friend_stories over one friend's 'stories' value. */
  method TagStories(friend: Value, storiesValue: Value) returns (r: Result<seq<Value>>)
    ensures storiesValue.List? ==> r == TaggedFrom(friend, [], storiesValue.items)
    ensures !storiesValue.List? && IteratesNothing(storiesValue) ==> r == Ok([])
    ensures !storiesValue.List? && !IteratesNothing(storiesValue) ==> r == Err(TypeError)
  {
    var visited := Visit(storiesValue);
    if visited.Err? {
      return Err(visited.error);
    }
    var items := visited.value;
    if !storiesValue.List? {
      VisitNonList(storiesValue, items, "story");
    }
    ghost var outcome := TaggedFrom(friend, [], items);
    assert outcome == TaggedOf(friend, storiesValue);
    var stories: seq<Value> := [];
    var j := 0;
    while j < |items|
      invariant 0 <= j <= |items|
      invariant TaggedFrom(friend, stories, items[j..]) == outcome
    {
      assert items[j..][1..] == items[j + 1..];
      var obj := Get(items[j], "story");
      if obj.Err? {
        return Err(obj.error);
      }
      var name := Get(friend, "username");
      if name.Err? {
        return Err(name.error);
      }
      if !obj.value.Object? {
        return Err(TypeError);
      }
      stories := stories + [Object(obj.value.fields["sender" := name.value])];
      j := j + 1;
    }
    r := Ok(stories);
  }

  // ---------------------------------------------------------------------------------------
  // The session object

  /** The client object: only login, register and the calls that go through get_updates change it. */
  class Snapchat {
    var username: Value
    var authToken: Value

    /** `_reset` leaves both fields None. */
    constructor ()
      ensures username == Null && authToken == Null
    {
      username := Null;
      authToken := Null;
    }

    /** login, given the decoded response of the login request. */
    method Login(response: Value) returns (r: Result<Value>)
      modifies this
      ensures Session(username, authToken) == LoginOutcome(response).0
      ensures r == LoginOutcome(response).1
    {
      username, authToken := Null, Null;
      var failed := Contains(response, "status");
      if failed.Err? {
        return Err(failed.error);
      }
      if failed.value {
        return Ok(response);
      }
      var updates := Get(response, "updates_response");
      if updates.Err? {
        return Err(updates.error);
      }
      var token := Adopt(authToken, updates.value, "auth_token");
      if token.Err? {
        return Err(token.error);
      }
      authToken := token.value;
      var user := Adopt(username, updates.value, "username");
      if user.Err? {
        return Err(user.error);
      }
      username := user.value;
      r := Ok(response);
    }

    /** get_updates, given the decoded response of the update request. */
    method GetUpdates(response: Value) returns (r: Result<Value>)
      modifies this`authToken
      ensures authToken == UpdatesOutcome(old(authToken), response).0
      ensures r == UpdatesOutcome(old(authToken), response).1
    {
      var updates := Get(response, "updates_response");
      if updates.Err? {
        return Err(updates.error);
      }
      var token := Adopt(authToken, updates.value, "auth_token");
      if token.Err? {
        return Err(token.error);
      }
      authToken := token.value;
      r := Ok(response);
    }

    /** get_snaps: the pending records of one update response, filtered and mapped. */
    method GetSnaps(response: Value) returns (r: Result<seq<Record>>)
      modifies this`authToken
      ensures authToken == UpdatesOutcome(old(authToken), response).0
      ensures r == SnapsOutcome(old(authToken), response)
    {
      var updated := GetUpdates(response);
      if updated.Err? {
        return Err(updated.error);
      }
      var pending := PendingRecords(response);
      if pending.Err? {
        return Err(pending.error);
      }
      r := MapPending(pending.value);
    }

    /** get_friends: the 'friends_response' section of one update response. */
    method GetFriends(response: Value) returns (r: Result<Value>)
      modifies this`authToken
      ensures authToken == UpdatesOutcome(old(authToken), response).0
      ensures r == FriendsSection(response)
    {
      var updated := GetUpdates(response);
      if updated.Err? {
        return Err(updated.error);
      }
      r := Get(response, "friends_response");
    }

    /** get_friend_stories: the stories of one update response, grouped by friend. */
    method GetFriendStories(response: Value) returns (r: Result<map<Value, seq<Value>>>)
      modifies this`authToken
      ensures authToken == UpdatesOutcome(old(authToken), response).0
      ensures UpdatesOutcome(old(authToken), response).1.Err? ==> r == Err(UpdatesOutcome(old(authToken), response).1.error)
      ensures UpdatesOutcome(old(authToken), response).1.Ok? ==>
                r == (match Get(response, "stories_response")
                      case Err(e) => Err(e)
                      case Ok(stories) =>
                        match Get(stories, "friend_stories")
                        case Err(e) => Err(e)
                        case Ok(list) => FriendStories(list))
    {
      var updated := GetUpdates(response);
      if updated.Err? {
        return Err(updated.error);
      }
      var stories := Get(response, "stories_response");
      if stories.Err? {
        return Err(stories.error);
      }
      var list := Get(stories.value, "friend_stories");
      if list.Err? {
        return Err(list.error);
      }
      r := CollectFriendStories(list.value);
    }
  }
}
